/**
 The scheduler as an object (numa_scheduler.cpp): placing tasks on nodes, choosing the least loaded
 node, and the bounded history of latency spikes. TaskPool has the interleavings.
 */
module NumaScheduling {

  const SPIKE_THRESHOLD := 3
  const SPIKE_HISTORY := 1000

  datatype Task = Task(taskId: nat, preferredNode: nat, expectedUs: nat)

  datatype LatencyRecord = LatencyRecord(taskId: nat, numaNode: nat, actualUs: nat, expectedUs: nat)

  /** The tasks of ts that prefer the given node, in order. */
  function Preferring(ts: seq<Task>, numaNodes: nat, node: nat): seq<Task>
    requires numaNodes > 0
  {
    if ts == [] then []
    else
      var rest := Preferring(ts[..|ts| - 1], numaNodes, node);
      if ts[|ts| - 1].preferredNode % numaNodes == node then rest + [ts[|ts| - 1]] else rest
  }

  /** The last n entries of a history. */
  function Latest<T>(s: seq<T>, n: nat): seq<T> {
    if |s| <= n then s else s[|s| - n..]
  }

  /** node is the first of those with the smallest load. */
  ghost predicate LeastLoaded(active: seq<nat>, node: nat) {
    && node < |active|
    && (forall i | 0 <= i < |active| :: active[node] <= active[i])
    && (forall i | 0 <= i < node :: active[node] < active[i])
  }

  class NumaScheduler {
    const numaNodes: nat
    var tasks: seq<seq<Task>>
    var active: seq<nat>
    var totalSubmitted: nat
    var totalCompleted: nat
    var spikeCount: nat
    var migrateCount: nat
    var spikes: seq<LatencyRecord>
    ghost var everySpike: seq<LatencyRecord>

    constructor (numaNodes: nat)
      requires numaNodes > 0
      ensures Valid() && this.numaNodes == numaNodes && everySpike == []
      ensures forall n | 0 <= n < numaNodes :: tasks[n] == []
    {
      this.numaNodes := numaNodes;
      tasks := seq(numaNodes, _ => []);
      active := seq(numaNodes, _ => 0);
      totalSubmitted, totalCompleted, spikeCount, migrateCount := 0, 0, 0, 0;
      spikes, everySpike := [], [];
    }

    /** Between tasks: each node's load is its queue, and the history is the latest of all spikes. */
    ghost predicate Valid()
      reads this
    {
      && numaNodes > 0 && |tasks| == |active| == numaNodes
      && (forall n | 0 <= n < numaNodes :: active[n] == |tasks[n]|)
      && spikeCount == |everySpike|
      && spikes == Latest(everySpike, SPIKE_HISTORY)
    }

    method Submit(t: Task)
      requires Valid()
      modifies this`tasks, this`active, this`totalSubmitted
      ensures Valid() && totalSubmitted == old(totalSubmitted) + 1
      ensures var n := t.preferredNode % numaNodes; tasks == old(tasks)[n := old(tasks)[n] + [t]]
    {
      var node := t.preferredNode % numaNodes;
      tasks := tasks[node := tasks[node] + [t]];
      active := active[node := active[node] + 1];
      totalSubmitted := totalSubmitted + 1;
    }

    /** Each node receives, in order, exactly the tasks that prefer it. */
    method SubmitBulk(ts: seq<Task>)
      requires Valid()
      modifies this`tasks, this`active, this`totalSubmitted
      ensures Valid() && totalSubmitted == old(totalSubmitted) + |ts|
      ensures forall n | 0 <= n < numaNodes :: tasks[n] == old(tasks)[n] + Preferring(ts, numaNodes, n)
    {
      for i := 0 to |ts|
        invariant Valid() && totalSubmitted == old(totalSubmitted) + i
        invariant forall n | 0 <= n < numaNodes :: tasks[n] == old(tasks)[n] + Preferring(ts[..i], numaNodes, n)
      {
        assert ts[..i + 1][..i] == ts[..i];
        Submit(ts[i]);
      }
      assert ts[..|ts|] == ts;
    }

    method LeastLoadedNode() returns (best: nat)
      requires Valid()
      ensures LeastLoaded(active, best)
    {
      best := 0;
      var minLoad := active[0];
      for i := 1 to numaNodes
        invariant best < i && minLoad == active[best]
        invariant forall j | 0 <= j < i :: minLoad <= active[j]
        invariant forall j | 0 <= j < best :: minLoad < active[j]
      {
        if active[i] < minLoad {
          minLoad, best := active[i], i;
        }
      }
    }

    /** A vertex moves to the least loaded node; it is counted only if that is another node. */
    method MigrateVertex(currentNode: nat) returns (newNode: nat)
      requires Valid()
      modifies this`migrateCount
      ensures LeastLoaded(active, newNode)
      ensures migrateCount == old(migrateCount) + (if newNode == currentNode then 0 else 1)
    {
      newNode := LeastLoadedNode();
      if newNode != currentNode {
        migrateCount := migrateCount + 1;
      }
    }

    /** One pass of a thread of the node through its loop; the task takes actualUs to run. */
    method RunNext(node: nat, actualUs: nat) returns (ran: bool)
      requires Valid() && node < numaNodes
      modifies this
      ensures Valid() && ran == (old(tasks)[node] != [])
      ensures migrateCount == old(migrateCount) && totalSubmitted == old(totalSubmitted)
      ensures tasks == if ran then old(tasks)[node := old(tasks)[node][1..]] else old(tasks)
      ensures totalCompleted == old(totalCompleted) + (if ran then 1 else 0)
      ensures var front := old(tasks)[node];
        everySpike == old(everySpike)
          + (if ran && actualUs > 3 * front[0].expectedUs
             then [LatencyRecord(front[0].taskId, node, actualUs, front[0].expectedUs)] else [])
    {
      if tasks[node] == [] {
        return false;
      }
      var task := tasks[node][0];
      tasks := tasks[node := tasks[node][1..]];
      if actualUs > task.expectedUs * SPIKE_THRESHOLD {
        RecordSpike(LatencyRecord(task.taskId, node, actualUs, task.expectedUs));
      }
      active := active[node := active[node] - 1];
      totalCompleted := totalCompleted + 1;
      ran := true;
    }

    /** The history never holds more than its cap: the oldest entry makes room. */
    method RecordSpike(r: LatencyRecord)
      requires spikeCount == |everySpike| && spikes == Latest(everySpike, SPIKE_HISTORY)
      modifies this`spikeCount, this`spikes, this`everySpike
      ensures everySpike == old(everySpike) + [r]
      ensures spikeCount == |everySpike| && spikes == Latest(everySpike, SPIKE_HISTORY)
      ensures |spikes| == if |everySpike| < 1000 then |everySpike| else 1000
      ensures spikes == everySpike[|everySpike| - |spikes|..]
    {
      spikeCount := spikeCount + 1;
      everySpike := everySpike + [r];
      spikes := spikes + [r];
      if |spikes| > SPIKE_HISTORY {
        spikes := spikes[1..];
      }
    }
  }

  lemma {:induction false} PreferringMember(ts: seq<Task>, numaNodes: nat, node: nat, t: Task)
    requires numaNodes > 0
    ensures t in Preferring(ts, numaNodes, node) <==> t in ts && t.preferredNode % numaNodes == node
  {
    if ts != [] {
      PreferringMember(ts[..|ts| - 1], numaNodes, node, t);
      assert ts == ts[..|ts| - 1] + [ts[|ts| - 1]];
    }
  }
}
