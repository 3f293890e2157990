/** The superstep loop, its convergence test, and the choice of a survivor (coordinator.cpp). */
module Coordinators {
  import opened Messages
  import opened Bsp
  import opened Bus
  import opened Worker

  const SIZE_MAX := WORD - 1

  class Coordinator<S(!new)> {
    const maxSupersteps: nat
    const worker: WorkerNode<S>
    var currentStep: Superstep
    var totalActive: nat
    var done: bool

    constructor (maxSupersteps: nat, worker: WorkerNode<S>)
      ensures this.maxSupersteps == maxSupersteps && this.worker == worker && !done
    {
      this.maxSupersteps, this.worker := maxSupersteps, worker;
      currentStep, totalActive, done := 0, 0, false;
    }

    /** The worker is the only one, has nothing in its outboxes, and holds w. */
    ghost predicate Ready(w: World<S>)
      reads worker, worker.bus, worker.bus.pmap, worker.bus.Network()
    {
      && worker.Valid() && worker.bus.workerCount == 1
      && worker.bus.outboxes == NoBoxes(1) && w == worker.Holds()
    }

    /**
     What the engine's own fields say after a superstep from last: every outbox is empty, no vertex has
     mail waiting in the worker's table, and the bus holds for each vertex what the step sent it.
     */
    ghost predicate Rested(prog: Program<S>, last: World<S>, step: Superstep)
      requires worker.bus.Wired()
      reads worker, worker.bus, worker.bus.Network()
    {
      && worker.bus.Arrived() == []
      && forall v | v in worker.vertices ::
           && worker.vertices[v].outbox == [] && v !in worker.vertexInbox
           && Keep(worker.bus.inbox, AddressedTo(v))
              == Keep(Sent(prog, worker.order, |worker.order|, last, step), AddressedTo(v))
    }

    lemma {:induction false} RestedAfter(prog: Program<S>, w: World<S>, steps: nat)
      requires steps > 0 && Ready(Iterate(prog, worker.order, w, 0, steps))
      ensures Rested(prog, Iterate(prog, worker.order, w, 0, steps - 1), steps - 1)
    {
      hide Iterate, Sent, Keep;
      BetweenSteps(prog, worker.order, w, 0, steps);
      worker.bus.Alone([]);
      var after := Iterate(prog, worker.order, w, 0, steps);
      assert worker.bus.inbox + [] == worker.bus.inbox;
      forall v | v in worker.vertices
        ensures Keep(worker.bus.inbox, AddressedTo(v)) == Inbox(after, v)
      {
        assert v !in after.unclaimed;
        assert [] + Keep(after.mail, AddressedTo(v)) == Keep(after.mail, AddressedTo(v));
      }
    }

    /** One turn of the loop, for a cluster of one worker: exactly one step of the specification. */
    method Superstep(prog: Program<S>, step: Superstep, ghost w: World<S>) returns (active: nat)
      requires Ready(w)
      modifies worker, worker.bus, worker.bus.Network(), worker.bus.Counters()
      ensures worker.order == old(worker.order)
      ensures Ready(Step(prog, worker.order, w, step))
      ensures active == |Active(Step(prog, worker.order, w, step).vertices)|
    {
      hide Settled, Sent, Unclaimed, Active;
      active := worker.RunSuperstep(prog, step, w);
      worker.bus.Alone(Sent(prog, worker.order, |worker.order|, w, step));
      assert worker.bus.inbox + [] == worker.bus.inbox;
    }

    /**
     The whole run: after it the engine's state is the specification's after as many supersteps;
     it stops at the first step that leaves no vertex awake, or at the limit.
     */
    method Run(prog: Program<S>, ghost w: World<S>) returns (steps: nat)
      requires Ready(w)
      modifies this, worker, worker.bus, worker.bus.Network(), worker.bus.Counters()
      ensures worker.order == old(worker.order)
      ensures Ready(Iterate(prog, worker.order, w, 0, steps))
      ensures steps <= maxSupersteps
      ensures steps < maxSupersteps ==> steps > 0 && Active(Iterate(prog, worker.order, w, 0, steps).vertices) == {}
      ensures forall k | 0 < k < steps :: Active(Iterate(prog, worker.order, w, 0, k).vertices) != {}
      ensures done && (steps > 0 ==> currentStep == steps - 1)
      ensures steps > 0 ==> Rested(prog, Iterate(prog, worker.order, w, 0, steps - 1), steps - 1)
    {
      hide Step, Ready, Rested, Active, Iterate;
      NoStepYet(prog, worker.order, w);
      steps := 0;
      while steps < maxSupersteps
        invariant worker.order == old(worker.order) && steps <= maxSupersteps
        invariant Ready(Iterate(prog, worker.order, w, 0, steps))
        invariant forall k | 0 < k <= steps :: Active(Iterate(prog, worker.order, w, 0, k).vertices) != {}
        invariant steps > 0 ==> currentStep == steps - 1
      {
        currentStep := steps;
        OneMoreStep(prog, worker.order, w, steps);
        var active := Superstep(prog, steps, Iterate(prog, worker.order, w, 0, steps));
        totalActive := totalActive + active;
        steps := steps + 1;
        if active == 0 {
          break;
        }
      }
      done := true;
      if steps > 0 {
        RestedAfter(prog, w, steps);
      }
    }
  }

  lemma NoStepYet<S>(prog: Program<S>, order: seq<VertexId>, w: World<S>)
    ensures Iterate(prog, order, w, 0, 0) == w
  {
  }

  lemma OneMoreStep<S>(prog: Program<S>, order: seq<VertexId>, w: World<S>, n: nat)
    ensures Iterate(prog, order, w, 0, n + 1) == Step(prog, order, Iterate(prog, order, w, 0, n), n)
  {
    hide Step;
  }

  // ----- the convergence test

  /** Nothing to do and nothing on its way. */
  ghost predicate Quiescent<S>(w: World<S>) {
    Active(w.vertices) == {} && w.mail == [] && OutboxesEmpty(w) && NoBacklog(w)
  }

  lemma {:induction false} QuiescentStays<S>(prog: Program<S>, order: seq<VertexId>, w: World<S>,
      first: Superstep, n: nat)
    requires Quiescent(w)
    ensures Iterate(prog, order, w, first, n) == w
  {
    if n > 0 {
      QuiescentStays(prog, order, w, first, n - 1);
      QuiescentStep(prog, order, w, first + n - 1);
      hide Step;
    }
  }

  lemma {:induction false} QuiescentStep<S>(prog: Program<S>, order: seq<VertexId>, w: World<S>, step: Superstep)
    requires Quiescent(w)
    ensures Step(prog, order, w, step) == w
  {
    forall v | v in w.vertices ensures After(prog, w, v, step) == w.vertices[v] {
      assert v !in Active(w.vertices) && v !in w.unclaimed;
    }
    NothingSent(prog, order, |order|, w, step);
    forall v ensures Inbox(w, v) == Letters(w.unclaimed, v) {
      assert Keep([], AddressedTo(v)) == [];
    }
    assert Unclaimed(w) == w.unclaimed;
  }

  /** The step leaves mail exactly when some vertex ends it with a message in its outbox. */
  lemma {:induction false} NothingSent<S>(prog: Program<S>, order: seq<VertexId>, n: nat, w: World<S>, step: Superstep)
    requires n <= |order|
    ensures Sent(prog, order, n, w, step) == [] <==>
              forall i | 0 <= i < n && order[i] in w.vertices :: After(prog, w, order[i], step).outbox == []
  {
    if n > 0 {
      NothingSent(prog, order, n - 1, w, step);
    }
  }

  /**
   A program that, on vertices with property good, never halts a vertex while it has something
   to say, and keeps the property.
   */
  ghost predicate HaltsSilently<S(!new)>(prog: Program<S>, good: S -> bool) {
    forall v: VertexId, s: VertexState<S>, mail: seq<Message>, step: Superstep ::
      !s.halted && s.outbox == [] && good(s.local) ==>
        var r := prog(v, s, mail, step);
        good(r.local) && (r.halted ==> r.outbox == [])
  }

  ghost predicate AllGood<S(!new)>(w: World<S>, good: S -> bool) {
    forall v | v in w.vertices :: good(w.vertices[v].local)
  }

  lemma {:induction false} StaysGood<S(!new)>(
    prog: Program<S>, good: S -> bool, order: seq<VertexId>, w: World<S>, first: Superstep, n: nat)
    requires HaltsSilently(prog, good) && AllGood(w, good) && OutboxesEmpty(w)
    ensures AllGood(Iterate(prog, order, w, first, n), good) && OutboxesEmpty(Iterate(prog, order, w, first, n))
  {
    hide Step, HaltsSilently, AllGood, OutboxesEmpty;
    if n > 0 {
      StaysGood(prog, good, order, w, first, n - 1);
      GoodStep(prog, good, order, Iterate(prog, order, w, first, n - 1), first + n - 1);
    }
  }

  lemma {:induction false} GoodStep<S(!new)>(
    prog: Program<S>, good: S -> bool, order: seq<VertexId>, w: World<S>, step: Superstep)
    requires HaltsSilently(prog, good) && AllGood(w, good) && OutboxesEmpty(w)
    ensures AllGood(Step(prog, order, w, step), good) && OutboxesEmpty(Step(prog, order, w, step))
  {
  }

  lemma {:induction false} SilentIfAllHalted<S(!new)>(
    prog: Program<S>, good: S -> bool, order: seq<VertexId>, w: World<S>, step: Superstep)
    requires HaltsSilently(prog, good) && AllGood(w, good) && OutboxesEmpty(w)
    requires Active(Step(prog, order, w, step).vertices) == {}
    ensures Quiescent(Step(prog, order, w, step))
  {
    var next := Step(prog, order, w, step);
    forall v | v in w.vertices ensures After(prog, w, v, step).outbox == [] {
      assert v !in Active(next.vertices);
      assert next.vertices[v].halted;
    }
    NothingSent(prog, order, |order|, w, step);
  }

  /**
   The coordinator only counts vertices that are awake. For a program that halts silently that is
   enough: when the count is zero no message is anywhere and no further superstep changes anything.
   */
  lemma {:induction false} ConvergenceSound<S(!new)>(
    prog: Program<S>, good: S -> bool, order: seq<VertexId>, w: World<S>, n: nat, m: nat)
    requires HaltsSilently(prog, good) && AllGood(w, good) && OutboxesEmpty(w)
    requires 0 < n <= m && Active(Iterate(prog, order, w, 0, n).vertices) == {}
    ensures Quiescent(Iterate(prog, order, w, 0, n))
    ensures Iterate(prog, order, w, 0, m) == Iterate(prog, order, w, 0, n)
  {
    hide Step, Quiescent, HaltsSilently, AllGood, OutboxesEmpty;
    StaysGood(prog, good, order, w, 0, n - 1);
    SilentIfAllHalted(prog, good, order, Iterate(prog, order, w, 0, n - 1), n - 1);
    QuiescentStays(prog, order, Iterate(prog, order, w, 0, n), n, m - n);
    IterateSplit(prog, order, w, n, m - n);
  }

  /** In this step no vertex ends up halted with something in its outbox. */
  ghost predicate SilentStep<S>(prog: Program<S>, w: World<S>, step: Superstep) {
    forall v | v in w.vertices && After(prog, w, v, step).halted :: After(prog, w, v, step).outbox == []
  }

  /** When a step leaves nobody awake, the run is really over exactly if that step was silent. */
  lemma {:induction false} OverExactlyIfSilent<S>(prog: Program<S>, order: seq<VertexId>, w: World<S>, step: Superstep)
    requires Lists(order, w) && Active(Step(prog, order, w, step).vertices) == {}
    ensures Quiescent(Step(prog, order, w, step)) <==> SilentStep(prog, w, step)
  {
    var next := Step(prog, order, w, step);
    forall v | v in w.vertices ensures After(prog, w, v, step).halted {
      assert v !in Active(next.vertices);
      assert next.vertices[v].halted;
    }
    NothingSent(prog, order, |order|, w, step);
    if next.mail == [] {
      forall v | v in w.vertices ensures After(prog, w, v, step).outbox == [] {
        assert v in order;
      }
    }
  }

  lemma {:induction false} IterateSplit<S>(prog: Program<S>, order: seq<VertexId>, w: World<S>, n: nat, k: nat)
    ensures Iterate(prog, order, w, 0, n + k) == Iterate(prog, order, Iterate(prog, order, w, 0, n), n, k)
  {
    hide Step;
    if k > 0 {
      IterateSplit(prog, order, w, n, k - 1);
    }
  }

  // ----- recovery

  /** A worker that may take over: not the failed one, and with a countable number of vertices. */
  predicate Candidate(ids: seq<WorkerId>, counts: seq<nat>, failed: WorkerId, i: nat)
    requires i < |ids| == |counts|
  {
    ids[i] != failed && counts[i] < SIZE_MAX
  }

  /** The survivor that takes over: the first with the fewest vertices, or worker 0 if there is none. */
  method ChooseSurvivor(ids: seq<WorkerId>, counts: seq<nat>, failed: WorkerId) returns (newOwner: WorkerId)
    requires |ids| == |counts|
    ensures (forall i | 0 <= i < |ids| :: !Candidate(ids, counts, failed, i)) ==> newOwner == 0
    ensures (exists i :: 0 <= i < |ids| && Candidate(ids, counts, failed, i)) ==>
              exists k :: 0 <= k < |ids| && Candidate(ids, counts, failed, k) && newOwner == ids[k]
                && (forall i | 0 <= i < |ids| && Candidate(ids, counts, failed, i) :: counts[k] <= counts[i])
                && (forall i | 0 <= i < k && Candidate(ids, counts, failed, i) :: counts[k] < counts[i])
  {
    newOwner := 0;
    var minVertices, best := SIZE_MAX, -1;
    for i := 0 to |ids|
      invariant -1 <= best < i && minVertices <= SIZE_MAX
      invariant best == -1 ==> newOwner == 0 && minVertices == SIZE_MAX
      invariant best == -1 ==> forall j | 0 <= j < i :: !Candidate(ids, counts, failed, j)
      invariant best >= 0 ==> Candidate(ids, counts, failed, best)
      invariant best >= 0 ==> newOwner == ids[best] && minVertices == counts[best]
      invariant best >= 0 ==> forall j | 0 <= j < i && Candidate(ids, counts, failed, j) :: minVertices <= counts[j]
      invariant best >= 0 ==> forall j | 0 <= j < best && Candidate(ids, counts, failed, j) :: minVertices < counts[j]
    {
      if ids[i] == failed {
        continue;
      }
      if counts[i] < minVertices {
        minVertices, newOwner, best := counts[i], ids[i], i;
      }
    }
  }
}
