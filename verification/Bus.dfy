/** Ownership of vertices and the per-worker message bus (message_bus.hpp, message_bus.cpp). */
module Bus {
  import opened Messages
  import opened QueuePairs
  import opened Rdma

  class PartitionMap {
    const workerCount: nat
    var overrides: map<VertexId, WorkerId>

    constructor (workerCount: nat)
      ensures this.workerCount == workerCount && overrides == map[]
    {
      this.workerCount := workerCount;
      overrides := map[];
    }

    /** Every owner is a worker of the cluster. */
    ghost predicate Valid()
      reads this
    {
      workerCount > 0 && forall v | v in overrides :: overrides[v] < workerCount
    }

    /** The owner is always one of the workers, as long as no migration has named another. */
    function OwnerOf(v: VertexId): (w: WorkerId)
      requires workerCount > 0
      reads this
      ensures Valid() ==> w < workerCount
    {
      Owner(overrides, workerCount, v)
    }

    /** The vertex has a new owner, and no other vertex has. */
    method Migrate(v: VertexId, newOwner: WorkerId)
      modifies this
      ensures overrides == old(overrides)[v := newOwner]
      ensures workerCount > 0 ==> OwnerOf(v) == newOwner && forall u | u != v :: OwnerOf(u) == old(OwnerOf(u))
      ensures old(Valid()) && newOwner < workerCount ==> Valid()
    {
      overrides := overrides[v := newOwner];
    }
  }

  function TotalLength(boxes: seq<seq<Message>>): nat {
    if boxes == [] then 0 else TotalLength(boxes[..|boxes| - 1]) + |boxes[|boxes| - 1]|
  }

  function NoBoxes(n: nat): (r: seq<seq<Message>>)
    ensures |r| == n
  {
    if n == 0 then [] else NoBoxes(n - 1) + [[]]
  }

  lemma {:induction false} NoBoxesAt(n: nat, w: nat)
    requires w < n
    ensures NoBoxes(n)[w] == []
  {
    if w < n - 1 {
      NoBoxesAt(n - 1, w);
    }
  }

  class MessageBus {
    const localId: WorkerId
    const workerCount: nat
    const useRdma: bool
    const pmap: PartitionMap
    const transport: RdmaTransport?
    ghost var handed: seq<seq<Message>>  // all that was ever handed to the network, by recipient's owner
    var outboxes: seq<seq<Message>>
    var inbox: seq<Message>
    var sent: nat
    var received: nat

    constructor (localId: WorkerId, workerCount: nat, pmap: PartitionMap, transport: RdmaTransport?)
      requires localId < workerCount && pmap.workerCount == workerCount && pmap.Valid()
      requires transport != null ==>
        transport.Valid() && transport.localId == localId && transport.workerCount == workerCount
      ensures Valid() && this.localId == localId && this.pmap == pmap && this.transport == transport
      ensures this.workerCount == workerCount && useRdma == (transport != null)
      ensures outboxes == handed == NoBoxes(workerCount) && inbox == []
    {
      this.localId, this.workerCount, this.useRdma := localId, workerCount, transport != null;
      this.pmap, this.transport := pmap, transport;
      outboxes, handed := NoBoxes(workerCount), NoBoxes(workerCount);
      inbox, sent, received := [], 0, 0;
    }

    /** How the bus is put together; none of it ever changes. */
    ghost predicate Wired() {
      && localId < workerCount == pmap.workerCount
      && (useRdma <==> transport != null)
      && (transport != null ==>
            transport.Valid() && transport.localId == localId && transport.workerCount == workerCount)
    }

    /** Every owner is one of the workers. */
    ghost predicate OwnersKnown()
      reads pmap
    {
      pmap.workerCount == workerCount && pmap.Valid()
    }

    /** There is an outbox for every owner. */
    ghost predicate Routable()
      reads this`outboxes, pmap
    {
      OwnersKnown() && |outboxes| == workerCount
    }

    ghost predicate Valid()
      reads this`outboxes, this`handed, pmap
    {
      Wired() && Routable() && |handed| == workerCount
    }

    ghost function Network(): set<QueuePair> {
      if transport == null then {} else transport.pairs
    }

    ghost function Counters(): set<RdmaTransport> {
      if transport == null then {} else {transport}
    }

    /** What the network has delivered and this worker has not yet drained. */
    ghost function Arrived(): seq<Message>
      requires Wired()
      reads Network()
    {
      if transport == null then [] else transport.Arrived(workerCount)
    }

    /** What is with the network for worker w. */
    ghost function Flying(w: WorkerId): seq<Message>
      requires Wired() && w < workerCount
      reads Network()
    {
      if transport != null && transport.qps[w] != null then Msgs(transport.qps[w].inFlight) else []
    }

    /** What is with the network, worker by worker. */
    ghost function Flights(): (r: seq<seq<Message>>)
      requires Wired()
      reads Network()
      ensures |r| == workerCount && forall w | 0 <= w < workerCount :: r[w] == Flying(w)
    {
      seq(workerCount, w requires 0 <= w < workerCount && Wired() reads Network() => Flying(w))
    }

    /** The log of hand-overs after box has been flushed for worker w, if it needs the network and there is one. */
    ghost function Handed(log: seq<seq<Message>>, w: WorkerId, box: seq<Message>): (r: seq<seq<Message>>)
      requires w < |log| == workerCount
      ensures |r| == workerCount
    {
      if useRdma && w != localId then log[w := log[w] + box] else log
    }

    lemma HandedNothing(log: seq<seq<Message>>, w: WorkerId)
      requires w < |log| == workerCount
      ensures Handed(log, w, []) == log
    {
      assert log[w] + [] == log[w];
    }

    /** The log after the first n of the boxes. */
    ghost function Added(log: seq<seq<Message>>, boxes: seq<seq<Message>>, n: nat): (r: seq<seq<Message>>)
      requires n <= |log| == |boxes| == workerCount
      ensures |r| == workerCount
    {
      if n == 0 then log else Handed(Added(log, boxes, n - 1), n - 1, boxes[n - 1])
    }

    /** In the end every other worker's box has been handed over, or none if there is no network. */
    lemma {:induction false} AddedBoxes(log: seq<seq<Message>>, boxes: seq<seq<Message>>, n: nat, w: WorkerId)
      requires n <= |log| == |boxes| == workerCount && w < workerCount
      ensures Added(log, boxes, n)[w]
           == if useRdma && w != localId && w < n then log[w] + boxes[w] else log[w]
    {
      if n > 0 {
        AddedBoxes(log, boxes, n - 1, w);
      }
    }

    ghost function Mine(w: WorkerId): Selector
      reads pmap
    {
      OwnedBy(pmap.overrides, workerCount, w)
    }

    /** The outboxes after ms are appended one by one, each to the box of its owner. */
    ghost function Routed(boxes: seq<seq<Message>>, ms: seq<Message>): (r: seq<seq<Message>>)
      requires OwnersKnown() && |boxes| == workerCount
      reads pmap
      ensures |r| == workerCount
    {
      if ms == [] then boxes
      else
        var r := Routed(boxes, ms[..|ms| - 1]);
        var w := pmap.OwnerOf(ms[|ms| - 1].dst);
        r[w := r[w] + [ms[|ms| - 1]]]
    }

    /** Each box receives, in order, exactly the messages whose recipient its worker owns. */
    lemma {:induction false} RoutedByOwner(boxes: seq<seq<Message>>, ms: seq<Message>, w: WorkerId)
      requires OwnersKnown() && |boxes| == workerCount && w < workerCount
      ensures Routed(boxes, ms)[w] == boxes[w] + Keep(ms, Mine(w))
    {
      if ms != [] {
        RoutedByOwner(boxes, ms[..|ms| - 1], w);
      }
    }

    lemma {:induction false} RoutedConcat(boxes: seq<seq<Message>>, a: seq<Message>, b: seq<Message>)
      requires OwnersKnown() && |boxes| == workerCount
      ensures Routed(Routed(boxes, a), b) == Routed(boxes, a + b)
    {
      if b == [] {
        assert a + b == a;
      } else {
        assert (a + b)[..|a + b| - 1] == a + b[..|b| - 1];
        RoutedConcat(boxes, a, b[..|b| - 1]);
      }
    }

    /** One message goes to the box of its owner. */
    method Enqueue(m: Message)
      requires Routable()
      modifies this`outboxes
      ensures Routable()
      ensures outboxes == Routed(old(outboxes), [m])
    {
      var dstWorker := pmap.OwnerOf(m.dst);
      assert Routed(outboxes, [m][..0]) == outboxes;
      outboxes := outboxes[dstWorker := outboxes[dstWorker] + [m]];
    }

    method EnqueueBatch(msgs: seq<Message>)
      requires Routable()
      modifies this`outboxes
      ensures Routable()
      ensures outboxes == Routed(old(outboxes), msgs)
    {
      for i := 0 to |msgs|
        invariant Routable()
        invariant outboxes == Routed(old(outboxes), msgs[..i])
      {
        RoutedConcat(old(outboxes), msgs[..i], [msgs[i]]);
        assert msgs[..i + 1] == msgs[..i] + [msgs[i]];
        Enqueue(msgs[i]);
      }
      assert msgs[..|msgs|] == msgs;
    }

    /** One iteration of flush: the box of worker w, if not empty, goes to the inbox, to the network, or nowhere. */
    method Route(w: WorkerId, box: seq<Message>)
      requires Wired() && w < workerCount == |handed|
      modifies this`inbox, this`sent, this`handed, Network(), Counters()
      ensures inbox == old(inbox) + (if w == localId then box else [])
      ensures sent == old(sent) + |box|
      ensures handed == Handed(old(handed), w, box)
      ensures Arrived() == old(Arrived())
      ensures useRdma && w != localId ==> Flying(w) == old(Flying(w)) + box
      ensures forall u | 0 <= u < workerCount && u != w :: Flying(u) == old(Flying(u))
      ensures Flights() == Handed(old(Flights()), w, box)
    {
      HandedNothing(handed, w);
      assert Flying(w) + [] == Flying(w);
      if box == [] {
        return;
      }
      sent := sent + |box|;
      handed := Handed(handed, w, box);
      if w == localId {
        inbox := inbox + box;
      } else if useRdma {
        var _ := transport.SendBatch(w, box);
        SameArrivals(workerCount);
      }
    }

    method Flush()
      requires Wired() && |outboxes| == |handed| == workerCount
      modifies this`outboxes, this`inbox, this`sent, this`handed, Network(), Counters()
      ensures outboxes == NoBoxes(workerCount)
      ensures inbox == old(inbox) + old(outboxes[localId])
      ensures handed == Added(old(handed), old(outboxes), workerCount)
      ensures useRdma ==>
                forall u | 0 <= u < workerCount && u != localId :: Flying(u) == old(Flying(u)) + old(outboxes[u])
      ensures Flights() == Added(old(Flights()), old(outboxes), workerCount)
      ensures Arrived() == old(Arrived())
      ensures sent == old(sent) + TotalLength(old(outboxes))
    {
      hide Flying, Arrived, Handed, OwnersKnown;
      ghost var before := Flights();
      var boxes := outboxes;
      outboxes := NoBoxes(workerCount);
      for w := 0 to workerCount
        invariant outboxes == NoBoxes(workerCount)
        invariant inbox == old(inbox) + (if localId < w then boxes[localId] else [])
        invariant sent == old(sent) + TotalLength(boxes[..w])
        invariant handed == Added(old(handed), boxes, w)
        invariant Arrived() == old(Arrived())
        invariant Flights() == Added(before, boxes, w)
      {
        assert boxes[..w + 1][..w] == boxes[..w];
        Route(w, boxes[w]);
      }
      assert boxes[..workerCount] == boxes;
      forall u | 0 <= u < workerCount && u != localId && useRdma ensures Flying(u) == old(Flying(u)) + boxes[u] {
        AddedBoxes(before, boxes, workerCount, u);
        assert Flights()[u] == Flying(u) && before[u] == old(Flying(u));
      }
    }

    twostate lemma {:induction false} SameArrivals(n: nat)
      requires transport != null && transport.Valid() && n <= transport.workerCount
      requires forall u | 0 <= u < n && transport.qps[u] != null ::
                 transport.qps[u].inbox == old(transport.qps[u].inbox)
      ensures transport.Arrived(n) == old(transport.Arrived(n))
    {
      if n > 0 {
        SameArrivals(n - 1);
      }
    }

    lemma {:induction false} NoArrivals(n: nat)
      requires transport != null && transport.Valid() && n <= transport.workerCount
      requires forall u | 0 <= u < n && transport.qps[u] != null :: transport.qps[u].inbox == []
      ensures transport.Arrived(n) == []
    {
      if n > 0 {
        NoArrivals(n - 1);
      }
    }

    /** A cluster of one worker has no network, and keeps all of its mail. */
    lemma {:induction false} Alone(ms: seq<Message>)
      requires Wired() && OwnersKnown() && workerCount == 1
      ensures Arrived() == [] && Routed(NoBoxes(1), ms)[localId] == ms
    {
      if transport != null {
        assert transport.Arrived(0) == [] && transport.qps[0] == null;
      }
      RoutedByOwner(NoBoxes(1), ms, 0);
      NoBoxesAt(1, 0);
      KeepAll(ms, Mine(0));
      assert [] + ms == ms;
    }

    method DrainInbox() returns (out: seq<Message>)
      requires Wired()
      modifies this`inbox, this`received, Network()
      ensures out == old(inbox) + old(Arrived()) && inbox == []
      ensures forall u | 0 <= u < workerCount :: Flying(u) == old(Flying(u))
      ensures Flights() == old(Flights())
      ensures Arrived() == []
      ensures received == old(received) + |out|
    {
      if useRdma {
        var remote := transport.ReceiveAll();
        inbox := inbox + remote;
        NoArrivals(workerCount);
      }
      received := received + |inbox|;
      out, inbox := inbox, [];
    }
  }
}
