/** What a superstep of a worker in a cluster does not leave behind, whatever the others and the network do. */
module ClusterProgress {
  import opened Messages
  import opened Cluster

  // ----- sending

  /** Only a computing worker has anything in its outboxes. */
  ghost predicate OutboxesSwept(s: State) {
    forall c: WorkerId, w: WorkerId | At(s.queues, Place(Outbox, c, w)) != [] :: Is(s, c, Computing)
  }

  lemma OutboxesElsewhere(s: State, step: Step, c: WorkerId, w: WorkerId)
    requires Enabled(s, step) && !step.Enqueue? && !step.SwapOutboxes?
    ensures At(Do(s, step).queues, Place(Outbox, c, w)) == At(s.queues, Place(Outbox, c, w))
  {
  }

  lemma {:induction false} SweptNext(s: State, step: Step)
    requires OutboxesSwept(s) && Enabled(s, step)
    ensures OutboxesSwept(Do(s, step))
  {
    var t := Do(s, step);
    forall c: WorkerId, w: WorkerId | At(t.queues, Place(Outbox, c, w)) != [] ensures Is(t, c, Computing) {
      if step.SwapOutboxes? {
        AtSwapped(s.queues, step.c, Place(Outbox, c, w));
        hide Swapped, At;
      } else if step.Enqueue? {
        OnlyOutbox(s, step.c, step.msg, Place(Outbox, c, w));
        hide Appended, At;
      } else {
        OutboxesElsewhere(s, step, c, w);
        hide At, NextQueues;
      }
    }
  }

  lemma {:induction false} SweptAlways(run: seq<State>, n: nat)
    requires IsRun(run) && n < |run|
    ensures OutboxesSwept(run[n])
  {
    if n > 0 {
      SweptAlways(run, n - 1);
      assert Next(run[n - 1], run[(n - 1) + 1]);
      var step :| Enabled(run[n - 1], step) && run[n] == Do(run[n - 1], step);
      SweptNext(run[n - 1], step);
    }
  }

  /** Between its flush and its next turn to compute, a worker has nothing left to send. */
  lemma {:induction false} FlushLeavesNothing(run: seq<State>, n: nat, c: WorkerId, w: WorkerId)
    requires IsRun(run) && n < |run| && !Is(run[n], c, Computing)
    ensures At(run[n].queues, Place(Outbox, c, w)) == []
    ensures !Flushes(run[n], c) || run[n].pcs[c].w > w ==> At(run[n].queues, Place(Flushing, c, w)) == []
  {
    InvAlways(run, n);
    SweptAlways(run, n);
    hide At, IsRun, Held, OwnersKnown;
  }

  // ----- the network

  /** A message at the front of the wire is delivered by the next two steps of its network thread. */
  lemma PairDelivers(s: State, a: WorkerId, b: WorkerId)
    requires At(s.queues, Place(Wire, a, b)) != [] && At(s.queues, Place(Hand, a, b)) == []
    ensures Enabled(s, NetworkPop(a, b)) && Enabled(Do(s, NetworkPop(a, b)), NetworkDeliver(a, b))
    ensures var t, wire := Do(Do(s, NetworkPop(a, b)), NetworkDeliver(a, b)), At(s.queues, Place(Wire, a, b));
      && At(t.queues, Place(Arrived, a, b)) == At(s.queues, Place(Arrived, a, b)) + [wire[0]]
      && At(t.queues, Place(Wire, a, b)) == wire[1..] && At(t.queues, Place(Hand, a, b)) == []
      && t.pcs == s.pcs
      && forall p: Place | p.kind != Arrived && p.kind != Wire && p.kind != Hand :: At(t.queues, p) == At(s.queues, p)
  {
    AtShift(s.queues, Place(Wire, a, b), 1, Place(Hand, a, b), Place(Hand, a, b));
  }

  // ----- receiving

  predicate Before(pc: Pc, last: Pc) {
    match last
    case Inserting => pc.Draining? || pc.Inserting?
    case Swapping => pc.Draining? || pc.Inserting? || pc.Swapping?
    case _ => false
  }

  /** x is drained by worker c, or at a place where c has yet to take it from in this superstep. */
  ghost predicate Ahead(s: State, c: WorkerId, i: WorkerId, x: Item) {
    && c in s.pcs
    && (|| x in At(s.queues, Place(Drained, c, 0))
        || (x in At(s.queues, Place(Inbox, c, 0)) && Before(s.pcs[c], Swapping))
        || (x in At(s.queues, Place(Receiving, c, 0)) && Before(s.pcs[c], Inserting))
        || (x in At(s.queues, Drains(s.net, c, i)) && s.pcs[c].Draining? && s.pcs[c].pair <= i))
  }

  lemma StaysOrMoves(q: Queues, p: Place, k: nat, r: Place, y: Place, x: Item)
    requires k <= |At(q, p)| && p != r && x in At(q, y)
    ensures y != p ==> x in At(Shift(q, p, k, r), y)
    ensures y == p && k == |At(q, p)| ==> x in At(Shift(q, p, k, r), r)
  {
    hide Shift;
    AtShift(q, p, k, r, y);
    AtShift(q, p, k, r, r);
    if y == p && k == |At(q, p)| {
      assert At(q, p)[..k] == At(q, p);
    }
  }

  /** The item where it is, unless the step takes it from there. */
  lemma StepLeaves(s: State, step: Step, y: Place, x: Item)
    requires Enabled(s, step) && x in At(s.queues, y) && (!PerPair(y.kind) || y.kind == Arrived)
    ensures x in At(Do(s, step).queues, y)
         || (step.DrainPair? && y == Drains(s.net, step.c, s.pcs[step.c].pair) && y.kind == Arrived)
         || (step.Insert? && y == Place(Receiving, step.c, 0)) || (step.SwapInbox? && y == Place(Inbox, step.c, 0))
  {
    if step.SwapOutboxes? {
      AtSwapped(s.queues, step.c, y);
      hide Swapped;
    } else if step.Enqueue? {
      OnlyOutbox(s, step.c, step.msg, y);
      hide Appended;
    }
  }

  lemma {:induction false} AheadNext(s: State, step: Step, c: WorkerId, i: WorkerId, x: Item)
    requires Inv(s) && Enabled(s, step) && Ahead(s, c, i, x) && i < s.net.workers && i != c && c < s.net.workers
    ensures Ahead(Do(s, step), c, i, x)
  {
    var t, q := Do(s, step), s.queues;
    if x in At(q, Place(Drained, c, 0)) {
      StepLeaves(s, step, Place(Drained, c, 0), x);
    } else if x in At(q, Place(Inbox, c, 0)) && Before(s.pcs[c], Swapping) {
      InboxNext(s, step, c, i, x);
    } else if x in At(q, Place(Receiving, c, 0)) && Before(s.pcs[c], Inserting) {
      ReceivingNext(s, step, c, i, x);
    } else {
      ArrivedNext(s, step, c, i, x);
    }
    hide Do, At, Inv;
  }

  /** A worker's own program counter moves only by its own steps. */
  lemma PcNext(s: State, step: Step, c: WorkerId)
    requires Enabled(s, step) && c in s.pcs
    ensures c in Do(s, step).pcs && Do(s, step).net == s.net
    ensures Do(s, step).pcs[c] == s.pcs[c] || (step.DrainPair? && step.c == c) || (step.Insert? && step.c == c)
         || (step.SwapInbox? && step.c == c) || (step.SwapOutboxes? && step.c == c) || (step.FlushDone? && step.c == c)
  {
    hide NextQueues, Appended;
  }

  lemma InboxNext(s: State, step: Step, c: WorkerId, i: WorkerId, x: Item)
    requires Enabled(s, step) && c in s.pcs && x in At(s.queues, Place(Inbox, c, 0)) && Before(s.pcs[c], Swapping)
    ensures Ahead(Do(s, step), c, i, x)
  {
    PcNext(s, step, c);
    StepLeaves(s, step, Place(Inbox, c, 0), x);
    if step.SwapInbox? && step.c == c {
      StaysOrMoves(s.queues, Place(Inbox, c, 0), |At(s.queues, Place(Inbox, c, 0))|, Place(Drained, c, 0),
        Place(Inbox, c, 0), x);
      hide Shift, At;
    } else {
      hide NextQueues, At;
    }
  }

  lemma ReceivingNext(s: State, step: Step, c: WorkerId, i: WorkerId, x: Item)
    requires Inv(s) && Enabled(s, step) && c in s.pcs
    requires x in At(s.queues, Place(Receiving, c, 0)) && Before(s.pcs[c], Inserting)
    ensures Ahead(Do(s, step), c, i, x)
  {
    assert Belongs(s.net, Place(Receiving, c, 0), x);
    PcNext(s, step, c);
    StepLeaves(s, step, Place(Receiving, c, 0), x);
    if step.Insert? && step.c == c {
      StaysOrMoves(s.queues, Place(Receiving, c, 0), |At(s.queues, Place(Receiving, c, 0))|, Place(Inbox, c, 0),
        Place(Receiving, c, 0), x);
      hide Shift, At, Inv;
    } else {
      hide NextQueues, At, Inv;
    }
  }

  lemma ArrivedNext(s: State, step: Step, c: WorkerId, i: WorkerId, x: Item)
    requires Inv(s) && Enabled(s, step) && c in s.pcs && i < s.net.workers && i != c
    requires x in At(s.queues, Drains(s.net, c, i)) && s.pcs[c].Draining? && s.pcs[c].pair <= i
    ensures Ahead(Do(s, step), c, i, x)
  {
    assert Belongs(s.net, Drains(s.net, c, i), x);
    PcNext(s, step, c);
    StepLeaves(s, step, Drains(s.net, c, i), x);
    if step.DrainPair? && step.c == c && s.pcs[c].pair == i {
      var p := Drains(s.net, c, i);
      StaysOrMoves(s.queues, p, |At(s.queues, p)|, Place(Receiving, c, 0), p, x);
      hide Shift, At, Inv;
    } else {
      hide NextQueues, At, Inv;
    }
  }

  lemma {:induction false} AheadFrom(run: seq<State>, n: nat, m: nat, c: WorkerId, i: WorkerId, x: Item)
    requires IsRun(run) && n <= m < |run| && Ahead(run[n], c, i, x)
    requires i < run[n].net.workers && i != c && c < run[n].net.workers
    ensures Ahead(run[m], c, i, x) && run[m].net == run[n].net
  {
    hide *;
    if n < m {
      AheadFrom(run, n, m - 1, c, i, x);
      InvAlways(run, m - 1);
      var step := StepTaken(run, m - 1);
      AheadNext(run[m - 1], step, c, i, x);
      SameNet(run[m - 1], step);
    }
  }

  lemma StepTaken(run: seq<State>, n: nat) returns (step: Step)
    requires IsRun(run) && n + 1 < |run|
    ensures Enabled(run[n], step) && run[n + 1] == Do(run[n], step)
  {
    hide Do, Enabled, Init;
    assert Next(run[n], run[n + 1]);
    step :| Enabled(run[n], step) && run[n + 1] == Do(run[n], step);
  }

  lemma SameNet(s: State, step: Step)
    requires Enabled(s, step)
    ensures Do(s, step).net == s.net
  {
    hide NextQueues, Appended;
  }

  /**
   Whatever is in a worker's inbox, or has arrived on a pair it drains, when it starts a superstep, it has
   drained by the time it computes.
   */
  lemma {:induction false} SuperstepTakesAllIn(run: seq<State>, n: nat, m: nat, c: WorkerId, i: WorkerId, x: Item)
    requires IsRun(run) && n <= m < |run| && c < run[n].net.workers && i < run[n].net.workers && i != c
    requires Is(run[n], c, Draining(0)) && Is(run[m], c, Computing)
    requires x in At(run[n].queues, Place(Inbox, c, 0)) || x in At(run[n].queues, Drains(run[n].net, c, i))
    ensures x in At(run[m].queues, Place(Drained, c, 0))
  {
    AheadFrom(run, n, m, c, i, x);
    hide IsRun;
  }
}
