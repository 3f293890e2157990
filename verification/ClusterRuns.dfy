/** What holds over every run of a cluster, for either wiring of the queue pairs. */
module ClusterRuns {
  import opened Messages
  import opened Cluster

  /**
   Conservation: at every moment, and with either wiring, the messages ever enqueued on a's bus for
   worker w are, in order and each exactly once, those the draining side has and those on their way;
   and nothing is in a place of another route.
   */
  lemma {:induction false} ExactlyOnce(run: seq<State>, n: nat, a: WorkerId, w: WorkerId)
    requires IsRun(run) && n < |run|
    ensures var s := run[n];
      OnRoute(s.enqueued, a, w) == Sunk(s.queues, Sink(s.net, a, w), a, w) + Underway(s.queues, a, w)
    ensures AllBelong(run[n].net, run[n].queues)
  {
    InvAlways(run, n);
    assert Conserved(run[n].net, run[n].enqueued, run[n].queues, a, w);
  }

  /** What has been drained of a route is the first part of what was enqueued for it. */
  lemma {:induction false} DrainedIsPrefix(run: seq<State>, n: nat, a: WorkerId, w: WorkerId)
    requires IsRun(run) && n < |run|
    ensures var s := run[n];
      OnRoute(At(s.queues, Place(Drained, Sink(s.net, a, w), 0)), a, w) <= OnRoute(s.enqueued, a, w)
  {
    ExactlyOnce(run, n, a, w);
  }

  /** A drained message was drained by its owner exactly if the wiring is as designed or it never left home. */
  lemma {:induction false} DrainedByOwner(run: seq<State>, n: nat, c: WorkerId, x: Item)
    requires IsRun(run) && n < |run| && x in At(run[n].queues, Place(Drained, c, 0))
    ensures c == x.to <==> run[n].net.remoteSink || x.from == x.to
    ensures !run[n].net.remoteSink ==> c == x.from
  {
    InvAlways(run, n);
    assert Belongs(run[n].net, Place(Drained, c, 0), x);
  }

  /** Without RDMA a message for another worker is never delivered to anyone. */
  lemma {:induction false} RemoteLostWithoutRdma(run: seq<State>, n: nat, p: Place, x: Item)
    requires IsRun(run) && n < |run| && x in At(run[n].queues, p)
    requires !run[n].net.rdma && x.from != x.to
    ensures p.kind == Outbox || p.kind == Flushing || p.kind == Lost
  {
    InvAlways(run, n);
    assert Belongs(run[n].net, p, x);
  }

  /** With RDMA nothing is ever dropped. */
  lemma {:induction false} NothingLostWithRdma(run: seq<State>, n: nat, a: WorkerId, w: WorkerId)
    requires IsRun(run) && n < |run| && run[n].net.rdma
    ensures At(run[n].queues, Place(Lost, a, w)) == []
  {
    InvAlways(run, n);
    SomeBelongs(run[n].net, run[n].queues, Place(Lost, a, w));
  }

  /** At this step of the run x is enqueued, and routed to its recipient's owner of that moment. */
  ghost predicate EnqueuedAt(run: seq<State>, i: nat, x: Item) {
    && i + 1 < |run| && run[i].net.workers > 0
    && run[i + 1].enqueued == run[i].enqueued + [x] && run[i + 1].overrides == run[i].overrides
    && x == Tag(run[i], x.from, x.msg)
  }

  /** The owner a message was sent to is the one the partition map named at the step that enqueued it. */
  lemma {:induction false} OwnerAsEnqueued(run: seq<State>, n: nat, x: Item)
    requires IsRun(run) && n < |run| && x in run[n].enqueued
    ensures exists i: nat :: i < n && EnqueuedAt(run, i, x)
  {
    assert n > 0;
    var i: nat := n - 1;
    assert Next(run[i], run[i + 1]);
    InvAlways(run, i);
    hide IsRun, Inv;
    if x in run[i].enqueued {
      OwnerAsEnqueued(run, i, x);
    } else {
      assert EnqueuedAt(run, i, x);
    }
  }

  lemma {:induction false} OnRouteMember(s: seq<Item>, a: WorkerId, w: WorkerId, x: Item)
    ensures x in OnRoute(s, a, w) <==> x in s && x.from == a && x.to == w
  {
    if s != [] {
      OnRouteMember(s[..|s| - 1], a, w, x);
      assert s == s[..|s| - 1] + [s[|s| - 1]];
    }
  }

  /** Only what was enqueued is ever drained. */
  lemma {:induction false} DrainedWasEnqueued(run: seq<State>, n: nat, c: WorkerId, x: Item)
    requires IsRun(run) && n < |run| && x in At(run[n].queues, Place(Drained, c, 0))
    ensures x in run[n].enqueued
  {
    InvAlways(run, n);
    assert Belongs(run[n].net, Place(Drained, c, 0), x);
    hide IsRun, Inv;
    DrainedIsPrefix(run, n, x.from, x.to);
    OnRouteMember(At(run[n].queues, Place(Drained, c, 0)), x.from, x.to, x);
    OnRouteMember(run[n].enqueued, x.from, x.to, x);
  }

  /** The owner, at state s, of the vertex x is addressed to. */
  function OwnerThen(s: State, x: Item): WorkerId
    requires s.net.workers > 0
  {
    Owner(s.overrides, s.net.workers, x.msg.dst)
  }

  /**
   A message is drained by the worker that owned its recipient when it was enqueued, exactly if the
   wiring is as designed or the owner was the worker that enqueued it.
   */
  lemma {:induction false} DrainedByOwnerAsEnqueued(run: seq<State>, n: nat, c: WorkerId, x: Item)
    requires IsRun(run) && n < |run| && x in At(run[n].queues, Place(Drained, c, 0))
    ensures exists i: nat :: i < n && EnqueuedAt(run, i, x)
              && (c == OwnerThen(run[i], x) <==> run[n].net.remoteSink || x.from == OwnerThen(run[i], x))
  {
    DrainedWasEnqueued(run, n, c, x);
    OwnerAsEnqueued(run, n, x);
    DrainedByOwner(run, n, c, x);
    hide IsRun;
  }
}
