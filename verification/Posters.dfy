/** How the guarantees of a queue pair depend on who posts to it. */
module Posters {
  import opened Messages
  import opened QueuePairs
  import opened Sets

  const BEAT := Message(0, 0, 0, Heartbeat)

  // ----- runs

  lemma {:induction false} PostersFixed(run: seq<Channel>, i: nat)
    requires IsRun(run) && i < |run|
    ensures run[i].posters.Keys == run[0].posters.Keys
  {
    if i > 0 {
      PostersFixed(run, i - 1);
      assert Next(run[i - 1], run[(i - 1) + 1]);
      var s :| Enabled(run[i - 1], s) && run[i] == Do(run[i - 1], s);
    }
  }

  lemma {:induction false} PostedGrows(run: seq<Channel>, a: nat, b: nat)
    requires IsRun(run) && a <= b < |run|
    ensures |run[a].posted| <= |run[b].posted|
  {
    if a < b {
      PostedGrows(run, a, b - 1);
      assert Next(run[b - 1], run[(b - 1) + 1]);
      var s :| Enabled(run[b - 1], s) && run[b] == Do(run[b - 1], s);
    }
  }

  lemma {:induction false} NobodyPosts(run: seq<Channel>, i: nat)
    requires IsRun(run) && i < |run| && run[0].posters.Keys == {}
    ensures run[i].posted == []
  {
    if i > 0 {
      NobodyPosts(run, i - 1);
      PostersFixed(run, i - 1);
      assert Next(run[i - 1], run[(i - 1) + 1]);
      var s :| Enabled(run[i - 1], s) && run[i] == Do(run[i - 1], s);
    }
  }

  /** In its step j the run queues a write of p. */
  ghost predicate Queues(run: seq<Channel>, j: nat, p: nat) {
    j + 1 < |run| && Enabled(run[j], Push(p)) && run[j + 1] == Do(run[j], Push(p))
  }

  /** By state i, p has queued the k-th of all writes. */
  ghost predicate Own(run: seq<Channel>, i: nat, p: nat, k: nat) {
    exists j: nat :: j < i && Queues(run, j, p) && |run[j].posted| == k
  }

  /** flush, called by p between two of its posts, may return. */
  predicate Exits(c: Channel, p: nat) {
    p in c.posters && c.posters[p] == Ready && c.pending == 0
  }

  // ----- two posters

  /** The posters of ps, all between posts except p and q. */
  function Pair(ps: set<nat>, p: nat, a: Poster, q: nat, b: Poster): map<nat, Poster> {
    map x | x in ps :: if x == p then a else if x == q then b else Ready
  }

  lemma PairUpdated(ps: set<nat>, p: nat, a: Poster, q: nat, b: Poster, next: Poster)
    requires p in ps && q in ps && p != q
    ensures Pair(ps, p, a, q, b)[p := next] == Pair(ps, p, next, q, b)
    ensures Pair(ps, p, a, q, b)[q := next] == Pair(ps, p, a, q, next)
  {
  }

  /** One more step; what the run was so far stays. */
  lemma {:induction false} Lengthen(run: seq<Channel>, s: Step) returns (longer: seq<Channel>)
    requires IsRun(run) && Enabled(run[|run| - 1], s)
    ensures IsRun(longer) && longer[|longer| - 1] == Do(run[|run| - 1], s)
    ensures |longer| == |run| + 1 && longer[..|run|] == run && longer[0] == run[0]
  {
    longer := run + [Do(run[|run| - 1], s)];
    forall i | 0 <= i < |longer| - 1 ensures Next(longer[i], longer[i + 1]) {
      if i < |run| - 1 {
        assert Next(run[i], run[i + 1]);
      }
    }
  }

  lemma {:induction false} ExtendOwn(run: seq<Channel>, s: Step, j: nat, p: nat) returns (longer: seq<Channel>)
    requires IsRun(run) && Enabled(run[|run| - 1], s) && Queues(run, j, p)
    ensures IsRun(longer) && longer[|longer| - 1] == Do(run[|run| - 1], s)
    ensures longer[0] == run[0] && Queues(longer, j, p) && longer[j] == run[j] && |longer| > |run|
  {
    longer := Lengthen(run, s);
    assert longer[..|run|][j] == longer[j] && longer[..|run|][j + 1] == longer[j + 1];
  }

  /** Both have queued a write, q first, and neither has counted it. */
  lemma {:induction false} BothQueued(ps: set<nat>, p: nat, q: nat) returns (run: seq<Channel>, j: nat)
    requires p in ps && q in ps && p != q
    ensures IsRun(run) && run[0].posters.Keys == ps && Queues(run, j, p) && |run[j].posted| == 1
    ensures var w, own := Write(1, BEAT, LATENCY), Write(0, BEAT, LATENCY);
      run[|run| - 1] == Channel(Pair(ps, p, Pushed, q, Pushed), [w, own], Away, [], [], 0, 0, 0, [w, own], [], [])
  {
    var w, own := Write(1, BEAT, LATENCY), Write(0, BEAT, LATENCY);
    PairUpdated(ps, p, Ready, q, Ready, Stamped(w));
    PairUpdated(ps, p, Ready, q, Stamped(w), Pushed);
    PairUpdated(ps, p, Ready, q, Pushed, Stamped(own));
    PairUpdated(ps, p, Stamped(own), q, Pushed, Pushed);
    hide Pair;
    run := QueuedFirst(ps, p, q);
    run := Lengthen(run, Stamp(p, 0, BEAT));
    j := |run| - 1;
    var before := run;
    run := Lengthen(run, Push(p));
    assert run[..|before|][j] == run[j];
  }

  lemma {:induction false} QueuedFirst(ps: set<nat>, p: nat, q: nat) returns (run: seq<Channel>)
    requires p in ps && q in ps && p != q
    ensures IsRun(run) && run[0].posters.Keys == ps && p in Pair(ps, p, Ready, q, Pushed)
    ensures Pair(ps, p, Ready, q, Pushed)[p] == Ready
    ensures var w := Write(1, BEAT, LATENCY);
      run[|run| - 1] == Channel(Pair(ps, p, Ready, q, Pushed), [w], Away, [], [], 0, 0, 0, [w], [], [])
  {
    var w := Write(1, BEAT, LATENCY);
    PairUpdated(ps, p, Ready, q, Ready, Stamped(w));
    PairUpdated(ps, p, Ready, q, Stamped(w), Pushed);
    run := [Channel(Pair(ps, p, Ready, q, Ready), [], Away, [], [], 0, 0, 0, [], [], [])];
    run := Lengthen(run, Stamp(q, 1, BEAT));
    run := Lengthen(run, Push(q));
  }

  /** Then p has counted its own, and the other has been popped. */
  lemma {:induction false} OwnWriteCounted(ps: set<nat>, p: nat, q: nat) returns (run: seq<Channel>, j: nat)
    requires p in ps && q in ps && p != q
    ensures IsRun(run) && run[0].posters.Keys == ps && Queues(run, j, p) && |run[j].posted| == 1
    ensures var w, own := Write(1, BEAT, LATENCY), Write(0, BEAT, LATENCY);
      run[|run| - 1]
        == Channel(Pair(ps, p, Ready, q, Pushed), [own], Holding(w), [], [], 1, LATENCY, LATENCY, [w, own], [], [])
  {
    PairUpdated(ps, p, Pushed, q, Pushed, Ready);
    run, j := BothQueued(ps, p, q);
    run := ExtendOwn(run, Count(p), j, p);
    run := ExtendOwn(run, Tick(LATENCY), j, p);
    run := ExtendOwn(run, Scan, j, p);
    run := ExtendOwn(run, Pop, j, p);
  }

  /**
   With two posters flush can return while its caller's own counted write is still in flight, because
   a write of the other was delivered before it was counted.
   */
  lemma {:induction false} FlushCanMiss(ps: set<nat>, p: nat, q: nat) returns (run: seq<Channel>)
    requires p in ps && q in ps && p != q
    ensures IsRun(run) && run[0].posters.Keys == ps && Own(run, |run| - 1, p, 1)
    ensures var c := run[|run| - 1];
      Exits(c, p) && c.inFlight == [Write(0, BEAT, LATENCY)] && |c.drained + c.inbox| == 1
  {
    var j;
    run, j := OwnWriteCounted(ps, p, q);
    run := ExtendOwn(run, Deliver, j, p);
    run := ExtendOwn(run, Complete, j, p);
    run := ExtendOwn(run, Subtract, j, p);
  }

  lemma {:induction false} FlushCanMissOwnWrite() returns (run: seq<Channel>)
    ensures IsRun(run)
    ensures var c := run[|run| - 1];
      && 0 in c.posters && c.posters[0] == Ready && c.pending == 0
      && c.inFlight == [Write(0, Message(0, 0, 0, Heartbeat), LATENCY)]
  {
    run := FlushCanMiss({0, 1}, 0, 1);
  }

  /** With two posters the deadline can be read in one order and queued in the other. */
  lemma {:induction false} ScanCanDelay(ps: set<nat>, p: nat, q: nat) returns (run: seq<Channel>)
    requires p in ps && q in ps && p != q
    ensures IsRun(run) && run[0].posters.Keys == ps
    ensures var c := run[|run| - 1];
      Enabled(c, GiveUp) && |c.inFlight| == 2 && c.inFlight[1].due <= c.net.now
  {
    run := CrossedStamps(ps, p, q);
    run := Lengthen(run, Push(q));
    run := Lengthen(run, Push(p));
    run := Lengthen(run, Tick(LATENCY + 1));
    run := Lengthen(run, Scan);
  }

  lemma {:induction false} CrossedStamps(ps: set<nat>, p: nat, q: nat) returns (run: seq<Channel>)
    requires p in ps && q in ps && p != q
    ensures IsRun(run) && run[0].posters.Keys == ps
    ensures var early, late := Write(0, BEAT, LATENCY), Write(1, BEAT, 2 * LATENCY);
      run[|run| - 1]
        == Channel(Pair(ps, p, Stamped(early), q, Stamped(late)), [], Away, [], [], 0, LATENCY, 0, [], [], [])
  {
    var early, late := Write(0, BEAT, LATENCY), Write(1, BEAT, 2 * LATENCY);
    PairUpdated(ps, p, Ready, q, Ready, Stamped(early));
    PairUpdated(ps, p, Stamped(early), q, Ready, Stamped(late));
    run := [Channel(Pair(ps, p, Ready, q, Ready), [], Away, [], [], 0, 0, 0, [], [], [])];
    run := Lengthen(run, Stamp(p, 0, BEAT));
    run := Lengthen(run, Tick(LATENCY));
    run := Lengthen(run, Stamp(q, 1, BEAT));
  }

  lemma {:induction false} TwoPostersCanDelayADueWrite() returns (run: seq<Channel>)
    ensures IsRun(run)
    ensures var c := run[|run| - 1];
      Enabled(c, GiveUp) && |c.inFlight| == 2 && c.inFlight[1].due <= c.net.now
  {
    run := ScanCanDelay({0, 1}, 0, 1);
  }

  // ----- exactly which sets of posters are safe

  /** In every run with these posters, when flush may return to p, all that p queued is delivered and completed. */
  ghost predicate FlushReliable(ps: set<nat>) {
    forall run: seq<Channel>, i: nat, p: nat, k: nat
      | IsRun(run) && i < |run| && run[0].posters.Keys == ps && |run[i].inFlight| + 1 < WORD
        && Exits(run[i], p) && Own(run, i, p, k) ::
      HandedOver(run[i], k)
  }

  predicate HandedOver(c: Channel, k: nat) {
    k < |c.drained + c.inbox| && k < |c.polled + c.cq|
  }

  lemma {:induction false} SoleFlush(run: seq<Channel>, i: nat, p: nat, k: nat)
    requires IsRun(run) && i < |run| && run[0].posters.Keys == {p} && |run[i].inFlight| + 1 < WORD
    requires Exits(run[i], p) && Own(run, i, p, k)
    ensures HandedOver(run[i], k)
  {
    PostersFixed(run, i);
    assert run[i].posters == map[p := Ready];
    FlushExitsExactlyWhenDelivered(run, i, p);
    var j: nat :| j < i && Queues(run, j, p) && |run[j].posted| == k;
    PostedGrows(run, j + 1, i);
    assert |Msgs(run[i].posted)| == |run[i].posted| == |QueuePairs.Ids(run[i].posted)|;
  }

  /** flush is reliable exactly if there is only one poster. */
  lemma {:induction false} FlushReliableExactlyIfSole(ps: set<nat>)
    ensures FlushReliable(ps) <==> |ps| <= 1
  {
    if |ps| <= 1 {
      forall run: seq<Channel>, i: nat, p: nat, k: nat
        | IsRun(run) && i < |run| && run[0].posters.Keys == ps && |run[i].inFlight| + 1 < WORD
          && Exits(run[i], p) && Own(run, i, p, k)
        ensures HandedOver(run[i], k)
      {
        PostersFixed(run, i);
        OnlyMember(ps, p);
        SoleFlush(run, i, p, k);
      }
    } else {
      var p, q := TwoMembers(ps);
      var run := FlushCanMiss(ps, p, q);
      assert !HandedOver(run[|run| - 1], 1);
    }
  }

  /** In every run with these posters the delivery loop leaves only writes that are not due. */
  ghost predicate ScanExact(ps: set<nat>) {
    forall run: seq<Channel>, i: nat
      | IsRun(run) && i < |run| && run[0].posters.Keys == ps && Enabled(run[i], GiveUp) ::
      NoneDue(run[i])
  }

  ghost predicate NoneDue(c: Channel)
    requires c.net.Scanning?
  {
    forall w | w in c.inFlight :: w.due > c.net.now
  }

  /** That is so exactly if there is only one poster. */
  lemma {:induction false} ScanExactExactlyIfSole(ps: set<nat>)
    ensures ScanExact(ps) <==> |ps| <= 1
  {
    if |ps| <= 1 {
      forall run: seq<Channel>, i: nat
        | IsRun(run) && i < |run| && run[0].posters.Keys == ps && Enabled(run[i], GiveUp)
        ensures NoneDue(run[i])
      {
        if ps == {} {
          NobodyPosts(run, i);
          InvAlways(run, i);
        } else {
          var p :| p in ps;
          OnlyMember(ps, p);
          ScanLeavesExactlyTheNotDue(run, i, p);
          NotDueOnly(run[i].posted, run[i].net.now);
        }
      }
    } else {
      var p, q := TwoMembers(ps);
      var run := ScanCanDelay(ps, p, q);
      var c := run[|run| - 1];
      assert c.inFlight[1] in c.inFlight;
    }
  }
}
