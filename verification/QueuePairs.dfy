/**
 One queue pair of the simulated RDMA network, as a step system: posting threads, the
 network thread and the threads that drain the inbox and poll completions interleave
 freely, one step per locked block or atomic operation.
 */
module QueuePairs {
  import opened Messages

  const LATENCY := 2

  datatype Write = Write(wrId: nat, msg: Message, due: int)

  /** A posting thread: between posts, deadline read but not queued, queued but not counted. */
  datatype Poster = Ready | Stamped(write: Write) | Pushed

  /** The network thread: without the lock, scanning under it, or carrying one write. */
  datatype Net = Away | Scanning(now: int) | Holding(write: Write) | Delivered(write: Write) | Completed

  /** The last three fields and lastRead are history: no step depends on them. */
  datatype Channel = Channel(
    posters: map<nat, Poster>,
    inFlight: seq<Write>,
    net: Net,
    inbox: seq<Message>,
    cq: seq<nat>,
    pending: nat,
    clock: int,
    lastRead: int,
    posted: seq<Write>,
    drained: seq<Message>,
    polled: seq<nat>)

  datatype Step =
    | Tick(now: int)
    | Stamp(poster: nat, wrId: nat, msg: Message)
    | Push(poster: nat)
    | Count(poster: nat)
    | Scan
    | Pop
    | GiveUp
    | Deliver
    | Complete
    | Subtract
    | Drain
    | Poll(max: nat)

  predicate Init(c: Channel) {
    && (forall p | p in c.posters :: c.posters[p] == Ready)
    && c.inFlight == [] && c.net == Away && c.inbox == [] && c.cq == [] && c.pending == 0
    && c.lastRead <= c.clock && c.posted == [] && c.drained == [] && c.polled == []
  }

  predicate Enabled(c: Channel, s: Step) {
    match s
    case Tick(now) => c.clock <= now
    case Stamp(p, _, _) => p in c.posters && c.posters[p] == Ready
    case Push(p) => p in c.posters && c.posters[p].Stamped? && !c.net.Scanning?
    case Count(p) => p in c.posters && c.posters[p] == Pushed
    case Scan => c.net == Away
    case Pop => c.net.Scanning? && c.inFlight != [] && c.inFlight[0].due <= c.net.now
    case GiveUp => c.net.Scanning? && (c.inFlight == [] || c.inFlight[0].due > c.net.now)
    case Deliver => c.net.Holding?
    case Complete => c.net.Delivered?
    case Subtract => c.net == Completed
    case Drain => true
    case Poll(_) => true
  }

  function Do(c: Channel, s: Step): Channel
    requires Enabled(c, s)
  {
    match s
    case Tick(now) => c.(clock := now)
    case Stamp(p, id, m) => c.(posters := c.posters[p := Stamped(Write(id, m, c.clock + LATENCY))])
    case Push(p) =>
      var w := c.posters[p].write;
      c.(posters := c.posters[p := Pushed], inFlight := c.inFlight + [w], posted := c.posted + [w])
    case Count(p) => c.(posters := c.posters[p := Ready], pending := (c.pending + 1) % WORD)
    case Scan => c.(net := Scanning(c.clock), lastRead := c.clock)
    case Pop => c.(net := Holding(c.inFlight[0]), inFlight := c.inFlight[1..])
    case GiveUp => c.(net := Away)
    case Deliver => c.(net := Delivered(c.net.write), inbox := c.inbox + [c.net.write.msg])
    case Complete => c.(net := Completed, cq := c.cq + [c.net.write.wrId])
    case Subtract => c.(net := Away, pending := (c.pending + WORD - 1) % WORD)
    case Drain => c.(inbox := [], drained := c.drained + c.inbox)
    case Poll(max) =>
      var n := if |c.cq| <= max then |c.cq| else max;
      c.(cq := c.cq[n..], polled := c.polled + c.cq[..n])
  }

  ghost predicate Next(c: Channel, c': Channel) {
    exists s: Step :: Enabled(c, s) && c' == Do(c, s)
  }

  /** A finite execution from an initial state. */
  ghost predicate IsRun(run: seq<Channel>) {
    && |run| > 0 && Init(run[0])
    && forall i | 0 <= i < |run| - 1 :: Next(run[i], run[i + 1])
  }

  // ----- counting

  function Waiting(c: Channel): set<nat> {
    set p | p in c.posters && c.posters[p] == Pushed
  }

  function Unsubtracted(c: Channel): nat {
    if c.net.Holding? || c.net.Delivered? || c.net.Completed? then 1 else 0
  }

  function Popped(c: Channel): int {
    |c.posted| - |c.inFlight|
  }

  function InHand(c: Channel): seq<Message> {
    if c.net.Holding? then [c.net.write.msg] else []
  }

  function Msgs(ws: seq<Write>): (ms: seq<Message>)
    ensures |ms| == |ws| && forall i | 0 <= i < |ws| :: ms[i] == ws[i].msg
  {
    seq(|ws|, i requires 0 <= i < |ws| => ws[i].msg)
  }

  function Ids(ws: seq<Write>): (ids: seq<nat>)
    ensures |ids| == |ws| && forall i | 0 <= i < |ws| :: ids[i] == ws[i].wrId
  {
    seq(|ws|, i requires 0 <= i < |ws| => ws[i].wrId)
  }

  // ----- the invariant

  /** The messages handed over and the writes completed so far, in order. */
  function Handed(c: Channel): seq<Message> {
    c.drained + c.inbox
  }

  function Done(c: Channel): seq<nat> {
    c.polled + c.cq
  }

  function Uncompleted(c: Channel): nat {
    if c.net.Holding? || c.net.Delivered? then 1 else 0
  }

  /** What the queues hold, by position in the history of posts. */
  ghost predicate Placed(c: Channel) {
    && 0 <= Popped(c) && c.inFlight == c.posted[Popped(c)..]
    && |Handed(c)| == Popped(c) - |InHand(c)| && |Done(c)| == Popped(c) - Uncompleted(c)
    && (forall i | 0 <= i < |Handed(c)| :: Handed(c)[i] == c.posted[i].msg)
    && (forall i | 0 <= i < |Done(c)| :: Done(c)[i] == c.posted[i].wrId)
    && (Uncompleted(c) == 1 ==> 0 < Popped(c) && c.net.write == c.posted[Popped(c) - 1])
  }

  ghost predicate Counted(c: Channel) {
    && c.pending < WORD
    && Balance(c) % WORD == 0
  }

  /** What is off by a multiple of 2^64 when the counter has wrapped. */
  function Balance(c: Channel): int {
    c.pending - (|c.inFlight| + Unsubtracted(c) - |Waiting(c)|)
  }

  ghost predicate OnTime(c: Channel) {
    && c.lastRead <= c.clock
    && (c.net.Scanning? ==> c.net.now == c.lastRead)
    && (forall i | 0 <= i < Popped(c) && i < |c.posted| :: c.posted[i].due <= c.lastRead)
  }

  ghost predicate Inv(c: Channel) {
    Placed(c) && Counted(c) && OnTime(c)
  }

  /** How one step extends the two histories. */
  lemma {:induction false} HistoryStep(c: Channel, s: Step)
    requires Enabled(c, s)
    ensures Handed(Do(c, s)) == Handed(c) + (if s.Deliver? then [c.net.write.msg] else [])
    ensures Done(Do(c, s)) == Done(c) + (if s.Complete? then [c.net.write.wrId] else [])
  {
  }

  lemma {:induction false} PlacedStep(c: Channel, s: Step)
    requires Placed(c) && Enabled(c, s)
    ensures Placed(Do(c, s))
  {
    if s.Push? || s.Pop? {
      PlacedFlight(c, s);
    } else if s.Deliver? {
      PlacedDelivery(c, s);
    } else if s.Complete? {
      PlacedCompletion(c, s);
    } else {
      PlacedRest(c, s);
    }
  }

  lemma {:induction false} PlacedDelivery(c: Channel, s: Step)
    requires Placed(c) && Enabled(c, s) && s.Deliver?
    ensures Placed(Do(c, s))
  {
    HistoryStep(c, s);
    assert Done(c) + [] == Done(c);
    hide Handed, Done;
  }

  lemma {:induction false} PlacedCompletion(c: Channel, s: Step)
    requires Placed(c) && Enabled(c, s) && s.Complete?
    ensures Placed(Do(c, s))
  {
    HistoryStep(c, s);
    assert Handed(c) + [] == Handed(c);
    hide Handed, Done;
  }

  lemma {:induction false} PlacedRest(c: Channel, s: Step)
    requires Placed(c) && Enabled(c, s) && !s.Push? && !s.Pop? && !s.Deliver? && !s.Complete?
    ensures Placed(Do(c, s))
  {
    HistoryStep(c, s);
    assert Handed(c) + [] == Handed(c) && Done(c) + [] == Done(c);
    hide Handed, Done;
    var d := Do(c, s);
    assert d.posted == c.posted && d.inFlight == c.inFlight && InHand(d) == InHand(c);
    assert Uncompleted(d) == Uncompleted(c) && (Uncompleted(c) == 1 ==> d.net.write == c.net.write);
    PlacedAlike(c, d);
  }

  lemma PlacedAlike(c: Channel, d: Channel)
    requires Placed(c) && d.posted == c.posted && d.inFlight == c.inFlight && |InHand(d)| == |InHand(c)|
    requires Handed(d) == Handed(c) && Done(d) == Done(c) && Uncompleted(d) == Uncompleted(c)
    requires Uncompleted(c) == 1 ==> d.net.write == c.net.write
    ensures Placed(d)
  {
    hide Handed, Done, InHand;
  }

  lemma {:induction false} PlacedFlight(c: Channel, s: Step)
    requires Placed(c) && Enabled(c, s) && (s.Push? || s.Pop?)
    ensures Placed(Do(c, s))
  {
    var d := Do(c, s);
    HistoryStep(c, s);
    if s.Push? {
      assert d.posted[Popped(d)..] == c.posted[Popped(c)..] + [c.posters[s.poster].write];
    } else {
      assert d.inFlight == d.posted[Popped(d)..];
    }
  }

  lemma {:induction false} CountedStep(c: Channel, s: Step)
    requires Counted(c) && Enabled(c, s)
    ensures Counted(Do(c, s))
  {
    BalanceStep(c, s);
    assert Do(c, s).pending < WORD;
    hide Balance;
  }

  lemma OneMoreOneLess(x: nat)
    requires x < WORD
    ensures (x + 1) % WORD == if x + 1 < WORD then x + 1 else 0
    ensures (x + WORD - 1) % WORD == if x > 0 then x - 1 else WORD - 1
  {
  }

  lemma WaitingBecomes(c: Channel, d: Channel, p: nat, x: Poster)
    requires p in c.posters && d.posters == c.posters[p := x]
    ensures Waiting(d) == (if x == Pushed then Waiting(c) + {p} else Waiting(c) - {p})
    ensures p in Waiting(c) <==> c.posters[p] == Pushed
  {
  }

  lemma WaitingSame(c: Channel, d: Channel)
    requires d.posters == c.posters
    ensures Waiting(d) == Waiting(c)
  {
  }

  lemma {:induction false} WaitingStep(c: Channel, s: Step)
    requires Enabled(c, s)
    ensures |Waiting(Do(c, s))| == |Waiting(c)| + (if s.Push? then 1 else if s.Count? then -1 else 0)
  {
    hide Waiting;
    match s {
      case Push(p) => WaitingBecomes(c, Do(c, s), p, Pushed);
      case Count(p) => WaitingBecomes(c, Do(c, s), p, Ready);
      case Stamp(p, _, _) => WaitingBecomes(c, Do(c, s), p, Do(c, s).posters[p]);
      case _ => WaitingSame(c, Do(c, s));
    }
  }

  lemma {:induction false} BalanceStep(c: Channel, s: Step)
    requires c.pending < WORD && Enabled(c, s)
    ensures var change := Balance(Do(c, s)) - Balance(c);
      change == 0 || change == WORD || change == -WORD
  {
    hide Waiting;
    WaitingStep(c, s);
    OneMoreOneLess(c.pending);
  }

  lemma {:induction false} InvStep(c: Channel, s: Step)
    requires Inv(c) && Enabled(c, s)
    ensures Inv(Do(c, s))
  {
    PlacedStep(c, s);
    CountedStep(c, s);
  }

  lemma {:induction false} InvAlways(run: seq<Channel>, i: nat)
    requires IsRun(run) && i < |run|
    ensures Inv(run[i])
  {
    if i == 0 {
      assert Waiting(run[0]) == {};
    } else {
      InvAlways(run, i - 1);
      assert Next(run[i - 1], run[(i - 1) + 1]);
      var s :| Enabled(run[i - 1], s) && run[i] == Do(run[i - 1], s);
      InvStep(run[i - 1], s);
    }
  }

  // ----- what every interleaving keeps

  /** FIFO, exactly once, for messages and for completions; a completion never precedes its message. */
  lemma {:induction false} FifoExactlyOnce(run: seq<Channel>, i: nat)
    requires IsRun(run) && i < |run|
    ensures var c := run[i];
      && Msgs(c.posted) == c.drained + c.inbox + InHand(c) + Msgs(c.inFlight)
      && c.polled + c.cq <= Ids(c.posted)
      && |c.polled + c.cq| <= |c.drained + c.inbox|
  {
    InvAlways(run, i);
  }

  /** The pending counter tracks outstanding writes modulo 2^64, also while it is wrapped. */
  lemma {:induction false} PendingCounter(run: seq<Channel>, i: nat)
    requires IsRun(run) && i < |run|
    ensures var c := run[i];
      && 0 <= c.pending < WORD
      && (c.pending - (|c.inFlight| + Unsubtracted(c) - |Waiting(c)|)) % WORD == 0
  {
    InvAlways(run, i);
    hide Placed, OnTime, IsRun, Waiting, Unsubtracted;
  }

  /**
   The test that ends flush, for any number of posters: it passes exactly when the writes queued or being
   delivered are as many as the posters that have queued a write and not yet counted it.
   */
  lemma {:induction false} FlushExitsExactly(run: seq<Channel>, i: nat)
    requires IsRun(run) && i < |run|
    requires |run[i].inFlight| + 1 < WORD && |Waiting(run[i])| < WORD
    ensures run[i].pending == 0 <==> |run[i].inFlight| + Unsubtracted(run[i]) == |Waiting(run[i])|
  {
    InvAlways(run, i);
  }

  /** So a poster that finds the test passed while nobody is between queueing and counting can rely on it. */
  lemma {:induction false} FlushSafeExactlyIfNobodyUncounted(run: seq<Channel>, i: nat)
    requires IsRun(run) && i < |run|
    requires |run[i].inFlight| + 1 < WORD && |Waiting(run[i])| < WORD
    requires run[i].pending == 0
    ensures Waiting(run[i]) == {} <==> run[i].inFlight == [] && Unsubtracted(run[i]) == 0
  {
    FlushExitsExactly(run, i);
    assert |Waiting(run[i])| == 0 <==> Waiting(run[i]) == {};
  }

  /**
   The test that ends flush, made by the only poster between two of its posts: it passes
   exactly when everything posted is in the inbox and in the completion queue.
   */
  lemma {:induction false} FlushExitsExactlyWhenDelivered(run: seq<Channel>, i: nat, p: nat)
    requires IsRun(run) && i < |run|
    requires run[i].posters == map[p := Ready]
    requires |run[i].inFlight| + 1 < WORD
    ensures var c := run[i];
      c.pending == 0 <==>
        && Msgs(c.posted) == c.drained + c.inbox
        && Ids(c.posted) == c.polled + c.cq
        && c.net != Completed
  {
    InvAlways(run, i);
    assert Waiting(run[i]) == {};
    FlushExitsExactly(run, i);
  }

  lemma {:induction false} Extend(run: seq<Channel>, s: Step) returns (longer: seq<Channel>)
    requires IsRun(run) && Enabled(run[|run| - 1], s)
    ensures IsRun(longer) && longer[|longer| - 1] == Do(run[|run| - 1], s)
  {
    longer := run + [Do(run[|run| - 1], s)];
    forall i | 0 <= i < |longer| - 1 ensures Next(longer[i], longer[i + 1]) {
      if i < |run| - 1 {
        assert Next(run[i], run[i + 1]);
      }
    }
  }

  /** The counter really does wrap: the network thread may subtract before the poster counts. */
  lemma {:induction false} PendingCanWrap() returns (run: seq<Channel>)
    ensures IsRun(run) && run[|run| - 1].pending == WORD - 1
  {
    run := [Channel(map[0 := Ready], [], Away, [], [], 0, 0, 0, [], [], [])];
    run := Extend(run, Stamp(0, 0, Message(0, 0, 0, Heartbeat)));
    run := Extend(run, Push(0));
    run := Extend(run, Tick(LATENCY));
    run := Extend(run, Scan);
    run := Extend(run, Pop);
    run := Extend(run, Deliver);
    run := Extend(run, Complete);
    run := Extend(run, Subtract);
  }

  /** No message is handed over before its deadline, for any number of posters. */
  lemma {:induction false} NeverEarly(run: seq<Channel>, i: nat, k: nat)
    requires IsRun(run) && i < |run|
    requires k < |run[i].drained + run[i].inbox + InHand(run[i])|
    ensures k < |run[i].posted| && run[i].posted[k].due <= run[i].clock
    ensures (run[i].drained + run[i].inbox + InHand(run[i]))[k] == run[i].posted[k].msg
  {
    InvAlways(run, i);
  }

  /** What the receiving worker takes: all of its inbox, and as many of the oldest completions as it asks for. */
  lemma {:induction false} ReaderTakes(c: Channel, max: nat)
    ensures Enabled(c, Drain) && Do(c, Drain) == c.(inbox := [], drained := c.drained + c.inbox)
    ensures Enabled(c, Poll(max)) && var d := Do(c, Poll(max));
      && d.polled + d.cq == c.polled + c.cq && |d.polled| - |c.polled| == (if |c.cq| < max then |c.cq| else max)
      && d.(polled := c.polled, cq := c.cq) == c
  {
  }

  // ----- one poster: the queue is ordered by deadline

  /** The writes of ws not due at now, in order. */
  function NotDue(ws: seq<Write>, now: int): seq<Write> {
    if ws == [] then []
    else
      var rest := NotDue(ws[..|ws| - 1], now);
      if ws[|ws| - 1].due > now then rest + [ws[|ws| - 1]] else rest
  }

  ghost predicate Ordered(ws: seq<Write>) {
    forall i, j | 0 <= i < j < |ws| :: ws[i].due <= ws[j].due
  }

  ghost predicate Solo(c: Channel, p: nat) {
    && c.posters.Keys == {p}
    && Ordered(c.posted)
    && (forall w | w in c.posted :: w.due <= c.clock + LATENCY)
    && (c.posters[p].Stamped? ==>
          && c.posters[p].write.due <= c.clock + LATENCY
          && forall w | w in c.posted :: w.due <= c.posters[p].write.due)
  }

  lemma {:induction false} SoloStep(c: Channel, s: Step, p: nat)
    requires Solo(c, p) && Enabled(c, s)
    ensures Solo(Do(c, s), p)
  {
    match s {
      case Push(q) => assert q == p;
      case _ =>
    }
  }

  lemma {:induction false} SoloAlways(run: seq<Channel>, i: nat, p: nat)
    requires IsRun(run) && i < |run| && run[0].posters.Keys == {p}
    ensures Solo(run[i], p)
  {
    if i > 0 {
      SoloAlways(run, i - 1, p);
      assert Next(run[i - 1], run[(i - 1) + 1]);
      var s :| Enabled(run[i - 1], s) && run[i] == Do(run[i - 1], s);
      SoloStep(run[i - 1], s, p);
    }
  }

  lemma {:induction false} NotDueSuffix(ws: seq<Write>, k: nat, now: int)
    requires k <= |ws|
    requires forall i | 0 <= i < k :: ws[i].due <= now
    requires forall i | k <= i < |ws| :: ws[i].due > now
    ensures NotDue(ws, now) == ws[k..]
  {
    NotDueFirst(ws, now);
    hide NotDue;
    if ws != [] {
      var front, last := ws[..|ws| - 1], ws[|ws| - 1];
      if k < |ws| {
        NotDueSuffix(front, k, now);
        assert last.due > now && ws[k..] == front[k..] + [last];
      } else {
        NotDueSuffix(front, |front|, now);
        assert last == ws[k - 1] && front[|front|..] == [] == ws[k..];
      }
    }
  }

  lemma NotDueFirst(ws: seq<Write>, now: int)
    ensures NotDue(ws, now)
         == if ws == [] then []
            else NotDue(ws[..|ws| - 1], now) + (if ws[|ws| - 1].due > now then [ws[|ws| - 1]] else [])
  {
  }

  /** The scan stops at the first write not due, yet leaves exactly the writes not due. */
  lemma {:induction false} ScanLeavesExactlyTheNotDue(run: seq<Channel>, i: nat, p: nat)
    requires IsRun(run) && i < |run| && run[0].posters.Keys == {p}
    requires Enabled(run[i], GiveUp)
    ensures Ordered(run[i].inFlight)
    ensures run[i].inFlight == NotDue(run[i].posted, run[i].net.now)
  {
    InvAlways(run, i);
    SoloAlways(run, i, p);
    var c := run[i];
    forall j | Popped(c) <= j < |c.posted| ensures c.posted[j].due > c.net.now {
      assert c.inFlight[0] == c.posted[Popped(c)];
    }
    NotDueSuffix(c.posted, Popped(c), c.net.now);
  }

  /** What the prefix loop leaves of ws if the clock stands at now. */
  function Remainder(ws: seq<Write>, now: int): seq<Write> {
    if ws == [] || ws[0].due > now then ws else Remainder(ws[1..], now)
  }

  lemma {:induction false} RemainderIsSuffix(ws: seq<Write>, now: int) returns (k: nat)
    ensures k <= |ws| && Remainder(ws, now) == ws[k..] && (k < |ws| ==> ws[k].due > now)
    ensures forall i | 0 <= i < k :: ws[i].due <= now
  {
    if ws == [] || ws[0].due > now {
      k := 0;
    } else {
      var n := RemainderIsSuffix(ws[1..], now);
      k := n + 1;
    }
  }

  lemma {:induction false} NotDueOnly(ws: seq<Write>, now: int)
    ensures forall w | w in NotDue(ws, now) :: w.due > now
  {
    if ws != [] {
      NotDueOnly(ws[..|ws| - 1], now);
    }
  }

  /** For any number of posters the loop always leaves just the writes not due if and only if all are in order. */
  lemma {:induction false} LoopFiltersExactlyIfOrdered(ws: seq<Write>)
    ensures (forall now :: Remainder(ws, now) == NotDue(ws, now)) <==> Ordered(ws)
  {
    if Ordered(ws) {
      forall now ensures Remainder(ws, now) == NotDue(ws, now) {
        var k := RemainderIsSuffix(ws, now);
        forall j | k <= j < |ws| ensures ws[j].due > now {
        }
        NotDueSuffix(ws, k, now);
      }
    } else {
      var i, j :| 0 <= i < j < |ws| && ws[i].due > ws[j].due;
      var now := ws[j].due;
      var k := RemainderIsSuffix(ws, now);
      assert ws[k..][j - k] == ws[j];
      assert ws[j] in Remainder(ws, now);
      NotDueOnly(ws, now);
    }
  }
}
