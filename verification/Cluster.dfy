/**
 All the buses of a cluster at once: every worker drains, computes and flushes in its own time, and
 one network thread per ordered pair of workers moves messages along, in any interleaving. (The
 barrier would only remove some of them.)
 */
module Cluster {
  import opened Messages

  /** A message on its way, the bus it was enqueued on, and its recipient's owner at that time. */
  datatype Item = Item(msg: Message, from: WorkerId, to: WorkerId)

  /** The first six are kept for each ordered pair of workers, the last three for each worker. */
  datatype Kind = Outbox | Flushing | Wire | Hand | Arrived | Lost | Receiving | Inbox | Drained

  /** For the per-worker kinds the second index is 0. */
  datatype Place = Place(kind: Kind, a: WorkerId, b: WorkerId)

  type Queues = map<Place, seq<Item>>

  /** Where a worker is in its superstep. */
  datatype Pc = Draining(pair: nat) | Inserting | Swapping | Computing | FlushingTo(w: nat)

  /**
   remoteSink says which end of a queue pair is drained: the sender's as the code is wired (false),
   or the receiver's as the design describes (true).
   */
  datatype Net = Net(workers: nat, rdma: bool, remoteSink: bool)

  /** enqueued is history: everything ever put in an outbox. */
  datatype State = State(
    net: Net, overrides: map<VertexId, WorkerId>, pcs: map<WorkerId, Pc>, queues: Queues, enqueued: seq<Item>)

  datatype Step =
    | Migrate(v: VertexId, w: WorkerId)
    | DrainPair(c: WorkerId)
    | Insert(c: WorkerId)
    | SwapInbox(c: WorkerId)
    | Enqueue(c: WorkerId, msg: Message)
    | SwapOutboxes(c: WorkerId)
    | FlushOne(c: WorkerId)
    | FlushDone(c: WorkerId)
    | NetworkPop(a: WorkerId, b: WorkerId)
    | NetworkDeliver(a: WorkerId, b: WorkerId)

  function At(q: Queues, p: Place): seq<Item> {
    if p in q then q[p] else []
  }

  /** The queue pair worker c drains at index i of its table. */
  function Drains(net: Net, c: WorkerId, i: WorkerId): Place {
    if net.remoteSink then Place(Arrived, i, c) else Place(Arrived, c, i)
  }

  /** The worker that drains what worker a sends to worker w. */
  function Sink(net: Net, a: WorkerId, w: WorkerId): WorkerId {
    if a == w || !net.remoteSink then a else w
  }

  /** Where flush sends the box of worker w: the local inbox, the network, or nowhere. */
  function Destination(net: Net, c: WorkerId, w: WorkerId): Place {
    if w == c then Place(Inbox, c, 0) else if net.rdma then Place(Wire, c, w) else Place(Lost, c, w)
  }

  /** The first k items at p move to the end of r. */
  function Shift(q: Queues, p: Place, k: nat, r: Place): Queues
    requires k <= |At(q, p)| && p != r
  {
    q[p := At(q, p)[k..]][r := At(q, r) + At(q, p)[..k]]
  }

  function ShiftAll(q: Queues, p: Place, r: Place): Queues
    requires p != r
  {
    Shift(q, p, |At(q, p)|, r)
  }

  /** One more item in the outbox of its route. */
  function Appended(q: Queues, x: Item): Queues {
    q[Place(Outbox, x.from, x.to) := At(q, Place(Outbox, x.from, x.to)) + [x]]
  }

  /** Worker c's outboxes become the boxes it flushes. */
  function Swapped(q: Queues, c: WorkerId): Queues {
    map p | p in q.Keys + Mirror(q) ::
      if p.a == c && p.kind == Flushing then At(q, Place(Outbox, c, p.b))
      else if p.a == c && p.kind == Outbox then []
      else At(q, p)
  }

  function Mirror(q: Queues): set<Place> {
    set p | p in q :: Place(Flushing, p.a, p.b)
  }

  function Tag(s: State, c: WorkerId, m: Message): Item
    requires s.net.workers > 0
  {
    Item(m, c, Owner(s.overrides, s.net.workers, m.dst))
  }

  ghost predicate Init(s: State) {
    && s.net.workers > 0 && (forall v | v in s.overrides :: s.overrides[v] < s.net.workers)
    && (forall c: WorkerId | c in s.pcs :: s.pcs[c] == Draining(0))
    && s.queues == map[] && s.enqueued == []
  }

  predicate Is(s: State, c: WorkerId, pc: Pc) {
    c < s.net.workers && c in s.pcs && s.pcs[c] == pc
  }

  predicate Flushes(s: State, c: WorkerId) {
    c < s.net.workers && c in s.pcs && s.pcs[c].FlushingTo?
  }

  predicate Enabled(s: State, step: Step) {
    match step
    case Migrate(_, w) => w < s.net.workers
    case DrainPair(c) => c < s.net.workers && c in s.pcs && s.pcs[c].Draining?
    case Insert(c) => Is(s, c, Inserting)
    case SwapInbox(c) => Is(s, c, Swapping)
    case Enqueue(c, _) => Is(s, c, Computing)
    case SwapOutboxes(c) => Is(s, c, Computing)
    case FlushOne(c) => Flushes(s, c) && At(s.queues, Place(Flushing, c, s.pcs[c].w)) != []
    case FlushDone(c) => Flushes(s, c) && At(s.queues, Place(Flushing, c, s.pcs[c].w)) == []
    case NetworkPop(a, b) => At(s.queues, Place(Wire, a, b)) != [] && At(s.queues, Place(Hand, a, b)) == []
    case NetworkDeliver(a, b) => At(s.queues, Place(Hand, a, b)) != []
  }

  /** The program counter of a worker that moved. */
  function NextPc(s: State, step: Step): State
    requires Enabled(s, step)
  {
    match step
    case DrainPair(c) =>
      var i := s.pcs[c].pair;
      s.(pcs := s.pcs[c := if !s.net.rdma then Swapping else if i >= s.net.workers then Inserting else Draining(i + 1)])
    case Insert(c) => s.(pcs := s.pcs[c := Swapping])
    case SwapInbox(c) => s.(pcs := s.pcs[c := Computing])
    case SwapOutboxes(c) => s.(pcs := s.pcs[c := FlushingTo(0)])
    case FlushDone(c) =>
      s.(pcs := s.pcs[c := if s.pcs[c].w + 1 < s.net.workers then FlushingTo(s.pcs[c].w + 1) else Draining(0)])
    case _ => s
  }

  /** The queues after a step that enqueues nothing. */
  function NextQueues(s: State, step: Step): Queues
    requires Enabled(s, step) && !step.Enqueue?
  {
    var q := s.queues;
    match step
    case DrainPair(c) =>
      var i := s.pcs[c].pair;
      if !s.net.rdma || i >= s.net.workers || i == c then q
      else ShiftAll(q, Drains(s.net, c, i), Place(Receiving, c, 0))
    case Insert(c) => ShiftAll(q, Place(Receiving, c, 0), Place(Inbox, c, 0))
    case SwapInbox(c) => ShiftAll(q, Place(Inbox, c, 0), Place(Drained, c, 0))
    case SwapOutboxes(c) => Swapped(q, c)
    case FlushOne(c) =>
      var w := s.pcs[c].w;
      // the local box is inserted whole; the network takes one message at a time
      var k := if w == c || !s.net.rdma then |At(q, Place(Flushing, c, w))| else 1;
      Shift(q, Place(Flushing, c, w), k, Destination(s.net, c, w))
    case NetworkPop(a, b) => Shift(q, Place(Wire, a, b), 1, Place(Hand, a, b))
    case NetworkDeliver(a, b) => ShiftAll(q, Place(Hand, a, b), Place(Arrived, a, b))
    case _ => q
  }

  function Do(s: State, step: Step): State
    requires Enabled(s, step)
  {
    match step
    case Migrate(v, w) => s.(overrides := s.overrides[v := w])
    case Enqueue(c, m) =>
      var item := Tag(s, c, m);
      s.(queues := Appended(s.queues, item), enqueued := s.enqueued + [item])
    case _ => NextPc(s, step).(queues := NextQueues(s, step))
  }

  ghost predicate Next(s: State, t: State) {
    exists step: Step :: Enabled(s, step) && t == Do(s, step)
  }

  ghost predicate IsRun(run: seq<State>) {
    && |run| > 0 && Init(run[0])
    && forall i | 0 <= i < |run| - 1 :: Next(run[i], run[i + 1])
  }

  // ----- one route at a time

  /** The items of s sent on bus a for worker w, in order. */
  function OnRoute(s: seq<Item>, a: WorkerId, w: WorkerId): seq<Item> {
    if s == [] then []
    else
      var rest := OnRoute(s[..|s| - 1], a, w);
      var last := s[|s| - 1];
      if last.from == a && last.to == w then rest + [last] else rest
  }

  lemma {:induction false} OnRouteConcat(s: seq<Item>, t: seq<Item>, a: WorkerId, w: WorkerId)
    ensures OnRoute(s + t, a, w) == OnRoute(s, a, w) + OnRoute(t, a, w)
  {
    if t == [] {
      assert s + t == s;
    } else {
      assert (s + t)[..|s + t| - 1] == s + t[..|t| - 1];
      OnRouteConcat(s, t[..|t| - 1], a, w);
    }
  }

  lemma {:induction false} OnRouteAll(s: seq<Item>, a: WorkerId, w: WorkerId)
    requires forall x | x in s :: x.from == a && x.to == w
    ensures OnRoute(s, a, w) == s
  {
    if s != [] {
      OnRouteAll(s[..|s| - 1], a, w);
    }
  }

  lemma {:induction false} OnRouteNone(s: seq<Item>, a: WorkerId, w: WorkerId)
    requires forall x | x in s :: x.from != a || x.to != w
    ensures OnRoute(s, a, w) == []
  {
    if s != [] {
      OnRouteNone(s[..|s| - 1], a, w);
    }
  }

  /** What the draining side c holds of the route, oldest first. */
  function Sunk(q: Queues, c: WorkerId, a: WorkerId, w: WorkerId): seq<Item> {
    OnRoute(At(q, Place(Drained, c, 0)), a, w) + OnRoute(At(q, Place(Inbox, c, 0)), a, w)
    + OnRoute(At(q, Place(Receiving, c, 0)), a, w)
  }

  /** The places of a pair, from the one that was filled first to the outbox. */
  function KindAt(i: nat): Kind
    requires i < 6
  {
    if i == 0 then Arrived else if i == 1 then Hand else if i == 2 then Wire
    else if i == 3 then Lost else if i == 4 then Flushing else Outbox
  }

  function Row(q: Queues, a: WorkerId, w: WorkerId): (row: seq<seq<Item>>) {
    seq(6, i requires 0 <= i < 6 => At(q, Place(KindAt(i), a, w)))
  }

  function Join(row: seq<seq<Item>>): seq<Item> {
    if row == [] then [] else row[0] + Join(row[1..])
  }

  /** What the sending side and the network hold of the route, oldest first. */
  function Underway(q: Queues, a: WorkerId, w: WorkerId): seq<Item> {
    Join(Row(q, a, w))
  }

  // ----- the invariant

  predicate PerPair(kind: Kind) {
    kind != Receiving && kind != Inbox && kind != Drained
  }

  /** What may be at a place. */
  predicate Belongs(net: Net, p: Place, x: Item) {
    if PerPair(p.kind) then
      && x.from == p.a && x.to == p.b
      && (p.kind == Lost ==> !net.rdma && p.a != p.b)
      && (p.kind == Wire || p.kind == Hand || p.kind == Arrived ==> net.rdma && p.a != p.b)
    else
      && Sink(net, x.from, x.to) == p.a && p.b == 0
      && (x.from != x.to ==> net.rdma) && (p.kind == Receiving ==> x.from != x.to)
  }

  ghost predicate AllBelong(net: Net, q: Queues) {
    forall p, x | x in At(q, p) :: Belongs(net, p, x)
  }

  /** A worker's flush in progress covers only the boxes it has not come to yet. */
  ghost predicate FlushFront(s: State) {
    forall c: WorkerId, w: WorkerId | At(s.queues, Place(Flushing, c, w)) != [] ::
      Flushes(s, c) && s.pcs[c].w <= w < s.net.workers
  }

  ghost predicate OwnersKnown(s: State) {
    && s.net.workers > 0
    && (forall v | v in s.overrides :: s.overrides[v] < s.net.workers)
    && forall c: WorkerId, w: WorkerId | At(s.queues, Place(Outbox, c, w)) != [] :: w < s.net.workers
  }

  /** Every message enqueued for the route, in order, exactly once. */
  ghost predicate Conserved(net: Net, enqueued: seq<Item>, q: Queues, a: WorkerId, w: WorkerId) {
    OnRoute(enqueued, a, w) == Sunk(q, Sink(net, a, w), a, w) + Underway(q, a, w)
  }

  ghost predicate AllConserved(net: Net, enqueued: seq<Item>, q: Queues) {
    forall a: WorkerId, w: WorkerId :: Conserved(net, enqueued, q, a, w)
  }

  /** The part of the invariant about queue contents. */
  ghost predicate Held(net: Net, enqueued: seq<Item>, q: Queues) {
    AllBelong(net, q) && AllConserved(net, enqueued, q)
  }

  ghost predicate Inv(s: State) {
    && FlushFront(s) && OwnersKnown(s)
    && Held(s.net, s.enqueued, s.queues)
  }

  // ----- moving items between places

  lemma AtShift(q: Queues, p: Place, k: nat, r: Place, x: Place)
    requires k <= |At(q, p)| && p != r
    ensures At(Shift(q, p, k, r), x) ==
              if x == p then At(q, p)[k..] else if x == r then At(q, r) + At(q, p)[..k] else At(q, x)
  {
  }

  lemma {:induction false} ShiftBelongs(net: Net, q: Queues, p: Place, k: nat, r: Place)
    requires AllBelong(net, q) && k <= |At(q, p)| && p != r
    requires forall x | x in At(q, p) :: Belongs(net, r, x)
    ensures AllBelong(net, Shift(q, p, k, r))
  {
    hide Belongs, Shift;
    var t := Shift(q, p, k, r);
    forall y, x | x in At(t, y) ensures Belongs(net, y, x) {
      AtShift(q, p, k, r, y);
      assert x in At(q, y) || x in At(q, p);
    }
  }

  /** A shift that starts and ends outside worker c's own places. */
  lemma SunkUntouched(q: Queues, p: Place, k: nat, r: Place, c: WorkerId, a: WorkerId, w: WorkerId)
    requires k <= |At(q, p)| && p != r
    requires (PerPair(p.kind) || p.a != c) && (PerPair(r.kind) || r.a != c)
    ensures Sunk(Shift(q, p, k, r), c, a, w) == Sunk(q, c, a, w)
  {
    hide Shift, At, OnRoute;
    AtShift(q, p, k, r, Place(Drained, c, 0));
    AtShift(q, p, k, r, Place(Inbox, c, 0));
    AtShift(q, p, k, r, Place(Receiving, c, 0));
  }

  /** A shift that starts and ends outside the places of the pair (a, w). */
  lemma RowUntouched(q: Queues, p: Place, k: nat, r: Place, a: WorkerId, w: WorkerId)
    requires k <= |At(q, p)| && p != r
    requires (!PerPair(p.kind) || p.a != a || p.b != w) && (!PerPair(r.kind) || r.a != a || r.b != w)
    ensures Row(Shift(q, p, k, r), a, w) == Row(q, a, w)
  {
    hide Shift, At;
    forall i | 0 <= i < 6
      ensures Row(Shift(q, p, k, r), a, w)[i] == Row(q, a, w)[i]
    {
      AtShift(q, p, k, r, Place(KindAt(i), a, w));
    }
  }

  /** The first k items of place j go to the end of the earlier place i. */
  function Moved(row: seq<seq<Item>>, i: nat, j: nat, k: nat): seq<seq<Item>>
    requires i < j < |row| && k <= |row[j]|
  {
    row[i := row[i] + row[j][..k]][j := row[j][k..]]
  }

  /** With nothing between, moving the front of one place to the end of an earlier one joins to the same. */
  lemma {:induction false} JoinMoved(row: seq<seq<Item>>, i: nat, j: nat, k: nat)
    requires i < j < |row| && k <= |row[j]| && forall m | i < m < j :: row[m] == []
    ensures Join(Moved(row, i, j, k)) == Join(row)
  {
    var moved := Moved(row, i, j, k);
    if i > 0 {
      JoinMoved(row[1..], i - 1, j - 1, k);
      assert moved[1..] == Moved(row[1..], i - 1, j - 1, k);
    } else {
      hide Join;
      JoinGap(row[1..], j - 1);
      JoinGap(moved[1..], j - 1);
      assert moved[1..][j..] == row[1..][j..];
      JoinFirst(row);
      JoinFirst(moved);
      Regroup(row[0], row[j], k, Join(row[1..][j..]));
    }
  }

  lemma JoinFirst(row: seq<seq<Item>>)
    requires row != []
    ensures Join(row) == row[0] + Join(row[1..])
  {
  }

  lemma Regroup(x: seq<Item>, y: seq<Item>, k: nat, z: seq<Item>)
    requires k <= |y|
    ensures (x + y[..k]) + (y[k..] + z) == x + (y + z)
  {
    assert y == y[..k] + y[k..];
  }

  lemma {:induction false} JoinGap(row: seq<seq<Item>>, j: nat)
    requires j < |row| && forall m | 0 <= m < j :: row[m] == []
    ensures Join(row) == row[j] + Join(row[j + 1..])
  {
    if j > 0 {
      JoinGap(row[1..], j - 1);
      assert row[1..][j..] == row[j + 1..];
    }
  }

  /** Replacing the last box extends the whole. */
  lemma {:induction false} JoinLast(row: seq<seq<Item>>, more: seq<Item>)
    requires |row| > 0
    ensures Join(row[|row| - 1 := row[|row| - 1] + more]) == Join(row) + more
  {
    var longer := row[|row| - 1 := row[|row| - 1] + more];
    if |row| > 1 {
      JoinLast(row[1..], more);
      assert longer[1..] == row[1..][|row| - 2 := row[1..][|row| - 2] + more];
    }
  }

  lemma RowShift(q: Queues, x: WorkerId, y: WorkerId, i: nat, j: nat, k: nat)
    requires i < j < 6 && k <= |At(q, Place(KindAt(j), x, y))|
    ensures Row(Shift(q, Place(KindAt(j), x, y), k, Place(KindAt(i), x, y)), x, y) == Moved(Row(q, x, y), i, j, k)
  {
    hide Shift, At;
    var t := Shift(q, Place(KindAt(j), x, y), k, Place(KindAt(i), x, y));
    forall m | 0 <= m < 6 ensures Row(t, x, y)[m] == Moved(Row(q, x, y), i, j, k)[m] {
      AtShift(q, Place(KindAt(j), x, y), k, Place(KindAt(i), x, y), Place(KindAt(m), x, y));
    }
  }

  /** Along one pair's places, past empty ones, a shift keeps every route. */
  lemma {:induction false} AlongPair(
    net: Net, enqueued: seq<Item>, q: Queues, x: WorkerId, y: WorkerId, i: nat, j: nat, k: nat)
    requires i < j < 6 && k <= |At(q, Place(KindAt(j), x, y))|
    requires forall m | i < m < j :: At(q, Place(KindAt(m), x, y)) == []
    requires AllConserved(net, enqueued, q)
    ensures AllConserved(net, enqueued, Shift(q, Place(KindAt(j), x, y), k, Place(KindAt(i), x, y)))
  {
    hide Shift, At, Sunk, OnRoute, Moved;
    var p, r := Place(KindAt(j), x, y), Place(KindAt(i), x, y);
    forall a: WorkerId, w: WorkerId ensures Conserved(net, enqueued, Shift(q, p, k, r), a, w) {
      assert Conserved(net, enqueued, q, a, w);
      SunkUntouched(q, p, k, r, Sink(net, a, w), a, w);
      if a == x && w == y {
        RowShift(q, x, y, i, j, k);
        JoinMoved(Row(q, x, y), i, j, k);
      } else {
        RowUntouched(q, p, k, r, a, w);
      }
    }
  }

  lemma {:induction false} JoinTaken(row: seq<seq<Item>>, j: nat)
    requires j < |row| && forall m | 0 <= m < j :: row[m] == []
    ensures Join(row) == row[j] + Join(row[j := []])
  {
    JoinGap(row, j);
    JoinGap(row[j := []], j);
    assert row[j := []][j + 1..] == row[j + 1..];
  }

  lemma RowTaken(q: Queues, x: WorkerId, y: WorkerId, j: nat, r: Place)
    requires j < 6 && !PerPair(r.kind)
    ensures Row(ShiftAll(q, Place(KindAt(j), x, y), r), x, y) == Row(q, x, y)[j := []]
  {
    hide Shift, At;
    var p := Place(KindAt(j), x, y);
    forall m | 0 <= m < 6
      ensures Row(ShiftAll(q, p, r), x, y)[m] == Row(q, x, y)[j := []][m]
    {
      AtShift(q, p, |At(q, p)|, r, Place(KindAt(m), x, y));
    }
  }

  /** The draining side takes over a box that heads its route. */
  lemma SunkTaken(q: Queues, p: Place, r: Place, c: WorkerId, a: WorkerId, w: WorkerId)
    requires PerPair(p.kind) && (r == Place(Inbox, c, 0) || r == Place(Receiving, c, 0))
    requires r.kind == Inbox ==> OnRoute(At(q, Place(Receiving, c, 0)), a, w) == []
    ensures Sunk(ShiftAll(q, p, r), c, a, w) == Sunk(q, c, a, w) + OnRoute(At(q, p), a, w)
  {
    hide Shift, At, OnRoute;
    var k := |At(q, p)|;
    AtShift(q, p, k, r, Place(Drained, c, 0));
    AtShift(q, p, k, r, Place(Inbox, c, 0));
    AtShift(q, p, k, r, Place(Receiving, c, 0));
    assert At(q, p)[..k] == At(q, p);
    OnRouteConcat(At(q, r), At(q, p), a, w);
  }

  lemma SunkOther(q: Queues, p: Place, r: Place, c: WorkerId, a: WorkerId, w: WorkerId)
    requires PerPair(p.kind) && (r == Place(Inbox, c, 0) || r == Place(Receiving, c, 0))
    requires OnRoute(At(q, p), a, w) == []
    ensures Sunk(ShiftAll(q, p, r), c, a, w) == Sunk(q, c, a, w)
  {
    hide Shift, At, OnRoute;
    var k := |At(q, p)|;
    AtShift(q, p, k, r, Place(Drained, c, 0));
    AtShift(q, p, k, r, Place(Inbox, c, 0));
    AtShift(q, p, k, r, Place(Receiving, c, 0));
    assert At(q, p)[..k] == At(q, p);
    OnRouteConcat(At(q, r), At(q, p), a, w);
  }

  /** A box that heads its route is handed to the draining side. */
  lemma {:induction false} HandedOver(net: Net, enqueued: seq<Item>, q: Queues, x: WorkerId, y: WorkerId,
      j: nat, r: Place)
    requires j < 6 && forall m | 0 <= m < j :: At(q, Place(KindAt(m), x, y)) == []
    requires var c := Sink(net, x, y); r == Place(Inbox, c, 0) || r == Place(Receiving, c, 0)
    requires r.kind == Inbox ==> OnRoute(At(q, Place(Receiving, r.a, 0)), x, y) == []
    requires forall i | i in At(q, Place(KindAt(j), x, y)) :: i.from == x && i.to == y
    requires AllConserved(net, enqueued, q)
    ensures AllConserved(net, enqueued, ShiftAll(q, Place(KindAt(j), x, y), r))
  {
    hide ShiftAll, At, Sunk, OnRoute, Join;
    var p, c := Place(KindAt(j), x, y), Sink(net, x, y);
    var t := ShiftAll(q, p, r);
    forall a: WorkerId, w: WorkerId ensures Conserved(net, enqueued, t, a, w) {
      assert Conserved(net, enqueued, q, a, w);
      if a == x && w == y {
        OnRouteAll(At(q, p), a, w);
        SunkTaken(q, p, r, c, a, w);
        RowTaken(q, x, y, j, r);
        JoinTaken(Row(q, x, y), j);
        assert Row(q, x, y)[j] == At(q, p);
      } else {
        OtherRoute(q, x, y, j, r, Sink(net, a, w), a, w);
      }
    }
  }

  lemma OtherRoute(q: Queues, x: WorkerId, y: WorkerId, j: nat, r: Place, c: WorkerId, a: WorkerId, w: WorkerId)
    requires j < 6 && r.b == 0 && (r.kind == Inbox || r.kind == Receiving) && (a != x || w != y)
    requires forall i | i in At(q, Place(KindAt(j), x, y)) :: i.from == x && i.to == y
    ensures Sunk(ShiftAll(q, Place(KindAt(j), x, y), r), c, a, w) == Sunk(q, c, a, w)
    ensures Row(ShiftAll(q, Place(KindAt(j), x, y), r), a, w) == Row(q, a, w)
  {
    hide Shift, At, Sunk, OnRoute, Row;
    var p := Place(KindAt(j), x, y);
    OnRouteNone(At(q, p), a, w);
    RowUntouched(q, p, |At(q, p)|, r, a, w);
    if c == r.a {
      SunkOther(q, p, r, c, a, w);
    } else {
      SunkUntouched(q, p, |At(q, p)|, r, c, a, w);
    }
  }

  /** Worker c empties p into r when it drains. */
  predicate Precedes(p: Place, r: Place, c: WorkerId) {
    || (p == Place(Receiving, c, 0) && r == Place(Inbox, c, 0))
    || (p == Place(Inbox, c, 0) && r == Place(Drained, c, 0))
  }

  lemma SunkMerged(q: Queues, c: WorkerId, p: Place, r: Place, a: WorkerId, w: WorkerId)
    requires Precedes(p, r, c)
    ensures Sunk(ShiftAll(q, p, r), c, a, w) == Sunk(q, c, a, w)
  {
    hide Shift, At, OnRoute;
    var k := |At(q, p)|;
    AtShift(q, p, k, r, Place(Drained, c, 0));
    AtShift(q, p, k, r, Place(Inbox, c, 0));
    AtShift(q, p, k, r, Place(Receiving, c, 0));
    assert At(q, p)[..k] == At(q, p) && At(q, p)[k..] == [];
    OnRouteConcat(At(q, r), At(q, p), a, w);
    OnRouteNone([], a, w);
  }

  /** On the draining side a worker's places are emptied into one another in order. */
  lemma {:induction false} Merged(net: Net, enqueued: seq<Item>, q: Queues, c: WorkerId, p: Place, r: Place)
    requires Precedes(p, r, c)
    requires AllConserved(net, enqueued, q)
    ensures AllConserved(net, enqueued, ShiftAll(q, p, r))
  {
    hide Shift, At, Sunk, OnRoute, Row;
    forall a: WorkerId, w: WorkerId ensures Conserved(net, enqueued, ShiftAll(q, p, r), a, w) {
      assert Conserved(net, enqueued, q, a, w);
      RowUntouched(q, p, |At(q, p)|, r, a, w);
      if Sink(net, a, w) == c {
        SunkMerged(q, c, p, r, a, w);
      } else {
        SunkUntouched(q, p, |At(q, p)|, r, Sink(net, a, w), a, w);
      }
    }
  }

  lemma AtSwapped(q: Queues, c: WorkerId, p: Place)
    ensures At(Swapped(q, c), p) ==
              if p.a == c && p.kind == Flushing then At(q, Place(Outbox, c, p.b))
              else if p.a == c && p.kind == Outbox then []
              else At(q, p)
  {
    if p.kind == Flushing && Place(Outbox, c, p.b) in q {
      assert Place(Flushing, c, p.b) in Mirror(q);
    }
  }

  lemma RowSwapped(q: Queues, c: WorkerId, a: WorkerId, w: WorkerId)
    requires At(q, Place(Flushing, c, w)) == []
    ensures Join(Row(Swapped(q, c), a, w)) == Join(Row(q, a, w))
  {
    hide At, Swapped, Join;
    var row := Row(q, a, w);
    forall m | 0 <= m < 6
      ensures Row(Swapped(q, c), a, w)[m] == (if a == c then Moved(row, 4, 5, |row[5]|) else row)[m]
    {
      AtSwapped(q, c, Place(KindAt(m), a, w));
    }
    if a == c {
      assert Row(Swapped(q, c), a, w) == Moved(row, 4, 5, |row[5]|);
      JoinMoved(row, 4, 5, |row[5]|);
    } else {
      assert Row(Swapped(q, c), a, w) == row;
    }
  }

  /** Swapping the outboxes out keeps every route, once the last flush is over. */
  lemma {:induction false} SwapKeeps(net: Net, enqueued: seq<Item>, q: Queues, c: WorkerId)
    requires forall w: WorkerId :: At(q, Place(Flushing, c, w)) == []
    requires AllConserved(net, enqueued, q)
    ensures AllConserved(net, enqueued, Swapped(q, c))
  {
    hide At, Swapped, OnRoute, Row, Join;
    forall a: WorkerId, w: WorkerId ensures Conserved(net, enqueued, Swapped(q, c), a, w) {
      assert Conserved(net, enqueued, q, a, w);
      RowSwapped(q, c, a, w);
      AtSwapped(q, c, Place(Drained, Sink(net, a, w), 0));
      AtSwapped(q, c, Place(Inbox, Sink(net, a, w), 0));
      AtSwapped(q, c, Place(Receiving, Sink(net, a, w), 0));
    }
  }

  lemma {:induction false} SwapBelongs(net: Net, q: Queues, c: WorkerId)
    requires AllBelong(net, q)
    ensures AllBelong(net, Swapped(q, c))
  {
    hide Swapped, At;
    forall p, x | x in At(Swapped(q, c), p) ensures Belongs(net, p, x) {
      AtSwapped(q, c, p);
      if p.a == c && p.kind == Flushing {
        assert Belongs(net, Place(Outbox, c, p.b), x);
      }
    }
  }

  lemma RowAppended(q: Queues, x: Item, a: WorkerId, w: WorkerId)
    ensures var row := Row(q, a, w);
      Row(Appended(q, x), a, w) == if a == x.from && w == x.to then row[5 := row[5] + [x]] else row
  {
    var row := Row(q, a, w);
    var longer := if a == x.from && w == x.to then row[5 := row[5] + [x]] else row;
    forall i | 0 <= i < 6 ensures Row(Appended(q, x), a, w)[i] == longer[i] {
    }
  }

  lemma SunkAppended(q: Queues, x: Item, c: WorkerId, a: WorkerId, w: WorkerId)
    ensures Sunk(Appended(q, x), c, a, w) == Sunk(q, c, a, w)
  {
    hide OnRoute;
  }

  /** Putting one more message in an outbox extends its own route only. */
  lemma {:induction false} EnqueueKeeps(net: Net, enqueued: seq<Item>, q: Queues, x: Item)
    requires AllConserved(net, enqueued, q)
    ensures AllConserved(net, enqueued + [x], Appended(q, x))
  {
    hide OnRoute, Join, Row, Sunk, Appended;
    forall a: WorkerId, w: WorkerId ensures Conserved(net, enqueued + [x], Appended(q, x), a, w) {
      assert Conserved(net, enqueued, q, a, w);
      OnRouteConcat(enqueued, [x], a, w);
      SunkAppended(q, x, Sink(net, a, w), a, w);
      RowAppended(q, x, a, w);
      if a == x.from && w == x.to {
        OnRouteAll([x], a, w);
        LastOfRow(q, a, w);
        JoinLast(Row(q, a, w), [x]);
      } else {
        OnRouteNone([x], a, w);
      }
    }
  }

  lemma LastOfRow(q: Queues, a: WorkerId, w: WorkerId)
    ensures |Row(q, a, w)| == 6
  {
  }

  // ----- every step keeps the invariant

  lemma SomeBelongs(net: Net, q: Queues, p: Place)
    requires AllBelong(net, q)
    ensures At(q, p) != [] ==> exists x :: Belongs(net, p, x)
  {
    if At(q, p) != [] {
      assert Belongs(net, p, At(q, p)[0]);
    }
  }

  /** The places before the given one of a local pair are never used. */
  lemma LocalPairSkipsNetwork(net: Net, q: Queues, c: WorkerId)
    requires AllBelong(net, q)
    ensures forall m | 0 <= m < 4 :: At(q, Place(KindAt(m), c, c)) == []
  {
    forall m | 0 <= m < 4 ensures At(q, Place(KindAt(m), c, c)) == [] {
      SomeBelongs(net, q, Place(KindAt(m), c, c));
    }
  }

  lemma FlushLocal(net: Net, enqueued: seq<Item>, q: Queues, c: WorkerId)
    requires Held(net, enqueued, q)
    ensures Held(net, enqueued, ShiftAll(q, Place(Flushing, c, c), Place(Inbox, c, 0)))
  {
    hide AllConserved, At, Shift;
    var p, r := Place(Flushing, c, c), Place(Inbox, c, 0);
    LocalPairSkipsNetwork(net, q, c);
    assert KindAt(4) == Flushing;
    forall x | x in At(q, Place(Receiving, c, 0)) ensures x.from != c || x.to != c {
      assert Belongs(net, Place(Receiving, c, 0), x);
    }
    OnRouteNone(At(q, Place(Receiving, c, 0)), c, c);
    HandedOver(net, enqueued, q, c, c, 4, r);
    ShiftBelongs(net, q, p, |At(q, p)|, r);
  }

  lemma DrainHeld(net: Net, enqueued: seq<Item>, q: Queues, c: WorkerId, i: WorkerId)
    requires Held(net, enqueued, q) && i != c
    ensures Held(net, enqueued, ShiftAll(q, Drains(net, c, i), Place(Receiving, c, 0)))
  {
    hide AllConserved, At, Shift;
    var p, r := Drains(net, c, i), Place(Receiving, c, 0);
    assert KindAt(0) == Arrived && Sink(net, p.a, p.b) == c;
    HandedOver(net, enqueued, q, p.a, p.b, 0, r);
    ShiftBelongs(net, q, p, |At(q, p)|, r);
  }

  lemma MergeHeld(net: Net, enqueued: seq<Item>, q: Queues, c: WorkerId, p: Place, r: Place)
    requires Held(net, enqueued, q)
    requires Precedes(p, r, c)
    ensures Held(net, enqueued, ShiftAll(q, p, r))
  {
    hide AllConserved, At, Shift;
    Merged(net, enqueued, q, c, p, r);
    forall x | x in At(q, p) ensures Belongs(net, r, x) {
      assert Belongs(net, p, x);
    }
    ShiftBelongs(net, q, p, |At(q, p)|, r);
  }

  lemma AlongHeld(net: Net, enqueued: seq<Item>, q: Queues, x: WorkerId, y: WorkerId, i: nat, j: nat, k: nat)
    requires Held(net, enqueued, q) && i < j < 6 && k <= |At(q, Place(KindAt(j), x, y))|
    requires forall m | i < m < j :: At(q, Place(KindAt(m), x, y)) == []
    requires forall z | z in At(q, Place(KindAt(j), x, y)) :: Belongs(net, Place(KindAt(i), x, y), z)
    ensures Held(net, enqueued, Shift(q, Place(KindAt(j), x, y), k, Place(KindAt(i), x, y)))
  {
    hide AllConserved, At, Shift;
    AlongPair(net, enqueued, q, x, y, i, j, k);
    ShiftBelongs(net, q, Place(KindAt(j), x, y), k, Place(KindAt(i), x, y));
  }

  lemma FlushRemote(net: Net, enqueued: seq<Item>, q: Queues, c: WorkerId, w: WorkerId, k: nat)
    requires Held(net, enqueued, q) && c != w && k <= |At(q, Place(Flushing, c, w))|
    ensures Held(net, enqueued, Shift(q, Place(Flushing, c, w), k, Destination(net, c, w)))
  {
    hide AllConserved, At, Shift;
    var p := Place(Flushing, c, w);
    forall x | x in At(q, p) ensures Belongs(net, Destination(net, c, w), x) {
      assert Belongs(net, p, x);
    }
    if net.rdma {
      SomeBelongs(net, q, Place(Lost, c, w));
      AlongHeld(net, enqueued, q, c, w, 2, 4, k);
    } else {
      AlongHeld(net, enqueued, q, c, w, 3, 4, k);
    }
  }

  lemma NetworkHeld(net: Net, enqueued: seq<Item>, q: Queues, a: WorkerId, b: WorkerId, j: nat, k: nat)
    requires Held(net, enqueued, q) && 1 <= j <= 2 && k <= |At(q, Place(KindAt(j), a, b))|
    ensures Held(net, enqueued, Shift(q, Place(KindAt(j), a, b), k, Place(KindAt(j - 1), a, b)))
  {
    hide AllConserved, At, Shift;
    forall z | z in At(q, Place(KindAt(j), a, b)) ensures Belongs(net, Place(KindAt(j - 1), a, b), z) {
      assert Belongs(net, Place(KindAt(j), a, b), z);
    }
    AlongHeld(net, enqueued, q, a, b, j - 1, j, k);
  }

  lemma EnqueueHeld(net: Net, enqueued: seq<Item>, q: Queues, x: Item)
    requires Held(net, enqueued, q)
    ensures Held(net, enqueued + [x], Appended(q, x))
  {
    hide AllConserved;
    EnqueueKeeps(net, enqueued, q, x);
    forall r, y | y in At(Appended(q, x), r) ensures Belongs(net, r, y) {
      assert y in At(q, r) || y == x;
    }
  }

  lemma SwapHeld(s: State, c: WorkerId)
    requires FlushFront(s) && Held(s.net, s.enqueued, s.queues) && Is(s, c, Computing)
    ensures Held(s.net, s.enqueued, Swapped(s.queues, c))
  {
    hide AllConserved, At, Swapped;
    SwapKeeps(s.net, s.enqueued, s.queues, c);
    SwapBelongs(s.net, s.queues, c);
  }

  lemma FlushHeld(s: State, c: WorkerId)
    requires Held(s.net, s.enqueued, s.queues) && Enabled(s, FlushOne(c))
    ensures Held(s.net, s.enqueued, NextQueues(s, FlushOne(c)))
  {
    hide Held, At, Shift;
    var w := s.pcs[c].w;
    if w == c {
      FlushLocal(s.net, s.enqueued, s.queues, c);
    } else {
      var k := if !s.net.rdma then |At(s.queues, Place(Flushing, c, w))| else 1;
      FlushRemote(s.net, s.enqueued, s.queues, c, w, k);
    }
  }

  lemma {:induction false} HeldNext(s: State, step: Step)
    requires Inv(s) && Enabled(s, step) && !step.Enqueue?
    ensures Held(s.net, s.enqueued, NextQueues(s, step))
  {
    hide Held, AllBelong, AllConserved, At, Shift, Swapped;
    var net, e, q := s.net, s.enqueued, s.queues;
    match step {
      case DrainPair(c) =>
        var i := s.pcs[c].pair;
        if i != c {
          DrainHeld(net, e, q, c, i);
        }
      case Insert(c) => MergeHeld(net, e, q, c, Place(Receiving, c, 0), Place(Inbox, c, 0));
      case SwapInbox(c) => MergeHeld(net, e, q, c, Place(Inbox, c, 0), Place(Drained, c, 0));
      case SwapOutboxes(c) => SwapHeld(s, c);
      case FlushOne(c) => FlushHeld(s, c);
      case NetworkPop(a, b) => NetworkHeld(net, e, q, a, b, 2, 1);
      case NetworkDeliver(a, b) => NetworkHeld(net, e, q, a, b, 1, |At(q, Place(Hand, a, b))|);
      case _ =>
    }
  }

  /** A step that leaves the outboxes and the boxes being flushed as they are, except for taking from one. */
  predicate Frees(step: Step) {
    !step.Enqueue? && !step.SwapOutboxes?
  }

  lemma SendersNext(s: State, step: Step, c: WorkerId, w: WorkerId)
    requires Enabled(s, step) && Frees(step)
    ensures At(NextQueues(s, step), Place(Outbox, c, w)) == At(s.queues, Place(Outbox, c, w))
    ensures At(NextQueues(s, step), Place(Flushing, c, w)) != [] ==> At(s.queues, Place(Flushing, c, w)) != []
  {
    var p, r := Place(Outbox, c, w), Place(Flushing, c, w);
    assert At(NextQueues(s, step), p) == At(s.queues, p);
    assert At(NextQueues(s, step), r) != [] ==> At(s.queues, r) != [];
  }

  lemma {:induction false} FrontNext(s: State, step: Step)
    requires Inv(s) && Enabled(s, step)
    ensures FlushFront(Do(s, step))
  {
    hide Held, At, Swapped, Shift, ShiftAll, NextQueues;
    var t := Do(s, step);
    forall c: WorkerId, w: WorkerId | At(t.queues, Place(Flushing, c, w)) != []
      ensures Flushes(t, c) && t.pcs[c].w <= w < t.net.workers
    {
      match step {
        case Enqueue(d, m) => OnlyOutbox(s, d, m, Place(Flushing, c, w));
        case SwapOutboxes(d) =>
          SwapQueues(s, d);
          AtSwapped(s.queues, d, Place(Flushing, c, w));
        case _ => SendersNext(s, step, c, w);
      }
    }
  }

  lemma SwapQueues(s: State, c: WorkerId)
    requires Enabled(s, SwapOutboxes(c))
    ensures NextQueues(s, SwapOutboxes(c)) == Swapped(s.queues, c)
  {
  }

  lemma OnlyOutbox(s: State, c: WorkerId, m: Message, p: Place)
    requires Enabled(s, Enqueue(c, m))
    ensures var x := Tag(s, c, m); p != Place(Outbox, c, x.to) ==> At(Do(s, Enqueue(c, m)).queues, p) == At(s.queues, p)
  {
  }

  lemma {:induction false} OwnersNext(s: State, step: Step)
    requires Inv(s) && Enabled(s, step)
    ensures OwnersKnown(Do(s, step))
  {
    hide Held, At, Swapped, Shift, ShiftAll, NextQueues;
    var t := Do(s, step);
    forall c: WorkerId, w: WorkerId | At(t.queues, Place(Outbox, c, w)) != [] ensures w < t.net.workers {
      match step {
        case Enqueue(d, m) => OnlyOutbox(s, d, m, Place(Outbox, c, w));
        case SwapOutboxes(d) =>
          SwapQueues(s, d);
          AtSwapped(s.queues, d, Place(Outbox, c, w));
        case _ => SendersNext(s, step, c, w);
      }
    }
  }

  lemma {:induction false} InvNext(s: State, step: Step)
    requires Inv(s) && Enabled(s, step)
    ensures Inv(Do(s, step))
  {
    hide Held, FlushFront, OwnersKnown, At, Swapped, NextQueues;
    FrontNext(s, step);
    OwnersNext(s, step);
    if step.Enqueue? {
      EnqueueHeld(s.net, s.enqueued, s.queues, Tag(s, step.c, step.msg));
    } else {
      HeldNext(s, step);
    }
  }

  lemma {:induction false} InvInit(s: State)
    requires Init(s)
    ensures Inv(s)
  {
    forall a: WorkerId, w: WorkerId ensures Conserved(s.net, s.enqueued, s.queues, a, w) {
      var row := Row(s.queues, a, w);
      JoinGap(row, 5);
      assert row[6..] == [] && Join(row[6..]) == [];
    }
  }

  lemma {:induction false} InvAlways(run: seq<State>, n: nat)
    requires IsRun(run) && n < |run|
    ensures Inv(run[n])
  {
    hide Inv, Do, Enabled, Init;
    if n == 0 {
      InvInit(run[0]);
    } else {
      InvAlways(run, n - 1);
      assert Next(run[n - 1], run[n]);
      var step: Step :| Enabled(run[n - 1], step) && run[n] == Do(run[n - 1], step);
      InvNext(run[n - 1], step);
    }
  }
}
