/** The four vertex programs of the order book (order_book_graph.cpp), as functions on values. */
module OrderBook {
  import opened Messages
  import opened Bsp

  const TICK_SIZE := 100
  const DEFAULT_MID := 100_000 * 1_000_000
  const ARB_THRESHOLD_BPS := 5
  const IDLE_LIMIT := 10

  datatype Side = Bid | Ask

  /** What an edge leads to: 0 a level or venue, 1 an order, 2 a venue or level, 3 a market maker. */
  datatype Edge = Edge(dst: VertexId, kind: nat)

  datatype Order = Order(
    limitPrice: int, quantity: nat, filled: nat, side: Side, active: bool, best: int, idle: nat)

  datatype Level = Level(price: int, side: Side, total: nat, count: nat, prev: nat)

  datatype Venue = Venue(bestBid: int, bestAsk: int, bidSize: nat, askSize: nat)

  datatype Maker = Maker(position: int, pnl: int, fills: nat, signals: nat, limit: real, bid: int, ask: int)

  // ----- loops over the inbox

  /** The state after the messages have been taken in one by one. */
  function Fold<A>(f: (A, Message) -> A, a: A, s: seq<Message>): A {
    if s == [] then a else f(Fold(f, a, s[..|s| - 1]), s[|s| - 1])
  }

  ghost predicate Commutes<A(!new)>(f: (A, Message) -> A) {
    forall a: A, x: Message, y: Message :: f(f(a, x), y) == f(f(a, y), x)
  }

  lemma {:induction false} FoldConcat<A>(f: (A, Message) -> A, a: A, s: seq<Message>, t: seq<Message>)
    ensures Fold(f, a, s + t) == Fold(f, Fold(f, a, s), t)
  {
    if t == [] {
      assert s + t == s;
    } else {
      assert (s + t)[..|s + t| - 1] == s + t[..|t| - 1];
      FoldConcat(f, a, s, t[..|t| - 1]);
    }
  }

  lemma {:induction false} FoldLater<A(!new)>(f: (A, Message) -> A, a: A, x: Message, s: seq<Message>)
    requires Commutes(f)
    ensures Fold(f, f(a, x), s) == f(Fold(f, a, s), x)
  {
    if s != [] {
      FoldLater(f, a, x, s[..|s| - 1]);
    }
  }

  /** A loop whose steps commute ends the same for every order of the inbox. */
  lemma {:induction false} FoldPermutes<A(!new)>(f: (A, Message) -> A, a: A, s: seq<Message>, t: seq<Message>)
    requires Commutes(f) && multiset(s) == multiset(t)
    ensures Fold(f, a, s) == Fold(f, a, t)
    decreases |s|
  {
    if s == [] {
      assert |t| == |multiset(t)| == 0;
    } else {
      var front, x := s[..|s| - 1], s[|s| - 1];
      assert s == front + [x];
      var head, tail := Split(t, x);
      FoldPermutes(f, a, front, head + tail);
      FoldConcat(f, a, head, tail);
      FoldConcat(f, a, head + [x], tail);
      FoldConcat(f, a, head, [x]);
      FoldLater(f, Fold(f, a, head), x, tail);
      assert Fold(f, Fold(f, a, head), [x]) == f(Fold(f, a, head), x);
    }
  }

  lemma Split(t: seq<Message>, x: Message) returns (head: seq<Message>, tail: seq<Message>)
    requires x in multiset(t)
    ensures t == head + [x] + tail && multiset(head + tail) == multiset(t) - multiset{x}
  {
    var i :| 0 <= i < |t| && t[i] == x;
    head, tail := t[..i], t[i + 1..];
    assert t == head + [x] + tail;
  }

  lemma FoldOne<A>(f: (A, Message) -> A, a: A, x: Message)
    ensures Fold(f, a, [x]) == f(a, x)
  {
    assert [x][..0] == [];
  }

  lemma FoldTwo<A>(f: (A, Message) -> A, a: A, x: Message, y: Message)
    ensures Fold(f, a, [x, y]) == f(f(a, x), y)
  {
    assert [x, y][..1] == [x];
    FoldOne(f, a, x);
  }

  // ----- sending along edges

  datatype Along = Every | OfKind(kind: nat)

  predicate Takes(along: Along, e: Edge) {
    along.Every? || e.kind == along.kind
  }

  /** One message per edge taken, in edge order. */
  function Fan(id: VertexId, edges: seq<Edge>, along: Along, step: Superstep, body: Body): seq<Message> {
    if edges == [] then []
    else
      var rest := Fan(id, edges[..|edges| - 1], along, step, body);
      var e := edges[|edges| - 1];
      if Takes(along, e) then rest + [Message(id, e.dst, step, body)] else rest
  }

  lemma {:induction false} FanMember(id: VertexId, edges: seq<Edge>, along: Along, step: Superstep, body: Body,
      m: Message)
    ensures m in Fan(id, edges, along, step, body) <==>
              && m.src == id && m.step == step && m.body == body
              && exists e :: e in edges && Takes(along, e) && e.dst == m.dst
  {
    if edges != [] {
      FanMember(id, edges[..|edges| - 1], along, step, body, m);
      assert edges == edges[..|edges| - 1] + [edges[|edges| - 1]];
    }
  }

  lemma {:induction false} FanEvery(id: VertexId, edges: seq<Edge>, step: Superstep, body: Body)
    ensures |Fan(id, edges, Every, step, body)| == |edges|
  {
    if edges != [] {
      FanEvery(id, edges[..|edges| - 1], step, body);
    }
  }

  function Copy(id: VertexId, e: Edge, along: Along, step: Superstep, body: Body): seq<Message> {
    if Takes(along, e) then [Message(id, e.dst, step, body)] else []
  }

  lemma FanOne(id: VertexId, e: Edge, along: Along, step: Superstep, body: Body)
    ensures Fan(id, [e], along, step, body) == Copy(id, e, along, step, body)
  {
    assert [e][..0] == [];
  }

  lemma FanTwo(id: VertexId, e: Edge, f: Edge, along: Along, step: Superstep, body: Body)
    ensures Fan(id, [e, f], along, step, body) == Copy(id, e, along, step, body) + Copy(id, f, along, step, body)
  {
    assert [e, f][..1] == [e];
    FanOne(id, e, along, step, body);
  }

  lemma FanThree(id: VertexId, e: Edge, f: Edge, g: Edge, along: Along, step: Superstep, body: Body)
    ensures Fan(id, [e, f, g], along, step, body)
         == Copy(id, e, along, step, body) + Copy(id, f, along, step, body) + Copy(id, g, along, step, body)
  {
    assert [e, f, g][..2] == [e, f];
    FanTwo(id, e, f, along, step, body);
  }

  // ----- order

  /** Bitwise exclusive or. */
  function Xor(a: nat, b: nat): nat {
    if a == 0 then b else if b == 0 then a else (a % 2 + b % 2) % 2 + 2 * Xor(a / 2, b / 2)
  }

  function TradeId(id: VertexId, step: Superstep): nat {
    Xor(id, step * HALF_WORD % WORD)
  }

  /** Reads the inbox until it ends or the order becomes inactive. */
  function ReadMail(o: Order, inbox: seq<Message>): Order
    decreases |inbox|
  {
    if inbox == [] then o
    else
      match inbox[0].body
      case PriceUpdate(bid, ask, _, _) => ReadMail(o.(best := if o.side.Bid? then bid else ask), inbox[1..])
      case OrderFill(_, qty, _) =>
        var filled := (o.filled + qty) % WORD;
        if filled >= o.quantity then o.(filled := filled, active := false)
        else ReadMail(o.(filled := filled), inbox[1..])
      case CancelAck => o.(active := false)
      case _ => ReadMail(o, inbox[1..])
  }

  predicate Marketable(o: Order) {
    o.best > 0 && if o.side.Bid? then o.best <= o.limitPrice else o.best >= o.limitPrice
  }

  /** The fill an order emits; the subtraction is unsigned. */
  function FillOf(id: VertexId, o: Order, step: Superstep): Body {
    OrderFill(o.limitPrice, (o.quantity - o.filled) % WORD, TradeId(id, step))
  }

  function OrderStep(id: VertexId, edges: seq<Edge>, s: VertexState<Order>, inbox: seq<Message>,
      step: Superstep): VertexState<Order> {
    if !s.local.active then s.(halted := true)
    else
      var o := ReadMail(s.local, inbox);
      if !o.active then s.(halted := true, local := o)
      else if Marketable(o) then
        s.(outbox := s.outbox + Fan(id, edges, Every, step, FillOf(id, o, step)), local := o.(idle := 0))
      else
        var idle := (o.idle + 1) % HALF_WORD;
        s.(halted := s.halted || idle > IDLE_LIMIT, local := o.(idle := idle))
  }

  // ----- price level

  datatype Stock = Stock(total: nat, count: nat)

  /** A fill takes from the level, never below zero. */
  function Absorb(k: Stock, m: Message): Stock {
    if !m.body.OrderFill? then k
    else if m.body.qty >= k.total then Stock(0, 0)
    else Stock(k.total - m.body.qty, if k.count > 0 then k.count - 1 else 0)
  }

  function Stocked(l: Level, inbox: seq<Message>): Stock {
    Fold(Absorb, Stock(l.total, l.count), inbox)
  }

  /** Price updates are passed on to the level's orders. */
  function Forwarded(id: VertexId, edges: seq<Edge>, inbox: seq<Message>, step: Superstep): seq<Message> {
    if inbox == [] then []
    else
      var rest := Forwarded(id, edges, inbox[..|inbox| - 1], step);
      var m := inbox[|inbox| - 1];
      if m.body.PriceUpdate? then rest + Fan(id, edges, OfKind(1), step, m.body) else rest
  }

  function Quote(l: Level, total: nat): Body {
    if l.side.Bid? then PriceUpdate(l.price, 0, total, 0) else PriceUpdate(0, l.price, 0, total)
  }

  function Upstream(id: VertexId, edges: seq<Edge>, l: Level, total: nat, step: Superstep): seq<Message> {
    if total != l.prev then Fan(id, edges, OfKind(2), step, Quote(l, total)) else []
  }

  function LevelStep(id: VertexId, edges: seq<Edge>, s: VertexState<Level>, inbox: seq<Message>,
      step: Superstep): VertexState<Level> {
    var k := Stocked(s.local, inbox);
    VertexState(
      s.halted || (k.total == 0 && inbox == []),
      s.outbox + Forwarded(id, edges, inbox, step) + Upstream(id, edges, s.local, k.total, step),
      s.local.(total := k.total, count := k.count, prev := k.total))
  }

  // ----- venue

  /** A bid always adds its size; an ask only if it improves the best. */
  function Listen(v: Venue, m: Message): Venue {
    if !m.body.PriceUpdate? then v
    else
      var b := m.body;
      var w :=
        if b.bid > 0 then
          v.(bestBid := if b.bid > v.bestBid then b.bid else v.bestBid, bidSize := (v.bidSize + b.bidQty) % WORD)
        else v;
      if b.ask > 0 && (w.bestAsk == 0 || b.ask < w.bestAsk) then
        w.(bestAsk := b.ask, askSize := (w.askSize + b.askQty) % WORD)
      else w
  }

  /** Division by two, toward zero. */
  function Half(x: int): int {
    if x >= 0 then x / 2 else -(-x / 2)
  }

  function Requoted(v: Venue, noise: int): Venue {
    var half := Half(v.bestBid + v.bestAsk);
    var mid := (if half == 0 then DEFAULT_MID else half) + noise;
    v.(bestBid := mid - 2 * TICK_SIZE, bestAsk := mid + 2 * TICK_SIZE)
  }

  function VenueStep(id: VertexId, edges: seq<Edge>, s: VertexState<Venue>, inbox: seq<Message>,
      step: Superstep, noise: int): VertexState<Venue> {
    var v := Requoted(Fold(Listen, s.local, inbox), noise);
    var nbbo := PriceUpdate(v.bestBid, v.bestAsk, v.bidSize, v.askSize);
    s.(local := v, outbox := s.outbox + Fan(id, edges, Every, step, nbbo))
  }

  // ----- market maker

  /** A 64-bit pattern read as a signed number. */
  function Signed(x: nat): int {
    var y := x % WORD;
    if y >= WORD / 2 then y - WORD else y
  }

  function Book(k: Maker, m: Message): Maker {
    match m.body
    case OrderFill(price, qty, _) =>
      k.(position := k.position + Signed(qty), fills := k.fills + 1, pnl := k.pnl - price * Signed(qty))
    case PriceUpdate(bid, ask, _, _) =>
      k.(bid := if bid > 0 then bid else k.bid, ask := if ask > 0 then ask else k.ask)
    case _ => k
  }

  /** The crossed spread in basis points of the middle price, 0 if the market is not crossed. */
  function CrossedBps(k: Maker): int {
    var mid := Half(k.bid + k.ask);
    if k.bid > 0 && k.ask > 0 && k.bid > k.ask && mid > 0 then (k.bid - k.ask) * 10000 / mid else 0
  }

  predicate SeesArbitrage(k: Maker) {
    CrossedBps(k) >= ARB_THRESHOLD_BPS
  }

  predicate OverLimit(k: Maker) {
    (if k.position < 0 then -k.position else k.position) as real > k.limit
  }

  function MakerStep(id: VertexId, edges: seq<Edge>, s: VertexState<Maker>, inbox: seq<Message>,
      step: Superstep): VertexState<Maker> {
    var k := Fold(Book, s.local, inbox);
    var out := s.outbox
      + (if SeesArbitrage(k) then Fan(id, edges, Every, step, ArbitrageSignal(CrossedBps(k), 0, 1)) else []);
    VertexState(
      s.halted || OverLimit(k) || (inbox == [] && out == []),
      out,
      if SeesArbitrage(k) then k.(signals := k.signals + 1) else k)
  }
}
