/**
 What one step of each vertex program does, told from the mail alone: what is read from it, what the
 vertex becomes, and exactly which messages go out.
 */
module Sends {
  import opened Messages
  import opened Bsp
  import opened OrderBook
  import opened BookLaws

  // ----- lists of messages

  /** One message along each edge, in edge order. */
  function Copies(id: VertexId, edges: seq<Edge>, step: Superstep, body: Body): (r: seq<Message>)
    ensures |r| == |edges|
  {
    seq(|edges|, k requires 0 <= k < |edges| => Message(id, edges[k].dst, step, body))
  }

  /** The edges of one kind. */
  function OfThatKind(edges: seq<Edge>, kind: nat): seq<Edge> {
    if edges == [] then []
    else
      var e := edges[|edges| - 1];
      OfThatKind(edges[..|edges| - 1], kind) + if e.kind == kind then [e] else []
  }

  function Towards(edges: seq<Edge>, u: VertexId): seq<Edge> {
    if edges == [] then []
    else
      var e := edges[|edges| - 1];
      Towards(edges[..|edges| - 1], u) + if e.dst == u then [e] else []
  }

  lemma {:induction false} KindMember(edges: seq<Edge>, kind: nat, e: Edge)
    ensures e in OfThatKind(edges, kind) <==> e in edges && e.kind == kind
  {
    if edges != [] {
      KindMember(edges[..|edges| - 1], kind, e);
      assert edges == edges[..|edges| - 1] + [edges[|edges| - 1]];
    }
  }

  lemma {:induction false} EveryFan(id: VertexId, edges: seq<Edge>, step: Superstep, body: Body)
    ensures Fan(id, edges, Every, step, body) == Copies(id, edges, step, body)
  {
    if edges != [] {
      EveryFan(id, edges[..|edges| - 1], step, body);
    }
  }

  lemma {:induction false} KindFan(id: VertexId, edges: seq<Edge>, kind: nat, step: Superstep, body: Body)
    ensures Fan(id, edges, OfKind(kind), step, body) == Copies(id, OfThatKind(edges, kind), step, body)
  {
    if edges != [] {
      KindFan(id, edges[..|edges| - 1], kind, step, body);
    }
  }

  // ----- venues

  /** best is the highest of known and the positive bids in the mail. */
  ghost predicate HighestBid(known: int, inbox: seq<Message>, best: int) {
    && known <= best && (best == known || exists m :: m in inbox && Bids(m) && m.body.bid == best)
    && forall m | m in inbox && Bids(m) :: m.body.bid <= best
  }

  /** best is the lowest of known and the positive asks in the mail, where a known ask of zero is none. */
  ghost predicate LowestAsk(known: int, inbox: seq<Message>, best: int) {
    && (best == known || exists m :: m in inbox && Asks(m) && m.body.ask == best && (known == 0 || best < known))
    && forall m | m in inbox && Asks(m) :: best != 0 && best <= m.body.ask
  }

  predicate Bids(m: Message) {
    m.body.PriceUpdate? && m.body.bid > 0
  }

  predicate Asks(m: Message) {
    m.body.PriceUpdate? && m.body.ask > 0
  }

  function BidsOffered(inbox: seq<Message>): nat {
    if inbox == [] then 0
    else
      var m := inbox[|inbox| - 1];
      BidsOffered(inbox[..|inbox| - 1]) + if Bids(m) then m.body.bidQty else 0
  }

  /** The sizes of the asks that were each better than all before. */
  function AsksTaken(known: int, inbox: seq<Message>): nat {
    if inbox == [] then 0
    else
      var front, m := inbox[..|inbox| - 1], inbox[|inbox| - 1];
      var best := Fold(LowerAsk, known, front);
      AsksTaken(known, front) + if Asks(m) && (best == 0 || m.body.ask < best) then m.body.askQty else 0
  }

  lemma {:induction false} FoldHears(v: Venue, inbox: seq<Message>)
    ensures var r := Fold(Listen, v, inbox);
      HighestBid(v.bestBid, inbox, r.bestBid) && LowestAsk(v.bestAsk, inbox, r.bestAsk)
  {
    if inbox != [] {
      var front, m := inbox[..|inbox| - 1], inbox[|inbox| - 1];
      FoldHears(v, front);
      assert inbox == front + [m];
      assert m in inbox && forall x :: x in inbox <==> x in front || x == m;
      var before, after := Fold(Listen, v, front), Fold(Listen, v, inbox);
      assert after == Listen(before, m);
      hide Fold;
      if Bids(m) && m.body.bid > before.bestBid {
        assert after.bestBid == m.body.bid;
      }
      if Asks(m) && (before.bestAsk == 0 || m.body.ask < before.bestAsk) {
        assert after.bestAsk == m.body.ask;
        NewLowest(v.bestAsk, front, m, before.bestAsk);
      }
    }
  }

  lemma NewLowest(known: int, front: seq<Message>, m: Message, best: int)
    requires LowestAsk(known, front, best) && Asks(m) && (best == 0 || m.body.ask < best)
    ensures LowestAsk(known, front + [m], m.body.ask)
  {
    assert m in front + [m];
  }

  lemma BestsUnique(known: int, inbox: seq<Message>, a: int, b: int)
    ensures HighestBid(known, inbox, a) && HighestBid(known, inbox, b) ==> a == b
    ensures LowestAsk(known, inbox, a) && LowestAsk(known, inbox, b) ==> a == b
  {
  }

  lemma AddOnce(x: nat, y: nat)
    ensures (x % WORD + y) % WORD == (x + y) % WORD
  {
    var k := x / WORD;
    assert x == k * WORD + x % WORD;
    AddWords(x % WORD + y, k);
  }

  lemma ListenSizes(v: Venue, m: Message)
    ensures var r := Listen(v, m);
      && r.bidSize == (if Bids(m) then (v.bidSize + m.body.bidQty) % WORD else v.bidSize)
      && r.askSize == (if Asks(m) && (v.bestAsk == 0 || m.body.ask < v.bestAsk)
                       then (v.askSize + m.body.askQty) % WORD else v.askSize)
      && r.bestAsk == LowerAsk(v.bestAsk, m)
  {
  }

  lemma {:induction false} FoldSizes(v: Venue, inbox: seq<Message>)
    requires v.bidSize < WORD && v.askSize < WORD
    ensures var r := Fold(Listen, v, inbox);
      r.bidSize == (v.bidSize + BidsOffered(inbox)) % WORD
      && r.askSize == (v.askSize + AsksTaken(v.bestAsk, inbox)) % WORD
      && r.bestAsk == Fold(LowerAsk, v.bestAsk, inbox)
  {
    hide Listen, LowerAsk;
    if inbox != [] {
      var front, m := inbox[..|inbox| - 1], inbox[|inbox| - 1];
      FoldSizes(v, front);
      ListenSizes(Fold(Listen, v, front), m);
      if Bids(m) {
        AddOnce(v.bidSize + BidsOffered(front), m.body.bidQty);
      }
      if Asks(m) {
        AddOnce(v.askSize + AsksTaken(v.bestAsk, front), m.body.askQty);
      }
    }
  }

  /** Division by two toward zero. */
  function Middle(x: int): int {
    if x < 0 then -((-x) / 2) else x / 2
  }

  /**
   A venue takes the middle of the best bid and the best ask it has ever heard of, or 100 000 000 000
   if that is zero, moves it by the noise, and quotes two ticks of 100 to either side.
   */
  lemma {:induction false} QuotesAroundMiddle(
    id: VertexId, edges: seq<Edge>, s: VertexState<Venue>, inbox: seq<Message>, step: Superstep, noise: int,
    bid: int, ask: int)
    requires HighestBid(s.local.bestBid, inbox, bid) && LowestAsk(s.local.bestAsk, inbox, ask)
    ensures var r := VenueStep(id, edges, s, inbox, step, noise).local;
      var mid := (if Middle(bid + ask) == 0 then 100_000_000_000 else Middle(bid + ask)) + noise;
      r.bestBid == mid - 200 && r.bestAsk == mid + 200
  {
    FoldHears(s.local, inbox);
    var r := Fold(Listen, s.local, inbox);
    BestsUnique(s.local.bestBid, inbox, bid, r.bestBid);
    BestsUnique(s.local.bestAsk, inbox, ask, r.bestAsk);
    hide Listen, HighestBid, LowestAsk;
  }

  /** There always is such a bid and such an ask. */
  lemma {:induction false} VenueHears(v: Venue, inbox: seq<Message>) returns (bid: int, ask: int)
    ensures HighestBid(v.bestBid, inbox, bid) && LowestAsk(v.bestAsk, inbox, ask)
  {
    FoldHears(v, inbox);
    bid, ask := Fold(Listen, v, inbox).bestBid, Fold(Listen, v, inbox).bestAsk;
  }

  lemma {:induction false} VenueSizes(
    id: VertexId, edges: seq<Edge>, s: VertexState<Venue>, inbox: seq<Message>, step: Superstep, noise: int)
    requires s.local.bidSize < WORD && s.local.askSize < WORD
    ensures var r := VenueStep(id, edges, s, inbox, step, noise).local;
      r.bidSize == (s.local.bidSize + BidsOffered(inbox)) % WORD
      && r.askSize == (s.local.askSize + AsksTaken(s.local.bestAsk, inbox)) % WORD
  {
    FoldSizes(s.local, inbox);
  }

  /** Raising the noise raises both quotes by as much and changes nothing else about the venue. */
  lemma NoiseMovesQuotes(
    id: VertexId, edges: seq<Edge>, s: VertexState<Venue>, inbox: seq<Message>, step: Superstep, noise: int, d: int)
    ensures var r, t := VenueStep(id, edges, s, inbox, step, noise), VenueStep(id, edges, s, inbox, step, noise + d);
      t.local == r.local.(bestBid := r.local.bestBid + d, bestAsk := r.local.bestAsk + d) && t.halted == r.halted
  {
    hide Listen, Fold;
  }

  /** A venue sends its new quotes along every edge, once, whatever it heard. */
  lemma {:induction false} VenueSends(
    id: VertexId, edges: seq<Edge>, s: VertexState<Venue>, inbox: seq<Message>, step: Superstep, noise: int)
    ensures var r := VenueStep(id, edges, s, inbox, step, noise);
      var nbbo := PriceUpdate(r.local.bestBid, r.local.bestAsk, r.local.bidSize, r.local.askSize);
      && |r.outbox| == |s.outbox| + |edges| && s.outbox <= r.outbox && r.halted == s.halted
      && forall i | 0 <= i < |edges| :: r.outbox[|s.outbox| + i] == Message(id, edges[i].dst, step, nbbo)
  {
    var r := VenueStep(id, edges, s, inbox, step, noise);
    EveryFan(id, edges, step, PriceUpdate(r.local.bestBid, r.local.bestAsk, r.local.bidSize, r.local.askSize));
  }

  // ----- price levels

  /** The price updates of an inbox, in their order. */
  function Updates(inbox: seq<Message>): seq<Message> {
    if inbox == [] then []
    else
      var m := inbox[|inbox| - 1];
      Updates(inbox[..|inbox| - 1]) + if m.body.PriceUpdate? then [m] else []
  }

  lemma {:induction false} UpdateMember(inbox: seq<Message>, m: Message)
    ensures m in Updates(inbox) <==> m in inbox && m.body.PriceUpdate?
  {
    if inbox != [] {
      UpdateMember(inbox[..|inbox| - 1], m);
      assert inbox == inbox[..|inbox| - 1] + [inbox[|inbox| - 1]];
    }
  }

  /** Each message in turn, along each of the edges, signed and stamped anew. */
  function Passed(id: VertexId, edges: seq<Edge>, step: Superstep, ms: seq<Message>): seq<Message> {
    if ms == [] then []
    else Passed(id, edges, step, ms[..|ms| - 1]) + Copies(id, edges, step, ms[|ms| - 1].body)
  }

  lemma {:induction false} PassedCount(id: VertexId, edges: seq<Edge>, step: Superstep, ms: seq<Message>)
    ensures |Passed(id, edges, step, ms)| == |ms| * |edges|
  {
    if ms != [] {
      PassedCount(id, edges, step, ms[..|ms| - 1]);
      assert |ms| * |edges| == (|ms| - 1) * |edges| + |edges|;
    }
  }

  lemma {:induction false} PassedMember(id: VertexId, edges: seq<Edge>, step: Superstep, ms: seq<Message>, x: Message)
    ensures x in Passed(id, edges, step, ms) <==>
              && x.src == id && x.step == step
              && (exists m :: m in ms && m.body == x.body) && exists e :: e in edges && e.dst == x.dst
  {
    if ms != [] {
      var front, m := ms[..|ms| - 1], ms[|ms| - 1];
      PassedMember(id, edges, step, front, x);
      assert ms == front + [m];
      assert forall y :: y in ms <==> y in front || y == m;
      CopiesMember(id, edges, step, m.body, x);
    }
  }

  lemma CopiesMember(id: VertexId, edges: seq<Edge>, step: Superstep, body: Body, x: Message)
    ensures x in Copies(id, edges, step, body) <==>
              && x.src == id && x.step == step && x.body == body && exists e :: e in edges && e.dst == x.dst
  {
    if x.src == id && x.step == step && x.body == body && exists e :: e in edges && e.dst == x.dst {
      var k :| 0 <= k < |edges| && edges[k].dst == x.dst;
      assert Copies(id, edges, step, body)[k] == x;
    }
  }

  /** What one recipient gets of it keeps the order of ms. */
  lemma {:induction false} PassedInOrder(
    id: VertexId, edges: seq<Edge>, step: Superstep, ms: seq<Message>, u: VertexId)
    ensures Keep(Passed(id, edges, step, ms), AddressedTo(u)) == Passed(id, Towards(edges, u), step, ms)
  {
    if ms != [] {
      PassedInOrder(id, edges, step, ms[..|ms| - 1], u);
      CopiesTowards(id, edges, step, ms[|ms| - 1].body, u);
      KeepConcat(Passed(id, edges, step, ms[..|ms| - 1]), Copies(id, edges, step, ms[|ms| - 1].body), AddressedTo(u));
    }
  }

  lemma {:induction false} CopiesTowards(id: VertexId, edges: seq<Edge>, step: Superstep, body: Body, u: VertexId)
    ensures Keep(Copies(id, edges, step, body), AddressedTo(u)) == Copies(id, Towards(edges, u), step, body)
  {
    if edges != [] {
      CopiesTowards(id, edges[..|edges| - 1], step, body, u);
      assert Copies(id, edges, step, body)[..|edges| - 1] == Copies(id, edges[..|edges| - 1], step, body);
    }
  }

  lemma {:induction false} ForwardedIsPassed(id: VertexId, edges: seq<Edge>, inbox: seq<Message>, step: Superstep)
    ensures Forwarded(id, edges, inbox, step) == Passed(id, OfThatKind(edges, 1), step, Updates(inbox))
  {
    if inbox != [] {
      ForwardedIsPassed(id, edges, inbox[..|inbox| - 1], step);
      var m := inbox[|inbox| - 1];
      if !m.body.PriceUpdate? {
        assert Updates(inbox) == Updates(inbox[..|inbox| - 1]);
      } else {
        KindFan(id, edges, 1, step, m.body);
        assert Updates(inbox)[..|Updates(inbox)| - 1] == Updates(inbox[..|inbox| - 1]);
      }
    }
  }

  /** What a level with so much left tells its venue: its price and quantity, on its side only. */
  function OwnQuote(side: Side, price: int, total: nat): Body {
    match side
    case Bid => PriceUpdate(price, 0, total, 0)
    case Ask => PriceUpdate(0, price, 0, total)
  }

  /**
   A level passes every price update on to each of its orders, in the order in which they came, and then, if
   its quantity is not what it last told, tells its venue. It halts when it is empty and hears nothing.
   */
  lemma {:induction false} LevelSends(
    id: VertexId, edges: seq<Edge>, s: VertexState<Level>, inbox: seq<Message>, step: Superstep)
    ensures var r := LevelStep(id, edges, s, inbox, step);
      var down := Passed(id, OfThatKind(edges, 1), step, Updates(inbox));
      var up := Copies(id, OfThatKind(edges, 2), step, OwnQuote(s.local.side, s.local.price, r.local.total));
      && r.outbox == s.outbox + down + (if r.local.total == s.local.prev then [] else up)
      && (r.halted <==> s.halted || (r.local.total == 0 && inbox == []))
      && r.local.prev == r.local.total && r.local.price == s.local.price && r.local.side == s.local.side
  {
    hide Fold;
    ForwardedIsPassed(id, edges, inbox, step);
    var total := Stocked(s.local, inbox).total;
    KindFan(id, edges, 2, step, Quote(s.local, total));
  }

  /** A fill takes from a level what it says, one order with it; fills that reach the quantity empty it. */
  lemma {:induction false} LevelKeeps(
    id: VertexId, edges: seq<Edge>, s: VertexState<Level>, inbox: seq<Message>, step: Superstep)
    ensures var r := LevelStep(id, edges, s, inbox, step).local;
      var n, q := Fills(inbox), Quantity(inbox);
      if n > 0 && q >= s.local.total then r.total == 0 && r.count == 0
      else r.total == s.local.total - q && r.count == if s.local.count > n then s.local.count - n else 0
  {
    LevelClosedForm(Stock(s.local.total, s.local.count), inbox);
  }

  /**
   The messages a level with an empty outbox sends to its orders: so many, these and no others, and to each
   recipient in the order of the mail. As the edges of its orders come from them alone, they are first.
   */
  lemma {:induction false} LevelForwards(
    id: VertexId, edges: seq<Edge>, s: VertexState<Level>, inbox: seq<Message>, step: Superstep)
    returns (down: seq<Message>, up: seq<Message>)
    requires s.outbox == []
    ensures LevelStep(id, edges, s, inbox, step).outbox == down + up
    ensures |down| == |Updates(inbox)| * |OfThatKind(edges, 1)|
    ensures forall x :: x in down <==>
              && x.src == id && x.step == step && x.body.PriceUpdate?
              && (exists m :: m in inbox && m.body == x.body)
              && exists e :: e in edges && e.kind == 1 && e.dst == x.dst
    ensures forall u :: Keep(down, AddressedTo(u))
                     == Passed(id, Towards(OfThatKind(edges, 1), u), step, Updates(inbox))
    ensures forall x | x in up :: exists e :: e in edges && e.kind == 2 && e.dst == x.dst
  {
    LevelSends(id, edges, s, inbox, step);
    var r := LevelStep(id, edges, s, inbox, step);
    var body := OwnQuote(s.local.side, s.local.price, r.local.total);
    down := Passed(id, OfThatKind(edges, 1), step, Updates(inbox));
    up := if r.local.total == s.local.prev then [] else Copies(id, OfThatKind(edges, 2), step, body);
    hide LevelStep;
    PassedCount(id, OfThatKind(edges, 1), step, Updates(inbox));
    forall x
      ensures x in down <==>
                && x.src == id && x.step == step && x.body.PriceUpdate?
                && (exists m :: m in inbox && m.body == x.body)
                && exists e :: e in edges && e.kind == 1 && e.dst == x.dst
    {
      DownMember(id, edges, inbox, step, x);
    }
    forall u ensures Keep(down, AddressedTo(u)) == Passed(id, Towards(OfThatKind(edges, 1), u), step, Updates(inbox)) {
      PassedInOrder(id, OfThatKind(edges, 1), step, Updates(inbox), u);
    }
    forall x | x in up ensures exists e :: e in edges && e.kind == 2 && e.dst == x.dst {
      CopiesMember(id, OfThatKind(edges, 2), step, body, x);
      var e :| e in OfThatKind(edges, 2) && e.dst == x.dst;
      KindMember(edges, 2, e);
    }
  }

  lemma DownMember(id: VertexId, edges: seq<Edge>, inbox: seq<Message>, step: Superstep, x: Message)
    ensures x in Passed(id, OfThatKind(edges, 1), step, Updates(inbox)) <==>
              && x.src == id && x.step == step && x.body.PriceUpdate?
              && (exists m :: m in inbox && m.body == x.body)
              && exists e :: e in edges && e.kind == 1 && e.dst == x.dst
  {
    PassedMember(id, OfThatKind(edges, 1), step, Updates(inbox), x);
    forall m ensures m in Updates(inbox) <==> m in inbox && m.body.PriceUpdate? {
      UpdateMember(inbox, m);
    }
    forall e ensures e in OfThatKind(edges, 1) <==> e in edges && e.kind == 1 {
      KindMember(edges, 1, e);
    }
    hide Passed, Updates, OfThatKind;
  }
}
