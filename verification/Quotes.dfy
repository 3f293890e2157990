/** What market makers hear in the book as it is built. */
module Quotes {
  import opened Messages
  import opened Bsp
  import opened OrderBook
  import opened BookLaws
  import opened BookRuns

  predicate MakerAt(w: World<Local>, v: VertexId) {
    v in w.vertices && w.vertices[v].local.AMaker?
  }

  /** No price level leads to a market maker: makers are quoted to by venues only. */
  ghost predicate QuotedByVenues(w: World<Local>) {
    forall v, e | v in w.vertices && w.vertices[v].local.ALevel? && e in w.vertices[v].local.edges :: !MakerAt(w, e.dst)
  }

  /** Every venue that quotes, quotes a positive bid: its middle price is above half of its spread. */
  ghost predicate BidsPositive(w: World<Local>) {
    forall v | v in w.vertices && w.vertices[v].local.AVenue? :: w.vertices[v].local.venue.bestBid > 0
  }

  /** The quotes a maker has last heard are not crossed. */
  predicate Straight(k: Maker) {
    (k.bid == 0 && k.ask == 0) || 0 < k.bid < k.ask
  }

  predicate Uncrossed(m: Message) {
    m.body.PriceUpdate? && 0 < m.body.bid < m.body.ask
  }

  /** What a maker may find in its mail, and no signal to anyone. */
  predicate Orderly(start: World<Local>, m: Message) {
    !m.body.ArbitrageSignal? && (MakerAt(start, m.dst) ==> Uncrossed(m))
  }

  ghost predicate AllOrderly(start: World<Local>, ms: seq<Message>) {
    forall m | m in ms :: Orderly(start, m)
  }

  lemma StraightSeesNothing(k: Maker)
    requires Straight(k)
    ensures !SeesArbitrage(k)
  {
  }

  lemma {:induction false} StaysStraight(k: Maker, inbox: seq<Message>)
    requires Straight(k) && forall m | m in inbox :: Uncrossed(m)
    ensures var r := Fold(Book, k, inbox); Straight(r) && r.(bid := k.bid, ask := k.ask) == k
  {
    if inbox != [] {
      assert Uncrossed(inbox[|inbox| - 1]);
      StaysStraight(k, inbox[..|inbox| - 1]);
    }
  }

  lemma {:induction false} FanElsewhere(start: World<Local>, v: VertexId, edges: seq<Edge>, along: Along,
      step: Superstep, body: Body)
    requires !body.ArbitrageSignal? && forall e | e in edges :: !MakerAt(start, e.dst)
    ensures AllOrderly(start, Fan(v, edges, along, step, body))
  {
    forall m | m in Fan(v, edges, along, step, body) ensures Orderly(start, m) {
      FanMember(v, edges, along, step, body, m);
    }
  }

  lemma {:induction false} ForwardedElsewhere(start: World<Local>, v: VertexId, edges: seq<Edge>,
      inbox: seq<Message>, step: Superstep)
    requires forall e | e in edges :: !MakerAt(start, e.dst)
    ensures AllOrderly(start, Forwarded(v, edges, inbox, step))
  {
    if inbox != [] {
      ForwardedElsewhere(start, v, edges, inbox[..|inbox| - 1], step);
      var m := inbox[|inbox| - 1];
      if m.body.PriceUpdate? {
        FanElsewhere(start, v, edges, OfKind(1), step, m.body);
      }
    }
  }

  lemma {:induction false} VenueQuotes(start: World<Local>, v: VertexId, edges: seq<Edge>, u: Venue,
      inbox: seq<Message>, step: Superstep, noise: int)
    requires VenueStep(v, edges, VertexState(false, [], u), inbox, step, noise).local.bestBid > 0
    ensures AllOrderly(start, VenueStep(v, edges, VertexState(false, [], u), inbox, step, noise).outbox)
  {
    var r := Requoted(Fold(Listen, u, inbox), noise);
    var nbbo := PriceUpdate(r.bestBid, r.bestAsk, r.bidSize, r.askSize);
    forall m | m in Fan(v, edges, Every, step, nbbo) ensures Orderly(start, m) {
      FanMember(v, edges, Every, step, nbbo, m);
    }
  }

  /** What one vertex does, given orderly mail. */
  ghost predicate Behaves(start: World<Local>, before: Local, r: VertexState<Local>) {
    && AllOrderly(start, r.outbox)
    && (before.AMaker? ==> r.local.AMaker? && Straight(r.local.maker) && r.local.maker.signals == before.maker.signals)
  }

  /** The wiring of the vertex, as at the start. */
  predicate WiredAs(start: World<Local>, v: VertexId, local: Local) {
    v in start.vertices && local.edges == start.vertices[v].local.edges
    && (local.ALevel? <==> start.vertices[v].local.ALevel?) && (local.AnOrder? <==> start.vertices[v].local.AnOrder?)
  }

  lemma {:induction false} ComputeBehaves(
    start: World<Local>, noise: (VertexId, Superstep) -> int, v: VertexId, s: VertexState<Local>,
    inbox: seq<Message>, step: Superstep)
    requires QuotedByVenues(start) && Wired(start) && WiredAs(start, v, s.local) && s.outbox == []
    requires s.local.AMaker? ==> Straight(s.local.maker) && forall m | m in inbox :: Uncrossed(m)
    requires var r := Compute(noise, v, s, inbox, step).local; r.AVenue? ==> r.venue.bestBid > 0
    ensures Behaves(start, s.local, Compute(noise, v, s, inbox, step))
  {
    hide Fan, Forwarded, ReadMail, Listen, TradeId, Orderly, SeesArbitrage;
    match s.local {
      case AnOrder(edges, o) => FillsGoElsewhere(start, v, edges, step, FillOf(v, ReadMail(o, inbox), step));
      case ALevel(edges, l) =>
        ForwardedElsewhere(start, v, edges, inbox, step);
        FanElsewhere(start, v, edges, OfKind(2), step, Quote(l, Stocked(l, inbox).total));
      case AVenue(edges, u) => VenueQuotes(start, v, edges, u, inbox, step, noise(v, step));
      case AMaker(edges, k) =>
        StaysStraight(k, inbox);
        StraightSeesNothing(Fold(Book, k, inbox));
    }
  }

  /** An order's edges lead to levels, so its messages are orderly whatever they say. */
  lemma {:induction false} FillsGoElsewhere(start: World<Local>, v: VertexId, edges: seq<Edge>,
      step: Superstep, body: Body)
    requires Wired(start) && v in start.vertices
    requires start.vertices[v].local.AnOrder? && start.vertices[v].local.edges == edges
    requires !body.ArbitrageSignal?
    ensures AllOrderly(start, Fan(v, edges, Every, step, body))
  {
    forall e | e in edges ensures !MakerAt(start, e.dst) {
      assert IsLevel(start, e.dst);
    }
    FanElsewhere(start, v, edges, Every, step, body);
  }

  /** What every superstep of a built book keeps while venues quote positive bids. */
  ghost predicate Calm(start: World<Local>, w: World<Local>) {
    && Trading(start, w) && AllOrderly(start, w.mail)
    && forall v | MakerAt(w, v) ::
         && Straight(w.vertices[v].local.maker) && start.vertices[v].local.AMaker?
         && w.vertices[v].local.maker.signals == start.vertices[v].local.maker.signals
  }

  lemma {:induction false} CalmVertex(
    start: World<Local>, noise: (VertexId, Superstep) -> int, w: World<Local>, v: VertexId, step: Superstep)
    requires QuotedByVenues(start) && Wired(start) && Calm(start, w) && v in w.vertices
    requires var r := After(BookProgram(noise), w, v, step).local; r.AVenue? ==> r.venue.bestBid > 0
    ensures Behaves(start, w.vertices[v].local, After(BookProgram(noise), w, v, step))
  {
    hide Compute, QuotedByVenues, Wired, PlainMail, Uncrossed;
    var s := w.vertices[v];
    if Computes(w, v) {
      var inbox := Inbox(w, v);
      assert inbox == Keep(w.mail, AddressedTo(v));
      forall m | m in inbox ensures m.dst == v && Orderly(start, m) {
        KeepMember(w.mail, AddressedTo(v), m);
      }
      assert Untraded(start.vertices[v].local, s.local);
      assert s.local.AMaker? ==> MakerAt(w, v);
      ComputeBehaves(start, noise, v, s.(halted := false), inbox, step);
    } else {
      assert s.local.AMaker? ==> MakerAt(w, v);
    }
  }

  lemma {:induction false} CalmStep(
    start: World<Local>, noise: (VertexId, Superstep) -> int, order: seq<VertexId>, w: World<Local>, step: Superstep)
    requires QuotedByVenues(start) && Wired(start) && Calm(start, w)
    requires BidsPositive(Step(BookProgram(noise), order, w, step))
    ensures Calm(start, Step(BookProgram(noise), order, w, step))
  {
    hide BookProgram, Untraded, Plain, After, Sent, Wired, QuotedByVenues, Orderly, Straight, PlainMail, Unclaimed;
    var prog := BookProgram(noise);
    var r := Step(prog, order, w, step);
    TradingStep(start, noise, order, w, step);
    forall v | v in w.vertices ensures Behaves(start, w.vertices[v].local, After(prog, w, v, step)) {
      assert r.vertices[v].local == After(prog, w, v, step).local;
      CalmVertex(start, noise, w, v, step);
    }
    forall m | m in r.mail ensures Orderly(start, m) {
      SentFrom(prog, order, |order|, w, step, m);
    }
    forall v | MakerAt(r, v)
      ensures Straight(r.vertices[v].local.maker) && start.vertices[v].local.AMaker?
      ensures r.vertices[v].local.maker.signals == start.vertices[v].local.maker.signals
    {
      SameKind(start, w, r, v);
      assert MakerAt(w, v);
    }
  }

  lemma SameKind(start: World<Local>, w: World<Local>, r: World<Local>, v: VertexId)
    requires Trading(start, w) && Trading(start, r) && v in r.vertices
    ensures v in w.vertices && v in start.vertices
    ensures r.vertices[v].local.AMaker? <==> start.vertices[v].local.AMaker?
    ensures w.vertices[v].local.AMaker? <==> start.vertices[v].local.AMaker?
  {
    assert Untraded(start.vertices[v].local, w.vertices[v].local);
    assert Untraded(start.vertices[v].local, r.vertices[v].local);
  }

  ghost predicate StartsCalm(w: World<Local>) {
    && OutboxesEmpty(w) && NoBacklog(w) && w.mail == []
    && forall v | MakerAt(w, v) :: Straight(w.vertices[v].local.maker)
  }

  lemma CalmAtStart(w: World<Local>)
    requires StartsCalm(w)
    ensures Calm(w, w)
  {
  }

  /**
   In the book as built, as long as every venue keeps quoting positive bids, no market maker ever sees
   an arbitrage: none signals, and no signal is ever in the mail. A maker takes bid and ask from one
   message, the last it heard.
   */
  lemma {:induction false} NoArbitrageInBuiltBooks(
    start: World<Local>, noise: (VertexId, Superstep) -> int, order: seq<VertexId>, n: nat)
    requires QuotedByVenues(start) && Wired(start) && StartsCalm(start)
    requires forall k | 0 < k <= n :: BidsPositive(Iterate(BookProgram(noise), order, start, 0, k))
    ensures Calm(start, Iterate(BookProgram(noise), order, start, 0, n))
  {
    hide Step, BookProgram, Wired, QuotedByVenues, StartsCalm, Calm, BidsPositive;
    if n == 0 {
      CalmAtStart(start);
    } else {
      NoArbitrageInBuiltBooks(start, noise, order, n - 1);
      assert BidsPositive(Iterate(BookProgram(noise), order, start, 0, n));
      CalmStep(start, noise, order, Iterate(BookProgram(noise), order, start, 0, n - 1), n - 1);
    }
  }
}
