/** How far venues' quotes can fall in a run of a built book, and what follows for market makers. */
module Drift {
  import opened Messages
  import opened Bsp
  import opened OrderBook
  import opened BookRuns
  import opened Quotes
  import opened GraphBuilder
  import opened GraphShape

  predicate VenueAt(w: World<Local>, v: VertexId) {
    v in w.vertices && w.vertices[v].local.AVenue?
  }

  /** Price levels tell venues only their own quotes, no ask below floor, and venues tell each other nothing. */
  ghost predicate AsksAbove(w: World<Local>, floor: int) {
    && (forall v | v in w.vertices && w.vertices[v].local.ALevel? ::
          w.vertices[v].local.level.side.Ask? ==> w.vertices[v].local.level.price >= floor)
    && (forall v, e | v in w.vertices && w.vertices[v].local.ALevel? && e in w.vertices[v].local.edges ::
          VenueAt(w, e.dst) ==> e.kind == 2)
    && (forall v, e | v in w.vertices && w.vertices[v].local.AVenue? && e in w.vertices[v].local.edges ::
          !VenueAt(w, e.dst))
  }

  predicate AskAbove(m: Message, floor: int) {
    m.body.PriceUpdate? && m.body.ask > 0 ==> m.body.ask >= floor
  }

  /** What a venue may find in its mail. */
  predicate Soft(start: World<Local>, m: Message, floor: int) {
    VenueAt(start, m.dst) ==> AskAbove(m, floor)
  }

  ghost predicate AllSoft(start: World<Local>, ms: seq<Message>, floor: int) {
    forall m | m in ms :: Soft(start, m, floor)
  }

  /** The quotes of a venue around a middle price of at least mid. */
  predicate Around(u: Venue, mid: int) {
    u.bestBid >= mid - 2 * TICK_SIZE && u.bestAsk >= mid + 2 * TICK_SIZE
  }

  /** What no step changes about a vertex. */
  predicate SameShape(before: Local, after: Local) {
    match before
    case AnOrder(edges, _) => after.AnOrder? && after.edges == edges
    case ALevel(edges, l) =>
      after.ALevel? && after.edges == edges && after.level.price == l.price && after.level.side == l.side
    case AVenue(edges, _) => after.AVenue? && after.edges == edges
    case AMaker(edges, _) => after.AMaker? && after.edges == edges
  }

  // ----- one vertex

  lemma {:induction false} ListenKeepsAround(u: Venue, inbox: seq<Message>, mid: int, floor: int)
    requires Around(u, mid) && 0 < mid && mid + 2 * TICK_SIZE <= floor
    requires forall m | m in inbox :: AskAbove(m, floor)
    ensures Around(Fold(Listen, u, inbox), mid)
  {
    if inbox != [] {
      assert AskAbove(inbox[|inbox| - 1], floor);
      ListenKeepsAround(u, inbox[..|inbox| - 1], mid, floor);
    }
  }

  lemma RequoteFalls(u: Venue, noise: int, mid: int, fall: nat)
    requires Around(u, mid) && 0 < mid && noise + fall >= 0
    ensures Around(Requoted(u, noise), mid - fall)
  {
    assert Half(u.bestBid + u.bestAsk) >= mid;
  }

  lemma {:induction false} FanSoft(
    start: World<Local>, v: VertexId, edges: seq<Edge>, along: Along, step: Superstep, body: Body, floor: int)
    requires forall e | e in edges && Takes(along, e) && VenueAt(start, e.dst) ::
               body.PriceUpdate? && body.ask > 0 ==> body.ask >= floor
    ensures AllSoft(start, Fan(v, edges, along, step, body), floor)
  {
    forall m | m in Fan(v, edges, along, step, body) ensures Soft(start, m, floor) {
      FanMember(v, edges, along, step, body, m);
    }
  }

  lemma {:induction false} ForwardedSoft(
    start: World<Local>, v: VertexId, edges: seq<Edge>, inbox: seq<Message>, step: Superstep, floor: int)
    requires forall e | e in edges && VenueAt(start, e.dst) :: e.kind == 2
    ensures AllSoft(start, Forwarded(v, edges, inbox, step), floor)
  {
    if inbox != [] {
      ForwardedSoft(start, v, edges, inbox[..|inbox| - 1], step, floor);
      var m := inbox[|inbox| - 1];
      if m.body.PriceUpdate? {
        FanSoft(start, v, edges, OfKind(1), step, m.body, floor);
      }
    }
  }

  /** What one vertex does, given soft mail. */
  ghost predicate Stays(start: World<Local>, before: Local, r: VertexState<Local>, mid: int, floor: int) {
    && SameShape(before, r.local) && AllSoft(start, r.outbox, floor)
    && (r.local.AVenue? ==> Around(r.local.venue, mid))
  }

  lemma {:induction false} ComputeStays(
    start: World<Local>, noise: (VertexId, Superstep) -> int, v: VertexId, s: VertexState<Local>,
    inbox: seq<Message>, step: Superstep, mid: int, fall: nat, floor: int)
    requires AsksAbove(start, floor) && v in start.vertices && SameShape(start.vertices[v].local, s.local)
    requires s.outbox == [] && 0 < mid && mid + 2 * TICK_SIZE <= floor && noise(v, step) + fall >= 0
    requires s.local.AVenue? ==> Around(s.local.venue, mid) && forall m | m in inbox :: AskAbove(m, floor)
    ensures Stays(start, s.local, Compute(noise, v, s, inbox, step), mid - fall, floor)
  {
    hide Fan, Forwarded, ReadMail, TradeId, Listen, Fold, Requoted, Around, Soft, CrossedBps;
    match s.local {
      case AnOrder(edges, o) => FanSoft(start, v, edges, Every, step, FillOf(v, ReadMail(o, inbox), step), floor);
      case ALevel(edges, l) =>
        LevelQuoteSoft(start, v, l, Stocked(l, inbox).total, floor);
        ForwardedSoft(start, v, edges, inbox, step, floor);
        FanSoft(start, v, edges, OfKind(2), step, Quote(l, Stocked(l, inbox).total), floor);
      case AVenue(edges, u) =>
        ListenKeepsAround(u, inbox, mid, floor);
        RequoteFalls(Fold(Listen, u, inbox), noise(v, step), mid, fall);
        var r := Requoted(Fold(Listen, u, inbox), noise(v, step));
        FanSoft(start, v, edges, Every, step, PriceUpdate(r.bestBid, r.bestAsk, r.bidSize, r.askSize), floor);
      case AMaker(edges, k) =>
        FanSoft(start, v, edges, Every, step, ArbitrageSignal(CrossedBps(Fold(OrderBook.Book, k, inbox)), 0, 1), floor);
    }
  }

  lemma LevelQuoteSoft(start: World<Local>, v: VertexId, l: Level, total: nat, floor: int)
    requires AsksAbove(start, floor) && v in start.vertices && start.vertices[v].local.ALevel?
    requires start.vertices[v].local.level.price == l.price && start.vertices[v].local.level.side == l.side
    ensures Quote(l, total).ask > 0 ==> Quote(l, total).ask >= floor
  {
  }

  // ----- a run

  ghost predicate Steady(start: World<Local>, w: World<Local>, mid: int, floor: int) {
    && w.vertices.Keys == start.vertices.Keys && OutboxesEmpty(w) && NoBacklog(w) && AllSoft(start, w.mail, floor)
    && (forall v | v in w.vertices :: SameShape(start.vertices[v].local, w.vertices[v].local))
    && forall v | VenueAt(w, v) :: Around(w.vertices[v].local.venue, mid)
  }

  lemma {:induction false} SteadyVertex(
    start: World<Local>, noise: (VertexId, Superstep) -> int, w: World<Local>, v: VertexId, step: Superstep,
    mid: int, fall: nat, floor: int)
    requires AsksAbove(start, floor) && Steady(start, w, mid, floor) && v in w.vertices
    requires 0 < mid && mid + 2 * TICK_SIZE <= floor && noise(v, step) + fall >= 0
    ensures Stays(start, w.vertices[v].local, After(BookProgram(noise), w, v, step), mid - fall, floor)
  {
    hide Compute, AsksAbove, AskAbove;
    var s := w.vertices[v];
    assert s.local.AVenue? ==> VenueAt(w, v) && VenueAt(start, v);
    if Computes(w, v) {
      var inbox := Inbox(w, v);
      assert inbox == Keep(w.mail, AddressedTo(v));
      forall m | m in inbox ensures m.dst == v && Soft(start, m, floor) {
        KeepMember(w.mail, AddressedTo(v), m);
      }
      ComputeStays(start, noise, v, s.(halted := false), inbox, step, mid, fall, floor);
    }
  }

  lemma {:induction false} SteadyStep(
    start: World<Local>, noise: (VertexId, Superstep) -> int, order: seq<VertexId>, w: World<Local>,
    step: Superstep, mid: int, fall: nat, floor: int)
    requires AsksAbove(start, floor) && Steady(start, w, mid, floor)
    requires 0 < mid && mid + 2 * TICK_SIZE <= floor && forall v, t :: noise(v, t) + fall >= 0
    ensures Steady(start, Step(BookProgram(noise), order, w, step), mid - fall, floor)
  {
    hide BookProgram, After, Sent, AsksAbove, Soft, Around, SameShape, Unclaimed;
    var prog := BookProgram(noise);
    var r := Step(prog, order, w, step);
    forall v | v in w.vertices
      ensures Stays(start, w.vertices[v].local, After(prog, w, v, step), mid - fall, floor)
      ensures r.vertices[v].local == After(prog, w, v, step).local
      ensures SameShape(start.vertices[v].local, r.vertices[v].local)
    {
      SteadyVertex(start, noise, w, v, step, mid, fall, floor);
      StillSameShape(start.vertices[v].local, w.vertices[v].local, r.vertices[v].local);
    }
    forall m | m in r.mail ensures Soft(start, m, floor) {
      SentFrom(prog, order, |order|, w, step, m);
    }
    NoBacklogAfter(prog, order, w, step);
  }

  lemma StillSameShape(a: Local, b: Local, c: Local)
    requires SameShape(a, b) && SameShape(b, c)
    ensures SameShape(a, c)
  {
  }

  lemma NoBacklogAfter(prog: Program<Local>, order: seq<VertexId>, w: World<Local>, step: Superstep)
    ensures NoBacklog(Step(prog, order, w, step))
  {
  }

  /** With noise never below -fall, venues' middle prices fall by at most that much a superstep. */
  lemma {:induction false} SteadyRun(
    start: World<Local>, noise: (VertexId, Superstep) -> int, order: seq<VertexId>, n: nat,
    mid: int, fall: nat, floor: int)
    requires AsksAbove(start, floor) && Steady(start, start, mid, floor) && mid + 2 * TICK_SIZE <= floor
    requires n * fall < mid && forall v, t :: noise(v, t) + fall >= 0
    ensures Steady(start, Iterate(BookProgram(noise), order, start, 0, n), mid - n * fall, floor)
  {
    hide Step, BookProgram, AsksAbove, Steady;
    if n > 0 {
      assert n * fall == (n - 1) * fall + fall;
      SteadyRun(start, noise, order, n - 1, mid, fall, floor);
      var w := Iterate(BookProgram(noise), order, start, 0, n - 1);
      SteadyStep(start, noise, order, w, n - 1, mid - (n - 1) * fall, fall, floor);
    }
  }

  // ----- built books

  /** No price noise of the builder is below -spread. */
  ghost predicate NoiseAbove(p: Params, spread: nat) {
    forall id: VertexId, i: nat :: p.draws.noise(id, i) + spread >= 0
  }

  /** In a built book, asks are quoted above the base price less the noise. */
  lemma {:induction false} BuiltAsksAbove(p: Params, w: World<Local>, spread: nat)
    requires p.workers > 0 && Loaded(p, w) && NoiseAbove(p, spread)
    ensures AsksAbove(w, BASE_PRICE + TICK_SIZE - spread)
  {
    SomeLevels(p);
    hide Loaded, Graph;
    forall v | v in w.vertices && w.vertices[v].local.ALevel? && w.vertices[v].local.level.side.Ask?
      ensures w.vertices[v].local.level.price >= BASE_PRICE + TICK_SIZE - spread
    {
      var at := LoadedAt(p, w, v);
      assert p.draws.noise(v, 0) + spread >= 0;
    }
    forall v, e | v in w.vertices && e in w.vertices[v].local.edges && VenueAt(w, e.dst)
      ensures w.vertices[v].local.ALevel? ==> e.kind == 2
      ensures !w.vertices[v].local.AVenue?
    {
      var at := LoadedAt(p, w, v);
      var y := LinksBothWays(p, at, e);
      SpotLoaded(p, w, y);
    }
  }

  /** A venue of a built book quotes as the builder drew. */
  lemma {:induction false} BuiltVenue(p: Params, w: World<Local>, v: VertexId)
    requires p.workers > 0 && Loaded(p, w) && v < p.venues
    ensures VenueAt(w, v) && !w.vertices[v].halted
    ensures w.vertices[v].local.venue == VenueState(p, v).venue
  {
    SomeLevels(p);
    hide Loaded, Graph;
    SpotLoaded(p, w, AtVenue(v));
  }

  lemma {:induction false} BuiltVenueAround(p: Params, w: World<Local>, v: VertexId, spread: nat)
    requires p.workers > 0 && Loaded(p, w) && NoiseAbove(p, spread) && VenueAt(w, v)
    ensures Around(w.vertices[v].local.venue, BASE_PRICE - TICK_SIZE - spread)
  {
    VenueIndex(p, w, v);
    BuiltVenue(p, w, v);
    assert p.draws.noise(v, 0) + spread >= 0 && p.draws.noise(v, 1) + spread >= 0;
    hide Loaded, NoiseAbove;
  }

  lemma VenueIndex(p: Params, w: World<Local>, v: VertexId)
    requires p.workers > 0 && Loaded(p, w) && VenueAt(w, v)
    ensures v < p.venues
  {
    SomeLevels(p);
    hide Loaded, Graph, LevelId;
    var at := LoadedAt(p, w, v);
  }

  lemma SteadyAtStart(w: World<Local>, mid: int, floor: int)
    requires OutboxesEmpty(w) && NoBacklog(w) && w.mail == []
    requires forall v | VenueAt(w, v) :: Around(w.vertices[v].local.venue, mid)
    ensures Steady(w, w, mid, floor)
  {
  }

  lemma {:induction false} BuiltBookIsSteady(p: Params, w: World<Local>, spread: nat)
    requires p.workers > 0 && Loaded(p, w) && NoiseAbove(p, spread)
    ensures Steady(w, w, BASE_PRICE - TICK_SIZE - spread, BASE_PRICE + TICK_SIZE - spread)
  {
    hide Loaded, Graph, Around, NoiseAbove, Steady, OutboxesEmpty, NoBacklog, WithinLimits, StartsCalm, LevelId;
    BuiltBookIsFresh(p, w);
    forall v | VenueAt(w, v) ensures Around(w.vertices[v].local.venue, BASE_PRICE - TICK_SIZE - spread) {
      BuiltVenueAround(p, w, v, spread);
    }
    SteadyAtStart(w, BASE_PRICE - TICK_SIZE - spread, BASE_PRICE + TICK_SIZE - spread);
  }

  lemma SteadyBidsPositive(start: World<Local>, w: World<Local>, mid: int, floor: int)
    requires Steady(start, w, mid, floor) && mid > 2 * TICK_SIZE
    ensures BidsPositive(w)
  {
    forall v | VenueAt(w, v) ensures w.vertices[v].local.venue.bestBid > 0 {
      assert Around(w.vertices[v].local.venue, mid);
    }
  }

  lemma Scale(k: nat, n: nat, fall: nat)
    requires k <= n
    ensures k * fall <= n * fall
  {
    assert n * fall == k * fall + (n - k) * fall;
  }

  /** A bound on the noise and the number of supersteps within which every venue's bid stays positive. */
  lemma {:induction false} BuiltBidsPositive(
    p: Params, w: World<Local>, noise: (VertexId, Superstep) -> int, order: seq<VertexId>, k: nat, n: nat,
    spread: nat, fall: nat)
    requires p.workers > 0 && Loaded(p, w) && NoiseAbove(p, spread) && forall v, t :: noise(v, t) + fall >= 0
    requires k <= n && spread + n * fall + 3 * TICK_SIZE < BASE_PRICE
    ensures BidsPositive(Iterate(BookProgram(noise), order, w, 0, k))
  {
    hide Loaded, Graph, AsksAbove, Steady, BidsPositive, BookProgram;
    var mid, floor := BASE_PRICE - TICK_SIZE - spread, BASE_PRICE + TICK_SIZE - spread;
    Scale(k, n, fall);
    BuiltAsksAbove(p, w, spread);
    BuiltBookIsSteady(p, w, spread);
    SteadyRun(w, noise, order, k, mid, fall, floor);
    SteadyBidsPositive(w, Iterate(BookProgram(noise), order, w, 0, k), mid - k * fall, floor);
  }

  /** Within that bound no market maker of a built book ever signals, whatever the market looks like. */
  lemma {:induction false} QuietWithinBound(
    p: Params, w: World<Local>, noise: (VertexId, Superstep) -> int, order: seq<VertexId>, n: nat,
    spread: nat, fall: nat)
    requires p.workers > 0 && Loaded(p, w) && NoiseAbove(p, spread) && forall v, t :: noise(v, t) + fall >= 0
    requires spread + n * fall + 3 * TICK_SIZE < BASE_PRICE
    ensures Calm(w, Iterate(BookProgram(noise), order, w, 0, n))
  {
    hide Loaded, NoiseAbove, BidsPositive, Calm, BookProgram, Iterate;
    forall k | 0 < k <= n ensures BidsPositive(Iterate(BookProgram(noise), order, w, 0, k)) {
      BuiltBidsPositive(p, w, noise, order, k, n, spread, fall);
    }
    BuiltBookHasNoArbitrage(p, w, noise, order, n);
  }

  // ----- a crossed market nobody sees

  /** Two venues and a market maker; the first venue is built a thousand above the second. */
  function Apart(): Params {
    Params(2, 0, 0, 1, 1, Draws((k, i) => 0, (id, i) => if id == 0 then 1000 else 0, (id, i) => 100))
  }

  /**
   After one superstep the first venue bids more than the second asks, the opportunity market makers are
   there for; yet in no superstep of any length of run does the maker signal.
   */
  lemma {:induction false} CrossedAndSilent(
    w: World<Local>, noise: (VertexId, Superstep) -> int, order: seq<VertexId>, n: nat)
    requires Loaded(Apart(), w) && forall v, t :: noise(v, t) == 0
    ensures var r := Iterate(BookProgram(noise), order, w, 0, 1);
      VenueAt(r, 0) && VenueAt(r, 1) && r.vertices[0].local.venue.bestBid > r.vertices[1].local.venue.bestAsk
    ensures MakerAt(w, 2) && Calm(w, Iterate(BookProgram(noise), order, w, 0, n))
  {
    hide Loaded, Calm, BookProgram, NoiseAbove;
    BuiltVenue(Apart(), w, 0);
    BuiltVenue(Apart(), w, 1);
    FirstQuote(Apart(), w, noise, order, 0);
    FirstQuote(Apart(), w, noise, order, 1);
    ApartHasMaker(w);
    ApartNoise();
    QuietWithinBound(Apart(), w, noise, order, n, 0, 0);
  }

  lemma ApartNoise()
    ensures NoiseAbove(Apart(), 0)
  {
  }

  lemma ApartHasMaker(w: World<Local>)
    requires Loaded(Apart(), w)
    ensures MakerAt(w, 2)
  {
    assert Blocks(Apart()) == 0 && MakerId(Apart(), 0) == 2;
    hide Loaded;
    SpotLoaded(Apart(), w, AtMaker(0));
  }

  lemma FirstQuote(p: Params, w: World<Local>, noise: (VertexId, Superstep) -> int, order: seq<VertexId>, v: VertexId)
    requires p.workers > 0 && Loaded(p, w) && VenueAt(w, v) && noise(v, 0) == 0 && !w.vertices[v].halted
    requires w.vertices[v].local.venue.bestBid + w.vertices[v].local.venue.bestAsk >= 2
    ensures var r := Iterate(BookProgram(noise), order, w, 0, 1);
      var u := w.vertices[v].local.venue;
      VenueAt(r, v) && r.vertices[v].local.venue.bestBid == Half(u.bestBid + u.bestAsk) - 2 * TICK_SIZE
      && r.vertices[v].local.venue.bestAsk == Half(u.bestBid + u.bestAsk) + 2 * TICK_SIZE
  {
    LoadedMail(p, w);
    hide Loaded, Sent, Unclaimed;
    assert Iterate(BookProgram(noise), order, w, 0, 0) == w;
    assert Inbox(w, v) == [];
  }
}
