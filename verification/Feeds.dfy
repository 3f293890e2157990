/** How prices travel in a built book: from a venue to its price levels and from them to their orders. */
module Feeds {
  import opened Messages
  import opened Bsp
  import opened OrderBook
  import opened BookLaws
  import opened BookRuns
  import opened Quotes
  import opened GraphBuilder
  import opened GraphShape
  import opened Sends
  import opened Decisions

  /** What a venue quotes. */
  function Offer(u: Venue): Body {
    PriceUpdate(u.bestBid, u.bestAsk, u.bidSize, u.askSize)
  }

  // ----- who says what

  predicate HasEdge(edges: seq<Edge>, e: Edge) {
    e in edges
  }

  ghost predicate LeadsTo(edges: seq<Edge>, u: VertexId) {
    exists e :: HasEdge(edges, e) && e.dst == u
  }

  ghost predicate Said(inbox: seq<Message>, body: Body) {
    exists m :: m in inbox && m.body == body
  }

  /** A price update is a venue's own quote, one a level has just read, or one it sends to where its quotes go. */
  ghost predicate FairUpdate(before: Local, after: Local, inbox: seq<Message>, m: Message) {
    && LeadsTo(before.edges, m.dst)
    && match before
       case AVenue(_, _) => after.AVenue? && m.body == Offer(after.venue)
       case ALevel(edges, _) => Said(inbox, m.body) || HasEdge(edges, Edge(m.dst, 2))
       case _ => false
  }

  lemma {:induction false} Speaks(
    noise: (VertexId, Superstep) -> int, v: VertexId, s: VertexState<Local>, inbox: seq<Message>, step: Superstep,
    m: Message)
    requires s.outbox == [] && m in Compute(noise, v, s, inbox, step).outbox && m.body.PriceUpdate?
    ensures FairUpdate(s.local, Compute(noise, v, s, inbox, step).local, inbox, m)
  {
    match s.local {
      case AnOrder(edges, o) => OrderSaysNoPrice(v, edges, VertexState(s.halted, [], o), inbox, step, m);
      case ALevel(edges, l) => LevelSays(v, edges, VertexState(s.halted, [], l), inbox, step, m);
      case AVenue(edges, u) => VenueSays(v, edges, VertexState(s.halted, [], u), inbox, step, noise(v, step), m);
      case AMaker(edges, k) => MakerSaysNoPrice(v, edges, VertexState(s.halted, [], k), inbox, step, m);
    }
    hide OrderStep, LevelStep, VenueStep, MakerStep, LeadsTo, Said;
  }

  lemma OrderSaysNoPrice(
    id: VertexId, edges: seq<Edge>, s: VertexState<Order>, inbox: seq<Message>, step: Superstep, m: Message)
    requires s.outbox == [] && m in OrderStep(id, edges, s, inbox, step).outbox
    ensures !m.body.PriceUpdate?
  {
    hide ReadMail, TradeId, Marketable;
    FanMember(id, edges, Every, step, FillOf(id, ReadMail(s.local, inbox), step), m);
  }

  lemma MakerSaysNoPrice(
    id: VertexId, edges: seq<Edge>, s: VertexState<Maker>, inbox: seq<Message>, step: Superstep, m: Message)
    requires s.outbox == [] && m in MakerStep(id, edges, s, inbox, step).outbox
    ensures !m.body.PriceUpdate?
  {
    hide Fold, CrossedBps, SeesArbitrage, OverLimit;
    FanMember(id, edges, Every, step, ArbitrageSignal(CrossedBps(Fold(OrderBook.Book, s.local, inbox)), 0, 1), m);
  }

  lemma VenueSays(
    id: VertexId, edges: seq<Edge>, s: VertexState<Venue>, inbox: seq<Message>, step: Superstep, noise: int,
    m: Message)
    requires s.outbox == [] && m in VenueStep(id, edges, s, inbox, step, noise).outbox
    ensures LeadsTo(edges, m.dst) && m.body == Offer(VenueStep(id, edges, s, inbox, step, noise).local)
  {
    VenueSends(id, edges, s, inbox, step, noise);
    var r := VenueStep(id, edges, s, inbox, step, noise);
    hide VenueStep;
    var i :| 0 <= i < |r.outbox| && r.outbox[i] == m;
    assert r.outbox[0 + i] == Message(id, edges[i].dst, step, Offer(r.local));
    assert HasEdge(edges, edges[i]);
  }

  lemma LevelSays(
    id: VertexId, edges: seq<Edge>, s: VertexState<Level>, inbox: seq<Message>, step: Superstep, m: Message)
    requires s.outbox == [] && m in LevelStep(id, edges, s, inbox, step).outbox
    ensures LeadsTo(edges, m.dst) && (Said(inbox, m.body) || HasEdge(edges, Edge(m.dst, 2)))
  {
    var down, up := LevelForwards(id, edges, s, inbox, step);
    hide LevelStep, Passed, Updates, OfThatKind, Towards;
    assert m in down || m in up;
    if m in down {
      var e :| e in edges && e.kind == 1 && e.dst == m.dst;
      assert HasEdge(edges, e);
    } else {
      var e :| e in edges && e.kind == 2 && e.dst == m.dst;
      assert e == Edge(m.dst, 2) && HasEdge(edges, e);
    }
  }

  /** A level passes on to an order what it has read. */
  lemma {:induction false} LevelTells(
    id: VertexId, edges: seq<Edge>, s: VertexState<Level>, inbox: seq<Message>, step: Superstep, body: Body,
    u: VertexId)
    requires s.outbox == [] && body.PriceUpdate? && Said(inbox, body) && HasEdge(edges, Edge(u, 1))
    ensures Message(id, u, step, body) in LevelStep(id, edges, s, inbox, step).outbox
  {
    var down, up := LevelForwards(id, edges, s, inbox, step);
    hide LevelStep, Passed, Updates, OfThatKind, Towards;
    var x := Message(id, u, step, body);
    assert Edge(u, 1) in edges;
    assert x in down;
  }

  lemma {:induction false} VenueTells(
    id: VertexId, edges: seq<Edge>, s: VertexState<Venue>, inbox: seq<Message>, step: Superstep, noise: int, e: Edge)
    requires s.outbox == [] && HasEdge(edges, e)
    ensures var r := VenueStep(id, edges, s, inbox, step, noise); Message(id, e.dst, step, Offer(r.local)) in r.outbox
  {
    VenueSends(id, edges, s, inbox, step, noise);
    var r := VenueStep(id, edges, s, inbox, step, noise);
    hide VenueStep;
    var i :| 0 <= i < |edges| && edges[i] == e;
    assert r.outbox[0 + i] == Message(id, edges[i].dst, step, Offer(r.local));
  }

  // ----- one superstep of a world

  lemma {:induction false} SentBySomeone(
    prog: Program<Local>, order: seq<VertexId>, n: nat, w: World<Local>, step: Superstep, v: VertexId, m: Message)
    requires n <= |order| && v in order[..n] && v in w.vertices && m in After(prog, w, v, step).outbox
    ensures m in Sent(prog, order, n, w, step)
  {
    hide After;
    if order[n - 1] != v {
      assert order[..n] == order[..n - 1] + [order[n - 1]];
      SentBySomeone(prog, order, n - 1, w, step, v, m);
    }
  }

  lemma MailSent(prog: Program<Local>, order: seq<VertexId>, w: World<Local>, step: Superstep, v: VertexId, m: Message)
    requires Lists(order, w) && v in w.vertices && m in After(prog, w, v, step).outbox
    ensures m in Step(prog, order, w, step).mail
  {
    hide After, Sent;
    assert order[..|order|] == order;
    SentBySomeone(prog, order, |order|, w, step, v, m);
  }

  lemma InboxMember(w: World<Local>, v: VertexId, m: Message)
    requires v !in w.unclaimed
    ensures m in Inbox(w, v) <==> m in w.mail && m.dst == v
  {
    KeepMember(w.mail, AddressedTo(v), m);
  }

  /** A price update in the mail of a superstep, and who sent it. */
  lemma {:induction false} UpdateSender(
    noise: (VertexId, Superstep) -> int, order: seq<VertexId>, w: World<Local>, step: Superstep, m: Message)
    returns (u: VertexId)
    requires OutboxesEmpty(w) && m in Step(BookProgram(noise), order, w, step).mail && m.body.PriceUpdate?
    ensures u in w.vertices
    ensures FairUpdate(
      w.vertices[u].local, Step(BookProgram(noise), order, w, step).vertices[u].local, Inbox(w, u), m)
  {
    var prog := BookProgram(noise);
    SentFrom(prog, order, |order|, w, step, m);
    u :| u in w.vertices && m in After(prog, w, u, step).outbox;
    SenderComputes(noise, w, step, u, m);
    hide Compute, FairUpdate, Sent, Unclaimed;
  }

  lemma SenderComputes(
    noise: (VertexId, Superstep) -> int, w: World<Local>, step: Superstep, u: VertexId, m: Message)
    requires OutboxesEmpty(w) && u in w.vertices && m in After(BookProgram(noise), w, u, step).outbox
    requires m.body.PriceUpdate?
    ensures FairUpdate(w.vertices[u].local, After(BookProgram(noise), w, u, step).local, Inbox(w, u), m)
  {
    hide Compute, FairUpdate;
    if Computes(w, u) {
      Speaks(noise, u, w.vertices[u].(halted := false), Inbox(w, u), step, m);
    }
  }

  // ----- a built book

  /** The places of an order: its level, its venue, and themselves in the world. */
  datatype Place = Place(j: nat, o: nat)

  ghost predicate InPlace(p: Params, at: Place) {
    p.workers > 0 && p.levels > 0 && at.j < Blocks(p) && at.o < p.orders
  }

  function LevelAt(p: Params, at: Place): VertexId {
    LevelId(p, at.j)
  }

  function OrderAt(p: Params, at: Place): VertexId {
    OrderId(p, at.j, at.o)
  }

  function VenueAt(p: Params, at: Place): VertexId
    requires p.levels > 0
  {
    VenueOf(p, at.j)
  }

  /** The three are connected and of their kinds, and stay so. */
  ghost predicate Connected(p: Params, w: World<Local>, at: Place)
    requires p.levels > 0
  {
    var d, l, v := OrderAt(p, at), LevelAt(p, at), VenueAt(p, at);
    && d in w.vertices && l in w.vertices && v in w.vertices
    && w.vertices[d].local.AnOrder? && w.vertices[l].local.ALevel? && w.vertices[v].local.AVenue?
    && HasEdge(w.vertices[v].local.edges, Edge(l, 0)) && HasEdge(w.vertices[l].local.edges, Edge(d, 1))
    && !HasEdge(w.vertices[l].local.edges, Edge(d, 2))
  }

  /** Only its venue and orders lead to a level, and makers; only its level leads to an order. */
  ghost predicate Fed(p: Params, w: World<Local>, at: Place)
    requires p.levels > 0
  {
    && (forall u | u in w.vertices && w.vertices[u].local.AVenue? ::
          LeadsTo(w.vertices[u].local.edges, LevelAt(p, at)) ==> u == VenueAt(p, at))
    && (forall u | u in w.vertices && w.vertices[u].local.ALevel? ::
          !LeadsTo(w.vertices[u].local.edges, LevelAt(p, at)))
    && (forall u | u in w.vertices && w.vertices[u].local.AVenue? ::
          !LeadsTo(w.vertices[u].local.edges, OrderAt(p, at)))
    && (forall u | u in w.vertices && w.vertices[u].local.ALevel? ::
          LeadsTo(w.vertices[u].local.edges, OrderAt(p, at)) ==> u == LevelAt(p, at))
  }

  /** Which vertex an edge of a vertex leads to, in the world as loaded. */
  lemma {:induction false} EdgeLeads(p: Params, w: World<Local>, u: VertexId, e: Edge) returns (x: Spot, y: Spot)
    requires p.workers > 0 && (Blocks(p) > 0 ==> p.levels > 0) && Loaded(p, w)
    requires u in w.vertices && e in w.vertices[u].local.edges
    ensures Valid(p, x) && Valid(p, y) && Leads(p, x, e, y) && u == NodeAt(p, x).id && e.dst == NodeAt(p, y).id
    ensures w.vertices[u].local == LocalOf(NodeAt(p, x))
    ensures e.dst in w.vertices && w.vertices[e.dst].local == LocalOf(NodeAt(p, y))
  {
    x := LoadedAt(p, w, u);
    hide Loaded, Leads;
    y := LinksBothWays(p, x, e);
    SpotLoaded(p, w, y);
  }

  lemma OrderLoaded(p: Params, w: World<Local>, at: Place)
    requires InPlace(p, at) && Loaded(p, w)
    ensures var d := OrderAt(p, at); d in w.vertices && w.vertices[d].local.AnOrder?
  {
    SomeLevels(p);
    SpotLoaded(p, w, AtOrder(at.j, at.o));
    hide Loaded, Blocks, OrderState, PriceAt;
  }

  lemma LevelLoaded(p: Params, w: World<Local>, at: Place)
    requires InPlace(p, at) && Loaded(p, w)
    ensures var l := LevelAt(p, at);
      && l in w.vertices && w.vertices[l].local.ALevel?
      && HasEdge(w.vertices[l].local.edges, Edge(OrderAt(p, at), 1))
  {
    SomeLevels(p);
    SpotLoaded(p, w, AtLevel(at.j));
    InOrderEdges(p, at.j, p.orders, Edge(OrderAt(p, at), 1));
    hide Loaded, Blocks, LevelState, LevelId, VenueOf;
  }

  lemma VenueLoaded(p: Params, w: World<Local>, at: Place)
    requires InPlace(p, at) && Loaded(p, w)
    ensures var v := VenueAt(p, at);
      && v in w.vertices && w.vertices[v].local.AVenue? && !w.vertices[v].halted
      && HasEdge(w.vertices[v].local.edges, Edge(LevelAt(p, at), 0))
  {
    SomeLevels(p);
    VenueOfBound(p, at.j, p.venues);
    SpotLoaded(p, w, AtVenue(VenueOf(p, at.j)));
    InLevelEdges(p, VenueOf(p, at.j), Blocks(p), Edge(LevelAt(p, at), 0));
    hide Loaded, Blocks, VenueState, LevelId, VenueOf, LevelEdges, MakerEdges;
  }

  lemma {:induction false} BuiltConnected(p: Params, w: World<Local>, at: Place)
    requires InPlace(p, at) && Loaded(p, w)
    ensures Connected(p, w, at)
  {
    OrderLoaded(p, w, at);
    LevelLoaded(p, w, at);
    VenueLoaded(p, w, at);
    SomeLevels(p);
    hide Loaded, LevelId, VenueOf, Blocks;
    if HasEdge(w.vertices[LevelAt(p, at)].local.edges, Edge(OrderAt(p, at), 2)) {
      var x, y := EdgeLeads(p, w, LevelAt(p, at), Edge(OrderAt(p, at), 2));
    }
  }

  lemma {:induction false} BuiltFed(p: Params, w: World<Local>, at: Place)
    requires InPlace(p, at) && Loaded(p, w)
    ensures Fed(p, w, at)
  {
    BuiltConnected(p, w, at);
    SomeLevels(p);
    hide Loaded, VenueOf, Blocks, HasEdge;
    forall u, e | u in w.vertices && HasEdge(w.vertices[u].local.edges, e) && e.dst == LevelAt(p, at)
      ensures w.vertices[u].local.AVenue? ==> u == VenueAt(p, at)
      ensures !w.vertices[u].local.ALevel?
    {
      ToLevel(p, w, at, u, e);
    }
    forall u, e | u in w.vertices && HasEdge(w.vertices[u].local.edges, e) && e.dst == OrderAt(p, at)
      ensures !w.vertices[u].local.AVenue?
      ensures w.vertices[u].local.ALevel? ==> u == LevelAt(p, at)
    {
      ToOrder(p, w, at, u, e);
    }
  }

  lemma ToLevel(p: Params, w: World<Local>, at: Place, u: VertexId, e: Edge)
    requires InPlace(p, at) && Loaded(p, w) && Connected(p, w, at)
    requires u in w.vertices && HasEdge(w.vertices[u].local.edges, e) && e.dst == LevelAt(p, at)
    ensures w.vertices[u].local.AVenue? ==> u == VenueAt(p, at)
    ensures !w.vertices[u].local.ALevel?
  {
    hide Loaded, VenueOf, Blocks, PriceAt, LevelEdges, MakerEdges, OrderEdges, VenueEdges, SampledEdges, Fed;
    SomeLevels(p);
    var x, y := EdgeLeads(p, w, u, e);
    assert y.AtLevel?;
    BlocksApart(p, y.j, 0, at.j, 0);
  }

  lemma ToOrder(p: Params, w: World<Local>, at: Place, u: VertexId, e: Edge)
    requires InPlace(p, at) && Loaded(p, w) && Connected(p, w, at)
    requires u in w.vertices && HasEdge(w.vertices[u].local.edges, e) && e.dst == OrderAt(p, at)
    ensures !w.vertices[u].local.AVenue?
    ensures w.vertices[u].local.ALevel? ==> u == LevelAt(p, at)
  {
    hide Loaded, VenueOf, Blocks, PriceAt, LevelEdges, MakerEdges, OrderEdges, VenueEdges, SampledEdges, Fed;
    SomeLevels(p);
    var x, y := EdgeLeads(p, w, u, e);
    assert y.AtOrder?;
    BlocksApart(p, y.j, 1 + y.o, at.j, 1 + at.o);
  }

  lemma StaysConnected(p: Params, start: World<Local>, w: World<Local>, at: Place)
    requires p.levels > 0 && Trading(start, w) && Connected(p, start, at)
    ensures Connected(p, w, at)
  {
    var d, l, v := OrderAt(p, at), LevelAt(p, at), VenueAt(p, at);
    assert Untraded(start.vertices[d].local, w.vertices[d].local);
    assert Untraded(start.vertices[l].local, w.vertices[l].local);
    assert Untraded(start.vertices[v].local, w.vertices[v].local);
    hide Trading, OrderAt, LevelAt, VenueAt, HasEdge;
  }

  lemma StaysFed(p: Params, start: World<Local>, w: World<Local>, at: Place)
    requires p.levels > 0 && Trading(start, w) && Fed(p, start, at)
    ensures Fed(p, w, at)
  {
    hide OrderAt, LevelAt, VenueAt, LeadsTo;
    forall u | u in w.vertices ensures Untraded(start.vertices[u].local, w.vertices[u].local) {
    }
  }

  // ----- a run of a built book

  /** Every price update in the mail for u says this, and there is one. */
  ghost predicate Told(w: World<Local>, u: VertexId, body: Body) {
    && (forall m | m in w.mail && m.dst == u && m.body.PriceUpdate? :: m.body == body)
    && exists m :: m in w.mail && m.dst == u && m.body == body
  }

  /** What holds of the places of an order between the supersteps of a built book's run. */
  ghost predicate Running(p: Params, start: World<Local>, w: World<Local>, at: Place)
    requires p.levels > 0
  {
    Trading(start, w) && Connected(p, w, at) && Fed(p, w, at) && OpenVenue(w, VenueAt(p, at))
  }

  lemma {:induction false} BuiltRunning(
    p: Params, w: World<Local>, noise: (VertexId, Superstep) -> int, order: seq<VertexId>, n: nat, at: Place)
    requires InPlace(p, at) && Loaded(p, w)
    ensures Running(p, w, Iterate(BookProgram(noise), order, w, 0, n), at)
  {
    BuiltConnected(p, w, at);
    BuiltFed(p, w, at);
    VenueLoaded(p, w, at);
    BuiltBookNeverTrades(p, w, noise, order, n);
    var r := Iterate(BookProgram(noise), order, w, 0, n);
    assert OpenVenue(w, VenueAt(p, at));
    hide *;
    VenueStaysAwake(noise, order, w, VenueAt(p, at), 0, n);
    StaysConnected(p, w, r, at);
    StaysFed(p, w, r, at);
    RunningIs(p, w, r, at);
  }

  lemma RunningIs(p: Params, start: World<Local>, w: World<Local>, at: Place)
    requires p.levels > 0
    requires Trading(start, w) && Connected(p, w, at) && Fed(p, w, at) && OpenVenue(w, VenueAt(p, at))
    ensures Running(p, start, w, at)
  {
    hide Trading, Connected, Fed, OpenVenue;
  }

  lemma FeedsLevel(p: Params, w: World<Local>, at: Place, u: VertexId)
    requires p.levels > 0 && Fed(p, w, at) && u in w.vertices && LeadsTo(w.vertices[u].local.edges, LevelAt(p, at))
    ensures !w.vertices[u].local.ALevel? && (w.vertices[u].local.AVenue? ==> u == VenueAt(p, at))
  {
  }

  lemma FeedsOrder(p: Params, w: World<Local>, at: Place, u: VertexId)
    requires p.levels > 0 && Fed(p, w, at) && u in w.vertices && LeadsTo(w.vertices[u].local.edges, OrderAt(p, at))
    ensures !w.vertices[u].local.AVenue? && (w.vertices[u].local.ALevel? ==> u == LevelAt(p, at))
  {
  }

  /** After a superstep the level's mail has the quote its venue has just made, and no other. */
  lemma {:induction false} VenueTellsLevel(
    p: Params, start: World<Local>, noise: (VertexId, Superstep) -> int, order: seq<VertexId>, w: World<Local>,
    step: Superstep, at: Place)
    requires p.levels > 0 && Running(p, start, w, at) && Lists(order, w)
    ensures var r := Step(BookProgram(noise), order, w, step);
      var v := VenueAt(p, at);
      && v in r.vertices && r.vertices[v].local.AVenue?
      && Told(r, LevelAt(p, at), Offer(r.vertices[v].local.venue))
  {
    var prog, l, v := BookProgram(noise), LevelAt(p, at), VenueAt(p, at);
    var r := Step(prog, order, w, step);
    VenueQuotesOn(noise, order, w, step, v, Edge(l, 0));
    hide Step, Compute, Trading, LevelAt, VenueAt, OrderAt, LeadsTo, HasEdge, Lists;
    forall m | m in r.mail && m.dst == l && m.body.PriceUpdate? ensures m.body == Offer(r.vertices[v].local.venue) {
      EmptyOutboxes(start, w);
      var u := UpdateSender(noise, order, w, step, m);
      FeedsLevel(p, w, at, u);
    }
  }

  lemma EmptyOutboxes(start: World<Local>, w: World<Local>)
    requires Trading(start, w)
    ensures OutboxesEmpty(w) && NoBacklog(w)
  {
  }

  lemma {:induction false} VenueQuotesOn(
    noise: (VertexId, Superstep) -> int, order: seq<VertexId>, w: World<Local>, step: Superstep, v: VertexId, e: Edge)
    requires Lists(order, w) && OpenVenue(w, v) && w.vertices[v].outbox == [] && HasEdge(w.vertices[v].local.edges, e)
    ensures var r := Step(BookProgram(noise), order, w, step);
      && v in r.vertices && r.vertices[v].local.AVenue?
      && exists m :: m in r.mail && m.dst == e.dst && m.body == Offer(r.vertices[v].local.venue)
  {
    var prog, s := BookProgram(noise), w.vertices[v];
    var edges, u := s.local.edges, s.local.venue;
    VenueTells(v, edges, VertexState(false, [], u), Inbox(w, v), step, noise(v, step), e);
    var r := VenueStep(v, edges, VertexState(false, [], u), Inbox(w, v), step, noise(v, step));
    assert After(prog, w, v, step) == VertexState(r.halted, r.outbox, AVenue(edges, r.local));
    MailSent(prog, order, w, step, v, Message(v, e.dst, step, Offer(r.local)));
    hide VenueStep, Inbox, Sent, Unclaimed;
  }

  /** After the next superstep the order's mail has that quote, and no other. */
  lemma {:induction false} LevelTellsOrder(
    p: Params, start: World<Local>, noise: (VertexId, Superstep) -> int, order: seq<VertexId>, w: World<Local>,
    step: Superstep, at: Place, body: Body)
    requires p.levels > 0 && Running(p, start, w, at) && Lists(order, w)
    requires Told(w, LevelAt(p, at), body) && body.PriceUpdate?
    ensures Told(Step(BookProgram(noise), order, w, step), OrderAt(p, at), body)
  {
    var prog, l, d := BookProgram(noise), LevelAt(p, at), OrderAt(p, at);
    var r := Step(prog, order, w, step);
    EmptyOutboxes(start, w);
    LevelPassesOn(noise, order, w, step, l, d, body);
    hide Step, Compute, Trading, LevelAt, VenueAt, OrderAt, LeadsTo, Said, Lists;
    forall m | m in r.mail && m.dst == d && m.body.PriceUpdate? ensures m.body == body {
      var u := UpdateSender(noise, order, w, step, m);
      FeedsOrder(p, w, at, u);
      SaidToLevel(w, l, m.body, body);
    }
  }

  lemma SaidToLevel(w: World<Local>, l: VertexId, said: Body, body: Body)
    requires l !in w.unclaimed && Told(w, l, body) && Said(Inbox(w, l), said) && said.PriceUpdate?
    ensures said == body
  {
    hide Inbox;
    var m :| m in Inbox(w, l) && m.body == said;
    InboxMember(w, l, m);
  }

  lemma {:induction false} LevelPassesOn(
    noise: (VertexId, Superstep) -> int, order: seq<VertexId>, w: World<Local>, step: Superstep, l: VertexId,
    d: VertexId, body: Body)
    requires Lists(order, w) && l in w.vertices && w.vertices[l].local.ALevel? && w.vertices[l].outbox == []
    requires HasEdge(w.vertices[l].local.edges, Edge(d, 1)) && l !in w.unclaimed
    requires Told(w, l, body) && body.PriceUpdate?
    ensures exists m :: m in Step(BookProgram(noise), order, w, step).mail && m.dst == d && m.body == body
  {
    var prog, s := BookProgram(noise), w.vertices[l];
    var edges, k := s.local.edges, s.local.level;
    var heard :| heard in w.mail && heard.dst == l && heard.body == body;
    InboxMember(w, l, heard);
    assert Said(Inbox(w, l), body);
    LevelTells(l, edges, VertexState(false, [], k), Inbox(w, l), step, body, d);
    var r := LevelStep(l, edges, VertexState(false, [], k), Inbox(w, l), step);
    assert After(prog, w, l, step) == VertexState(r.halted, r.outbox, ALevel(edges, r.local));
    MailSent(prog, order, w, step, l, Message(l, d, step, body));
    hide LevelStep, Inbox, Sent, Unclaimed;
  }

  /** What a venue quotes to one side. */
  function PriceFor(side: Side, u: Venue): int {
    match side
    case Bid => u.bestBid
    case Ask => u.bestAsk
  }

  lemma {:induction false} AllSayOne(side: Side, known: int, inbox: seq<Message>, u: Venue)
    requires forall m | m in inbox && m.body.PriceUpdate? :: m.body == Offer(u)
    requires exists m :: m in inbox && m.body.PriceUpdate?
    ensures LastPrice(side, known, inbox) == PriceFor(side, u)
  {
    var front, m := inbox[..|inbox| - 1], inbox[|inbox| - 1];
    assert inbox == front + [m] && m in inbox;
    if !m.body.PriceUpdate? {
      AllSayOne(side, known, front, u);
    }
  }

  /** An order as a built book keeps it: active, with nothing filled. */
  predicate Waiting(x: Local) {
    x.AnOrder? && x.order.active && x.order.filled == 0
  }

  /** Then it goes by that quote, and trades exactly if that is within its limit. */
  lemma {:induction false} OrderGoesByQuote(
    noise: (VertexId, Superstep) -> int, w: World<Local>, step: Superstep, d: VertexId, u: Venue)
    requires d in w.vertices && Waiting(w.vertices[d].local) && w.vertices[d].outbox == [] && d !in w.unclaimed
    requires Told(w, d, Offer(u)) && forall m | m in w.mail && m.dst == d :: Quiet(m)
    ensures var r := After(BookProgram(noise), w, d, step);
      var edges, o := w.vertices[d].local.edges, w.vertices[d].local.order;
      && r.local.AnOrder? && r.local.order.best == PriceFor(o.side, u)
      && r.outbox
         == if WouldTrade(o.side, o.limitPrice, PriceFor(o.side, u))
            then Copies(d, edges, step, OrderFill(o.limitPrice, o.quantity % WORD, TradeId(d, step))) else []
  {
    hide OrderStep, Inbox, LastPrice, TradeId, Quantity, Ends, WouldTrade, Compute;
    var inbox := Inbox(w, d);
    var edges, o := w.vertices[d].local.edges, w.vertices[d].local.order;
    var heard :| heard in w.mail && heard.dst == d && heard.body == Offer(u);
    InboxMember(w, d, heard);
    forall m | m in inbox ensures m in w.mail && m.dst == d {
      InboxMember(w, d, m);
    }
    AllSayOne(o.side, o.best, inbox, u);
    NothingFilled(o, inbox);
    OrderCarriesOn(d, edges, VertexState(false, [], o), inbox, step);
    AfterOrder(noise, w, step, d);
  }

  lemma AfterOrder(noise: (VertexId, Superstep) -> int, w: World<Local>, step: Superstep, d: VertexId)
    requires d in w.vertices && w.vertices[d].local.AnOrder? && w.vertices[d].outbox == [] && Inbox(w, d) != []
    ensures var x := w.vertices[d].local;
      var r := OrderStep(d, x.edges, VertexState(false, [], x.order), Inbox(w, d), step);
      After(BookProgram(noise), w, d, step) == VertexState(r.halted, r.outbox, AnOrder(x.edges, r.local))
  {
    hide OrderStep, Inbox;
  }

  lemma {:induction false} NothingFilled(o: Order, inbox: seq<Message>)
    requires forall m | m in inbox :: Quiet(m)
    ensures Quantity(inbox) == 0 && forall k | 0 <= k < |inbox| :: !Ends(o, inbox, k)
  {
    forall k: nat | k < |inbox| ensures !Ends(o, inbox, k) {
      assert inbox[k] in inbox;
    }
    if inbox != [] {
      assert inbox[|inbox| - 1] in inbox;
      NothingFilled(o, inbox[..|inbox| - 1]);
    }
  }

  lemma OrderAsBuilt(p: Params, w: World<Local>, at: Place)
    requires InPlace(p, at) && Loaded(p, w)
    ensures var d := OrderAt(p, at);
      d in w.vertices && w.vertices[d].local.AnOrder? && w.vertices[d].local.order.active
      && w.vertices[d].local.order.filled == 0
  {
    SomeLevels(p);
    SpotLoaded(p, w, AtOrder(at.j, at.o));
    hide Loaded, Blocks, PriceAt;
  }

  lemma {:induction false} BuiltWaiting(p: Params, w: World<Local>, r: World<Local>, at: Place)
    requires InPlace(p, at) && Loaded(p, w) && Trading(w, r)
    ensures var d := OrderAt(p, at);
      && d in w.vertices && d in r.vertices && Waiting(r.vertices[d].local) && w.vertices[d].local.AnOrder?
      && r.vertices[d].local.edges == w.vertices[d].local.edges
      && r.vertices[d].local.order.(best := 0, idle := 0) == w.vertices[d].local.order.(best := 0, idle := 0)
      && forall m | m in r.mail && m.dst == d :: Quiet(m)
  {
    OrderAsBuilt(p, w, at);
    hide OrderAt, Loaded, BookRuns.IsLevel;
    var d := OrderAt(p, at);
    assert Untraded(w.vertices[d].local, r.vertices[d].local);
    forall m | m in r.mail && m.dst == d ensures Quiet(m) {
      PlainToOrder(w, r, m);
    }
  }

  lemma PlainToOrder(start: World<Local>, w: World<Local>, m: Message)
    requires Trading(start, w) && m in w.mail && m.dst in start.vertices && start.vertices[m.dst].local.AnOrder?
    ensures Quiet(m)
  {
    assert Plain(start, m);
  }

  /** The venue above an order, and the order itself, at some point of a run. */
  lemma {:induction false} QuotesArrive(
    p: Params, w: World<Local>, noise: (VertexId, Superstep) -> int, order: seq<VertexId>, n: nat, at: Place)
    requires InPlace(p, at) && Loaded(p, w) && Lists(order, w) && n >= 1
    ensures var now := Iterate(BookProgram(noise), order, w, 0, n);
      var soon := Iterate(BookProgram(noise), order, w, 0, n + 1);
      var v := VenueAt(p, at);
      && v in now.vertices && now.vertices[v].local.AVenue?
      && Told(soon, OrderAt(p, at), Offer(now.vertices[v].local.venue))
  {
    hide *;
    HasLevels(p, at);
    var prog := BookProgram(noise);
    var before, now := Iterate(prog, order, w, 0, n - 1), Iterate(prog, order, w, 0, n);
    BuiltRunning(p, w, noise, order, n - 1, at);
    BuiltRunning(p, w, noise, order, n, at);
    ListsKept(prog, order, w, n - 1);
    ListsKept(prog, order, w, n);
    NextWorld(prog, order, w, n - 1);
    NextWorld(prog, order, w, n);
    VenueTellsLevel(p, w, noise, order, before, n - 1, at);
    OfferUpdates(now.vertices[VenueAt(p, at)].local.venue);
    LevelTellsOrder(p, w, noise, order, now, n, at, Offer(now.vertices[VenueAt(p, at)].local.venue));
  }

  lemma HasLevels(p: Params, at: Place)
    requires InPlace(p, at)
    ensures p.levels > 0 && p.workers > 0
  {
  }

  lemma NextWorld(prog: Program<Local>, order: seq<VertexId>, w: World<Local>, n: nat)
    ensures Iterate(prog, order, w, 0, n + 1) == Step(prog, order, Iterate(prog, order, w, 0, n), n)
  {
    hide Step;
  }

  lemma OfferUpdates(u: Venue)
    ensures Offer(u).PriceUpdate?
  {
  }

  lemma StepVertex(prog: Program<Local>, order: seq<VertexId>, w: World<Local>, step: Superstep, v: VertexId)
    requires v in w.vertices
    ensures v in Step(prog, order, w, step).vertices
    ensures Step(prog, order, w, step).vertices[v].local == After(prog, w, v, step).local
  {
    hide After, Sent, Unclaimed;
  }

  lemma OneFillCopy(o: Order, d: VertexId, l: VertexId, step: Superstep)
    ensures var fill := OrderFill(o.limitPrice, o.quantity % WORD, TradeId(d, step));
      Copies(d, [Edge(l, 0)], step, fill) == [Message(d, l, step, fill)]
  {
  }

  /** The place of an order of a built book, found along its edges. */
  lemma {:induction false} PlaceOf(p: Params, w: World<Local>, d: VertexId, l: VertexId, v: VertexId)
    returns (at: Place)
    requires p.workers > 0 && Loaded(p, w)
    requires d in w.vertices && w.vertices[d].local.AnOrder? && LeadsTo(w.vertices[d].local.edges, l)
    requires l in w.vertices && HasEdge(w.vertices[l].local.edges, Edge(v, 2))
    ensures InPlace(p, at) && OrderAt(p, at) == d && LevelAt(p, at) == l && VenueAt(p, at) == v
    ensures w.vertices[d].local.edges == [Edge(l, 0)]
  {
    hide Loaded, Blocks, PriceAt, VenueOf, LevelId, LevelEdges, MakerEdges, OrderEdges, VenueEdges, SampledEdges;
    SomeLevels(p);
    var x := LoadedAt(p, w, d);
    at := Place(x.j, x.o);
    assert w.vertices[d].local.edges == [Edge(LevelId(p, x.j), 0)];
    SpotLoaded(p, w, AtLevel(x.j));
    VenueOfLevel(p, x.j, Edge(v, 2));
  }

  lemma VenueOfLevel(p: Params, j: nat, e: Edge)
    requires p.workers > 0 && p.levels > 0 && e in LevelNode(p, j, p.orders).edges && e.kind == 2
    ensures e.dst == VenueOf(p, j)
  {
    InOrderEdges(p, j, p.orders, e);
  }

  /** One more step of a run, for an order whose mail has just that quote. */
  lemma {:induction false} OrderActs(
    p: Params, w: World<Local>, noise: (VertexId, Superstep) -> int, order: seq<VertexId>, n: nat, at: Place, u: Venue)
    requires InPlace(p, at) && Loaded(p, w)
    requires Told(Iterate(BookProgram(noise), order, w, 0, n), OrderAt(p, at), Offer(u))
    ensures var now := Iterate(BookProgram(noise), order, w, 0, n);
      var later := Iterate(BookProgram(noise), order, w, 0, n + 1);
      var d := OrderAt(p, at);
      && d in w.vertices && w.vertices[d].local.AnOrder? && d in now.vertices
      && d in later.vertices && later.vertices[d].local.AnOrder?
      && var o := w.vertices[d].local.order;
      && later.vertices[d].local.order.best == PriceFor(o.side, u)
      && After(BookProgram(noise), now, d, n).outbox
         == if WouldTrade(o.side, o.limitPrice, PriceFor(o.side, u))
            then Copies(d, w.vertices[d].local.edges, n, OrderFill(o.limitPrice, o.quantity % WORD, TradeId(d, n)))
            else []
  {
    hide *;
    HasLevels(p, at);
    var prog := BookProgram(noise);
    var d, now := OrderAt(p, at), Iterate(prog, order, w, 0, n);
    BuiltBookNeverTrades(p, w, noise, order, n);
    BuiltWaiting(p, w, now, at);
    HasNothing(w, now, d);
    OrderGoesByQuote(noise, now, n, d, u);
    NextWorld(prog, order, w, n);
    StepVertex(prog, order, now, n, d);
  }

  lemma HasNothing(start: World<Local>, w: World<Local>, v: VertexId)
    requires Trading(start, w) && v in w.vertices
    ensures w.vertices[v].outbox == [] && v !in w.unclaimed
  {
  }

  /**
   In every run of a built book, from the third superstep on, an order goes by what its own venue, the one its
   level leads to, quoted to its side two supersteps ago, and then sends its level a fill for all it has
   exactly if that quote is within its limit.
   */
  lemma {:induction false} OrdersGoByTheirVenue(
    p: Params, w: World<Local>, noise: (VertexId, Superstep) -> int, order: seq<VertexId>, n: nat,
    d: VertexId, l: VertexId, v: VertexId)
    requires p.workers > 0 && Loaded(p, w) && Lists(order, w) && n >= 1
    requires d in w.vertices && w.vertices[d].local.AnOrder? && LeadsTo(w.vertices[d].local.edges, l)
    requires l in w.vertices && HasEdge(w.vertices[l].local.edges, Edge(v, 2))
    ensures var now := Iterate(BookProgram(noise), order, w, 0, n);
      var soon := Iterate(BookProgram(noise), order, w, 0, n + 1);
      var later := Iterate(BookProgram(noise), order, w, 0, n + 2);
      var o := w.vertices[d].local.order;
      && v in now.vertices && now.vertices[v].local.AVenue?
      && d in later.vertices && later.vertices[d].local.AnOrder?
      && later.vertices[d].local.order.best == PriceFor(o.side, now.vertices[v].local.venue)
      && After(BookProgram(noise), soon, d, n + 1).outbox
         == if WouldTrade(o.side, o.limitPrice, PriceFor(o.side, now.vertices[v].local.venue))
            then [Message(d, l, n + 1, OrderFill(o.limitPrice, o.quantity % WORD, TradeId(d, n + 1)))] else []
  {
    hide *;
    var at := PlaceOf(p, w, d, l, v);
    QuotesArrive(p, w, noise, order, n, at);
    var now := Iterate(BookProgram(noise), order, w, 0, n);
    OrderActs(p, w, noise, order, n + 1, at, now.vertices[v].local.venue);
    OneFillCopy(w.vertices[d].local.order, d, l, n + 1);
  }

  /** A venue that is awake requotes around the best it has ever heard of, moved by the step's own noise. */
  lemma {:induction false} VenueRequotes(
    noise: (VertexId, Superstep) -> int, order: seq<VertexId>, w: World<Local>, step: Superstep, v: VertexId,
    bid: int, ask: int)
    requires OpenVenue(w, v)
    requires HighestBid(w.vertices[v].local.venue.bestBid, Inbox(w, v), bid)
    requires LowestAsk(w.vertices[v].local.venue.bestAsk, Inbox(w, v), ask)
    ensures var r := Step(BookProgram(noise), order, w, step);
      var mid := (if Middle(bid + ask) == 0 then 100_000_000_000 else Middle(bid + ask)) + noise(v, step);
      && v in r.vertices && r.vertices[v].local.AVenue?
      && r.vertices[v].local.venue.bestBid == mid - 200 && r.vertices[v].local.venue.bestAsk == mid + 200
  {
    hide VenueStep, Inbox, Sent, Unclaimed, HighestBid, LowestAsk;
    var edges, s := w.vertices[v].local.edges, w.vertices[v].(halted := false);
    var u := VertexState(false, s.outbox, s.local.venue);
    QuotesAroundMiddle(v, edges, u, Inbox(w, v), step, noise(v, step), bid, ask);
    StepVertex(BookProgram(noise), order, w, step, v);
  }
}
