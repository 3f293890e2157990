/** The nested loops that build the order-book graph (order_book_graph.cpp). */
module GraphBuilder {
  import opened Messages
  import opened OrderBook

  const SAMPLE := 20

  const BASE_PRICE := 150 * 1_000_000
  const INVENTORY_LIMIT := 1_000_000.0

  /**
   What the random generator yields: a maker's i-th sample, before reduction to the number of levels,
   and a vertex's i-th price noise and quantity.
   */
  datatype Draws = Draws(
    sample: (nat, nat) -> nat, noise: (VertexId, nat) -> int, quantity: (VertexId, nat) -> nat)

  datatype Params = Params(venues: nat, levels: nat, orders: nat, makers: nat, workers: nat, draws: Draws)

  datatype State = IsVenue(venue: Venue) | IsLevel(level: Level) | IsOrder(order: Order) | IsMaker(maker: Maker)

  datatype Node = Node(id: VertexId, state: State, owner: WorkerId, edges: seq<Edge>)

  datatype GraphData = GraphData(
    vertices: seq<Node>, totalEdges: nat, venueCount: nat, levelCount: nat, orderCount: nat, makerCount: nat)

  // ----- where everything is

  /** The number of price levels; each comes with its orders as one block of identifiers. */
  function Blocks(p: Params): nat {
    p.venues * (2 * p.levels)
  }

  function LevelId(p: Params, j: nat): VertexId {
    p.venues + j * (p.orders + 1)
  }

  function OrderId(p: Params, j: nat, o: nat): VertexId {
    LevelId(p, j) + 1 + o
  }

  function MakerId(p: Params, k: nat): VertexId {
    LevelId(p, Blocks(p)) + k
  }

  /** The venue of block j: each has as many blocks as it has levels on both sides. */
  function VenueOf(p: Params, j: nat): VertexId
    requires p.levels > 0
  {
    if j < 2 * p.levels then 0 else 1 + VenueOf(p, j - 2 * p.levels)
  }

  /** Its place among that venue's blocks. */
  function Offset(p: Params, j: nat): nat
    requires p.levels > 0
  {
    if j < 2 * p.levels then j else Offset(p, j - 2 * p.levels)
  }

  function Size(p: Params): nat {
    MakerId(p, p.makers)
  }

  function Sampled(p: Params): nat {
    if Blocks(p) < SAMPLE then Blocks(p) else SAMPLE
  }

  // ----- the graph

  function Made(p: Params, id: VertexId, state: State, edges: seq<Edge>): Node
    requires p.workers > 0
  {
    Node(id, state, id % p.workers, edges)
  }

  function VenueState(p: Params, v: VertexId): State {
    IsVenue(Venue(
      BASE_PRICE - 100 + p.draws.noise(v, 0), BASE_PRICE + 100 + p.draws.noise(v, 1),
      p.draws.quantity(v, 0), p.draws.quantity(v, 1)))
  }

  /** The bid levels of a venue come before its ask levels. */
  function SideOf(p: Params, j: nat): Side
    requires p.levels > 0
  {
    if Offset(p, j) < p.levels then Bid else Ask
  }

  /** How far level j is from the best of its side. */
  function Depth(p: Params, j: nat): nat
    requires p.levels > 0
  {
    if Offset(p, j) < p.levels then Offset(p, j) else Offset(p, j) - p.levels
  }

  function PriceAt(p: Params, side: Side, lvl: nat, id: VertexId): int {
    BASE_PRICE + (if side.Bid? then -((lvl + 1) * TICK_SIZE) else (lvl + 1) * TICK_SIZE) + p.draws.noise(id, 0)
  }

  /** The number of orders is cut to 32 bits, the total quantity wraps at 64. */
  function LevelState(p: Params, side: Side, lvl: nat, id: VertexId): State {
    IsLevel(Level(PriceAt(p, side, lvl, id), side, p.draws.quantity(id, 0) * p.orders % WORD, p.orders % HALF_WORD, 0))
  }

  function OrderState(p: Params, side: Side, price: int, id: VertexId): State {
    IsOrder(Order(price + p.draws.noise(id, 0), p.draws.quantity(id, 0), 0, side, true, 0, 0))
  }

  function MakerState(): State {
    IsMaker(Maker(0, 0, 0, 0, INVENTORY_LIMIT, 0, 0))
  }

  /** Venue v's edges to its levels among the first n. */
  function LevelEdges(p: Params, v: VertexId, n: nat): seq<Edge>
    requires n > 0 ==> p.levels > 0
  {
    if n == 0 then []
    else LevelEdges(p, v, n - 1) + if VenueOf(p, n - 1) == v then [Edge(LevelId(p, n - 1), 0)] else []
  }

  function MakerEdges(p: Params, m: nat): seq<Edge> {
    if m == 0 then [] else MakerEdges(p, m - 1) + [Edge(MakerId(p, m - 1), 3)]
  }

  function OrderEdges(p: Params, j: nat, o: nat): seq<Edge> {
    if o == 0 then [] else OrderEdges(p, j, o - 1) + [Edge(OrderId(p, j, o - 1), 1)]
  }

  function VenueEdges(n: nat): seq<Edge> {
    if n == 0 then [] else VenueEdges(n - 1) + [Edge(n - 1, 0)]
  }

  function SampledEdges(p: Params, k: nat, n: nat): seq<Edge>
    requires n > 0 ==> Blocks(p) > 0
  {
    if n == 0 then []
    else SampledEdges(p, k, n - 1) + [Edge(LevelId(p, p.draws.sample(k, n - 1) % Blocks(p)), 2)]
  }

  /** The venues once n levels and m makers have been linked to them. */
  function Venues(p: Params, n: nat, m: nat): (r: seq<Node>)
    requires p.workers > 0 && (n > 0 ==> p.levels > 0)
    ensures |r| == p.venues
  {
    seq(p.venues, v requires 0 <= v < p.venues => VenueNode(p, v, n, m))
  }

  function VenueNode(p: Params, v: VertexId, n: nat, m: nat): Node
    requires p.workers > 0 && (n > 0 ==> p.levels > 0)
  {
    Made(p, v, VenueState(p, v), LevelEdges(p, v, n) + MakerEdges(p, m))
  }

  function OrderNode(p: Params, j: nat, o: nat): Node
    requires p.workers > 0 && p.levels > 0
  {
    var price := PriceAt(p, SideOf(p, j), Depth(p, j), LevelId(p, j));
    Made(p, OrderId(p, j, o), OrderState(p, SideOf(p, j), price, OrderId(p, j, o)), [Edge(LevelId(p, j), 0)])
  }

  function Orders(p: Params, j: nat, o: nat): (r: seq<Node>)
    requires p.workers > 0 && p.levels > 0
    ensures |r| == o
  {
    if o == 0 then [] else Orders(p, j, o - 1) + [OrderNode(p, j, o - 1)]
  }

  /** Level j once o of its orders have been linked to it. */
  function LevelNode(p: Params, j: nat, o: nat): Node
    requires p.workers > 0 && p.levels > 0
  {
    Made(p, LevelId(p, j), LevelState(p, SideOf(p, j), Depth(p, j), LevelId(p, j)),
      [Edge(VenueOf(p, j), 2)] + OrderEdges(p, j, o))
  }

  /** The first n blocks: each level comes after its orders. */
  function Books(p: Params, n: nat): (r: seq<Node>)
    requires p.workers > 0 && (n > 0 ==> p.levels > 0)
  {
    if n == 0 then [] else Books(p, n - 1) + Orders(p, n - 1, p.orders) + [LevelNode(p, n - 1, p.orders)]
  }

  function MakerNode(p: Params, k: nat): Node
    requires p.workers > 0
  {
    Made(p, MakerId(p, k), MakerState(), VenueEdges(p.venues) + SampledEdges(p, k, Sampled(p)))
  }

  function Makers(p: Params, m: nat): (r: seq<Node>)
    requires p.workers > 0
    ensures |r| == m
  {
    if m == 0 then [] else Makers(p, m - 1) + [MakerNode(p, m - 1)]
  }

  function Graph(p: Params): seq<Node>
    requires p.workers > 0
  {
    SomeLevels(p);
    Venues(p, Blocks(p), p.makers) + Books(p, Blocks(p)) + Makers(p, p.makers)
  }

  lemma SomeLevels(p: Params)
    ensures Blocks(p) > 0 ==> p.levels > 0 && p.venues > 0
  {
    if p.levels == 0 {
      assert Blocks(p) == p.venues * 0;
    }
  }

  function EdgeCount(s: seq<Node>): nat {
    if s == [] then 0 else EdgeCount(s[..|s| - 1]) + |s[|s| - 1].edges|
  }

  // ----- the builder

  lemma NextBase(p: Params, j: nat)
    ensures LevelId(p, j + 1) == LevelId(p, j) + 1 + p.orders
  {
    assert (j + 1) * (p.orders + 1) == j * (p.orders + 1) + (p.orders + 1);
  }

  /** Linking a venue to one more level. */
  lemma LinkLevel(p: Params, j: nat, rest: seq<Node>, v: nat)
    requires p.workers > 0 && p.levels > 0 && v < p.venues && VenueOf(p, j) == v
    ensures var s := Venues(p, j, 0) + rest;
      s[v := s[v].(edges := s[v].edges + [Edge(LevelId(p, j), 0)])] == Venues(p, j + 1, 0) + rest
  {
    var s, t := Venues(p, j, 0) + rest, Venues(p, j + 1, 0) + rest;
    var linked := s[v := s[v].(edges := s[v].edges + [Edge(LevelId(p, j), 0)])];
    forall i | 0 <= i < |t| ensures linked[i] == t[i] {
    }
  }

  /** Linking the first v venues, and then one more, to maker m. */
  function Linking(p: Params, n: nat, m: nat, v: nat): (r: seq<Node>)
    requires p.workers > 0 && (n > 0 ==> p.levels > 0) && v <= p.venues
    ensures |r| == p.venues
  {
    seq(p.venues, i requires 0 <= i < p.venues => VenueNode(p, i, n, if i < v then m + 1 else m))
  }

  lemma LinkMaker(p: Params, n: nat, m: nat, v: nat, rest: seq<Node>)
    requires p.workers > 0 && (n > 0 ==> p.levels > 0) && v < p.venues
    ensures var s := Linking(p, n, m, v) + rest;
      s[v := s[v].(edges := s[v].edges + [Edge(MakerId(p, m), 3)])] == Linking(p, n, m, v + 1) + rest
  {
    var s, t := Linking(p, n, m, v) + rest, Linking(p, n, m, v + 1) + rest;
    var linked := s[v := s[v].(edges := s[v].edges + [Edge(MakerId(p, m), 3)])];
    var e := [Edge(MakerId(p, m), 3)];
    assert MakerEdges(p, m + 1) == MakerEdges(p, m) + e;
    assert (LevelEdges(p, v, n) + MakerEdges(p, m)) + e == LevelEdges(p, v, n) + (MakerEdges(p, m) + e);
    assert s[v] == VenueNode(p, v, n, m) && t[v] == VenueNode(p, v, n, m + 1);
    assert linked[v] == t[v];
    forall i | 0 <= i < |t| ensures linked[i] == t[i] {
      if i < p.venues && i != v {
        assert s[i] == t[i];
      }
    }
  }

  function LevelIds(p: Params, n: nat): (r: seq<VertexId>)
    ensures |r| == n
  {
    seq(n, j requires 0 <= j < n => LevelId(p, j))
  }

  lemma {:induction false} VenueOfBlock(p: Params, v: nat, r: nat)
    requires v < p.venues && r < 2 * p.levels
    ensures VenueOf(p, v * (2 * p.levels) + r) == v && Offset(p, v * (2 * p.levels) + r) == r
    ensures v * (2 * p.levels) + r < Blocks(p)
  {
    var width := 2 * p.levels;
    assert (v + 1) * width == v * width + width && (v + 1) * width <= p.venues * width;
    VenueOfOffset(p, v, width, r);
  }

  lemma {:induction false} VenueOfOffset(p: Params, v: nat, width: nat, r: nat)
    requires width == 2 * p.levels && r < width
    ensures VenueOf(p, v * width + r) == v && Offset(p, v * width + r) == r
  {
    if v > 0 {
      assert v * width == (v - 1) * width + width;
      VenueOfOffset(p, v - 1, width, r);
    }
  }

  /** The number of edges that the first j levels, with their orders, contribute. */
  function BookEdges(p: Params, j: nat): nat {
    j * (2 + 2 * p.orders)
  }

  function OrdersIn(p: Params, j: nat): nat {
    j * p.orders
  }

  /** A 32-bit counter that counts one more. */
  lemma Counted(n: nat)
    ensures (n % HALF_WORD + 1) % HALF_WORD == (n + 1) % HALF_WORD
  {
  }

  method BuildVenues(p: Params) returns (vertices: seq<Node>, venueIds: seq<VertexId>, venueCount: nat)
    requires p.workers > 0
    ensures vertices == Venues(p, 0, 0) && venueIds == seq(p.venues, v => v) && venueCount == p.venues % HALF_WORD
  {
    vertices, venueIds, venueCount := [], [], 0;
    var nextId := 0;
    for v := 0 to p.venues
      invariant nextId == v && vertices == Venues(p, 0, 0)[..v] && venueIds == seq(v, i => i)
      invariant venueCount == v % HALF_WORD
    {
      var vid := nextId;
      nextId := nextId + 1;
      venueIds := venueIds + [vid];
      var state := Venue(
        BASE_PRICE - 100 + p.draws.noise(vid, 0), BASE_PRICE + 100 + p.draws.noise(vid, 1),
        p.draws.quantity(vid, 0), p.draws.quantity(vid, 1));
      vertices := vertices + [Node(vid, IsVenue(state), vid % p.workers, [])];
      Counted(v);
      venueCount := (venueCount + 1) % HALF_WORD;
      assert LevelEdges(p, v, 0) + MakerEdges(p, 0) == [];
      assert Venues(p, 0, 0)[v] == vertices[v];
    }
  }

  /** The innermost loop: the orders of one price level, each linked with it both ways. */
  method BuildOrders(p: Params, side: Side, price: int, ghost j: nat,
      vertices: seq<Node>, unlinked: Node, firstId: VertexId, totalEdges: nat)
    returns (extended: seq<Node>, level: Node, nextId: VertexId, edgeTotal: nat)
    requires p.workers > 0 && p.levels > 0 && unlinked == LevelNode(p, j, 0) && firstId == OrderId(p, j, 0)
    requires side == SideOf(p, j) && price == PriceAt(p, side, Depth(p, j), LevelId(p, j))
    ensures extended == vertices + Orders(p, j, p.orders) && level == LevelNode(p, j, p.orders)
    ensures nextId == OrderId(p, j, p.orders) && edgeTotal == totalEdges + 2 * p.orders
  {
    hide VenueOf, SideOf, Depth, PriceAt, LevelState;
    extended, level, nextId, edgeTotal := vertices, unlinked, firstId, totalEdges;
    var plId := level.id;
    for o := 0 to p.orders
      invariant nextId == OrderId(p, j, o) && level == LevelNode(p, j, o)
      invariant extended == vertices + Orders(p, j, o) && edgeTotal == totalEdges + 2 * o
    {
      var ordId := nextId;
      nextId := nextId + 1;
      var os := Order(price + p.draws.noise(ordId, 0), p.draws.quantity(ordId, 0), 0, side, true, 0, 0);
      extended := extended + [Node(ordId, IsOrder(os), ordId % p.workers, [Edge(plId, 0)])];
      level := level.(edges := level.edges + [Edge(ordId, 1)]);
      edgeTotal := edgeTotal + 2;
    }
  }

  lemma BareLevel(p: Params, j: nat)
    requires p.workers > 0 && p.levels > 0
    ensures var id := LevelId(p, j);
      LevelNode(p, j, 0)
        == Node(id, LevelState(p, SideOf(p, j), Depth(p, j), id), id % p.workers, [Edge(VenueOf(p, j), 2)])
    ensures OrderId(p, j, 0) == LevelId(p, j) + 1
  {
    hide VenueOf, SideOf, Depth, LevelState;
    assert OrderEdges(p, j, 0) == [];
  }

  lemma BooksGrow(p: Params, j: nat)
    requires p.workers > 0 && p.levels > 0
    ensures Books(p, j + 1) == Books(p, j) + Orders(p, j, p.orders) + [LevelNode(p, j, p.orders)]
    ensures OrderId(p, j, p.orders) == LevelId(p, j + 1)
  {
    hide LevelNode, Orders;
    NextBase(p, j);
  }

  /** One price level of venue v, with its orders. */
  method BuildLevel(p: Params, v: nat, side: Side, lvl: nat, ghost j: nat,
      vertices: seq<Node>, firstId: VertexId, totalEdges: nat)
    returns (extended: seq<Node>, nextId: VertexId, edgeTotal: nat)
    requires p.workers > 0 && p.levels > 0 && v < p.venues && VenueOf(p, j) == v
    requires SideOf(p, j) == side && Depth(p, j) == lvl
    requires vertices == Venues(p, j, 0) + Books(p, j) && firstId == LevelId(p, j)
    ensures extended == Venues(p, j + 1, 0) + Books(p, j + 1) && nextId == LevelId(p, j + 1)
    ensures edgeTotal == totalEdges + 2 + 2 * p.orders
  {
    hide LevelId, OrderId, LevelNode, VenueOf, SideOf, Depth, Venues, Books, Orders;
    BareLevel(p, j);
    var plId := firstId;
    nextId := firstId + 1;
    var offset := if side == Bid then -((lvl + 1) * TICK_SIZE) else (lvl + 1) * TICK_SIZE;
    var price := BASE_PRICE + offset + p.draws.noise(plId, 0);
    var pls := Level(price, side, p.draws.quantity(plId, 0) * p.orders % WORD, p.orders % HALF_WORD, 0);
    var level := Node(plId, IsLevel(pls), plId % p.workers, [Edge(v, 2)]);
    LinkLevel(p, j, Books(p, j), v);
    extended := vertices[v := vertices[v].(edges := vertices[v].edges + [Edge(plId, 0)])];
    edgeTotal := totalEdges + 2;
    extended, level, nextId, edgeTotal := BuildOrders(p, side, price, j, extended, level, nextId, edgeTotal);
    extended := extended + [level];
    BooksGrow(p, j);
    assert extended == Venues(p, j + 1, 0) + (Books(p, j) + Orders(p, j, p.orders) + [level]);
  }

  /** What the three nested loops have built once j levels are done. */
  ghost predicate Booked(p: Params, j: nat, d: GraphData, levelIds: seq<VertexId>, nextId: VertexId)
    requires p.workers > 0
  {
    && (j > 0 ==> p.levels > 0)
    && d.vertices == Venues(p, j, 0) + Books(p, j) && levelIds == LevelIds(p, j) && nextId == LevelId(p, j)
    && d.totalEdges == BookEdges(p, j) && d.venueCount == p.venues % HALF_WORD
    && d.levelCount == j % HALF_WORD && d.orderCount == OrdersIn(p, j) && d.makerCount == 0
  }

  method BuildOneLevel(p: Params, v: nat, side: Side, lvl: nat, ghost j: nat,
      d: GraphData, levelIds: seq<VertexId>, nextId: VertexId)
    returns (d': GraphData, levelIds': seq<VertexId>, nextId': VertexId)
    requires p.workers > 0 && p.levels > 0 && v < p.venues && VenueOf(p, j) == v
    requires SideOf(p, j) == side && Depth(p, j) == lvl
    requires Booked(p, j, d, levelIds, nextId)
    ensures Booked(p, j + 1, d', levelIds', nextId')
  {
    hide BookEdges, OrdersIn, Venues, Books, LevelId, VenueOf, SideOf, Depth;
    Counted(j);
    var vertices, next, edges := BuildLevel(p, v, side, lvl, j, d.vertices, nextId, d.totalEdges);
    levelIds', nextId' := levelIds + [nextId], next;
    d' := d.(vertices := vertices, totalEdges := edges,
      levelCount := (d.levelCount + 1) % HALF_WORD, orderCount := d.orderCount + p.orders);
    OneMoreBlock(p, j);
  }

  lemma OneMoreBlock(p: Params, j: nat)
    ensures BookEdges(p, j + 1) == BookEdges(p, j) + 2 + 2 * p.orders
    ensures OrdersIn(p, j + 1) == OrdersIn(p, j) + p.orders
  {
    var width := 2 + 2 * p.orders;
    assert (j + 1) * width == j * width + width;
  }

  method BuildBooks(p: Params, d0: GraphData, venueIds: seq<VertexId>)
    returns (d: GraphData, levelIds: seq<VertexId>, nextId: VertexId)
    requires p.workers > 0 && venueIds == seq(p.venues, v => v)
    requires Booked(p, 0, d0, [], p.venues)
    ensures Booked(p, Blocks(p), d, levelIds, nextId)
  {
    hide Booked;
    d, levelIds, nextId := d0, [], p.venues;
    var j := 0;
    for v := 0 to p.venues
      invariant j == v * (2 * p.levels) && Booked(p, j, d, levelIds, nextId)
    {
      ghost var base := j;
      for side := 0 to 2
        invariant j == base + side * p.levels && Booked(p, j, d, levelIds, nextId)
      {
        ghost var start := j;
        for lvl := 0 to p.levels
          invariant j == start + lvl && Booked(p, j, d, levelIds, nextId)
        {
          ghost var r := side * p.levels + lvl;
          assert side == 0 || side == 1;
          assert r < 2 * p.levels;
          VenueOfBlock(p, v, r);
          d, levelIds, nextId :=
            BuildOneLevel(p, venueIds[v], if side == 0 then Bid else Ask, lvl, j, d, levelIds, nextId);
          j := j + 1;
        }
        assert (side + 1) * p.levels == side * p.levels + p.levels;
      }
      ghost var width := 2 * p.levels;
      assert (v + 1) * width == v * width + width;
    }
  }

  /** The market makers, each linked with every venue and to a sample of levels. */
  method BuildMakers(p: Params, d0: GraphData, venueIds: seq<VertexId>, levelIds: seq<VertexId>,
      firstId: VertexId)
    returns (d: GraphData)
    requires p.workers > 0 && venueIds == seq(p.venues, v => v)
    requires Booked(p, Blocks(p), d0, levelIds, firstId)
    ensures d.vertices == Graph(p)
    ensures d.totalEdges == BookEdges(p, Blocks(p)) + p.makers * (2 * p.venues + Sampled(p))
    ensures d.(vertices := d0.vertices, totalEdges := d0.totalEdges) == d0.(makerCount := p.makers % HALF_WORD)
  {
    hide LevelId, BookEdges, OrdersIn, Venues, Books, LevelState, VenueState, OrderState;
    var nextId := firstId;
    d := d0;
    SomeLevels(p);
    for mm := 0 to p.makers
      invariant nextId == MakerId(p, mm)
      invariant d.vertices == Venues(p, Blocks(p), mm) + Books(p, Blocks(p)) + Makers(p, mm)
      invariant d.totalEdges == BookEdges(p, Blocks(p)) + mm * (2 * p.venues + Sampled(p))
      invariant d.(vertices := d0.vertices, totalEdges := d0.totalEdges) == d0.(makerCount := mm % HALF_WORD)
    {
      var mmId := nextId;
      nextId := nextId + 1;
      ghost var rest := Books(p, Blocks(p)) + Makers(p, mm);
      var vertices, maker, edges := LinkVenues(p, mm, d.vertices, rest, mmId, venueIds, d.totalEdges);
      maker, edges := LinkSample(p, mm, maker, levelIds, edges);
      d := d.(vertices := vertices + [maker], totalEdges := edges, makerCount := (d.makerCount + 1) % HALF_WORD);
      assert d.vertices == Venues(p, Blocks(p), mm + 1) + Books(p, Blocks(p)) + (Makers(p, mm) + [maker]);
      Counted(mm);
      OneMoreMaker(p, mm);
    }
  }

  lemma OneMoreMaker(p: Params, m: nat)
    ensures var width := 2 * p.venues + Sampled(p); (m + 1) * width == m * width + width
  {
  }

  /** The loop that links a maker to its sample of levels. */
  method LinkSample(p: Params, mm: nat, linked: Node, levelIds: seq<VertexId>, totalEdges: nat)
    returns (maker: Node, edgeTotal: nat)
    requires p.workers > 0 && levelIds == LevelIds(p, Blocks(p))
    requires linked == Made(p, MakerId(p, mm), MakerState(), VenueEdges(p.venues))
    ensures maker == MakerNode(p, mm) && edgeTotal == totalEdges + Sampled(p)
  {
    hide LevelId;
    maker, edgeTotal := linked, totalEdges;
    var sample := if SAMPLE < |levelIds| then SAMPLE else |levelIds|;
    for i := 0 to sample
      invariant maker == linked.(edges := VenueEdges(p.venues) + SampledEdges(p, mm, i))
      invariant edgeTotal == totalEdges + i
    {
      var plId := levelIds[p.draws.sample(mm, i) % |levelIds|];
      maker := maker.(edges := maker.edges + [Edge(plId, 2)]);
      edgeTotal := edgeTotal + 1;
    }
  }

  /** The loop that links a maker and every venue, both ways. */
  method LinkVenues(p: Params, mm: nat, vertices: seq<Node>, ghost rest: seq<Node>, mmId: VertexId,
      venueIds: seq<VertexId>, totalEdges: nat)
    returns (linked: seq<Node>, maker: Node, edgeTotal: nat)
    requires p.workers > 0 && venueIds == seq(p.venues, v => v) && mmId == MakerId(p, mm)
    requires Blocks(p) > 0 ==> p.levels > 0
    requires vertices == Venues(p, Blocks(p), mm) + rest
    ensures linked == Venues(p, Blocks(p), mm + 1) + rest
    ensures maker == Made(p, mmId, MakerState(), VenueEdges(p.venues)) && edgeTotal == totalEdges + 2 * p.venues
  {
    hide VenueNode;
    var mms := Maker(0, 0, 0, 0, INVENTORY_LIMIT, 0, 0);
    linked, maker, edgeTotal := vertices, Node(mmId, IsMaker(mms), mmId % p.workers, []), totalEdges;
    assert Venues(p, Blocks(p), mm) == Linking(p, Blocks(p), mm, 0);
    for v := 0 to p.venues
      invariant linked == Linking(p, Blocks(p), mm, v) + rest
      invariant maker == Made(p, mmId, MakerState(), VenueEdges(v)) && edgeTotal == totalEdges + 2 * v
    {
      var vid := venueIds[v];
      maker := maker.(edges := maker.edges + [Edge(vid, 0)]);
      LinkMaker(p, Blocks(p), mm, v, rest);
      linked := linked[vid := linked[vid].(edges := linked[vid].edges + [Edge(mmId, 3)])];
      edgeTotal := edgeTotal + 2;
    }
    assert Venues(p, Blocks(p), mm + 1) == Linking(p, Blocks(p), mm, p.venues);
  }

  /** The whole builder. */
  method Build(p: Params) returns (d: GraphData)
    requires p.workers > 0
    ensures d.vertices == Graph(p)
    ensures d.totalEdges == 4 * p.venues * p.levels + 4 * p.venues * p.levels * p.orders
                            + p.makers * (2 * p.venues + Sampled(p))
    ensures d.venueCount == p.venues % HALF_WORD && d.levelCount == 2 * p.venues * p.levels % HALF_WORD
    ensures d.orderCount == 2 * p.venues * p.levels * p.orders && d.makerCount == p.makers % HALF_WORD
  {
    var vertices, venueIds, venueCount := BuildVenues(p);
    d := GraphData(vertices, 0, venueCount, 0, 0, 0);
    assert Venues(p, 0, 0) + Books(p, 0) == Venues(p, 0, 0);
    var levelIds, nextId;
    d, levelIds, nextId := BuildBooks(p, d, venueIds);
    d := BuildMakers(p, d, venueIds, levelIds, nextId);
    Totals(p);
  }

  lemma Totals(p: Params)
    ensures Blocks(p) == 2 * p.venues * p.levels
    ensures BookEdges(p, Blocks(p)) == 4 * p.venues * p.levels + 4 * p.venues * p.levels * p.orders
  {
    var b := p.venues * p.levels;
    assert Blocks(p) == 2 * b;
    assert BookEdges(p, Blocks(p)) == (2 * b) * 2 + (2 * b) * (2 * p.orders);
    assert (2 * b) * (2 * p.orders) == 4 * (b * p.orders);
  }
}
