/** The vertices of the graph as the builder leaves them: prices, quantities, edges and owners, in plain numbers. */
module BuiltStates {
  import opened Messages
  import opened OrderBook
  import opened GraphBuilder
  import opened GraphShape
  import opened Sends

  // ----- which vertex has which identifier

  /** The identifier of the k-th level of a venue and side: bids come before asks, and each with its orders. */
  function LevelNumber(p: Params, v: nat, side: Side, k: nat): nat {
    var below := match side case Bid => k case Ask => p.levels + k;
    p.venues + (v * (2 * p.levels) + below) * (p.orders + 1)
  }

  lemma BlockNumber(p: Params, v: nat, side: Side, k: nat) returns (j: nat)
    requires v < p.venues && k < p.levels
    ensures j < Blocks(p) && LevelId(p, j) == LevelNumber(p, v, side, k)
    ensures VenueOf(p, j) == v && SideOf(p, j) == side && Depth(p, j) == k
  {
    var below := match side case Bid => k case Ask => p.levels + k;
    VenueOfBlock(p, v, below);
    j := v * (2 * p.levels) + below;
    hide VenueOf, Offset, Blocks;
  }

  lemma BelowMakers(p: Params, j: nat, a: nat)
    requires j < Blocks(p) && a <= p.orders
    ensures LevelId(p, j) + a < MakerId(p, 0) && p.venues <= LevelId(p, j)
  {
    Wider(j, Blocks(p), p.orders + 1);
  }

  /** The vertex with the identifier of a level or an order is that level or order. */
  lemma {:induction false} SpotById(p: Params, x: Node, j: nat, a: nat)
    requires p.workers > 0 && x in Graph(p) && j < Blocks(p) && a <= p.orders && x.id == LevelId(p, j) + a
    ensures p.levels > 0
    ensures x == if a == 0 then LevelNode(p, j, p.orders) else OrderNode(p, j, a - 1)
  {
    SomeLevels(p);
    hide Graph, Blocks, VenueOf, LevelState, PriceAt, OrderState;
    var at := SpotOf(p, x);
    BelowMakers(p, j, a);
    match at {
      case AtVenue(v) =>
      case AtLevel(i) => BlocksApart(p, i, 0, j, a);
      case AtOrder(i, o) => BlocksApart(p, i, 1 + o, j, a);
      case AtMaker(k) =>
    }
  }

  // ----- price levels

  /**
   The k-th level of a side stands k + 1 ticks of 100 from the base price of 150 000 000, bids below and asks
   above, moved by its own noise; it belongs to its venue, and its orders have the identifiers after its own.
   */
  lemma {:induction false} LevelAsBuilt(p: Params, v: nat, side: Side, k: nat, x: Node)
    requires p.workers > 0 && v < p.venues && k < p.levels && x in Graph(p) && x.id == LevelNumber(p, v, side, k)
    ensures x.state.IsLevel?
    ensures var l := x.state.level;
      && l.price - p.draws.noise(x.id, 0)
         == (match side case Bid => 150_000_000 - 100 * (k + 1) case Ask => 150_000_000 + 100 * (k + 1))
      && l.side == side && l.prev == 0
      && l.total == p.draws.quantity(x.id, 0) * p.orders % 0x1_0000_0000_0000_0000
      && l.count == p.orders % 0x1_0000_0000
    ensures x.owner == x.id % p.workers && |x.edges| == p.orders + 1 && x.edges[0] == Edge(v, 2)
    ensures var own := x.edges[1..]; forall o | 0 <= o < p.orders :: own[o] == Edge(x.id + 1 + o, 1)
  {
    hide Graph, Blocks;
    var j := BlockNumber(p, v, side, k);
    SpotById(p, x, j, 0);
    OrderEdgesAt(p, j, p.orders);
    hide LevelNumber, VenueOf, SideOf, Depth, LevelId, OrderEdges;
  }

  lemma {:induction false} OrderEdgesAt(p: Params, j: nat, n: nat)
    ensures |OrderEdges(p, j, n)| == n
    ensures forall o | 0 <= o < n :: OrderEdges(p, j, n)[o] == Edge(LevelId(p, j) + 1 + o, 1)
  {
    hide LevelId;
    if n > 0 {
      OrderEdgesAt(p, j, n - 1);
    }
  }

  /** A level's quantity is its draw for each of the orders it leads to, modulo 2^64, and it counts them modulo 2^32. */
  lemma {:induction false} LevelCountsItsOrders(p: Params, x: Node)
    requires p.workers > 0 && x in Graph(p) && x.state.IsLevel?
    ensures var n := |OfThatKind(x.edges, 1)|;
      && x.state.level.total == p.draws.quantity(x.id, 0) * n % 0x1_0000_0000_0000_0000
      && x.state.level.count == n % 0x1_0000_0000
  {
    SomeLevels(p);
    hide Graph, Blocks, PriceAt, VenueOf, LevelId;
    var at := SpotOf(p, x);
    OrdersOfKind(p, at.j, p.orders, Edge(VenueOf(p, at.j), 2));
  }

  lemma {:induction false} OrdersOfKind(p: Params, j: nat, n: nat, first: Edge)
    requires first.kind == 2
    ensures |OfThatKind([first] + OrderEdges(p, j, n), 1)| == n
  {
    hide LevelId;
    var s := [first] + OrderEdges(p, j, n);
    if n == 0 {
      assert s == [first] && s[..0] == [];
    } else {
      OrdersOfKind(p, j, n - 1, first);
      assert s[..|s| - 1] == [first] + OrderEdges(p, j, n - 1);
    }
  }

  ghost predicate NoiseWithinTick(p: Params) {
    forall id: VertexId, i: nat :: -100 < p.draws.noise(id, i) < 100
  }

  /** With less than a tick of noise, bid levels are below the base price and ask levels above it. */
  lemma {:induction false} SidesApart(p: Params, x: Node)
    requires p.workers > 0 && NoiseWithinTick(p) && x in Graph(p) && x.state.IsLevel?
    ensures x.state.level.side.Bid? ==> x.state.level.price < 150_000_000
    ensures x.state.level.side.Ask? ==> x.state.level.price > 150_000_000
  {
    SomeLevels(p);
    hide Graph, Blocks, VenueOf, Offset;
    var at := SpotOf(p, x);
    assert -100 < p.draws.noise(x.id, 0) < 100;
  }

  ghost predicate Noiseless(p: Params) {
    forall id: VertexId, i: nat :: p.draws.noise(id, i) == 0
  }

  /** Without noise a venue's levels lie symmetrically around the base price, a tick apart, the best ones first. */
  lemma {:induction false} LevelsInStep(p: Params, v: nat, k: nat, bid: Node, ask: Node)
    requires p.workers > 0 && Noiseless(p) && v < p.venues && k < p.levels && bid in Graph(p) && ask in Graph(p)
    requires bid.id == LevelNumber(p, v, Bid, k) && ask.id == LevelNumber(p, v, Ask, k)
    ensures bid.state.IsLevel? && ask.state.IsLevel?
    ensures bid.state.level.price + ask.state.level.price == 2 * 150_000_000
    ensures ask.state.level.price - bid.state.level.price == 200 * (k + 1)
    ensures forall next | k + 1 < p.levels && next in Graph(p) && next.id == LevelNumber(p, v, Bid, k + 1) ::
              next.state.IsLevel? && next.state.level.price == bid.state.level.price - 100
    ensures forall next | k + 1 < p.levels && next in Graph(p) && next.id == LevelNumber(p, v, Ask, k + 1) ::
              next.state.IsLevel? && next.state.level.price == ask.state.level.price + 100
  {
    hide Graph, LevelNumber;
    LevelAsBuilt(p, v, Bid, k, bid);
    LevelAsBuilt(p, v, Ask, k, ask);
    forall next | k + 1 < p.levels && next in Graph(p) && next.id == LevelNumber(p, v, Bid, k + 1)
      ensures next.state.IsLevel? && next.state.level.price == bid.state.level.price - 100
    {
      LevelAsBuilt(p, v, Bid, k + 1, next);
    }
    forall next | k + 1 < p.levels && next in Graph(p) && next.id == LevelNumber(p, v, Ask, k + 1)
      ensures next.state.IsLevel? && next.state.level.price == ask.state.level.price + 100
    {
      LevelAsBuilt(p, v, Ask, k + 1, next);
    }
  }

  // ----- orders

  /** An order has its level's side, and its limit is the level's price moved by its own noise. */
  lemma {:induction false} OrderAsBuilt(p: Params, x: Node, e: Edge, y: Node)
    requires p.workers > 0 && x in Graph(p) && x.state.IsOrder? && e in x.edges && y in Graph(p) && y.id == e.dst
    ensures y.state.IsLevel? && x.edges == [Edge(y.id, 0)] && x.owner == x.id % p.workers
    ensures var o, l := x.state.order, y.state.level;
      && o.side == l.side && o.limitPrice - p.draws.noise(x.id, 0) == l.price
      && o.quantity == p.draws.quantity(x.id, 0) && o.filled == 0 && o.active && o.best == 0 && o.idle == 0
  {
    SomeLevels(p);
    hide Graph, Blocks, PriceAt, VenueOf, Offset, LevelId;
    var at := SpotOf(p, x);
    SpotById(p, y, at.j, 0);
  }

  // ----- venues

  lemma {:induction false} VenueNodeById(p: Params, v: nat, x: Node)
    requires p.workers > 0 && v < p.venues && x in Graph(p) && x.id == v
    ensures Blocks(p) > 0 ==> p.levels > 0
    ensures x == VenueNode(p, v, Blocks(p), p.makers)
  {
    SomeLevels(p);
    hide *;
    var at := SpotOf(p, x);
    SpotAmongVenues(p, at, v);
  }

  lemma SpotAmongVenues(p: Params, at: Spot, v: nat)
    requires p.workers > 0 && (Blocks(p) > 0 ==> p.levels > 0) && Valid(p, at) && v < p.venues && NodeAt(p, at).id == v
    ensures NodeAt(p, at) == VenueNode(p, v, Blocks(p), p.makers)
  {
    hide Blocks, VenueState, LevelState, OrderState, PriceAt, LevelEdges, MakerEdges, OrderEdges, VenueEdges,
      SampledEdges, VenueOf;
  }

  lemma {:induction false} VenueOfAtLeast(p: Params, j: nat, u: nat, first: nat)
    requires p.levels > 0 && first == u * (2 * p.levels) && first <= j
    ensures u <= VenueOf(p, j)
  {
    if u > 0 {
      OneVenueLess(u, 2 * p.levels, first);
      VenueOfAtLeast(p, j - 2 * p.levels, u - 1, first - 2 * p.levels);
    }
  }

  lemma OneVenueLess(u: nat, width: nat, first: nat)
    requires u > 0 && first == u * width
    ensures first >= width && first - width == (u - 1) * width
  {
    Times(u, width);
    Wider(0, u, width);
  }

  lemma {:induction false} NoEdgesBefore(p: Params, v: nat, n: nat)
    requires p.levels > 0 && n <= v * (2 * p.levels)
    ensures LevelEdges(p, v, n) == []
  {
    if n > 0 {
      NoEdgesBefore(p, v, n - 1);
      VenueOfBound(p, n - 1, v);
    }
  }

  lemma VenueFrom(p: Params, v: nat, first: nat, r: nat)
    requires p.levels > 0 && first == v * (2 * p.levels) && r < 2 * p.levels
    ensures VenueOf(p, first + r) == v
  {
    hide VenueOf, Offset;
    VenueOfOffset(p, v, 2 * p.levels, r);
  }

  lemma {:induction false} EdgesWithin(p: Params, v: nat, first: nat, r: nat)
    requires p.levels > 0 && first == v * (2 * p.levels) && r <= 2 * p.levels
    ensures var s := LevelEdges(p, v, first + r);
      |s| == r && forall i | 0 <= i < r :: s[i] == Edge(LevelId(p, first + i), 0)
  {
    hide LevelId, VenueOf;
    if r == 0 {
      NoEdgesBefore(p, v, first);
    } else {
      EdgesWithin(p, v, first, r - 1);
      VenueFrom(p, v, first, r - 1);
    }
  }

  lemma {:induction false} NoEdgesAfter(p: Params, v: nat, n: nat)
    requires p.levels > 0 && (v + 1) * (2 * p.levels) <= n
    ensures LevelEdges(p, v, n) == LevelEdges(p, v, (v + 1) * (2 * p.levels))
  {
    if n > (v + 1) * (2 * p.levels) {
      NoEdgesAfter(p, v, n - 1);
      VenueOfAtLeast(p, n - 1, v + 1, (v + 1) * (2 * p.levels));
    }
  }

  /** A venue's edges to its levels: bids first, the best first. */
  lemma {:induction false} LevelEdgesAt(p: Params, v: nat)
    requires v < p.venues && (Blocks(p) > 0 ==> p.levels > 0)
    ensures var s := LevelEdges(p, v, Blocks(p));
      && |s| == 2 * p.levels
      && forall k | 0 <= k < p.levels ::
           && s[k] == Edge(LevelNumber(p, v, Bid, k), 0)
           && s[p.levels + k] == Edge(LevelNumber(p, v, Ask, k), 0)
  {
    var width := 2 * p.levels;
    if p.levels == 0 {
      assert Blocks(p) == p.venues * 0;
    } else {
      Times(v + 1, width);
      AtMost(v + 1, p.venues, width);
      EdgesWithin(p, v, v * width, width);
      NoEdgesAfter(p, v, Blocks(p));
    }
  }

  lemma AtMost(a: nat, b: nat, width: nat)
    requires a <= b
    ensures a * width <= b * width
  {
    if a < b {
      Wider(a, b, width);
    }
  }

  lemma {:induction false} MakerEdgesAt(p: Params, m: nat)
    ensures |MakerEdges(p, m)| == m && forall k | 0 <= k < m :: MakerEdges(p, m)[k] == Edge(MakerId(p, 0) + k, 3)
  {
    if m > 0 {
      MakerEdgesAt(p, m - 1);
    }
  }

  /**
   A venue opens one tick to either side of the base price, each quote moved by a noise of its own; it leads to
   its bid levels, then its ask levels, the best first, and then to every market maker.
   */
  lemma {:induction false} VenueAsBuilt(p: Params, v: nat, x: Node)
    requires p.workers > 0 && v < p.venues && x in Graph(p) && x.id == v
    ensures x.state.IsVenue? && x.owner == v % p.workers
    ensures var u := x.state.venue;
      && u.bestBid - p.draws.noise(v, 0) == 150_000_000 - 100 && u.bestAsk - p.draws.noise(v, 1) == 150_000_000 + 100
      && u.bidSize == p.draws.quantity(v, 0) && u.askSize == p.draws.quantity(v, 1)
    ensures |x.edges| == 2 * p.levels + p.makers
    ensures forall k | 0 <= k < p.levels ::
              && x.edges[k] == Edge(LevelNumber(p, v, Bid, k), 0)
              && x.edges[p.levels + k] == Edge(LevelNumber(p, v, Ask, k), 0)
    ensures var rest := x.edges[2 * p.levels..]; forall m | 0 <= m < p.makers :: rest[m] == Edge(MakerId(p, 0) + m, 3)
  {
    hide Graph, Blocks, LevelEdges, MakerEdges, LevelNumber, MakerId;
    VenueNodeById(p, v, x);
    LevelEdgesAt(p, v);
    MakerEdgesAt(p, p.makers);
  }

  // ----- market makers

  lemma {:induction false} MakerById(p: Params, m: nat, x: Node)
    requires p.workers > 0 && m < p.makers && x in Graph(p) && x.id == MakerId(p, 0) + m
    ensures x == MakerNode(p, m)
  {
    SomeLevels(p);
    hide Graph, Blocks, VenueState, LevelState, OrderState, PriceAt, LevelEdges, MakerEdges, VenueOf, VenueEdges;
    var at := SpotOf(p, x);
    match at {
      case AtVenue(v) =>
      case AtLevel(j) => BelowMakers(p, j, 0);
      case AtOrder(j, o) => BelowMakers(p, j, 1 + o);
      case AtMaker(k) =>
    }
  }

  lemma {:induction false} VenueEdgesAt(n: nat)
    ensures |VenueEdges(n)| == n && forall v | 0 <= v < n :: VenueEdges(n)[v] == Edge(v, 0)
  {
    if n > 0 {
      VenueEdgesAt(n - 1);
    }
  }

  lemma {:induction false} SampledEdgesAt(p: Params, m: nat, n: nat)
    requires n > 0 ==> Blocks(p) > 0
    ensures |SampledEdges(p, m, n)| == n
    ensures forall i: nat | i < n ::
              SampledEdges(p, m, n)[i] == Edge(LevelId(p, p.draws.sample(m, i) % Blocks(p)), 2)
  {
    hide Blocks, LevelId;
    if n > 0 {
      SampledEdgesAt(p, m, n - 1);
    }
  }

  /**
   A market maker starts flat, with a limit of a million and no quotes; it leads to every venue and then to the
   levels it samples, at most twenty, each drawn from all levels.
   */
  lemma {:induction false} MakerAsBuilt(p: Params, m: nat, x: Node)
    requires p.workers > 0 && m < p.makers && x in Graph(p) && x.id == MakerId(p, 0) + m
    ensures x.state == IsMaker(Maker(0, 0, 0, 0, 1_000_000.0, 0, 0)) && x.owner == x.id % p.workers
    ensures var samples := if Blocks(p) < 20 then Blocks(p) else 20;
      && |x.edges| == p.venues + samples
      && (forall v | 0 <= v < p.venues :: x.edges[v] == Edge(v, 0))
      && forall i: nat | i < samples ::
           x.edges[p.venues..][i] == Edge(LevelId(p, p.draws.sample(m, i) % Blocks(p)), 2)
  {
    hide Graph, VenueEdges, SampledEdges, Blocks, LevelId;
    MakerById(p, m, x);
    VenueEdgesAt(p.venues);
    SampledEdgesAt(p, m, Sampled(p));
  }
}
