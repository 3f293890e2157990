/** What later code relies on about the graph the builder makes. */
module GraphShape {
  import opened Messages
  import opened Bsp
  import opened OrderBook
  import opened GraphBuilder
  import opened BookLaws
  import opened BookRuns
  import opened Coordinators
  import opened Quotes
  import opened TradeNumbers

  // ----- identifiers and slots

  function Ids(s: seq<Node>): (r: seq<VertexId>)
    ensures |r| == |s|
  {
    seq(|s|, i requires 0 <= i < |s| => s[i].id)
  }

  /** The n numbers from a on. */
  function From(a: nat, n: nat): (r: seq<nat>)
    ensures |r| == n
  {
    seq(n, i requires 0 <= i < n => a + i)
  }

  lemma {:induction false} OrderIds(p: Params, j: nat, o: nat)
    requires p.workers > 0 && p.levels > 0
    ensures Ids(Orders(p, j, o)) == From(LevelId(p, j) + 1, o)
  {
    if o > 0 {
      OrderIds(p, j, o - 1);
      forall i | 0 <= i < o ensures Ids(Orders(p, j, o))[i] == LevelId(p, j) + 1 + i {
        if i < o - 1 {
          assert Ids(Orders(p, j, o - 1))[i] == From(LevelId(p, j) + 1, o - 1)[i];
        }
      }
    }
  }

  lemma IdsConcat(s: seq<Node>, t: seq<Node>)
    ensures Ids(s + t) == Ids(s) + Ids(t)
  {
  }

  lemma FromSplit(a: nat, m: nat, n: nat)
    ensures From(a, m + n) == From(a, m) + From(a + m, n)
  {
  }

  lemma BookRange(base: nat, n: nat)
    ensures multiset(From(base, n + 1)) == multiset(From(base + 1, n) + [base])
  {
    assert From(base, n + 1) == [base] + From(base + 1, n);
  }

  /** The first n books use the identifiers after the venues', each once; a level's comes before its orders'. */
  lemma {:induction false} BookIds(p: Params, n: nat)
    requires p.workers > 0 && (n > 0 ==> p.levels > 0)
    ensures multiset(Ids(Books(p, n))) == multiset(From(p.venues, n * (p.orders + 1)))
  {
    hide *;
    if n > 0 {
      BookIds(p, n - 1);
      Times(n, p.orders + 1);
      LevelIdAt(p, n - 1);
      OneBookIds(p, n - 1);
      NextBook(p, n);
      IdsConcat(Books(p, n - 1), Book(p, n - 1));
      BookRange(LevelId(p, n - 1), p.orders);
      FromSplit(p.venues, (n - 1) * (p.orders + 1), p.orders + 1);
    } else {
      NoBookIds(p);
    }
  }

  lemma NoBookIds(p: Params)
    requires p.workers > 0
    ensures Ids(Books(p, 0)) == [] && From(p.venues, 0 * (p.orders + 1)) == []
  {
  }

  lemma LevelIdAt(p: Params, j: nat)
    ensures LevelId(p, j) == p.venues + j * (p.orders + 1)
  {
  }

  function Book(p: Params, j: nat): seq<Node>
    requires p.workers > 0 && p.levels > 0
  {
    Orders(p, j, p.orders) + [LevelNode(p, j, p.orders)]
  }

  lemma OneBookIds(p: Params, j: nat)
    requires p.workers > 0 && p.levels > 0
    ensures Ids(Book(p, j)) == From(LevelId(p, j) + 1, p.orders) + [LevelId(p, j)]
  {
    hide LevelId, Orders, From;
    OrderIds(p, j, p.orders);
    IdsConcat(Orders(p, j, p.orders), [LevelNode(p, j, p.orders)]);
    assert Ids([LevelNode(p, j, p.orders)]) == [LevelId(p, j)];
  }

  lemma {:induction false} MakerIds(p: Params, m: nat)
    requires p.workers > 0
    ensures Ids(Makers(p, m)) == From(MakerId(p, 0), m)
  {
    if m > 0 {
      MakerIds(p, m - 1);
      forall i | 0 <= i < m ensures Ids(Makers(p, m))[i] == MakerId(p, 0) + i {
        if i < m - 1 {
          assert Ids(Makers(p, m - 1))[i] == From(MakerId(p, 0), m - 1)[i];
        }
      }
    }
  }

  lemma {:induction false} AllIds(p: Params)
    requires p.workers > 0 && (Blocks(p) > 0 ==> p.levels > 0)
    ensures multiset(Ids(Graph(p)))
         == multiset(From(0, p.venues)) + multiset(From(p.venues, Blocks(p) * (p.orders + 1)))
            + multiset(From(MakerId(p, 0), p.makers))
  {
    hide Ids, From, Books, Makers, Venues, Blocks, LevelId;
    var b := Blocks(p);
    var venues, books, makers := Venues(p, b, p.makers), Books(p, b), Makers(p, p.makers);
    IdsConcat(venues, books);
    IdsConcat(venues + books, makers);
    BookIds(p, b);
    MakerIds(p, p.makers);
    VenueIds(p, b, p.makers);
  }

  /** The identifiers are exactly 0 to n - 1, each once, with n as the parameters say. */
  lemma {:induction false} IdsArePermutation(p: Params)
    requires p.workers > 0
    ensures Size(p) == p.venues + 2 * p.venues * p.levels + 2 * p.venues * p.levels * p.orders + p.makers
    ensures multiset(Ids(Graph(p))) == multiset(From(0, Size(p)))
    ensures |Graph(p)| == Size(p)
  {
    SizeFormula(p);
    SomeLevels(p);
    hide Ids, From, Graph, Blocks;
    AllIds(p);
    FromSplit(0, p.venues, Blocks(p) * (p.orders + 1));
    FromSplit(0, MakerId(p, 0), p.makers);
    assert |Ids(Graph(p))| == |multiset(Ids(Graph(p)))| == |multiset(From(0, Size(p)))| == Size(p);
  }

  lemma VenueIds(p: Params, n: nat, m: nat)
    requires p.workers > 0 && (n > 0 ==> p.levels > 0)
    ensures Ids(Venues(p, n, m)) == From(0, p.venues)
  {
  }

  lemma SizeFormula(p: Params)
    ensures Size(p) == p.venues + 2 * p.venues * p.levels + 2 * p.venues * p.levels * p.orders + p.makers
  {
    var c := p.venues * p.levels;
    assert Blocks(p) == 2 * c;
    assert Blocks(p) * (p.orders + 1) == (2 * c) * p.orders + 2 * c;
  }

  lemma {:induction false} BookSlots(p: Params, n: nat, j: nat)
    requires p.workers > 0 && p.levels > 0 && j < n
    ensures var at := j * (p.orders + 1);
      && |Books(p, n)| == n * (p.orders + 1) && 0 <= at && at + p.orders < |Books(p, n)|
      && (forall o | 0 <= o < p.orders :: Books(p, n)[at + o] == Orders(p, j, p.orders)[o])
      && Books(p, n)[at + p.orders] == LevelNode(p, j, p.orders)
  {
    hide *;
    var width := p.orders + 1;
    BooksLength(p, n - 1);
    NextBook(p, n);
    BookShape(p, n - 1);
    Times(n, width);
    if j < n - 1 {
      BookSlots(p, n - 1, j);
    }
  }

  lemma BookShape(p: Params, j: nat)
    requires p.workers > 0 && p.levels > 0
    ensures |Book(p, j)| == p.orders + 1 && Book(p, j)[p.orders] == LevelNode(p, j, p.orders)
    ensures forall o | 0 <= o < p.orders :: Book(p, j)[o] == Orders(p, j, p.orders)[o]
  {
  }

  lemma {:induction false} BooksLength(p: Params, n: nat)
    requires p.workers > 0 && (n > 0 ==> p.levels > 0)
    ensures |Books(p, n)| == n * (p.orders + 1)
  {
    if n > 0 {
      BooksLength(p, n - 1);
      var width := p.orders + 1;
      assert n * width == (n - 1) * width + width;
    }
  }

  /** Slot i holds identifier i for every venue and every market maker. */
  lemma {:induction false} SlotIsId(p: Params, i: nat)
    requires p.workers > 0 && (i < p.venues || MakerId(p, 0) <= i < Size(p))
    ensures i < |Graph(p)| && Graph(p)[i].id == i
  {
    hide Blocks;
    SomeLevels(p);
    BooksLength(p, Blocks(p));
    if i >= MakerId(p, 0) {
      MakerIds(p, p.makers);
      assert Ids(Makers(p, p.makers))[i - MakerId(p, 0)] == i;
    }
  }

  lemma GraphAtBook(p: Params, k: nat)
    requires p.workers > 0 && (Blocks(p) > 0 ==> p.levels > 0) && k < |Books(p, Blocks(p))|
    ensures p.venues + k < |Graph(p)| && Graph(p)[p.venues + k] == Books(p, Blocks(p))[k]
  {
    hide Blocks, Books;
  }

  lemma OrderAt(p: Params, j: nat, o: nat)
    requires p.workers > 0 && p.levels > 0 && o < p.orders
    ensures Orders(p, j, p.orders)[o].id == LevelId(p, j) + 1 + o
  {
    hide LevelId, Orders;
    OrderIds(p, j, p.orders);
    assert Ids(Orders(p, j, p.orders))[o] == LevelId(p, j) + 1 + o;
  }

  /** In a book each order stands one slot early, and the level, whose identifier comes first, last. */
  lemma {:induction false} BookSlotIds(p: Params, j: nat, o: nat)
    requires p.workers > 0 && j < Blocks(p) && o <= p.orders
    ensures var i := LevelId(p, j) + o;
      i < |Graph(p)| && Graph(p)[i].id == if o < p.orders then i + 1 else i - p.orders
  {
    SomeLevels(p);
    hide Blocks, Graph, Books, Orders;
    BookSlots(p, Blocks(p), j);
    GraphAtBook(p, j * (p.orders + 1) + o);
    if o < p.orders {
      OrderAt(p, j, o);
    }
  }

  // ----- edges are counted

  lemma {:induction false} EdgeCountConcat(s: seq<Node>, t: seq<Node>)
    ensures EdgeCount(s + t) == EdgeCount(s) + EdgeCount(t)
  {
    if t == [] {
      assert s + t == s;
    } else {
      assert (s + t)[..|s + t| - 1] == s + t[..|t| - 1];
      EdgeCountConcat(s, t[..|t| - 1]);
    }
  }

  lemma {:induction false} EdgeCountLinked(s: seq<Node>, v: nat, e: Edge)
    requires v < |s|
    ensures EdgeCount(s[v := s[v].(edges := s[v].edges + [e])]) == EdgeCount(s) + 1
  {
    var linked := s[v := s[v].(edges := s[v].edges + [e])];
    if v < |s| - 1 {
      EdgeCountLinked(s[..|s| - 1], v, e);
      assert linked[..|s| - 1] == s[..|s| - 1][v := s[v].(edges := s[v].edges + [e])];
    } else {
      assert linked[..|s| - 1] == s[..|s| - 1];
    }
  }

  lemma {:induction false} NoEdges(s: seq<Node>)
    requires forall x | x in s :: x.edges == []
    ensures EdgeCount(s) == 0
  {
    if s != [] {
      NoEdges(s[..|s| - 1]);
    }
  }

  lemma {:induction false} VenueOfBound(p: Params, j: nat, venues: nat)
    requires p.levels > 0 && j < venues * (2 * p.levels)
    ensures VenueOf(p, j) < venues
  {
    var width := 2 * p.levels;
    if j >= width {
      assert venues * width == (venues - 1) * width + width;
      VenueOfBound(p, j - width, venues - 1);
    }
  }

  lemma NoLinks(p: Params)
    requires p.workers > 0
    ensures EdgeCount(Venues(p, 0, 0)) == 0
  {
    forall x | x in Venues(p, 0, 0) ensures x.edges == [] {
      assert LevelEdges(p, x.id, 0) + MakerEdges(p, 0) == [];
    }
    NoEdges(Venues(p, 0, 0));
  }

  lemma BlockHasVenue(p: Params, j: nat)
    requires p.levels > 0 && j < Blocks(p)
    ensures VenueOf(p, j) < p.venues
  {
    VenueOfBound(p, j, p.venues);
  }

  lemma {:induction false} VenueLevelEdges(p: Params, n: nat)
    requires p.workers > 0 && n <= Blocks(p) && (n > 0 ==> p.levels > 0)
    ensures EdgeCount(Venues(p, n, 0)) == n
  {
    hide *;
    if n == 0 {
      NoLinks(p);
    } else {
      BlockHasVenue(p, n - 1);
      VenueLevelEdges(p, n - 1);
      var s, v := Venues(p, n - 1, 0), VenueOf(p, n - 1);
      LinkLevel(p, n - 1, [], v);
      assert s + [] == s && Venues(p, n, 0) + [] == Venues(p, n, 0);
      EdgeCountLinked(s, v, Edge(LevelId(p, n - 1), 0));
    }
  }

  lemma {:induction false} VenueMakerEdges(p: Params, m: nat, v: nat)
    requires p.workers > 0 && v <= p.venues && (Blocks(p) > 0 ==> p.levels > 0)
    ensures EdgeCount(Linking(p, Blocks(p), m, v)) == Blocks(p) + m * p.venues + v
    decreases m, v
  {
    var b := Blocks(p);
    if v > 0 {
      VenueMakerEdges(p, m, v - 1);
      var s := Linking(p, b, m, v - 1);
      LinkMaker(p, b, m, v - 1, []);
      assert s + [] == s && Linking(p, b, m, v) + [] == Linking(p, b, m, v);
      EdgeCountLinked(s, v - 1, Edge(MakerId(p, m), 3));
    } else if m > 0 {
      VenueMakerEdges(p, m - 1, p.venues);
      assert Linking(p, b, m, 0) == Linking(p, b, m - 1, p.venues);
      assert m * p.venues == (m - 1) * p.venues + p.venues;
    } else {
      assert Linking(p, b, 0, 0) == Venues(p, b, 0);
      VenueLevelEdges(p, b);
    }
  }

  lemma {:induction false} OrderEdgeCount(p: Params, j: nat, o: nat)
    requires p.workers > 0 && p.levels > 0
    ensures EdgeCount(Orders(p, j, o)) == o && |OrderEdges(p, j, o)| == o
  {
    if o > 0 {
      OrderEdgeCount(p, j, o - 1);
    }
  }

  /** The edges of one level and its orders. */
  function BookWidth(p: Params): nat {
    1 + 2 * p.orders
  }

  lemma OneBookEdges(p: Params, j: nat)
    requires p.workers > 0 && p.levels > 0
    ensures EdgeCount(Book(p, j)) == BookWidth(p)
  {
    hide LevelId, VenueOf, Orders;
    OrderEdgeCount(p, j, p.orders);
    assert Book(p, j)[..p.orders] == Orders(p, j, p.orders);
  }

  lemma NoBooks(p: Params)
    requires p.workers > 0
    ensures EdgeCount(Books(p, 0)) == 0
  {
    assert Books(p, 0) == [];
  }

  lemma NextBook(p: Params, n: nat)
    requires p.workers > 0 && n > 0 && p.levels > 0
    ensures Books(p, n) == Books(p, n - 1) + Book(p, n - 1)
  {
  }

  lemma {:induction false} BookEdgeCount(p: Params, n: nat)
    requires p.workers > 0 && (n > 0 ==> p.levels > 0)
    ensures EdgeCount(Books(p, n)) == n * BookWidth(p)
  {
    hide *;
    if n == 0 {
      NoBooks(p);
    } else {
      BookEdgeCount(p, n - 1);
      OneBookEdges(p, n - 1);
      EdgeCountConcat(Books(p, n - 1), Book(p, n - 1));
      NextBook(p, n);
      Times(n, BookWidth(p));
    }
  }

  lemma {:induction false} VenueEdgesLength(n: nat)
    ensures |VenueEdges(n)| == n
  {
    if n > 0 {
      VenueEdgesLength(n - 1);
    }
  }

  lemma {:induction false} SampledEdgesLength(p: Params, k: nat, n: nat)
    requires n > 0 ==> Blocks(p) > 0
    ensures |SampledEdges(p, k, n)| == n
  {
    if n > 0 {
      SampledEdgesLength(p, k, n - 1);
    }
  }

  lemma SomeSampled(p: Params)
    ensures Sampled(p) > 0 ==> Blocks(p) > 0
  {
  }

  lemma Times(n: nat, width: nat)
    requires n > 0
    ensures n * width == (n - 1) * width + width
  {
  }

  lemma {:induction false} MakerEdgeCount(p: Params, m: nat)
    requires p.workers > 0
    ensures EdgeCount(Makers(p, m)) == m * MakerWidth(p)
  {
    if m > 0 {
      hide MakerWidth;
      MakerEdgeCount(p, m - 1);
      OneMakerEdges(p, m - 1);
      Times(m, MakerWidth(p));
    }
  }

  function MakerWidth(p: Params): nat {
    p.venues + Sampled(p)
  }

  lemma OneMakerEdges(p: Params, k: nat)
    requires p.workers > 0
    ensures |MakerNode(p, k).edges| == MakerWidth(p)
  {
    hide Sampled, LevelId;
    SomeSampled(p);
    VenueEdgesLength(p.venues);
    SampledEdgesLength(p, k, Sampled(p));
  }

  /** The counter the builder keeps is the number of edges there are. */
  lemma {:induction false} TotalEdgesIsEdgeCount(p: Params)
    requires p.workers > 0
    ensures EdgeCount(Graph(p))
         == 4 * p.venues * p.levels + 4 * p.venues * p.levels * p.orders + p.makers * (2 * p.venues + Sampled(p))
  {
    hide Venues, Books, Makers, Linking, Sampled, EdgeCount, Blocks;
    var b := Blocks(p);
    SomeLevels(p);
    var venues, books, makers := Venues(p, b, p.makers), Books(p, b), Makers(p, p.makers);
    EdgeCountConcat(venues, books);
    EdgeCountConcat(venues + books, makers);
    SameVenues(p, b, p.makers);
    VenueMakerEdges(p, p.makers, 0);
    BookEdgeCount(p, b);
    MakerEdgeCount(p, p.makers);
    Totals(p);
    Distribute(b, 1, 1 + 2 * p.orders);
    Distribute(p.makers, p.venues, p.venues + Sampled(p));
  }

  lemma Distribute(x: nat, y: nat, z: nat)
    ensures x * y + x * z == x * (y + z)
  {
  }

  lemma SameVenues(p: Params, n: nat, m: nat)
    requires p.workers > 0 && (n > 0 ==> p.levels > 0)
    ensures Linking(p, n, m, 0) == Venues(p, n, m)
  {
  }

  // ----- links

  /** A vertex of the graph, by what it is. */
  datatype Spot = AtVenue(v: nat) | AtLevel(j: nat) | AtOrder(j: nat, o: nat) | AtMaker(k: nat)

  predicate Valid(p: Params, x: Spot) {
    match x
    case AtVenue(v) => v < p.venues
    case AtLevel(j) => j < Blocks(p)
    case AtOrder(j, o) => j < Blocks(p) && o < p.orders
    case AtMaker(k) => k < p.makers
  }

  function NodeAt(p: Params, x: Spot): Node
    requires p.workers > 0 && (Blocks(p) > 0 ==> p.levels > 0) && Valid(p, x)
  {
    match x
    case AtVenue(v) => VenueNode(p, v, Blocks(p), p.makers)
    case AtLevel(j) => LevelNode(p, j, p.orders)
    case AtOrder(j, o) => OrderNode(p, j, o)
    case AtMaker(k) => MakerNode(p, k)
  }

  lemma Wider(i: nat, j: nat, width: nat)
    requires i < j
    ensures i * width + width <= j * width
  {
    assert j * width == i * width + (j - i) * width;
    assert (j - i) * width == width + (j - i - 1) * width;
  }

  /** Blocks of identifiers do not overlap. */
  lemma BlocksApart(p: Params, i: nat, a: nat, j: nat, b: nat)
    requires LevelId(p, i) + a == LevelId(p, j) + b && a <= p.orders && b <= p.orders
    ensures i == j && a == b
  {
    if i < j {
      Wider(i, j, p.orders + 1);
    } else if j < i {
      Wider(j, i, p.orders + 1);
    }
  }

  lemma {:induction false} InOrders(p: Params, j: nat, o: nat, x: Node)
    requires p.workers > 0 && p.levels > 0
    ensures x in Orders(p, j, o) <==> exists i: nat :: i < o && x == OrderNode(p, j, i)
  {
    if o > 0 {
      InOrders(p, j, o - 1, x);
    }
  }

  ghost predicate InBook(p: Params, j: nat, x: Node)
    requires p.workers > 0 && p.levels > 0
  {
    x == LevelNode(p, j, p.orders) || exists i: nat :: i < p.orders && x == OrderNode(p, j, i)
  }

  lemma {:induction false} InBooks(p: Params, n: nat, x: Node)
    requires p.workers > 0 && (n > 0 ==> p.levels > 0)
    ensures x in Books(p, n) <==> exists j: nat :: j < n && InBook(p, j, x)
  {
    hide InBook;
    if n > 0 {
      InBooks(p, n - 1, x);
      InLastBook(p, n, x);
    }
  }

  lemma {:induction false} InLastBook(p: Params, n: nat, x: Node)
    requires p.workers > 0 && n > 0 && p.levels > 0
    ensures x in Books(p, n) <==> x in Books(p, n - 1) || InBook(p, n - 1, x)
  {
    hide LevelNode, OrderNode, Orders;
    InOrders(p, n - 1, p.orders, x);
  }

  lemma {:induction false} InMakers(p: Params, m: nat, x: Node)
    requires p.workers > 0
    ensures x in Makers(p, m) <==> exists k: nat :: k < m && x == MakerNode(p, k)
  {
    if m > 0 {
      InMakers(p, m - 1, x);
    }
  }

  /** The vertices of the graph are exactly those of its spots. */
  lemma {:induction false} InGraph(p: Params, x: Spot)
    requires p.workers > 0 && (Blocks(p) > 0 ==> p.levels > 0) && Valid(p, x)
    ensures NodeAt(p, x) in Graph(p)
  {
    var node := NodeAt(p, x);
    InBooks(p, Blocks(p), node);
    InMakers(p, p.makers, node);
    match x {
      case AtVenue(v) => assert Venues(p, Blocks(p), p.makers)[v] == node;
      case AtLevel(j) => assert InBook(p, j, node);
      case AtOrder(j, o) => assert InBook(p, j, node);
      case AtMaker(k) =>
    }
  }

  lemma {:induction false} SpotOf(p: Params, node: Node) returns (x: Spot)
    requires p.workers > 0 && (Blocks(p) > 0 ==> p.levels > 0) && node in Graph(p)
    ensures Valid(p, x) && node == NodeAt(p, x)
  {
    hide VenueNode, LevelNode, OrderNode, MakerNode, Blocks;
    InBooks(p, Blocks(p), node);
    InMakers(p, p.makers, node);
    if node in Venues(p, Blocks(p), p.makers) {
      var v :| 0 <= v < p.venues && Venues(p, Blocks(p), p.makers)[v] == node;
      x := AtVenue(v);
    } else if node in Books(p, Blocks(p)) {
      var j: nat :| j < Blocks(p) && InBook(p, j, node);
      if node == LevelNode(p, j, p.orders) {
        x := AtLevel(j);
      } else {
        var o: nat :| o < p.orders && node == OrderNode(p, j, o);
        x := AtOrder(j, o);
      }
    } else {
      var k: nat :| k < p.makers && node == MakerNode(p, k);
      x := AtMaker(k);
    }
  }

  lemma {:induction false} InLevelEdges(p: Params, v: VertexId, n: nat, e: Edge)
    requires n > 0 ==> p.levels > 0
    ensures e in LevelEdges(p, v, n) <==> exists j: nat :: j < n && VenueOf(p, j) == v && e == Edge(LevelId(p, j), 0)
  {
    if n > 0 {
      InLevelEdges(p, v, n - 1, e);
    }
  }

  lemma {:induction false} InMakerEdges(p: Params, m: nat, e: Edge)
    ensures e in MakerEdges(p, m) <==> exists k: nat :: k < m && e == Edge(MakerId(p, k), 3)
  {
    if m > 0 {
      InMakerEdges(p, m - 1, e);
    }
  }

  lemma {:induction false} InOrderEdges(p: Params, j: nat, n: nat, e: Edge)
    ensures e in OrderEdges(p, j, n) <==> exists o: nat :: o < n && e == Edge(OrderId(p, j, o), 1)
  {
    if n > 0 {
      InOrderEdges(p, j, n - 1, e);
    }
  }

  lemma {:induction false} InVenueEdges(n: nat, e: Edge)
    ensures e in VenueEdges(n) <==> e.dst < n && e.kind == 0
  {
    if n > 0 {
      InVenueEdges(n - 1, e);
    }
  }

  lemma {:induction false} InSampledEdges(p: Params, k: nat, n: nat, e: Edge)
    requires n > 0 ==> Blocks(p) > 0
    ensures e in SampledEdges(p, k, n) ==> exists j: nat :: j < Blocks(p) && e == Edge(LevelId(p, j), 2)
  {
    if n > 0 {
      InSampledEdges(p, k, n - 1, e);
      if e == Edge(LevelId(p, p.draws.sample(k, n - 1) % Blocks(p)), 2) {
        var j: nat := p.draws.sample(k, n - 1) % Blocks(p);
        assert j < Blocks(p) && e == Edge(LevelId(p, j), 2);
      }
    }
  }

  /** Where an edge of a vertex leads; only for a sampled edge is there a choice. */
  predicate Leads(p: Params, x: Spot, e: Edge, y: Spot) {
    match (x, y)
    case (AtOrder(j, o), AtLevel(i)) => i == j && e == Edge(LevelId(p, j), 0)
    case (AtLevel(j), AtOrder(i, o)) => i == j && e == Edge(OrderId(p, j, o), 1)
    case (AtLevel(j), AtVenue(v)) => p.levels > 0 && v == VenueOf(p, j) && e == Edge(v, 2)
    case (AtVenue(v), AtLevel(j)) => p.levels > 0 && v == VenueOf(p, j) && e == Edge(LevelId(p, j), 0)
    case (AtVenue(v), AtMaker(k)) => e == Edge(MakerId(p, k), 3)
    case (AtMaker(k), AtVenue(v)) => e == Edge(v, 0)
    case (AtMaker(k), AtLevel(j)) => e == Edge(LevelId(p, j), 2)
    case _ => false
  }

  predicate IsSample(x: Spot, e: Edge) {
    x.AtMaker? && e.kind == 2
  }

  lemma {:induction false} EdgesOfVenue(p: Params, v: nat, e: Edge) returns (y: Spot)
    requires p.workers > 0 && (Blocks(p) > 0 ==> p.levels > 0) && v < p.venues
    requires e in VenueNode(p, v, Blocks(p), p.makers).edges
    ensures Valid(p, y) && Leads(p, AtVenue(v), e, y)
  {
    InLevelEdges(p, v, Blocks(p), e);
    InMakerEdges(p, p.makers, e);
    if e in LevelEdges(p, v, Blocks(p)) {
      var j: nat :| j < Blocks(p) && VenueOf(p, j) == v && e == Edge(LevelId(p, j), 0);
      y := AtLevel(j);
    } else {
      var k: nat :| k < p.makers && e == Edge(MakerId(p, k), 3);
      y := AtMaker(k);
    }
  }

  lemma {:induction false} EdgesOfLevel(p: Params, j: nat, e: Edge) returns (y: Spot)
    requires p.workers > 0 && p.levels > 0 && j < Blocks(p) && e in LevelNode(p, j, p.orders).edges
    ensures Valid(p, y) && Leads(p, AtLevel(j), e, y)
  {
    InOrderEdges(p, j, p.orders, e);
    VenueOfBound(p, j, p.venues);
    if e in OrderEdges(p, j, p.orders) {
      var o: nat :| o < p.orders && e == Edge(OrderId(p, j, o), 1);
      y := AtOrder(j, o);
    } else {
      y := AtVenue(VenueOf(p, j));
    }
  }

  lemma {:induction false} EdgesOfMaker(p: Params, k: nat, e: Edge) returns (y: Spot)
    requires p.workers > 0 && k < p.makers && e in MakerNode(p, k).edges
    ensures Valid(p, y) && Leads(p, AtMaker(k), e, y)
  {
    InVenueEdges(p.venues, e);
    SomeSampled(p);
    InSampledEdges(p, k, Sampled(p), e);
    if e in VenueEdges(p.venues) {
      y := AtVenue(e.dst);
    } else {
      var j: nat :| j < Blocks(p) && e == Edge(LevelId(p, j), 2);
      y := AtLevel(j);
    }
  }

  /** Every edge leads to a vertex of the graph of the right kind, and back, unless it is a maker's sample. */
  lemma {:induction false} LinksBothWays(p: Params, x: Spot, e: Edge) returns (y: Spot)
    requires p.workers > 0 && (Blocks(p) > 0 ==> p.levels > 0) && Valid(p, x) && e in NodeAt(p, x).edges
    ensures Valid(p, y) && Leads(p, x, e, y) && e.dst == NodeAt(p, y).id
    ensures !IsSample(x, e) ==> exists back :: back in NodeAt(p, y).edges && Leads(p, y, back, x)
  {
    match x {
      case AtVenue(v) => y := EdgesOfVenue(p, v, e);
      case AtLevel(j) => y := EdgesOfLevel(p, j, e);
      case AtOrder(j, o) => y := AtLevel(j);
      case AtMaker(k) => y := EdgesOfMaker(p, k, e);
    }
    if !IsSample(x, e) {
      WayBack(p, x, e, y);
    }
  }

  /** The edge the builder adds in the other direction. */
  function Back(p: Params, x: Spot, y: Spot): Edge
    requires p.levels > 0 || !x.AtLevel?
  {
    match x
    case AtVenue(v) => if y.AtLevel? then Edge(v, 2) else Edge(v, 0)
    case AtLevel(j) => Edge(LevelId(p, j), 0)
    case AtOrder(j, o) => Edge(OrderId(p, j, o), 1)
    case AtMaker(k) => Edge(MakerId(p, k), 3)
  }

  lemma {:induction false} WayBack(p: Params, x: Spot, e: Edge, y: Spot)
    requires p.workers > 0 && (Blocks(p) > 0 ==> p.levels > 0)
    requires Valid(p, x) && Valid(p, y) && Leads(p, x, e, y) && !IsSample(x, e)
    ensures Back(p, x, y) in NodeAt(p, y).edges && Leads(p, y, Back(p, x, y), x)
  {
    var back := Back(p, x, y);
    match y {
      case AtVenue(v) =>
        InLevelEdges(p, v, Blocks(p), back);
        InMakerEdges(p, p.makers, back);
      case AtLevel(j) => InOrderEdges(p, j, p.orders, back);
      case AtOrder(j, o) =>
      case AtMaker(k) => InVenueEdges(p.venues, back);
    }
  }

  lemma {:induction false} IdsInRange(p: Params, x: Node)
    requires p.workers > 0 && x in Graph(p)
    ensures x.id < Size(p)
  {
    hide Graph, Size;
    IdsArePermutation(p);
    var i :| 0 <= i < |Graph(p)| && Graph(p)[i] == x;
    assert Ids(Graph(p))[i] == x.id;
    assert x.id in multiset(From(0, Size(p)));
  }

  /** No edge dangles: its target is the identifier of a vertex of the graph, below n. */
  lemma {:induction false} TargetsExist(p: Params, x: Node, e: Edge)
    requires p.workers > 0 && x in Graph(p) && e in x.edges
    ensures e.dst < Size(p) && exists y :: y in Graph(p) && y.id == e.dst
  {
    SomeLevels(p);
    hide Graph, Size, NodeAt;
    var at := SpotOf(p, x);
    var y := LinksBothWays(p, at, e);
    InGraph(p, y);
    IdsInRange(p, NodeAt(p, y));
  }

  // ----- the world the engine starts from

  function LocalOf(x: Node): Local {
    match x.state
    case IsVenue(u) => AVenue(x.edges, u)
    case IsLevel(l) => ALevel(x.edges, l)
    case IsOrder(o) => AnOrder(x.edges, o)
    case IsMaker(k) => AMaker(x.edges, k)
  }

  /** The world holds the vertices of the graph as the builder leaves them: awake, and with nothing to send. */
  ghost predicate Loaded(p: Params, w: World<Local>)
    requires p.workers > 0
  {
    && (forall x | x in Graph(p) :: x.id in w.vertices && w.vertices[x.id] == VertexState(false, [], LocalOf(x)))
    && (forall v | v in w.vertices :: exists x :: x in Graph(p) && x.id == v)
    && w.mail == [] && w.unclaimed == map[]
  }

  lemma {:induction false} LoadedAt(p: Params, w: World<Local>, v: VertexId) returns (at: Spot)
    requires p.workers > 0 && (Blocks(p) > 0 ==> p.levels > 0) && Loaded(p, w) && v in w.vertices
    ensures Valid(p, at) && v == NodeAt(p, at).id && w.vertices[v] == VertexState(false, [], LocalOf(NodeAt(p, at)))
  {
    hide Graph, LocalOf, NodeAt;
    var x :| x in Graph(p) && x.id == v;
    at := SpotOf(p, x);
  }

  lemma {:induction false} SpotLoaded(p: Params, w: World<Local>, at: Spot)
    requires p.workers > 0 && (Blocks(p) > 0 ==> p.levels > 0) && Loaded(p, w) && Valid(p, at)
    ensures var x := NodeAt(p, at); x.id in w.vertices && w.vertices[x.id] == VertexState(false, [], LocalOf(x))
  {
    hide Graph, LocalOf, NodeAt;
    InGraph(p, at);
  }

  /** In a built book every order's one edge leads to a price level, which is what BookRuns builds on. */
  lemma {:induction false} BuiltBookIsWired(p: Params, w: World<Local>)
    requires p.workers > 0 && Loaded(p, w)
    ensures Wired(w) && SingleEdged(w)
  {
    SomeLevels(p);
    hide Loaded, Graph;
    forall v | v in w.vertices && w.vertices[v].local.AnOrder?
      ensures |w.vertices[v].local.edges| <= 1
      ensures forall e | e in w.vertices[v].local.edges :: BookRuns.IsLevel(w, e.dst)
    {
      var at := LoadedAt(p, w, v);
      SpotLoaded(p, w, AtLevel(at.j));
    }
  }

  /** No price level leads to a market maker: its edges go to its venue and its orders. */
  lemma {:induction false} MakersHearVenuesOnly(p: Params, w: World<Local>)
    requires p.workers > 0 && Loaded(p, w)
    ensures QuotedByVenues(w)
  {
    SomeLevels(p);
    hide Loaded, Graph;
    forall v, e | v in w.vertices && w.vertices[v].local.ALevel? && e in w.vertices[v].local.edges
      ensures !MakerAt(w, e.dst)
    {
      var at := LoadedAt(p, w, v);
      var y := LinksBothWays(p, at, e);
      SpotLoaded(p, w, y);
    }
  }

  /** A built book satisfies what the run theorems ask of their start. */
  lemma {:induction false} BuiltBookIsFresh(p: Params, w: World<Local>)
    requires p.workers > 0 && Loaded(p, w)
    ensures OutboxesEmpty(w) && NoBacklog(w) && w.mail == []
    ensures AllGood(w, Settles) && WithinLimits(w) && StartsCalm(w)
  {
    SomeLevels(p);
    hide Loaded, Graph;
    forall v | v in w.vertices
      ensures w.vertices[v].outbox == [] && Settles(w.vertices[v].local)
      ensures w.vertices[v].local.AMaker? ==> w.vertices[v].local.maker == Maker(0, 0, 0, 0, INVENTORY_LIMIT, 0, 0)
    {
      var at := LoadedAt(p, w, v);
    }
    LoadedMail(p, w);
  }

  lemma LoadedMail(p: Params, w: World<Local>)
    requires p.workers > 0 && Loaded(p, w)
    ensures w.mail == [] && w.unclaimed == map[]
  {
  }

  /** With quantities drawn from a range of positive numbers every built order has something to fill. */
  lemma {:induction false} BuiltOrdersAreSound(p: Params, w: World<Local>, v: VertexId)
    requires p.workers > 0 && Loaded(p, w) && v in w.vertices && w.vertices[v].local.AnOrder?
    requires forall id: VertexId, k: nat :: 0 < p.draws.quantity(id, k) < WORD
    ensures Sound(w.vertices[v].local.order)
  {
    SomeLevels(p);
    hide Loaded, Graph;
    var at := LoadedAt(p, w, v);
  }

  lemma {:induction false} BuiltIds(p: Params, w: World<Local>)
    requires p.workers > 0 && Loaded(p, w)
    ensures forall v | v in w.vertices :: v < Size(p)
  {
    hide Graph, Size;
    forall v | v in w.vertices ensures v < Size(p) {
      var x :| x in Graph(p) && x.id == v;
      IdsInRange(p, x);
    }
  }

  /** In no run of a built book of fewer than 2^32 vertices is a trade identifier used twice. */
  lemma {:induction false} BuiltBookNumbersTradesOnce(
    p: Params, w: World<Local>, noise: (VertexId, Superstep) -> int, order: seq<VertexId>, n: nat)
    requires p.workers > 0 && Loaded(p, w) && Lists(order, w) && Size(p) <= HALF_WORD && n <= HALF_WORD
    ensures AllDistinct(TradeIds(History(BookProgram(noise), order, w, n)))
  {
    BuiltBookIsWired(p, w);
    BuiltBookIsFresh(p, w);
    BuiltIds(p, w);
    hide Graph, Loaded, SingleEdged, BookProgram, OutboxesEmpty, Size;
    RunNumbersDistinct(noise, order, w, n);
  }

  /** In any run of a built book in which every venue keeps quoting positive bids no market maker ever signals. */
  lemma {:induction false} BuiltBookHasNoArbitrage(
    p: Params, w: World<Local>, noise: (VertexId, Superstep) -> int, order: seq<VertexId>, n: nat)
    requires p.workers > 0 && Loaded(p, w)
    requires forall k | 0 < k <= n :: BidsPositive(Iterate(BookProgram(noise), order, w, 0, k))
    ensures Calm(w, Iterate(BookProgram(noise), order, w, 0, n))
  {
    hide *;
    BuiltBookIsWired(p, w);
    MakersHearVenuesOnly(p, w);
    BuiltBookIsFresh(p, w);
    NoArbitrageInBuiltBooks(w, noise, order, n);
  }

  /** In any run of a built book orders stay as they were built and no position moves. */
  lemma {:induction false} BuiltBookNeverTrades(
    p: Params, w: World<Local>, noise: (VertexId, Superstep) -> int, order: seq<VertexId>, n: nat)
    requires p.workers > 0 && Loaded(p, w)
    ensures Trading(w, Iterate(BookProgram(noise), order, w, 0, n))
  {
    hide Graph, Loaded, BookProgram, Trading, OutboxesEmpty, NoBacklog, Wired, SingleEdged;
    BuiltBookIsWired(p, w);
    BuiltBookIsFresh(p, w);
    OrdersNeverLearnOfTrades(w, noise, order, 0, n);
  }

  lemma {:induction false} BuiltVenueOpen(p: Params, w: World<Local>)
    requires p.workers > 0 && p.venues > 0 && Loaded(p, w)
    ensures OpenVenue(w, 0)
  {
    SomeLevels(p);
    hide Graph;
    SpotLoaded(p, w, AtVenue(0));
  }

  /** And if it has a venue, that venue is vertex 0, so the run never converges. */
  lemma {:induction false} BuiltBookNeverConverges(
    p: Params, w: World<Local>, noise: (VertexId, Superstep) -> int, order: seq<VertexId>, n: nat)
    requires p.workers > 0 && p.venues > 0 && Loaded(p, w)
    ensures Active(Iterate(BookProgram(noise), order, w, 0, n).vertices) != {}
  {
    hide Graph, Step, BookProgram, Loaded;
    BuiltVenueOpen(p, w);
    VenueStaysAwake(noise, order, w, 0, 0, n);
  }
}
