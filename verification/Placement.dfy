/** Which worker holds which vertex: initial distribution and takeover (graph_engine.cpp, worker_node.cpp). */
module Placement {
  import opened Messages
  import opened Bsp
  import opened Bus
  import opened Worker
  import opened BookRuns
  import opened GraphBuilder
  import opened GraphShape

  function VertexIds<S>(s: seq<Vertex<S>>): (r: seq<VertexId>)
    ensures |r| == |s|
  {
    seq(|s|, i requires 0 <= i < |s| => s[i].id)
  }

  /** The parts after the vertices of vs have gone to their owners. */
  function Distributed<S>(parts: seq<Part<S>>, overrides: map<VertexId, WorkerId>,
      vs: seq<Vertex<S>>): (r: seq<Part<S>>)
    requires |parts| > 0 && forall v | v in overrides :: overrides[v] < |parts|
    ensures |r| == |parts|
  {
    if vs == [] then parts
    else
      var r := Distributed(parts, overrides, vs[..|vs| - 1]);
      var x := vs[|vs| - 1];
      var w := Owner(overrides, |parts|, x.id);
      r[w := With(r[w], x)]
  }

  class Engine<S(!new)> {
    const workers: seq<WorkerNode<S>>
    ghost const all: set<WorkerNode<S>>
    const pmap: PartitionMap

    constructor (workers: seq<WorkerNode<S>>, pmap: PartitionMap)
      requires |workers| == pmap.workerCount && pmap.Valid()
      requires forall i, j | 0 <= i < j < |workers| :: workers[i] != workers[j]
      requires forall i | 0 <= i < |workers| :: Tidy(workers[i])
      ensures Valid() && this.workers == workers && this.pmap == pmap
      ensures all == set worker: WorkerNode<S> | worker in workers
    {
      this.workers, this.pmap := workers, pmap;
      all := set worker: WorkerNode<S> | worker in workers;
    }

    /** The worker's table has an iteration order and an owner for every vertex. */
    static ghost predicate Tidy(worker: WorkerNode<S>)
      reads worker
    {
      worker.owners.Keys == worker.vertices.Keys && Enumerates(worker.order, worker.vertices.Keys)
    }

    ghost predicate Valid()
      reads pmap, all
    {
      && |workers| == pmap.workerCount && pmap.Valid()
      && (forall i | 0 <= i < |workers| :: workers[i] in all)
      && (forall i, j | 0 <= i < j < |workers| :: workers[i] != workers[j])
      && forall i | 0 <= i < |workers| :: Tidy(workers[i])
    }

    ghost function Parts(): (r: seq<Part<S>>)
      requires Valid()
      reads pmap, all
      ensures |r| == |workers| && forall i | 0 <= i < |r| :: r[i] == workers[i].Part()
    {
      seq(|workers|, i requires 0 <= i < |workers| && Valid() reads all, pmap => workers[i].Part())
    }

    /** Moves every vertex to its owner; the source vector ends up empty. */
    method DistributeVertices(vertices: seq<Vertex<S>>, hashing: Hashing) returns (left: seq<Vertex<S>>)
      requires Valid() && Iterates(hashing)
      modifies set worker | worker in all :: worker`vertices
      modifies set worker | worker in all :: worker`owners
      modifies set worker | worker in all :: worker`order
      ensures Valid() && left == []
      ensures Parts() == Distributed(old(Parts()), pmap.overrides, vertices)
    {
      hide Enumerates;
      for i := 0 to |vertices|
        invariant Valid() && Parts() == Distributed(old(Parts()), pmap.overrides, vertices[..i])
      {
        assert vertices[..i + 1][..i] == vertices[..i];
        ghost var before := Parts();
        var owner := pmap.OwnerOf(vertices[i].id);
        workers[owner].AddVertex(vertices[i], hashing, i);
        assert Parts() == before[owner := With(before[owner], vertices[i])];
      }
      assert vertices[..|vertices|] == vertices;
      left := [];
    }
  }

  // ----- who holds what after distribution

  function NoParts<S>(n: nat): (r: seq<Part<S>>)
    ensures |r| == n
  {
    seq(n, i => map[])
  }

  /** A worker holds exactly the vertices it owns. */
  lemma {:induction false} HoldsWhatItOwns<S(!new)>(
    n: nat, overrides: map<VertexId, WorkerId>, vs: seq<Vertex<S>>, w: WorkerId, v: VertexId)
    requires w < n && forall u | u in overrides :: overrides[u] < n
    ensures var part: Part<S> := Distributed(NoParts(n), overrides, vs)[w];
      && (v in part <==> v in VertexIds(vs) && Owner(overrides, n, v) == w)
      && (v in part ==> part[v] in vs && part[v].id == v)
  {
    if vs != [] {
      var front, x := vs[..|vs| - 1], vs[|vs| - 1];
      HoldsWhatItOwns(n, overrides, front, w, v);
      assert vs == front + [x] && VertexIds(vs) == VertexIds(front) + [x.id];
    }
  }

  /** The identifiers below n that leave the remainder w. */
  function Residues(n: nat, workers: nat, w: nat): set<nat>
    requires workers > 0
  {
    if n == 0 then {} else Residues(n - 1, workers, w) + if (n - 1) % workers == w then {n - 1} else {}
  }

  lemma {:induction false} InResidues(n: nat, workers: nat, w: nat, v: nat)
    requires workers > 0
    ensures v in Residues(n, workers, w) <==> v < n && v % workers == w
  {
    if n > 0 {
      InResidues(n - 1, workers, w, v);
    }
  }

  lemma DivMod(n: nat, d: nat, q: nat, r: nat)
    requires r < d && n == q * d + r
    ensures n / d == q && n % d == r
  {
    var other, rest := n / d, n % d;
    assert n == other * d + rest;
    Unique(d, q, r, other, rest);
  }

  lemma Unique(d: nat, q: nat, r: nat, other: nat, rest: nat)
    requires r < d && rest < d && q * d + r == other * d + rest
    ensures q == other && r == rest
  {
    Gap(d, q, other);
    Gap(d, other, q);
  }

  lemma {:induction false} Gap(d: nat, x: nat, y: nat)
    ensures x < y ==> y * d >= x * d + d
  {
    if x < y {
      assert y * d == x * d + (y - x) * d;
      Positive(y - x, d);
    }
  }

  lemma Positive(n: nat, d: nat)
    requires n > 0
    ensures n * d >= d
  {
  }

  lemma NextResidues(n: nat, workers: nat, w: nat)
    requires n > 0 && workers > 0
    ensures |Residues(n, workers, w)| == |Residues(n - 1, workers, w)| + if (n - 1) % workers == w then 1 else 0
  {
    InResidues(n - 1, workers, w, n - 1);
  }

  lemma {:induction false} CountResidues(n: nat, workers: nat, w: nat, q: nat, r: nat)
    requires w < workers && r < workers && n == q * workers + r
    ensures |Residues(n, workers, w)| == q + if r > w then 1 else 0
    decreases n
  {
    hide Residues;
    if n > 0 {
      NextResidues(n, workers, w);
      if r > 0 {
        DivMod(n - 1, workers, q, r - 1);
        CountResidues(n - 1, workers, w, q, r - 1);
      } else {
        Borrow(q, workers);
        DivMod(n - 1, workers, q - 1, workers - 1);
        CountResidues(n - 1, workers, w, q - 1, workers - 1);
      }
    } else {
      Nothing(q, workers, r);
      NoResidues(workers, w);
    }
  }

  lemma NoResidues(workers: nat, w: nat)
    requires workers > 0
    ensures |Residues(0, workers, w)| == 0
  {
  }

  lemma Borrow(q: nat, d: nat)
    requires q > 0
    ensures q * d == (q - 1) * d + d
  {
  }

  lemma Nothing(q: nat, d: nat, r: nat)
    requires d > 0 && q * d + r == 0
    ensures q == 0 && r == 0
  {
    if q > 0 {
      Borrow(q, d);
    }
  }

  /** What distribution makes of a vertex list numbered 0 to n - 1 with no overrides in force. */
  ghost predicate Numbered<S(!new)>(vs: seq<Vertex<S>>, n: nat) {
    multiset(VertexIds(vs)) == multiset(From(0, n))
  }

  lemma NumberedIds<S(!new)>(vs: seq<Vertex<S>>, n: nat, v: VertexId)
    requires Numbered(vs, n)
    ensures v in VertexIds(vs) <==> v < n
  {
    assert v in VertexIds(vs) <==> v in multiset(From(0, n));
    assert v in multiset(From(0, n)) <==> v in From(0, n);
    if v < n {
      assert From(0, n)[v] == v;
    }
  }

  /** Round up: n shared among workers, the share of worker w. */
  lemma Share(n: nat, workers: nat, w: nat)
    requires w < workers
    ensures (n + workers - 1 - w) / workers == n / workers + if n % workers > w then 1 else 0
  {
    var q, r := n / workers, n % workers;
    assert n == q * workers + r;
    Borrow(q + 1, workers);
    if r > w {
      DivMod(n + workers - 1 - w, workers, q + 1, r - 1 - w);
    } else {
      DivMod(n + workers - 1 - w, workers, q, r + workers - 1 - w);
    }
  }

  lemma {:induction false} PartIsResidues<S(!new)>(vs: seq<Vertex<S>>, n: nat, workers: nat, w: WorkerId)
    requires w < workers && Numbered(vs, n)
    ensures Distributed(NoParts(workers), map[], vs)[w].Keys == Residues(n, workers, w)
  {
    hide Distributed, Numbered, Ids, Residues;
    var part: Part<S> := Distributed(NoParts(workers), map[], vs)[w];
    forall v: VertexId ensures v in part.Keys <==> v in Residues(n, workers, w) {
      HoldsWhatItOwns(workers, map[], vs, w, v);
      NumberedIds(vs, n, v);
      InResidues(n, workers, w, v);
    }
  }

  lemma ShareOfResidues(n: nat, workers: nat, w: nat)
    requires w < workers
    ensures |Residues(n, workers, w)| == (n + workers - 1 - w) / workers
  {
    hide Residues;
    var q, r := n / workers, n % workers;
    assert n == q * workers + r;
    CountResidues(n, workers, w, q, r);
    Share(n, workers, w);
  }

  /** Worker w gets (n + W - 1 - w) / W of n vertices, so no two workers differ by more than one. */
  lemma {:induction false} Balanced<S(!new)>(vs: seq<Vertex<S>>, n: nat, workers: nat, w: WorkerId)
    requires w < workers && Numbered(vs, n)
    ensures |Distributed(NoParts(workers), map[], vs)[w]| == (n + workers - 1 - w) / workers
  {
    hide *;
    PartIsResidues(vs, n, workers, w);
    ShareOfResidues(n, workers, w);
    var part: Part<S> := Distributed(NoParts(workers), map[], vs)[w];
    assert |part| == |part.Keys|;
  }

  // ----- agreement about owners

  datatype Layout<S> = Layout(parts: seq<Part<S>>, overrides: map<VertexId, WorkerId>)

  predicate Known<S(!new)>(l: Layout<S>) {
    |l.parts| > 0 && forall v | v in l.overrides :: l.overrides[v] < |l.parts|
  }

  function OwnerIn<S(!new)>(l: Layout<S>, v: VertexId): (w: WorkerId)
    requires Known(l)
    ensures w < |l.parts|
  {
    Owner(l.overrides, |l.parts|, v)
  }

  /** If v is in worker w's map, it says so itself, and so does the partition map. */
  predicate Placed<S(!new)>(l: Layout<S>, w: WorkerId, v: VertexId)
    requires Known(l) && w < |l.parts|
  {
    v in l.parts[w] ==> l.parts[w][v].id == v && l.parts[w][v].owner == w && OwnerIn(l, v) == w
  }

  ghost predicate Agree<S(!new)>(l: Layout<S>) {
    Known(l) && forall w: WorkerId, v: VertexId | w < |l.parts| :: Placed(l, w, v)
  }

  /** Agreement leaves a vertex in one place only. */
  lemma {:induction false} OneHolder<S(!new)>(l: Layout<S>, v: VertexId, w: WorkerId, u: WorkerId)
    requires Agree(l) && w < |l.parts| && u < |l.parts| && v in l.parts[w] && v in l.parts[u]
    ensures w == u
  {
    assert Placed(l, w, v) && Placed(l, u, v);
  }

  predicate Present<S(!new)>(l: Layout<S>, v: VertexId)
    requires Known(l)
  {
    v in l.parts[OwnerIn(l, v)]
  }

  /** The built vertices as values to be moved: awake, with empty outboxes. */
  function Loadable(g: seq<Node>): (r: seq<Vertex<Local>>)
    ensures |r| == |g|
  {
    seq(|g|, i requires 0 <= i < |g| => Vertex(g[i].id, g[i].owner, VertexState(false, [], LocalOf(g[i]))))
  }

  lemma LoadableIds(g: seq<Node>)
    ensures VertexIds(Loadable(g)) == Ids(g)
    ensures forall x | x in Loadable(g) ::
      exists y :: y in g && x == Vertex(y.id, y.owner, VertexState(false, [], LocalOf(y)))
  {
    forall x | x in Loadable(g)
      ensures exists y :: y in g && x == Vertex(y.id, y.owner, VertexState(false, [], LocalOf(y)))
    {
      var i :| 0 <= i < |g| && Loadable(g)[i] == x;
      assert g[i] in g;
    }
  }

  /** The owner the builder gives a vertex is the one the partition map starts with. */
  lemma BuiltOwner(p: Params, x: Node)
    requires p.workers > 0 && x in Graph(p)
    ensures x.owner == Owner(map[], p.workers, x.id)
  {
    SomeLevels(p);
    hide Graph;
    var at := SpotOf(p, x);
  }

  /** x is vertex v of the graph as built, and belongs to w. */
  ghost predicate BuiltAt(p: Params, w: WorkerId, v: VertexId, x: Vertex<Local>)
    requires p.workers > 0
  {
    exists y :: y in Graph(p) && y.id == v && y.owner == w && x == Vertex(v, w, VertexState(false, [], LocalOf(y)))
  }

  /** Worker w's part of the built graph. */
  lemma {:induction false} BuiltPart(p: Params, w: WorkerId, v: VertexId)
    requires w < p.workers
    ensures var part := Distributed(NoParts(p.workers), map[], Loadable(Graph(p)))[w];
      && (v in part <==> v < Size(p) && Owner(map[], p.workers, v) == w)
      && (v in part ==> BuiltAt(p, w, v, part[v]))
  {
    hide Distributed, Graph, Ids, From, LocalOf, Loadable;
    var vs := Loadable(Graph(p));
    var part: Part<Local> := Distributed(NoParts(p.workers), map[], vs)[w];
    LoadableIds(Graph(p));
    IdsArePermutation(p);
    hide Size;
    NumberedIds(vs, Size(p), v);
    HoldsWhatItOwns(p.workers, map[], vs, w, v);
    if v in part {
      var y :| y in Graph(p) && part[v] == Vertex(y.id, y.owner, VertexState(false, [], LocalOf(y)));
      BuiltOwner(p, y);
    }
  }

  /** The built graph, distributed: everyone agrees, and every vertex is somewhere. */
  lemma {:induction false} DistributionAgrees(p: Params)
    requires p.workers > 0
    ensures var l := Layout(Distributed(NoParts(p.workers), map[], Loadable(Graph(p))), map[]);
      Agree(l) && forall v: VertexId :: Present(l, v) <==> v < Size(p)
  {
    hide Distributed, Graph, Size, LocalOf;
    var l := Layout(Distributed(NoParts(p.workers), map[], Loadable(Graph(p))), map[]);
    forall w: WorkerId, v: VertexId | w < p.workers ensures Placed(l, w, v) {
      BuiltPart(p, w, v);
    }
    forall v: VertexId ensures Present(l, v) <==> v < Size(p) {
      BuiltPart(p, OwnerIn(l, v), v);
    }
  }

  /** A takeover: the vertices of moved leave whoever holds them and worker to absorbs them. */
  function Handoff<S(!new)>(l: Layout<S>, moved: seq<Vertex<S>>, to: WorkerId): (r: Layout<S>)
    requires to < |l.parts|
    ensures |r.parts| == |l.parts|
  {
    Layout(
      seq(|l.parts|, w requires 0 <= w < |l.parts| =>
        if w == to then Absorbed(l.parts[w], w, moved) else Without(l.parts[w], moved)),
      Redirected(l.overrides, to, moved))
  }

  function Without<S(!new)>(part: Part<S>, moved: seq<Vertex<S>>): Part {
    map v | v in part && v !in VertexIds(moved) :: part[v]
  }

  /** The vertices of moved are in the cluster as they are. */
  ghost predicate Moves<S(!new)>(l: Layout<S>, moved: seq<Vertex<S>>, to: WorkerId) {
    && Known(l) && to < |l.parts|
    && forall x | x in moved :: Present(l, x.id) && l.parts[OwnerIn(l, x.id)][x.id] == x
  }

  lemma {:induction false} AbsorbedAt<S(!new)>(part: Part<S>, w: WorkerId, moved: seq<Vertex<S>>, v: VertexId)
    ensures v in Absorbed(part, w, moved) <==> v in part || v in VertexIds(moved)
    ensures v in VertexIds(moved) ==>
              exists x :: x in moved && x.id == v && Absorbed(part, w, moved)[v] == x.(owner := w)
    ensures v in part && v !in VertexIds(moved) ==> Absorbed(part, w, moved)[v] == part[v]
  {
    if moved != [] {
      var front, x := moved[..|moved| - 1], moved[|moved| - 1];
      AbsorbedAt(part, w, front, v);
      assert moved == front + [x] && VertexIds(moved) == VertexIds(front) + [x.id];
      assert x in moved;
    }
  }

  lemma {:induction false} RedirectedAt<S(!new)>(overrides: map<VertexId, WorkerId>, w: WorkerId,
      moved: seq<Vertex<S>>, v: VertexId)
    ensures v in VertexIds(moved) ==> v in Redirected(overrides, w, moved) && Redirected(overrides, w, moved)[v] == w
    ensures v !in VertexIds(moved) ==> (v in Redirected(overrides, w, moved) <==> v in overrides)
    ensures v !in VertexIds(moved) && v in overrides ==> Redirected(overrides, w, moved)[v] == overrides[v]
  {
    if moved != [] {
      var front, x := moved[..|moved| - 1], moved[|moved| - 1];
      RedirectedAt(overrides, w, front, v);
      assert VertexIds(moved) == VertexIds(front) + [x.id];
    }
  }

  /** Apart from its owner field, what the cluster holds under an identifier. */
  function Stored<S(!new)>(l: Layout<S>, v: VertexId): Vertex<S>
    requires Known(l) && Present(l, v)
  {
    l.parts[OwnerIn(l, v)][v].(owner := 0)
  }

  lemma OwnerAfterHandoff<S(!new)>(l: Layout<S>, moved: seq<Vertex<S>>, to: WorkerId, v: VertexId)
    requires Known(l) && to < |l.parts|
    ensures Known(Handoff(l, moved, to))
    ensures OwnerIn(Handoff(l, moved, to), v) == if v in VertexIds(moved) then to else OwnerIn(l, v)
  {
    var next := Handoff(l, moved, to);
    forall u | u in next.overrides ensures next.overrides[u] < |l.parts| {
      RedirectedAt(l.overrides, to, moved, u);
    }
    RedirectedAt(l.overrides, to, moved, v);
  }

  /** One takeover keeps the agreement, and neither loses, duplicates nor alters a vertex. */
  lemma {:induction false} HandoffKeeps<S(!new)>(l: Layout<S>, moved: seq<Vertex<S>>, to: WorkerId, v: VertexId)
    requires Agree(l) && Moves(l, moved, to)
    ensures Known(Handoff(l, moved, to))
    ensures forall w: WorkerId | w < |l.parts| :: Placed(Handoff(l, moved, to), w, v)
    ensures Present(Handoff(l, moved, to), v) <==> Present(l, v)
    ensures Present(l, v) ==> Stored(Handoff(l, moved, to), v) == Stored(l, v)
  {
    hide Absorbed, Redirected;
    OwnerAfterHandoff(l, moved, to, v);
    AbsorbedAt(l.parts[to], to, moved, v);
    var next := Handoff(l, moved, to);
    forall w: WorkerId | w < |l.parts| ensures Placed(next, w, v) {
      assert Placed(l, w, v);
      assert next.parts[w] == if w == to then Absorbed(l.parts[w], w, moved) else Without(l.parts[w], moved);
    }
    assert Placed(l, OwnerIn(l, v), v);
    if v in VertexIds(moved) {
      var i :| 0 <= i < |moved| && moved[i].id == v;
      assert moved[i] in moved;
    }
  }

  datatype Takeover<S> = Takeover(moved: seq<Vertex<S>>, to: WorkerId)

  ghost predicate Legal<S(!new)>(l: Layout<S>, moves: seq<Takeover<S>>)
    requires Known(l)
  {
    moves == [] || (
      var front, last := moves[..|moves| - 1], moves[|moves| - 1];
      Legal(l, front) && Moves(After(l, front), last.moved, last.to))
  }

  ghost function After<S(!new)>(l: Layout<S>, moves: seq<Takeover<S>>): (r: Layout<S>)
    requires Known(l)
    ensures |r.parts| == |l.parts|
  {
    if moves == [] then l
    else
      var front, last := moves[..|moves| - 1], moves[|moves| - 1];
      if last.to < |l.parts| then Handoff(After(l, front), last.moved, last.to) else After(l, front)
  }

  /** Both layouts hold the same vertices, owner fields apart. */
  ghost predicate SameGraph<S(!new)>(l: Layout<S>, m: Layout<S>)
    requires Known(l) && Known(m)
  {
    && (forall v: VertexId :: Present(l, v) <==> Present(m, v))
    && forall v: VertexId | Present(l, v) :: Stored(l, v) == Stored(m, v)
  }

  lemma {:induction false} HandoffAgrees<S(!new)>(l: Layout<S>, moved: seq<Vertex<S>>, to: WorkerId)
    requires Agree(l) && Moves(l, moved, to)
    ensures Agree(Handoff(l, moved, to)) && SameGraph(l, Handoff(l, moved, to))
  {
    hide Present, Stored, Handoff, Placed;
    OwnerAfterHandoff(l, moved, to, 0);
    var next := Handoff(l, moved, to);
    forall w: WorkerId, v: VertexId | w < |next.parts| ensures Placed(next, w, v) {
      HandoffKeeps(l, moved, to, v);
    }
    forall v: VertexId
      ensures Present(l, v) <==> Present(next, v)
      ensures Present(l, v) ==> Stored(l, v) == Stored(next, v)
    {
      HandoffKeeps(l, moved, to, v);
    }
  }

  /** Over any sequence of takeovers owners stay agreed upon and the graph stays the same. */
  lemma {:induction false} TakeoversKeep<S(!new)>(l: Layout<S>, moves: seq<Takeover<S>>)
    requires Agree(l) && Legal(l, moves)
    ensures Agree(After(l, moves)) && SameGraph(l, After(l, moves))
  {
    hide Handoff, Present, Stored;
    if moves != [] {
      var front, last := moves[..|moves| - 1], moves[|moves| - 1];
      TakeoversKeep(l, front);
      HandoffAgrees(After(l, front), last.moved, last.to);
    }
  }
}
