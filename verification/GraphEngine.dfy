/** The engine from graph to result: build, distribute, run (graph_engine.cpp), for one worker. */
module GraphEngine {
  import opened Messages
  import opened Rdma
  import opened Bsp
  import opened Bus
  import opened Worker
  import opened Coordinators
  import opened BookRuns
  import opened GraphBuilder
  import opened GraphShape
  import opened Placement

  /** Two vertices of the graph never share an identifier. */
  lemma {:induction false} IdsUnique(p: Params, x: Node, y: Node)
    requires p.workers > 0 && x in Graph(p) && y in Graph(p) && x.id == y.id
    ensures x == y
  {
    hide Graph, Size;
    IdsArePermutation(p);
    var i :| 0 <= i < |Graph(p)| && Graph(p)[i] == x;
    var j :| 0 <= j < |Graph(p)| && Graph(p)[j] == y;
    if i != j {
      CountedTwice(Ids(Graph(p)), i, j);
      CountedOnce(0, Size(p), x.id);
    }
  }

  lemma {:induction false} CountedTwice(s: seq<VertexId>, i: nat, j: nat)
    requires i < |s| && j < |s| && i != j && s[i] == s[j]
    ensures multiset(s)[s[i]] >= 2
  {
    var a, b := if i < j then i else j, if i < j then j else i;
    assert s == s[..a] + [s[a]] + (s[a + 1..b] + [s[b]] + s[b + 1..]);
  }

  lemma {:induction false} CountedOnce(a: nat, n: nat, v: nat)
    ensures multiset(From(a, n))[v] <= 1
  {
    if n > 0 {
      CountedOnce(a, n - 1, v);
      assert From(a, n) == From(a, n - 1) + [a + n - 1];
      if v == a + n - 1 {
        assert v !in From(a, n - 1);
        assert v !in multiset(From(a, n - 1));
      }
    }
  }

  /** A sole worker that holds its distributed part of the built graph, and no mail, holds the loaded world. */
  lemma {:induction false} PartIsLoaded(p: Params, w: World<Local>, part: Part<Local>)
    requires p.workers == 1 && part == Distributed(NoParts(1), map[], Loadable(Graph(p)))[0]
    requires w.vertices.Keys == part.Keys && (forall v | v in part :: w.vertices[v] == part[v].state)
    requires w.mail == [] && w.unclaimed == map[]
    ensures Loaded(p, w)
  {
    hide Distributed, Graph, Loadable, LocalOf, Size;
    forall x | x in Graph(p) ensures x.id in w.vertices && w.vertices[x.id] == VertexState(false, [], LocalOf(x)) {
      IdsInRange(p, x);
      BuiltPart(p, 0, x.id);
      var y :| y in Graph(p) && y.id == x.id && part[x.id] == Vertex(x.id, 0, VertexState(false, [], LocalOf(y)));
      IdsUnique(p, x, y);
    }
    forall v | v in w.vertices ensures exists x :: x in Graph(p) && x.id == v {
      BuiltPart(p, 0, v);
    }
  }

  /** An engine of one worker before its graph is loaded. */
  ghost predicate Idle(e: Engine<Local>, c: Coordinator<Local>)
    reads e.pmap, e.all, c.worker, c.worker.bus, c.worker.bus.pmap, c.worker.bus.Network()
  {
    && e.Valid() && |e.workers| == 1 && e.workers[0] == c.worker && e.pmap.overrides == map[]
    && c.worker.Valid() && c.worker.vertices == map[] && c.worker.vertexInbox == map[]
    && c.worker.bus.pmap == e.pmap && c.worker.bus.workerCount == 1
    && c.worker.bus.outboxes == NoBoxes(1) && c.worker.bus.inbox == []
  }

  lemma NothingHeld(e: Engine<Local>, c: Coordinator<Local>)
    requires Idle(e, c)
    ensures e.Parts() == NoParts(1)
  {
    assert e.Parts()[0] == c.worker.Part() == map[];
  }

  lemma NothingFlies(c: Coordinator<Local>)
    requires c.worker.Valid() && c.worker.bus.workerCount == 1 && c.worker.bus.inbox == []
    ensures c.worker.Holds() == World(c.worker.vertices, [], c.worker.vertexInbox)
  {
    c.worker.bus.Alone([]);
  }

  method LoadGraph(p: Params, e: Engine<Local>, ghost c: Coordinator<Local>, hashing: Hashing)
    returns (ghost w: World<Local>)
    requires p.workers == 1 && Idle(e, c) && Iterates(hashing)
    modifies set worker | worker in e.all :: worker`vertices
    modifies set worker | worker in e.all :: worker`owners
    modifies set worker | worker in e.all :: worker`order
    ensures c.Ready(w) && Loaded(p, w)
  {
    hide Graph, Loadable, Distributed, Loaded, LocalOf;
    hide NoParts, Enumerates, Bus.MessageBus.Arrived, Bus.MessageBus.Routed;
    var data := Build(p);
    NothingHeld(e, c);
    var left := e.DistributeVertices(Loadable(data.vertices), hashing);
    NothingFlies(c);
    w := c.worker.Holds();
    assert e.Parts()[0] == c.worker.Part();
    PartIsLoaded(p, w, c.worker.Part());
  }

  /**
   Everything together, for one worker: the graph is built, every vertex placed, and the coordinator
   runs. The engine's state is then the specification's, iterated from the built graph, and a book
   with a venue has run to its limit.
   */
  method RunEngine(p: Params, e: Engine<Local>, c: Coordinator<Local>, hashing: Hashing, noise: (VertexId,
      Superstep) -> int)
    returns (steps: nat, ghost w: World<Local>)
    requires p.workers == 1 && p.venues > 0 && Idle(e, c) && Iterates(hashing)
    modifies set worker | worker in e.all :: worker`vertices
    modifies set worker | worker in e.all :: worker`owners
    modifies set worker | worker in e.all :: worker`order
    modifies c, c.worker, c.worker.bus, c.worker.bus.Network(), c.worker.bus.Counters()
    ensures Loaded(p, w) && steps == c.maxSupersteps
    ensures c.Ready(Iterate(BookProgram(noise), c.worker.order, w, 0, steps))
  {
    hide Graph, Loaded, BookProgram, Step;
    w := LoadGraph(p, e, c, hashing);
    BuiltVenueOpen(p, w);
    steps := RunBook(c, noise, w, 0);
  }

  /** The objects of an engine of one worker, with or without a network. */
  method SetupInfrastructure(maxSupersteps: nat, rdma: bool, clock: nat -> int)
    returns (e: Engine<Local>, c: Coordinator<Local>)
    ensures Idle(e, c) && c.maxSupersteps == maxSupersteps
    ensures fresh(e) && fresh(c) && fresh(c.worker) && fresh(c.worker.bus) && e.all == {c.worker}
    ensures c.worker.bus.Network() == {} && forall t | t in c.worker.bus.Counters() :: fresh(t)
  {
    var pmap := new PartitionMap(1);
    var transport: RdmaTransport? := null;
    if rdma {
      transport := new RdmaTransport(0, 1, [null], clock);
    }
    var bus := new MessageBus(0, 1, pmap, transport);
    var worker := new WorkerNode<Local>(0, bus);
    e := new Engine<Local>([worker], pmap);
    c := new Coordinator<Local>(maxSupersteps, worker);
  }

  /** The engine from nothing: set up, loaded and run. */
  method Run(p: Params, maxSupersteps: nat, rdma: bool, clock: nat -> int, hashing: Hashing,
      noise: (VertexId, Superstep) -> int)
    returns (c: Coordinator<Local>, steps: nat, ghost w: World<Local>)
    requires p.workers == 1 && p.venues > 0 && Iterates(hashing)
    ensures fresh(c) && Loaded(p, w) && steps == maxSupersteps
    ensures c.Ready(Iterate(BookProgram(noise), c.worker.order, w, 0, steps))
  {
    hide Loaded, Idle, BookProgram;
    var e;
    e, c := SetupInfrastructure(maxSupersteps, rdma, clock);
    steps, w := RunEngine(p, e, c, hashing, noise);
  }
}
