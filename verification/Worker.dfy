/** Vertices and the worker that drives their supersteps (vertex.hpp, worker_node.cpp). */
module Worker {
  import opened Messages
  import opened Bsp
  import opened Bus

  /** The first n vertices of an iteration. */
  function Visited(order: seq<VertexId>, n: nat): (vs: set<VertexId>)
    requires n <= |order|
    ensures |vs| <= n
  {
    if n == 0 then {} else Visited(order, n - 1) + {order[n - 1]}
  }

  /** order lists every key once. */
  ghost predicate Enumerates(order: seq<VertexId>, keys: set<VertexId>) {
    Visited(order, |order|) == keys && |order| == |keys|
  }

  lemma {:induction false} VisitedUpTo(order: seq<VertexId>, n: nat, m: nat)
    requires n <= m <= |order|
    ensures Visited(order, n) <= Visited(order, m) && |Visited(order, m)| <= |Visited(order, n)| + m - n
  {
    if n < m {
      VisitedUpTo(order, n, m - 1);
    }
  }

  lemma {:induction false} VisitOneMore(order: seq<VertexId>, n: nat, keys: set<VertexId>)
    requires n < |order| && Enumerates(order, keys)
    ensures order[n] !in Visited(order, n) && order[n] in keys
  {
    VisitedUpTo(order, n + 1, |order|);
  }

  /** The same, said of positions. */
  lemma {:induction false} EnumeratesByPosition(order: seq<VertexId>, keys: set<VertexId>)
    requires Enumerates(order, keys)
    ensures forall v :: v in order <==> v in keys
    ensures forall i, j | 0 <= i < j < |order| :: order[i] != order[j]
  {
    forall v ensures v in order <==> v in keys {
      VisitedMembers(order, |order|, v);
      assert order[..|order|] == order;
    }
    forall i, j | 0 <= i < j < |order| ensures order[i] != order[j] {
      VisitOneMore(order, j, keys);
      VisitedUpTo(order, i + 1, j);
    }
  }

  lemma {:induction false} VisitedMembers(order: seq<VertexId>, n: nat, v: VertexId)
    requires n <= |order|
    ensures v in Visited(order, n) <==> v in order[..n]
  {
    if n > 0 {
      VisitedMembers(order, n - 1, v);
      assert order[..n] == order[..n - 1] + [order[n - 1]];
    }
  }

  // ----- the stages of a superstep, on values

  function Dispatch(boxes: map<VertexId, seq<Message>>, ms: seq<Message>): map<VertexId, seq<Message>> {
    if ms == [] then boxes
    else
      var m := ms[|ms| - 1];
      var early := Dispatch(boxes, ms[..|ms| - 1]);
      early[m.dst := Letters(early, m.dst) + [m]]
  }

  predicate Ready<S>(views: map<VertexId, VertexState<S>>, boxes: map<VertexId, seq<Message>>, v: VertexId)
    requires v in views
  {
    !views[v].halted || v in boxes
  }

  function Roused<S>(views: map<VertexId, VertexState<S>>, vs: set<VertexId>): map<VertexId, VertexState<S>> {
    map v | v in views :: if v in vs then views[v].(halted := false) else views[v]
  }

  function ReadyAmong<S>(views: map<VertexId, VertexState<S>>, boxes: map<VertexId, seq<Message>>,
      vs: set<VertexId>): set<VertexId> {
    set v | v in vs && v in views && Ready(views, boxes, v)
  }

  /** Selecting one more vertex, given what Select says and does about it. */
  lemma SelectOneMore<S>(views: map<VertexId, VertexState<S>>, boxes: map<VertexId, seq<Message>>,
                         vs: set<VertexId>, tasks: set<VertexId>, v: VertexId)
    requires v in views && v !in vs && tasks == ReadyAmong(views, boxes, vs)
    ensures var now := Roused(views, tasks);
      && v in now
      && ReadyAmong(views, boxes, vs + {v}) == (if Ready(now, boxes, v) then tasks + {v} else tasks)
      && Roused(views, tasks + {v}) == (if now[v].halted then now[v := now[v].(halted := false)] else now)
  {
  }

  lemma NothingSelected<S>(views: map<VertexId, VertexState<S>>, boxes: map<VertexId, seq<Message>>)
    ensures ReadyAmong(views, boxes, {}) == {} && Roused(views, {}) == views
  {
  }

  function AwakeAmong<S>(views: map<VertexId, VertexState<S>>, vs: set<VertexId>): set<VertexId> {
    set v | v in vs && v in views && !views[v].halted
  }

  lemma AwakeOneMore<S>(views: map<VertexId, VertexState<S>>, vs: set<VertexId>, v: VertexId)
    requires v in views && v !in vs
    ensures |AwakeAmong(views, vs + {v})| == |AwakeAmong(views, vs)| + (if views[v].halted then 0 else 1)
  {
    assert AwakeAmong(views, vs + {v}) == AwakeAmong(views, vs) + (if views[v].halted then {} else {v});
  }

  function Ran<S>(prog: Program<S>, step: Superstep, views: map<VertexId, VertexState<S>>,
                  boxes: map<VertexId, seq<Message>>, tasks: set<VertexId>): map<VertexId, VertexState<S>> {
    map v | v in views :: if v in tasks then prog(v, views[v], Letters(boxes, v), step) else views[v]
  }

  function Emptied<S>(views: map<VertexId, VertexState<S>>, vs: set<VertexId>): map<VertexId, VertexState<S>> {
    map v | v in views :: if v in vs then views[v].(outbox := []) else views[v]
  }

  lemma EmptiedOneMore<S>(views: map<VertexId, VertexState<S>>, vs: set<VertexId>, v: VertexId)
    requires v in views
    ensures var before := Emptied(views, vs);
      before[v := before[v].(outbox := [])] == Emptied(views, vs + {v})
  {
  }

  /** The outboxes of the first n vertices, in order. */
  function Gathered<S>(views: map<VertexId, VertexState<S>>, order: seq<VertexId>, n: nat): seq<Message>
    requires n <= |order|
  {
    if n == 0 then []
    else Gathered(views, order, n - 1) + (if order[n - 1] in views then views[order[n - 1]].outbox else [])
  }

  /**
   The middle of running tasks: those in taken have their mail, those not in open are done, left
   is what remains of the boxes and now what the vertices have become.
   */
  ghost predicate Midway<S>(
    prog: Program<S>, step: Superstep, views: map<VertexId, VertexState<S>>, boxes: map<VertexId, seq<Message>>,
    tasks: set<VertexId>, open: set<VertexId>, taken: map<VertexId, seq<Message>>,
    left: map<VertexId, seq<Message>>, now: map<VertexId, VertexState<S>>)
  {
    && open <= tasks && tasks - open <= taken.Keys <= tasks
    && left == boxes - taken.Keys && (forall v | v in taken :: taken[v] == Letters(boxes, v))
    && now == Ran(prog, step, views, boxes, tasks - open)
  }

  lemma MidwayTake<S>(
    prog: Program<S>, step: Superstep, views: map<VertexId, VertexState<S>>, boxes: map<VertexId, seq<Message>>,
    tasks: set<VertexId>, open: set<VertexId>, taken: map<VertexId, seq<Message>>,
    left: map<VertexId, seq<Message>>, now: map<VertexId, VertexState<S>>, v: VertexId)
    requires Midway(prog, step, views, boxes, tasks, open, taken, left, now) && v in open && v !in taken
    ensures Midway(prog, step, views, boxes, tasks, open, taken[v := Letters(left, v)], left - {v}, now)
    ensures tasks - taken[v := Letters(left, v)].Keys < tasks - taken.Keys
  {
    assert v in tasks - taken.Keys;
  }

  lemma MidwayRun<S>(
    prog: Program<S>, step: Superstep, views: map<VertexId, VertexState<S>>, boxes: map<VertexId, seq<Message>>,
    tasks: set<VertexId>, open: set<VertexId>, taken: map<VertexId, seq<Message>>,
    left: map<VertexId, seq<Message>>, now: map<VertexId, VertexState<S>>, v: VertexId)
    requires Midway(prog, step, views, boxes, tasks, open, taken, left, now)
    requires v in open && v in taken && v in views
    ensures Midway(prog, step, views, boxes, tasks, open - {v}, taken, left,
                   now[v := prog(v, now[v], taken[v], step)])
  {
  }

  // ----- the stages put together

  lemma {:induction false} DispatchedLetters(boxes: map<VertexId, seq<Message>>, ms: seq<Message>, v: VertexId)
    ensures Letters(Dispatch(boxes, ms), v) == Letters(boxes, v) + Keep(ms, AddressedTo(v))
  {
    if ms != [] {
      DispatchedLetters(boxes, ms[..|ms| - 1], v);
    }
  }

  lemma {:induction false} DispatchedKeys(boxes: map<VertexId, seq<Message>>, ms: seq<Message>)
    requires forall v | v in boxes :: boxes[v] != []
    ensures Dispatch(boxes, ms).Keys == boxes.Keys + Recipients(ms)
    ensures forall v | v in Dispatch(boxes, ms) :: Dispatch(boxes, ms)[v] != []
  {
    if ms != [] {
      DispatchedKeys(boxes, ms[..|ms| - 1]);
      assert ms == ms[..|ms| - 1] + [ms[|ms| - 1]];
    }
  }

  /** Dispatch, selection and the tasks together do what the specification says of each vertex. */
  lemma {:induction false} TasksRefine<S(!new)>(
    prog: Program<S>, step: Superstep, w: World<S>, boxes: map<VertexId, seq<Message>>, tasks: set<VertexId>,
    roused: map<VertexId, VertexState<S>>, ran: map<VertexId, VertexState<S>>)
    requires (forall v | v in w.unclaimed :: w.unclaimed[v] != []) && boxes == Dispatch(w.unclaimed, w.mail)
    requires tasks == ReadyAmong(w.vertices, boxes, w.vertices.Keys)
    requires roused == Roused(w.vertices, tasks) && ran == Ran(prog, step, roused, boxes, tasks)
    ensures tasks == Busy(w) && ran == Computed(prog, w, step) && boxes - tasks == Unclaimed(w)
  {
    DispatchedKeys(w.unclaimed, w.mail);
    forall v ensures Letters(boxes, v) == Inbox(w, v) {
      DispatchedLetters(w.unclaimed, w.mail, v);
    }
    forall v | v in w.vertices ensures v in tasks <==> Computes(w, v) {
      assert v in boxes <==> Letters(boxes, v) != [];
    }
    forall v | v in boxes ensures v in tasks <==> v in w.vertices {
      assert Letters(boxes, v) == Inbox(w, v);
    }
  }

  lemma {:induction false} CollectRefines<S(!new)>(prog: Program<S>, step: Superstep, w: World<S>,
      order: seq<VertexId>, n: nat)
    requires n <= |order|
    ensures Gathered(Computed(prog, w, step), order, n) == Sent(prog, order, n, w, step)
  {
    if n > 0 {
      CollectRefines(prog, step, w, order, n - 1);
    }
  }

  /** A vertex on the move between workers, or one that is held by one. */
  datatype Vertex<+S> = Vertex(id: VertexId, owner: WorkerId, state: VertexState<S>)

  type Part<+S> = map<VertexId, Vertex<S>>

  function With<S>(part: Part<S>, x: Vertex<S>): Part<S> {
    part[x.id := x]
  }

  /** A part after worker w has taken over the vertices of moved, one by one. */
  function Absorbed<S>(part: Part<S>, w: WorkerId, moved: seq<Vertex<S>>): Part<S> {
    if moved == [] then part
    else With(Absorbed(part, w, moved[..|moved| - 1]), moved[|moved| - 1].(owner := w))
  }

  function Redirected<S>(overrides: map<VertexId, WorkerId>, w: WorkerId, moved: seq<Vertex<S>>)
    : map<VertexId, WorkerId>
  {
    if moved == [] then overrides
    else Redirected(overrides, w, moved[..|moved| - 1])[moved[|moved| - 1].id := w]
  }

  lemma {:induction false} VisitedPrefix(order: seq<VertexId>, x: VertexId, n: nat)
    requires n <= |order|
    ensures Visited(order + [x], n) == Visited(order, n)
  {
    if n > 0 {
      VisitedPrefix(order, x, n - 1);
    }
  }

  lemma NoKeys()
    ensures Enumerates([], {})
  {
  }

  /** A hash table can always be iterated. */
  lemma {:induction false} EveryTableIterates(keys: set<VertexId>)
    ensures exists order :: Enumerates(order, keys)
    decreases |keys|
  {
    hide Visited;
    if keys == {} {
      NoKeys();
    } else {
      var x :| x in keys;
      EveryTableIterates(keys - {x});
      var front :| Enumerates(front, keys - {x});
      OneMoreKey(front, x, keys);
    }
  }

  lemma OneMoreKey(front: seq<VertexId>, x: VertexId, keys: set<VertexId>)
    requires x in keys && Enumerates(front, keys - {x})
    ensures Enumerates(front + [x], keys)
  {
    VisitedPrefix(front, x, |front|);
    assert Visited(front + [x], |front| + 1) == keys;
  }

  ghost function SomeOrder(keys: set<VertexId>): (order: seq<VertexId>)
    ensures Enumerates(order, keys)
  {
    EveryTableIterates(keys);
    var order :| Enumerates(order, keys);
    order
  }

  /** The iteration order of a hash table with the given keys after its k-th insertion: any there is. */
  type Hashing = (nat, set<VertexId>) -> seq<VertexId>

  ghost predicate Iterates(hashing: Hashing) {
    forall k: nat, keys: set<VertexId> :: Enumerates(hashing(k, keys), keys)
  }

  /** So there are hash tables as the engine is given them. */
  lemma {:induction false} HashingExists()
    ensures exists hashing: Hashing :: Iterates(hashing)
  {
    var hashing: Hashing := (k, keys) => SomeOrder(keys);
    assert Iterates(hashing);
  }

  class WorkerNode<S(!new)> {
    const id: WorkerId
    const bus: MessageBus
    var vertices: map<VertexId, VertexState<S>>
    var owners: map<VertexId, WorkerId>  // the owner field of each vertex
    var order: seq<VertexId>  // the order in which the hash table is iterated
    var vertexInbox: map<VertexId, seq<Message>>
    var processed: nat
    var messagesSent: nat
    var messagesReceived: nat
    var supersteps: nat
    var migrations: nat

    constructor (id: WorkerId, bus: MessageBus)
      requires bus.Valid() && bus.localId == id
      ensures Valid() && this.id == id && this.bus == bus && vertices == map[] && vertexInbox == map[]
      ensures owners == map[] && migrations == 0
    {
      this.id, this.bus := id, bus;
      vertices, owners, order, vertexInbox := map[], map[], [], map[];
      processed, messagesSent, messagesReceived, supersteps, migrations := 0, 0, 0, 0, 0;
    }

    ghost predicate Valid()
      reads this, bus`outboxes, bus`handed, bus.pmap
    {
      && Enumerates(order, vertices.Keys) && owners.Keys == vertices.Keys
      && bus.Valid() && bus.localId == id
      && forall v | v in vertexInbox :: vertexInbox[v] != []
    }

    /** What the worker holds between supersteps, counting what the network has delivered to it. */
    ghost function Holds(): World<S>
      requires bus.Wired()
      reads this, bus, bus.Network()
    {
      World(vertices, bus.inbox + bus.Arrived(), vertexInbox)
    }

    /** The worker's part of the graph, with the owner each vertex names. */
    ghost function Part(): Part<S>
      requires owners.Keys == vertices.Keys
      reads this`vertices, this`owners
    {
      map v | v in vertices :: Vertex(v, owners[v], vertices[v])
    }

    /** Adds one vertex; k counts the insertions so far. */
    method AddVertex(x: Vertex<S>, hashing: Hashing, k: nat)
      requires owners.Keys == vertices.Keys && Iterates(hashing)
      modifies this`vertices, this`owners, this`order
      ensures owners.Keys == vertices.Keys && Enumerates(order, vertices.Keys)
      ensures Part() == With(old(Part()), x)
    {
      hide Enumerates;
      vertices, owners := vertices[x.id := x.state], owners[x.id := x.owner];
      order := hashing(k, vertices.Keys);
    }

    /** Takes over the given vertices, and has the partition map say so. */
    method AbsorbPartition(migrated: seq<Vertex<S>>, hashing: Hashing)
      requires Valid() && Iterates(hashing)
      modifies this`vertices, this`owners, this`order, this`migrations, bus.pmap
      ensures Valid()
      ensures Part() == Absorbed(old(Part()), id, migrated)
      ensures bus.pmap.overrides == Redirected(old(bus.pmap.overrides), id, migrated)
      ensures migrations == old(migrations) + |migrated|
    {
      for i := 0 to |migrated|
        invariant Valid()
        invariant Part() == Absorbed(old(Part()), id, migrated[..i])
        invariant bus.pmap.overrides == Redirected(old(bus.pmap.overrides), id, migrated[..i])
        invariant migrations == old(migrations) + i
      {
        assert migrated[..i + 1][..i] == migrated[..i];
        var v := migrated[i].(owner := id);
        bus.pmap.Migrate(v.id, id);
        AddVertex(v, hashing, i);
        migrations := migrations + 1;
      }
      assert migrated[..|migrated|] == migrated;
    }

    method DispatchMessages(msgs: seq<Message>)
      modifies this`vertexInbox, this`messagesReceived
      ensures vertexInbox == Dispatch(old(vertexInbox), msgs)
      ensures messagesReceived == old(messagesReceived) + |msgs|
    {
      for i := 0 to |msgs|
        invariant vertexInbox == Dispatch(old(vertexInbox), msgs[..i])
        invariant messagesReceived == old(messagesReceived)
      {
        assert msgs[..i + 1][..i] == msgs[..i];
        vertexInbox := vertexInbox[msgs[i].dst := Letters(vertexInbox, msgs[i].dst) + [msgs[i]]];
      }
      assert msgs[..|msgs|] == msgs;
      messagesReceived := messagesReceived + |msgs|;
    }

    /** The tasks of a superstep; a halted vertex with mail is woken on the way. */
    method SelectTasks() returns (tasks: set<VertexId>)
      requires Enumerates(order, vertices.Keys)
      modifies this`vertices
      ensures vertices == Roused(old(vertices), tasks)
      ensures tasks == ReadyAmong(old(vertices), vertexInbox, old(vertices).Keys)
    {
      tasks := {};
      ghost var before := vertices;
      NothingSelected(before, vertexInbox);
      hide ReadyAmong, Roused;
      for i := 0 to |order|
        invariant tasks == ReadyAmong(before, vertexInbox, Visited(order, i))
        invariant vertices == Roused(before, tasks)
      {
        var vid := order[i];
        VisitOneMore(order, i, before.Keys);
        SelectOneMore(before, vertexInbox, Visited(order, i), tasks, vid);
        if vertices[vid].halted {
          if vid !in vertexInbox {
            continue;
          }
          vertices := vertices[vid := vertices[vid].(halted := false)];
        }
        tasks := tasks + {vid};
      }
    }

    /** The first half of a task: move the vertex's mail out of the shared table. */
    method TakeMail(vid: VertexId) returns (mail: seq<Message>)
      modifies this`vertexInbox
      ensures mail == old(Letters(vertexInbox, vid)) && vertexInbox == old(vertexInbox) - {vid}
    {
      if vid in vertexInbox {
        mail := vertexInbox[vid];
        vertexInbox := vertexInbox - {vid};
      } else {
        mail := [];
      }
    }

    /** The second half of a task. */
    method ComputeVertex(prog: Program<S>, vid: VertexId, mail: seq<Message>, step: Superstep)
      requires vid in vertices
      modifies this`vertices, this`processed
      ensures vertices == old(vertices)[vid := prog(vid, old(vertices)[vid], mail, step)]
      ensures processed == old(processed) + 1
    {
      vertices := vertices[vid := prog(vid, vertices[vid], mail, step)];
      processed := processed + 1;
    }

    /**
     Runs the tasks in an arbitrary interleaving of their halves: at every turn any unfinished task
     takes its mail or, having taken it, computes.
     */
    method RunTasks(prog: Program<S>, step: Superstep, tasks: set<VertexId>)
      requires tasks <= vertices.Keys
      modifies this`vertices, this`vertexInbox, this`processed
      ensures vertices == Ran(prog, step, old(vertices), old(vertexInbox), tasks)
      ensures vertexInbox == old(vertexInbox) - tasks
      ensures processed == old(processed) + |tasks|
    {
      var open, taken: map<VertexId, seq<Message>> := tasks, map[];
      ghost var before, boxes := vertices, vertexInbox;
      while open != {}
        invariant Midway(prog, step, before, boxes, tasks, open, taken, vertexInbox, vertices)
        invariant processed + |open| == old(processed) + |tasks|
        decreases open, tasks - taken.Keys
      {
        var vid :| vid in open;
        if vid !in taken {
          MidwayTake(prog, step, before, boxes, tasks, open, taken, vertexInbox, vertices, vid);
          var mail := TakeMail(vid);
          taken := taken[vid := mail];
        } else {
          MidwayRun(prog, step, before, boxes, tasks, open, taken, vertexInbox, vertices, vid);
          ComputeVertex(prog, vid, taken[vid], step);
          open := open - {vid};
        }
      }
    }

    /** The outboxes of the first i vertices have been routed and cleared. */
    ghost predicate Collecting(before: map<VertexId, VertexState<S>>, boxes: seq<seq<Message>>, sent: nat, i: nat)
      requires bus.OwnersKnown()
      reads this`vertices, this`order, this`messagesSent, bus`outboxes, bus.pmap
    {
      && i <= |order| && |boxes| == bus.workerCount
      && vertices == Emptied(before, Visited(order, i))
      && bus.outboxes == bus.Routed(boxes, Gathered(before, order, i))
      && messagesSent == sent + |Gathered(before, order, i)|
    }

    method Collect(vid: VertexId)
      requires bus.Routable() && vid in vertices
      modifies this`vertices, this`messagesSent, bus`outboxes
      ensures |bus.outboxes| == bus.workerCount
      ensures vertices == old(vertices)[vid := old(vertices)[vid].(outbox := [])]
      ensures bus.outboxes == bus.Routed(old(bus.outboxes), old(vertices)[vid].outbox)
      ensures messagesSent == old(messagesSent) + |old(vertices)[vid].outbox|
    {
      var outbox := vertices[vid].outbox;
      if outbox != [] {
        messagesSent := messagesSent + |outbox|;
        bus.EnqueueBatch(outbox);
        vertices := vertices[vid := vertices[vid].(outbox := [])];
      }
    }

    method CollectAndRouteOutbox()
      requires Enumerates(order, vertices.Keys) && bus.Routable()
      modifies this`vertices, this`messagesSent, bus`outboxes
      ensures Collecting(old(vertices), old(bus.outboxes), old(messagesSent), |order|)
    {
      ghost var before, boxes, sent := vertices, bus.outboxes, messagesSent;
      for i := 0 to |order|
        invariant Collecting(before, boxes, sent, i)
      {
        VisitOneMore(order, i, before.Keys);
        EmptiedOneMore(before, Visited(order, i), order[i]);
        bus.RoutedConcat(boxes, Gathered(before, order, i), before[order[i]].outbox);
        Collect(order[i]);
      }
    }

    method CountActive() returns (active: nat)
      requires Enumerates(order, vertices.Keys)
      ensures active == |Active(vertices)|
    {
      active := 0;
      for i := 0 to |order|
        invariant active == |AwakeAmong(vertices, Visited(order, i))|
      {
        VisitOneMore(order, i, vertices.Keys);
        AwakeOneMore(vertices, Visited(order, i), order[i]);
        if !vertices[order[i]].halted {
          active := active + 1;
        }
      }
      assert AwakeAmong(vertices, vertices.Keys) == Active(vertices);
    }

    /** The first phase: what the bus and the network hold is sorted into mail boxes. */
    method Receive()
      requires bus.Wired()
      modifies this`vertexInbox, this`messagesReceived, bus`inbox, bus`received, bus.Network()
      ensures vertexInbox == Dispatch(old(vertexInbox), old(bus.inbox) + old(bus.Arrived()))
      ensures bus.inbox == [] && bus.Arrived() == [] && bus.Flights() == old(bus.Flights())
    {
      var inbox := bus.DrainInbox();
      DispatchMessages(inbox);
    }

    /** The second phase: every vertex that is awake or has mail computes. */
    method RunVertices(prog: Program<S>, step: Superstep, ghost w: World<S>)
      requires Enumerates(order, vertices.Keys) && vertices == w.vertices
      requires (forall v | v in w.unclaimed :: w.unclaimed[v] != []) && vertexInbox == Dispatch(w.unclaimed, w.mail)
      modifies this`vertices, this`vertexInbox, this`processed
      ensures vertices == Computed(prog, w, step) && vertices.Keys == old(vertices).Keys
      ensures vertexInbox == Unclaimed(w)
      ensures processed == old(processed) + |Busy(w)|
    {
      ghost var boxes := vertexInbox;
      var tasks := SelectTasks();
      ghost var roused := vertices;
      RunTasks(prog, step, tasks);
      TasksRefine(prog, step, w, boxes, tasks, roused, vertices);
    }

    /** The first two phases together. */
    method Process(prog: Program<S>, step: Superstep, ghost w: World<S>)
      requires Enumerates(order, vertices.Keys) && bus.Wired() && w == Holds()
      requires forall v | v in vertexInbox :: vertexInbox[v] != []
      modifies this`vertices, this`vertexInbox, this`messagesReceived, this`processed
      modifies bus`inbox, bus`received, bus.Network()
      ensures vertices == Computed(prog, w, step) && vertices.Keys == old(vertices).Keys
      ensures vertexInbox == Unclaimed(w)
      ensures processed == old(processed) + |Busy(w)|
      ensures bus.inbox == [] && bus.Arrived() == [] && bus.Flights() == old(bus.Flights())
    {
      Receive();
      RunVertices(prog, step, w);
    }

    /** Collecting the outboxes of a computed world is what the specification sends, routed by owner. */
    method Gather(prog: Program<S>, step: Superstep, ghost w: World<S>)
      requires Enumerates(order, vertices.Keys) && bus.Routable() && vertices == Computed(prog, w, step)
      modifies this`vertices, this`messagesSent, bus`outboxes
      ensures bus.Routable()
      ensures vertices == Settled(prog, w, step) && vertices.Keys == old(vertices).Keys
      ensures messagesSent == old(messagesSent) + |Sent(prog, order, |order|, w, step)|
      ensures bus.outboxes == bus.Routed(old(bus.outboxes), Sent(prog, order, |order|, w, step))
    {
      hide Sent;
      CollectRefines(prog, step, w, order, |order|);
      CollectAndRouteOutbox();
    }

    /** The last phase: the outboxes are routed by owner and flushed. */
    method Ship(prog: Program<S>, step: Superstep, ghost w: World<S>)
      requires Enumerates(order, vertices.Keys) && bus.Valid() && bus.outboxes == NoBoxes(bus.workerCount)
      requires vertices == Computed(prog, w, step) && bus.inbox == []
      modifies this`vertices, this`messagesSent
      modifies bus`outboxes, bus`inbox, bus`sent, bus`handed, bus.Network(), bus.Counters()
      ensures vertices == Settled(prog, w, step) && vertices.Keys == old(vertices).Keys
      ensures messagesSent == old(messagesSent) + |Sent(prog, order, |order|, w, step)|
      ensures bus.outboxes == NoBoxes(bus.workerCount)
      ensures var boxes := bus.Routed(NoBoxes(bus.workerCount), Sent(prog, order, |order|, w, step));
        && bus.inbox == boxes[bus.localId] && bus.handed == bus.Added(old(bus.handed), boxes, bus.workerCount)
        && bus.Flights() == bus.Added(old(bus.Flights()), boxes, bus.workerCount)
      ensures bus.Arrived() == old(bus.Arrived())
    {
      hide Settled, Computed, Sent, Enumerates, Bus.MessageBus.Flying, Bus.MessageBus.Flights, Bus.MessageBus.Arrived;
      hide Bus.MessageBus.Handed, Bus.MessageBus.Added, Bus.MessageBus.Routed;
      Gather(prog, step, w);
      bus.Flush();
      assert [] + bus.inbox == bus.inbox;
    }

    /**
     One superstep from what the worker holds. At the barrier every outbox has been flushed: what was
     sent to this worker's vertices is in its inbox, the rest is behind what was already in flight on the
     queue pair of its owner, or lost if there is no network.
     */
    method RunSuperstep(prog: Program<S>, step: Superstep, ghost w: World<S>) returns (active: nat)
      requires Valid() && bus.outboxes == NoBoxes(bus.workerCount) && w == Holds()
      modifies this`vertices, this`vertexInbox
      modifies this`processed, this`messagesSent, this`messagesReceived, this`supersteps
      modifies bus`outboxes, bus`inbox, bus`sent, bus`handed, bus`received, bus.Network(), bus.Counters()
      ensures Valid() && vertices.Keys == old(vertices).Keys
      ensures vertices == Settled(prog, w, step)
      ensures vertexInbox == Unclaimed(w)
      ensures bus.outboxes == NoBoxes(bus.workerCount)
      ensures var boxes := bus.Routed(NoBoxes(bus.workerCount), Sent(prog, order, |order|, w, step));
        && bus.inbox == boxes[id] && bus.handed == bus.Added(old(bus.handed), boxes, bus.workerCount)
        && bus.Flights() == bus.Added(old(bus.Flights()), boxes, bus.workerCount)
      ensures bus.Arrived() == []
      ensures active == |Active(Settled(prog, w, step))|
      ensures messagesSent == old(messagesSent) + |Sent(prog, order, |order|, w, step)|
      ensures processed == old(processed) + |Busy(w)|
      ensures supersteps == old(supersteps) + 1
    {
      hide Settled, Computed, Sent, Unclaimed, Active, Busy;
      hide Bus.MessageBus.Flying, Bus.MessageBus.Flights, Bus.MessageBus.Arrived, Bus.MessageBus.Added;
      hide Bus.MessageBus.Routed, Dispatch, Inbox, Enumerates, Keep;
      UnclaimedNotEmpty(w);
      Process(prog, step, w);
      Ship(prog, step, w);
      supersteps := supersteps + 1;
      active := CountActive();
    }
  }
}
