/**
 The bulk-synchronous-parallel step the engine promises, on immutable maps: no queues, no
 flags in transit, no order of execution.
 */
module Bsp {
  import opened Messages

  datatype VertexState<+S> = VertexState(halted: bool, outbox: seq<Message>, local: S)

  /** What a vertex program does to its vertex, given the mail and the step. */
  type Program<!S> = (VertexId, VertexState<S>, seq<Message>, Superstep) -> VertexState<S>

  /** unclaimed holds the mail dispatched to identifiers that no vertex has. */
  datatype World<+S> = World(
    vertices: map<VertexId, VertexState<S>>,
    mail: seq<Message>,
    unclaimed: map<VertexId, seq<Message>>)

  function Letters(boxes: map<VertexId, seq<Message>>, v: VertexId): seq<Message> {
    if v in boxes then boxes[v] else []
  }

  /** The mail vertex v reads in the coming step. */
  function Inbox<S>(w: World<S>, v: VertexId): seq<Message> {
    Letters(w.unclaimed, v) + Keep(w.mail, AddressedTo(v))
  }

  /** A vertex takes part in a step if it is awake or has mail. */
  predicate Computes<S>(w: World<S>, v: VertexId)
    requires v in w.vertices
  {
    !w.vertices[v].halted || Inbox(w, v) != []
  }

  function After<S>(prog: Program<S>, w: World<S>, v: VertexId, step: Superstep): VertexState<S>
    requires v in w.vertices
  {
    if Computes(w, v) then prog(v, w.vertices[v].(halted := false), Inbox(w, v), step)
    else w.vertices[v]
  }

  function Computed<S>(prog: Program<S>, w: World<S>, step: Superstep): map<VertexId, VertexState<S>> {
    map v | v in w.vertices :: After(prog, w, v, step)
  }

  function Busy<S>(w: World<S>): set<VertexId> {
    set v | v in w.vertices && Computes(w, v)
  }

  /** The outboxes of the first n vertices after the step, collected in the given order. */
  function Sent<S>(prog: Program<S>, order: seq<VertexId>, n: nat, w: World<S>, step: Superstep): seq<Message>
    requires n <= |order|
  {
    if n == 0 then []
    else Sent(prog, order, n - 1, w, step)
         + (if order[n - 1] in w.vertices then After(prog, w, order[n - 1], step).outbox else [])
  }

  function Recipients(ms: seq<Message>): set<VertexId> {
    if ms == [] then {} else Recipients(ms[..|ms| - 1]) + {ms[|ms| - 1].dst}
  }

  function Unclaimed<S>(w: World<S>): map<VertexId, seq<Message>> {
    map v | v in w.unclaimed.Keys + Recipients(w.mail) && v !in w.vertices :: Inbox(w, v)
  }

  lemma {:induction false} RecipientsHaveMail(ms: seq<Message>, v: VertexId)
    ensures v in Recipients(ms) <==> Keep(ms, AddressedTo(v)) != []
  {
    if ms != [] {
      RecipientsHaveMail(ms[..|ms| - 1], v);
    }
  }

  lemma {:induction false} UnclaimedNotEmpty<S>(w: World<S>)
    requires forall v | v in w.unclaimed :: w.unclaimed[v] != []
    ensures forall v | v in Unclaimed(w) :: Unclaimed(w)[v] != []
  {
    forall v | v in Unclaimed(w) ensures Inbox(w, v) != [] {
      RecipientsHaveMail(w.mail, v);
    }
  }

  function Settled<S>(prog: Program<S>, w: World<S>, step: Superstep): map<VertexId, VertexState<S>> {
    map v | v in w.vertices :: After(prog, w, v, step).(outbox := [])
  }

  /** One superstep of a single worker: its mail for the next step is everything sent in this one. */
  function Step<S>(prog: Program<S>, order: seq<VertexId>, w: World<S>, step: Superstep): World<S> {
    World(Settled(prog, w, step), Sent(prog, order, |order|, w, step), Unclaimed(w))
  }

  function Active<S>(vertices: map<VertexId, VertexState<S>>): set<VertexId> {
    set v | v in vertices && !vertices[v].halted
  }

  /** The world after n supersteps numbered from first. */
  function Iterate<S>(prog: Program<S>, order: seq<VertexId>, w: World<S>, first: Superstep, n: nat): (r: World<S>)
    ensures r.vertices.Keys == w.vertices.Keys
  {
    if n == 0 then w
    else Step(prog, order, Iterate(prog, order, w, first, n - 1), first + n - 1)
  }

  // ----- what a run of supersteps keeps

  ghost predicate OutboxesEmpty<S>(w: World<S>) {
    forall v | v in w.vertices :: w.vertices[v].outbox == []
  }

  ghost predicate NoBacklog<S>(w: World<S>) {
    forall v | v in w.vertices :: v !in w.unclaimed
  }

  /**
   Between supersteps every outbox is empty, nothing waits for a vertex that exists, and what a
   vertex reads next is exactly what the last step sent to it, in collection order.
   */
  lemma {:induction false} BetweenSteps<S>(prog: Program<S>, order: seq<VertexId>, w: World<S>,
      first: Superstep, n: nat)
    requires n > 0
    ensures var before := Iterate(prog, order, w, first, n - 1);
            var after := Iterate(prog, order, w, first, n);
      && OutboxesEmpty(after) && NoBacklog(after)
      && forall v | v in w.vertices ::
           Inbox(after, v) == Keep(Sent(prog, order, |order|, before, first + n - 1), AddressedTo(v))
  {
    var after := Iterate(prog, order, w, first, n);
    forall v | v in w.vertices
      ensures Inbox(after, v) == Keep(after.mail, AddressedTo(v))
    {
      assert v !in after.unclaimed;
    }
  }

  /** A program whose messages carry their sender. */
  ghost predicate Signs<S(!new)>(prog: Program<S>) {
    forall v: VertexId, s: VertexState<S>, mail: seq<Message>, step: Superstep ::
      s.outbox == [] ==> forall m | m in prog(v, s, mail, step).outbox :: m.src == v
  }

  /** order lists each vertex of w exactly once. */
  ghost predicate Lists<S>(order: seq<VertexId>, w: World<S>) {
    && (forall v :: v in order <==> v in w.vertices)
    && forall i, j | 0 <= i < j < |order| :: order[i] != order[j]
  }

  /**
   Stable routing: what u reads from v in a step is what v put in its outbox for u in the step
   before, in the same order; nothing is lost, repeated or reordered.
   */
  lemma {:induction false} SendOrderKept<S(!new)>(
    prog: Program<S>, order: seq<VertexId>, w: World<S>, step: Superstep, v: VertexId, u: VertexId)
    requires Signs(prog) && OutboxesEmpty(w) && Lists(order, w) && v in w.vertices
    ensures Keep(Keep(Sent(prog, order, |order|, w, step), AddressedTo(u)), SentBy(v))
         == Keep(After(prog, w, v, step).outbox, AddressedTo(u))
  {
    var i :| 0 <= i < |order| && order[i] == v;
    SendOrderUpTo(prog, order, |order|, w, step, i, u);
  }

  /**
   What a superstep is to one vertex: if it is awake or has mail its program runs, awake and on all of its mail
   in order, otherwise it stays as it is; and what it sends is what its program leaves in its outbox.
   */
  lemma {:induction false} StepOfVertex<S(!new)>(
    prog: Program<S>, order: seq<VertexId>, w: World<S>, step: Superstep, v: VertexId)
    requires Signs(prog) && OutboxesEmpty(w) && NoBacklog(w) && Lists(order, w) && v in w.vertices
    ensures var mail, s, next := Keep(w.mail, AddressedTo(v)), w.vertices[v], Step(prog, order, w, step);
      var r := prog(v, s.(halted := false), mail, step);
      var runs := !s.halted || mail != [];
      && v in next.vertices && next.vertices[v] == (if runs then r.(outbox := []) else s)
      && forall u :: Keep(Keep(next.mail, AddressedTo(u)), SentBy(v))
                  == if runs then Keep(r.outbox, AddressedTo(u)) else []
  {
    assert Inbox(w, v) == Keep(w.mail, AddressedTo(v)) by {
      assert v !in w.unclaimed;
    }
    forall u ensures Keep(Keep(Sent(prog, order, |order|, w, step), AddressedTo(u)), SentBy(v))
                  == Keep(After(prog, w, v, step).outbox, AddressedTo(u)) {
      SendOrderKept(prog, order, w, step, v, u);
    }
    hide Sent, Inbox, Keep, Signs, Lists;
  }

  lemma {:induction false} SendOrderUpTo<S(!new)>(
    prog: Program<S>, order: seq<VertexId>, n: nat, w: World<S>, step: Superstep, i: nat, u: VertexId)
    requires Signs(prog) && OutboxesEmpty(w) && Lists(order, w) && i < |order| && n <= |order|
    ensures Keep(Keep(Sent(prog, order, n, w, step), AddressedTo(u)), SentBy(order[i]))
         == if i < n then Keep(After(prog, w, order[i], step).outbox, AddressedTo(u)) else []
  {
    hide *;
    if n == 0 {
      NoneSent(prog, order, w, step, u, order[i]);
    } else {
      SendOrderUpTo(prog, order, n - 1, w, step, i, u);
      OneMoreSent(prog, order, n, w, step, i);
      OutboxSigned(prog, w, step, order[n - 1]);
      var early, tail := Sent(prog, order, n - 1, w, step), After(prog, w, order[n - 1], step).outbox;
      OneMoreOutbox(early, tail, order[n - 1], order[i], u);
    }
  }

  lemma NoneSent<S>(prog: Program<S>, order: seq<VertexId>, w: World<S>, step: Superstep, u: VertexId, v: VertexId)
    ensures Keep(Keep(Sent(prog, order, 0, w, step), AddressedTo(u)), SentBy(v)) == []
  {
  }

  lemma OneMoreSent<S>(prog: Program<S>, order: seq<VertexId>, n: nat, w: World<S>, step: Superstep, i: nat)
    requires Lists(order, w) && i < |order| && 0 < n <= |order|
    ensures order[n - 1] in w.vertices && order[i] in w.vertices && (order[i] == order[n - 1] <==> i == n - 1)
    ensures Sent(prog, order, n, w, step)
         == Sent(prog, order, n - 1, w, step) + After(prog, w, order[n - 1], step).outbox
  {
    hide After;
  }

  lemma OutboxSigned<S(!new)>(prog: Program<S>, w: World<S>, step: Superstep, v: VertexId)
    requires Signs(prog) && OutboxesEmpty(w) && v in w.vertices
    ensures forall m | m in After(prog, w, v, step).outbox :: m.src == v
  {
    assert w.vertices[v].(halted := false).outbox == [];
  }

  lemma {:induction false} OneMoreOutbox(early: seq<Message>, tail: seq<Message>, sender: VertexId,
      v: VertexId, u: VertexId)
    requires forall m | m in tail :: m.src == sender
    ensures Keep(Keep(early + tail, AddressedTo(u)), SentBy(v))
         == Keep(Keep(early, AddressedTo(u)), SentBy(v)) + (if v == sender then Keep(tail, AddressedTo(u)) else [])
  {
    KeepConcat(early, tail, AddressedTo(u));
    KeepConcat(Keep(early, AddressedTo(u)), Keep(tail, AddressedTo(u)), SentBy(v));
    forall m | m in Keep(tail, AddressedTo(u)) ensures m.src == sender {
      KeepMember(tail, AddressedTo(u), m);
    }
    if v == sender {
      KeepAll(Keep(tail, AddressedTo(u)), SentBy(v));
    } else {
      KeepNone(Keep(tail, AddressedTo(u)), SentBy(v));
    }
  }

  /** The order in which vertices are visited permutes the mail and changes nothing else. */
  lemma {:induction false} OrderOnlyPermutesMail<S>(
    prog: Program<S>, a: seq<VertexId>, b: seq<VertexId>, w: World<S>, step: Superstep)
    requires multiset(a) == multiset(b)
    ensures multiset(Step(prog, a, w, step).mail) == multiset(Step(prog, b, w, step).mail)
    ensures Step(prog, a, w, step).(mail := []) == Step(prog, b, w, step).(mail := [])
  {
    SentMultiset(prog, a, b, w, step);
  }

  lemma {:induction false} SentPrefix<S>(
    prog: Program<S>, a: seq<VertexId>, b: seq<VertexId>, n: nat, w: World<S>, step: Superstep)
    requires n <= |a|
    ensures Sent(prog, a + b, n, w, step) == Sent(prog, a, n, w, step)
  {
    if n > 0 {
      SentPrefix(prog, a, b, n - 1, w, step);
    }
  }

  lemma {:induction false} SentConcat<S>(
    prog: Program<S>, a: seq<VertexId>, b: seq<VertexId>, n: nat, w: World<S>, step: Superstep)
    requires n <= |b|
    ensures Sent(prog, a + b, |a| + n, w, step) == Sent(prog, a, |a|, w, step) + Sent(prog, b, n, w, step)
  {
    if n == 0 {
      SentPrefix(prog, a, b, |a|, w, step);
    } else {
      SentConcat(prog, a, b, n - 1, w, step);
    }
  }

  lemma {:induction false} SentMultiset<S>(
    prog: Program<S>, a: seq<VertexId>, b: seq<VertexId>, w: World<S>, step: Superstep)
    requires multiset(a) == multiset(b)
    ensures multiset(Sent(prog, a, |a|, w, step)) == multiset(Sent(prog, b, |b|, w, step))
    decreases |a|
  {
    hide Sent;
    if a == [] {
      assert |b| == |multiset(b)| == 0;
    } else {
      var front, x := a[..|a| - 1], a[|a| - 1];
      assert a == front + [x];
      var head, tail := Around(b, x);
      SameRest(front, x, head, tail);
      SentMultiset(prog, front, head + tail, w, step);
      SentInsert(prog, head, x, tail, w, step);
      SentLast(prog, front, x, w, step);
    }
  }

  lemma SentLast<S>(prog: Program<S>, front: seq<VertexId>, x: VertexId, w: World<S>, step: Superstep)
    ensures multiset(Sent(prog, front + [x], |front| + 1, w, step))
         == multiset(Sent(prog, front, |front|, w, step)) + multiset(Sent(prog, [x], 1, w, step))
  {
    hide Sent;
    SentConcat(prog, front, [x], 1, w, step);
  }

  /** Visiting one more vertex adds exactly its outbox, wherever it stands in the order. */
  lemma {:induction false} SentInsert<S>(
    prog: Program<S>, head: seq<VertexId>, x: VertexId, tail: seq<VertexId>, w: World<S>, step: Superstep)
    ensures multiset(Sent(prog, head + [x] + tail, |head| + 1 + |tail|, w, step))
         == multiset(Sent(prog, head + tail, |head| + |tail|, w, step)) + multiset(Sent(prog, [x], 1, w, step))
  {
    hide Sent;
    SentConcat(prog, head + [x], tail, |tail|, w, step);
    SentConcat(prog, head, [x], 1, w, step);
    SentConcat(prog, head, tail, |tail|, w, step);
  }

  lemma SameRest(front: seq<VertexId>, x: VertexId, head: seq<VertexId>, tail: seq<VertexId>)
    requires multiset(front + [x]) == multiset(head + [x] + tail)
    ensures multiset(front) == multiset(head + tail)
  {
    assert multiset(front) == multiset(front + [x]) - multiset{x};
    assert multiset(head + tail) == multiset(head + [x] + tail) - multiset{x};
  }

  lemma Around(b: seq<VertexId>, x: VertexId) returns (head: seq<VertexId>, tail: seq<VertexId>)
    requires x in multiset(b)
    ensures b == head + [x] + tail
  {
    var i :| 0 <= i < |b| && b[i] == x;
    head, tail := b[..i], b[i + 1..];
  }
}
