/** The values that travel through the engine, and order-preserving selection. */
module Messages {

  type VertexId = nat
  type WorkerId = nat
  type Superstep = nat

  const WORD := 0x1_0000_0000_0000_0000
  const HALF_WORD := 0x1_0000_0000

  /** The type tag of a message and the payload it selects. */
  datatype Body =
    | OrderFill(price: int, qty: nat, tradeId: nat)
    | PriceUpdate(bid: int, ask: int, bidQty: nat, askQty: nat)
    | CancelAck
    | PositionUpdate
    | ArbitrageSignal(spread: int, venueA: VertexId, venueB: VertexId)
    | Heartbeat
    | BarrierSync

  datatype Message = Message(src: VertexId, dst: VertexId, step: Superstep, body: Body)

  /** What a message can be selected by: recipient, sender, or the worker that owns the recipient. */
  datatype Selector =
    | AddressedTo(v: VertexId)
    | SentBy(v: VertexId)
    | OwnedBy(overrides: map<VertexId, WorkerId>, workerCount: nat, w: WorkerId)

  /** The owner of a vertex: its override if it has one, else its identifier modulo the number of workers. */
  function Owner(overrides: map<VertexId, WorkerId>, workerCount: nat, v: VertexId): WorkerId
    requires workerCount > 0
  {
    if v in overrides then overrides[v] else v % workerCount
  }

  predicate Selects(p: Selector, m: Message) {
    match p
    case AddressedTo(v) => m.dst == v
    case SentBy(v) => m.src == v
    case OwnedBy(overrides, n, w) => n > 0 && Owner(overrides, n, m.dst) == w
  }

  /** The messages of s that p selects, in their order in s. */
  function Keep(s: seq<Message>, p: Selector): seq<Message> {
    if s == [] then []
    else
      var rest := Keep(s[..|s| - 1], p);
      if Selects(p, s[|s| - 1]) then rest + [s[|s| - 1]] else rest
  }

  lemma {:induction false} KeepConcat(s: seq<Message>, t: seq<Message>, p: Selector)
    ensures Keep(s + t, p) == Keep(s, p) + Keep(t, p)
  {
    if t == [] {
      assert s + t == s;
    } else {
      assert (s + t)[..|s + t| - 1] == s + t[..|t| - 1];
      KeepConcat(s, t[..|t| - 1], p);
    }
  }

  lemma {:induction false} KeepAll(s: seq<Message>, p: Selector)
    requires forall m | m in s :: Selects(p, m)
    ensures Keep(s, p) == s
  {
    if s != [] {
      KeepAll(s[..|s| - 1], p);
    }
  }

  lemma {:induction false} KeepNone(s: seq<Message>, p: Selector)
    requires forall m | m in s :: !Selects(p, m)
    ensures Keep(s, p) == []
  {
    if s != [] {
      KeepNone(s[..|s| - 1], p);
    }
  }

  lemma {:induction false} KeepMember(s: seq<Message>, p: Selector, m: Message)
    ensures m in Keep(s, p) <==> m in s && Selects(p, m)
  {
    if s != [] {
      KeepMember(s[..|s| - 1], p, m);
      assert s == s[..|s| - 1] + [s[|s| - 1]];
    }
  }

  // ----- short sequences

  function One(m: Message, p: Selector): seq<Message> {
    if Selects(p, m) then [m] else []
  }

  lemma KeepOne(m: Message, p: Selector)
    ensures Keep([m], p) == One(m, p)
  {
    assert [m][..0] == [];
  }

  lemma KeepThree(a: Message, b: Message, c: Message, p: Selector)
    ensures Keep([a, b, c], p) == One(a, p) + One(b, p) + One(c, p)
  {
    KeepOne(a, p);
    KeepOne(b, p);
    KeepOne(c, p);
    KeepConcat([a], [b], p);
    KeepConcat([a, b], [c], p);
    assert [a] + [b] == [a, b] && [a, b] + [c] == [a, b, c];
  }

  lemma KeepFour(a: Message, b: Message, c: Message, d: Message, p: Selector)
    ensures Keep([a, b, c, d], p) == One(a, p) + One(b, p) + One(c, p) + One(d, p)
  {
    KeepThree(a, b, c, p);
    KeepOne(d, p);
    KeepConcat([a, b, c], [d], p);
    assert [a, b, c] + [d] == [a, b, c, d];
  }
}
