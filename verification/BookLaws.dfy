/** What the vertex programs keep: over one step, over any run of steps, and over any order of the mail. */
module BookLaws {
  import opened Messages
  import opened Bsp
  import opened OrderBook

  /** The mail and the number of one superstep, as a vertex sees it. */
  datatype Turn = Turn(inbox: seq<Message>, step: Superstep)

  // ----- orders

  /** An active order still has something to fill. */
  predicate Sound(o: Order) {
    o.quantity < WORD && (o.active ==> o.filled < o.quantity)
  }

  lemma {:induction false} ReadMailSound(o: Order, inbox: seq<Message>)
    requires Sound(o) && o.active
    ensures Sound(ReadMail(o, inbox)) && ReadMail(o, inbox).quantity == o.quantity
            && ReadMail(o, inbox).limitPrice == o.limitPrice
    decreases |inbox|
  {
    if inbox != [] {
      match inbox[0].body {
        case PriceUpdate(bid, ask, _, _) => ReadMailSound(o.(best := if o.side.Bid? then bid else ask), inbox[1..]);
        case OrderFill(_, qty, _) =>
          var filled := (o.filled + qty) % WORD;
          if filled < o.quantity {
            ReadMailSound(o.(filled := filled), inbox[1..]);
          }
        case CancelAck =>
        case _ => ReadMailSound(o, inbox[1..]);
      }
    }
  }

  /** An order after a run of turns, its outbox left to grow. */
  function OrderAfter(id: VertexId, edges: seq<Edge>, s: VertexState<Order>, turns: seq<Turn>): VertexState<Order> {
    if turns == [] then s
    else
      var last := turns[|turns| - 1];
      OrderStep(id, edges, OrderAfter(id, edges, s, turns[..|turns| - 1]), last.inbox, last.step)
  }

  /** A fill an order may emit: at its limit, for what is left, signed, numbered by order and step. */
  predicate FairFill(id: VertexId, o: Order, step: Superstep, m: Message) {
    && m.src == id && m.step == step && m.body.OrderFill? && m.body.price == o.limitPrice
    && 1 <= m.body.qty <= o.quantity && m.body.tradeId == TradeId(id, step)
  }

  /** What a step adds to the outbox of an order. */
  function Emitted(id: VertexId, edges: seq<Edge>, o: Order, turn: Turn): seq<Message> {
    OrderStep(id, edges, VertexState(false, [], o), turn.inbox, turn.step).outbox
  }

  lemma {:induction false} EmitsFairFills(id: VertexId, edges: seq<Edge>, o: Order, turn: Turn)
    requires Sound(o)
    ensures forall m | m in Emitted(id, edges, o, turn) :: FairFill(id, o, turn.step, m)
    ensures Emitted(id, edges, o, turn) != [] ==> |Emitted(id, edges, o, turn)| == |edges|
    ensures Sound(OrderStep(id, edges, VertexState(false, [], o), turn.inbox, turn.step).local)
  {
    if o.active {
      ReadMailSound(o, turn.inbox);
      var p := ReadMail(o, turn.inbox);
      FanEvery(id, edges, turn.step, FillOf(id, p, turn.step));
      forall m | m in Emitted(id, edges, o, turn) ensures FairFill(id, o, turn.step, m) {
        FanMember(id, edges, Every, turn.step, FillOf(id, p, turn.step), m);
      }
    }
  }

  ghost predicate FromTurns(id: VertexId, o: Order, turns: seq<Turn>, ms: seq<Message>) {
    forall m | m in ms :: exists i :: 0 <= i < |turns| && FairFill(id, o, turns[i].step, m)
  }

  /**
   Over any run: an active order is never filled up, an inactive one never changes again and stays
   halted, and everything emitted is a fair fill of some turn.
   */
  lemma {:induction false} OrderRun(id: VertexId, edges: seq<Edge>, s: VertexState<Order>, turns: seq<Turn>)
    requires Sound(s.local) && s.outbox == []
    ensures var r := OrderAfter(id, edges, s, turns);
      && Sound(r.local) && r.local.quantity == s.local.quantity && r.local.limitPrice == s.local.limitPrice
      && (!s.local.active ==> r.local == s.local && r.outbox == [] && (turns != [] ==> r.halted))
      && FromTurns(id, s.local, turns, r.outbox)
  {
    if turns != [] {
      var early, last := turns[..|turns| - 1], turns[|turns| - 1];
      OrderRun(id, edges, s, early);
      var p := OrderAfter(id, edges, s, early);
      EmitsFairFills(id, edges, p.local, last);
      if p.local.active {
        ReadMailSound(p.local, last.inbox);
      }
      var r := OrderAfter(id, edges, s, turns);
      assert r.outbox == p.outbox + Emitted(id, edges, p.local, last);
      forall m | m in r.outbox ensures exists i :: 0 <= i < |turns| && FairFill(id, s.local, turns[i].step, m) {
        if m in p.outbox {
          var i :| 0 <= i < |early| && FairFill(id, s.local, early[i].step, m);
          assert turns[i] == early[i];
        } else {
          assert FairFill(id, s.local, turns[|turns| - 1].step, m);
        }
      }
    }
  }

  /** The number of fills in an inbox and their total quantity. */
  function Fills(inbox: seq<Message>): nat {
    if inbox == [] then 0 else Fills(inbox[..|inbox| - 1]) + if inbox[|inbox| - 1].body.OrderFill? then 1 else 0
  }

  function Quantity(inbox: seq<Message>): nat {
    if inbox == [] then 0
    else Quantity(inbox[..|inbox| - 1]) + if inbox[|inbox| - 1].body.OrderFill? then inbox[|inbox| - 1].body.qty else 0
  }

  lemma {:induction false} QuantityFirst(m: Message, rest: seq<Message>)
    ensures Quantity([m] + rest) == Quantity([m]) + Quantity(rest)
  {
    if rest == [] {
      assert [m] + rest == [m];
    } else {
      assert ([m] + rest)[..|rest|] == [m] + rest[..|rest| - 1];
      QuantityFirst(m, rest[..|rest| - 1]);
    }
  }

  predicate Cancels(m: Message) {
    m.body.CancelAck?
  }

  /** Short of overflow, an order becomes inactive exactly if it is cancelled or the fills reach its quantity. */
  lemma {:induction false} InactiveExactlyWhenFilledOrCancelled(o: Order, inbox: seq<Message>)
    requires Sound(o) && o.active && o.filled + Quantity(inbox) < WORD
    ensures !ReadMail(o, inbox).active <==>
              (o.filled + Quantity(inbox) >= o.quantity || exists m :: m in inbox && Cancels(m))
    ensures ReadMail(o, inbox).active ==> ReadMail(o, inbox).filled == o.filled + Quantity(inbox)
    decreases |inbox|
  {
    hide ReadMail, Quantity;
    if inbox == [] {
      NothingRead(o);
    } else {
      var rest := inbox[1..];
      QuantityRest(inbox);
      ReadFirst(o, inbox);
      assert forall m :: m in inbox <==> m == inbox[0] || m in rest;
      match inbox[0].body {
        case PriceUpdate(bid, ask, _, _) =>
          InactiveExactlyWhenFilledOrCancelled(o.(best := if o.side.Bid? then bid else ask), rest);
        case OrderFill(_, qty, _) =>
          if o.filled + qty < o.quantity {
            InactiveExactlyWhenFilledOrCancelled(o.(filled := o.filled + qty), rest);
          }
        case CancelAck => assert Cancels(inbox[0]);
        case _ => InactiveExactlyWhenFilledOrCancelled(o, rest);
      }
    }
  }

  lemma NothingRead(o: Order)
    ensures ReadMail(o, []) == o && Quantity([]) == 0
  {
  }

  lemma {:induction false} QuantityRest(inbox: seq<Message>)
    requires inbox != []
    ensures var m := inbox[0];
      Quantity(inbox) == Quantity(inbox[1..]) + if m.body.OrderFill? then m.body.qty else 0
  {
    assert inbox == [inbox[0]] + inbox[1..] && [inbox[0]][..0] == [];
    QuantityFirst(inbox[0], inbox[1..]);
  }

  /** What an order makes of its first message, short of overflow. */
  lemma {:induction false} ReadFirst(o: Order, inbox: seq<Message>)
    requires inbox != [] && (inbox[0].body.OrderFill? ==> o.filled + inbox[0].body.qty < WORD)
    ensures var rest := inbox[1..];
      ReadMail(o, inbox)
        == match inbox[0].body
           case PriceUpdate(bid, ask, _, _) => ReadMail(o.(best := if o.side.Bid? then bid else ask), rest)
           case OrderFill(_, qty, _) =>
             if o.filled + qty >= o.quantity then o.(filled := o.filled + qty, active := false)
             else ReadMail(o.(filled := o.filled + qty), rest)
           case CancelAck => o.(active := false)
           case _ => ReadMail(o, rest)
  {
  }

  /** An order that hears nothing and cannot trade halts at its eleventh idle step, not its tenth. */
  lemma {:induction false} HaltsAfterElevenIdleSteps(id: VertexId, edges: seq<Edge>, s: VertexState<Order>,
      turns: seq<Turn>)
    requires s.local.active && !Marketable(s.local) && s.local.idle == 0 && !s.halted
    requires |turns| < HALF_WORD && forall t | t in turns :: t.inbox == []
    ensures var r := OrderAfter(id, edges, s, turns);
      r.outbox == s.outbox && r.local == s.local.(idle := |turns|) && (r.halted <==> |turns| >= 11)
  {
    if turns != [] {
      HaltsAfterElevenIdleSteps(id, edges, s, turns[..|turns| - 1]);
      assert turns[|turns| - 1].inbox == [];
    }
  }

  // ----- trade identifiers

  /** b shifted left by k bits. */
  function Shifted(b: nat, k: nat): nat {
    if k == 0 then b else 2 * Shifted(b, k - 1)
  }

  /** The k lowest bits of a, and the rest. */
  function Low(a: nat, k: nat): nat {
    if k == 0 then 0 else a % 2 + 2 * Low(a / 2, k - 1)
  }

  function High(a: nat, k: nat): nat {
    if k == 0 then a else High(a / 2, k - 1)
  }

  lemma {:induction false} LowAndHigh(a: nat, k: nat)
    ensures a == Low(a, k) + Shifted(High(a, k), k) && Low(a, k) < Shifted(1, k)
  {
    if k > 0 {
      LowAndHigh(a / 2, k - 1);
    }
  }

  lemma XorEven(a: nat, h: nat)
    ensures Xor(a, 2 * h) == a % 2 + 2 * Xor(a / 2, h)
  {
    XorBits(a, 2 * h);
    Twice(h);
    BitsOfZero(a);
    hide Xor;
  }

  lemma Twice(h: nat)
    ensures (2 * h) % 2 == 0 && (2 * h) / 2 == h
  {
  }

  /** Also for zero, where the definition stops. */
  lemma XorBits(a: nat, b: nat)
    ensures Xor(a, b) == (a % 2 + b % 2) % 2 + 2 * Xor(a / 2, b / 2)
  {
  }

  lemma BitsOfZero(a: nat)
    ensures (a % 2 + 0) % 2 == a % 2
  {
  }

  /** With a shifted number only the high bits take part. */
  lemma {:induction false} XorShifted(a: nat, b: nat, k: nat)
    ensures Xor(a, Shifted(b, k)) == Low(a, k) + Shifted(Xor(High(a, k), b), k)
  {
    if k > 0 {
      XorEven(a, Shifted(b, k - 1));
      XorShifted(a / 2, b, k - 1);
    }
  }

  lemma ShiftedByte(b: nat, k: nat)
    ensures Shifted(b, k + 8) == 256 * Shifted(b, k)
  {
    assert Shifted(b, k + 2) == 4 * Shifted(b, k);
    assert Shifted(b, k + 4) == 4 * Shifted(b, k + 2);
    assert Shifted(b, k + 6) == 4 * Shifted(b, k + 4);
    assert Shifted(b, k + 8) == 4 * Shifted(b, k + 6);
  }

  lemma ShiftedHalfWord(b: nat)
    ensures Shifted(b, 32) == b * HALF_WORD
  {
    ShiftedByte(b, 0);
    ShiftedByte(b, 8);
    ShiftedByte(b, 16);
    ShiftedByte(b, 24);
  }

  lemma Halves(a: nat)
    ensures Low(a, 32) == a % HALF_WORD && High(a, 32) == a / HALF_WORD
  {
    hide Low, High, Shifted;
    LowAndHigh(a, 32);
    ShiftedHalfWord(1);
    ShiftedHalfWord(High(a, 32));
  }

  lemma StepShifted(step: Superstep)
    ensures step * HALF_WORD % WORD == (step % HALF_WORD) * HALF_WORD
  {
    var q, r := step / HALF_WORD, step % HALF_WORD;
    assert step * HALF_WORD == q * WORD + r * HALF_WORD;
  }

  /** The low half of a trade identifier is the order's; the high half mixes the order's with the step. */
  lemma {:induction false} TradeIdHalves(id: VertexId, step: Superstep)
    ensures TradeId(id, step) == id % HALF_WORD + Xor(id / HALF_WORD, step % HALF_WORD) * HALF_WORD
  {
    hide Xor, Low, High, Shifted;
    StepShifted(step);
    ShiftedHalfWord(step % HALF_WORD);
    Halves(id);
    XorShifted(id, step % HALF_WORD, 32);
    ShiftedHalfWord(Xor(id / HALF_WORD, step % HALF_WORD));
  }

  /** Exactly when two trade identifiers coincide, for all orders and steps. */
  lemma {:induction false} TradeIdsEqualExactly(id: VertexId, step: Superstep, otherId: VertexId, otherStep: Superstep)
    ensures TradeId(id, step) == TradeId(otherId, otherStep) <==>
              && id % HALF_WORD == otherId % HALF_WORD
              && Xor(id / HALF_WORD, step % HALF_WORD) == Xor(otherId / HALF_WORD, otherStep % HALF_WORD)
  {
    hide Xor, TradeId;
    TradeIdHalves(id, step);
    TradeIdHalves(otherId, otherStep);
  }

  /** No two orders, and no two steps of one order, share a trade identifier below 2^32. */
  lemma {:induction false} TradeIdsDistinct(id: VertexId, step: Superstep, otherId: VertexId, otherStep: Superstep)
    requires id < HALF_WORD && step < HALF_WORD && otherId < HALF_WORD && otherStep < HALF_WORD
    ensures TradeId(id, step) == TradeId(otherId, otherStep) <==> id == otherId && step == otherStep
  {
    hide TradeId;
    TradeIdsEqualExactly(id, step, otherId, otherStep);
  }

  /** The bounds matter: past them two orders do collide. */
  lemma TradeIdsCollide()
    ensures TradeId(0, 1) == TradeId(HALF_WORD, 0)
  {
  }

  /** The trade identifiers of a run, in emission order. */
  function TradeIds(ms: seq<Message>): seq<nat> {
    if ms == [] then []
    else
      var last := ms[|ms| - 1];
      TradeIds(ms[..|ms| - 1]) + (if last.body.OrderFill? then [last.body.tradeId] else [])
  }

  ghost predicate AllDistinct(s: seq<nat>) {
    forall i, j | 0 <= i < j < |s| :: s[i] != s[j]
  }

  predicate Increasing(turns: seq<Turn>) {
    && (forall t | t in turns :: t.step < HALF_WORD)
    && forall i, j | 0 <= i < j < |turns| :: turns[i].step < turns[j].step
  }

  lemma StepAppends(id: VertexId, edges: seq<Edge>, s: VertexState<Order>, turn: Turn)
    ensures OrderStep(id, edges, s, turn.inbox, turn.step).outbox == s.outbox + Emitted(id, edges, s.local, turn)
  {
    hide Fan, ReadMail, FillOf;
  }

  lemma OneMoreTurn(id: VertexId, edges: seq<Edge>, s: VertexState<Order>, turns: seq<Turn>)
    requires turns != []
    ensures var p := OrderAfter(id, edges, s, turns[..|turns| - 1]);
      OrderAfter(id, edges, s, turns).outbox == p.outbox + Emitted(id, edges, p.local, turns[|turns| - 1])
  {
    hide OrderStep, Emitted;
    StepAppends(id, edges, OrderAfter(id, edges, s, turns[..|turns| - 1]), turns[|turns| - 1]);
  }

  /** Over a whole run an order with one edge never uses a trade identifier twice. */
  lemma {:induction false} RunTradeIdsDistinct(id: VertexId, edges: seq<Edge>, s: VertexState<Order>, turns: seq<Turn>)
    requires Sound(s.local) && s.outbox == [] && id < HALF_WORD && |edges| <= 1 && Increasing(turns)
    ensures AllDistinct(TradeIds(OrderAfter(id, edges, s, turns).outbox))
  {
    if turns == [] {
      assert TradeIds([]) == [];
    } else {
      hide OrderStep, Emitted, FairFill, TradeId, Sound;
      var early, last := turns[..|turns| - 1], turns[|turns| - 1];
      RunTradeIdsDistinct(id, edges, s, early);
      OrderRun(id, edges, s, early);
      OneMoreTurn(id, edges, s, turns);
      var p := OrderAfter(id, edges, s, early);
      EmitsFairFills(id, edges, p.local, last);
      var out := Emitted(id, edges, p.local, last);
      if out == [] {
        assert p.outbox + out == p.outbox;
      } else {
        assert out == [out[0]];
        OneMoreFill(id, s.local, p.local, turns, p.outbox, out[0]);
      }
    }
  }

  lemma {:induction false} OneMoreFill(id: VertexId, first: Order, o: Order, turns: seq<Turn>,
      ms: seq<Message>, m: Message)
    requires turns != [] && id < HALF_WORD && Increasing(turns) && AllDistinct(TradeIds(ms))
    requires FairFill(id, o, turns[|turns| - 1].step, m)
    requires FromTurns(id, first, turns[..|turns| - 1], ms)
    ensures AllDistinct(TradeIds(ms + [m]))
  {
    hide TradeId;
    var early, last := turns[..|turns| - 1], turns[|turns| - 1];
    assert (ms + [m])[..|ms + [m]| - 1] == ms;
    forall k | 0 <= k < |TradeIds(ms)| ensures TradeIds(ms)[k] != m.body.tradeId {
      var i := TradeIdFrom(id, first, early, ms, k);
      assert early[i] == turns[i] && turns[i] in turns && last in turns;
      TradeIdsDistinct(id, early[i].step, id, last.step);
    }
  }

  lemma {:induction false} TradeIdFrom(id: VertexId, o: Order, turns: seq<Turn>, ms: seq<Message>, k: nat)
    returns (i: nat)
    requires k < |TradeIds(ms)|
    requires FromTurns(id, o, turns, ms)
    ensures i < |turns| && TradeIds(ms)[k] == TradeId(id, turns[i].step)
  {
    hide TradeId;
    var front, m := ms[..|ms| - 1], ms[|ms| - 1];
    assert ms == front + [m];
    if k < |TradeIds(front)| {
      forall x | x in front ensures x in ms {
      }
      i := TradeIdFrom(id, o, turns, front, k);
    } else {
      assert m in ms;
      i :| 0 <= i < |turns| && FairFill(id, o, turns[i].step, m);
    }
  }

  /** With two edges or more both copies of a fill carry the same identifier. */
  lemma {:induction false} SharedTradeId(id: VertexId, edges: seq<Edge>, o: Order, turn: Turn)
    requires Sound(o) && |Emitted(id, edges, o, turn)| > 0
    ensures (forall i, j | 0 <= i < j < |Emitted(id, edges, o, turn)| ::
              Emitted(id, edges, o, turn)[i].body != Emitted(id, edges, o, turn)[j].body) <==> |edges| == 1
  {
    EmitsFairFills(id, edges, o, turn);
    var out := Emitted(id, edges, o, turn);
    if |out| > 1 {
      var p := ReadMail(o, turn.inbox);
      forall m | m in out ensures m.body == FillOf(id, p, turn.step) {
        FanMember(id, edges, Every, turn.step, FillOf(id, p, turn.step), m);
      }
      assert out[0] in out && out[1] in out;
    }
  }

  // ----- price levels

  /**
   The saturating loop in closed form: any fills that reach the total empty the level, otherwise each
   fill takes its quantity and one order.
   */
  lemma {:induction false} LevelClosedForm(k: Stock, inbox: seq<Message>)
    ensures var n, q := Fills(inbox), Quantity(inbox);
      && (n == 0 ==> q == 0)
      && Fold(Absorb, k, inbox) ==
           if n >= 1 && q >= k.total then Stock(0, 0)
           else Stock(k.total - q, if k.count > n then k.count - n else 0)
  {
    if inbox != [] {
      LevelClosedForm(k, inbox[..|inbox| - 1]);
    }
  }

  lemma AbsorbCommutes()
    ensures Commutes(Absorb)
  {
  }

  /** What a level becomes, whether it halts and what it tells its venue do not depend on the order of its mail. */
  lemma {:induction false} LevelIgnoresMailOrder(
    id: VertexId, edges: seq<Edge>, s: VertexState<Level>, inbox: seq<Message>, other: seq<Message>, step: Superstep)
    requires multiset(inbox) == multiset(other)
    ensures var r, t := LevelStep(id, edges, s, inbox, step), LevelStep(id, edges, s, other, step);
      r.local == t.local && r.halted == t.halted
      && Upstream(id, edges, s.local, r.local.total, step) == Upstream(id, edges, s.local, t.local.total, step)
  {
    AbsorbCommutes();
    FoldPermutes(Absorb, Stock(s.local.total, s.local.count), inbox, other);
    assert |inbox| == |multiset(inbox)| && |other| == |multiset(other)|;
  }

  function LevelAfter(id: VertexId, edges: seq<Edge>, s: VertexState<Level>, turns: seq<Turn>): VertexState<Level> {
    if turns == [] then s
    else
      var last := turns[|turns| - 1];
      LevelStep(id, edges, LevelAfter(id, edges, s, turns[..|turns| - 1]), last.inbox, last.step)
  }

  function AllMail(turns: seq<Turn>): seq<Message> {
    if turns == [] then [] else AllMail(turns[..|turns| - 1]) + turns[|turns| - 1].inbox
  }

  /** A whole run takes from the level what one pass over all its mail would take. */
  lemma {:induction false} LevelRunIsOnePass(id: VertexId, edges: seq<Edge>, s: VertexState<Level>, turns: seq<Turn>)
    ensures var r := LevelAfter(id, edges, s, turns).local;
      && Stock(r.total, r.count) == Stocked(s.local, AllMail(turns))
      && r.price == s.local.price && r.side == s.local.side
      && (turns != [] ==> r.prev == r.total)
  {
    if turns != [] {
      LevelRunIsOnePass(id, edges, s, turns[..|turns| - 1]);
      FoldConcat(Absorb, Stock(s.local.total, s.local.count), AllMail(turns[..|turns| - 1]), turns[|turns| - 1].inbox);
    }
  }

  /** Quantity only ever leaves a level, and an empty level stays empty. */
  lemma {:induction false} LevelNeverRefills(id: VertexId, edges: seq<Edge>, s: VertexState<Level>, turns: seq<Turn>)
    ensures var r := LevelAfter(id, edges, s, turns).local;
      r.total == if Quantity(AllMail(turns)) >= s.local.total then 0 else s.local.total - Quantity(AllMail(turns))
  {
    LevelRunIsOnePass(id, edges, s, turns);
    LevelClosedForm(Stock(s.local.total, s.local.count), AllMail(turns));
  }

  /** After its first turn a level tells its venue exactly when its quantity has just dropped. */
  lemma {:induction false} UpstreamExactlyWhenDropped(
    id: VertexId, edges: seq<Edge>, s: VertexState<Level>, turns: seq<Turn>, turn: Turn)
    requires turns != [] && exists e :: e in edges && e.kind == 2
    ensures var p := LevelAfter(id, edges, s, turns).local;
      var k := Stocked(p, turn.inbox);
      k.total <= p.total && (Upstream(id, edges, p, k.total, turn.step) != [] <==> k.total < p.total)
  {
    LevelRunIsOnePass(id, edges, s, turns);
    var p := LevelAfter(id, edges, s, turns).local;
    var k := Stocked(p, turn.inbox);
    LevelClosedForm(Stock(p.total, p.count), turn.inbox);
    var e :| e in edges && e.kind == 2;
    FanMember(id, edges, OfKind(2), turn.step, Quote(p, k.total), Message(id, e.dst, turn.step, Quote(p, k.total)));
    assert Takes(OfKind(2), e);
  }

  // ----- venues

  /** The loop of a venue with the ask size left out. */
  function ListenQuotes(v: Venue, m: Message): Venue {
    Listen(v, m).(askSize := 0)
  }

  function HigherBid(best: int, m: Message): int {
    if m.body.PriceUpdate? && m.body.bid > 0 && m.body.bid > best then m.body.bid else best
  }

  function MoreBids(size: nat, m: Message): nat {
    if m.body.PriceUpdate? && m.body.bid > 0 then (size + m.body.bidQty) % WORD else size
  }

  function LowerAsk(best: int, m: Message): int {
    if m.body.PriceUpdate? && m.body.ask > 0 && (best == 0 || m.body.ask < best) then m.body.ask else best
  }

  /** A message acts on the best bid, the bid size and the best ask separately. */
  lemma ListenParts(v: Venue, m: Message)
    ensures ListenQuotes(v, m) == Venue(HigherBid(v.bestBid, m), LowerAsk(v.bestAsk, m), MoreBids(v.bidSize, m), 0)
  {
  }

  lemma PartsCommute(v: Venue, x: Message, y: Message)
    ensures HigherBid(HigherBid(v.bestBid, x), y) == HigherBid(HigherBid(v.bestBid, y), x)
    ensures LowerAsk(LowerAsk(v.bestAsk, x), y) == LowerAsk(LowerAsk(v.bestAsk, y), x)
    ensures MoreBids(MoreBids(v.bidSize, x), y) == MoreBids(MoreBids(v.bidSize, y), x)
  {
  }

  lemma ListenQuotesCommutes()
    ensures Commutes(ListenQuotes)
  {
    hide ListenQuotes, HigherBid, LowerAsk, MoreBids;
    forall v: Venue, x: Message, y: Message
      ensures ListenQuotes(ListenQuotes(v, x), y) == ListenQuotes(ListenQuotes(v, y), x)
    {
      ListenParts(v, x);
      ListenParts(v, y);
      ListenParts(ListenQuotes(v, x), y);
      ListenParts(ListenQuotes(v, y), x);
      PartsCommute(v, x, y);
    }
  }

  lemma {:induction false} ListenWithoutAskSize(v: Venue, inbox: seq<Message>)
    ensures Fold(Listen, v, inbox).(askSize := 0) == Fold(ListenQuotes, v.(askSize := 0), inbox)
  {
    if inbox != [] {
      ListenWithoutAskSize(v, inbox[..|inbox| - 1]);
    }
  }

  /** The order of a venue's mail decides nothing but its ask size. */
  lemma {:induction false} VenueIgnoresMailOrder(
    id: VertexId, edges: seq<Edge>, s: VertexState<Venue>, inbox: seq<Message>, other: seq<Message>,
    step: Superstep, noise: int)
    requires multiset(inbox) == multiset(other)
    ensures var r, t := VenueStep(id, edges, s, inbox, step, noise), VenueStep(id, edges, s, other, step, noise);
      r.local.(askSize := 0) == t.local.(askSize := 0) && r.halted == t.halted
  {
    ListenQuotesCommutes();
    FoldPermutes(ListenQuotes, s.local.(askSize := 0), inbox, other);
    ListenWithoutAskSize(s.local, inbox);
    ListenWithoutAskSize(s.local, other);
  }

  /** An ask that would improve on the venue's best as it stands before the mail is read. */
  predicate Improves(v: Venue, m: Message) {
    m.body.PriceUpdate? && m.body.ask > 0 && (v.bestAsk == 0 || m.body.ask < v.bestAsk)
  }

  /** Of two improving asks the worse brings no size, and equally good ones bring the same. */
  predicate Agree(x: Message, y: Message)
    requires x.body.PriceUpdate? && y.body.PriceUpdate?
  {
    && (x.body.ask > y.body.ask ==> x.body.askQty % WORD == 0)
    && (x.body.ask == y.body.ask ==> x.body.askQty % WORD == y.body.askQty % WORD)
  }

  ghost predicate Harmonious(v: Venue, inbox: seq<Message>) {
    forall x, y | x in inbox && y in inbox && Improves(v, x) && Improves(v, y) :: Agree(x, y)
  }

  /** What a message does to the ask side. */
  lemma ListenAsk(v: Venue, m: Message)
    ensures Listen(v, m).bestAsk == if Improves(v, m) then m.body.ask else v.bestAsk
    ensures Listen(v, m).askSize == if Improves(v, m) then (v.askSize + m.body.askQty) % WORD else v.askSize
  {
  }

  lemma AddTwice(size: nat, first: nat, second: nat)
    requires first % WORD == 0
    ensures ((size + first) % WORD + second) % WORD == (size + second) % WORD
  {
    var k, q := first / WORD, (size + first) / WORD;
    assert first == k * WORD && size + first == q * WORD + (size + first) % WORD;
    AddWords(size + second, k - q);
  }

  lemma AddWords(x: int, k: int)
    ensures (x + k * WORD) % WORD == x % WORD
  {
  }

  /** If nothing improves the ask side stays; otherwise some best ask of the inbox decides it alone. */
  ghost predicate DecidedBy(v: Venue, inbox: seq<Message>, x: Message) {
    && x in inbox && Improves(v, x)
    && (forall y | y in inbox && Improves(v, y) :: x.body.ask <= y.body.ask)
    && Fold(Listen, v, inbox).bestAsk == x.body.ask
    && Fold(Listen, v, inbox).askSize == (v.askSize + x.body.askQty) % WORD
  }

  ghost predicate Undecided(v: Venue, inbox: seq<Message>) {
    && (forall y | y in inbox :: !Improves(v, y))
    && Fold(Listen, v, inbox).bestAsk == v.bestAsk && Fold(Listen, v, inbox).askSize == v.askSize
  }

  lemma {:induction false} BestAskDecides(v: Venue, inbox: seq<Message>)
    requires Harmonious(v, inbox)
    ensures Undecided(v, inbox) || exists x :: DecidedBy(v, inbox, x)
  {
    if inbox != [] {
      var front, m := inbox[..|inbox| - 1], inbox[|inbox| - 1];
      assert inbox == front + [m];
      BestAskDecides(v, front);
      ListenAsk(Fold(Listen, v, front), m);
      if Undecided(v, front) {
        assert Improves(v, m) ==> DecidedBy(v, inbox, m);
        assert !Improves(v, m) ==> Undecided(v, inbox);
      } else {
        var x :| DecidedBy(v, front, x);
        OneMoreAsk(v, front, m, x);
      }
    }
  }

  lemma OneMoreAsk(v: Venue, front: seq<Message>, m: Message, x: Message)
    requires Harmonious(v, front + [m]) && DecidedBy(v, front, x)
    ensures DecidedBy(v, front + [m], x) || DecidedBy(v, front + [m], m)
  {
    var inbox := front + [m];
    assert inbox[..|inbox| - 1] == front && x in inbox && m in inbox;
    var p := Fold(Listen, v, front);
    ListenAsk(p, m);
    hide Listen, Harmonious;
    if Improves(p, m) {
      assert Improves(v, m);
      WorseBringsNothing(v, inbox, x, m);
      AddTwice(v.askSize, x.body.askQty, m.body.askQty);
      assert DecidedBy(v, inbox, m);
    } else {
      assert DecidedBy(v, inbox, x);
    }
  }

  lemma WorseBringsNothing(v: Venue, inbox: seq<Message>, x: Message, y: Message)
    requires Harmonious(v, inbox) && x in inbox && y in inbox && Improves(v, x) && Improves(v, y)
    requires x.body.ask > y.body.ask
    ensures x.body.askQty % WORD == 0
  {
    assert Agree(x, y);
  }

  lemma SameSize(size: nat, first: nat, second: nat)
    ensures first % WORD == second % WORD <==> (size + first) % WORD == (size + second) % WORD
  {
  }

  lemma {:induction false} HarmonyFixesAskSize(v: Venue, inbox: seq<Message>, other: seq<Message>)
    requires Harmonious(v, inbox) && multiset(inbox) == multiset(other)
    ensures Fold(Listen, v, inbox).askSize == Fold(Listen, v, other).askSize
  {
    forall m ensures m in inbox <==> m in other {
      assert m in inbox <==> m in multiset(inbox);
      assert m in other <==> m in multiset(other);
    }
    BestAskDecides(v, inbox);
    BestAskDecides(v, other);
    hide Listen;
    if !Undecided(v, inbox) {
      var x :| DecidedBy(v, inbox, x);
      assert x in other && Improves(v, x);
      var y :| DecidedBy(v, other, y);
      assert y in inbox && Agree(x, y);
      SameSize(v.askSize, x.body.askQty, y.body.askQty);
    }
  }

  /** Two venues with one best ask and different ask sizes still differ after the same mail. */
  lemma {:induction false} SizesStayApart(v: Venue, w: Venue, rest: seq<Message>)
    requires v.bestAsk == w.bestAsk && v.askSize % WORD != w.askSize % WORD
    ensures var a, b := Fold(Listen, v, rest), Fold(Listen, w, rest);
      a.bestAsk == b.bestAsk && a.askSize % WORD != b.askSize % WORD
  {
    if rest != [] {
      SizesStayApart(v, w, rest[..|rest| - 1]);
      var a, b, m := Fold(Listen, v, rest[..|rest| - 1]), Fold(Listen, w, rest[..|rest| - 1]), rest[|rest| - 1];
      ListenAsk(a, m);
      ListenAsk(b, m);
      hide Listen;
      if Improves(a, m) {
        SameSize(m.body.askQty, a.askSize, b.askSize);
      }
    }
  }

  lemma ExtraShows(size: nat, first: nat, second: nat)
    requires first % WORD != 0
    ensures ((size + first) % WORD + second) % WORD % WORD != (size + second) % WORD % WORD
  {
    SameSize(size + second, first, 0);
    AddLate(size + first, second);
  }

  lemma AddLate(x: nat, y: nat)
    ensures (x % WORD + y) % WORD == (x + y) % WORD
  {
  }

  lemma DifferenceShows(size: nat, first: nat, second: nat)
    requires first % WORD != second % WORD
    ensures (size + first) % WORD % WORD != (size + second) % WORD % WORD
  {
    SameSize(size, first, second);
  }

  /** Reading two disagreeing asks in one order or the other leaves different sizes behind. */
  lemma DisagreeingPair(v: Venue, x: Message, y: Message)
    requires Improves(v, x) && Improves(v, y) && !Agree(x, y)
    ensures var a, b := Listen(Listen(v, x), y), Listen(Listen(v, y), x);
      a.bestAsk == b.bestAsk && a.askSize % WORD != b.askSize % WORD
  {
    ListenAsk(v, x);
    ListenAsk(v, y);
    ListenAsk(Listen(v, x), y);
    ListenAsk(Listen(v, y), x);
    hide Listen;
    if x.body.ask > y.body.ask {
      ExtraShows(v.askSize, x.body.askQty, y.body.askQty);
    } else {
      DifferenceShows(v.askSize, x.body.askQty, y.body.askQty);
    }
  }

  lemma {:induction false} FoldPair(v: Venue, x: Message, y: Message, rest: seq<Message>)
    ensures Fold(Listen, v, [x, y] + rest) == Fold(Listen, Listen(Listen(v, x), y), rest)
  {
    hide Listen;
    FoldConcat(Listen, v, [x, y], rest);
    assert [x, y][..1] == [x] && [x][..0] == [];
    assert Fold(Listen, v, [x]) == Listen(v, x);
    assert Fold(Listen, v, [x, y]) == Listen(Fold(Listen, v, [x]), y);
  }

  /** Two orders of the inbox that leave different ask sizes, if two improving asks disagree. */
  lemma {:induction false} DisharmonyShows(v: Venue, inbox: seq<Message>) returns (s: seq<Message>, t: seq<Message>)
    requires !Harmonious(v, inbox)
    ensures multiset(s) == multiset(inbox) == multiset(t)
    ensures Fold(Listen, v, s).askSize != Fold(Listen, v, t).askSize
  {
    var x, y :| x in inbox && y in inbox && Improves(v, x) && Improves(v, y) && !Agree(x, y);
    var rest := WithoutPair(inbox, x, y);
    s, t := [x, y] + rest, [y, x] + rest;
    DisagreeingPair(v, x, y);
    hide Listen;
    FoldPair(v, x, y, rest);
    FoldPair(v, y, x, rest);
    SizesStayApart(Listen(Listen(v, x), y), Listen(Listen(v, y), x), rest);
  }

  lemma PairFirst(x: Message, y: Message, rest: seq<Message>)
    ensures multiset([x, y] + rest) == multiset{x} + multiset{y} + multiset(rest)
  {
  }

  lemma StillThere(all: multiset<Message>, x: Message, y: Message)
    requires x in all && y in all && x != y
    ensures y in all - multiset{x}
    ensures var rest := all - multiset{x} - multiset{y};
      multiset{x} + multiset{y} + rest == all && multiset{y} + multiset{x} + rest == all
  {
  }

  lemma WithoutPair(inbox: seq<Message>, x: Message, y: Message) returns (rest: seq<Message>)
    requires x in inbox && y in inbox && x != y
    ensures multiset([x, y] + rest) == multiset(inbox) == multiset([y, x] + rest)
  {
    StillThere(multiset(inbox), x, y);
    var head, tail := Split(inbox, x);
    var front := head + tail;
    head, tail := Split(front, y);
    rest := head + tail;
    PairFirst(x, y, rest);
    PairFirst(y, x, rest);
  }

  /** The ask size is the same for every order of the mail exactly if no two improving asks disagree. */
  lemma {:induction false} AskSizeFixedExactlyIfHarmonious(v: Venue, inbox: seq<Message>)
    ensures (forall other | multiset(other) == multiset(inbox) ::
               Fold(Listen, v, other).askSize == Fold(Listen, v, inbox).askSize)
            <==> Harmonious(v, inbox)
  {
    if Harmonious(v, inbox) {
      forall other | multiset(other) == multiset(inbox)
        ensures Fold(Listen, v, other).askSize == Fold(Listen, v, inbox).askSize
      {
        HarmonyFixesAskSize(v, inbox, other);
      }
    } else {
      var s, t := DisharmonyShows(v, inbox);
    }
  }

  /** So that is exactly when the whole step of a venue, state and messages, ignores the order of its mail. */
  lemma {:induction false} VenueStepFixedExactlyIfHarmonious(
    id: VertexId, edges: seq<Edge>, s: VertexState<Venue>, inbox: seq<Message>, step: Superstep, noise: int)
    ensures (forall other | multiset(other) == multiset(inbox) ::
               VenueStep(id, edges, s, other, step, noise) == VenueStep(id, edges, s, inbox, step, noise))
            <==> Harmonious(s.local, inbox)
  {
    AskSizeFixedExactlyIfHarmonious(s.local, inbox);
    if Harmonious(s.local, inbox) {
      forall other | multiset(other) == multiset(inbox)
        ensures VenueStep(id, edges, s, other, step, noise) == VenueStep(id, edges, s, inbox, step, noise)
      {
        VenueIgnoresMailOrder(id, edges, s, other, inbox, step, noise);
        HarmonyFixesAskSize(s.local, inbox, other);
      }
    } else {
      var t, u := DisharmonyShows(s.local, inbox);
      var one, other := VenueStep(id, edges, s, t, step, noise), VenueStep(id, edges, s, u, step, noise);
      assert one.local.askSize != other.local.askSize;
    }
  }

  /** The condition can fail: only improving asks add to the size, while every bid adds to the bid size. */
  lemma AskSizeDependsOnMailOrder(a: Message, b: Message, v: Venue)
    requires a.body == PriceUpdate(0, 100, 0, 1) && b.body == PriceUpdate(0, 99, 0, 1) && v == Venue(0, 0, 0, 0)
    ensures !Harmonious(v, [a, b])
    ensures Fold(Listen, v, [a, b]).askSize == 2 && Fold(Listen, v, [b, a]).askSize == 1
  {
    assert Improves(v, a) && Improves(v, b) && !Agree(a, b);
    FoldPair(v, a, b, []);
    FoldPair(v, b, a, []);
    assert [a, b] + [] == [a, b] && [b, a] + [] == [b, a];
  }

  // ----- market makers

  /** The net quantity and the value of the fills in an inbox, signed as the maker reads them. */
  function NetQuantity(inbox: seq<Message>): int {
    if inbox == [] then 0
    else
      var last := inbox[|inbox| - 1];
      NetQuantity(inbox[..|inbox| - 1]) + if last.body.OrderFill? then Signed(last.body.qty) else 0
  }

  lemma {:induction false} PositionIsNetQuantity(k: Maker, inbox: seq<Message>)
    ensures var r := Fold(Book, k, inbox);
      r.position == k.position + NetQuantity(inbox) && r.fills == k.fills + Fills(inbox) && r.limit == k.limit
        && r.signals == k.signals
  {
    if inbox != [] {
      PositionIsNetQuantity(k, inbox[..|inbox| - 1]);
    }
  }

  /** The maker's loop without the last quotes, the only part in which the order of the mail matters. */
  function Trade(k: Maker, m: Message): Maker {
    Book(k, m).(bid := 0, ask := 0)
  }

  lemma TradeCommutes()
    ensures Commutes(Trade)
  {
    forall a: Maker, x: Message, y: Message ensures Trade(Trade(a, x), y) == Trade(Trade(a, y), x) {
      var p := (if x.body.OrderFill? then x.body.price * Signed(x.body.qty) else 0);
      var q := (if y.body.OrderFill? then y.body.price * Signed(y.body.qty) else 0);
      assert Trade(Trade(a, x), y).pnl == a.pnl - p - q;
    }
  }

  lemma {:induction false} BookWithoutQuotes(k: Maker, inbox: seq<Message>)
    ensures Fold(Book, k, inbox).(bid := 0, ask := 0) == Fold(Trade, k.(bid := 0, ask := 0), inbox)
  {
    if inbox != [] {
      BookWithoutQuotes(k, inbox[..|inbox| - 1]);
    }
  }

  /** Position, profit and fill count do not depend on the order of a maker's mail. */
  lemma {:induction false} TradesIgnoreMailOrder(k: Maker, inbox: seq<Message>, other: seq<Message>)
    requires multiset(inbox) == multiset(other)
    ensures Fold(Book, k, inbox).(bid := 0, ask := 0) == Fold(Book, k, other).(bid := 0, ask := 0)
  {
    TradeCommutes();
    FoldPermutes(Trade, k.(bid := 0, ask := 0), inbox, other);
    BookWithoutQuotes(k, inbox);
    BookWithoutQuotes(k, other);
  }

  // ----- halting with mail

  /** An order only halts on paths that send nothing. */
  lemma {:induction false} OrderHaltsSilently(id: VertexId, edges: seq<Edge>, s: VertexState<Order>,
      inbox: seq<Message>, step: Superstep)
    requires !s.halted && s.outbox == []
    ensures var r := OrderStep(id, edges, s, inbox, step); r.halted ==> r.outbox == []
  {
    hide ReadMail, Fan, FillOf;
  }

  /** Once it has told its venue, or while it has never had anything, a level halts only in silence. */
  predicate Told(l: Level) {
    l.prev == l.total || l.prev == 0
  }

  lemma {:induction false} LevelHaltsSilently(id: VertexId, edges: seq<Edge>, s: VertexState<Level>,
      inbox: seq<Message>, step: Superstep)
    requires !s.halted && s.outbox == [] && Told(s.local)
    ensures var r := LevelStep(id, edges, s, inbox, step); Told(r.local) && (r.halted ==> r.outbox == [])
  {
    LevelClosedForm(Stock(s.local.total, s.local.count), inbox);
  }

  /** A market maker halts with mail in its outbox exactly when it is over its limit and signals to someone. */
  lemma {:induction false} MakerHaltsWithMail(id: VertexId, edges: seq<Edge>, s: VertexState<Maker>,
      inbox: seq<Message>, step: Superstep)
    requires !s.halted && s.outbox == []
    ensures var r := MakerStep(id, edges, s, inbox, step);
      r.halted && r.outbox != [] <==> OverLimit(r.local) && SeesArbitrage(r.local) && edges != []
  {
    var k := Fold(Book, s.local, inbox);
    FanEvery(id, edges, step, ArbitrageSignal(CrossedBps(k), 0, 1));
  }
}
