/** When an order trades and when a market maker signals, told from the mail alone. */
module Decisions {
  import opened Messages
  import opened Bsp
  import opened OrderBook
  import opened BookLaws
  import opened Sends

  // ----- orders

  /** The price an order goes by: of its side in the last update, or the one it knew if there is none. */
  function LastPrice(side: Side, known: int, inbox: seq<Message>): int {
    if inbox == [] then known
    else
      match inbox[|inbox| - 1].body
      case PriceUpdate(bid, ask, _, _) => (match side case Bid => bid case Ask => ask)
      case _ => LastPrice(side, known, inbox[..|inbox| - 1])
  }

  lemma {:induction false} LastPriceAt(side: Side, known: int, inbox: seq<Message>, i: nat)
    requires i < |inbox| && inbox[i].body.PriceUpdate?
    requires forall k | i < k < |inbox| :: !inbox[k].body.PriceUpdate?
    ensures LastPrice(side, known, inbox) == match side case Bid => inbox[i].body.bid case Ask => inbox[i].body.ask
  {
    if i < |inbox| - 1 {
      LastPriceAt(side, known, inbox[..|inbox| - 1], i);
    }
  }

  lemma {:induction false} NoPrice(side: Side, known: int, inbox: seq<Message>)
    requires forall m | m in inbox :: !m.body.PriceUpdate?
    ensures LastPrice(side, known, inbox) == known
  {
    if inbox != [] {
      NoPrice(side, known, inbox[..|inbox| - 1]);
    }
  }

  /** What the fills up to message i have brought an order to, in 64-bit arithmetic. */
  function FilledBy(o: Order, inbox: seq<Message>, i: nat): nat
    requires i <= |inbox|
  {
    (o.filled + Quantity(inbox[..i])) % WORD
  }

  /** Message i makes an order that is still active inactive: it cancels it, or fills it up. */
  predicate Ends(o: Order, inbox: seq<Message>, i: nat)
    requires i < |inbox|
  {
    inbox[i].body.CancelAck? || (inbox[i].body.OrderFill? && FilledBy(o, inbox, i + 1) >= o.quantity)
  }

  /** The order once it has read the first i messages, none of which ended it. */
  function HavingRead(o: Order, inbox: seq<Message>, i: nat): Order
    requires i <= |inbox|
  {
    o.(filled := FilledBy(o, inbox, i), best := LastPrice(o.side, o.best, inbox[..i]))
  }

  lemma OneRead(o: Order, inbox: seq<Message>, i: nat)
    requires i < |inbox|
    ensures var m := inbox[i];
      FilledBy(o, inbox, i + 1)
        == (if m.body.OrderFill? then (FilledBy(o, inbox, i) + m.body.qty) % WORD else FilledBy(o, inbox, i))
    ensures LastPrice(o.side, o.best, inbox[..i + 1])
         == match inbox[i].body
            case PriceUpdate(bid, ask, _, _) => (match o.side case Bid => bid case Ask => ask)
            case _ => LastPrice(o.side, o.best, inbox[..i])
  {
    assert inbox[..i + 1][..i] == inbox[..i] && inbox[..i + 1][i] == inbox[i];
    if inbox[i].body.OrderFill? {
      AddOnce(o.filled + Quantity(inbox[..i]), inbox[i].body.qty);
    }
  }

  lemma {:induction false} ReadUpTo(o: Order, inbox: seq<Message>, i: nat)
    requires o.filled < WORD && i <= |inbox| && forall k | 0 <= k < i :: !Ends(o, inbox, k)
    ensures ReadMail(o, inbox) == ReadMail(HavingRead(o, inbox, i), inbox[i..])
  {
    if i == 0 {
      assert inbox[..0] == [] && inbox[0..] == inbox;
      assert HavingRead(o, inbox, 0) == o;
    } else {
      ReadUpTo(o, inbox, i - 1);
      assert inbox[i - 1..][1..] == inbox[i..];
      assert !Ends(o, inbox, i - 1);
      OneRead(o, inbox, i - 1);
      ReadOne(HavingRead(o, inbox, i - 1), inbox[i - 1..]);
      hide ReadMail, FilledBy, LastPrice;
    }
  }

  lemma ReadOne(o: Order, inbox: seq<Message>)
    requires inbox != []
    ensures ReadMail(o, inbox)
         == match inbox[0].body
            case PriceUpdate(bid, ask, _, _) =>
              ReadMail(o.(best := match o.side case Bid => bid case Ask => ask), inbox[1..])
            case OrderFill(_, qty, _) =>
              var filled := (o.filled + qty) % WORD;
              if filled >= o.quantity then o.(filled := filled, active := false)
              else ReadMail(o.(filled := filled), inbox[1..])
            case CancelAck => o.(active := false)
            case _ => ReadMail(o, inbox[1..])
  {
  }

  /** A bid order trades at its limit or below, an ask order at its limit or above, and nobody at no price. */
  predicate WouldTrade(side: Side, limit: int, price: int) {
    match side
    case Bid => 0 < price <= limit
    case Ask => 0 < price && limit <= price
  }

  /**
   An active order that nothing in its mail ends: it trades, with everyone it has an edge to and for all it
   has left, exactly if the price it goes by is within its limit; otherwise it counts one more idle step.
   */
  lemma {:induction false} OrderCarriesOn(
    id: VertexId, edges: seq<Edge>, s: VertexState<Order>, inbox: seq<Message>, step: Superstep)
    requires s.local.active && s.local.filled < WORD && forall k | 0 <= k < |inbox| :: !Ends(s.local, inbox, k)
    ensures var o, r := s.local, OrderStep(id, edges, s, inbox, step);
      var price, filled := LastPrice(o.side, o.best, inbox), (o.filled + Quantity(inbox)) % WORD;
      var idle := (o.idle + 1) % 0x1_0000_0000;
      if WouldTrade(o.side, o.limitPrice, price) then
        r == VertexState(
          s.halted,
          s.outbox + Copies(id, edges, step, OrderFill(o.limitPrice, (o.quantity - filled) % WORD, TradeId(id, step))),
          o.(filled := filled, best := price, idle := 0))
      else
        r == VertexState(s.halted || idle > 10, s.outbox, o.(filled := filled, best := price, idle := idle))
  {
    ReadUpTo(s.local, inbox, |inbox|);
    assert inbox[..|inbox|] == inbox && inbox[|inbox|..] == [];
    var o := HavingRead(s.local, inbox, |inbox|);
    EveryFan(id, edges, step, FillOf(id, o, step));
    hide Quantity, LastPrice, TradeId, Ends;
  }

  /** An order that message i ends stops reading there, halts, and sends nothing. */
  lemma {:induction false} OrderEnds(
    id: VertexId, edges: seq<Edge>, s: VertexState<Order>, inbox: seq<Message>, step: Superstep, i: nat)
    requires s.local.active && s.local.filled < WORD && i < |inbox|
    requires Ends(s.local, inbox, i) && forall k | 0 <= k < i :: !Ends(s.local, inbox, k)
    ensures var o := s.local;
      OrderStep(id, edges, s, inbox, step)
        == VertexState(true, s.outbox, o.(
             filled := (o.filled + Quantity(inbox[..i + 1])) % WORD,
             best := LastPrice(o.side, o.best, inbox[..i]), active := false))
  {
    ReadUpTo(s.local, inbox, i);
    OneRead(s.local, inbox, i);
    ReadOne(HavingRead(s.local, inbox, i), inbox[i..]);
    hide ReadMail, LastPrice;
  }

  /** An order that is no longer active only halts. */
  lemma OrderStaysEnded(
    id: VertexId, edges: seq<Edge>, s: VertexState<Order>, inbox: seq<Message>, step: Superstep)
    requires !s.local.active
    ensures OrderStep(id, edges, s, inbox, step) == s.(halted := true)
  {
  }

  /**
   With neither fills nor cancellations in the mail, an active order sends one message per edge if and only if
   the last update is within its limit on its own side, and with no update in the mail, the price last heard.
   */
  lemma {:induction false} TradesExactlyWithinLimit(
    id: VertexId, edges: seq<Edge>, s: VertexState<Order>, inbox: seq<Message>, step: Superstep)
    requires s.local.active && s.local.filled < WORD
    requires forall m | m in inbox :: !m.body.OrderFill? && !m.body.CancelAck?
    ensures var o, n := s.local, |OrderStep(id, edges, s, inbox, step).outbox| - |s.outbox|;
      && (forall i: nat | i < |inbox| && inbox[i].body.PriceUpdate?
                          && forall k | i < k < |inbox| :: !inbox[k].body.PriceUpdate? ::
            var bid, ask := inbox[i].body.bid, inbox[i].body.ask;
            && (o.side == Bid ==> n == if 0 < bid <= o.limitPrice then |edges| else 0)
            && (o.side == Ask ==> n == if ask > 0 && ask >= o.limitPrice then |edges| else 0))
      && ((forall m | m in inbox :: !m.body.PriceUpdate?) ==>
            && (o.side == Bid ==> n == if 0 < o.best <= o.limitPrice then |edges| else 0)
            && (o.side == Ask ==> n == if o.best > 0 && o.best >= o.limitPrice then |edges| else 0))
  {
    forall k: nat | k < |inbox| ensures !Ends(s.local, inbox, k) {
      assert inbox[k] in inbox;
    }
    OrderCarriesOn(id, edges, s, inbox, step);
    hide OrderStep, TradeId, Quantity;
    forall i: nat | i < |inbox| && inbox[i].body.PriceUpdate?
                    && forall k | i < k < |inbox| :: !inbox[k].body.PriceUpdate?
      ensures LastPrice(s.local.side, s.local.best, inbox)
           == match s.local.side case Bid => inbox[i].body.bid case Ask => inbox[i].body.ask
    {
      LastPriceAt(s.local.side, s.local.best, inbox, i);
    }
    if forall m | m in inbox :: !m.body.PriceUpdate? {
      NoPrice(s.local.side, s.local.best, inbox);
    }
  }

  // ----- market makers

  /** The last positive bid in the mail, or the one known if there is none. */
  function LastBid(known: int, inbox: seq<Message>): int {
    if inbox == [] then known
    else if Bids(inbox[|inbox| - 1]) then inbox[|inbox| - 1].body.bid
    else LastBid(known, inbox[..|inbox| - 1])
  }

  function LastAsk(known: int, inbox: seq<Message>): int {
    if inbox == [] then known
    else if Asks(inbox[|inbox| - 1]) then inbox[|inbox| - 1].body.ask
    else LastAsk(known, inbox[..|inbox| - 1])
  }

  /** A fill's quantity as a maker reads it: the same 64 bits as a signed number. */
  lemma SignedReads(x: nat)
    requires x < WORD
    ensures Signed(x) == if x < 0x8000_0000_0000_0000 then x else x - 0x1_0000_0000_0000_0000
  {
  }

  /** The sum of price times signed quantity over the fills in an inbox. */
  function Paid(inbox: seq<Message>): int {
    if inbox == [] then 0
    else
      var front, m := Paid(inbox[..|inbox| - 1]), inbox[|inbox| - 1].body;
      match m
      case OrderFill(price, qty, _) => front + price * Signed(qty)
      case _ => front
  }

  /** A maker's books after any mail. */
  lemma {:induction false} BooksKept(k: Maker, inbox: seq<Message>)
    ensures Fold(Book, k, inbox) == k.(
      position := k.position + NetQuantity(inbox), fills := k.fills + Fills(inbox), pnl := k.pnl - Paid(inbox),
      bid := LastBid(k.bid, inbox), ask := LastAsk(k.ask, inbox))
  {
    if inbox != [] {
      hide Signed;
      BooksKept(k, inbox[..|inbox| - 1]);
    }
  }

  /** The bid is above the ask, by five basis points of the middle of the two or more. */
  predicate Crossed(bid: int, ask: int) {
    0 < ask < bid && (bid - ask) * 10_000 >= 5 * ((bid + ask) / 2)
  }

  lemma AtLeastFive(x: int, mid: int)
    requires mid > 0
    ensures x / mid >= 5 <==> x >= 5 * mid
    ensures x / mid * mid <= x < (x / mid + 1) * mid
  {
    var q := x / mid;
    assert x == q * mid + x % mid;
    if q >= 5 {
      assert (q - 5) * mid >= 0;
    } else {
      assert (4 - q) * mid >= 0;
    }
  }

  /**
   What a market maker becomes. It signals, along every edge, exactly if the last bid and ask it has heard are
   crossed by five basis points of their middle or more, and it says by how many. It halts over its limit, or
   when it neither hears nor says anything.
   */
  lemma {:induction false} MakerDecides(
    id: VertexId, edges: seq<Edge>, s: VertexState<Maker>, inbox: seq<Message>, step: Superstep)
    returns (spread: int)
    ensures var k, r := s.local, MakerStep(id, edges, s, inbox, step);
      var bid, ask := LastBid(k.bid, inbox), LastAsk(k.ask, inbox);
      var kept := k.(position := k.position + NetQuantity(inbox), fills := k.fills + Fills(inbox),
                     pnl := k.pnl - Paid(inbox), bid := bid, ask := ask);
      && (Crossed(bid, ask) ==>
            && spread * ((bid + ask) / 2) <= (bid - ask) * 10_000 < (spread + 1) * ((bid + ask) / 2)
            && r.outbox == s.outbox + Copies(id, edges, step, ArbitrageSignal(spread, 0, 1))
            && r.local == kept.(signals := k.signals + 1))
      && (!Crossed(bid, ask) ==> r.outbox == s.outbox && r.local == kept)
      && (r.halted <==>
            || s.halted || r.local.position as real > k.limit || (-r.local.position) as real > k.limit
            || (inbox == [] && r.outbox == []))
  {
    BooksKept(s.local, inbox);
    var k := Fold(Book, s.local, inbox);
    hide Fold, LastBid, LastAsk, NetQuantity, Fills, Paid;
    spread := CrossedBps(k);
    EveryFan(id, edges, step, ArbitrageSignal(spread, 0, 1));
    SpreadRead(k);
    LimitRead(k.position, k.limit);
    hide CrossedBps, OverLimit, Crossed;
  }

  lemma SpreadRead(k: Maker)
    ensures SeesArbitrage(k) <==> Crossed(k.bid, k.ask)
    ensures var mid := (k.bid + k.ask) / 2;
      Crossed(k.bid, k.ask) ==>
        CrossedBps(k) * mid <= (k.bid - k.ask) * 10_000 < (CrossedBps(k) + 1) * mid
  {
    if 0 < k.ask < k.bid {
      AtLeastFive((k.bid - k.ask) * 10_000, (k.bid + k.ask) / 2);
    }
  }

  lemma LimitRead(position: int, limit: real)
    ensures (if position < 0 then -position else position) as real > limit
         <==> (position as real > limit || (-position) as real > limit)
  {
  }
}
