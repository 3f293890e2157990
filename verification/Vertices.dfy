/** The vertex objects: compute updates their fields in place (order_book_graph.cpp, vertex.hpp). */
module Vertices {
  import opened Messages
  import opened Bsp
  import opened OrderBook

  datatype OrderState = OrderState(limitPrice: int, quantity: nat, filled: nat, side: Side, active: bool)

  datatype MakerState = MakerState(
    netPosition: int, pnlFixed: int, fillCount: nat, arbSignalsSent: nat, inventoryLimit: real)

  class OrderVertex {
    const id: VertexId
    var edges: seq<Edge>
    var halted: bool
    var outbox: seq<Message>
    var state: OrderState
    var bestMarketPrice: int
    var stepsWithoutFill: nat

    function Order(): Order
      reads this
    {
      OrderBook.Order(state.limitPrice, state.quantity, state.filled, state.side, state.active,
        bestMarketPrice, stepsWithoutFill)
    }

    function Snapshot(): VertexState<Order>
      reads this
    {
      VertexState(halted, outbox, Order())
    }

    constructor (id: VertexId, state: OrderState)
      ensures this.id == id && edges == []
      ensures Snapshot() == VertexState(false, [],
        OrderBook.Order(state.limitPrice, state.quantity, state.filled, state.side, state.active, 0, 0))
    {
      this.id, this.state := id, state;
      edges, halted, outbox, bestMarketPrice, stepsWithoutFill := [], false, [], 0, 0;
    }

    /** Exactly one step of the order program. */
    method Compute(inbox: seq<Message>, step: Superstep)
      modifies `halted, `outbox, `state, `bestMarketPrice, `stepsWithoutFill
      ensures Snapshot() == OrderStep(id, edges, old(Snapshot()), inbox, step)
    {
      if !state.active {
        halted := true;
        return;
      }
      for i := 0 to |inbox|
        invariant state.active && halted == old(halted) && outbox == old(outbox)
        invariant ReadMail(Order(), inbox[i..]) == ReadMail(old(Order()), inbox)
      {
        assert inbox[i..][1..] == inbox[i + 1..];
        match inbox[i].body {
          case PriceUpdate(bid, ask, _, _) =>
            bestMarketPrice := if state.side.Bid? then bid else ask;
          case OrderFill(_, qty, _) =>
            state := state.(filled := (state.filled + qty) % WORD);
            if state.filled >= state.quantity {
              state, halted := state.(active := false), true;
              return;
            }
          case CancelAck =>
            state, halted := state.(active := false), true;
            return;
          case _ =>
        }
      }
      if Marketable(Order()) {
        ghost var fill := FillOf(id, Order(), step);
        for i := 0 to |edges|
          invariant Order() == ReadMail(old(Order()), inbox) && halted == old(halted)
          invariant outbox == old(outbox) + Fan(id, edges[..i], Every, step, fill)
        {
          assert edges[..i + 1][..i] == edges[..i];
          outbox := outbox + [Message(id, edges[i].dst, step,
            OrderFill(state.limitPrice, (state.quantity - state.filled) % WORD, TradeId(id, step)))];
        }
        assert edges[..|edges|] == edges;
        stepsWithoutFill := 0;
      } else {
        stepsWithoutFill := (stepsWithoutFill + 1) % HALF_WORD;
        if stepsWithoutFill > IDLE_LIMIT {
          halted := true;
        }
      }
    }
  }

  class PriceLevelVertex {
    const id: VertexId
    var edges: seq<Edge>
    var halted: bool
    var outbox: seq<Message>
    const price: int
    const side: Side
    var totalQty: nat
    var orderCount: nat
    var prevTotalQty: nat

    function Snapshot(): VertexState<Level>
      reads this
    {
      VertexState(halted, outbox, Level(price, side, totalQty, orderCount, prevTotalQty))
    }

    constructor (id: VertexId, price: int, side: Side, totalQty: nat, orderCount: nat)
      ensures this.id == id && edges == []
      ensures Snapshot() == VertexState(false, [], Level(price, side, totalQty, orderCount, 0))
    {
      this.id, this.price, this.side, this.totalQty, this.orderCount := id, price, side, totalQty, orderCount;
      edges, halted, outbox, prevTotalQty := [], false, [], 0;
    }

    /** Exactly one step of the price-level program. */
    method Compute(inbox: seq<Message>, step: Superstep)
      modifies `halted, `outbox, `totalQty, `orderCount, `prevTotalQty
      ensures Snapshot() == LevelStep(id, edges, old(Snapshot()), inbox, step)
    {
      ghost var before := Snapshot().local;
      for i := 0 to |inbox|
        invariant halted == old(halted) && prevTotalQty == old(prevTotalQty)
        invariant Stock(totalQty, orderCount) == Stocked(before, inbox[..i])
        invariant outbox == old(outbox) + Forwarded(id, edges, inbox[..i], step)
      {
        assert inbox[..i + 1][..i] == inbox[..i];
        var body := inbox[i].body;
        if body.OrderFill? {
          if body.qty >= totalQty {
            totalQty, orderCount := 0, 0;
          } else {
            totalQty := totalQty - body.qty;
            if orderCount > 0 {
              orderCount := orderCount - 1;
            }
          }
        } else if body.PriceUpdate? {
          SendAlong(OfKind(1), step, body);
        }
      }
      assert inbox[..|inbox|] == inbox;
      if totalQty != prevTotalQty {
        SendAlong(OfKind(2), step, PriceUpdate(
          if side.Bid? then price else 0, if side.Ask? then price else 0,
          if side.Bid? then totalQty else 0, if side.Ask? then totalQty else 0));
        prevTotalQty := totalQty;
      }
      if totalQty == 0 && inbox == [] {
        halted := true;
      }
    }

    /** One copy of the message along each edge of the given kind. */
    method SendAlong(along: Along, step: Superstep, body: Body)
      modifies `outbox
      ensures outbox == old(outbox) + Fan(id, edges, along, step, body)
    {
      for i := 0 to |edges|
        invariant outbox == old(outbox) + Fan(id, edges[..i], along, step, body)
      {
        assert edges[..i + 1][..i] == edges[..i];
        if Takes(along, edges[i]) {
          outbox := outbox + [Message(id, edges[i].dst, step, body)];
        }
      }
      assert edges[..|edges|] == edges;
    }
  }

  class VenueVertex {
    const id: VertexId
    var edges: seq<Edge>
    var halted: bool
    var outbox: seq<Message>
    var state: Venue

    function Snapshot(): VertexState<Venue>
      reads this
    {
      VertexState(halted, outbox, state)
    }

    constructor (id: VertexId, state: Venue)
      ensures this.id == id && edges == [] && Snapshot() == VertexState(false, [], state)
    {
      this.id, this.state := id, state;
      edges, halted, outbox := [], false, [];
    }

    /** Exactly one step of the venue program; noise is what the generator yields. */
    method Compute(inbox: seq<Message>, step: Superstep, noise: int)
      modifies `outbox, `state
      ensures Snapshot() == VenueStep(id, edges, old(Snapshot()), inbox, step, noise)
    {
      for i := 0 to |inbox|
        invariant outbox == old(outbox)
        invariant state == Fold(Listen, old(state), inbox[..i])
      {
        assert inbox[..i + 1][..i] == inbox[..i];
        if inbox[i].body.PriceUpdate? {
          var b := inbox[i].body;
          if b.bid > 0 {
            state := state.(bestBid := if state.bestBid < b.bid then b.bid else state.bestBid);
            state := state.(bidSize := (state.bidSize + b.bidQty) % WORD);
          }
          if b.ask > 0 {
            if state.bestAsk == 0 || b.ask < state.bestAsk {
              state := state.(bestAsk := b.ask);
              state := state.(askSize := (state.askSize + b.askQty) % WORD);
            }
          }
        }
      }
      assert inbox[..|inbox|] == inbox;
      var mid := Half(state.bestBid + state.bestAsk);
      if mid == 0 {
        mid := DEFAULT_MID;
      }
      mid := mid + noise;
      var halfSpread := TICK_SIZE * 2;
      state := state.(bestBid := mid - halfSpread, bestAsk := mid + halfSpread);
      var nbbo := PriceUpdate(state.bestBid, state.bestAsk, state.bidSize, state.askSize);
      for i := 0 to |edges|
        invariant state == Requoted(Fold(Listen, old(state), inbox), noise)
        invariant outbox == old(outbox) + Fan(id, edges[..i], Every, step, nbbo)
      {
        assert edges[..i + 1][..i] == edges[..i];
        outbox := outbox + [Message(id, edges[i].dst, step, nbbo)];
      }
      assert edges[..|edges|] == edges;
    }
  }

  class MarketMakerVertex {
    const id: VertexId
    var edges: seq<Edge>
    var halted: bool
    var outbox: seq<Message>
    const inventoryLimit: real
    var netPosition: int
    var pnlFixed: int
    var fillCount: nat
    var arbSignalsSent: nat
    var lastKnownBid: int
    var lastKnownAsk: int

    function Maker(): Maker
      reads this
    {
      OrderBook.Maker(netPosition, pnlFixed, fillCount, arbSignalsSent, inventoryLimit, lastKnownBid, lastKnownAsk)
    }

    function Snapshot(): VertexState<Maker>
      reads this
    {
      VertexState(halted, outbox, Maker())
    }

    constructor (id: VertexId, state: MakerState)
      ensures this.id == id && edges == []
      ensures Snapshot() == VertexState(false, [], OrderBook.Maker(
        state.netPosition, state.pnlFixed, state.fillCount, state.arbSignalsSent, state.inventoryLimit, 0, 0))
    {
      this.id, this.inventoryLimit := id, state.inventoryLimit;
      edges, halted, outbox := [], false, [];
      netPosition, pnlFixed := state.netPosition, state.pnlFixed;
      fillCount, arbSignalsSent := state.fillCount, state.arbSignalsSent;
      lastKnownBid, lastKnownAsk := 0, 0;
    }

    /** Exactly one step of the market-maker program. */
    method Compute(inbox: seq<Message>, step: Superstep)
      modifies `halted, `outbox, `netPosition, `pnlFixed, `fillCount, `arbSignalsSent, `lastKnownBid, `lastKnownAsk
      ensures Snapshot() == MakerStep(id, edges, old(Snapshot()), inbox, step)
    {
      TakeIn(inbox);
      ghost var k := Maker();
      if lastKnownBid > 0 && lastKnownAsk > 0 {
        var spread := lastKnownBid - lastKnownAsk;
        if spread > 0 {
          var mid := Half(lastKnownBid + lastKnownAsk);
          var bps := if mid > 0 then spread * 10000 / mid else 0;
          assert bps == CrossedBps(k);
          if bps >= ARB_THRESHOLD_BPS {
            arbSignalsSent := arbSignalsSent + 1;
            Signal(step, ArbitrageSignal(bps, 0, 1));
          }
        }
      }
      if OverLimit(Maker()) {
        halted := true;
      } else if inbox == [] && outbox == [] {
        halted := true;
      }
    }

    /** The loop over the inbox. */
    method TakeIn(inbox: seq<Message>)
      modifies `netPosition, `pnlFixed, `fillCount, `lastKnownBid, `lastKnownAsk
      ensures Maker() == Fold(Book, old(Maker()), inbox)
    {
      for i := 0 to |inbox|
        invariant Maker() == Fold(Book, old(Maker()), inbox[..i])
      {
        assert inbox[..i + 1][..i] == inbox[..i];
        match inbox[i].body {
          case OrderFill(price, qty, _) =>
            var delta := Signed(qty);
            netPosition := netPosition + delta;
            fillCount := fillCount + 1;
            pnlFixed := pnlFixed - price * delta;
          case PriceUpdate(bid, ask, _, _) =>
            if bid > 0 {
              lastKnownBid := bid;
            }
            if ask > 0 {
              lastKnownAsk := ask;
            }
          case _ =>
        }
      }
      assert inbox[..|inbox|] == inbox;
    }

    /** The signal goes out along every edge. */
    method Signal(step: Superstep, arb: Body)
      modifies `outbox
      ensures outbox == old(outbox) + Fan(id, edges, Every, step, arb)
    {
      for i := 0 to |edges|
        invariant outbox == old(outbox) + Fan(id, edges[..i], Every, step, arb)
      {
        assert edges[..i + 1][..i] == edges[..i];
        outbox := outbox + [Message(id, edges[i].dst, step, arb)];
      }
      assert edges[..|edges|] == edges;
    }
  }
}
