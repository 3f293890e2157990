/**
 A book, as its constructors leave it, that the coordinator stops too early: after four supersteps nobody
 is awake, but a signal is on its way that would wake a price level in the fifth.
 */
module EarlyStop {
  import opened Messages
  import opened Bsp
  import opened OrderBook
  import opened BookRuns
  import V = Vertices

  const ORDER: seq<VertexId> := [0, 1, 2, 3]

  // ----- one superstep of four vertices

  ghost predicate Four(w: World<Local>) {
    && w.vertices.Keys == {0, 1, 2, 3} && w.unclaimed == map[] && OutboxesEmpty(w)
    && forall m | m in w.mail :: m.dst < 4
  }

  function Quad(a: VertexState<Local>, b: VertexState<Local>, c: VertexState<Local>, d: VertexState<Local>,
      mail: seq<Message>): World<Local>
  {
    World(map[0 := a, 1 := b, 2 := c, 3 := d], mail, map[])
  }

  function Cleared(s: VertexState<Local>): VertexState<Local> {
    s.(outbox := [])
  }

  lemma {:induction false} RecipientsOnly(ms: seq<Message>, v: VertexId)
    requires v in Recipients(ms)
    ensures exists m :: m in ms && m.dst == v
  {
    if v in Recipients(ms[..|ms| - 1]) {
      RecipientsOnly(ms[..|ms| - 1], v);
      var m :| m in ms[..|ms| - 1] && m.dst == v;
      assert m in ms;
    } else {
      assert ms[|ms| - 1] in ms;
    }
  }

  /** The step, from what each vertex does in it. */
  lemma StepOfFour(prog: Program<Local>, w: World<Local>, step: Superstep,
      a: VertexState<Local>, b: VertexState<Local>, c: VertexState<Local>, d: VertexState<Local>)
    requires Four(w)
    requires After(prog, w, 0, step) == a && After(prog, w, 1, step) == b
    requires After(prog, w, 2, step) == c && After(prog, w, 3, step) == d
    ensures Step(prog, ORDER, w, step)
         == Quad(Cleared(a), Cleared(b), Cleared(c), Cleared(d), a.outbox + b.outbox + c.outbox + d.outbox)
  {
    hide After;
    assert Sent(prog, ORDER, 0, w, step) == [];
    assert Sent(prog, ORDER, 1, w, step) == a.outbox;
    assert Sent(prog, ORDER, 2, w, step) == a.outbox + b.outbox;
    assert Sent(prog, ORDER, 3, w, step) == a.outbox + b.outbox + c.outbox;
    assert Sent(prog, ORDER, 4, w, step) == a.outbox + b.outbox + c.outbox + d.outbox;
    forall v | v in Recipients(w.mail) ensures v in w.vertices {
      RecipientsOnly(w.mail, v);
    }
    assert Unclaimed(w) == map[];
    assert Settled(prog, w, step) == map[0 := Cleared(a), 1 := Cleared(b), 2 := Cleared(c), 3 := Cleared(d)];
  }

  // ----- the book

  function MakerWith(halted: bool, signals: nat, bid: int, ask: int): VertexState<Local> {
    VertexState(halted, [], AMaker([Edge(1, 2)], OrderBook.Maker(2_000_000, 0, 0, signals, 1_000_000.0, bid, ask)))
  }

  function BidLevel(halted: bool, total: nat, count: nat, prev: nat): VertexState<Local> {
    VertexState(halted, [], ALevel([Edge(0, 2), Edge(3, 2)], Level(200, Bid, total, count, prev)))
  }

  function AskLevel(halted: bool, total: nat, count: nat, prev: nat): VertexState<Local> {
    VertexState(halted, [], ALevel([Edge(0, 2)], Level(100, Ask, total, count, prev)))
  }

  function OrderWith(halted: bool, filled: nat, active: bool, best: int, idle: nat): VertexState<Local> {
    VertexState(halted, [],
      AnOrder([Edge(1, 0), Edge(2, 0), Edge(3, 0)], OrderBook.Order(300, 10, filled, Bid, active, best, idle)))
  }

  function BidQuote(dst: VertexId, step: Superstep, qty: nat): Message {
    Message(1, dst, step, PriceUpdate(200, 0, qty, 0))
  }

  function AskQuote(step: Superstep, qty: nat): Message {
    Message(2, 0, step, PriceUpdate(0, 100, 0, qty))
  }

  function Signal(step: Superstep): Message {
    Message(0, 1, step, ArbitrageSignal(6666, 0, 1))
  }

  function Fill(dst: VertexId): Message {
    Message(3, dst, 1, OrderFill(300, 10, TradeId(3, 1)))
  }

  /**
   Before any step: a maker over its limit, a bid level that quotes to it and to an order, an ask level
   that quotes to the maker, and the order, with edges to both levels and to itself. All are as
   constructed: awake, with nothing heard, told or sent.
   */
  function Start(): World<Local> {
    Quad(MakerWith(false, 0, 0, 0), BidLevel(false, 10, 1, 0), AskLevel(false, 10, 1, 0),
      OrderWith(false, 0, true, 0, 0), [])
  }

  function AfterOne(): World<Local> {
    Quad(MakerWith(true, 0, 0, 0), BidLevel(false, 10, 1, 10), AskLevel(false, 10, 1, 10),
      OrderWith(false, 0, true, 0, 1), [BidQuote(0, 0, 10), BidQuote(3, 0, 10), AskQuote(0, 10)])
  }

  function AfterTwo(): World<Local> {
    Quad(MakerWith(true, 1, 200, 100), BidLevel(false, 10, 1, 10), AskLevel(false, 10, 1, 10),
      OrderWith(false, 0, true, 200, 0), [Signal(1), Fill(1), Fill(2), Fill(3)])
  }

  function AfterThree(): World<Local> {
    Quad(MakerWith(true, 1, 200, 100), BidLevel(false, 0, 0, 0), AskLevel(false, 0, 0, 0),
      OrderWith(true, 10, false, 200, 0), [BidQuote(0, 2, 0), BidQuote(3, 2, 0), AskQuote(2, 0)])
  }

  function AfterFour(): World<Local> {
    Quad(MakerWith(true, 2, 200, 100), BidLevel(true, 0, 0, 0), AskLevel(true, 0, 0, 0),
      OrderWith(true, 10, false, 200, 0), [Signal(3)])
  }

  // ----- what each vertex does

  lemma MakerIdle(noise: (VertexId, Superstep) -> int, step: Superstep)
    ensures Compute(noise, 0, MakerWith(false, 0, 0, 0), [], step) == MakerWith(true, 0, 0, 0)
  {
  }

  lemma MakerSignals(noise: (VertexId, Superstep) -> int, signals: nat, bid: int, ask: int, step: Superstep,
      sent: Superstep, qty: nat)
    requires (bid == 0 && ask == 0) || (bid == 200 && ask == 100)
    ensures Compute(noise, 0, MakerWith(false, signals, bid, ask), [BidQuote(0, sent, qty), AskQuote(sent, qty)], step)
         == MakerWith(true, signals + 1, 200, 100).(outbox := [Signal(step)])
  {
    var k := OrderBook.Maker(2_000_000, 0, 0, signals, 1_000_000.0, bid, ask);
    FoldTwo(Book, k, BidQuote(0, sent, qty), AskQuote(sent, qty));
    var r := Book(Book(k, BidQuote(0, sent, qty)), AskQuote(sent, qty));
    assert r == k.(bid := 200, ask := 100) && CrossedBps(r) == 6666;
    FanOne(0, Edge(1, 2), Every, step, ArbitrageSignal(6666, 0, 1));
  }

  lemma BidLevelOpens(noise: (VertexId, Superstep) -> int)
    ensures Compute(noise, 1, BidLevel(false, 10, 1, 0), [], 0)
         == BidLevel(false, 10, 1, 10).(outbox := [BidQuote(0, 0, 10), BidQuote(3, 0, 10)])
  {
    FanTwo(1, Edge(0, 2), Edge(3, 2), OfKind(2), 0, PriceUpdate(200, 0, 10, 0));
  }

  lemma AskLevelOpens(noise: (VertexId, Superstep) -> int)
    ensures Compute(noise, 2, AskLevel(false, 10, 1, 0), [], 0)
         == AskLevel(false, 10, 1, 10).(outbox := [AskQuote(0, 10)])
  {
    FanOne(2, Edge(0, 2), OfKind(2), 0, PriceUpdate(0, 100, 0, 10));
  }

  lemma LevelsWait(noise: (VertexId, Superstep) -> int, total: nat, count: nat, step: Superstep)
    ensures Compute(noise, 1, BidLevel(false, total, count, total), [], step)
         == BidLevel(total == 0, total, count, total)
    ensures Compute(noise, 2, AskLevel(false, total, count, total), [], step)
         == AskLevel(total == 0, total, count, total)
  {
  }

  lemma OrderWaits(noise: (VertexId, Superstep) -> int)
    ensures Compute(noise, 3, OrderWith(false, 0, true, 0, 0), [], 0) == OrderWith(false, 0, true, 0, 1)
  {
  }

  lemma OrderTrades(noise: (VertexId, Superstep) -> int)
    ensures Compute(noise, 3, OrderWith(false, 0, true, 0, 1), [BidQuote(3, 0, 10)], 1)
         == OrderWith(false, 0, true, 200, 0).(outbox := [Fill(1), Fill(2), Fill(3)])
  {
    hide TradeId;
    var o := OrderBook.Order(300, 10, 0, Bid, true, 0, 1);
    var mail := [BidQuote(3, 0, 10)];
    assert mail[1..] == [];
    assert ReadMail(o, mail) == o.(best := 200);
    FanThree(3, Edge(1, 0), Edge(2, 0), Edge(3, 0), Every, 1, OrderFill(300, 10, TradeId(3, 1)));
  }

  lemma BidLevelEmpties(noise: (VertexId, Superstep) -> int)
    ensures Compute(noise, 1, BidLevel(false, 10, 1, 10), [Signal(1), Fill(1)], 2)
         == BidLevel(false, 0, 0, 0).(outbox := [BidQuote(0, 2, 0), BidQuote(3, 2, 0)])
  {
    hide TradeId;
    FoldTwo(Absorb, Stock(10, 1), Signal(1), Fill(1));
    assert [Signal(1), Fill(1)][..1] == [Signal(1)] && [Signal(1)][..0] == [];
    var edges := [Edge(0, 2), Edge(3, 2)];
    assert Forwarded(1, edges, [Signal(1)], 2) == [];
    assert Forwarded(1, edges, [Signal(1), Fill(1)], 2) == [];
    FanTwo(1, Edge(0, 2), Edge(3, 2), OfKind(2), 2, PriceUpdate(200, 0, 0, 0));
  }

  lemma AskLevelEmpties(noise: (VertexId, Superstep) -> int)
    ensures Compute(noise, 2, AskLevel(false, 10, 1, 10), [Fill(2)], 2)
         == AskLevel(false, 0, 0, 0).(outbox := [AskQuote(2, 0)])
  {
    hide TradeId;
    FoldOne(Absorb, Stock(10, 1), Fill(2));
    assert [Fill(2)][..0] == [];
    assert Forwarded(2, [Edge(0, 2)], [Fill(2)], 2) == [];
    FanOne(2, Edge(0, 2), OfKind(2), 2, PriceUpdate(0, 100, 0, 0));
  }

  lemma OrderIsFilled(noise: (VertexId, Superstep) -> int)
    ensures Compute(noise, 3, OrderWith(false, 0, true, 200, 0), [Fill(3)], 2) == OrderWith(true, 10, false, 200, 0)
  {
    hide TradeId;
    var o := OrderBook.Order(300, 10, 0, Bid, true, 200, 0);
    assert ReadMail(o, [Fill(3)]) == o.(filled := 10, active := false);
  }

  lemma OrderIsOver(noise: (VertexId, Superstep) -> int)
    ensures Compute(noise, 3, OrderWith(false, 10, false, 200, 0), [BidQuote(3, 2, 0)], 3)
         == OrderWith(true, 10, false, 200, 0)
  {
  }

  lemma BidLevelWakes(noise: (VertexId, Superstep) -> int)
    ensures !Compute(noise, 1, BidLevel(false, 0, 0, 0), [Signal(3)], 4).halted
  {
    FoldOne(Absorb, Stock(0, 0), Signal(3));
  }

  // ----- the run

  lemma InboxOf(w: World<Local>, v: VertexId)
    requires w.unclaimed == map[]
    ensures Inbox(w, v) == Keep(w.mail, AddressedTo(v))
  {
    assert [] + Keep(w.mail, AddressedTo(v)) == Keep(w.mail, AddressedTo(v));
  }

  lemma Computed(noise: (VertexId, Superstep) -> int, w: World<Local>, v: VertexId, step: Superstep)
    requires v in w.vertices
    ensures After(BookProgram(noise), w, v, step) ==
              if !w.vertices[v].halted || Inbox(w, v) != [] then
                Compute(noise, v, w.vertices[v].(halted := false), Inbox(w, v), step)
              else w.vertices[v]
  {
    hide Compute;
  }

  lemma First(noise: (VertexId, Superstep) -> int)
    ensures Step(BookProgram(noise), ORDER, Start(), 0) == AfterOne()
  {
    hide Compute, Inbox, After, Step, TradeId;
    var w := Start();
    forall v: VertexId ensures Inbox(w, v) == [] {
      InboxOf(w, v);
    }
    MakerIdle(noise, 0);
    BidLevelOpens(noise);
    AskLevelOpens(noise);
    OrderWaits(noise);
    Computed(noise, w, 0, 0);
    Computed(noise, w, 1, 0);
    Computed(noise, w, 2, 0);
    Computed(noise, w, 3, 0);
    StepOfFour(BookProgram(noise), w, 0, MakerWith(true, 0, 0, 0),
      BidLevel(false, 10, 1, 10).(outbox := [BidQuote(0, 0, 10), BidQuote(3, 0, 10)]),
      AskLevel(false, 10, 1, 10).(outbox := [AskQuote(0, 10)]), OrderWith(false, 0, true, 0, 1));
    var none: seq<Message> := [];
    assert none + [BidQuote(0, 0, 10), BidQuote(3, 0, 10)] + [AskQuote(0, 10)] + none == AfterOne().mail;
  }

  lemma QuotesRead(w: World<Local>, sent: Superstep, qty: nat)
    requires w.unclaimed == map[] && w.mail == [BidQuote(0, sent, qty), BidQuote(3, sent, qty), AskQuote(sent, qty)]
    ensures Inbox(w, 0) == [BidQuote(0, sent, qty), AskQuote(sent, qty)] && Inbox(w, 3) == [BidQuote(3, sent, qty)]
    ensures Inbox(w, 1) == [] && Inbox(w, 2) == []
  {
    forall v: VertexId
      ensures Inbox(w, v)
           == One(w.mail[0], AddressedTo(v)) + One(w.mail[1], AddressedTo(v)) + One(w.mail[2], AddressedTo(v))
    {
      InboxOf(w, v);
      KeepThree(w.mail[0], w.mail[1], w.mail[2], AddressedTo(v));
    }
  }

  lemma Second(noise: (VertexId, Superstep) -> int)
    ensures Step(BookProgram(noise), ORDER, AfterOne(), 1) == AfterTwo()
  {
    hide Compute, Inbox, After, Step, TradeId;
    var w := AfterOne();
    QuotesRead(w, 0, 10);
    MakerSignals(noise, 0, 0, 0, 1, 0, 10);
    LevelsWait(noise, 10, 1, 1);
    OrderTrades(noise);
    Computed(noise, w, 0, 1);
    Computed(noise, w, 1, 1);
    Computed(noise, w, 2, 1);
    Computed(noise, w, 3, 1);
    StepOfFour(BookProgram(noise), w, 1, MakerWith(true, 1, 200, 100).(outbox := [Signal(1)]),
      BidLevel(false, 10, 1, 10), AskLevel(false, 10, 1, 10),
      OrderWith(false, 0, true, 200, 0).(outbox := [Fill(1), Fill(2), Fill(3)]));
    var none: seq<Message> := [];
    assert [Signal(1)] + none + none + [Fill(1), Fill(2), Fill(3)] == AfterTwo().mail;
  }

  lemma FillsRead(w: World<Local>)
    requires w.unclaimed == map[] && w.mail == [Signal(1), Fill(1), Fill(2), Fill(3)]
    ensures Inbox(w, 0) == [] && Inbox(w, 1) == [Signal(1), Fill(1)]
    ensures Inbox(w, 2) == [Fill(2)] && Inbox(w, 3) == [Fill(3)]
  {
    hide TradeId;
    forall v: VertexId
      ensures Inbox(w, v) == One(Signal(1), AddressedTo(v)) + One(Fill(1), AddressedTo(v))
                             + One(Fill(2), AddressedTo(v)) + One(Fill(3), AddressedTo(v))
    {
      InboxOf(w, v);
      KeepFour(Signal(1), Fill(1), Fill(2), Fill(3), AddressedTo(v));
    }
  }

  lemma Third(noise: (VertexId, Superstep) -> int)
    ensures Step(BookProgram(noise), ORDER, AfterTwo(), 2) == AfterThree()
  {
    hide Compute, Inbox, After, Step, TradeId;
    var w := AfterTwo();
    FillsRead(w);
    BidLevelEmpties(noise);
    AskLevelEmpties(noise);
    OrderIsFilled(noise);
    Computed(noise, w, 0, 2);
    Computed(noise, w, 1, 2);
    Computed(noise, w, 2, 2);
    Computed(noise, w, 3, 2);
    StepOfFour(BookProgram(noise), w, 2, MakerWith(true, 1, 200, 100),
      BidLevel(false, 0, 0, 0).(outbox := [BidQuote(0, 2, 0), BidQuote(3, 2, 0)]),
      AskLevel(false, 0, 0, 0).(outbox := [AskQuote(2, 0)]), OrderWith(true, 10, false, 200, 0));
    var none: seq<Message> := [];
    assert none + [BidQuote(0, 2, 0), BidQuote(3, 2, 0)] + [AskQuote(2, 0)] + none == AfterThree().mail;
  }

  lemma Fourth(noise: (VertexId, Superstep) -> int)
    ensures Step(BookProgram(noise), ORDER, AfterThree(), 3) == AfterFour()
  {
    hide Compute, Inbox, After, Step, TradeId;
    var w := AfterThree();
    QuotesRead(w, 2, 0);
    MakerSignals(noise, 1, 200, 100, 3, 2, 0);
    LevelsWait(noise, 0, 0, 3);
    OrderIsOver(noise);
    Computed(noise, w, 0, 3);
    Computed(noise, w, 1, 3);
    Computed(noise, w, 2, 3);
    Computed(noise, w, 3, 3);
    StepOfFour(BookProgram(noise), w, 3, MakerWith(true, 2, 200, 100).(outbox := [Signal(3)]),
      BidLevel(true, 0, 0, 0), AskLevel(true, 0, 0, 0), OrderWith(true, 10, false, 200, 0));
    var none: seq<Message> := [];
    assert [Signal(3)] + none + none + none == AfterFour().mail;
  }

  lemma Fifth(noise: (VertexId, Superstep) -> int)
    ensures 1 in Active(Step(BookProgram(noise), ORDER, AfterFour(), 4).vertices)
  {
    hide Compute, Inbox, After;
    var w := AfterFour();
    InboxOf(w, 1);
    KeepOne(Signal(3), AddressedTo(1));
    BidLevelWakes(noise);
    Computed(noise, w, 1, 4);
  }

  lemma {:induction false} TheRun(noise: (VertexId, Superstep) -> int)
    ensures var prog := BookProgram(noise);
      && Iterate(prog, ORDER, Start(), 0, 0) == Start()
      && Iterate(prog, ORDER, Start(), 0, 1) == AfterOne()
      && Iterate(prog, ORDER, Start(), 0, 2) == AfterTwo()
      && Iterate(prog, ORDER, Start(), 0, 3) == AfterThree()
      && Iterate(prog, ORDER, Start(), 0, 4) == AfterFour()
      && Iterate(prog, ORDER, Start(), 0, 5) == Step(prog, ORDER, AfterFour(), 4)
  {
    hide Step, BookProgram, Start, AfterOne, AfterTwo, AfterThree, AfterFour;
    First(noise);
    Second(noise);
    Third(noise);
    Fourth(noise);
  }

  lemma SomeoneAwake()
    ensures Active(Start().vertices) != {} && Active(AfterOne().vertices) != {}
    ensures Active(AfterTwo().vertices) != {} && Active(AfterThree().vertices) != {}
    ensures Active(AfterFour().vertices) == {} && AfterFour().mail == [Signal(3)]
  {
    hide TradeId;
    assert 1 in Active(Start().vertices) && 1 in Active(AfterOne().vertices);
    assert 1 in Active(AfterTwo().vertices) && 1 in Active(AfterThree().vertices);
  }

  /**
   The coordinator's condition can fail, whatever the noise: from a book as constructed, four supersteps
   leave nobody awake, so the run ends there, and a fifth would have found a vertex awake again.
   */
  lemma {:induction false} StopsTooEarly(noise: (VertexId, Superstep) -> int)
    ensures var prog := BookProgram(noise);
      && Active(Iterate(prog, ORDER, Start(), 0, 4).vertices) == {}
      && Iterate(prog, ORDER, Start(), 0, 4).mail == [Signal(3)]
      && Active(Iterate(prog, ORDER, Start(), 0, 5).vertices) != {}
      && forall k | 0 <= k < 4 :: Active(Iterate(prog, ORDER, Start(), 0, k).vertices) != {}
  {
    hide *;
    TheRun(noise);
    SomeoneAwake();
    Fifth(noise);
    forall k | 0 <= k < 4 ensures Active(Iterate(BookProgram(noise), ORDER, Start(), 0, k).vertices) != {} {
      assert k == 0 || k == 1 || k == 2 || k == 3;
    }
  }

  /** The vertices of the start, made with the constructors and given their edges. */
  method Construct() returns (m: V.MarketMakerVertex, b: V.PriceLevelVertex, a: V.PriceLevelVertex, o: V.OrderVertex)
    ensures var s := m.Snapshot(); Start().vertices[0] == VertexState(s.halted, s.outbox, AMaker(m.edges, s.local))
    ensures var s := b.Snapshot(); Start().vertices[1] == VertexState(s.halted, s.outbox, ALevel(b.edges, s.local))
    ensures var s := a.Snapshot(); Start().vertices[2] == VertexState(s.halted, s.outbox, ALevel(a.edges, s.local))
    ensures var s := o.Snapshot(); Start().vertices[3] == VertexState(s.halted, s.outbox, AnOrder(o.edges, s.local))
  {
    m := new V.MarketMakerVertex(0, V.MakerState(2_000_000, 0, 0, 0, 1_000_000.0));
    m.edges := [Edge(1, 2)];
    b := new V.PriceLevelVertex(1, 200, Bid, 10, 1);
    b.edges := [Edge(0, 2), Edge(3, 2)];
    a := new V.PriceLevelVertex(2, 100, Ask, 10, 1);
    a.edges := [Edge(0, 2)];
    o := new V.OrderVertex(3, V.OrderState(300, 10, 0, Bid, true));
    o.edges := [Edge(1, 0), Edge(2, 0), Edge(3, 0)];
  }
}
