/** Whole runs of the order book on one worker. */
module BookRuns {
  import opened Messages
  import opened Bsp
  import opened Worker
  import opened Coordinators
  import opened OrderBook
  import opened BookLaws

  datatype Local =
    | AnOrder(edges: seq<Edge>, order: Order)
    | ALevel(edges: seq<Edge>, level: Level)
    | AVenue(edges: seq<Edge>, venue: Venue)
    | AMaker(edges: seq<Edge>, maker: Maker)

  /** The virtual compute; noise is what a venue's generator yields in a step. */
  function Compute(noise: (VertexId, Superstep) -> int, v: VertexId, s: VertexState<Local>,
      inbox: seq<Message>, step: Superstep)
    : VertexState<Local>
  {
    match s.local
    case AnOrder(edges, o) =>
      var r := OrderStep(v, edges, VertexState(s.halted, s.outbox, o), inbox, step);
      VertexState(r.halted, r.outbox, AnOrder(edges, r.local))
    case ALevel(edges, l) =>
      var r := LevelStep(v, edges, VertexState(s.halted, s.outbox, l), inbox, step);
      VertexState(r.halted, r.outbox, ALevel(edges, r.local))
    case AVenue(edges, u) =>
      var r := VenueStep(v, edges, VertexState(s.halted, s.outbox, u), inbox, step, noise(v, step));
      VertexState(r.halted, r.outbox, AVenue(edges, r.local))
    case AMaker(edges, k) =>
      var r := MakerStep(v, edges, VertexState(s.halted, s.outbox, k), inbox, step);
      VertexState(r.halted, r.outbox, AMaker(edges, r.local))
  }

  function BookProgram(noise: (VertexId, Superstep) -> int): Program<Local> {
    (v: VertexId, s: VertexState<Local>, inbox: seq<Message>, step: Superstep) => Compute(noise, v, s, inbox, step)
  }

  // ----- messages carry their sender

  ghost predicate SignedBy(v: VertexId, ms: seq<Message>) {
    forall m | m in ms :: m.src == v
  }

  lemma {:induction false} FanSigned(v: VertexId, edges: seq<Edge>, along: Along, step: Superstep, body: Body)
    ensures SignedBy(v, Fan(v, edges, along, step, body))
  {
    forall m | m in Fan(v, edges, along, step, body) ensures m.src == v {
      FanMember(v, edges, along, step, body, m);
    }
  }

  lemma {:induction false} ForwardedSigned(v: VertexId, edges: seq<Edge>, inbox: seq<Message>, step: Superstep)
    ensures SignedBy(v, Forwarded(v, edges, inbox, step))
  {
    if inbox != [] {
      ForwardedSigned(v, edges, inbox[..|inbox| - 1], step);
      FanSigned(v, edges, OfKind(1), step, inbox[|inbox| - 1].body);
    }
  }

  lemma {:induction false} ComputeSigns(
    noise: (VertexId, Superstep) -> int, v: VertexId, s: VertexState<Local>, inbox: seq<Message>, step: Superstep)
    requires s.outbox == []
    ensures SignedBy(v, Compute(noise, v, s, inbox, step).outbox)
  {
    hide Fan, Forwarded, ReadMail, Listen, Fold;
    match s.local {
      case AnOrder(edges, o) => FanSigned(v, edges, Every, step, FillOf(v, ReadMail(o, inbox), step));
      case ALevel(edges, l) =>
        ForwardedSigned(v, edges, inbox, step);
        FanSigned(v, edges, OfKind(2), step, Quote(l, Stocked(l, inbox).total));
      case AVenue(edges, u) =>
        var r := Requoted(Fold(Listen, u, inbox), noise(v, step));
        FanSigned(v, edges, Every, step, PriceUpdate(r.bestBid, r.bestAsk, r.bidSize, r.askSize));
      case AMaker(edges, k) =>
        FanSigned(v, edges, Every, step, ArbitrageSignal(CrossedBps(Fold(Book, k, inbox)), 0, 1));
    }
  }

  lemma {:induction false} BookSigns(noise: (VertexId, Superstep) -> int)
    ensures Signs(BookProgram(noise))
  {
    hide Compute;
    forall v: VertexId, s: VertexState<Local>, inbox: seq<Message>, step: Superstep | s.outbox == []
      ensures SignedBy(v, BookProgram(noise)(v, s, inbox, step).outbox)
    {
      ComputeSigns(noise, v, s, inbox, step);
    }
  }

  /** In every superstep of a run of the book, what u reads from v is what v sent it the step before, in order. */
  lemma {:induction false} BookKeepsSendOrder(
    noise: (VertexId, Superstep) -> int, order: seq<VertexId>, w: World<Local>, n: nat, v: VertexId, u: VertexId)
    requires Lists(order, w) && v in w.vertices && u in w.vertices && n > 0
    ensures var prog := BookProgram(noise);
      Keep(Inbox(Iterate(prog, order, w, 0, n + 1), u), SentBy(v))
        == Keep(After(prog, Iterate(prog, order, w, 0, n), v, n).outbox, AddressedTo(u))
  {
    var prog := BookProgram(noise);
    var p := Iterate(prog, order, w, 0, n);
    hide BookProgram, Signs, OutboxesEmpty, NoBacklog, Lists, Inbox, After, Sent, Keep, Step;
    BetweenSteps(prog, order, w, 0, n);
    BetweenSteps(prog, order, w, 0, n + 1);
    ListsKept(prog, order, w, n);
    BookSigns(noise);
    SendOrderKept(prog, order, p, n, v, u);
  }

  // ----- when convergence is real

  predicate Settles(x: Local) {
    x.ALevel? ==> Told(x.level)
  }

  /** A market maker that the step leaves over its limit, signalling to someone. */
  predicate Caught(noise: (VertexId, Superstep) -> int, w: World<Local>, v: VertexId, step: Superstep)
    requires v in w.vertices
  {
    var r := After(BookProgram(noise), w, v, step).local;
    Computes(w, v) && r.AMaker? && OverLimit(r.maker) && SeesArbitrage(r.maker) && r.edges != []
  }

  ghost predicate NoneCaught(noise: (VertexId, Superstep) -> int, w: World<Local>, step: Superstep) {
    forall v | v in w.vertices :: !Caught(noise, w, v, step)
  }

  lemma {:induction false} SilentVertex(noise: (VertexId, Superstep) -> int, v: VertexId,
      s: VertexState<Local>, inbox: seq<Message>, step: Superstep)
    requires !s.halted && s.outbox == [] && Settles(s.local)
    ensures var r := Compute(noise, v, s, inbox, step);
      && Settles(r.local)
      && (r.halted && r.outbox != [] <==>
            r.local.AMaker? && OverLimit(r.local.maker) && SeesArbitrage(r.local.maker) && r.local.edges != [])
  {
    hide OrderStep, LevelStep, MakerStep, OverLimit, SeesArbitrage, Told;
    match s.local {
      case AnOrder(edges, o) => OrderHaltsSilently(v, edges, VertexState(s.halted, s.outbox, o), inbox, step);
      case ALevel(edges, l) => LevelHaltsSilently(v, edges, VertexState(s.halted, s.outbox, l), inbox, step);
      case AVenue(edges, u) =>
      case AMaker(edges, k) => MakerHaltsWithMail(v, edges, VertexState(s.halted, s.outbox, k), inbox, step);
    }
  }

  /** A step of the book is silent exactly if no market maker is caught in it. */
  lemma {:induction false} SilentExactlyIfNoneCaught(noise: (VertexId, Superstep) -> int, w: World<Local>,
      step: Superstep)
    requires AllGood(w, Settles) && OutboxesEmpty(w)
    ensures SilentStep(BookProgram(noise), w, step) <==> NoneCaught(noise, w, step)
  {
    hide Compute, OverLimit, SeesArbitrage, Settles;
    forall v | v in w.vertices
      ensures After(BookProgram(noise), w, v, step).halted && After(BookProgram(noise), w, v, step).outbox != []
              <==> Caught(noise, w, v, step)
    {
      if Computes(w, v) {
        SilentVertex(noise, v, w.vertices[v].(halted := false), Inbox(w, v), step);
      }
    }
  }

  lemma {:induction false} SettledStep(noise: (VertexId, Superstep) -> int, order: seq<VertexId>,
      w: World<Local>, step: Superstep)
    requires AllGood(w, Settles) && OutboxesEmpty(w)
    ensures AllGood(Step(BookProgram(noise), order, w, step), Settles)
            && OutboxesEmpty(Step(BookProgram(noise), order, w, step))
  {
    hide Compute, Settles, Inbox;
    forall v | v in w.vertices ensures Settles(After(BookProgram(noise), w, v, step).local) {
      if Computes(w, v) {
        SilentVertex(noise, v, w.vertices[v].(halted := false), Inbox(w, v), step);
      }
    }
  }

  lemma {:induction false} StaysSettled(noise: (VertexId, Superstep) -> int, order: seq<VertexId>,
      w: World<Local>, n: nat)
    requires AllGood(w, Settles) && OutboxesEmpty(w)
    ensures AllGood(Iterate(BookProgram(noise), order, w, 0, n), Settles)
            && OutboxesEmpty(Iterate(BookProgram(noise), order, w, 0, n))
  {
    hide BookProgram, Settles, AllGood, OutboxesEmpty, Step;
    if n > 0 {
      StaysSettled(noise, order, w, n - 1);
      SettledStep(noise, order, Iterate(BookProgram(noise), order, w, 0, n - 1), n - 1);
    }
  }

  /**
   The coordinator stops the book when nobody is awake. That is the true end of the run, after which
   nothing changes any more, exactly if no market maker was caught in the last step.
   */
  lemma {:induction false} BookConvergence(
    noise: (VertexId, Superstep) -> int, order: seq<VertexId>, w: World<Local>, n: nat, m: nat)
    requires AllGood(w, Settles) && OutboxesEmpty(w) && Lists(order, w)
    requires 0 < n <= m && Active(Iterate(BookProgram(noise), order, w, 0, n).vertices) == {}
    ensures var last := Iterate(BookProgram(noise), order, w, 0, n - 1);
      var end := Iterate(BookProgram(noise), order, w, 0, n);
      && (Quiescent(end) <==> NoneCaught(noise, last, n - 1))
      && (Quiescent(end) ==> Iterate(BookProgram(noise), order, w, 0, m) == end)
  {
    hide BookProgram, Caught, Quiescent, SilentStep, Settles, AllGood, OutboxesEmpty, Step, Active;
    var prog := BookProgram(noise);
    var last, end := Iterate(prog, order, w, 0, n - 1), Iterate(prog, order, w, 0, n);
    assert end == Step(prog, order, last, n - 1);
    hide *;
    StaysSettled(noise, order, w, n - 1);
    ListsKept(prog, order, w, n - 1);
    OverExactlyIfSilent(prog, order, last, n - 1);
    SilentExactlyIfNoneCaught(noise, last, n - 1);
    if Quiescent(end) {
      QuiescentStays(prog, order, end, n, m - n);
      IterateSplit(prog, order, w, n, m - n);
    }
  }

  lemma ListsKept(prog: Program<Local>, order: seq<VertexId>, w: World<Local>, n: nat)
    requires Lists(order, w)
    ensures Lists(order, Iterate(prog, order, w, 0, n))
  {
    hide Iterate;
    assert Iterate(prog, order, w, 0, n).vertices.Keys == w.vertices.Keys;
  }

  // ----- a book without market makers

  predicate NoMaker(x: Local) {
    !x.AMaker? && Settles(x)
  }

  /** Without market makers the programs of the book halt in silence only. */
  lemma {:induction false} MakerlessBookHaltsSilently(noise: (VertexId, Superstep) -> int)
    ensures HaltsSilently(BookProgram(noise), NoMaker)
  {
    hide Settles;
    forall v: VertexId, s: VertexState<Local>, inbox: seq<Message>, step: Superstep
      | !s.halted && s.outbox == [] && NoMaker(s.local)
      ensures var r := BookProgram(noise)(v, s, inbox, step); NoMaker(r.local) && (r.halted ==> r.outbox == [])
    {
      SilentVertex(noise, v, s, inbox, step);
      KeepsKind(noise, v, s, inbox, step);
      hide Compute;
    }
  }

  lemma KeepsKind(
    noise: (VertexId, Superstep) -> int, v: VertexId, s: VertexState<Local>, inbox: seq<Message>, step: Superstep)
    ensures Compute(noise, v, s, inbox, step).local.AMaker? <==> s.local.AMaker?
  {
    hide OrderStep, LevelStep, VenueStep, MakerStep;
  }

  /** So there the coordinator's count can be trusted whatever else the book is. */
  lemma {:induction false} MakerlessBookEndsForReal(
    noise: (VertexId, Superstep) -> int, order: seq<VertexId>, w: World<Local>, n: nat, m: nat)
    requires AllGood(w, NoMaker) && OutboxesEmpty(w)
    requires 0 < n <= m && Active(Iterate(BookProgram(noise), order, w, 0, n).vertices) == {}
    ensures Quiescent(Iterate(BookProgram(noise), order, w, 0, n))
    ensures Iterate(BookProgram(noise), order, w, 0, m) == Iterate(BookProgram(noise), order, w, 0, n)
  {
    hide *;
    MakerlessBookHaltsSilently(noise);
    ConvergenceSound(BookProgram(noise), NoMaker, order, w, n, m);
  }

  // ----- what the wiring of the book decides

  /** An order's edges lead to price levels only, as the builder makes them. */
  ghost predicate Wired(w: World<Local>) {
    forall v, e | v in w.vertices && w.vertices[v].local.AnOrder? && e in w.vertices[v].local.edges :: IsLevel(w, e.dst)
  }

  predicate IsLevel(w: World<Local>, v: VertexId) {
    v in w.vertices && w.vertices[v].local.ALevel?
  }

  /** A message the wired book can send: fills go to levels and are always for the same remainder. */
  predicate Plain(start: World<Local>, m: Message) {
    match m.body
    case PriceUpdate(_, _, _, _) => true
    case ArbitrageSignal(_, _, _) => true
    case OrderFill(_, qty, _) =>
      && IsLevel(start, m.dst) && m.src in start.vertices && start.vertices[m.src].local.AnOrder?
      && var o := start.vertices[m.src].local.order; qty == (o.quantity - o.filled) % WORD
    case _ => false
  }

  /** What trading never changes: an order's fill, a maker's position; and levels are only drained. */
  predicate Untraded(before: Local, after: Local) {
    match before
    case AnOrder(edges, o) =>
      after.AnOrder? && after.edges == edges
      && after.order.(best := o.best, idle := o.idle) == o
    case ALevel(edges, l) => after.ALevel? && after.edges == edges && after.level.total <= l.total
    case AVenue(edges, _) => after.AVenue? && after.edges == edges
    case AMaker(edges, k) =>
      after.AMaker? && after.edges == edges
      && after.maker.(signals := k.signals, bid := k.bid, ask := k.ask) == k
  }

  ghost predicate PlainMail(start: World<Local>, ms: seq<Message>) {
    forall m | m in ms :: Plain(start, m)
  }

  /** The mail of a vertex that is not a level holds no fill and no cancellation. */
  predicate Quiet(m: Message) {
    m.body.PriceUpdate? || m.body.ArbitrageSignal?
  }

  lemma {:induction false} QuietOrder(o: Order, inbox: seq<Message>)
    requires forall m | m in inbox :: Quiet(m)
    ensures ReadMail(o, inbox).(best := o.best) == o
    decreases |inbox|
  {
    if inbox != [] {
      assert Quiet(inbox[0]);
      forall m | m in inbox[1..] ensures Quiet(m) {
        assert m in inbox;
      }
      var b := inbox[0].body;
      QuietOrder(if b.PriceUpdate? then o.(best := if o.side.Bid? then b.bid else b.ask) else o, inbox[1..]);
    }
  }

  lemma {:induction false} QuietMaker(k: Maker, inbox: seq<Message>)
    requires forall m | m in inbox :: Quiet(m)
    ensures Fold(Book, k, inbox).(bid := k.bid, ask := k.ask) == k
  {
    if inbox != [] {
      assert Quiet(inbox[|inbox| - 1]);
      QuietMaker(k, inbox[..|inbox| - 1]);
    }
  }

  lemma {:induction false} ForwardedIsPlain(start: World<Local>, id: VertexId, edges: seq<Edge>,
      inbox: seq<Message>, step: Superstep)
    ensures PlainMail(start, Forwarded(id, edges, inbox, step))
  {
    if inbox != [] {
      ForwardedIsPlain(start, id, edges, inbox[..|inbox| - 1], step);
      FanIsPlain(start, id, edges, OfKind(1), step, inbox[|inbox| - 1].body);
    }
  }

  lemma {:induction false} FanIsPlain(start: World<Local>, id: VertexId, edges: seq<Edge>, along: Along,
      step: Superstep, body: Body)
    ensures body.PriceUpdate? || body.ArbitrageSignal? ==> PlainMail(start, Fan(id, edges, along, step, body))
  {
    forall m | m in Fan(id, edges, along, step, body) ensures m.body == body {
      FanMember(id, edges, along, step, body, m);
    }
  }

  lemma {:induction false} OrderSendsPlain(start: World<Local>, v: VertexId, edges: seq<Edge>, o: Order,
      inbox: seq<Message>, step: Superstep)
    requires Wired(start) && v in start.vertices && Untraded(start.vertices[v].local, AnOrder(edges, o))
    requires forall m | m in inbox :: Quiet(m)
    ensures var r := OrderStep(v, edges, VertexState(false, [], o), inbox, step);
      PlainMail(start, r.outbox) && Untraded(start.vertices[v].local, AnOrder(edges, r.local))
  {
    QuietOrder(o, inbox);
    var p := ReadMail(o, inbox);
    forall m | m in Fan(v, edges, Every, step, FillOf(v, p, step)) ensures Plain(start, m) {
      FanMember(v, edges, Every, step, FillOf(v, p, step), m);
    }
  }

  lemma {:induction false} LevelSendsPlain(start: World<Local>, v: VertexId, edges: seq<Edge>, l: Level,
      inbox: seq<Message>, step: Superstep)
    ensures var r := LevelStep(v, edges, VertexState(false, [], l), inbox, step);
      PlainMail(start, r.outbox) && r.local.total <= l.total
  {
    LevelClosedForm(Stock(l.total, l.count), inbox);
    ForwardedIsPlain(start, v, edges, inbox, step);
    FanIsPlain(start, v, edges, OfKind(2), step, Quote(l, Stocked(l, inbox).total));
  }

  lemma {:induction false} MakerSendsPlain(start: World<Local>, v: VertexId, edges: seq<Edge>, k: Maker,
      inbox: seq<Message>, step: Superstep)
    requires forall m | m in inbox :: Quiet(m)
    ensures var r := MakerStep(v, edges, VertexState(false, [], k), inbox, step);
      PlainMail(start, r.outbox) && r.local.(signals := k.signals, bid := k.bid, ask := k.ask) == k
  {
    QuietMaker(k, inbox);
    FanIsPlain(start, v, edges, Every, step, ArbitrageSignal(CrossedBps(Fold(Book, k, inbox)), 0, 1));
  }

  lemma {:induction false} ComputesPlain(
    start: World<Local>, noise: (VertexId, Superstep) -> int, v: VertexId, s: VertexState<Local>,
    inbox: seq<Message>, step: Superstep)
    requires Wired(start) && v in start.vertices && Untraded(start.vertices[v].local, s.local) && !s.halted
             && s.outbox == []
    requires PlainMail(start, inbox) && forall m | m in inbox :: m.dst == v
    ensures var r := Compute(noise, v, s, inbox, step);
      PlainMail(start, r.outbox) && Untraded(start.vertices[v].local, r.local)
  {
    hide OrderStep, LevelStep, MakerStep, PlainMail;
    if !s.local.ALevel? {
      AllQuiet(start, v, inbox);
    }
    match s.local {
      case AnOrder(edges, o) => OrderSendsPlain(start, v, edges, o, inbox, step);
      case ALevel(edges, l) => LevelSendsPlain(start, v, edges, l, inbox, step);
      case AVenue(edges, u) =>
        var r := VenueStep(v, edges, VertexState(false, [], u), inbox, step, noise(v, step));
        var nbbo := PriceUpdate(r.local.bestBid, r.local.bestAsk, r.local.bidSize, r.local.askSize);
        FanIsPlain(start, v, edges, Every, step, nbbo);
        assert r.outbox == Fan(v, edges, Every, step, nbbo);
      case AMaker(edges, k) => MakerSendsPlain(start, v, edges, k, inbox, step);
    }
  }

  lemma AllQuiet(start: World<Local>, v: VertexId, inbox: seq<Message>)
    requires PlainMail(start, inbox) && !IsLevel(start, v) && forall m | m in inbox :: m.dst == v
    ensures forall m | m in inbox :: Quiet(m)
  {
    forall m | m in inbox ensures Quiet(m) {
      assert Plain(start, m);
    }
  }

  /** What every superstep of a wired book keeps. */
  ghost predicate Trading(start: World<Local>, w: World<Local>) {
    && w.vertices.Keys == start.vertices.Keys && OutboxesEmpty(w) && NoBacklog(w)
    && PlainMail(start, w.mail)
    && forall v | v in w.vertices :: Untraded(start.vertices[v].local, w.vertices[v].local)
  }

  lemma {:induction false} TradingVertex(
    start: World<Local>, noise: (VertexId, Superstep) -> int, w: World<Local>, v: VertexId, step: Superstep)
    requires Wired(start) && Trading(start, w) && v in w.vertices
    ensures var r := After(BookProgram(noise), w, v, step);
      PlainMail(start, r.outbox) && Untraded(start.vertices[v].local, r.local)
  {
    hide Compute, Untraded, Wired, Plain;
    if Computes(w, v) {
      var inbox := Inbox(w, v);
      assert inbox == Keep(w.mail, AddressedTo(v));
      forall m | m in inbox ensures m.dst == v && m in w.mail {
        KeepMember(w.mail, AddressedTo(v), m);
      }
      ComputesPlain(start, noise, v, w.vertices[v].(halted := false), inbox, step);
    }
  }

  lemma {:induction false} SentFrom(prog: Program<Local>, order: seq<VertexId>, n: nat, w: World<Local>,
      step: Superstep, m: Message)
    requires n <= |order| && m in Sent(prog, order, n, w, step)
    ensures exists v :: v in w.vertices && m in After(prog, w, v, step).outbox
  {
    hide After;
    if m in Sent(prog, order, n - 1, w, step) {
      SentFrom(prog, order, n - 1, w, step, m);
    }
  }

  lemma {:induction false} TradingStep(
    start: World<Local>, noise: (VertexId, Superstep) -> int, order: seq<VertexId>, w: World<Local>, step: Superstep)
    requires Wired(start) && Trading(start, w)
    ensures Trading(start, Step(BookProgram(noise), order, w, step))
  {
    hide BookProgram, Untraded, Plain, After, Sent, Wired;
    var prog := BookProgram(noise);
    var r := Step(prog, order, w, step);
    forall v | v in w.vertices ensures Untraded(start.vertices[v].local, r.vertices[v].local) {
      TradingVertex(start, noise, w, v, step);
    }
    forall m | m in r.mail ensures Plain(start, m) {
      SentFrom(prog, order, |order|, w, step, m);
      var v :| v in w.vertices && m in After(prog, w, v, step).outbox;
      TradingVertex(start, noise, w, v, step);
    }
  }

  /**
   In the book as it is wired nothing ever tells an order that it traded. Over any run no order is
   filled or deactivated, every fill it sends is for its whole remainder again, no market maker's
   position moves, and levels are only drained.
   */
  lemma {:induction false} OrdersNeverLearnOfTrades(
    start: World<Local>, noise: (VertexId, Superstep) -> int, order: seq<VertexId>, first: Superstep, n: nat)
    requires Wired(start) && OutboxesEmpty(start) && NoBacklog(start) && PlainMail(start, start.mail)
    ensures Trading(start, Iterate(BookProgram(noise), order, start, first, n))
  {
    hide Step, BookProgram, Wired;
    if n > 0 {
      hide Trading, OutboxesEmpty, NoBacklog, PlainMail;
      OrdersNeverLearnOfTrades(start, noise, order, first, n - 1);
      TradingStep(start, noise, order, Iterate(BookProgram(noise), order, start, first, n - 1), first + n - 1);
    }
  }

  /** No maker starts above its limit. */
  ghost predicate WithinLimits(w: World<Local>) {
    forall v | v in w.vertices && w.vertices[v].local.AMaker? :: !OverLimit(w.vertices[v].local.maker)
  }

  /** Hence in the wired book the coordinator's count can be trusted: when it reaches zero the run is over. */
  lemma {:induction false} WiredBookEndsForReal(
    start: World<Local>, noise: (VertexId, Superstep) -> int, order: seq<VertexId>, n: nat, m: nat)
    requires Wired(start) && OutboxesEmpty(start) && NoBacklog(start) && PlainMail(start, start.mail)
    requires AllGood(start, Settles) && WithinLimits(start) && Lists(order, start)
    requires 0 < n <= m && Active(Iterate(BookProgram(noise), order, start, 0, n).vertices) == {}
    ensures Quiescent(Iterate(BookProgram(noise), order, start, 0, n))
    ensures Iterate(BookProgram(noise), order, start, 0, m) == Iterate(BookProgram(noise), order, start, 0, n)
  {
    hide Step, BookProgram, Wired, Active, Quiescent, OutboxesEmpty, NoBacklog, PlainMail, AllGood, Lists, Caught;
    var last := Iterate(BookProgram(noise), order, start, 0, n - 1);
    OrdersNeverLearnOfTrades(start, noise, order, 0, n - 1);
    BookConvergence(noise, order, start, n, m);
    forall v | v in last.vertices ensures !Caught(noise, last, v, n - 1) {
      NotCaught(start, noise, last, v, n - 1);
    }
  }

  lemma NotCaught(start: World<Local>, noise: (VertexId, Superstep) -> int, w: World<Local>, v: VertexId,
      step: Superstep)
    requires Wired(start) && Trading(start, w) && WithinLimits(start) && v in w.vertices
    ensures !Caught(noise, w, v, step)
  {
    hide BookProgram, Wired, PlainMail, Computes;
    TradingVertex(start, noise, w, v, step);
  }

  // ----- a venue never rests

  ghost predicate OpenVenue(w: World<Local>, v: VertexId) {
    v in w.vertices && w.vertices[v].local.AVenue? && !w.vertices[v].halted
  }

  lemma {:induction false} VenueStaysAwake(
    noise: (VertexId, Superstep) -> int, order: seq<VertexId>, w: World<Local>, v: VertexId, first: Superstep, n: nat)
    requires OpenVenue(w, v)
    ensures OpenVenue(Iterate(BookProgram(noise), order, w, first, n), v)
    ensures Active(Iterate(BookProgram(noise), order, w, first, n).vertices) != {}
  {
    hide Step, BookProgram;
    if n > 0 {
      VenueStaysAwake(noise, order, w, v, first, n - 1);
      OpenStep(noise, order, Iterate(BookProgram(noise), order, w, first, n - 1), v, first + n - 1);
    }
    assert v in Active(Iterate(BookProgram(noise), order, w, first, n).vertices);
  }

  lemma OpenStep(noise: (VertexId, Superstep) -> int, order: seq<VertexId>, w: World<Local>, v: VertexId,
      step: Superstep)
    requires OpenVenue(w, v)
    ensures OpenVenue(Step(BookProgram(noise), order, w, step), v)
  {
    hide Inbox, Sent, Unclaimed;
  }

  /** So a book with a venue never converges: the coordinator runs it to its limit, step for step. */
  method RunBook(c: Coordinator<Local>, noise: (VertexId, Superstep) -> int, ghost w: World<Local>,
      ghost venue: VertexId)
    returns (steps: nat)
    requires c.Ready(w) && OpenVenue(w, venue)
    modifies c, c.worker, c.worker.bus, c.worker.bus.Network(), c.worker.bus.Counters()
    ensures steps == c.maxSupersteps
    ensures c.worker.order == old(c.worker.order)
    ensures c.Ready(Iterate(BookProgram(noise), c.worker.order, w, 0, steps))
  {
    hide Step, BookProgram, Active;
    steps := c.Run(BookProgram(noise), w);
    VenueStaysAwake(noise, c.worker.order, w, venue, 0, steps);
  }
}
