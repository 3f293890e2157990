/** Trade identifiers over whole runs of the order book. */
module TradeNumbers {
  import opened Messages
  import opened Bsp
  import opened OrderBook
  import opened BookLaws
  import opened BookRuns

  /** Everything sent in the first n supersteps. */
  function History(prog: Program<Local>, order: seq<VertexId>, w: World<Local>, n: nat): seq<Message> {
    if n == 0 then [] else History(prog, order, w, n - 1) + Iterate(prog, order, w, 0, n).mail
  }

  /** Every order has at most one edge, as the builder makes them. */
  ghost predicate SingleEdged(w: World<Local>) {
    forall v | v in w.vertices && w.vertices[v].local.AnOrder? :: |w.vertices[v].local.edges| <= 1
  }

  ghost predicate Numbered(w: World<Local>) {
    forall v | v in w.vertices :: v < HALF_WORD
  }

  lemma {:induction false} TradeIdsConcat(s: seq<Message>, t: seq<Message>)
    ensures TradeIds(s + t) == TradeIds(s) + TradeIds(t)
  {
    if t == [] {
      assert s + t == s;
    } else {
      assert (s + t)[..|s + t| - 1] == s + t[..|t| - 1];
      TradeIdsConcat(s, t[..|t| - 1]);
    }
  }

  lemma {:induction false} NoTradeIds(ms: seq<Message>)
    requires forall m | m in ms :: !m.body.OrderFill?
    ensures TradeIds(ms) == []
  {
    if ms != [] {
      NoTradeIds(ms[..|ms| - 1]);
    }
  }

  lemma {:induction false} FanWithoutFills(v: VertexId, edges: seq<Edge>, along: Along, step: Superstep, body: Body)
    requires !body.OrderFill?
    ensures TradeIds(Fan(v, edges, along, step, body)) == []
  {
    forall m | m in Fan(v, edges, along, step, body) ensures m.body == body {
      FanMember(v, edges, along, step, body, m);
    }
    NoTradeIds(Fan(v, edges, along, step, body));
  }

  lemma {:induction false} ForwardedWithoutFills(v: VertexId, edges: seq<Edge>, inbox: seq<Message>, step: Superstep)
    ensures TradeIds(Forwarded(v, edges, inbox, step)) == []
  {
    if inbox != [] {
      ForwardedWithoutFills(v, edges, inbox[..|inbox| - 1], step);
      var m := inbox[|inbox| - 1];
      if m.body.PriceUpdate? {
        FanWithoutFills(v, edges, OfKind(1), step, m.body);
        TradeIdsConcat(Forwarded(v, edges, inbox[..|inbox| - 1], step), Fan(v, edges, OfKind(1), step, m.body));
      }
    }
  }

  /** No identifier at all, or just that of this vertex and step. */
  predicate AtMost(ids: seq<nat>, v: VertexId, step: Superstep) {
    ids == [] || ids == [TradeId(v, step)]
  }

  lemma {:induction false} OneFill(v: VertexId, edges: seq<Edge>, o: Order, step: Superstep)
    requires |edges| <= 1
    ensures AtMost(TradeIds(Fan(v, edges, Every, step, FillOf(v, o, step))), v, step)
  {
    hide TradeId;
    if edges != [] {
      assert edges == [edges[0]] && edges[..0] == [];
      var m := Message(v, edges[0].dst, step, FillOf(v, o, step));
      assert Fan(v, edges, Every, step, FillOf(v, o, step)) == [m] && [m][..0] == [];
      assert TradeIds([m]) == [TradeId(v, step)];
    }
  }

  lemma {:induction false} ComputeNumbers(
    noise: (VertexId, Superstep) -> int, v: VertexId, s: VertexState<Local>, inbox: seq<Message>, step: Superstep)
    requires s.outbox == [] && (s.local.AnOrder? ==> |s.local.edges| <= 1)
    ensures var r := Compute(noise, v, s, inbox, step);
      AtMost(TradeIds(r.outbox), v, step) && (r.local.AnOrder? ==> |r.local.edges| <= 1)
  {
    hide Fan, Forwarded, ReadMail, Listen, Fold, FillOf, TradeId, TradeIds;
    NoTradeIds([]);
    match s.local {
      case AnOrder(edges, o) =>
        OneFill(v, edges, ReadMail(o, inbox), step);
        var fills := Fan(v, edges, Every, step, FillOf(v, ReadMail(o, inbox), step));
        assert [] + fills == fills;
      case ALevel(edges, l) =>
        var total := Stocked(l, inbox).total;
        ForwardedWithoutFills(v, edges, inbox, step);
        FanWithoutFills(v, edges, OfKind(2), step, Quote(l, total));
        var down, up := Forwarded(v, edges, inbox, step), Upstream(v, edges, l, total, step);
        TradeIdsConcat(down, up);
        assert [] + down + up == down + up;
      case AVenue(edges, u) =>
        var r := Requoted(Fold(Listen, u, inbox), noise(v, step));
        var nbbo := PriceUpdate(r.bestBid, r.bestAsk, r.bidSize, r.askSize);
        FanWithoutFills(v, edges, Every, step, nbbo);
        assert [] + Fan(v, edges, Every, step, nbbo) == Fan(v, edges, Every, step, nbbo);
      case AMaker(edges, k) =>
        var signal := ArbitrageSignal(CrossedBps(Fold(Book, k, inbox)), 0, 1);
        FanWithoutFills(v, edges, Every, step, signal);
        var sent := if SeesArbitrage(Fold(Book, k, inbox)) then Fan(v, edges, Every, step, signal) else [];
        assert [] + sent == sent;
    }
  }

  lemma {:induction false} AfterNumbers(noise: (VertexId, Superstep) -> int, w: World<Local>, v: VertexId,
      step: Superstep)
    requires v in w.vertices && OutboxesEmpty(w) && SingleEdged(w)
    ensures var r := After(BookProgram(noise), w, v, step);
      AtMost(TradeIds(r.outbox), v, step) && (r.local.AnOrder? ==> |r.local.edges| <= 1)
  {
    hide Compute, AtMost, TradeIds;
    if Computes(w, v) {
      ComputeNumbers(noise, v, w.vertices[v].(halted := false), Inbox(w, v), step);
    } else {
      NothingSentNumbers(v, step);
    }
  }

  lemma NothingSentNumbers(v: VertexId, step: Superstep)
    ensures AtMost(TradeIds([]), v, step)
  {
  }

  /** id belongs to one of the first n listed vertices and the step. */
  ghost predicate Among(id: nat, order: seq<VertexId>, n: nat, step: Superstep)
    requires n <= |order|
  {
    exists j: nat :: j < n && id == TradeId(order[j], step)
  }

  lemma NextSent(prog: Program<Local>, order: seq<VertexId>, n: nat, w: World<Local>, step: Superstep)
    requires Lists(order, w) && 0 < n <= |order|
    ensures order[n - 1] in w.vertices
    ensures Sent(prog, order, n, w, step)
         == Sent(prog, order, n - 1, w, step) + After(prog, w, order[n - 1], step).outbox
  {
    assert order[n - 1] in w.vertices;
  }

  lemma NoneSent(prog: Program<Local>, order: seq<VertexId>, w: World<Local>, step: Superstep)
    ensures TradeIds(Sent(prog, order, 0, w, step)) == [] && AllDistinct([])
  {
  }

  /** The identifiers of one superstep. */
  lemma {:induction false} StepNumbersDistinct(
    noise: (VertexId, Superstep) -> int, order: seq<VertexId>, n: nat, w: World<Local>, step: Superstep)
    requires Lists(order, w) && OutboxesEmpty(w) && SingleEdged(w) && Numbered(w) && step < HALF_WORD && n <= |order|
    ensures var ids := TradeIds(Sent(BookProgram(noise), order, n, w, step));
      AllDistinct(ids) && forall k | 0 <= k < |ids| :: Among(ids[k], order, n, step)
  {
    hide *;
    if n == 0 {
      NoneSent(BookProgram(noise), order, w, step);
    } else {
      StepNumbersDistinct(noise, order, n - 1, w, step);
      NextSent(BookProgram(noise), order, n, w, step);
      var v := order[n - 1];
      var early, tail := Sent(BookProgram(noise), order, n - 1, w, step), After(BookProgram(noise), w, v, step).outbox;
      AfterNumbers(noise, w, v, step);
      TradeIdsConcat(early, tail);
      OneMoreNumber(order, n, w, step, TradeIds(early), TradeIds(tail));
    }
  }

  lemma OneMoreNumber(order: seq<VertexId>, n: nat, w: World<Local>, step: Superstep, early: seq<nat>, tail: seq<nat>)
    requires Lists(order, w) && Numbered(w) && step < HALF_WORD && 0 < n <= |order|
    requires AllDistinct(early) && AtMost(tail, order[n - 1], step)
    requires forall k | 0 <= k < |early| :: Among(early[k], order, n - 1, step)
    ensures AllDistinct(early + tail) && forall k | 0 <= k < |early + tail| :: Among((early + tail)[k], order, n, step)
  {
    hide TradeId;
    var v := order[n - 1];
    assert v in w.vertices;
    forall k | 0 <= k < |early| ensures early[k] != TradeId(v, step) && Among(early[k], order, n, step) {
      var j: nat :| j < n - 1 && early[k] == TradeId(order[j], step);
      assert order[j] in w.vertices && order[j] != order[n - 1];
      TradeIdsDistinct(order[j], step, v, step);
    }
  }

  lemma {:induction false} StaysNumbered(noise: (VertexId, Superstep) -> int, order: seq<VertexId>,
      w: World<Local>, n: nat)
    requires OutboxesEmpty(w) && SingleEdged(w)
    ensures var r := Iterate(BookProgram(noise), order, w, 0, n); OutboxesEmpty(r) && SingleEdged(r)
  {
    hide BookProgram, Step, OutboxesEmpty, SingleEdged;
    if n > 0 {
      StaysNumbered(noise, order, w, n - 1);
      NumberedStep(noise, order, Iterate(BookProgram(noise), order, w, 0, n - 1), n - 1);
    }
  }

  lemma NumberedStep(noise: (VertexId, Superstep) -> int, order: seq<VertexId>, w: World<Local>, step: Superstep)
    requires OutboxesEmpty(w) && SingleEdged(w)
    ensures var r := Step(BookProgram(noise), order, w, step); OutboxesEmpty(r) && SingleEdged(r)
  {
    hide BookProgram, After, TradeIds, Sent, Unclaimed;
    var r := Step(BookProgram(noise), order, w, step);
    forall v | v in r.vertices && r.vertices[v].local.AnOrder? ensures |r.vertices[v].local.edges| <= 1 {
      AfterNumbers(noise, w, v, step);
    }
  }

  ghost predicate Issued(id: nat, w: World<Local>, n: nat) {
    exists v: VertexId, k: nat :: v in w.vertices && k < n && id == TradeId(v, k)
  }

  lemma NoHistory(prog: Program<Local>, order: seq<VertexId>, w: World<Local>)
    ensures TradeIds(History(prog, order, w, 0)) == [] && AllDistinct([])
  {
  }

  lemma NumberedKept(prog: Program<Local>, order: seq<VertexId>, w: World<Local>, n: nat)
    requires Numbered(w)
    ensures Numbered(Iterate(prog, order, w, 0, n))
  {
    hide Iterate;
  }

  lemma NextHistory(prog: Program<Local>, order: seq<VertexId>, w: World<Local>, n: nat)
    requires n > 0
    ensures History(prog, order, w, n)
         == History(prog, order, w, n - 1) + Sent(prog, order, |order|, Iterate(prog, order, w, 0, n - 1), n - 1)
  {
    hide Sent;
  }

  /** Over a whole run of a book, whatever the market does, no trade identifier is used twice. */
  lemma {:induction false} RunNumbersDistinct(
    noise: (VertexId, Superstep) -> int, order: seq<VertexId>, w: World<Local>, n: nat)
    requires Lists(order, w) && OutboxesEmpty(w) && SingleEdged(w) && Numbered(w) && n <= HALF_WORD
    ensures var ids := TradeIds(History(BookProgram(noise), order, w, n));
      AllDistinct(ids) && forall x | 0 <= x < |ids| :: Issued(ids[x], w, n)
  {
    hide *;
    if n == 0 {
      NoHistory(BookProgram(noise), order, w);
    } else {
      RunNumbersDistinct(noise, order, w, n - 1);
      StaysNumbered(noise, order, w, n - 1);
      ListsKept(BookProgram(noise), order, w, n - 1);
      NumberedKept(BookProgram(noise), order, w, n - 1);
      var p := Iterate(BookProgram(noise), order, w, 0, n - 1);
      StepNumbersDistinct(noise, order, |order|, p, n - 1);
      var early := History(BookProgram(noise), order, w, n - 1);
      var tail := Sent(BookProgram(noise), order, |order|, p, n - 1);
      NextHistory(BookProgram(noise), order, w, n);
      TradeIdsConcat(early, tail);
      OneMoreStep(order, w, n, TradeIds(early), TradeIds(tail));
    }
  }

  lemma OneMoreStep(order: seq<VertexId>, w: World<Local>, n: nat, early: seq<nat>, tail: seq<nat>)
    requires Lists(order, w) && Numbered(w) && 0 < n <= HALF_WORD
    requires AllDistinct(early) && AllDistinct(tail)
    requires forall x | 0 <= x < |early| :: Issued(early[x], w, n - 1)
    requires forall x | 0 <= x < |tail| :: Among(tail[x], order, |order|, n - 1)
    ensures AllDistinct(early + tail) && forall x | 0 <= x < |early + tail| :: Issued((early + tail)[x], w, n)
  {
    hide TradeId;
    forall x | 0 <= x < |tail| ensures Issued(tail[x], w, n) {
      var j: nat :| j < |order| && tail[x] == TradeId(order[j], n - 1);
      assert order[j] in w.vertices;
    }
    forall x, y | 0 <= x < |early| && 0 <= y < |tail| ensures early[x] != tail[y] {
      assert Issued(early[x], w, n - 1);
      var v: VertexId, k: nat :| v in w.vertices && k < n - 1 && early[x] == TradeId(v, k);
      var j: nat :| j < |order| && tail[y] == TradeId(order[j], n - 1);
      assert order[j] in w.vertices;
      TradeIdsDistinct(v, k, order[j], n - 1);
    }
  }
}
