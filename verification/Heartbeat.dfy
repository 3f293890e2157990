/** The accrual failure detector (heartbeat.cpp). Times and intervals are real numbers of milliseconds. */
module Heartbeat {
  import opened Messages

  const WINDOW := 16
  const SEEDS := 8
  const EPSILON := 0.000000001

  datatype NodeState = Alive | Suspected | Failed

  datatype Record = Record(id: WorkerId, lastSeen: real, state: NodeState, phi: real, beats: nat, intervals: seq<real>)

  /** tail turns a normalised delay into a suspicion level, root is the square root. */
  datatype Config = Config(intervalMs: nat, timeoutMs: nat, threshold: real, tail: real -> real, root: real -> real)

  /** All that is asked of the two: later never looks better, and the root is a positive square root. */
  ghost predicate Sane(c: Config) {
    && (forall x: real, y: real | x <= y :: c.tail(x) <= c.tail(y))
    && forall x: real | x > 0.0 :: c.root(x) > 0.0 && c.root(x) * c.root(x) == x
  }

  // ----- the suspicion level

  function Sum(s: seq<real>): real {
    if s == [] then 0.0 else Sum(s[..|s| - 1]) + s[|s| - 1]
  }

  function Square(x: real): real {
    x * x
  }

  function SquaredErrors(s: seq<real>, mean: real): real {
    if s == [] then 0.0 else SquaredErrors(s[..|s| - 1], mean) + Square(s[|s| - 1] - mean)
  }

  function Quotient(x: real, y: real): real
    requires y != 0.0
  {
    x / y
  }

  function Mean(s: seq<real>): real
    requires s != []
  {
    Quotient(Sum(s), |s| as real)
  }

  function Sigma(c: Config, s: seq<real>): real
    requires s != []
  {
    c.root(Quotient(SquaredErrors(s, Mean(s)), |s| as real) + EPSILON)
  }

  lemma {:induction false} SquaredErrorsNotNegative(s: seq<real>, mean: real)
    ensures SquaredErrors(s, mean) >= 0.0
  {
    if s != [] {
      SquaredErrorsNotNegative(s[..|s| - 1], mean);
      NotNegativeSquare(s[|s| - 1] - mean);
    }
  }

  lemma NotNegativeSquare(x: real)
    ensures x * x >= 0.0
  {
  }

  lemma NotNegativeQuotient(x: real, n: nat)
    requires x >= 0.0 && n > 0
    ensures x / n as real >= 0.0
  {
  }

  lemma {:induction false} SigmaPositive(c: Config, s: seq<real>)
    requires Sane(c) && s != []
    ensures Sigma(c, s) > 0.0
  {
    SquaredErrorsNotNegative(s, Mean(s));
    NotNegativeQuotient(SquaredErrors(s, Mean(s)), |s|);
  }

  /** The suspicion level after the given silence. The division is by a positive number (SigmaPositive). */
  function Level(c: Config, s: seq<real>, elapsed: real): real {
    if s == [] then 0.0
    else if Sigma(c, s) == 0.0 then c.tail(0.0)
    else c.tail(Quotient(elapsed - Mean(s), Sigma(c, s)))
  }

  lemma {:induction false} LevelMonotone(c: Config, s: seq<real>, x: real, y: real)
    requires Sane(c) && x <= y
    ensures Level(c, s, x) <= Level(c, s, y)
  {
    if s != [] {
      SigmaPositive(c, s);
      DivideMonotone(x - Mean(s), y - Mean(s), Sigma(c, s));
    }
  }

  lemma DivideMonotone(x: real, y: real, d: real)
    requires x <= y && d > 0.0
    ensures x / d <= y / d
  {
  }

  // ----- what the operations do to a record

  function Fresh(c: Config, id: WorkerId, now: real): Record {
    Record(id, now, Alive, 0.0, 0, seq(SEEDS, i => c.intervalMs as real))
  }

  /** The last entries that fit the window. */
  function Window(s: seq<real>): seq<real> {
    if |s| <= WINDOW then s else s[|s| - WINDOW..]
  }

  /** One more entry; the oldest goes if there are now too many. */
  function Push(s: seq<real>, x: real): seq<real> {
    if |s| + 1 > WINDOW then (s + [x])[1..] else s + [x]
  }

  function Beaten(r: Record, now: real): Record {
    r.(intervals := if r.beats == 0 then r.intervals else Push(r.intervals, now - r.lastSeen),
       lastSeen := now, beats := r.beats + 1, state := Alive, phi := 0.0)
  }

  /** How far an injected failure moves lastSeen: 32-bit unsigned arithmetic. */
  function Setback(c: Config): nat {
    c.timeoutMs * 10 % HALF_WORD
  }

  function Injected(c: Config, r: Record): Record {
    r.(lastSeen := r.lastSeen - Setback(c) as real)
  }

  /** The verdict on a suspicion level and a silence. */
  function Verdict(c: Config, phi: real, silence: real): NodeState {
    if phi >= c.threshold || silence > c.timeoutMs as real then Failed
    else if phi >= c.threshold * 0.5 then Suspected
    else Alive
  }

  /** A check reads the clock twice: for the suspicion level and then for the timeout. */
  function Checked(c: Config, r: Record, first: real, second: real): Record {
    if r.state.Failed? then r
    else
      var phi := Level(c, r.intervals, first - r.lastSeen);
      r.(phi := phi, state := Verdict(c, phi, second - r.lastSeen))
  }

  // ----- the detector

  /** The callbacks that were fired, with the state a worker recovered from. */
  datatype Call = OnFailure(w: WorkerId) | OnRecovery(w: WorkerId, from: NodeState)

  class HeartbeatDetector {
    const localId: WorkerId
    const workerCount: nat
    const config: Config
    var records: map<WorkerId, Record>
    ghost var calls: seq<Call>

    /** clock(i) is the reading of the clock when record i is made. */
    constructor (localId: WorkerId, workerCount: nat, config: Config, clock: nat -> real)
      ensures this.config == config && calls == []
      ensures forall w: WorkerId :: w in records <==> w < workerCount && w != localId
      ensures forall w | w in records :: records[w] == Fresh(config, w, clock(w))
    {
      this.localId, this.workerCount, this.config := localId, workerCount, config;
      records, calls := map[], [];
      new;
      for i := 0 to workerCount
        invariant forall w: WorkerId :: w in records <==> w < i && w != localId
        invariant forall w | w in records :: records[w] == Fresh(config, w, clock(w))
        invariant calls == []
      {
        if i == localId {
          continue;
        }
        records := records[i := Fresh(config, i, clock(i))];
      }
    }

    method ReceiveHeartbeat(from: WorkerId, now: real)
      modifies this
      ensures from !in old(records) ==> records == old(records) && calls == old(calls)
      ensures from in old(records) ==>
        && records == old(records)[from := Beaten(old(records)[from], now)]
        && calls == old(calls)
             + (if old(records)[from].state.Alive? then [] else [OnRecovery(from, old(records)[from].state)])
    {
      if from !in records {
        return;
      }
      var rec := records[from];
      if rec.beats > 0 {
        var interval := now - rec.lastSeen;
        rec := rec.(intervals := rec.intervals + [interval]);
        if |rec.intervals| > WINDOW {
          rec := rec.(intervals := rec.intervals[1..]);
        }
      }
      rec := rec.(lastSeen := now, beats := rec.beats + 1);
      var prev := rec.state;
      rec := rec.(state := Alive, phi := 0.0);
      records := records[from := rec];
      if prev == Failed || prev == Suspected {
        calls := calls + [OnRecovery(from, prev)];
      }
    }

    method InjectFailure(w: WorkerId)
      modifies this`records
      ensures records == if w !in old(records) then old(records)
                         else old(records)[w := Injected(config, old(records)[w])]
    {
      if w !in records {
        return;
      }
      var setback := config.timeoutMs * 10 % HALF_WORD;
      records := records[w := records[w].(lastSeen := records[w].lastSeen - setback as real)];
    }

    method ComputePhi(rec: Record, now: real) returns (phi: real)
      requires Sane(config)
      ensures phi == Level(config, rec.intervals, now - rec.lastSeen)
    {
      hide Square, Quotient;
      if rec.intervals == [] {
        return 0.0;
      }
      var n := |rec.intervals|;
      var elapsed := now - rec.lastSeen;
      var total := 0.0;
      for i := 0 to n
        invariant total == Sum(rec.intervals[..i])
      {
        assert rec.intervals[..i + 1][..i] == rec.intervals[..i];
        total := total + rec.intervals[i];
      }
      assert rec.intervals[..n] == rec.intervals;
      var mean := Quotient(total, n as real);
      var variance := 0.0;
      for i := 0 to n
        invariant variance == SquaredErrors(rec.intervals[..i], mean)
      {
        assert rec.intervals[..i + 1][..i] == rec.intervals[..i];
        variance := variance + Square(rec.intervals[i] - mean);
      }
      variance := Quotient(variance, n as real);
      SigmaPositive(config, rec.intervals);
      var sigma := config.root(variance + EPSILON);
      var y := Quotient(elapsed - mean, sigma);
      phi := config.tail(y);
    }

    method CheckWorker(w: WorkerId, first: real, second: real)
      requires Sane(config) && w in records && records[w].id == w
      modifies this
      ensures records == old(records)[w := Checked(config, old(records)[w], first, second)]
      ensures calls == old(calls)
              + (if !old(records)[w].state.Failed? && records[w].state.Failed? then [OnFailure(w)] else [])
    {
      var rec := records[w];
      if rec.state == Failed {
        return;
      }
      var phi := ComputePhi(rec, first);
      rec := rec.(phi := phi);
      var silence := second - rec.lastSeen;
      var prev := rec.state;
      if rec.phi >= config.threshold || silence > config.timeoutMs as real {
        rec := rec.(state := Failed);
        if prev != Failed {
          calls := calls + [OnFailure(rec.id)];
        }
      } else if rec.phi >= config.threshold * 0.5 {
        rec := rec.(state := Suspected);
      } else {
        rec := rec.(state := Alive);
      }
      records := records[w := rec];
    }
  }

  // ----- runs: any interleaving of beats, checks and injections on one record

  datatype Op = Beat(now: real) | Check(first: real, second: real) | Inject

  function Do(c: Config, r: Record, op: Op): Record {
    match op
    case Beat(now) => Beaten(r, now)
    case Check(first, second) => Checked(c, r, first, second)
    case Inject => Injected(c, r)
  }

  function After(c: Config, r: Record, ops: seq<Op>): Record {
    if ops == [] then r else Do(c, After(c, r, ops[..|ops| - 1]), ops[|ops| - 1])
  }

  /** Where lastSeen stands: at the last beat, moved back by every injection since. */
  function SeenAt(c: Config, start: real, ops: seq<Op>): real {
    if ops == [] then start
    else
      match ops[|ops| - 1]
      case Beat(now) => now
      case Check(_, _) => SeenAt(c, start, ops[..|ops| - 1])
      case Inject => SeenAt(c, start, ops[..|ops| - 1]) - Setback(c) as real
  }

  function Beats(ops: seq<Op>): nat {
    if ops == [] then 0 else Beats(ops[..|ops| - 1]) + if ops[|ops| - 1].Beat? then 1 else 0
  }

  /** The silence before each beat but the first. */
  function Observed(c: Config, start: real, ops: seq<Op>): seq<real> {
    if ops == [] then []
    else
      var early, op := ops[..|ops| - 1], ops[|ops| - 1];
      Observed(c, start, early)
      + if op.Beat? && Beats(early) > 0 then [op.now - SeenAt(c, start, early)] else []
  }

  lemma PushIsWindow(s: seq<real>, x: real)
    ensures Push(Window(s), x) == Window(s + [x])
  {
  }

  /** The window is always the last 16 of the seeds and everything observed, and never empty. */
  lemma {:induction false} WindowIsLastSixteen(c: Config, id: WorkerId, start: real, ops: seq<Op>)
    ensures var r := After(c, Fresh(c, id, start), ops);
      && r.intervals == Window(Fresh(c, id, start).intervals + Observed(c, start, ops))
      && r.beats == Beats(ops) && r.lastSeen == SeenAt(c, start, ops)
      && SEEDS <= |r.intervals| <= WINDOW
  {
    hide Window, Push, Fresh, Level, Verdict;
    var seeds := Fresh(c, id, start).intervals;
    if ops == [] {
      SeedsFit(c, id, start);
    } else {
      var early, op := ops[..|ops| - 1], ops[|ops| - 1];
      WindowIsLastSixteen(c, id, start, early);
      if op.Beat? && Beats(early) > 0 {
        var silence := op.now - SeenAt(c, start, early);
        PushIsWindow(seeds + Observed(c, start, early), silence);
        assert seeds + Observed(c, start, early) + [silence] == seeds + Observed(c, start, ops);
      } else {
        assert Observed(c, start, ops) == Observed(c, start, early);
      }
    }
    WindowSize(seeds + Observed(c, start, ops));
    SeedsFit(c, id, start);
  }

  lemma SeedsFit(c: Config, id: WorkerId, start: real)
    ensures var r := Fresh(c, id, start);
      |r.intervals| == SEEDS && Window(r.intervals + []) == r.intervals && r.beats == 0 && r.lastSeen == start
  {
    assert Fresh(c, id, start).intervals + [] == Fresh(c, id, start).intervals;
  }

  lemma WindowSize(s: seq<real>)
    ensures |s| >= SEEDS ==> SEEDS <= |Window(s)| <= WINDOW
  {
  }

  /** How often the failure callback fired, and how often a recovery was from FAILED. */
  function Failures(c: Config, r: Record, ops: seq<Op>): nat {
    if ops == [] then 0
    else
      var early := After(c, r, ops[..|ops| - 1]);
      Failures(c, r, ops[..|ops| - 1])
      + if !early.state.Failed? && Do(c, early, ops[|ops| - 1]).state.Failed? then 1 else 0
  }

  function Rescues(c: Config, r: Record, ops: seq<Op>): nat {
    if ops == [] then 0
    else
      Rescues(c, r, ops[..|ops| - 1])
      + if ops[|ops| - 1].Beat? && After(c, r, ops[..|ops| - 1]).state.Failed? then 1 else 0
  }

  /** Failures and rescues alternate: their difference is exactly whether the worker counts as failed. */
  lemma {:induction false} FailuresMatchRescues(c: Config, r: Record, ops: seq<Op>)
    requires !r.state.Failed?
    ensures Failures(c, r, ops) == Rescues(c, r, ops) + if After(c, r, ops).state.Failed? then 1 else 0
  {
    if ops != [] {
      FailuresMatchRescues(c, r, ops[..|ops| - 1]);
    }
  }

  /** Only a heartbeat brings a failed worker back. */
  lemma {:induction false} FailedUntilBeat(c: Config, r: Record, ops: seq<Op>)
    requires r.state.Failed?
    ensures (forall op | op in ops :: !op.Beat?) ==> After(c, r, ops).state.Failed? && After(c, r, ops).phi == r.phi
  {
    if ops != [] && forall op | op in ops :: !op.Beat? {
      var front := ops[..|ops| - 1];
      assert forall op | op in front :: op in ops;
      FailedUntilBeat(c, r, front);
      assert !ops[|ops| - 1].Beat?;
    }
  }

  // ----- injected failures

  /** Whatever the suspicion level, an injection makes the next check fail the worker if it moves far enough. */
  lemma {:induction false} InjectionForcesFailure(c: Config, r: Record, first: real, second: real)
    requires Setback(c) > c.timeoutMs && second >= r.lastSeen
    ensures After(c, r, [Inject, Check(first, second)]).state.Failed?
  {
    TwoOps(c, r, Inject, Check(first, second));
  }

  lemma TwoOps(c: Config, r: Record, x: Op, y: Op)
    ensures After(c, r, [x, y]) == Do(c, Do(c, r, x), y)
  {
    assert [x, y][..1] == [x] && [x][..0] == [];
    assert After(c, r, [x]) == Do(c, r, x);
  }

  /** The verdict of the check after an injection. */
  lemma {:induction false} CheckAfterInjection(c: Config, r: Record, first: real, second: real)
    requires !r.state.Failed?
    ensures After(c, r, [Inject, Check(first, second)]).state.Failed? <==>
              || Level(c, r.intervals, first - r.lastSeen + Setback(c) as real) >= c.threshold
              || second - r.lastSeen + Setback(c) as real > c.timeoutMs as real
  {
    TwoOps(c, r, Inject, Check(first, second));
    hide Level;
  }

  /**
   Where the suspicion level does not decide, the next check, after any silence, fails the worker exactly
   if silence and setback together exceed the timeout.
   */
  lemma {:induction false} FailsExactlyIfSetbackIsFar(c: Config, r: Record, first: real, second: real)
    requires !r.state.Failed? && Level(c, r.intervals, first - r.lastSeen + Setback(c) as real) < c.threshold
    ensures After(c, r, [Inject, Check(first, second)]).state.Failed? <==>
              second - r.lastSeen + Setback(c) as real > c.timeoutMs as real
  {
    CheckAfterInjection(c, r, first, second);
  }

  /** A check below the threshold, at whatever silence, that an injection nevertheless turns into a failure. */
  ghost predicate Forced(c: Config, r: Record) {
    forall first: real, second: real | r.lastSeen <= first <= second
         && Level(c, r.intervals, first - r.lastSeen + Setback(c) as real) < c.threshold ::
      After(c, r, [Inject, Check(first, second)]).state.Failed?
  }

  /** An injection can be relied on exactly if it sets the last beat back by more than the timeout. */
  lemma {:induction false} ForcedExactlyIfSetbackIsFar(c: Config, r: Record)
    requires !r.state.Failed? && Level(c, r.intervals, Setback(c) as real) < c.threshold
    ensures Forced(c, r) <==> Setback(c) > c.timeoutMs
  {
    forall first: real, second: real | r.lastSeen <= first <= second
         && Level(c, r.intervals, first - r.lastSeen + Setback(c) as real) < c.threshold
      ensures After(c, r, [Inject, Check(first, second)]).state.Failed? <==>
                second - r.lastSeen + Setback(c) as real > c.timeoutMs as real
    {
      FailsExactlyIfSetbackIsFar(c, r, first, second);
    }
    hide Level;
    if Forced(c, r) {
      assert After(c, r, [Inject, Check(r.lastSeen, r.lastSeen)]).state.Failed?;
    }
  }

  /** Every check after an injection, whenever it is made, fails the worker. */
  ghost predicate Reliable(c: Config, r: Record) {
    forall first: real, second: real | r.lastSeen <= first <= second ::
      After(c, r, [Inject, Check(first, second)]).state.Failed?
  }

  /**
   An injection can be relied on exactly if the setback alone is enough for one of the two tests: it
   exceeds the timeout, or a silence of that length is suspicious enough.
   */
  lemma {:induction false} ReliableExactly(c: Config, r: Record)
    requires Sane(c) && !r.state.Failed?
    ensures Reliable(c, r) <==> Setback(c) > c.timeoutMs || Level(c, r.intervals, Setback(c) as real) >= c.threshold
  {
    hide Level, Setback, After;
    var far := Setback(c) as real;
    forall first: real, second: real | r.lastSeen <= first <= second
      ensures Setback(c) > c.timeoutMs || Level(c, r.intervals, far) >= c.threshold ==>
                After(c, r, [Inject, Check(first, second)]).state.Failed?
    {
      CheckAfterInjection(c, r, first, second);
      LevelMonotone(c, r.intervals, far, first - r.lastSeen + far);
    }
    CheckAfterInjection(c, r, r.lastSeen, r.lastSeen);
    assert r.lastSeen - r.lastSeen + far == far;
    if Reliable(c, r) {
      assert After(c, r, [Inject, Check(r.lastSeen, r.lastSeen)]).state.Failed?;
    }
  }

  lemma {:induction false} EqualEntries(s: seq<real>, x: real)
    requires forall i | 0 <= i < |s| :: s[i] == x
    ensures Sum(s) == |s| as real * x && SquaredErrors(s, x) == 0.0
  {
    if s != [] {
      EqualEntries(s[..|s| - 1], x);
    }
  }

  /** For a worker never heard from, whose window holds only the seeds, the level is that of a tiny deviation. */
  lemma {:induction false} FreshLevel(c: Config, id: WorkerId, start: real, elapsed: real)
    requires Sane(c)
    ensures Level(c, Fresh(c, id, start).intervals, elapsed)
         == c.tail((elapsed - c.intervalMs as real) / c.root(EPSILON))
  {
    var s := Fresh(c, id, start).intervals;
    EqualEntries(s, c.intervalMs as real);
    assert Mean(s) == c.intervalMs as real;
    assert Sigma(c, s) == c.root(EPSILON);
  }

  /** So a setback shorter than the timeout can still do, through the suspicion level. */
  lemma {:induction false} ShortSetbackCanDo(c: Config, id: WorkerId, start: real)
    requires Sane(c) && c.timeoutMs == 429_496_830
    requires c.tail((1004.0 - c.intervalMs as real) / c.root(EPSILON)) >= c.threshold
    ensures Setback(c) == 1004 && Setback(c) <= c.timeoutMs && Reliable(c, Fresh(c, id, start))
  {
    assert Setback(c) == 1004;
    FreshLevel(c, id, start, 1004.0);
    ReliableExactly(c, Fresh(c, id, start));
  }

  /** For every timeout the multiplication by ten does not overflow on, the setback is far enough. */
  lemma {:induction false} SetbackIsFarEnough(c: Config)
    requires 10 * c.timeoutMs < HALF_WORD
    ensures Setback(c) > c.timeoutMs <==> c.timeoutMs > 0
  {
  }

  /** On others it may not be: here a worker silent for any time short of the timeout is not failed by it. */
  lemma {:induction false} SetbackCanWrap(c: Config, r: Record, first: real, second: real)
    requires c.timeoutMs == 429_496_730
    requires !r.state.Failed? && Level(c, r.intervals, first - r.lastSeen + 4.0) < c.threshold
    requires second - r.lastSeen + 4.0 <= c.timeoutMs as real
    ensures Setback(c) == 4
    ensures !After(c, r, [Inject, Check(first, second)]).state.Failed?
  {
    assert Setback(c) == 4;
    FailsExactlyIfSetbackIsFar(c, r, first, second);
  }

  // ----- suspicion only grows

  function Rank(s: NodeState): nat {
    match s
    case Alive => 0
    case Suspected => 1
    case Failed => 2
  }

  /** Operations without a beat, in the order of their clock readings, none before from. */
  predicate Silent(ops: seq<Op>, from: real) {
    && (forall i | 0 <= i < |ops| :: !ops[i].Beat?)
    && (forall i | 0 <= i < |ops| && ops[i].Check? :: from <= ops[i].first <= ops[i].second)
    && forall i, j | 0 <= i < j < |ops| && ops[i].Check? && ops[j].Check? :: ops[i].second <= ops[j].first
  }

  /** The state is no worse than a check at now would find. */
  predicate Explained(c: Config, r: Record, now: real)
    requires Sane(c)
  {
    r.state.Suspected? ==> Level(c, r.intervals, now - r.lastSeen) >= c.threshold * 0.5
  }

  lemma CheckRaises(c: Config, r: Record, first: real, second: real)
    requires Sane(c) && Explained(c, r, first) && first <= second
    ensures Rank(Checked(c, r, first, second).state) >= Rank(r.state)
    ensures Explained(c, Checked(c, r, first, second), first)
  {
    hide Level;
  }

  lemma ExplainedLater(c: Config, r: Record, now: real, later: real)
    requires Sane(c) && Explained(c, r, now) && now <= later
    ensures Explained(c, r, later) && Explained(c, Injected(c, r), later)
  {
    LevelMonotone(c, r.intervals, now - r.lastSeen, later - r.lastSeen);
    LevelMonotone(c, r.intervals, now - r.lastSeen, later - r.lastSeen + Setback(c) as real);
    hide Level;
  }

  /** The last clock reading of the operations. */
  function Latest(ops: seq<Op>, from: real): real {
    if ops == [] then from
    else if ops[|ops| - 1].Check? then ops[|ops| - 1].first
    else Latest(ops[..|ops| - 1], from)
  }

  lemma {:induction false} LatestBefore(ops: seq<Op>, from: real, next: Op)
    requires Silent(ops + [next], from) && next.Check?
    ensures Latest(ops, from) <= next.first
  {
    if ops != [] {
      var all := ops + [next];
      if ops[|ops| - 1].Check? {
        assert all[|ops| - 1] == ops[|ops| - 1] && all[|ops|] == next;
      } else {
        var front := ops[..|ops| - 1];
        SilentWithout(ops, from, next);
        LatestBefore(front, from, next);
      }
    } else {
      assert (ops + [next])[0] == next;
    }
  }

  lemma SilentWithout(ops: seq<Op>, from: real, next: Op)
    requires ops != [] && Silent(ops + [next], from)
    ensures Silent(ops[..|ops| - 1] + [next], from)
  {
    var all, some := ops + [next], ops[..|ops| - 1] + [next];
    var skip := |ops| - 1;
    assert forall i | 0 <= i < |some| :: some[i] == all[if i < skip then i else i + 1];
  }

  lemma SilentFront(ops: seq<Op>, from: real)
    requires ops != [] && Silent(ops, from)
    ensures Silent(ops[..|ops| - 1], from)
  {
  }

  /**
   Between heartbeats suspicion never goes back: from a fresh or just seen worker on, the states
   that checks visit only move from alive over suspected to failed, injections included.
   */
  lemma {:induction false} SuspicionGrows(c: Config, r: Record, ops: seq<Op>, from: real)
    requires Sane(c) && r.state.Alive? && Silent(ops, from)
    ensures Explained(c, After(c, r, ops), Latest(ops, from))
    ensures ops != [] ==> Rank(After(c, r, ops).state) >= Rank(After(c, r, ops[..|ops| - 1]).state)
  {
    hide Level, Checked, Explained;
    if ops == [] {
      NotSuspected(c, r, from);
    } else {
      var front, op := ops[..|ops| - 1], ops[|ops| - 1];
      SilentFront(ops, from);
      SuspicionGrows(c, r, front, from);
      var p := After(c, r, front);
      assert ops == front + [op];
      assert !ops[|ops| - 1].Beat?;
      if op.Check? {
        LatestBefore(front, from, op);
        assert ops[|ops| - 1].first <= ops[|ops| - 1].second;
        ExplainedLater(c, p, Latest(front, from), op.first);
        CheckRaises(c, p, op.first, op.second);
      } else {
        ExplainedLater(c, p, Latest(front, from), Latest(front, from));
      }
    }
  }

  lemma NotSuspected(c: Config, r: Record, now: real)
    requires Sane(c) && !r.state.Suspected?
    ensures Explained(c, r, now)
  {
  }

  /** The same over any two moments of the silence. */
  lemma {:induction false} SuspicionMonotone(c: Config, r: Record, ops: seq<Op>, from: real, i: nat)
    requires Sane(c) && r.state.Alive? && Silent(ops, from) && i <= |ops|
    ensures Rank(After(c, r, ops[..i]).state) <= Rank(After(c, r, ops).state)
    decreases |ops|
  {
    hide Do;
    if i < |ops| {
      var front := ops[..|ops| - 1];
      SilentFront(ops, from);
      SuspicionMonotone(c, r, front, from, i);
      SuspicionGrows(c, r, ops, from);
      assert front[..i] == ops[..i];
    } else {
      assert ops[..i] == ops;
    }
  }
}
