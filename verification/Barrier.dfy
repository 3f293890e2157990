/**
 The counter-and-epoch barrier as a step system: one step per atomic operation, any number of
 workers, the epoch counted modulo 2^32. Between two barriers a worker drains, computes and flushes.
 */
module Barrier {
  import opened Messages

  const EPOCHS := HALF_WORD

  datatype Pc =
    | Draining
    | Computing
    | Flushed
    | Loaded(epoch: nat)    // has read the epoch, has not counted itself
    | Resetting             // came last: about to store 0 in the counter
    | Bumping               // has stored 0, about to advance the epoch
    | Spinning(epoch: nat)  // waits for the epoch to differ from the one it read

  datatype Event = Drain(worker: nat, round: nat) | Flush(worker: nat, round: nat)

  /**
   The epoch is shared by every engine of the process, so it may start anywhere: at base.
   rounds, bumps and log are history: no step depends on them.
   */
  datatype State = State(
    pcs: seq<Pc>, counter: nat, epoch: nat,
    base: nat, rounds: seq<nat>, bumps: nat, log: seq<Event>)

  predicate Init(s: State) {
    && |s.pcs| == |s.rounds| > 0 && s.counter == 0 && s.epoch == s.base % EPOCHS && s.bumps == 0 && s.log == []
    && (forall i | 0 <= i < |s.pcs| :: s.pcs[i] == Draining)
    && (forall i | 0 <= i < |s.rounds| :: s.rounds[i] == 0)
  }

  /** Worker i can do something other than find the epoch unchanged. */
  predicate CanMove(s: State, i: nat) {
    i < |s.pcs| == |s.rounds| && (s.pcs[i].Spinning? ==> s.epoch != s.pcs[i].epoch)
  }

  function Leave(s: State, i: nat): State
    requires i < |s.pcs| == |s.rounds|
  {
    s.(pcs := s.pcs[i := Draining], rounds := s.rounds[i := s.rounds[i] + 1])
  }

  function Move(s: State, i: nat): State
    requires CanMove(s, i)
  {
    match s.pcs[i]
    case Draining => s.(pcs := s.pcs[i := Computing], log := s.log + [Drain(i, s.rounds[i])])
    case Computing => s.(pcs := s.pcs[i := Flushed], log := s.log + [Flush(i, s.rounds[i])])
    case Flushed => s.(pcs := s.pcs[i := Loaded(s.epoch)])
    case Loaded(e) =>
      s.(counter := s.counter + 1,
         pcs := s.pcs[i := if s.counter + 1 == |s.pcs| then Resetting else Spinning(e)])
    case Resetting => s.(counter := 0, pcs := s.pcs[i := Bumping])
    case Bumping => Leave(s.(epoch := (s.epoch + 1) % EPOCHS, bumps := s.bumps + 1), i)
    case Spinning(_) => Leave(s, i)
  }

  ghost predicate Next(s: State, t: State) {
    exists i: nat :: CanMove(s, i) && t == Move(s, i)
  }

  /** Runs leave out the turns in which a spinning worker finds the epoch unchanged: they change nothing. */
  ghost predicate IsRun(run: seq<State>) {
    && |run| > 0 && Init(run[0])
    && forall t | 0 <= t < |run| - 1 :: Next(run[t], run[t + 1])
  }

  // ----- the invariant

  predicate Closing(pc: Pc) {
    pc.Resetting? || pc.Bumping?
  }

  predicate HasArrived(s: State, i: nat)
    requires i < |s.pcs| == |s.rounds|
  {
    s.rounds[i] == s.bumps && (s.pcs[i].Spinning? || Closing(s.pcs[i]))
  }

  function Arrivals(s: State): set<nat>
    requires |s.pcs| == |s.rounds|
  {
    set i: nat | i < |s.pcs| && HasArrived(s, i)
  }

  ghost predicate Shape(s: State) {
    && |s.pcs| == |s.rounds| > 0 && s.epoch == (s.base + s.bumps) % EPOCHS
    && (forall i | 0 <= i < |s.pcs| :: s.rounds[i] == s.bumps || (s.rounds[i] == s.bumps - 1 && s.pcs[i].Spinning?))
    && (forall i | 0 <= i < |s.pcs| && s.pcs[i].Loaded? :: s.pcs[i].epoch == (s.base + s.rounds[i]) % EPOCHS)
    && (forall i | 0 <= i < |s.pcs| && s.pcs[i].Spinning? :: s.pcs[i].epoch == (s.base + s.rounds[i]) % EPOCHS)
  }

  ghost predicate Counts(s: State)
    requires Shape(s)
  {
    && (forall i, j | 0 <= i < j < |s.pcs| :: !(Closing(s.pcs[i]) && Closing(s.pcs[j])))
    && (forall i | 0 <= i < |s.pcs| && Closing(s.pcs[i]) :: forall j | 0 <= j < |s.pcs| :: HasArrived(s, j))
    && (forall i | 0 <= i < |s.pcs| && s.pcs[i].Bumping? :: s.counter == 0)
    && ((forall i | 0 <= i < |s.pcs| :: !s.pcs[i].Bumping?) ==> s.counter == |Arrivals(s)|)
    && ((forall i | 0 <= i < |s.pcs| :: !Closing(s.pcs[i])) ==> s.counter < |s.pcs|)
  }

  ghost predicate Inv(s: State) {
    Shape(s) && Counts(s)
  }

  function Upto(n: nat): (r: set<nat>)
    ensures |r| == n && forall i: nat :: i in r <==> i < n
  {
    if n == 0 then {} else Upto(n - 1) + {n - 1}
  }

  lemma FullSet(a: set<nat>, n: nat)
    requires a <= Upto(n)
    ensures |a| <= n
    ensures |a| == n <==> a == Upto(n)
  {
    var rest := Upto(n) - a;
    assert Upto(n) == a + rest;
  }

  lemma {:induction false} BumpShape(s: State, i: nat)
    requires Inv(s) && CanMove(s, i) && s.pcs[i].Bumping?
    ensures Shape(Move(s, i))
  {
    forall j | 0 <= j < |s.pcs| && j != i ensures s.pcs[j].Spinning? && s.rounds[j] == s.bumps {
      assert HasArrived(s, j);
      assert !Closing(s.pcs[j]);
    }
    NextEpoch(s.base + s.bumps);
  }

  lemma NextEpoch(x: int)
    ensures (x % EPOCHS + 1) % EPOCHS == (x + 1) % EPOCHS
  {
  }

  lemma {:induction false} ShapeStep(s: State, i: nat)
    requires Inv(s) && CanMove(s, i)
    ensures Shape(Move(s, i))
  {
    if s.pcs[i].Bumping? {
      BumpShape(s, i);
    } else if s.pcs[i].Spinning? {
      LeaveShape(s, i);
    } else {
      StayShape(s, i);
    }
  }

  lemma {:induction false} StayShape(s: State, i: nat)
    requires Inv(s) && CanMove(s, i) && !s.pcs[i].Bumping? && !s.pcs[i].Spinning?
    ensures Shape(Move(s, i))
  {
    var t := Move(s, i);
    assert s.rounds[i] == s.bumps && t.rounds == s.rounds && t.epoch == s.epoch && t.bumps == s.bumps;
    forall j | 0 <= j < |t.pcs| && j != i ensures t.pcs[j] == s.pcs[j] {
    }
    hide Counts, Move;
  }

  lemma {:induction false} LeaveShape(s: State, i: nat)
    requires Inv(s) && CanMove(s, i) && s.pcs[i].Spinning?
    ensures Shape(Move(s, i))
  {
    assert s.rounds[i] == s.bumps - 1;
  }

  lemma {:induction false} ArriveSet(s: State, i: nat)
    requires Inv(s) && CanMove(s, i) && s.pcs[i].Loaded?
    ensures !HasArrived(s, i) && forall j | 0 <= j < |s.pcs| :: !Closing(s.pcs[j])
    ensures Arrivals(Move(s, i)) == Arrivals(s) + {i}
  {
    assert !HasArrived(s, i);
    assert forall j | 0 <= j < |s.pcs| :: !Closing(s.pcs[j]);
  }

  lemma {:induction false} ArriveStep(s: State, i: nat)
    requires Inv(s) && CanMove(s, i) && s.pcs[i].Loaded?
    ensures Shape(Move(s, i)) && Counts(Move(s, i))
  {
    var t := Move(s, i);
    ShapeStep(s, i);
    ArriveSet(s, i);
    FullSet(Arrivals(t), |s.pcs|);
    if Closing(t.pcs[i]) {
      forall j | 0 <= j < |t.pcs| ensures HasArrived(t, j) {
        assert j in Upto(|s.pcs|);
      }
    }
  }

  lemma {:induction false} CloseStep(s: State, i: nat)
    requires Inv(s) && CanMove(s, i) && Closing(s.pcs[i])
    ensures Shape(Move(s, i)) && Counts(Move(s, i))
  {
    var t := Move(s, i);
    ShapeStep(s, i);
    if s.pcs[i].Bumping? {
      forall j | 0 <= j < |t.pcs| ensures !HasArrived(t, j) && !Closing(t.pcs[j]) {
        assert HasArrived(s, j);
      }
      assert Arrivals(t) == {};
    } else {
      forall j | 0 <= j < |t.pcs| ensures HasArrived(t, j) {
        assert HasArrived(s, j);
      }
    }
  }

  lemma {:induction false} OtherStep(s: State, i: nat)
    requires Inv(s) && CanMove(s, i) && !s.pcs[i].Loaded? && !Closing(s.pcs[i])
    ensures Shape(Move(s, i)) && Counts(Move(s, i))
  {
    var t := Move(s, i);
    ShapeStep(s, i);
    assert !HasArrived(s, i) && !HasArrived(t, i);
    assert forall j | 0 <= j < |s.pcs| :: !Closing(s.pcs[j]);
    assert Arrivals(t) == Arrivals(s);
  }

  lemma {:induction false} InvStep(s: State, i: nat)
    requires Inv(s) && CanMove(s, i)
    ensures Inv(Move(s, i))
  {
    if s.pcs[i].Loaded? {
      ArriveStep(s, i);
    } else if Closing(s.pcs[i]) {
      CloseStep(s, i);
    } else {
      OtherStep(s, i);
    }
  }

  lemma {:induction false} InvAlways(run: seq<State>, t: nat)
    requires IsRun(run) && t < |run|
    ensures Inv(run[t])
  {
    if t == 0 {
      assert Arrivals(run[0]) == {};
    } else {
      InvAlways(run, t - 1);
      assert Next(run[t - 1], run[(t - 1) + 1]);
      var i: nat :| CanMove(run[t - 1], i) && run[t] == Move(run[t - 1], i);
      InvStep(run[t - 1], i);
    }
  }

  // ----- what the barrier promises

  /** Nobody has left round k before everybody has arrived in it, and rounds differ by at most one. */
  lemma {:induction false} NobodyLeavesEarly(run: seq<State>, t: nat, i: nat, j: nat)
    requires IsRun(run) && t < |run| && i < |run[t].pcs| && j < |run[t].pcs|
    ensures |run[t].rounds| == |run[t].pcs|
    ensures run[t].rounds[i] <= run[t].rounds[j] + 1
    ensures run[t].rounds[i] > run[t].rounds[j] ==> run[t].pcs[j].Spinning?
  {
    InvAlways(run, t);
  }

  /** Between the counter's reset and the epoch's advance nobody is on the way to the counter. */
  lemma {:induction false} NoArrivalInTheGap(run: seq<State>, t: nat, i: nat, j: nat)
    requires IsRun(run) && t < |run| && i < |run[t].pcs| && j < |run[t].pcs|
    requires run[t].pcs[i].Bumping? && j != i
    ensures run[t].pcs[j].Spinning? && run[t].pcs[j].epoch == run[t].epoch
  {
    InvAlways(run, t);
    assert HasArrived(run[t], j);
    assert !Closing(run[t].pcs[j]);
  }

  /** Whatever the interleaving, somebody can move. */
  lemma {:induction false} NeverStuck(run: seq<State>, t: nat)
    requires IsRun(run) && t < |run|
    ensures exists i: nat :: CanMove(run[t], i)
  {
    InvAlways(run, t);
    hide *;
    var i := SomeoneOutside(run[t]);
    OutsiderMoves(run[t], i);
  }

  /** A worker that is closing the round, or has not arrived in it. */
  lemma {:induction false} SomeoneOutside(s: State) returns (i: nat)
    requires Inv(s)
    ensures i < |s.pcs| == |s.rounds| && (Closing(s.pcs[i]) || !HasArrived(s, i))
  {
    if j: nat :| j < |s.pcs| && Closing(s.pcs[j]) {
      i := j;
    } else {
      assert s.counter == |Arrivals(s)| < |s.pcs|;
      FullSet(Arrivals(s), |s.pcs|);
      i :| i in Upto(|s.pcs|) && i !in Arrivals(s);
    }
  }

  lemma {:induction false} OutsiderMoves(s: State, i: nat)
    requires Inv(s) && i < |s.pcs| && (Closing(s.pcs[i]) || !HasArrived(s, i))
    ensures CanMove(s, i)
  {
  }

  // ----- drains and flushes

  predicate HasFlushed(s: State, j: nat, round: nat)
    requires j < |s.pcs| == |s.rounds|
  {
    round < s.rounds[j] || (round == s.rounds[j] && !s.pcs[j].Draining? && !s.pcs[j].Computing?)
  }

  ghost predicate Ordered(s: State) {
    && |s.pcs| == |s.rounds|
    && (forall j: nat, k: nat | j < |s.pcs| && HasFlushed(s, j, k) :: Flush(j, k) in s.log)
    && (forall x: nat | x < |s.log| :: AfterFlushes(s.log, |s.pcs|, x))
  }

  /** If entry x is a drain for a superstep after the first, all n flushes of the one before precede it. */
  ghost predicate AfterFlushes(log: seq<Event>, n: nat, x: nat)
    requires x < |log|
  {
    log[x].Drain? && log[x].round > 0 ==> AllFlushed(log[..x], n, log[x].round - 1)
  }

  ghost predicate AllFlushed(log: seq<Event>, n: nat, round: nat) {
    forall j: nat | j < n :: Flush(j, round) in log
  }

  lemma {:induction false} OrderedStep(s: State, i: nat)
    requires Inv(s) && Ordered(s) && CanMove(s, i)
    ensures Ordered(Move(s, i))
  {
    var t := Move(s, i);
    assert s.log <= t.log;
    assert forall e | e in s.log :: e in t.log;
    forall j: nat, k: nat | j < |t.pcs| && HasFlushed(t, j, k) ensures Flush(j, k) in t.log {
      if !HasFlushed(s, j, k) {
        assert t.log[|s.log|] == Flush(j, k);
      }
    }
    forall x: nat | x < |t.log| ensures AfterFlushes(t.log, |t.pcs|, x) {
      if x < |s.log| {
        assert t.log[..x] == s.log[..x];
        assert AfterFlushes(s.log, |s.pcs|, x);
      } else {
        assert t.log[..x] == s.log;
        if s.pcs[i].Draining? && s.rounds[i] > 0 {
          var k := s.rounds[i] - 1;
          forall j: nat | j < |s.pcs| ensures Flush(j, k) in s.log {
            assert HasFlushed(s, j, k);
          }
          assert AllFlushed(t.log[..x], |t.pcs|, k);
        }
      }
    }
  }

  lemma {:induction false} OrderedAlways(run: seq<State>, t: nat)
    requires IsRun(run) && t < |run|
    ensures Ordered(run[t])
  {
    if t > 0 {
      InvAlways(run, t - 1);
      OrderedAlways(run, t - 1);
      assert Next(run[t - 1], run[(t - 1) + 1]);
      var i: nat :| CanMove(run[t - 1], i) && run[t] == Move(run[t - 1], i);
      OrderedStep(run[t - 1], i);
    }
  }

  /** When a worker drains for a superstep, every worker has flushed in the superstep before. */
  lemma {:induction false} DrainsFollowFlushes(run: seq<State>, t: nat, x: nat, i: nat, k: nat, j: nat)
    requires IsRun(run) && t < |run| && x < |run[t].log|
    requires run[t].log[x] == Drain(i, k + 1) && j < |run[t].pcs|
    ensures exists y: nat :: y < x && run[t].log[y] == Flush(j, k)
  {
    OrderedAlways(run, t);
    assert AfterFlushes(run[t].log, |run[t].pcs|, x);
    assert AllFlushed(run[t].log[..x], |run[t].pcs|, k);
    assert Flush(j, k) in run[t].log[..x];
    var y :| 0 <= y < |run[t].log[..x]| && run[t].log[..x][y] == Flush(j, k);
  }

  // ----- progress

  function Phase(pc: Pc): nat {
    match pc
    case Draining => 0
    case Computing => 1
    case Flushed => 2
    case Loaded(_) => 3
    case Spinning(_) => 4
    case Resetting => 4
    case Bumping => 5
  }

  const PHASES := 6

  /** The work done by the first n workers since the start. */
  function Work(s: State, n: nat): nat
    requires n <= |s.pcs| == |s.rounds|
  {
    if n == 0 then 0 else Work(s, n - 1) + PHASES * s.rounds[n - 1] + Phase(s.pcs[n - 1])
  }

  lemma {:induction false} WorkStep(s: State, i: nat, n: nat)
    requires CanMove(s, i) && n <= |s.pcs|
    ensures Work(Move(s, i), n) >= Work(s, n) + (if i < n then 1 else 0)
  {
    if n > 0 {
      WorkStep(s, i, n - 1);
    }
  }

  lemma {:induction false} WorkGrows(run: seq<State>, t: nat)
    requires IsRun(run) && t < |run|
    ensures |run[t].pcs| == |run[t].rounds| == |run[0].pcs| && Work(run[t], |run[t].pcs|) >= t
  {
    if t > 0 {
      WorkGrows(run, t - 1);
      assert Next(run[t - 1], run[(t - 1) + 1]);
      var i: nat :| CanMove(run[t - 1], i) && run[t] == Move(run[t - 1], i);
      WorkStep(run[t - 1], i, |run[t].pcs|);
    }
  }

  lemma {:induction false} WorkBound(s: State, n: nat, r: nat)
    requires n <= |s.pcs| == |s.rounds| && forall i | 0 <= i < n :: s.rounds[i] < r
    ensures Work(s, n) < n * (PHASES * r) || n == 0
  {
    if n > 0 {
      WorkBound(s, n - 1, r);
      assert PHASES * s.rounds[n - 1] + Phase(s.pcs[n - 1]) < PHASES * r;
      assert n * (PHASES * r) == (n - 1) * (PHASES * r) + PHASES * r;
    }
  }

  /**
   Rounds complete: whatever the interleaving, after 6rN moves some worker of the N has left r
   rounds, so every worker has arrived in each of them.
   */
  lemma {:induction false} RoundsComplete(run: seq<State>, t: nat, r: nat)
    requires IsRun(run) && t < |run| && t >= |run[0].pcs| * (PHASES * r)
    ensures |run[t].rounds| == |run[0].pcs|
    ensures exists i: nat :: i < |run[t].rounds| && run[t].rounds[i] >= r
    ensures forall j: nat | j < |run[t].rounds| :: run[t].rounds[j] + 1 >= r
  {
    InvAlways(run, t);
    WorkGrows(run, t);
    if forall i: nat | i < |run[t].rounds| :: run[t].rounds[i] < r {
      WorkBound(run[t], |run[t].pcs|, r);
    }
  }
}
