/**
 The NUMA task pool as a step system: any number of submitters share the pool, any thread of a
 node may take the next task of that node's queue, one step per atomic operation or locked block.
 */
module TaskPool {
  import opened Messages
  import opened Sets

  /** The life of a task after it is pushed; a thread of its node carries it from Popped to Completed. */
  datatype Stage = Queued | Popped | Returned | Decremented | Completed

  datatype Task = Task(node: nat, owner: nat, stage: Stage)

  /** A submitter: free, between pushing and counting a task, or polling in wait_all. */
  datatype Submitter = Free | Pushed | Polling | HasRead(completed: nat)

  /** Tasks are listed in the order they were pushed; the queue of a node is its Queued tasks in that order. */
  datatype Pool = Pool(
    nodes: nat,
    tasks: seq<Task>,
    active: map<nat, nat>,
    submitted: nat,
    completed: nat,
    submitters: map<nat, Submitter>)

  datatype Step =
    | Push(p: nat, preferred: nat)
    | Count(p: nat)
    | Pop(t: nat)
    | Return(t: nat)
    | Decrement(t: nat)
    | Complete(t: nat)
    | BeginWait(p: nat)
    | ReadCompleted(p: nat)
    | ReadSubmitted(p: nat)

  ghost predicate Init(s: Pool) {
    && s.nodes > 0 && s.tasks == [] && s.submitted == 0 && s.completed == 0
    && (forall n: nat :: n in s.active <==> n < s.nodes)
    && (forall n: nat :: ActiveOf(s, n) == 0)
    && (forall p | p in s.submitters :: s.submitters[p] == Free)
  }

  predicate At(s: Pool, t: nat, stage: Stage) {
    t < |s.tasks| && s.tasks[t].stage == stage
  }

  predicate Is(s: Pool, p: nat, state: Submitter) {
    p in s.submitters && s.submitters[p] == state
  }

  /** The first task in the queue of its node. */
  predicate Front(s: Pool, t: nat) {
    At(s, t, Queued) && forall u | 0 <= u < t && s.tasks[u].node == s.tasks[t].node :: s.tasks[u].stage != Queued
  }

  predicate Enabled(s: Pool, step: Step) {
    match step
    case Push(p, _) => Is(s, p, Free) && s.nodes > 0
    case Count(p) => Is(s, p, Pushed)
    case Pop(t) => Front(s, t)
    case Return(t) => At(s, t, Popped)
    case Decrement(t) => At(s, t, Returned)
    case Complete(t) => At(s, t, Decremented)
    case BeginWait(p) => Is(s, p, Free)
    case ReadCompleted(p) => Is(s, p, Polling)
    case ReadSubmitted(p) => p in s.submitters && s.submitters[p].HasRead?
  }

  function ActiveOf(s: Pool, n: nat): nat {
    if n in s.active then s.active[n] else 0
  }

  function Advance(s: Pool, t: nat, stage: Stage): Pool
    requires t < |s.tasks|
  {
    s.(tasks := s.tasks[t := s.tasks[t].(stage := stage)])
  }

  function Becomes(s: Pool, p: nat, state: Submitter): Pool {
    s.(submitters := s.submitters[p := state])
  }

  /** The counters are 64 bits wide and wrap. */
  function Do(s: Pool, step: Step): Pool
    requires Enabled(s, step)
  {
    match step
    case Push(p, preferred) =>
      var n := preferred % s.nodes;
      Becomes(s, p, Pushed).(tasks := s.tasks + [Task(n, p, Queued)],
                             active := s.active[n := (ActiveOf(s, n) + 1) % WORD])
    case Count(p) => Becomes(s, p, Free).(submitted := (s.submitted + 1) % WORD)
    case Pop(t) => Advance(s, t, Popped)
    case Return(t) => Advance(s, t, Returned)
    case Decrement(t) =>
      var n := s.tasks[t].node;
      Advance(s, t, Decremented).(active := s.active[n := (ActiveOf(s, n) + WORD - 1) % WORD])
    case Complete(t) => Advance(s, t, Completed).(completed := (s.completed + 1) % WORD)
    case BeginWait(p) => Becomes(s, p, Polling)
    case ReadCompleted(p) => Becomes(s, p, HasRead(s.completed))
    case ReadSubmitted(p) => Becomes(s, p, if s.submitters[p].completed < s.submitted then Polling else Free)
  }

  ghost predicate Next(s: Pool, s': Pool) {
    exists step: Step :: Enabled(s, step) && s' == Do(s, step)
  }

  ghost predicate IsRun(run: seq<Pool>) {
    && |run| > 0 && Init(run[0])
    && forall i | 0 <= i < |run| - 1 :: Next(run[i], run[i + 1])
  }

  // ----- counting

  function Done(s: Pool): set<nat> {
    set t | 0 <= t < |s.tasks| && s.tasks[t].stage == Completed
  }

  /** The tasks queued or running: everything pushed and not completed. */
  function Outstanding(s: Pool): set<nat> {
    set t | 0 <= t < |s.tasks| && s.tasks[t].stage != Completed
  }

  /** The submitters that have pushed a task and not yet counted it. */
  function Window(s: Pool): set<nat> {
    set p | p in s.submitters && s.submitters[p] == Pushed
  }

  predicate Counted(stage: Stage) {
    stage == Queued || stage == Popped || stage == Returned
  }

  /** The tasks of node n in its queue or popped and not yet taken off its count. */
  function Load(s: Pool, n: nat): set<nat> {
    set t | 0 <= t < |s.tasks| && s.tasks[t].node == n && Counted(s.tasks[t].stage)
  }

  ghost predicate Inv(s: Pool) {
    && s.completed == |Done(s)| % WORD
    && s.submitted < WORD && (s.submitted + |Window(s)| - |s.tasks|) % WORD == 0
    && |Window(s)| <= |s.tasks|
    && (forall n: nat :: ActiveOf(s, n) == |Load(s, n)| % WORD)
  }

  function Indices(n: nat): (r: set<nat>)
    ensures |r| == n && forall t: nat :: t in r <==> t < n
  {
    if n == 0 then {} else Indices(n - 1) + {n - 1}
  }

  /** queued + running + completed = pushed. */
  lemma Partition(s: Pool)
    ensures |Done(s)| + |Outstanding(s)| == |s.tasks|
  {
    assert Done(s) + Outstanding(s) == Indices(|s.tasks|);
    assert Done(s) * Outstanding(s) == {};
  }

  lemma {:induction false} WindowStep(s: Pool, step: Step)
    requires Inv(s) && Enabled(s, step)
    ensures var s' := Do(s, step);
      && |Window(s')| == |Window(s)| + (if step.Push? then 1 else if step.Count? then -1 else 0)
      && (step.Count? ==> |Window(s)| > 0)
  {
    var s' := Do(s, step);
    match step {
      case Push(p, _) => BecomesWindow(s, p, Pushed, s');
      case Count(p) => BecomesWindow(s, p, Free, s');
      case BeginWait(p) => BecomesWindow(s, p, Polling, s');
      case ReadCompleted(p) => BecomesWindow(s, p, s'.submitters[p], s');
      case ReadSubmitted(p) => BecomesWindow(s, p, s'.submitters[p], s');
      case _ =>
    }
  }

  lemma BecomesWindow(s: Pool, p: nat, state: Submitter, s': Pool)
    requires p in s.submitters && s'.submitters == s.submitters[p := state]
    ensures |Window(s')| == |Window(s)| + (if state == Pushed then 1 else 0)
                            - (if s.submitters[p] == Pushed then 1 else 0)
    ensures s.submitters[p] == Pushed ==> |Window(s)| > 0
  {
    assert p in Window(s) <==> s.submitters[p] == Pushed;
    assert Window(s') == if state == Pushed then Window(s) + {p} else Window(s) - {p};
    hide Window;
    AddRemove(Window(s), p);
  }

  lemma {:induction false} DoneStep(s: Pool, step: Step)
    requires Inv(s) && Enabled(s, step)
    ensures Done(Do(s, step)) == Done(s) + (if step.Complete? then {step.t} else {})
    ensures step.Complete? ==> step.t !in Done(s)
  {
    match step {
      case Push(p, preferred) => DoneAfterPush(s, Do(s, step));
      case Pop(t) => DoneAfterAdvance(s, t, Popped, Do(s, step));
      case Return(t) => DoneAfterAdvance(s, t, Returned, Do(s, step));
      case Decrement(t) => DoneAfterAdvance(s, t, Decremented, Do(s, step));
      case Complete(t) => DoneAfterAdvance(s, t, Completed, Do(s, step));
      case _ => SameDone(s, Do(s, step));
    }
  }

  lemma SameDone(s: Pool, s': Pool)
    requires s'.tasks == s.tasks
    ensures Done(s') == Done(s)
  {
  }

  lemma DoneAfterPush(s: Pool, s': Pool)
    requires |s'.tasks| == |s.tasks| + 1 && s'.tasks[..|s.tasks|] == s.tasks && s'.tasks[|s.tasks|].stage == Queued
    ensures Done(s') == Done(s)
  {
    forall t ensures t in Done(s') <==> t in Done(s) {
      assert 0 <= t < |s.tasks| ==> s'.tasks[..|s.tasks|][t] == s'.tasks[t];
    }
  }

  lemma DoneAfterAdvance(s: Pool, t: nat, stage: Stage, s': Pool)
    requires t < |s.tasks| && s.tasks[t].stage != Completed && s'.tasks == Advance(s, t, stage).tasks
    ensures Done(s') == Done(s) + (if stage == Completed then {t} else {}) && t !in Done(s)
  {
  }

  lemma {:induction false} LoadAfterPush(s: Pool, step: Step, n: nat)
    requires step.Push? && Enabled(s, step)
    ensures Load(Do(s, step), n) == Load(s, n) + (if step.preferred % s.nodes == n then {|s.tasks|} else {})
  {
    var s' := Do(s, step);
    forall t ensures t in Load(s', n) <==> t in Load(s, n) || (t == |s.tasks| && step.preferred % s.nodes == n) {
    }
  }

  lemma {:induction false} LoadAfterAdvance(s: Pool, t: nat, stage: Stage, n: nat)
    requires t < |s.tasks|
    ensures Load(Advance(s, t, stage), n) ==
              if s.tasks[t].node == n && Counted(stage) then Load(s, n) + {t} else Load(s, n) - {t}
  {
  }

  lemma {:induction false} ActiveStep(s: Pool, step: Step, n: nat)
    requires Enabled(s, step) && ActiveOf(s, n) == |Load(s, n)| % WORD
    ensures ActiveOf(Do(s, step), n) == |Load(Do(s, step), n)| % WORD
  {
    hide Load;
    if step.Push? {
      LoadAfterPush(s, step, n);
      NotYet(s, n);
    } else if step.Decrement? {
      ActiveDecrement(s, step, n);
    } else if step.Pop? {
      ActiveSame(s, step.t, Popped, Do(s, step), n);
    } else if step.Return? {
      ActiveSame(s, step.t, Returned, Do(s, step), n);
    } else if step.Complete? {
      ActiveSame(s, step.t, Completed, Do(s, step), n);
    } else {
      SameLoad(s, Do(s, step), n);
    }
  }

  lemma {:induction false} ActiveDecrement(s: Pool, step: Step, n: nat)
    requires Enabled(s, step) && ActiveOf(s, n) == |Load(s, n)| % WORD && step.Decrement?
    ensures ActiveOf(Do(s, step), n) == |Load(Do(s, step), n)| % WORD
  {
    hide Load;
    LoadAfterAdvance(s, step.t, Decremented, n);
    LoadMember(s, step.t, n);
    SameLoad(Advance(s, step.t, Decremented), Do(s, step), n);
    AddRemove(Load(s, n), step.t);
    if s.tasks[step.t].node == n {
      OneLess(|Load(s, n)|);
    }
  }

  lemma OneLess(x: nat)
    requires x > 0
    ensures (x % WORD + WORD - 1) % WORD == (x - 1) % WORD
  {
  }

  /** A move that leaves a task counted, or uncounted, as it was. */
  lemma {:induction false} ActiveSame(s: Pool, t: nat, stage: Stage, s': Pool, n: nat)
    requires t < |s.tasks| && Counted(stage) == Counted(s.tasks[t].stage)
    requires s'.tasks == Advance(s, t, stage).tasks
    ensures |Load(s', n)| == |Load(s, n)|
  {
    hide Load;
    LoadAfterAdvance(s, t, stage, n);
    LoadMember(s, t, n);
    SameLoad(Advance(s, t, stage), s', n);
    AddRemove(Load(s, n), t);
  }

  lemma AddRemove(a: set<nat>, t: nat)
    ensures if t in a then a + {t} == a && |a - {t}| == |a| - 1 else a - {t} == a && |a + {t}| == |a| + 1
  {
  }

  lemma SameLoad(s: Pool, s': Pool, n: nat)
    requires s.tasks == s'.tasks
    ensures Load(s, n) == Load(s', n)
  {
  }

  lemma NotYet(s: Pool, n: nat)
    ensures |s.tasks| !in Load(s, n)
  {
  }

  lemma LoadMember(s: Pool, t: nat, n: nat)
    requires t < |s.tasks|
    ensures t in Load(s, n) <==> s.tasks[t].node == n && Counted(s.tasks[t].stage)
  {
  }

  lemma {:induction false} CompletedStep(s: Pool, step: Step)
    requires Inv(s) && Enabled(s, step)
    ensures Do(s, step).completed == |Done(Do(s, step))| % WORD
  {
    hide Load, Done, Window;
    DoneStep(s, step);
    if step.Complete? {
      assert |Done(s) + {step.t}| == |Done(s)| + 1;
    }
  }

  lemma {:induction false} SubmittedStep(s: Pool, step: Step)
    requires Inv(s) && Enabled(s, step)
    ensures var s' := Do(s, step);
      && s'.submitted < WORD && (s'.submitted + |Window(s')| - |s'.tasks|) % WORD == 0
      && |Window(s')| <= |s'.tasks|
  {
    hide Load, Done, Window;
    WindowStep(s, step);
    TasksGrow(s, step);
  }

  lemma {:induction false} InvStep(s: Pool, step: Step)
    requires Inv(s) && Enabled(s, step)
    ensures Inv(Do(s, step))
  {
    hide Load, Done, Window;
    CompletedStep(s, step);
    SubmittedStep(s, step);
    forall n: nat ensures ActiveOf(Do(s, step), n) == |Load(Do(s, step), n)| % WORD {
      ActiveStep(s, step, n);
    }
  }

  lemma {:induction false} InvAlways(run: seq<Pool>, i: nat)
    requires IsRun(run) && i < |run|
    ensures Inv(run[i])
  {
    if i == 0 {
      var s := run[0];
      assert Window(s) == {} && Done(s) == {};
      forall n: nat ensures Load(s, n) == {} {
      }
    } else {
      InvAlways(run, i - 1);
      assert Next(run[i - 1], run[(i - 1) + 1]);
      var step :| Enabled(run[i - 1], step) && run[i] == Do(run[i - 1], step);
      InvStep(run[i - 1], step);
    }
  }

  /**
   With fewer than 2^64 tasks a node's load counter is exactly its queued tasks plus those popped
   and not yet decremented, and the decrement never underflows.
   */
  lemma {:induction false} ActiveCountExact(run: seq<Pool>, i: nat, t: nat)
    requires IsRun(run) && i < |run| && |run[i].tasks| < WORD && t < |run[i].tasks|
    ensures ActiveOf(run[i], run[i].tasks[t].node) == |Load(run[i], run[i].tasks[t].node)|
    ensures Enabled(run[i], Decrement(t)) ==> ActiveOf(run[i], run[i].tasks[t].node) > 0
  {
    InvAlways(run, i);
    var s := run[i];
    var n := s.tasks[t].node;
    LoadSize(s, n);
    if Enabled(s, Decrement(t)) {
      assert t in Load(s, n);
    }
  }

  lemma LoadSize(s: Pool, n: nat)
    ensures |Load(s, n)| <= |s.tasks|
  {
    var rest := Indices(|s.tasks|) - Load(s, n);
    assert Indices(|s.tasks|) == Load(s, n) + rest;
  }

  // ----- wait_all

  function Tally(s: Pool): int {
    |s.tasks| - |Window(s)|
  }

  /** The number of counted tasks never falls. */
  lemma {:induction false} TallyGrows(run: seq<Pool>, a: nat, b: nat)
    requires IsRun(run) && a <= b < |run|
    ensures Tally(run[a]) <= Tally(run[b]) && |run[a].tasks| <= |run[b].tasks|
  {
    if a < b {
      TallyGrows(run, a, b - 1);
      InvAlways(run, b - 1);
      assert Next(run[b - 1], run[(b - 1) + 1]);
      var step :| Enabled(run[b - 1], step) && run[b] == Do(run[b - 1], step);
      hide Window, Do;
      WindowStep(run[b - 1], step);
      TasksGrow(run[b - 1], step);
    }
  }

  lemma TasksGrow(s: Pool, step: Step)
    requires Enabled(s, step)
    ensures |Do(s, step).tasks| == |s.tasks| + (if step.Push? then 1 else 0)
  {
  }

  /** A submitter holds a value of total_completed_ because it has just read it, or held it already. */
  lemma ReadNow(s: Pool, step: Step, p: nat)
    requires Enabled(s, step) && p in Do(s, step).submitters && Do(s, step).submitters[p].HasRead?
    ensures (Is(s, p, Polling) && Do(s, step).submitters[p].completed == s.completed)
         || (p in s.submitters && s.submitters[p] == Do(s, step).submitters[p])
  {
  }

  // ----- queues

  /** A task that waits has everything behind it in its node's queue waiting. */
  ghost predicate InOrder(s: Pool) {
    forall t, u | 0 <= t < u < |s.tasks| && s.tasks[t].node == s.tasks[u].node && s.tasks[t].stage == Queued ::
      s.tasks[u].stage == Queued
  }

  lemma {:induction false} InOrderStep(s: Pool, step: Step)
    requires InOrder(s) && Enabled(s, step)
    ensures InOrder(Do(s, step))
  {
  }

  /** A node starts its tasks in the order in which they were pushed. */
  lemma {:induction false} StartedInOrder(run: seq<Pool>, i: nat, t: nat, u: nat)
    requires IsRun(run) && i < |run| && t < u < |run[i].tasks| && run[i].tasks[t].node == run[i].tasks[u].node
    requires run[i].tasks[u].stage != Queued
    ensures run[i].tasks[t].stage != Queued
  {
    InOrderAlways(run, i);
  }

  lemma {:induction false} InOrderAlways(run: seq<Pool>, i: nat)
    requires IsRun(run) && i < |run|
    ensures InOrder(run[i])
  {
    if i == 0 {
      assert run[0].tasks == [];
    } else {
      hide InOrder, Do, Enabled, IsRun, Init;
      InOrderAlways(run, i - 1);
      var step := StepTaken(run, i - 1);
      InOrderStep(run[i - 1], step);
    }
  }

  lemma StepTaken(run: seq<Pool>, n: nat) returns (step: Step)
    requires IsRun(run) && n + 1 < |run|
    ensures Enabled(run[n], step) && run[n + 1] == Do(run[n], step)
  {
    hide Do, Enabled, Init;
    assert Next(run[n], run[n + 1]);
    step :| Enabled(run[n], step) && run[n + 1] == Do(run[n], step);
  }

  /** A pushed task waits at the node it prefers, modulo their number. */
  lemma PushedToPreferred(s: Pool, p: nat, preferred: nat)
    requires Enabled(s, Push(p, preferred))
    ensures Do(s, Push(p, preferred)).tasks == s.tasks + [Task(preferred % s.nodes, p, Queued)]
  {
  }

  lemma NobodyWaitsAtFirst(run: seq<Pool>, p: nat)
    requires IsRun(run) && |run| > 0
    ensures p in run[0].submitters ==> run[0].submitters[p] == Free
  {
  }

  /** The moment at which p last read total_completed_. */
  lemma {:induction false} LastRead(run: seq<Pool>, i: nat, p: nat) returns (a: nat)
    requires IsRun(run) && i < |run| && p in run[i].submitters && run[i].submitters[p].HasRead?
    ensures a < i && Is(run[a], p, Polling) && run[a].completed == run[i].submitters[p].completed
    ensures forall k | a < k <= i :: Is(run[k], p, run[i].submitters[p])
  {
    hide Do, Enabled, IsRun, Init;
    NobodyWaitsAtFirst(run, p);
    var step := StepTaken(run, i - 1);
    ReadNow(run[i - 1], step, p);
    if Is(run[i - 1], p, Polling) {
      a := i - 1;
    } else {
      a := LastRead(run, i - 1, p);
    }
  }

  /**
   When wait_all returns to p, the tasks that were outstanding when p read total_completed_ were no
   more than the submitters that were then between pushing a task and counting it.
   */
  lemma {:induction false} WaitBound(run: seq<Pool>, i: nat, p: nat) returns (a: nat)
    requires IsRun(run) && i < |run| && |run[i].tasks| < WORD
    requires p in run[i].submitters && run[i].submitters[p].HasRead?
    requires run[i].submitters[p].completed >= run[i].submitted
    ensures a < i && Is(run[a], p, Polling) && run[a].completed == run[i].submitters[p].completed
    ensures |Outstanding(run[a])| <= |Window(run[a])|
    ensures p !in Window(run[a])
    ensures forall k | a < k <= i :: Is(run[k], p, run[i].submitters[p])
  {
    a := LastRead(run, i, p);
    InvAlways(run, i);
    InvAlways(run, a);
    TallyGrows(run, a, i);
    Partition(run[a]);
    Partition(run[i]);
    assert run[i].submitted == Tally(run[i]);
    assert run[a].completed == |Done(run[a])|;
  }

  lemma {:induction false} SubmittersFixed(run: seq<Pool>, i: nat)
    requires IsRun(run) && i < |run|
    ensures run[i].submitters.Keys == run[0].submitters.Keys
  {
    if i > 0 {
      SubmittersFixed(run, i - 1);
      assert Next(run[i - 1], run[(i - 1) + 1]);
      var step :| Enabled(run[i - 1], step) && run[i] == Do(run[i - 1], step);
    }
  }

  lemma {:induction false} DoneStays(run: seq<Pool>, a: nat, b: nat)
    requires IsRun(run) && a <= b < |run|
    ensures Done(run[a]) <= Done(run[b])
  {
    if a < b {
      DoneStays(run, a, b - 1);
      InvAlways(run, b - 1);
      assert Next(run[b - 1], run[(b - 1) + 1]);
      var step :| Enabled(run[b - 1], step) && run[b] == Do(run[b - 1], step);
      DoneStep(run[b - 1], step);
    }
  }

  /** While the only submitter polls, nothing is pushed. */
  lemma {:induction false} NothingPushed(run: seq<Pool>, a: nat, b: nat, p: nat)
    requires IsRun(run) && a <= b < |run| && run[0].submitters.Keys == {p}
    requires forall k | a <= k < b :: p in run[k].submitters && run[k].submitters[p] != Free
    ensures |run[b].tasks| == |run[a].tasks|
  {
    if a < b {
      NothingPushed(run, a, b - 1, p);
      SubmittersFixed(run, b - 1);
      assert Next(run[b - 1], run[(b - 1) + 1]);
      var step :| Enabled(run[b - 1], step) && run[b] == Do(run[b - 1], step);
      assert p in run[b - 1].submitters && run[b - 1].submitters[p] != Free;
    }
  }

  /** For a single submitter wait_all is exact: when it returns every task has run to its end. */
  lemma {:induction false} SoleSubmitterWaitsForAll(run: seq<Pool>, i: nat, p: nat)
    requires IsRun(run) && i < |run| && |run[i].tasks| < WORD && run[0].submitters.Keys == {p}
    requires p in run[i].submitters && run[i].submitters[p].HasRead?
    requires run[i].submitters[p].completed >= run[i].submitted
    ensures forall t | 0 <= t < |run[i].tasks| :: run[i].tasks[t].stage == Completed
  {
    var a := WaitBound(run, i, p);
    SubmittersFixed(run, a);
    assert Window(run[a]) == {};
    assert forall k | a <= k < i :: p in run[k].submitters && run[k].submitters[p] != Free;
    NothingPushed(run, a, i, p);
    DoneStays(run, a, i);
    forall t: nat | t < |run[i].tasks| ensures run[i].tasks[t].stage == Completed {
      assert t !in Outstanding(run[a]);
      assert t in Done(run[a]);
      assert t in Done(run[i]);
    }
  }

  /**
   The exit test of wait_all, for any number of submitters: it passes exactly when no more tasks are
   outstanding than there are submitters between pushing a task and counting it.
   */
  lemma {:induction false} ExitExactly(run: seq<Pool>, i: nat)
    requires IsRun(run) && i < |run| && |run[i].tasks| < WORD
    ensures run[i].completed >= run[i].submitted <==> |Outstanding(run[i])| <= |Window(run[i])|
  {
    InvAlways(run, i);
    Partition(run[i]);
  }

  /** And it does not wait for longer: with everything completed, the next poll of a sole submitter succeeds. */
  lemma {:induction false} SoleSubmitterReturns(run: seq<Pool>, i: nat, p: nat)
    requires IsRun(run) && i < |run| && |run[i].tasks| < WORD && run[0].submitters.Keys == {p}
    requires Is(run[i], p, Polling)
    ensures run[i].completed >= run[i].submitted <==> Outstanding(run[i]) == {}
  {
    SubmittersFixed(run, i);
    assert Window(run[i]) == {};
    ExitExactly(run, i);
    assert |Outstanding(run[i])| == 0 <==> Outstanding(run[i]) == {};
  }

  lemma {:induction false} Extend(run: seq<Pool>, step: Step) returns (longer: seq<Pool>)
    requires IsRun(run) && Enabled(run[|run| - 1], step)
    ensures IsRun(longer) && longer[|longer| - 1] == Do(run[|run| - 1], step) && longer[0] == run[0]
  {
    longer := run + [Do(run[|run| - 1], step)];
    forall i | 0 <= i < |longer| - 1 ensures Next(longer[i], longer[i + 1]) {
      if i < |run| - 1 {
        assert Next(run[i], run[i + 1]);
      }
    }
  }

  /** Submitters with nothing to wait for, except that q is in the given state. */
  function Others(ps: set<nat>, q: nat, state: Submitter): map<nat, Submitter> {
    map p | p in ps :: if p == q then state else Free
  }

  lemma OthersUpdated(ps: set<nat>, q: nat, state: Submitter, next: Submitter)
    requires q in ps
    ensures Others(ps, q, state)[q := next] == Others(ps, q, next)
  {
  }

  /** A task of q is popped before it is counted. */
  lemma {:induction false} UncountedTaskCanRun(ps: set<nat>, q: nat) returns (run: seq<Pool>)
    requires q in ps
    ensures IsRun(run) && run[0].submitters.Keys == ps
    ensures run[|run| - 1] == Pool(1, [Task(0, q, Popped)], map[0 := 1], 0, 0, Others(ps, q, Pushed))
  {
    OthersUpdated(ps, q, Free, Pushed);
    run := [Pool(1, [], map[0 := 0], 0, 0, Others(ps, q, Free))];
    run := Extend(run, Push(q, 0));
    run := Extend(run, Pop(0));
  }

  lemma {:induction false} UncountedTaskCanFinish(ps: set<nat>, q: nat) returns (run: seq<Pool>)
    requires q in ps
    ensures IsRun(run) && run[0].submitters.Keys == ps
    ensures run[|run| - 1] == Pool(1, [Task(0, q, Completed)], map[0 := 0], 0, 1, Others(ps, q, Pushed))
  {
    run := UncountedTaskCanRun(ps, q);
    run := Extend(run, Return(0));
    run := Extend(run, Decrement(0));
    run := Extend(run, Complete(0));
  }

  /**
   With two submitters the bound is all there is: p can leave wait_all while its own counted task is still
   in the queue, because a task of q was completed before it was counted.
   */
  lemma {:induction false} WaitAllCanMiss(ps: set<nat>, p: nat, q: nat) returns (run: seq<Pool>)
    requires p in ps && q in ps && p != q
    ensures IsRun(run) && run[0].submitters.Keys == ps
    ensures var s := run[|run| - 1];
      && Is(s, p, HasRead(1)) && s.submitted == 1
      && |s.tasks| == 2 && s.tasks[1] == Task(0, p, Queued)
  {
    run := UncountedTaskCanFinish(ps, q);
    run := Extend(run, Push(p, 0));
    run := Extend(run, Count(p));
    run := Extend(run, BeginWait(p));
    run := Extend(run, ReadCompleted(p));
  }

  lemma {:induction false} WaitAllCanMissOwnTask() returns (run: seq<Pool>)
    ensures IsRun(run)
    ensures var s := run[|run| - 1];
      && Is(s, 0, HasRead(1)) && s.submitted == 1
      && |s.tasks| == 2 && s.tasks[1] == Task(0, 0, Queued)
  {
    run := WaitAllCanMiss({0, 1}, 0, 1);
  }

  /** At this point of the run p is about to leave wait_all. */
  predicate Leaving(s: Pool, p: nat) {
    p in s.submitters && s.submitters[p].HasRead? && s.submitters[p].completed >= s.submitted
  }

  /** And it is then, and only then, that the next turn of its loop returns. */
  lemma {:induction false} ReturnsExactlyWhenLeaving(run: seq<Pool>, i: nat, p: nat)
    requires IsRun(run) && i < |run| && Enabled(run[i], ReadSubmitted(p))
    ensures Is(Do(run[i], ReadSubmitted(p)), p, Free) <==> Leaving(run[i], p)
    ensures Is(Do(run[i], ReadSubmitted(p)), p, Polling) <==> !Leaving(run[i], p)
  {
  }

  /** No other step takes a waiting submitter out of its loop. */
  lemma {:induction false} OnlyReturnFrees(s: Pool, step: Step, p: nat)
    requires Enabled(s, step) && p in s.submitters && (s.submitters[p].Polling? || s.submitters[p].HasRead?)
    requires Is(Do(s, step), p, Free)
    ensures step == ReadSubmitted(p) && Leaving(s, p)
  {
  }

  ghost predicate AllCompleted(s: Pool) {
    forall t | 0 <= t < |s.tasks| :: s.tasks[t].stage == Completed
  }

  /** For these submitters wait_all can be relied on, in every run of fewer than 2^64 tasks. */
  ghost predicate WaitsForAll(ps: set<nat>) {
    forall run: seq<Pool>, i: nat, p: nat
      | IsRun(run) && i < |run| && run[0].submitters.Keys == ps && |run[i].tasks| < WORD && Leaving(run[i], p) ::
      AllCompleted(run[i])
  }

  /** That is so exactly for a single submitter. */
  lemma {:induction false} WaitsForAllExactlyIfSole(ps: set<nat>)
    ensures WaitsForAll(ps) <==> |ps| <= 1
  {
    if |ps| <= 1 {
      forall run: seq<Pool>, i: nat, p: nat
        | IsRun(run) && i < |run| && run[0].submitters.Keys == ps && |run[i].tasks| < WORD && Leaving(run[i], p)
        ensures AllCompleted(run[i])
      {
        SubmittersFixed(run, i);
        OnlyMember(ps, p);
        SoleSubmitterWaitsForAll(run, i, p);
      }
    } else {
      var p, q := TwoMembers(ps);
      var run := WaitAllCanMiss(ps, p, q);
      assert Leaving(run[|run| - 1], p) && !AllCompleted(run[|run| - 1]);
    }
  }
}
