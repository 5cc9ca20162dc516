/** Runs of the system of workers that end badly: an instance that never ends, and retries that crashes used up. */
module Misfortunes {
  import opened Workflow
  import opened Machines
  import opened Saga
  import opened Graph
  import opened Regions
  import opened Validator
  import opened Interpreter
  import opened Rows
  import opened Logs
  import opened ForkShape
  import opened Moves
  import opened Termination
  import opened Workers
  import opened Safety
  import opened Ledger
  import opened Refinement
  import opened Recovery
  import opened Liveness
  import opened Acceptance
  import opened Limits

  /** The first step of the linear path: a request. */
  ghost predicate StartsWith(def: Definition, step: Step) {
    UniqueIds(def.steps) && IsFirst(def, step.id) && IsStep(def, step.id, step) && step.kind.HttpRequest?
  }

  lemma NewIsReached(m: Machine)
    ensures Reached(m, NewSystem(0)) && NewSystem(0).log == NEW_LOG && NewSystem(0).usedKeys == {}
  {
    assert Leads(m, NewSystem(0), [], NewSystem(0));
  }

  /** The instance runs its first step, for the `n`-th time, and no retry was ever scheduled. */
  ghost predicate OnAttempt(def: Definition, s: System, step: Step, n: int) {
    && Reached(MachineOf(def), s) && LogOk(MachineOf(def), s.log) && s.log.rows != []
    && FirstRow(Row0(s), step.id, n) && NoRetries(s.log)
  }

  predicate FirstRow(row: Row, id: string, n: int) {
    && row.status.InstRunning? && row.current == Some(id) && row.state.queue == [] && row.state.completed == []
    && row.state.forks == map[] && id in row.state.steps && row.state.steps[id].status == StepRunning
    && row.state.steps[id].attempt == n
  }

  ghost predicate NoRetries(log: Log) {
    forall j :: 0 <= j < |log.changes| ==> !log.changes[j].RetryAt?
  }

  lemma {:induction false} NoRetriesIsZero(log: Log, n: nat, id: string)
    requires n <= |log.changes| < |log.rows| && NoRetries(log)
    ensures Retries(log, n, id) == 0
  {
    if n > 0 {
      NoRetriesIsZero(log, n - 1, id);
    }
  }

  /** The first mark, and every one after it. */
  lemma MarkFirst(def: Definition, row: Row, step: Step, key: string, n: int)
    requires StartsWith(def, step) && key != "" && (row == NEW_ROW || FirstRow(row, step.id, n))
    ensures var change := MarkRun(NoBranch, key);
      && CanCommit(MachineOf(def), row, change)
      && FirstRow(Commit(MachineOf(def), row, change), step.id, if row == NEW_ROW then 1 else n + 1)
  {
    hide NormalSteps, StepById, NextAfter;
  }

  lemma MarkExtends(def: Definition, log: Log, change: Change)
    requires NoRetries(log) && log.rows != [] && CanCommit(MachineOf(def), Last(log), change) && !change.RetryAt?
    ensures NoRetries(Extended(MachineOf(def), log, change))
  {
    hide CanCommit, Commit;
  }

  /** A worker marks the step. */
  lemma Mark(def: Definition, s: System, step: Step, n: int) returns (t: System, w: nat)
    requires Reached(MachineOf(def), s) && StartsWith(def, step)
    requires s.log == NEW_LOG || OnAttempt(def, s, step, n)
    ensures MayBecome(MachineOf(def), s, t) && OnAttempt(def, t, step, if s.log == NEW_LOG then 1 else n + 1)
    ensures Holds(t, w, Row0(t), Started)
  {
    var m := MachineOf(def);
    var key := NewKey(s.usedKeys);
    var change := MarkRun(NoBranch, key);
    ReachedLog(m, s);
    MarkFirst(def, Row0(s), step, key, n);
    ExtendedLast(m, s.log, change);
    hide Reached, StartsWith, LogOk, CanCommit, Commit, MayBecome, Holds, Extended, FirstRow;
    MarkExtends(def, s.log, change);
    t, w := BeginNow(m, s, change);
    StillReached(m, s, t);
    ReachedLog(m, t);
  }

  /** A worker that has marked the step crashes; nothing else changes. */
  lemma LosesWorker(m: Machine, s: System, w: nat) returns (t: System)
    requires Reached(m, s) && w in s.workers
    ensures Reached(m, t) && t.log == s.log && MayBecome(m, s, t)
  {
    t := Act(m, s, Crash(w));
    hide Reached, MayBecome;
    Now(m, s);
    Then(m, s, s, Crash(w));
    StillReached(m, s, t);
  }

  lemma SameAttempt(def: Definition, s: System, t: System, step: Step, n: int)
    requires OnAttempt(def, s, step, n) && Reached(MachineOf(def), t) && t.log == s.log
    ensures OnAttempt(def, t, step, n)
  {
    hide Reached, LogOk, FirstRow;
  }

  /** Worker after worker marks the step and crashes: the attempts go up, and no retry is scheduled. */
  lemma {:induction false} CrashesUseAttempts(def: Definition, step: Step, n: nat) returns (s: System, w: nat)
    requires StartsWith(def, step) && n > 0
    ensures OnAttempt(def, s, step, n) && Holds(s, w, Row0(s), Started)
    decreases n
  {
    var m := MachineOf(def);
    var r := NewSystem(0);
    NewIsReached(m);
    hide Reached, StartsWith, MayBecome, LogOk, FirstRow, NoRetries;
    if n > 1 {
      var u, v := CrashesUseAttempts(def, step, n - 1);
      r := LosesWorker(m, u, v);
      SameAttempt(def, u, r, step, n - 1);
      AttemptIsNotNew(def, r, step, n - 1);
    }
    s, w := Mark(def, r, step, n - 1);
  }

  lemma AttemptIsNotNew(def: Definition, s: System, step: Step, n: int)
    requires OnAttempt(def, s, step, n)
    ensures s.log != NEW_LOG && |s.log.rows| > 1
    ensures Row0(s).version == |s.log.rows| - 1 && s.log.rows[Row0(s).version] == Row0(s)
  {
    VersionIsPosition(MachineOf(def), s.log, |s.log.rows| - 1);
    hide Reached, CanCommit, Commit;
  }

  /** When the retries are used up the step is given up. */
  lemma GiveUpFirst(def: Definition, row: Row, step: Step, n: int)
    requires StartsWith(def, step) && FirstRow(row, step.id, n) && !HasRetry(step, n)
    ensures CanCommit(MachineOf(def), row, Fail(NoBranch))
    ensures Records(MachineOf(def), row, Failure, 0, 0, Fail(NoBranch))
    ensures var next := Commit(MachineOf(def), row, Fail(NoBranch));
      && next.state.queue == CompensationQueue(def, step.id, [])
      && (if next.state.queue == [] then next.status.InstFailed?
          else next.status.InstCompensating? && next.current == Some(next.state.queue[0]))
  {
    hide NormalSteps, StepById, CompensationQueue;
  }

  lemma FailureMayCome(def: Definition, s: System, step: Step, n: int, at: int)
    requires StartsWith(def, step) && OnAttempt(def, s, step, n)
    ensures MayComeTo(MachineOf(def), s.log, Row0(s), at, Failure)
  {
    AttemptIsNotNew(def, s, step, n);
    hide Reached, LogOk, NoRetries, StepById, IsFirst, UniqueIds;
  }

  /** The worker that has marked the step finds that it fails, and gives it up. */
  lemma GiveUp(def: Definition, s: System, w: nat, step: Step, n: int) returns (t: System)
    requires StartsWith(def, step) && OnAttempt(def, s, step, n) && Holds(s, w, Row0(s), Started) && !HasRetry(step, n)
    ensures Reached(MachineOf(def), t) && MayBecome(MachineOf(def), s, t)
    ensures CanCommit(MachineOf(def), Row0(s), Fail(NoBranch)) && t.log == Extended(MachineOf(def), s.log, Fail(NoBranch))
  {
    var m := MachineOf(def);
    GiveUpFirst(def, Row0(s), step, n);
    FailureMayCome(def, s, step, n, s.now);
    assert !InUndo(Row0(s));
    hide Reached, LogOk, StartsWith, CanCommit, Commit, MayComeTo, MayBecome, Extended, InUndo, FirstRow, NoRetries, Holds;
    Now(m, s);
    t := CanEnd(m, s, s, w, Failure, Fail(NoBranch));
    StillReached(m, s, t);
  }

  /** A step whose policy grants retries can be given up without a single one: every worker that had marked it crashed,
      and each crash used up an attempt. */
  lemma CrashesCostRetries(def: Definition, step: Step) returns (s: System)
    requires StartsWith(def, step) && step.retry.Some? && step.retry.value.maxRetries > 0
    ensures var m := MachineOf(def);
      && Reached(m, s) && LogOk(m, s.log) && s.log.changes != [] && s.log.changes[|s.log.changes| - 1] == Fail(NoBranch)
      && Retries(s.log, |s.log.changes|, step.id) == 0 < MaxRetries(m, step.id)
  {
    var m := MachineOf(def);
    var n := step.retry.value.maxRetries + 1;
    var r, w := CrashesUseAttempts(def, step, n);
    s := GiveUp(def, r, w, step, n);
    ReachedLog(m, s);
    hide Reached, CanCommit, Commit, FirstRow, StepById, UniqueIds, IsFirst;
    MarkExtends(def, r.log, Fail(NoBranch));
    NoRetriesIsZero(s.log, |s.log.changes|, step.id);
  }

  /** Such a step is compensated by a delay. */
  ghost predicate UndoneByDelay(def: Definition, step: Step, delay: Step) {
    && StartsWith(def, step) && step.retry.None?
    && step.onFailure == delay.id != "" && IsStep(def, delay.id, delay) && delay.kind.Delay?
  }

  lemma QueueIsDelay(def: Definition, step: Step, delay: Step)
    requires UndoneByDelay(def, step, delay)
    ensures CompensationQueue(def, step.id, []) == [delay.id]
  {
    hide StepById, IsFirst, UniqueIds;
  }

  /** The failure of a step that is compensated by a delay brings the instance to where it can never end. */
  lemma DelayUndoIsReached(def: Definition, step: Step, delay: Step) returns (s: System)
    requires UndoneByDelay(def, step, delay)
    ensures Reached(MachineOf(def), s) && s.log.rows != [] && DelayAtHead(def, Row0(s))
    ensures !Terminal(Row0(s)) && !CanStillEnd(MachineOf(def), s)
  {
    var m := MachineOf(def);
    var r, w := CrashesUseAttempts(def, step, 1);
    s := GiveUp(def, r, w, step, 1);
    GiveUpFirst(def, Row0(r), step, 1);
    QueueIsDelay(def, step, delay);
    ReachedIsSane(m, s);
    assert DelayAtHead(def, Row0(s)) by {
      hide Reached, CanCommit, Commit, FirstRow, UniqueIds, IsFirst, CompensationQueue, StepById, Sane;
    }
    hide Reached, DelayAtHead, Sane, MayBecome, UndoneByDelay;
    forall t | MayBecome(m, s, t) ensures t.log.rows != [] && !Terminal(Row0(t)) {
      DelayNeverEnds(def, s, t);
    }
  }

  /** A task with a valid retry policy, or none, which is compensated by the only other step, a delay. */
  predicate TaskAndDelay(def: Definition) {
    && !IsBlank(def.name) && def.version >= 1 && UniqueIds(def.steps) && |def.steps| == 2
    && !IsBlank(def.steps[0].id) && !IsBlank(def.steps[1].id)
    && def.steps[0].kind.HttpRequest? && def.steps[0].config.next == "" && def.steps[0].onFailure == def.steps[1].id
    && def.steps[1].kind.Delay? && def.steps[1].config.next == "" && def.steps[1].onFailure == ""
    && RetryOk(def.steps[0]) && def.steps[1].retry.None?
  }

  lemma TwoSteps(def: Definition)
    requires TaskAndDelay(def)
    ensures |def.steps| == 2 && UniqueIds(def.steps) && def.steps[1].id != "" && def.steps[0].id != def.steps[1].id
    ensures forall k :: 0 <= k < 2 ==> IsStep(def, def.steps[k].id, def.steps[k])
    ensures Later(def, 0, def.steps[1].id) && def.steps[1].id in Ids(def)
  {
    NotBlank(def.steps[1].id);
    StepByIdUnique(def.steps, 0);
    StepByIdUnique(def.steps, 1);
    hide IsBlank, StepById, RetryOk;
  }

  lemma TwoFine(def: Definition, k: nat)
    requires TaskAndDelay(def) && k < 2
    ensures |def.steps| == 2 && FineStep(def, k) && ForwardStep(def, k) && ExplicitRefs(def.steps[k]) == []
    ensures !def.steps[k].kind.Fork? && !def.steps[k].kind.Transform?
  {
    TwoSteps(def);
    hide IsBlank, StepById, RetryOk, UniqueIds, Later, Ids;
  }

  lemma TaskIsFirst(def: Definition)
    requires TaskAndDelay(def)
    ensures |def.steps| == 2 && IsFirst(def, def.steps[0].id)
  {
    TwoSteps(def);
    assert IsNormal(def, def.steps[0]) by {
      assert def.steps[0].id !in CompensationRefs(def);
      hide IsBlank, StepById, RetryOk, UniqueIds, InRegion;
    }
    hide IsBlank, StepById, RetryOk, UniqueIds, IsNormal, Later, Ids;
    FirstStaysFirst(def, 2);
  }

  /** Such a definition meets every condition of the promises but one: what compensates is a delay. */
  lemma TaskAndDelayIsFine(def: Definition)
    requires TaskAndDelay(def)
    ensures Accepted(def) && Disciplined(def) && !HasCycle(RunGraph(def)) && |def.steps| == 2
    ensures StartsWith(def, def.steps[0])
    ensures def.steps[0].retry.None? ==> UndoneByDelay(def, def.steps[0], def.steps[1])
  {
    TwoSteps(def);
    TaskIsFirst(def);
    forall k: nat | k < 2
      ensures FineStep(def, k) && ForwardStep(def, k) && !def.steps[k].kind.Fork? && !def.steps[k].kind.Transform?
    {
      TwoFine(def, k);
    }
    hide IsBlank, RetryOk, UniqueIds, IsFirst, IsNormal, Later, Ids, FineStep, ForwardStep, IsStep, HasCycle, RunGraph, CheckedGraph;
    assert Forward(def);
    AcceptedWhen(def);
    AllForwardHasNoLoop(def);
    hide Accepted, Forward, InRegion, StepOk, RefsOk;
    assert WellReferenced(def) by { hide *; AcceptedIsReferenced(def); }
    hide WellReferenced;
  }
}
