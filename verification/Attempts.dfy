/** What becomes of the retries a step is granted: each was scheduled, or an attempt was lost to a worker that marked the
    step and never recorded an outcome, or was spent because a completed step ran again. */
module Attempts {
  import opened Workflow
  import opened Regions
  import opened Machines
  import opened Interpreter
  import opened Rows
  import opened Logs
  import opened ForkShape
  import opened Moves
  import opened Runs
  import opened Termination
  import opened Workers
  import opened Safety
  import opened Ledger
  import opened Guarantees
  import opened Waiting
  import opened Refinement
  import opened Visits

  /** Commit `k` marks step `id`, which has made at least one attempt before and has retries in its budget. */
  predicate MarksWithin(m: Machine, log: Log, k: int, id: string) {
    && 0 <= k < |log.changes| < |log.rows| && Marks(log.changes[k]) && log.rows[k + 1].current == Some(id)
    && 1 <= StepAt(log.rows[k], id).attempt <= MaxRetries(m, id)
  }

  /** The attempt before was marked, and no outcome of it was recorded. */
  predicate LosesAttempt(m: Machine, log: Log, k: int, id: string) {
    MarksWithin(m, log, k, id) && StepAt(log.rows[k], id).status == StepRunning
  }

  /** The attempt before came to its end, and the step runs again without having waited. */
  predicate RunsAgain(m: Machine, log: Log, k: int, id: string) {
    MarksWithin(m, log, k, id) && StepAt(log.rows[k], id).status !in {StepRunning, StepWaiting}
  }

  function Lost(m: Machine, log: Log, n: nat, id: string): nat {
    if n == 0 then 0 else Lost(m, log, n - 1, id) + if LosesAttempt(m, log, n - 1, id) then 1 else 0
  }

  function Repeats(m: Machine, log: Log, n: nat, id: string): nat {
    if n == 0 then 0 else Repeats(m, log, n - 1, id) + if RunsAgain(m, log, n - 1, id) then 1 else 0
  }

  /** No outcome made the step wait for a time of its own. */
  predicate NeverWaits(log: Log, n: nat, id: string)
    requires n <= |log.changes| < |log.rows|
  {
    forall j :: 0 <= j < n && log.rows[j].current == Some(id) ==> !log.changes[j].Wait?
  }

  /** How much of the budget a step in this state has used. */
  function Used(max: nat, state: StepState): int {
    if state.status == StepWaiting then state.attempt
    else if state.attempt <= 1 then 0
    else if state.attempt - 1 <= max then state.attempt - 1
    else max
  }

  predicate Plausible(max: nat, state: StepState) {
    && 0 <= state.attempt && (state.status == StepRunning ==> state.attempt > 0)
    && (state.status == StepWaiting ==> 1 <= state.attempt <= max)
  }

  /** A step stops waiting only when it is marked. */
  lemma WaitsUntilMarked(m: Machine, row: Row, change: Change, id: string)
    requires CanCommit(m, row, change)
    ensures var before, after := StepAt(row, id), StepAt(Commit(m, row, change), id);
      || (Marks(change) && Commit(m, row, change).current == Some(id))
      || (change.RetryAt? && row.current == Some(id) && before.status == StepRunning)
      || (change.Wait? && row.current == Some(id))
      || (before.status == StepWaiting <==> after.status == StepWaiting)
  {
    hide Resolve, NextAfter, CanResolve, IsPick, MayResult, MarkBranchFailed;
  }

  lemma MarksNoRetry(change: Change)
    ensures Marks(change) ==> !change.RetryAt? && !change.Wait?
  {
  }

  /** One more commit. */
  lemma CommitUses(m: Machine, row: Row, change: Change, id: string)
    requires CanCommit(m, row, change) && Plausible(MaxRetries(m, id), StepAt(row, id))
    requires row.current == Some(id) ==> !change.Wait?
    ensures var max, before, after := MaxRetries(m, id), StepAt(row, id), StepAt(Commit(m, row, change), id);
      && Plausible(max, after)
      && Used(max, after) == Used(max, before) +
           (if change.RetryAt? && row.current == Some(id) then 1 else 0) +
           (if Marks(change) && Commit(m, row, change).current == Some(id) && 1 <= before.attempt <= max &&
              before.status != StepWaiting then 1 else 0)
  {
    StepKept(m, row, change, id);
    WaitsUntilMarked(m, row, change, id);
    MarksNoRetry(change);
    if change.RetryAt? && row.current == Some(id) {
      RetryNeedsBudget(m, row, change);
    }
    hide CanCommit, Commit, MaxRetries, Marks;
  }

  lemma NewStepIsPlausible(max: nat, id: string)
    ensures Plausible(max, StepAt(NEW_ROW, id)) && Used(max, StepAt(NEW_ROW, id)) == 0
  {
  }

  /** Every attempt but the first is a retry that was scheduled, one that was lost, or a repetition. */
  lemma {:induction false} AttemptsAreAccounted(m: Machine, log: Log, n: nat, id: string)
    requires LogOk(m, log) && n <= |log.changes| && NeverWaits(log, n, id)
    ensures Plausible(MaxRetries(m, id), StepAt(log.rows[n], id))
    ensures Retries(log, n, id) + Lost(m, log, n, id) + Repeats(m, log, n, id) ==
      Used(MaxRetries(m, id), StepAt(log.rows[n], id))
  {
    hide CanCommit, Commit, MaxRetries, Used, Plausible, Marks;
    if n == 0 {
      NewStepIsPlausible(MaxRetries(m, id), id);
    } else {
      AttemptsAreAccounted(m, log, n - 1, id);
      assert FollowsAt(m, log, n - 1);
      CommitUses(m, log.rows[n - 1], log.changes[n - 1], id);
    }
  }

  /** When a step is given up its budget is used up. */
  lemma FailUsesAll(m: Machine, row: Row, change: Change)
    requires CanCommit(m, row, change) && change.Fail?
    ensures row.current.Some?
    ensures var id := row.current.value;
      Used(MaxRetries(m, id), StepAt(row, id)) == MaxRetries(m, id)
  {
    hide IsPick, StepById;
  }

  /** The execution behind a commit that waits is of a delay step; behind a failure it is not. */
  lemma OutcomeKind(m: Machine, log: Log, effect: Effect, row: Row, now: int, change: Change)
    requires Possible(m, log, effect) && Records(m, row, effect.outcome, effect.at, now, change)
    ensures StepById(m.def.steps, effect.step).Some?
    ensures change.Wait? ==> StepById(m.def.steps, effect.step).value.kind.Delay?
    ensures change.Fail? ==> !StepById(m.def.steps, effect.step).value.kind.Delay?
  {
    hide StepById, RetryTime, Previous;
  }

  lemma CommitKind(m: Machine, s: System, j: nat)
    requires Sane(m, s) && j < |s.log.changes| && (s.log.changes[j].Wait? || s.log.changes[j].Fail?)
    ensures |s.log.rows| == |s.log.changes| + 1 && s.log.rows[j].current.Some?
    ensures var step := StepById(m.def.steps, s.log.rows[j].current.value);
      step.Some? && (step.value.kind.Delay? <==> s.log.changes[j].Wait?)
  {
    var e := CauseFacts(m, s, j);
    hide Sane, CanCommit, Commit, Records, StepById, MarkedAt, MayHappen;
    OutcomeKind(m, s.log, s.effects[e], s.log.rows[j], s.times[j + 1], s.log.changes[j]);
  }

  lemma GivenUpNeverWaited(m: Machine, s: System, j: nat)
    requires Sane(m, s) && j < |s.log.changes| && s.log.changes[j].Fail?
    ensures |s.log.rows| == |s.log.changes| + 1 && s.log.rows[j].current.Some?
    ensures NeverWaits(s.log, j, s.log.rows[j].current.value)
  {
    hide Sane, StepById;
    CommitKind(m, s, j);
    var id := s.log.rows[j].current.value;
    forall i: nat | i < j && s.log.rows[i].current == Some(id) ensures !s.log.changes[i].Wait? {
      if s.log.changes[i].Wait? {
        CommitKind(m, s, i);
      }
    }
  }

  /** When a step is given up its retries have all been scheduled, lost or spent on repetitions: whatever the workers did,
      the three add up to `max_retries`. */
  lemma RetriesAreSpent(m: Machine, s: System, j: nat)
    requires Reached(m, s) && j < |s.log.changes| && s.log.changes[j].Fail?
    ensures |s.log.rows| == |s.log.changes| + 1 && s.log.rows[j].current.Some?
    ensures var id := s.log.rows[j].current.value;
      Retries(s.log, j, id) + Lost(m, s.log, j, id) + Repeats(m, s.log, j, id) == MaxRetries(m, id)
  {
    ReachedIsSane(m, s);
    GivenUpNeverWaited(m, s, j);
    assert LogOk(m, s.log);
    assert FollowsAt(m, s.log, j);
    hide Reached, Sane, CanCommit, Commit, MaxRetries, Used, Plausible, NeverWaits;
    AttemptsAreAccounted(m, s.log, j, s.log.rows[j].current.value);
    FailUsesAll(m, s.log.rows[j], s.log.changes[j]);
  }

  lemma {:induction false} NoneLostIff(m: Machine, log: Log, n: nat, id: string)
    ensures Lost(m, log, n, id) == 0 <==> forall k: nat :: k < n ==> !LosesAttempt(m, log, k, id)
    ensures Repeats(m, log, n, id) == 0 <==> forall k: nat :: k < n ==> !RunsAgain(m, log, k, id)
  {
    hide LosesAttempt, RunsAgain;
    if n > 0 {
      NoneLostIff(m, log, n - 1, id);
    }
  }

  /** A step that is given up was granted all its retries if and only if no attempt of it was lost and it never ran again
      after it had ended. */
  lemma AllRetriesGrantedIff(m: Machine, s: System, j: nat)
    requires Reached(m, s) && j < |s.log.changes| && s.log.changes[j].Fail?
    ensures |s.log.rows| == |s.log.changes| + 1 && s.log.rows[j].current.Some?
    ensures var id := s.log.rows[j].current.value;
      Retries(s.log, j, id) == MaxRetries(m, id) <==>
        forall k: nat :: k < j ==> !LosesAttempt(m, s.log, k, id) && !RunsAgain(m, s.log, k, id)
  {
    RetriesAreSpent(m, s, j);
    hide Reached, LosesAttempt, RunsAgain, MaxRetries;
    NoneLostIff(m, s.log, j, s.log.rows[j].current.value);
  }

  /** A step that runs again, while normal steps run, had completed. */
  lemma AgainIsCompleted(def: Definition, row: Row, change: Change, id: string)
    requires RowOk(MachineOf(def), row) && CanCommit(MachineOf(def), row, change) && Normal(row) && Marks(change)
    requires Commit(MachineOf(def), row, change).current == Some(id) && StepAt(row, id).attempt != 0
    requires StepAt(row, id).status !in {StepRunning, StepWaiting}
    ensures change.MarkRun? && id in DoneOf(row.state.steps) && PhaseOf(row).Ready?
    ensures PhaseOf(Commit(MachineOf(def), row, change)) == Active(id)
    ensures Commit(MachineOf(def), row, change).state.completed == row.state.completed
  {
    hide StepById, NextAfter, NormalSteps, CanResolve;
  }

  lemma RecordedIsCompleted(def: Definition, a: Progress, id: string)
    requires Sound(def, a) && a.phase.Ready? && id in a.done
    ensures id in a.completed
  {
    hide ForksOk, StepById, Legit;
  }

  lemma AbsIs(row: Row)
    ensures Abs(row).phase == PhaseOf(row) && Abs(row).completed == row.state.completed
    ensures Normal(row) ==> Abs(row).done == DoneOf(row.state.steps)
  {
    hide DoneOf, PhaseOf;
  }

  /** Before a step is given up, normal steps run. */
  lemma NormalBeforeFail(def: Definition, s: System, k: nat, j: nat)
    requires UniqueIds(def.steps) && Reached(MachineOf(def), s) && k < j < |s.log.changes| && s.log.changes[j].Fail?
    ensures |s.log.rows| == |s.log.changes| + 1 && Normal(s.log.rows[k]) && RowOk(MachineOf(def), s.log.rows[k])
  {
    var m := MachineOf(def);
    ReachedLog(m, s);
    hide Reached, LogOk, CanCommit, Commit, UniqueIds, Run, Events;
    WorkersRefineInterpreter(def, s, k);
    NotTerminalBefore(m, s.log, k);
    if s.log.rows[k].state.queue != [] {
      SagaIsOneWay(m, s.log, k, j + 1);
    }
  }

  lemma NeverRunsAgain(def: Definition, s: System, k: nat, j: nat, id: string)
    requires Disciplined(def) && Separate(def) && LoopFree(def) && Reached(MachineOf(def), s)
    requires k < j < |s.log.changes| && s.log.changes[j].Fail?
    ensures !RunsAgain(MachineOf(def), s.log, k, id)
  {
    hide *;
    var m := MachineOf(def);
    UniqueIdsOf(def);
    ReachedLog(m, s);
    if RunsAgain(m, s.log, k, id) {
      RunsAgainIs(m, s.log, k, id);
      var row, next := s.log.rows[k], s.log.rows[k + 1];
      NormalBeforeFail(def, s, k, j);
      AgainIsCompleted(def, row, s.log.changes[k], id);
      AbsIs(row);
      AbsIs(next);
      ForksStayInOrder(def, s, k);
      RecordedIsCompleted(def, Abs(row), id);
      WorkersRefineInterpreter(def, s, k + 1);
      VisitedOnce(def, Events(s.log, k + 1), Abs(next));
    }
  }

  lemma RunsAgainIs(m: Machine, log: Log, k: nat, id: string)
    requires LogOk(m, log) && RunsAgain(m, log, k, id)
    ensures k < |log.changes| && CanCommit(m, log.rows[k], log.changes[k])
    ensures log.rows[k + 1] == Commit(m, log.rows[k], log.changes[k]) && Marks(log.changes[k])
    ensures log.rows[k + 1].current == Some(id) && StepAt(log.rows[k], id).attempt != 0
    ensures StepAt(log.rows[k], id).status !in {StepRunning, StepWaiting}
  {
    assert FollowsAt(m, log, k);
    hide CanCommit, Commit, Marks, MaxRetries;
  }

  /** Where no step runs twice, the retries that were not scheduled are those lost to marks without an outcome. */
  lemma OnlyLossesCostRetries(def: Definition, s: System, j: nat)
    requires Disciplined(def) && Separate(def) && LoopFree(def) && Reached(MachineOf(def), s)
    requires j < |s.log.changes| && s.log.changes[j].Fail?
    ensures |s.log.rows| == |s.log.changes| + 1 && s.log.rows[j].current.Some?
    ensures var m, id := MachineOf(def), s.log.rows[j].current.value;
      Retries(s.log, j, id) + Lost(m, s.log, j, id) == MaxRetries(m, id)
  {
    var m := MachineOf(def);
    RetriesAreSpent(m, s, j);
    hide Reached, Tame, JoinsApart, Separate, LoopFree, RunsAgain, LosesAttempt, MaxRetries;
    var id := s.log.rows[j].current.value;
    forall k: nat | k < j ensures !RunsAgain(m, s.log, k, id) {
      NeverRunsAgain(def, s, k, j, id);
    }
    NoneLostIff(m, s.log, j, id);
  }
}
