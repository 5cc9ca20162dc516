/** Timers only wake an instance up; what keeps it from running too early is the waiting time in its own row. */
module Waiting {
  import opened Workflow
  import opened Machines
  import opened Interpreter
  import opened Rows
  import opened Logs
  import opened Workers
  import opened Safety
  import opened Ledger
  import opened Guarantees
  import Retry

  /** No execution starts before the waiting time in the row its worker claimed: if that row waits, its step has such a time,
      and it has come. */
  lemma NoEarlyWake(m: Machine, s: System, e: nat)
    requires Reached(m, s) && e < |s.effects|
    ensures 0 < s.effects[e].version < |s.log.rows|
    ensures var row := s.log.rows[s.effects[e].version - 1];
      row.status == InstWaiting ==>
        row.current.Some? && row.current.value in row.state.steps &&
        row.state.steps[row.current.value].waitingTime.Some? &&
        row.state.steps[row.current.value].waitingTime.value <= s.effects[e].at
  {
    ReachedIsSane(m, s);
    EffectFacts(m, s, e);
    hide Reached, Sane, LogOk, WaitsFor, Possible, WaitIsOver;
    WaitingRowsHaveTimes(m, s.log, s.effects[e].version - 1);
    if s.log.rows[s.effects[e].version - 1].status == InstWaiting {
      OverIsPast(s.log.rows[s.effects[e].version - 1], s.times[s.effects[e].version]);
    }
  }

  lemma OverIsPast(row: Row, now: int)
    requires WaitIsOver(row, now) && row.status == InstWaiting && HasWaitingTime(row)
    ensures row.state.steps[row.current.value].waitingTime.value <= now
  {
  }

  predicate HasWaitingTime(row: Row) {
    row.status == InstWaiting ==>
      row.current.Some? && row.current.value in row.state.steps && row.state.steps[row.current.value].waitingTime.Some?
  }

  /** A row waits only for a time. */
  lemma WaitingRowsHaveTimes(m: Machine, log: Log, i: nat)
    requires LogOk(m, log) && i < |log.rows|
    ensures HasWaitingTime(log.rows[i])
  {
    if i > 0 {
      assert FollowsAt(m, log, i - 1);
      hide CanCommit, Commit, LogOk, HasWaitingTime;
      WaitingHasTime(m, log.rows[i - 1], log.changes[i - 1]);
    }
  }

  lemma WaitingHasTime(m: Machine, row: Row, change: Change)
    requires CanCommit(m, row, change)
    ensures HasWaitingTime(Commit(m, row, change))
  {
    hide StepById, Resolve, CanResolve, NextAfter, IsPick, MayResult, CanPick, MarkBranchFailed;
  }

  /** Only a commit that begins something goes to a waiting instance. */
  lemma WaitingNeedsBegin(m: Machine, row: Row, change: Change)
    requires CanCommit(m, row, change)
    requires row.current.Some? && StepAt(row, row.current.value).status == StepWaiting
    ensures BeginsWith(change)
  {
    hide CanResolveRow, ResolvedRow, StepById, HasRetry, IsPick, MayResult, CanPick;
  }

  lemma WaitChangeWaits(m: Machine, row: Row, change: Change)
    requires CanCommit(m, row, change) && (change.Wait? || change.RetryAt?)
    ensures var next := Commit(m, row, change);
      && next.status.InstWaiting? && row.current.Some? && next.current == row.current
      && StepAt(next, next.current.value).status == StepWaiting
      && StepAt(next, next.current.value).waitingTime == Some(change.fireAt)
      && WaitsFor(next) == Some(change.fireAt)
  {
    hide StepById, HasRetry;
  }

  /** An outcome was recorded after an execution that came after the commit it belongs to. */
  lemma CauseFacts(m: Machine, s: System, j: nat) returns (e: nat)
    requires Sane(m, s) && j < |s.log.changes| && !BeginsWith(s.log.changes[j])
    ensures |s.log.rows| == |s.log.changes| + 1 == |s.times| && FollowsAt(m, s.log, j)
    ensures Caused(m, s, j, e) && EffectOk(m, s, s.effects[e])
    ensures s.times[j] <= s.effects[e].at <= s.times[j + 1]
  {
    hide PassedOk, HoldersOk, HistoryOk, KeysOk, LeaseOk, CanCommit, Commit, Possible, MarkedAt, Records, BeginsWith;
    e :| Caused(m, s, j, e);
  }

  /** A retry waits for the backoff of the failed attempt, counted from a moment between its only execution `e` and the
      commit of the wait; it begins no sooner. */
  lemma RetryWaitsForBackoff(m: Machine, s: System, j: nat) returns (e: nat)
    requires Reached(m, s) && j + 1 < |s.log.changes| && s.log.changes[j].RetryAt?
    ensures |s.times| == |s.log.rows| == |s.log.changes| + 1
    ensures e < |s.effects| && s.effects[e].version == j && s.effects[e].outcome.Failure?
    ensures forall f :: 0 <= f < |s.effects| && f != e ==> s.effects[f].version != j
    ensures s.times[j] <= s.effects[e].at <= s.times[j + 1]
    ensures s.log.rows[j].current == Some(s.effects[e].step)
    ensures var id := s.effects[e].step;
      && StepById(m.def.steps, id).Some? && StepById(m.def.steps, id).value.retry.Some? && id in s.log.rows[j].state.steps
      && var delay := Retry.Delay(StepById(m.def.steps, id).value.retry.value, s.log.rows[j].state.steps[id].attempt);
         && s.effects[e].at + delay <= s.log.changes[j].fireAt <= s.times[j + 1] + delay
         && s.log.changes[j].fireAt <= s.times[j + 2]
  {
    ReachedIsSane(m, s);
    e := CauseFacts(m, s, j);
    OnlyExecution(m, s, e);
    assert FollowsAt(m, s.log, j + 1) && PassedOk(s);
    hide Reached, Sane, EffectOk, StepById, Retry.Delay, MayHappen, Base, CanCommit, Commit, InUndo;
    var row := s.log.rows[j];
    WaitChangeWaits(m, row, s.log.changes[j]);
    WaitingNeedsBegin(m, s.log.rows[j + 1], s.log.changes[j + 1]);
    assert BegunAt(s.log, j + 2) && WaitedAt(s, j + 2);
    var effect := s.effects[e];
    assert Possible(m, s.log, effect) by { EffectIsPossible(m, s, effect); }
    RetryRecordsFailure(m, row, effect.outcome, effect.at, s.times[j + 1], s.log.changes[j]);
  }

  /** A step that waits for its timer is a delay that its only execution `e` told to wait until then: if it had not waited
      before, or is a compensation, for its duration; else for what was left. */
  lemma WaitIsTold(m: Machine, s: System, j: nat) returns (e: nat)
    requires Reached(m, s) && j < |s.log.changes| && s.log.changes[j].Wait?
    ensures |s.times| == |s.log.rows| == |s.log.changes| + 1
    ensures e < |s.effects| && s.effects[e].version == j
    ensures forall f :: 0 <= f < |s.effects| && f != e ==> s.effects[f].version != j
    ensures s.times[j] <= s.effects[e].at <= s.times[j + 1] && s.log.rows[j].current == Some(s.effects[e].step)
    ensures s.effects[e].outcome == WaitingUntil(s.log.changes[j].fireAt)
    ensures j > 0 && StepById(m.def.steps, s.effects[e].step).Some?
    ensures var step, before := StepById(m.def.steps, s.effects[e].step).value, s.log.rows[j - 1];
      && step.kind.Delay?
      && s.log.changes[j].fireAt ==
           if s.log.rows[j].status != InstCompensating && s.log.rows[j].state.queue == [] && s.effects[e].step in before.state.steps
             && before.state.steps[s.effects[e].step].status == StepWaiting
             && before.state.steps[s.effects[e].step].waitingTime.Some?
           then before.state.steps[s.effects[e].step].waitingTime.value
           else s.effects[e].at + step.config.duration
  {
    ReachedIsSane(m, s);
    e := CauseFacts(m, s, j);
    OnlyExecution(m, s, e);
    hide Reached, Sane, EffectOk, StepById, CanCommit, Commit;
    EffectIsPossible(m, s, s.effects[e]);
  }

  lemma OnlyExecution(m: Machine, s: System, e: nat)
    requires Sane(m, s) && e < |s.effects|
    ensures forall f :: 0 <= f < |s.effects| && f != e ==> s.effects[f].version != s.effects[e].version
  {
    hide EffectOk, HasItsEffect, Base, PassedOk, HoldersOk, HistoryOk, CausesOk, KeysOk, LeaseOk, HistoryTrue;
  }

  lemma EffectIsPossible(m: Machine, s: System, effect: Effect)
    requires EffectOk(m, s, effect)
    ensures Possible(m, s.log, effect)
  {
    hide Possible, MarkedAt;
  }

  lemma RetryRecordsFailure(m: Machine, row: Row, outcome: StepOutcome, at: int, now: int, change: Change)
    requires Records(m, row, outcome, at, now, change) && change.RetryAt?
    ensures row.current.Some? && RetryTime(m, row, row.current.value, at, now, change.fireAt) && outcome.Failure?
  {
  }

  /** From its first start on, a delay step waits for its whole duration, also when a crash armed it again. */
  predicate WaitsAtLeast(row: Row, id: string, until: int) {
    StepAt(row, id).status == StepWaiting ==>
      StepAt(row, id).waitingTime.Some? && StepAt(row, id).waitingTime.value >= until
  }

  /** A commit leaves the waiting time of a step alone, or makes the step wait for the given time. */
  lemma WaitingChange(m: Machine, row: Row, change: Change, id: string)
    requires CanCommit(m, row, change)
    requires StepAt(Commit(m, row, change), id).status == StepWaiting
    ensures StepAt(Commit(m, row, change), id) == StepAt(row, id) ||
      ((change.Wait? || change.RetryAt?) && row.current == Some(id) &&
       StepAt(Commit(m, row, change), id).waitingTime == Some(change.fireAt))
  {
    hide Resolve, NextAfter, CanResolve, IsPick, MayResult, MarkBranchFailed;
  }

  /** What the execution of a delay step that was not yet over can have come to. */
  lemma DelayOutcome(m: Machine, s: System, j: nat, e: nat, id: string, until: int)
    requires Caused(m, s, j, e) && EffectOk(m, s, s.effects[e]) && s.log.rows[j].current == Some(id)
    requires StepById(m.def.steps, id).Some? && StepById(m.def.steps, id).value.kind.Delay?
    requires s.effects[e].at + StepById(m.def.steps, id).value.config.duration >= until
    requires InUndo(s.log.rows[j]) || WaitsAtLeast(s.log.rows[j - 1], id, until)
    ensures !s.log.changes[j].RetryAt?
    ensures s.log.changes[j].Wait? ==> s.log.changes[j].fireAt >= until
    ensures s.log.changes[j].Succeed? ==> s.effects[e].at >= until
  {
    hide StepById, MarkedAt, RetryTime;
  }

  /** The rows between the first start and commit `j` keep the whole duration. */
  lemma {:induction false} DelayKeepsWaiting(m: Machine, s: System, i: nat, j: nat, id: string)
    requires Sane(m, s) && MarksAt(s.log, i, id) && i <= j < |s.log.rows| == |s.times|
    requires StepAt(s.log.rows[i - 1], id).status != StepWaiting
    requires StepById(m.def.steps, id).Some? && StepById(m.def.steps, id).value.kind.Delay?
    ensures WaitsAtLeast(s.log.rows[j], id, s.times[i] + StepById(m.def.steps, id).value.config.duration)
    decreases j - i
  {
    var until := s.times[i] + StepById(m.def.steps, id).value.config.duration;
    assert LogOk(m, s.log) && TimesOk(s);
    if i == j {
      assert FollowsAt(m, s.log, i - 1);
      hide Sane, CanCommit, Commit, StepById, LogOk, TimesOk;
      StepKept(m, s.log.rows[i - 1], s.log.changes[i - 1], id);
    } else {
      assert FollowsAt(m, s.log, j - 1) && s.times[i] <= s.times[j - 1];
      DelayKeepsWaiting(m, s, i, j - 1, id);
      hide Sane, CanCommit, Commit, StepById, LogOk, TimesOk;
      if StepAt(s.log.rows[j], id).status == StepWaiting {
        WaitingChange(m, s.log.rows[j - 1], s.log.changes[j - 1], id);
        if StepAt(s.log.rows[j], id) != StepAt(s.log.rows[j - 1], id) {
          var e := CauseFacts(m, s, j - 1);
          DelayKeepsWaitingBefore(m, s, i, j - 1, id);
          DelayOutcome(m, s, j - 1, e, id, until);
        }
      }
    }
  }

  lemma {:induction false} DelayKeepsWaitingBefore(m: Machine, s: System, i: nat, j: nat, id: string)
    requires Sane(m, s) && MarksAt(s.log, i, id) && i <= j < |s.log.rows| == |s.times|
    requires StepAt(s.log.rows[i - 1], id).status != StepWaiting
    requires StepById(m.def.steps, id).Some? && StepById(m.def.steps, id).value.kind.Delay?
    ensures WaitsAtLeast(s.log.rows[j - 1], id, s.times[i] + StepById(m.def.steps, id).value.config.duration)
    decreases j - i, 0
  {
    hide Sane, StepById;
    if i < j {
      DelayKeepsWaiting(m, s, i, j - 1, id);
    }
  }

  /** Commit `j` records that step `id` of the normal path succeeded. */
  predicate SucceedsAt(log: Log, j: int, id: string) {
    0 <= j < |log.changes| && j < |log.rows| && log.changes[j].Succeed? && log.rows[j].current == Some(id)
  }

  /** A delay step of the normal path completes no sooner than its duration after its first start. */
  lemma DelayLastsItsDuration(m: Machine, s: System, i: nat, j: nat, id: string)
    requires Reached(m, s) && MarksAt(s.log, i, id) && i <= j
    requires StepAt(s.log.rows[i - 1], id).status != StepWaiting
    requires StepById(m.def.steps, id).Some? && StepById(m.def.steps, id).value.kind.Delay?
    requires SucceedsAt(s.log, j, id)
    ensures |s.times| == |s.log.rows| == |s.log.changes| + 1
    ensures s.times[j + 1] >= s.times[i] + StepById(m.def.steps, id).value.config.duration
  {
    ReachedIsSane(m, s);
    assert TimesOk(s);
    hide Reached;
    var e := CauseFacts(m, s, j);
    assert s.times[i] <= s.times[j];
    hide Sane, CanCommit, Commit, StepById, LogOk, TimesOk;
    DelayKeepsWaitingBefore(m, s, i, j, id);
    DelayOutcome(m, s, j, e, id, s.times[i] + StepById(m.def.steps, id).value.config.duration);
  }
}
