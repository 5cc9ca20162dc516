/** What each commit changes in the row, field by field, and what it leaves alone. */
module CommitLaws {
  import opened Workflow
  import opened Regions
  import opened Machines
  import opened MachineLaws
  import opened Saga
  import opened Interpreter
  import opened Rows
  import opened Logs

  /** No step but `id` has another state than before. */
  ghost predicate OnlyStep(before: State, after: State, id: string) {
    && (forall other :: other != id ==> (other in after.steps <==> other in before.steps))
    && (forall other :: other != id && other in before.steps && other in after.steps ==>
          after.steps[other] == before.steps[other])
  }

  /** The state of a step: status and waiting time as given, and attempt and key those it had, or none. */
  predicate HasState(before: State, after: State, id: string, status: StepStatus, more: int, waiting: Option<int>) {
    && id in after.steps && after.steps[id].status == status && after.steps[id].waitingTime == waiting
    && after.steps[id].attempt == more + (if id in before.steps then before.steps[id].attempt else 0)
    && (id in before.steps && before.steps[id].key != "" ==> after.steps[id].key == before.steps[id].key)
  }

  /** A step is listed as completed once, at the end if it was not listed before. */
  predicate ListsOnce(before: seq<string>, after: seq<string>, id: string) {
    if id in before then after == before else |after| == |before| + 1 && after[..|before|] == before && after[|before|] == id
  }

  /** The step that is marked: its attempt goes up, it runs, and it has a key, the new one if it had none. */
  lemma MarkLaw(m: Machine, row: Row, change: Change)
    requires CanCommit(m, row, change) && (change.MarkRun? || change.MarkUndo?)
    ensures var next := Commit(m, row, change);
      && next.current.Some? && next.version == row.version + 1
      && next.status == (if change.MarkRun? then InstRunning else InstCompensating)
      && next.state.completed == row.state.completed && next.state.queue == row.state.queue
      && OnlyStep(row.state, next.state, next.current.value)
      && HasState(row.state, next.state, next.current.value, StepRunning, 1, None)
      && (next.current.value !in row.state.steps || row.state.steps[next.current.value].key == "" ==>
            next.state.steps[next.current.value].key == change.key)
    ensures var next := Commit(m, row, change);
      && (change.MarkUndo? ==>
            row.state.queue != [] && next.current == Some(row.state.queue[0]) && next.state.forks == row.state.forks)
      && (change.MarkRun? ==>
            ValidPick(row.state.forks, change.pick) &&
            var move := Resolve(m, DoneOf(row.state.steps), row.state.forks, row.current, change.pick);
            move.step.Some? && next.current == Some(move.step.value.id) && next.state.forks == move.forks)
  {
    hide Resolve, CanResolve, StepById;
  }

  /** A step that succeeded: it is completed and listed, and the instance stands where the machine goes on. */
  lemma SucceedLaw(m: Machine, row: Row, change: Change)
    requires CanCommit(m, row, change) && change.Succeed? && row.current.Some?
    requires StepById(m.def.steps, row.current.value).Some? && StepById(m.def.steps, row.current.value).value.id == row.current.value
    ensures var id, next := row.current.value, Commit(m, row, change);
      && id in row.state.steps && row.state.steps[id].status == StepRunning && ValidPick(row.state.forks, change.pick)
      && var move := NextAfter(m, StepById(m.def.steps, id).value, row.state.forks, change.result.next, change.pick);
      && next.version == row.version + 1 && next.state.queue == row.state.queue && next.state.forks == move.forks
      && OnlyStep(row.state, next.state, id) && HasState(row.state, next.state, id, StepCompleted, 0, None)
      && next.state.steps[id].outputNext == change.result.outputNext
      && ListsOnce(row.state.completed, next.state.completed, id)
      && (if move.step.None? then next.status.InstCompleted? && next.current.None?
          else next.status.InstRunning? && next.current == Some(move.step.value.id))
  {
    assert Commit(m, row, change).state.completed == AppendNew(row.state.completed, row.current.value);
    hide NextAfter, MayResult, CanPick, StepById;
  }

  /** A step that waits, for its timer or for a retry: nothing else changes. */
  lemma WaitLaw(m: Machine, row: Row, change: Change)
    requires CanCommit(m, row, change) && (change.Wait? || change.RetryAt?)
    ensures row.current.Some? && row.current.value in row.state.steps
    ensures var id, next := row.current.value, Commit(m, row, change);
      && row.state.steps[id].status == StepRunning
      && next.status.InstWaiting? && next.current == row.current && next.version == row.version + 1
      && next.state.completed == row.state.completed && next.state.queue == row.state.queue
      && next.state.forks == row.state.forks
      && OnlyStep(row.state, next.state, id) && HasState(row.state, next.state, id, StepWaiting, 0, Some(change.fireAt))
  {
    hide StepById;
  }

  /** Branch `i` of fork `f` has failed, and the fork with it; every other branch and fork is as it was. */
  predicate FailedIn(before: Forks, after: Forks, f: string, i: int) {
    && after.Keys == before.Keys && f in before && (forall g :: g in before && g != f ==> after[g] == before[g])
    && after[f].status == ForkFailed && after[f].join == before[f].join && |after[f].branches| == |before[f].branches|
    && 0 <= i < |before[f].branches| && after[f].branches[i].status == BranchFailed
    && after[f].branches[i].start == before[f].branches[i].start
    && after[f].branches[i].current == before[f].branches[i].current
    && after[f].branches[i].completed == before[f].branches[i].completed
    && (forall j :: 0 <= j < |before[f].branches| && j != i ==> after[f].branches[j] == before[f].branches[j])
  }

  /** A failing step takes a branch that runs it along, if there is one; else the forks stay as they are. */
  ghost predicate FailsOneBranch(before: Forks, after: Forks, id: string) {
    if exists f, i :: StandsAt(before, f, i, id) then exists f, i :: StandsAt(before, f, i, id) && FailedIn(before, after, f, i)
    else after == before
  }

  lemma MarkFailedLaw(forks: Forks, id: string, pick: Pick)
    requires ValidPick(forks, pick) && IsPick(forks, id, pick)
    ensures FailsOneBranch(forks, MarkBranchFailed(forks, pick), id)
  {
    var after := MarkBranchFailed(forks, pick);
    assert forall f, i :: StandsAt(forks, f, i, id) <==> RunsStep(forks, f, i, id);
    if pick.InBranch? {
      assert StandsAt(forks, pick.fork, pick.index, id);
      assert FailedIn(forks, after, pick.fork, pick.index);
    }
  }

  /** The same for the interpreter. */
  lemma GiveUpLaw(m: Machine, a: Progress, pick: Pick)
    requires Enabled(m, a, GiveUp(pick))
    ensures a.phase.Active? && FailsOneBranch(a.forks, Next(m, a, GiveUp(pick)).forks, a.phase.step)
  {
    hide IsPick, CompensationQueue, MarkBranchFailed, FailsOneBranch;
    MarkFailedLaw(a.forks, a.phase.step, pick);
  }

  lemma FailForks(m: Machine, row: Row, change: Change)
    requires CanCommit(m, row, change) && change.Fail?
    ensures row.current.Some? && FailsOneBranch(row.state.forks, Commit(m, row, change).state.forks, row.current.value)
  {
    hide StepById, IsPick, CompensationQueue, MarkBranchFailed, FailsOneBranch;
    MarkFailedLaw(row.state.forks, row.current.value, change.pick);
  }

  /** A step given up: its branch fails, and the instance compensates or fails. */
  lemma FailLaw(m: Machine, row: Row, change: Change)
    requires CanCommit(m, row, change) && change.Fail?
    ensures row.current.Some? && row.current.value in row.state.steps
    ensures var id, next := row.current.value, Commit(m, row, change);
      && row.state.steps[id].status == StepRunning && row.state.queue == []
      && next.version == row.version + 1 && next.state.completed == row.state.completed
      && OnlyStep(row.state, next.state, id) && HasState(row.state, next.state, id, StepFailed, 0, None)
      && FailsOneBranch(row.state.forks, next.state.forks, id)
      && (if next.state.queue == [] then next.status.InstFailed? && next.current.None?
          else next.status.InstCompensating? && next.current == Some(next.state.queue[0]))
  {
    FailForks(m, row, change);
    hide StepById, IsPick, CompensationQueue, MarkBranchFailed, FailsOneBranch;
  }

  /** Step `id` names the compensation `t`. */
  predicate IsUndoneBy(def: Definition, id: string, t: string) {
    t != "" && exists k :: 0 <= k < |def.steps| && def.steps[k].id == id && def.steps[k].onFailure == t
  }

  lemma UndoneByLaw(def: Definition, id: string, t: string)
    requires UniqueIds(def.steps)
    ensures IsUndoneBy(def, id, t) <==> t != "" && Target(def, id) == t
  {
    if k :| 0 <= k < |def.steps| && def.steps[k].id == id {
      StepByIdUnique(def.steps, k);
    }
    hide UniqueIds;
  }

  /** What is compensated when a step is given up: all steps completed so far and the step itself, as far as they name a
      compensation. Each is in the queue once, in the order of the last completion among the steps that name it, latest first;
      the step given up counts as the latest. `last` tells those places. */
  lemma FailQueueLaw(def: Definition, row: Row, change: Change) returns (last: seq<int>)
    requires UniqueIds(def.steps) && CanCommit(MachineOf(def), row, change) && change.Fail?
    ensures row.current.Some?
    ensures var queue := Commit(MachineOf(def), row, change).state.queue;
      var ended := row.state.completed + [row.current.value];
      && |last| == |queue|
      && (forall t :: t in queue <==> exists k :: 0 <= k < |ended| && IsUndoneBy(def, ended[k], t))
      && (forall i :: 0 <= i < |queue| ==>
            0 <= last[i] < |ended| && IsUndoneBy(def, ended[last[i]], queue[i]) &&
            forall k :: last[i] < k < |ended| ==> !IsUndoneBy(def, ended[k], queue[i]))
      && (forall i, j :: 0 <= i < j < |queue| ==> last[i] > last[j] && queue[i] != queue[j])
  {
    FailQueueIs(MachineOf(def), row, change);
    hide CanCommit, Commit, UniqueIds, IsUndoneBy, CompensationQueue, Target, NormalSteps;
    var ended := row.state.completed + [row.current.value];
    last := CompensationQueueLaw(def, row.current.value, row.state.completed);
    forall k: nat, t | k < |ended| ensures IsUndoneBy(def, ended[k], t) <==> t != "" && Target(def, ended[k]) == t {
      UndoneByLaw(def, ended[k], t);
    }
  }

  lemma FailQueueIs(m: Machine, row: Row, change: Change)
    requires CanCommit(m, row, change) && change.Fail?
    ensures row.current.Some?
    ensures Commit(m, row, change).state.queue == CompensationQueue(m.def, row.current.value, row.state.completed)
  {
    hide StepById, IsPick, CompensationQueue, MarkBranchFailed;
  }

  /** A failed attempt waits for a retry if and only if the policy still grants one: the step has a policy, and the attempt
      is at most its `max_retries`. Else it is given up. */
  lemma RetryOrFailLaw(m: Machine, row: Row, fireAt: int, pick: Pick)
    requires CanCommit(m, row, RetryAt(fireAt)) || CanCommit(m, row, Fail(pick))
    ensures row.current.Some? && row.current.value in row.state.steps && StepById(m.def.steps, row.current.value).Some?
    ensures var step := StepById(m.def.steps, row.current.value).value;
      CanCommit(m, row, RetryAt(fireAt)) <==>
        step.retry.Some? && row.state.steps[row.current.value].attempt <= step.retry.value.maxRetries
    ensures !(CanCommit(m, row, RetryAt(fireAt)) && CanCommit(m, row, Fail(pick)))
  {
    hide StepById, IsPick;
  }

  /** A compensation that succeeded: it is completed and listed, and off the queue; the last one leaves the instance failed. */
  lemma UndoneLaw(m: Machine, row: Row, change: Change)
    requires CanCommit(m, row, change) && change.UndoDone?
    ensures row.state.queue != [] && row.current == Some(row.state.queue[0])
    ensures var id, next := row.state.queue[0], Commit(m, row, change);
      && id in row.state.steps && row.state.steps[id].status == StepRunning
      && next.version == row.version + 1 && next.state.forks == row.state.forks
      && next.state.queue == row.state.queue[1..]
      && OnlyStep(row.state, next.state, id) && HasState(row.state, next.state, id, StepCompleted, 0, None)
      && next.state.steps[id].outputNext == change.result.outputNext
      && ListsOnce(row.state.completed, next.state.completed, id)
      && (if |row.state.queue| == 1 then next.status.InstFailed? && next.current.None?
          else next.status.InstCompensating? && next.current == Some(row.state.queue[1]))
  {
    hide StepById;
  }

  /** A new instance is pending and stands nowhere; nothing has happened to it. */
  lemma NewLaw()
    ensures NEW_ROW.status == InstPending && NEW_ROW.current.None? && NEW_ROW.version == 0
    ensures NEW_ROW.state.steps == map[] && NEW_ROW.state.completed == [] && NEW_ROW.state.queue == []
    ensures NEW_ROW.state.forks == map[]
  {
  }

  /** The ends: the machine has no step, or the first compensation failed or is unknown. The instance has its status and no
      current step; of its state, only a normal end changes the forks. */
  lemma EndLaw(m: Machine, row: Row, change: Change)
    requires CanCommit(m, row, change) && (change.NoStep? || change.UndoFailed? || change.UndoMissing?)
    ensures var next := Commit(m, row, change);
      && next.current.None? && next.version == row.version + 1
      && next.status == (if change.NoStep? then InstCompleted else InstFailed)
      && next.state.steps == row.state.steps && next.state.completed == row.state.completed
      && next.state.queue == row.state.queue && (!change.NoStep? ==> next.state.forks == row.state.forks)
    ensures change.NoStep? ==>
      ValidPick(row.state.forks, change.pick) &&
      Resolve(m, DoneOf(row.state.steps), row.state.forks, row.current, change.pick).step.None?
    ensures change.UndoMissing? ==>
      row.state.queue == [] || forall k :: 0 <= k < |m.def.steps| ==> m.def.steps[k].id != row.state.queue[0]
    ensures change.UndoFailed? ==>
      row.state.queue != [] && row.current == Some(row.state.queue[0]) && row.state.queue[0] in row.state.steps &&
      row.state.steps[row.state.queue[0]].status == StepRunning
  {
    hide StepById, Resolve, CanResolve;
  }

  /** Nothing is committed to an instance that has completed or failed. */
  lemma EndedLaw(m: Machine, row: Row, change: Change)
    requires row.status == InstCompleted || row.status == InstFailed
    ensures !CanCommit(m, row, change)
  {
  }

  /** While an instance compensates, or has a queue, no normal step is marked or finished; otherwise nothing compensates. */
  lemma PhaseLaw(m: Machine, row: Row, change: Change)
    requires CanCommit(m, row, change)
    ensures (row.status == InstCompensating || row.state.queue != []) <==>
      change.MarkUndo? || change.UndoDone? || change.UndoFailed? || change.UndoMissing? ||
      (change.Wait? && (row.status == InstCompensating || row.state.queue != []))
  {
    hide StepById, CanResolve, Resolve, IsPick, MayResult, CanPick;
  }

  /** The completed steps of an instance are listed in the order in which they first completed: the list only grows, at its
      end. */
  lemma {:induction false} CompletedOnlyGrows(m: Machine, log: Log, i: nat, j: nat)
    requires LogOk(m, log) && i <= j < |log.rows|
    ensures |log.rows[i].state.completed| <= |log.rows[j].state.completed|
    ensures log.rows[j].state.completed[..|log.rows[i].state.completed|] == log.rows[i].state.completed
    decreases j - i
  {
    hide CanCommit, Commit;
    if i < j {
      CompletedOnlyGrows(m, log, i, j - 1);
      assert FollowsAt(m, log, j - 1);
      CompletedGrows(m, log.rows[j - 1], log.changes[j - 1]);
    }
  }

  lemma CompletedGrows(m: Machine, row: Row, change: Change)
    requires CanCommit(m, row, change)
    ensures var next := Commit(m, row, change).state.completed;
      |row.state.completed| <= |next| && next[..|row.state.completed|] == row.state.completed
  {
    hide StepById, Resolve, CanResolve, NextAfter, IsPick, MayResult, CanPick, CompensationQueue, MarkBranchFailed;
  }
}
