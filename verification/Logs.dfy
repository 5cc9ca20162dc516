/** The history of one instance: every row it ever had, and the commits between them. */
module Logs {
  import opened Workflow
  import opened Machines
  import opened Interpreter
  import opened Rows

  datatype Log = Log(rows: seq<Row>, changes: seq<Change>)

  const NEW_LOG: Log := Log([NEW_ROW], [])

  ghost predicate FollowsAt(m: Machine, log: Log, i: nat)
    requires i < |log.changes| < |log.rows|
  {
    CanCommit(m, log.rows[i], log.changes[i]) && log.rows[i + 1] == Commit(m, log.rows[i], log.changes[i])
  }

  /** Each row but the first is a commit to the one before. */
  ghost predicate LogOk(m: Machine, log: Log) {
    && |log.rows| == |log.changes| + 1 && log.rows[0] == NEW_ROW
    && forall i :: 0 <= i < |log.changes| ==> FollowsAt(m, log, i)
  }

  function Last(log: Log): Row
    requires log.rows != []
  {
    log.rows[|log.rows| - 1]
  }

  ghost function Extended(m: Machine, log: Log, change: Change): Log
    requires log.rows != [] && CanCommit(m, Last(log), change)
  {
    Log(log.rows + [Commit(m, Last(log), change)], log.changes + [change])
  }

  lemma ExtendedOk(m: Machine, log: Log, change: Change)
    requires LogOk(m, log) && CanCommit(m, Last(log), change)
    ensures LogOk(m, Extended(m, log, change))
  {
    hide CanCommit, Commit;
    var longer := Extended(m, log, change);
    forall i | 0 <= i < |longer.changes| ensures FollowsAt(m, longer, i) {
      if i < |log.changes| {
        assert FollowsAt(m, log, i);
      }
    }
  }

  /** The events of the first `n` commits, without those that do not show. */
  function Events(log: Log, n: nat): seq<Event>
    requires n <= |log.changes| && |log.rows| == |log.changes| + 1
  {
    if n == 0 then []
    else
      var e := EventOf(log.rows[n - 1], log.changes[n - 1]);
      Events(log, n - 1) + if e.Some? then [e.value] else []
  }

  /** Whatever the commits were, with those that only mark, wait or retry erased they are a run of the sequential
      interpreter, and the row is what that run makes of the instance. */
  lemma {:induction false} LogRefinesInterpreter(m: Machine, log: Log, n: nat)
    requires MachineOk(m) && LogOk(m, log) && n <= |log.changes|
    ensures RowOk(m, log.rows[n])
    ensures Run(m, Events(log, n), Abs(log.rows[n]))
  {
    hide RowOk, Abs, CanCommit, Commit, EventOf, Enabled, Next, MachineOk;
    if n == 0 {
      NewRowOk(m);
    } else {
      LogRefinesInterpreter(m, log, n - 1);
      assert FollowsAt(m, log, n - 1);
      var row, change := log.rows[n - 1], log.changes[n - 1];
      CommitRefines(m, row, change);
      if EventOf(row, change).Some? {
        RunExtends(m, Events(log, n - 1), Abs(row), EventOf(row, change).value);
      } else {
        assert Events(log, n) == Events(log, n - 1);
      }
    }
  }

  lemma NewRowOk(m: Machine)
    ensures RowOk(m, NEW_ROW) && Run(m, [], Abs(NEW_ROW))
  {
    assert DoneOf(map[]) == map[];
  }

  lemma VersionGrows(m: Machine, row: Row, change: Change)
    requires CanCommit(m, row, change)
    ensures Commit(m, row, change).version == row.version + 1
  {
    hide Resolve, NextAfter, CanResolve, IsPick, MayResult, MarkBranchFailed;
  }

  lemma {:induction false} VersionIsPosition(m: Machine, log: Log, n: nat)
    requires LogOk(m, log) && n < |log.rows|
    ensures log.rows[n].version == n
  {
    hide CanCommit, Commit;
    if n > 0 {
      VersionIsPosition(m, log, n - 1);
      assert FollowsAt(m, log, n - 1);
      VersionGrows(m, log.rows[n - 1], log.changes[n - 1]);
    }
  }

  predicate Marks(change: Change) {
    change.MarkRun? || change.MarkUndo?
  }

  /** One commit: a step keeps its key and its attempts; marking it running adds an attempt. */
  lemma StepKept(m: Machine, row: Row, change: Change, id: string)
    requires CanCommit(m, row, change)
    ensures var before, after := StepAt(row, id), StepAt(Commit(m, row, change), id);
      && before.attempt <= after.attempt
      && (before.key != "" ==> after.key == before.key)
      && (Marks(change) && Commit(m, row, change).current == Some(id) ==>
            after.attempt == before.attempt + 1 && after.status == StepRunning && after.key != "")
      && (!Marks(change) ==> after.attempt == before.attempt)
      && (after.status == StepRunning ==>
            before == after || (Marks(change) && Commit(m, row, change).current == Some(id)))
    ensures Marks(change) ==> Marked(Commit(m, row, change))
  {
    hide Resolve, NextAfter, CanResolve, IsPick, MayResult, MarkBranchFailed;
  }

  /** Once a step has an idempotency key no later commit changes it, and attempts never fall. */
  lemma {:induction false} KeysAndAttemptsLast(m: Machine, log: Log, i: nat, j: nat, id: string)
    requires LogOk(m, log) && i <= j < |log.rows|
    ensures StepAt(log.rows[i], id).key != "" ==> StepAt(log.rows[j], id).key == StepAt(log.rows[i], id).key
    ensures StepAt(log.rows[i], id).attempt <= StepAt(log.rows[j], id).attempt
    decreases j - i
  {
    hide CanCommit, Commit;
    if i < j {
      KeysAndAttemptsLast(m, log, i, j - 1, id);
      assert FollowsAt(m, log, j - 1);
      StepKept(m, log.rows[j - 1], log.changes[j - 1], id);
    }
  }

  /** Commit number `i` marked step `id` running. */
  predicate MarksAt(log: Log, i: int, id: string) {
    && 0 < i < |log.rows| && i <= |log.changes|
    && Marks(log.changes[i - 1]) && log.rows[i].current == Some(id)
  }

  /** Two commits that mark the same step carry different attempts. */
  lemma MarksHaveDistinctAttempts(m: Machine, log: Log, i: int, j: int, id: string)
    requires LogOk(m, log) && MarksAt(log, i, id) && MarksAt(log, j, id) && i < j
    ensures StepAt(log.rows[i], id).attempt < StepAt(log.rows[j], id).attempt
  {
    hide CanCommit, Commit;
    KeysAndAttemptsLast(m, log, i, j - 1, id);
    assert FollowsAt(m, log, j - 1);
    StepKept(m, log.rows[j - 1], log.changes[j - 1], id);
  }

  /** The number of retry waits of step `id` among the first `n` commits. */
  function Retries(log: Log, n: nat, id: string): nat
    requires n <= |log.changes| < |log.rows|
  {
    if n == 0 then 0
    else
      (if log.changes[n - 1].RetryAt? && log.rows[n - 1].current == Some(id) then 1 else 0) + Retries(log, n - 1, id)
  }

  function MaxRetries(m: Machine, id: string): nat {
    var step := StepById(m.def.steps, id);
    if step.Some? && step.value.retry.Some? && step.value.retry.value.maxRetries > 0
    then step.value.retry.value.maxRetries else 0
  }

  lemma RetryNeedsBudget(m: Machine, row: Row, change: Change)
    requires CanCommit(m, row, change) && change.RetryAt?
    ensures row.current.Some? && StepAt(row, row.current.value).status == StepRunning
    ensures StepAt(row, row.current.value).attempt <= MaxRetries(m, row.current.value) ||
      StepAt(row, row.current.value).attempt <= 0
    ensures StepAt(Commit(m, row, change), row.current.value).status == StepWaiting
  {
  }

  /** However many workers crash in between, a step is sent back to wait for a retry at most `max_retries` times. */
  lemma {:induction false} RetriesAreBounded(m: Machine, log: Log, n: nat, id: string)
    requires LogOk(m, log) && n <= |log.changes|
    ensures Retries(log, n, id) <= MaxRetries(m, id)
    ensures Retries(log, n, id) <= StepAt(log.rows[n], id).attempt
    ensures StepAt(log.rows[n], id).status == StepRunning ==> Retries(log, n, id) < StepAt(log.rows[n], id).attempt
  {
    hide CanCommit, Commit, MaxRetries;
    if n > 0 {
      RetriesAreBounded(m, log, n - 1, id);
      assert FollowsAt(m, log, n - 1);
      var row, change := log.rows[n - 1], log.changes[n - 1];
      StepKept(m, row, change, id);
      if change.RetryAt? && row.current == Some(id) {
        RetryNeedsBudget(m, row, change);
      }
    }
  }

  /** The number of compensations that succeeded in the commits from `i` up to `j`. */
  function Undos(log: Log, i: nat, j: nat): nat
    requires i <= j <= |log.changes|
    decreases j - i
  {
    if i == j then 0 else (if log.changes[j - 1].UndoDone? then 1 else 0) + Undos(log, i, j - 1)
  }

  predicate UndoChange(change: Change) {
    change.Wait? || change.MarkUndo? || change.UndoDone? || change.UndoFailed? || change.UndoMissing?
  }

  lemma SagaStep(m: Machine, row: Row, change: Change)
    requires CanCommit(m, row, change) && row.state.queue != []
    ensures var next := Commit(m, row, change);
      && UndoChange(change) && !next.status.InstCompleted?
      && next.state.queue == (if change.UndoDone? then row.state.queue[1..] else row.state.queue)
      && (next.state.queue == [] ==> next.status.InstFailed?)
      && (change.UndoDone? ==> row.current == Some(row.state.queue[0]))
  {
    hide Resolve, NextAfter, CanResolve, IsPick, MayResult;
  }

  /** From the first commit with a compensation queue on, no normal step runs, the queue is what is left of the first
      one after as many heads as compensations succeeded, and the instance can end only as failed. */
  lemma {:induction false} SagaIsOneWay(m: Machine, log: Log, i: nat, j: nat)
    requires LogOk(m, log) && i <= j < |log.rows| && log.rows[i].state.queue != []
    ensures forall k :: i <= k < j ==> UndoChange(log.changes[k])
    ensures Undos(log, i, j) <= |log.rows[i].state.queue|
    ensures log.rows[j].state.queue == log.rows[i].state.queue[Undos(log, i, j)..]
    ensures j > i ==> !log.rows[j].status.InstCompleted?
    ensures j > i && log.rows[j].state.queue == [] ==> log.rows[j].status.InstFailed?
    ensures j > i && log.changes[j - 1].UndoDone? ==>
      log.rows[j - 1].current == Some(log.rows[i].state.queue[Undos(log, i, j) - 1])
    decreases j - i
  {
    hide CanCommit, Commit;
    if i < j {
      SagaIsOneWay(m, log, i, j - 1);
      assert FollowsAt(m, log, j - 1);
      NotTerminalBefore(m, log, j - 1);
      SagaStep(m, log.rows[j - 1], log.changes[j - 1]);
    }
  }

  lemma NotTerminalBefore(m: Machine, log: Log, i: nat)
    requires LogOk(m, log) && i < |log.changes|
    ensures !Terminal(log.rows[i])
  {
    hide Commit;
    assert FollowsAt(m, log, i);
  }
}
