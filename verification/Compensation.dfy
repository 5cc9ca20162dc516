/** A saga that runs to its end: from the failure of a step to the failed instance with nothing left to compensate. */
module Compensation {
  import opened Workflow
  import opened Machines
  import opened Saga
  import opened Interpreter
  import opened Rows
  import opened Logs
  import opened Workers
  import opened Safety
  import opened Ledger
  import opened Guarantees
  import opened Waiting
  import opened Refinement

  /** The commits from `i` up to `n` at which a compensation succeeded. */
  ghost predicate SuccessesAre(log: Log, i: nat, n: nat, at: seq<nat>, queue: seq<string>) {
    && |at| <= |queue| && n <= |log.changes| < |log.rows|
    && (forall x :: 0 <= x < |at| ==>
          i <= at[x] < n && log.changes[at[x]].UndoDone? && log.rows[at[x]].current == Some(queue[x]))
    && (forall x, y :: 0 <= x < y < |at| ==> at[x] < at[y])
    && (forall k :: i <= k < n && log.changes[k].UndoDone? ==> k in at)
  }

  /** They take the steps off the queue one after the other. */
  lemma {:induction false} SuccessesInOrder(m: Machine, log: Log, i: nat, n: nat) returns (at: seq<nat>)
    requires LogOk(m, log) && i <= n < |log.rows| && log.rows[i].state.queue != []
    ensures |at| == Undos(log, i, n) <= |log.rows[i].state.queue| && SuccessesAre(log, i, n, at, log.rows[i].state.queue)
    decreases n - i
  {
    LogIsLong(m, log);
    hide LogOk, SuccessesAre, UndoChange, Undos;
    SagaIsOneWay(m, log, i, n);
    UndosSoFar(log, i, n);
    var queue := log.rows[i].state.queue;
    if i == n {
      at := [];
      NoSuccessYet(log, i, queue);
    } else {
      at := SuccessesInOrder(m, log, i, n - 1);
      OneMoreCommit(log, i, n, at, queue);
      if log.changes[n - 1].UndoDone? {
        at := at + [n - 1];
      }
    }
  }

  lemma UndosSoFar(log: Log, i: nat, n: nat)
    requires i <= n <= |log.changes|
    ensures Undos(log, i, n) ==
      if i == n then 0 else (if log.changes[n - 1].UndoDone? then 1 else 0) + Undos(log, i, n - 1)
  {
  }

  lemma NoSuccessYet(log: Log, i: nat, queue: seq<string>)
    requires i <= |log.changes| < |log.rows|
    ensures SuccessesAre(log, i, i, [], queue)
  {
  }

  lemma OneMoreCommit(log: Log, i: nat, n: nat, at: seq<nat>, queue: seq<string>)
    requires i < n <= |log.changes| < |log.rows| && SuccessesAre(log, i, n - 1, at, queue)
    ensures !log.changes[n - 1].UndoDone? ==> SuccessesAre(log, i, n, at, queue)
    ensures log.changes[n - 1].UndoDone? && |at| < |queue| && log.rows[n - 1].current == Some(queue[|at|]) ==>
      SuccessesAre(log, i, n, at + [n - 1], queue)
  {
    var more := at + [n - 1];
    assert more[|at|] == n - 1 && forall k :: k in at ==> k in more;
  }

  lemma LogIsLong(m: Machine, log: Log)
    requires LogOk(m, log)
    ensures |log.rows| == |log.changes| + 1
  {
  }

  /** The executions `es` were of the steps of the queue, in this order, each successful and recorded. */
  ghost predicate Compensated(s: System, after: nat, queue: seq<string>, es: seq<nat>) {
    && |es| == |queue|
    && (forall x :: 0 <= x < |es| ==> es[x] < |s.effects| && Undid(s, after, s.effects[es[x]], queue[x]))
    && (forall x, y :: 0 <= x < y < |es| ==> s.effects[es[x]].version < s.effects[es[y]].version)
  }

  predicate Undid(s: System, after: nat, effect: Effect, id: string) {
    && effect.step == id && effect.outcome.Success? && after < effect.version < |s.log.changes|
    && s.log.changes[effect.version] == UndoDone(effect.outcome.result)
  }

  /** The execution behind a compensation that succeeded. */
  lemma SuccessWasExecuted(m: Machine, s: System, k: nat) returns (e: nat)
    requires Sane(m, s) && k < |s.log.changes| && s.log.changes[k].UndoDone?
    ensures |s.log.rows| == |s.log.changes| + 1 && e < |s.effects| && s.effects[e].version == k
    ensures s.log.rows[k].current == Some(s.effects[e].step)
    ensures s.effects[e].outcome.Success? && s.log.changes[k] == UndoDone(s.effects[e].outcome.result)
  {
    e := CauseFacts(m, s, k);
    hide Sane, MarkedAt, MayHappen, RetryTime, CanCommit, Commit;
  }

  lemma SuccessesWereExecuted(m: Machine, s: System, i: nat, n: nat, at: seq<nat>, queue: seq<string>)
    returns (es: seq<nat>)
    requires Sane(m, s) && SuccessesAre(s.log, i, n, at, queue)
    ensures |es| == |at|
    ensures forall x :: 0 <= x < |at| ==>
      es[x] < |s.effects| && s.effects[es[x]].version == at[x] && s.effects[es[x]].step == queue[x] &&
      s.effects[es[x]].outcome.Success? && s.log.changes[at[x]] == UndoDone(s.effects[es[x]].outcome.result)
  {
    hide Sane;
    es := [];
    for x := 0 to |at|
      invariant |es| == x
      invariant forall y :: 0 <= y < x ==>
        es[y] < |s.effects| && s.effects[es[y]].version == at[y] && s.effects[es[y]].step == queue[y] &&
        s.effects[es[y]].outcome.Success? && s.log.changes[at[y]] == UndoDone(s.effects[es[y]].outcome.result)
    {
      var e := SuccessWasExecuted(m, s, at[x]);
      es := es + [e];
    }
  }

  lemma FailQueues(m: Machine, row: Row, change: Change)
    requires CanCommit(m, row, change) && change.Fail?
    ensures row.current.Some?
    ensures Commit(m, row, change).state.queue == CompensationQueue(m.def, row.current.value, row.state.completed)
  {
    hide StepById, IsPick, CompensationQueue, HasRetry;
  }

  /** An instance that has failed with an empty queue, after step `failed` was given up, has executed exactly the
      compensations of the completed steps and the failed one, in the order of the queue, each with success, and no other
      compensation succeeded. CompensationQueueLaw says what the queue holds. */
  lemma SagaRunsToItsEnd(m: Machine, s: System, j: nat) returns (es: seq<nat>)
    requires Reached(m, s) && j < |s.log.changes| < |s.log.rows| && s.log.changes[j].Fail?
    requires Row0(s).status.InstFailed? && Row0(s).state.queue == []
    ensures s.log.rows[j].current.Some?
    ensures Compensated(s, j, CompensationQueue(m.def, s.log.rows[j].current.value, s.log.rows[j].state.completed), es)
    ensures forall k :: j < k < |s.log.changes| && s.log.changes[k].UndoDone? ==>
      exists x :: 0 <= x < |es| && s.effects[es[x]].version == k
  {
    ReachedIsSane(m, s);
    assert LogOk(m, s.log) && FollowsAt(m, s.log, j);
    FailQueues(m, s.log.rows[j], s.log.changes[j]);
    var queue := s.log.rows[j + 1].state.queue;
    assert queue == CompensationQueue(m.def, s.log.rows[j].current.value, s.log.rows[j].state.completed);
    hide *;
    if queue == [] {
      NothingFollowsFailure(m, s.log, j);
      es := [];
      NothingCompensated(s, j);
    } else {
      es := QueueIsWorkedOff(m, s, j + 1);
    }
  }

  lemma NothingCompensated(s: System, j: nat)
    ensures Compensated(s, j, [], [])
  {
  }

  lemma QueueIsWorkedOff(m: Machine, s: System, i: nat) returns (es: seq<nat>)
    requires Sane(m, s) && LogOk(m, s.log) && 0 < i < |s.log.rows| && s.log.rows[i].state.queue != []
    requires Row0(s).state.queue == []
    ensures Compensated(s, i - 1, s.log.rows[i].state.queue, es)
    ensures forall k :: i - 1 < k < |s.log.changes| && s.log.changes[k].UndoDone? ==>
      exists x :: 0 <= x < |es| && s.effects[es[x]].version == k
  {
    hide Sane, LogOk;
    LogIsLong(m, s.log);
    var n, queue := |s.log.changes|, s.log.rows[i].state.queue;
    SagaIsOneWay(m, s.log, i, n);
    var at := SuccessesInOrder(m, s.log, i, n);
    es := SuccessesWereExecuted(m, s, i, n, at, queue);
    assert |at| == |queue|;
    hide Undos;
    forall k | i - 1 < k < |s.log.changes| && s.log.changes[k].UndoDone?
      ensures exists x :: 0 <= x < |es| && s.effects[es[x]].version == k
    {
      var x :| 0 <= x < |at| && at[x] == k;
      assert s.effects[es[x]].version == k;
    }
  }

  /** Without anything to compensate the instance has failed at once. */
  lemma NothingFollowsFailure(m: Machine, log: Log, j: nat)
    requires LogOk(m, log) && j < |log.changes| && log.changes[j].Fail? && log.rows[j + 1].state.queue == []
    ensures j + 1 == |log.changes|
  {
    assert FollowsAt(m, log, j);
    hide StepById, IsPick, CompensationQueue, HasRetry;
    if j + 1 < |log.changes| {
      NotTerminalBefore(m, log, j + 1);
    }
  }
}
