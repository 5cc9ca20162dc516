/** The workers and the sequential interpreter: what any number of workers commit is a run of the interpreter, on the
    outcomes their executions had. So what holds of every run holds of every reachable state of the system. */
module Refinement {
  import opened Workflow
  import opened Graph
  import opened Regions
  import opened Machines
  import opened Interpreter
  import opened Rows
  import opened Logs
  import opened ForkShape
  import opened Moves
  import opened Runs
  import opened Termination
  import opened Workers
  import opened Safety
  import opened Ledger
  import opened Guarantees
  import opened Waiting

  lemma ReachedLog(m: Machine, s: System)
    requires Reached(m, s)
    ensures LogOk(m, s.log) && |s.log.rows| == |s.log.changes| + 1
  {
    ReachedIsSane(m, s);
    assert LogOk(m, s.log);
    hide Reached, Sane;
  }

  /** With the commits that only mark, wait or retry erased, the log is a run of the sequential interpreter. */
  lemma WorkersRefineInterpreter(def: Definition, s: System, n: nat)
    requires UniqueIds(def.steps) && Reached(MachineOf(def), s) && n <= |s.log.changes|
    ensures |s.log.rows| == |s.log.changes| + 1
    ensures Run(MachineOf(def), Events(s.log, n), Abs(s.log.rows[n]))
    ensures RowOk(MachineOf(def), s.log.rows[n])
  {
    hide Reached, LogOk, MachineOk, Run, Events, Abs, UniqueIds;
    MachineOfOk(def);
    ReachedLog(MachineOf(def), s);
    LogRefinesInterpreter(MachineOf(def), s.log, n);
  }

  /** The outcome of an execution, as an event tells it. */
  predicate Tells(e: Event, outcome: StepOutcome) {
    match e
    case Finish(result, _) => outcome == Success(result)
    case GiveUp(_) => outcome.Failure?
    case Undo => outcome.Success?
    case UndoFail => outcome.Failure?
    case _ => false
  }

  /** Commit `j` shows as an event, and one that some execution caused. */
  predicate Shows(log: Log, j: nat) {
    j < |log.changes| && j < |log.rows| && !BeginsWith(log.changes[j]) && EventOf(log.rows[j], log.changes[j]).Some?
  }

  /** The events of the run tell the outcomes of executions: the one execution of the very commit that marked the step,
      of the step the interpreter is at. */
  lemma EventsTellExecutions(m: Machine, s: System, j: nat) returns (e: nat)
    requires Reached(m, s) && Shows(s.log, j)
    ensures e < |s.effects| && s.effects[e].version == j && s.log.rows[j].current == Some(s.effects[e].step)
    ensures Tells(EventOf(s.log.rows[j], s.log.changes[j]).value, s.effects[e].outcome)
    ensures forall f :: 0 <= f < |s.effects| && f != e ==> s.effects[f].version != j
  {
    ReachedIsSane(m, s);
    e := CauseFacts(m, s, j);
    assert EffectsOk(m, s);
    hide Reached, Sane, EffectOk, MarkedAt, MayHappen, RetryTime, CanCommit, Commit;
    RecordsTells(m, s.log.rows[j], s.effects[e].outcome, s.effects[e].at, s.times[j + 1], s.log.changes[j]);
  }

  lemma RecordsTells(m: Machine, row: Row, outcome: StepOutcome, at: int, now: int, change: Change)
    requires Records(m, row, outcome, at, now, change) && EventOf(row, change).Some? && !BeginsWith(change)
    ensures Tells(EventOf(row, change).value, outcome)
  {
    hide RetryTime;
  }

  /** The other events are caused by no execution: that a step starts, that there is none left, and that a compensation is
      no step. */
  lemma OtherEventsAreUnexecuted(def: Definition, s: System, j: nat)
    requires UniqueIds(def.steps) && Reached(MachineOf(def), s) && j < |s.log.changes| && j < |s.log.rows|
    requires BeginsWith(s.log.changes[j]) && EventOf(s.log.rows[j], s.log.changes[j]).Some?
    ensures forall f :: 0 <= f < |s.effects| ==> s.effects[f].version != j
  {
    var m := MachineOf(def);
    ReachedLog(m, s);
    assert FollowsAt(m, s.log, j) by { hide Reached, UniqueIds, CanCommit, Commit; }
    assert CanCommit(m, s.log.rows[j], s.log.changes[j]) by { hide Reached, UniqueIds, LogOk; }
    hide *;
    ReachedIsSane(m, s);
    WorkersRefineInterpreter(def, s, j);
    forall f: nat | f < |s.effects| ensures s.effects[f].version != j {
      if s.effects[f].version == j {
        MarkWasCommitted(m, s, f);
        BeginsUnmarked(def, s.log, s.effects[f], s.log.rows[j], s.log.changes[j]);
      }
    }
  }

  /** The row of an execution is marked. */
  lemma MarkWasCommitted(m: Machine, s: System, e: nat)
    requires Sane(m, s) && e < |s.effects|
    ensures Possible(m, s.log, s.effects[e]) && Marked(s.log.rows[s.effects[e].version])
  {
    EffectFacts(m, s, e);
    var v := s.effects[e].version;
    assert FollowsAt(m, s.log, v - 1);
    hide Sane, LogOk, CanCommit, Commit, Marked, MayHappen;
    StepKept(m, s.log.rows[v - 1], s.log.changes[v - 1], "");
  }

  lemma BeginsUnmarked(def: Definition, log: Log, effect: Effect, row: Row, change: Change)
    requires RowOk(MachineOf(def), row) && CanCommit(MachineOf(def), row, change) && BeginsWith(change)
    requires EventOf(row, change).Some? && Possible(MachineOf(def), log, effect) && log.rows[effect.version] == row
    ensures !Marked(row)
  {
    hide StepById, MayHappen, NormalSteps, NextAfter, IsPick;
  }

  /** After a commit with a compensation queue, every execution is of the first step of what is left of the queue. */
  lemma OnlyCompensationsFollow(m: Machine, s: System, i: nat, e: nat)
    requires Reached(m, s) && i < |s.log.rows| && s.log.rows[i].state.queue != []
    requires e < |s.effects| && i < s.effects[e].version <= |s.log.changes|
    ensures Undos(s.log, i, s.effects[e].version) < |s.log.rows[i].state.queue|
    ensures s.effects[e].step == s.log.rows[i].state.queue[Undos(s.log, i, s.effects[e].version)]
  {
    ReachedIsSane(m, s);
    EffectFacts(m, s, e);
    hide Reached, Sane, LogOk, Undos, WaitedAt, BegunAt, MarkedAt, MayHappen;
    MarkedAfterFailure(m, s.log, i, s.effects[e].version);
  }

  lemma MarkedAfterFailure(m: Machine, log: Log, i: nat, v: nat)
    requires LogOk(m, log) && i < v && MarkedAt(log, v) && log.rows[i].state.queue != []
    ensures Undos(log, i, v) < |log.rows[i].state.queue|
    ensures log.rows[v].current == Some(log.rows[i].state.queue[Undos(log, i, v)])
  {
    assert FollowsAt(m, log, v - 1);
    hide LogOk, Undos, CanCommit, Commit;
    SagaIsOneWay(m, log, i, v);
    MarkUndoStands(m, log.rows[v - 1], log.changes[v - 1]);
  }

  lemma MarkUndoStands(m: Machine, row: Row, change: Change)
    requires CanCommit(m, row, change) && change.MarkUndo?
    ensures var next := Commit(m, row, change);
      row.state.queue != [] && next.state.queue == row.state.queue && next.current == Some(row.state.queue[0])
  {
  }

  /** In every committed row of a disciplined definition the forks are in order: at most one is running, its branches
      are finished up to one running branch, the rest pending, and the current step is the one of that branch. */
  lemma ForksStayInOrder(def: Definition, s: System, n: nat)
    requires Disciplined(def) && Reached(MachineOf(def), s) && n <= |s.log.changes| < |s.log.rows|
    ensures Sound(def, Abs(s.log.rows[n]))
  {
    hide Reached, Run, Abs, Sound;
    UniqueIdsOf(def);
    WorkersRefineInterpreter(def, s, n);
    RunIsSound(def, Events(s.log, n), Abs(s.log.rows[n]));
  }

  lemma UniqueIdsOf(def: Definition)
    requires Disciplined(def)
    ensures UniqueIds(def.steps)
  {
  }

  /** While normal steps run, no committed row stands at the join of a fork, and no fork has stopped running, unless all
      branches of the fork are done. */
  lemma JoinsAreSafe(def: Definition, s: System, n: nat, f: string)
    requires Disciplined(def) && Reached(MachineOf(def), s) && n <= |s.log.changes| < |s.log.rows|
    requires var row := s.log.rows[n];
      && Normal(row) && row.current.Some? && f in row.state.forks
      && (row.state.forks[f].join == row.current.value || !row.state.forks[f].status.ForkRunning?)
    ensures StepById(def.steps, f).Some?
    ensures AllBranchesDone(def, s.log.rows[n].state.forks[f], Heads(StepById(def.steps, f).value),
                            s.log.rows[n].state.completed)
  {
    var row := s.log.rows[n];
    hide Reached, Run, Tame, JoinsApart, AllBranchesDone, StepById;
    UniqueIdsOf(def);
    WorkersRefineInterpreter(def, s, n);
    JoinOnlyAfterAllBranches(def, Events(s.log, n), Abs(row), f);
  }

  /** In every committed row, ended and compensating ones included, a fork with status completed or joined has all its
      branches done; and a completed instance has no other forks. */
  lemma FinishedForksAreDone(def: Definition, s: System, n: nat, f: string)
    requires Disciplined(def) && Reached(MachineOf(def), s) && n <= |s.log.changes| < |s.log.rows|
    requires f in s.log.rows[n].state.forks
    ensures var row := s.log.rows[n];
      && (row.status.InstCompleted? ==> IsOver(row.state.forks, f))
      && (IsOver(row.state.forks, f) ==>
            StepById(def.steps, f).Some? &&
            AllBranchesDone(def, row.state.forks[f], Heads(StepById(def.steps, f).value), row.state.completed))
  {
    var row := s.log.rows[n];
    hide Reached, Run, Tame, JoinsApart, AllBranchesDone, StepById, IsOver;
    UniqueIdsOf(def);
    WorkersRefineInterpreter(def, s, n);
    RunIsSettled(def, Events(s.log, n), Abs(row));
    assert IsOver(row.state.forks, f) ==> ForkSettled(def, row.state.forks, row.state.completed, f);
  }

  /** No fork runs in a row that compensates, waits for a compensation included, or has failed. */
  lemma FailureStopsForks(def: Definition, s: System, n: nat, f: string)
    requires Disciplined(def) && Reached(MachineOf(def), s) && n <= |s.log.changes| < |s.log.rows|
    requires s.log.rows[n].status == InstCompensating || s.log.rows[n].status == InstFailed ||
      (s.log.rows[n].state.queue != [] && s.log.rows[n].status != InstCompleted)
    requires f in s.log.rows[n].state.forks
    ensures s.log.rows[n].state.forks[f].status != ForkRunning
  {
    var row := s.log.rows[n];
    hide Reached, Run, Tame, JoinsApart;
    UniqueIdsOf(def);
    WorkersRefineInterpreter(def, s, n);
    RunIsQuiet(def, Events(s.log, n), Abs(row));
    hide Events, DoneOf;
  }

  /** Unless a loop can be reached, there is one bound for all reachable states on the number of steps started, finished,
      given up and compensated. */
  lemma WorkIsBounded(def: Definition) returns (bound: nat)
    requires Disciplined(def) && LoopFree(def)
    ensures forall s :: Reached(MachineOf(def), s) ==> WorkDone(s.log) <= bound
  {
    UniqueIdsOf(def);
    hide Reached, Run, Abs, Tame, JoinsApart, UniqueIds, LoopFree;
    bound := EveryRunEnds(def);
    forall s | Reached(MachineOf(def), s) ensures WorkDone(s.log) <= bound {
      ReachedLog(MachineOf(def), s);
      WorkersRefineInterpreter(def, s, |s.log.changes|);
    }
  }

  function WorkDone(log: Log): nat {
    if |log.rows| == |log.changes| + 1 then |Events(log, |log.changes|)| else 0
  }

  /** Two systems of workers in which the steps had the same outcomes have the instance in the same place. */
  lemma OutcomesDecideInstance(def: Definition, s: System, t: System)
    requires Disciplined(def) && Reached(MachineOf(def), s) && Reached(MachineOf(def), t)
    requires |s.log.rows| == |s.log.changes| + 1 && |t.log.rows| == |t.log.changes| + 1
    requires var d, e := Events(s.log, |s.log.changes|), Events(t.log, |t.log.changes|);
      |d| == |e| && forall i :: 0 <= i < |d| ==> Outcome(d[i]) == Outcome(e[i])
    ensures Abs(Row0(s)) == Abs(Row0(t))
  {
    hide Reached, Run, Abs, Tame, JoinsApart, Outcome;
    UniqueIdsOf(def);
    WorkersRefineInterpreter(def, s, |s.log.changes|);
    WorkersRefineInterpreter(def, t, |t.log.changes|);
    OutcomesDecide(def, Events(s.log, |s.log.changes|), Events(t.log, |t.log.changes|), Abs(Row0(s)), Abs(Row0(t)));
  }
}
