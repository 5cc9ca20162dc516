/** The handlers of engine/engine.go as they are: methods that rewrite the instance in memory and save it with
    UpdateInstance. Each is proved to save exactly a commit of Rows, or, when a call fails, possibly nothing. */
module Engines {
  import opened Workflow
  import opened Regions
  import opened Machines
  import opened Saga
  import opened Interpreter
  import opened Rows
  import opened Logs
  import opened Workers
  import opened Owners
  import Timers
  import Retry

  /** store.Instance: the copy of the row a worker works on. */
  class Instance {
    var status: InstanceStatus
    var current: Option<string>
    var version: nat
    const state: RuntimeState

    function Value(): Row
      reads this, state
    {
      Row(status, current, state.Value(), version)
    }

    constructor (row: Row)
      ensures Value() == row && fresh(state)
    {
      status, current, version := row.status, row.current, row.version;
      state := new RuntimeState(row.state);
    }
  }

  datatype Entry = Entry(step: string, attempt: int, outcome: Option<StepOutcome>)

  function Told(history: seq<Entry>, h: nat, outcome: StepOutcome): seq<Entry>
    requires h < |history|
  {
    history[h := history[h].(outcome := Some(outcome))]
  }

  /** The row of one instance in the database, and its history. Any call may fail, before or after it took effect; `faults`
      counts the calls that did. */
  class Repository {
    var row: Row
    var lockedBy: Option<string>
    var lockedUntil: Option<int>
    var history: seq<Entry>
    ghost var faults: nat

    constructor ()
      ensures row == NEW_ROW && lockedBy == None && lockedUntil == None && history == []
    {
      row, lockedBy, lockedUntil, history, faults := NEW_ROW, None, None, [], 0;
    }

    predicate IsFree(owner: string, now: int)
      reads this
    {
      lockedUntil.None? || lockedUntil.value <= now || lockedBy == Some(owner)
    }

    /** None stands for ErrInstanceBusy and for any other error. */
    method ClaimInstance(owner: string, leaseUntil: int, now: int) returns (inst: Option<Instance>)
      modifies this`lockedBy, this`lockedUntil, this`faults
      ensures inst.Some? ==> !Terminal(row) && old(IsFree(owner, now)) && fresh(inst.value) && fresh(inst.value.state)
      ensures inst.Some? ==> inst.value.Value() == row && lockedBy == Some(owner) && lockedUntil == Some(leaseUntil)
      ensures Terminal(row) || !old(IsFree(owner, now)) ==>
        lockedBy == old(lockedBy) && lockedUntil == old(lockedUntil)
      ensures faults >= old(faults)
      ensures (lockedBy == old(lockedBy) && lockedUntil == old(lockedUntil)) ||
        (lockedBy == Some(owner) && lockedUntil == Some(leaseUntil))
      ensures faults == old(faults) ==> (inst.Some? <==>
        !row.status.InstCompleted? && !row.status.InstFailed? &&
        (old(lockedUntil).None? || old(lockedUntil).value <= now || old(lockedBy) == Some(owner)))
    {
      var lost: bool := *;
      if lost {
        faults := faults + 1;
        return None;
      }
      if Terminal(row) || !(lockedUntil.None? || lockedUntil.value <= now || lockedBy == Some(owner)) {
        return None;
      }
      lockedBy, lockedUntil := Some(owner), Some(leaseUntil);
      lost := *;
      if lost {
        faults := faults + 1;
        return None;
      }
      var copy := new Instance(row);
      inst := Some(copy);
    }

    method ReleaseInstance(owner: string)
      modifies this`lockedBy, this`lockedUntil, this`faults
      ensures (lockedBy == old(lockedBy) && lockedUntil == old(lockedUntil)) ||
        (old(lockedBy) == Some(owner) && lockedBy == None && lockedUntil == None)
      ensures faults >= old(faults)
      ensures faults == old(faults) && old(lockedBy) == Some(owner) ==> lockedBy == None && lockedUntil == None
    {
      var lost: bool := *;
      if lost {
        faults := faults + 1;
      } else if lockedBy == Some(owner) {
        lockedBy, lockedUntil := None, None;
      }
    }

    /** Saves the copy if the row still has the expected version. */
    method UpdateInstance(inst: Instance, expected: nat) returns (ok: bool)
      modifies this`row, this`faults, inst`version
      ensures row == old(row) ||
        (old(row).version == expected && row == old(inst.Value()).(version := expected + 1))
      ensures ok ==> old(row).version == expected && row == inst.Value() && inst.version == expected + 1
      ensures inst.version == old(inst.version) || ok
      ensures faults >= old(faults) && (faults == old(faults) ==> (ok <==> old(row).version == expected))
    {
      var lost: bool := *;
      if lost {
        faults := faults + 1;
        return false;
      }
      if row.version != expected {
        return false;
      }
      row := inst.Value().(version := expected + 1);
      lost := *;
      if lost {
        faults := faults + 1;
        return false;
      }
      inst.version := expected + 1;
      ok := true;
    }

    method AppendHistory(entry: Entry) returns (ok: bool, h: nat)
      modifies this`history, this`faults
      ensures history == old(history) + [entry] || (!ok && history == old(history))
      ensures ok ==> h == |old(history)|
      ensures faults >= old(faults) && (faults == old(faults) ==> ok)
    {
      h := |history|;
      var lost: bool := *;
      if lost {
        faults := faults + 1;
        return false, h;
      }
      history := history + [entry];
      ok := *;
      faults := if ok then faults else faults + 1;
    }

    method CompleteHistory(h: nat, outcome: StepOutcome) returns (ok: bool)
      requires h < |history|
      modifies this`history, this`faults
      ensures history == Told(old(history), h, outcome) || (!ok && history == old(history))
      ensures faults >= old(faults) && (faults == old(faults) ==> ok)
    {
      var lost: bool := *;
      if lost {
        faults := faults + 1;
        return false;
      }
      history := history[h := history[h].(outcome := Some(outcome))];
      ok := *;
      faults := if ok then faults else faults + 1;
    }
  }

  /** What the world answers when a step is executed: an error, the value of a condition, or the string a transform
      stores under "next_step". */
  datatype Answer = Error | Answer(matched: bool, stored: string)

  /** `worker.Execute`, as far as the engine can tell the results apart. */
  function Executed(step: Step, at: int, answer: Answer): StepOutcome {
    match step.kind
    case Delay => WaitingUntil(at + step.config.duration)
    case Fork =>
      if answer.Error? || Heads(step) == [] then Failure else Success(Result(Heads(step)[0], Heads(step)[0]))
    case Join => if answer.Error? then Failure else Success(Result(step.config.next, step.config.next))
    case Condition =>
      if answer.Error? then Failure
      else
        var next := if answer.matched then step.config.thenRef else step.config.elseRef;
        Success(Result(next, next))
    case Transform =>
      if answer.Error? then Failure
      else Success(Result("", if step.config.resultKey == "next_step" then answer.stored else ""))
    case HttpRequest => if answer.Error? then Failure else Success(Result("", ""))
  }

  /** executeWithSpan: a delay step that was waiting is judged here, everything else is executed. A delay waits exactly its
      duration; a condition goes where its value says; an error of any other step is a failure. */
  method ExecuteWithSpan(step: Step, previous: StepState, at: int, answer: Answer) returns (outcome: StepOutcome)
    ensures MayHappen(step, previous, at, outcome)
    ensures !(step.kind.Delay? && previous.status == StepWaiting) ==> outcome == Executed(step, at, answer)
    ensures step.kind.Delay? && previous.status != StepWaiting ==> outcome == WaitingUntil(at + step.config.duration)
    ensures step.kind.Delay? && previous.status == StepWaiting ==>
      (outcome.Success? <==> previous.waitingTime.None? || previous.waitingTime.value <= at) &&
      (!outcome.Success? ==> outcome.WaitingUntil? && previous.waitingTime == Some(outcome.fireAt))
    ensures !step.kind.Delay? && answer.Error? ==> outcome == Failure
    ensures step.kind.Condition? && answer.Answer? ==>
      outcome.Success? && outcome.result.next == outcome.result.outputNext &&
      (answer.matched ==> outcome.result.next == step.config.thenRef) &&
      (!answer.matched ==> outcome.result.next == step.config.elseRef)
    ensures step.kind.HttpRequest? && answer.Answer? ==> outcome == Success(Result("", ""))
    ensures step.kind.Transform? && answer.Answer? ==>
      outcome.Success? && outcome.result.next == "" &&
      (step.config.resultKey == "next_step" ==> outcome.result.outputNext == answer.stored) &&
      (step.config.resultKey != "next_step" ==> outcome.result.outputNext == "")
    ensures step.kind.Join? && answer.Answer? ==>
      outcome.Success? && outcome.result.next == step.config.next == outcome.result.outputNext
    ensures step.kind.Fork? && answer.Answer? ==>
      if step.config.branches.Some? && step.config.branches.value != [] then
        outcome.Success? && outcome.result.next == step.config.branches.value[0] == outcome.result.outputNext
      else outcome == Failure
  {
    if step.kind.Delay? && previous.status == StepWaiting {
      if previous.waitingTime.None? || previous.waitingTime.value <= at {
        return Success(Result("", ""));
      }
      return WaitingUntil(previous.waitingTime.value);
    }
    outcome := Executed(step, at, answer);
  }

  /** Every outcome a step may have is one that some answer of the world brings about. */
  lemma OutcomesAreAnswers(step: Step, previous: StepState, at: int, outcome: StepOutcome) returns (answer: Answer)
    requires MayHappen(step, previous, at, outcome) && !(step.kind.Delay? && previous.status == StepWaiting)
    ensures Executed(step, at, answer) == outcome
  {
    if outcome.Success? {
      var r := outcome.result;
      answer := Answer(r.next == step.config.thenRef, r.outputNext);
    } else {
      answer := Error;
    }
  }

  /** `after` is what `before` becomes when a worker that holds `mine` saves `change`, or fails to. */
  ghost predicate Saves(m: Machine, before: Row, mine: Row, change: Change, after: Row) {
    after == before || Saved(m, before, mine, change, after)
  }

  ghost predicate Saved(m: Machine, before: Row, mine: Row, change: Change, after: Row) {
    before == mine && CanCommit(m, mine, change) && after == Commit(m, mine, change)
  }

  /** The worker holds the row as it is, unless somebody else has saved a later version. */
  predicate InStep(row: Row, mine: Row) {
    row.version == mine.version ==> row == mine
  }

  /** The row a handler of outcomes expects: its step is marked running. */
  ghost predicate Runs(m: Machine, mine: Row, step: Step) {
    && !Terminal(mine) && (MarkedNormal(m, mine) || MarkedUndo(mine))
    && StepById(m.def.steps, mine.current.value) == Some(step) && step.id == mine.current.value
  }

  function MovedRow(version: nat, state: State, next: Option<Step>): Row {
    Row(if next.None? then InstCompleted else InstRunning,
        if next.None? then None else Some(next.value.id), state, version + 1)
  }

  /** The row a success leaves. */
  ghost predicate IsSuccess(m: Machine, mine: Row, step: Step, result: Result, pick: Pick, after: Row) {
    && CanPick(step, mine.state.forks, pick)
    && after == SucceededRow(mine, step.id, result.outputNext, NextAfter(m, step, mine.state.forks, result.next, pick))
  }

  lemma SuccessIsSaved(m: Machine, before: Row, mine: Row, step: Step, result: Result, pick: Pick, after: Row)
    requires Runs(m, mine, step) && !InUndo(mine) && MayResult(step, result) && InStep(before, mine)
    requires before.version == mine.version && IsSuccess(m, mine, step, result, pick, after)
    ensures Saved(m, before, mine, Succeed(result, pick), after)
  {
    hide NextAfter, MayResult, StepById, IsPick;
  }

  lemma WaitIsSaved(m: Machine, before: Row, mine: Row, step: Step, change: Change, after: Row)
    requires Runs(m, mine, step) && InStep(before, mine) && before.version == mine.version
    requires change.Wait? ||
      (change.RetryAt? && !InUndo(mine) && HasRetry(step, StepAt(mine, step.id).attempt))
    requires after == WaitingRow(mine, step.id, change.fireAt)
    ensures Saved(m, before, mine, change, after)
  {
    hide StepById, IsPick;
  }

  /** The row a failure without a retry leaves. */
  ghost predicate IsFailure(m: Machine, mine: Row, step: Step, pick: Pick, after: Row) {
    && ValidPick(mine.state.forks, pick) && IsPick(mine.state.forks, step.id, pick)
    && after == FailedRow(m, mine, step.id, pick)
  }

  lemma FailureIsSaved(m: Machine, before: Row, mine: Row, step: Step, pick: Pick, after: Row)
    requires Runs(m, mine, step) && !InUndo(mine) && !HasRetry(step, StepAt(mine, step.id).attempt)
    requires InStep(before, mine) && before.version == mine.version && IsFailure(m, mine, step, pick, after)
    ensures Saved(m, before, mine, Fail(pick), after)
  {
    hide StepById, IsPick, FailedRow;
  }

  lemma UndoIsSaved(m: Machine, before: Row, mine: Row, step: Step, change: Change, after: Row)
    requires Runs(m, mine, step) && InUndo(mine) && InStep(before, mine) && before.version == mine.version
    requires change.UndoDone? || change.UndoFailed?
    requires after == if change.UndoDone? then UndoneRow(mine, change.result) else FinishedRow(mine, false)
    ensures Saved(m, before, mine, change, after)
  {
    hide StepById, IsPick, UndoneRow;
  }

  /** What the instance waits for after an outcome was saved. */
  lemma SavedWaits(m: Machine, mine: Row, step: Step, change: Change, after: Row)
    requires Saved(m, mine, mine, change, after) && Runs(m, mine, step) && !BeginsWith(change)
    ensures if change.Wait? || change.RetryAt? then WaitsFor(after) == Some(change.fireAt) && after.current == Some(step.id)
      else WaitsFor(after).None?
  {
    hide StepById, NextAfter, IsPick, CompensationQueue, MarkBranchFailed;
  }

  /** The changes lead from `before` to `after`, one commit each. */
  ghost predicate Advanced(m: Machine, before: Row, changes: seq<Change>, after: Row)
    decreases |changes|
  {
    if changes == [] then after == before
    else
      CanCommit(m, before, changes[0]) && Advanced(m, Commit(m, before, changes[0]), changes[1..], after)
  }

  lemma AdvancedOne(m: Machine, before: Row, change: Change, after: Row)
    requires Saved(m, before, before, change, after)
    ensures Advanced(m, before, [change], after)
  {
    hide CanCommit, Commit;
    assert [change][1..] == [];
  }

  lemma AdvancedTwo(m: Machine, before: Row, first: Change, middle: Row, second: Change, after: Row)
    requires Saved(m, before, before, first, middle) && Saved(m, middle, middle, second, after)
    ensures Advanced(m, before, [first, second], after)
  {
    hide CanCommit, Commit;
    AdvancedOne(m, middle, second, after);
    assert [first, second][1..] == [second];
  }

  /** What a worker saves in one call of Advance: nothing, or the mark of a step (or an end), or also the outcome of that
      step, executed with the state it had before the mark. */
  ghost predicate Journey(m: Machine, before: Row, changes: seq<Change>, outcome: StepOutcome, at: int, now: int) {
    && |changes| <= 2
    && (changes != [] ==> CanCommit(m, before, changes[0]) && BeginsWith(changes[0]))
    && (|changes| == 2 ==>
          var marked := Commit(m, before, changes[0]);
          && Marks(changes[0]) && marked.current.Some? && StepById(m.def.steps, marked.current.value).Some?
          && MayHappen(StepById(m.def.steps, marked.current.value).value, PreviousOf(before, marked), at, outcome)
          && Records(m, marked, outcome, at, now, changes[1]))
  }

  /** The history has got one row: the step that was marked, its attempt, and what came of it. */
  ghost predicate Recounts(m: Machine, before: Row, mark: Change, outcome: StepOutcome, was: seq<Entry>, now: seq<Entry>) {
    && CanCommit(m, before, mark) && Commit(m, before, mark).current.Some?
    && var id, steps := Commit(m, before, mark).current.value, Commit(m, before, mark).state.steps;
       id in steps && now == was + [Entry(id, steps[id].attempt, Some(outcome))]
  }

  lemma MarkRecounts(m: Machine, before: Row, mark: Change, id: string, marked: Row, outcome: StepOutcome, was: seq<Entry>)
    requires Saved(m, before, before, mark, marked) && marked.current == Some(id) && id in marked.state.steps
    ensures Recounts(m, before, mark, outcome, was, was + [Entry(id, marked.state.steps[id].attempt, Some(outcome))])
  {
    hide CanCommit, Commit;
  }

  lemma ToldLast(was: seq<Entry>, id: string, attempt: int, outcome: StepOutcome)
    ensures Told(was + [Entry(id, attempt, None)], |was|, outcome) == was + [Entry(id, attempt, Some(outcome))]
  {
  }

  function PreviousOf(before: Row, marked: Row): StepState
    requires marked.current.Some?
  {
    if InUndo(marked) then ZERO_STEP else StepAt(before, marked.current.value)
  }

  /** The first save of an advance on a normal row. */
  lemma MarkIsSaved(m: Machine, before: Row, step: Step, pick: Pick, forks: Forks, key: string, marked: Row)
    requires MachineOk(m) && Normal(before) && CanResolveRow(m, before, pick) && key != ""
    requires ResolvedRow(m, before, pick) == Move(forks, Some(step))
    requires marked == MarkedRow(before, step.id, InstRunning, forks, key)
    ensures Saved(m, before, before, MarkRun(pick, key), marked)
    ensures Runs(m, marked, step) && !InUndo(marked)
  {
    hide Resolve, CanResolve, MachineOk, DoneOf;
    ResolveKnown(m, DoneOf(before.state.steps), before.state.forks, before.current, pick);
    hide StepById;
  }

  lemma MarkUndoIsSaved(m: Machine, before: Row, step: Step, key: string, marked: Row)
    requires !Terminal(before) && InUndo(before) && before.state.queue != [] && key != ""
    requires StepById(m.def.steps, before.state.queue[0]) == Some(step) && step.id == before.state.queue[0]
    requires marked == MarkedRow(before, step.id, InstCompensating, before.state.forks, key)
    ensures Saved(m, before, before, MarkUndo(key), marked)
    ensures Runs(m, marked, step) && InUndo(marked)
  {
    hide StepById;
  }

  /** The last save of an advance that has marked a step. */
  lemma JourneyEnds(m: Machine, before: Row, first: Change, marked: Row, step: Step, second: Change, after: Row,
                    outcome: StepOutcome, at: int, now: int)
    requires Saved(m, before, before, first, marked) && Marks(first) && Runs(m, marked, step)
    requires MayHappen(step, PreviousOf(before, marked), at, outcome) && Records(m, marked, outcome, at, now, second)
    requires Saves(m, marked, marked, second, after)
    ensures Advanced(m, before, [first], marked) && Journey(m, before, [first], outcome, at, now)
    ensures after != marked ==> Advanced(m, before, [first, second], after)
    ensures Saved(m, marked, marked, second, after) ==> Advanced(m, before, [first, second], after)
    ensures Journey(m, before, [first, second], outcome, at, now)
  {
    AdvancedOne(m, before, first, marked);
    if Saved(m, marked, marked, second, after) {
      AdvancedTwo(m, before, first, marked, second, after);
    }
    hide Advanced, StepById, MayHappen, Records, CanCommit, Commit;
  }

  /** One engine and the database it works on, for one instance. */
  class Engine {
    const m: Machine
    const id: string
    const consumer: string
    const lease: int
    const repo: Repository
    const timers: Timers.Service
    var claimSeq: nat
    var sent: nat  // messages this engine put on the stream
    ghost var faults: nat  // and those it failed to

    /** The calls of any kind that failed. */
    ghost function Faults(): nat
      reads this`faults, repo`faults, timers`faults
    {
      repo.faults + timers.faults + faults
    }

    constructor (def: Definition, id: string, consumer: string, lease: int, repo: Repository, timers: Timers.Service)
      ensures m == MachineOf(def) && this.id == id && this.consumer == consumer && this.lease == lease
      ensures this.repo == repo && this.timers == timers && claimSeq == 0 && sent == 0
    {
      var m := NewMachine(def);
      this.m, this.id, this.consumer, this.lease, this.repo, this.timers := m, id, consumer, lease, repo, timers;
      claimSeq, sent, faults := 0, 0, 0;
    }

    /** Every claim gets an owner of its own, as long as engines have different consumer names (OwnersDiffer). */
    method NextClaimOwner() returns (owner: string)
      modifies this`claimSeq
      ensures claimSeq == old(claimSeq) + 1 && owner == OwnerName(consumer, claimSeq)
    {
      claimSeq := claimSeq + 1;
      owner := OwnerName(consumer, claimSeq);
    }

    method Enqueue() returns (ok: bool)
      modifies this`sent, this`faults
      ensures sent == old(sent) + 1 || (!ok && sent == old(sent))
      ensures faults >= old(faults) && (faults == old(faults) ==> ok)
    {
      var lost: bool := *;
      if lost {
        faults := faults + 1;
        return false;
      }
      sent := sent + 1;
      ok := *;
      faults := if ok then faults else faults + 1;
    }

    method MarkStepRunning(inst: Instance, stepId: string, attempt: int, status: InstanceStatus, key: string)
      returns (ok: bool)
      requires attempt == StepAt(inst.Value(), stepId).attempt + 1
      modifies inst, inst.state, repo`row, repo`faults
      ensures Faults() >= old(Faults())
      ensures Faults() == old(Faults()) ==> (ok <==> old(repo.row).version == old(inst.version))
      ensures var marked := MarkedRow(old(inst.Value()), stepId, status, old(inst.state.forks), key);
        && (repo.row == old(repo.row) || (old(repo.row).version == old(inst.version) && repo.row == marked))
        && (ok ==> old(repo.row).version == old(inst.version) && repo.row == marked == inst.Value())
    {
      inst.status := status;
      inst.current := Some(stepId);
      var previous := Lookup(inst.state.steps, stepId);
      var stepKey := previous.key;
      if stepKey == "" {
        stepKey := key;
      }
      inst.state.steps := inst.state.steps[stepId := StepState(StepRunning, "", attempt, stepKey, None)];
      ok := repo.UpdateInstance(inst, inst.version);
    }

    /** How an execution begins, of a normal step and of a compensation alike: the step is marked running, and then the history
        gets a row. */
    method BeginStep(inst: Instance, stepId: string, attempt: int, status: InstanceStatus, key: string)
      returns (ok: bool, h: nat)
      requires attempt == StepAt(inst.Value(), stepId).attempt + 1 && repo.row.version == inst.version
      modifies inst, inst.state, repo`row, repo`faults, repo`history
      ensures Faults() >= old(Faults()) && (Faults() == old(Faults()) ==> ok)
      ensures var marked := MarkedRow(old(inst.Value()), stepId, status, old(inst.state.forks), key);
        (repo.row == old(repo.row) && !ok && repo.history == old(repo.history)) ||
        (repo.row == marked && (ok ==> inst.Value() == marked))
      ensures ok ==> h == |old(repo.history)| && repo.history == old(repo.history) + [Entry(stepId, attempt, None)]
    {
      h := 0;
      ok := MarkStepRunning(inst, stepId, attempt, status, key);
      if ok {
        ok, h := repo.AppendHistory(Entry(stepId, attempt, None));
      }
    }

    method FinishInstance(inst: Instance, status: InstanceStatus) returns (ok: bool)
      modifies inst, repo`row, repo`faults
      ensures Faults() >= old(Faults())
      ensures Faults() == old(Faults()) ==> (ok <==> old(repo.row).version == old(inst.version))
      ensures var done := old(inst.Value()).(status := status, current := None, version := old(inst.version) + 1);
        && (repo.row == old(repo.row) || (old(repo.row).version == old(inst.version) && repo.row == done))
        && (ok ==> old(repo.row).version == old(inst.version) && repo.row == done)
    {
      inst.status := status;
      inst.current := None;
      ok := repo.UpdateInstance(inst, inst.version);
    }

    /** The end of handleStepSuccess: save where the machine went, and wake the next worker. */
    method MoveTo(inst: Instance, next: Option<Step>) returns (ok: bool)
      modifies inst, repo`row, repo`faults, this`sent, this`faults
      ensures Faults() >= old(Faults())
      ensures Faults() == old(Faults()) ==> (ok <==> old(repo.row).version == old(inst.version))
      ensures var to := MovedRow(old(inst.version), inst.state.Value(), next);
        && (repo.row == old(repo.row) || (old(repo.row).version == old(inst.version) && repo.row == to))
        && (ok ==> old(repo.row).version == old(inst.version) && repo.row == to)
      ensures ok && next.Some? ==> sent == old(sent) + 1
      ensures sent == old(sent) || (sent == old(sent) + 1 && next.Some? && repo.row != old(repo.row))
    {
      if next.None? {
        inst.status := InstCompleted;
        inst.current := None;
        ok := repo.UpdateInstance(inst, inst.version);
        return;
      }
      inst.status := InstRunning;
      inst.current := Some(next.value.id);
      ok := repo.UpdateInstance(inst, inst.version);
      if ok {
        ok := Enqueue();
      }
    }

    /** The start of handleStepSuccess: what came of the step goes into the history and the state, and its timer is cleared. */
    method RecordSuccess(inst: Instance, step: Step, h: nat, attempt: int, result: Result) returns (ok: bool)
      requires h < |repo.history| && timers.Balanced()
      modifies inst.state, repo`faults, repo`history, timers
      ensures Faults() >= old(Faults()) && (Faults() == old(Faults()) ==> ok) && timers.Balanced()
      ensures timers.rows - {id} == old(timers.rows) - {id} && timers.queue == old(timers.queue)
      ensures ok ==> id !in timers.rows && id !in timers.keys
      ensures ok ==> repo.history == Told(old(repo.history), h, Success(result))
      ensures var key := Lookup(old(inst.state.steps), step.id).key;
        ok ==> (inst.state.Value() ==
          Completed(old(inst.state.Value()), step.id, StepState(StepCompleted, result.outputNext, attempt, key, None)))
    {
      ok := repo.CompleteHistory(h, Success(result));
      if ok {
        var key := Lookup(inst.state.steps, step.id).key;
        inst.state.MarkCompleted(step.id, StepState(StepCompleted, result.outputNext, attempt, key, None));
        ok := timers.Clear(id);
      }
    }

    method HandleStepSuccess(inst: Instance, step: Step, h: nat, attempt: int, result: Result)
      returns (ok: bool, ghost change: Change)
      requires h < |repo.history| && timers.Balanced() && InStep(repo.row, inst.Value())
      requires Runs(m, inst.Value(), step) && !InUndo(inst.Value()) && MayResult(step, result)
      requires attempt == StepAt(inst.Value(), step.id).attempt
      modifies inst, inst.state, repo`row, repo`faults, repo`history, timers, this`sent, this`faults
      ensures Faults() >= old(Faults())
      ensures Faults() == old(Faults()) ==> (ok <==> old(repo.row).version == old(inst.version))
      ensures Saves(m, old(repo.row), old(inst.Value()), change, repo.row) && timers.Balanced()
      ensures change.Succeed? && change.result == result
      ensures ok || repo.row != old(repo.row) ==>
        repo.history == Told(old(repo.history), h, Success(result)) && id !in timers.rows && id !in timers.keys
      ensures timers.rows - {id} == old(timers.rows) - {id} && timers.queue == old(timers.queue)
      ensures ok ==> Saved(m, old(repo.row), old(inst.Value()), change, repo.row)
      ensures ok && !Terminal(repo.row) ==> sent == old(sent) + 1
      ensures sent == old(sent) || (sent == old(sent) + 1 && !Terminal(repo.row) && repo.row != old(repo.row))
    {
      hide Saved, Runs, NextAfter, CanPick, MayResult, Commit, InStep, InUndo;
      ghost var mine := inst.Value();
      ghost var before := repo.row;
      change := Succeed(result, NoBranch);
      ok := RecordSuccess(inst, step, h, attempt, result);
      if !ok {
        return;
      }
      var next;
      ghost var pick;
      next, pick := NextAfterIn(m, step, inst.state, Some(result));
      change := Succeed(result, pick);
      ok := MoveTo(inst, next);
      assert repo.row == before || (before.version == mine.version && IsSuccess(m, mine, step, result, pick, repo.row));
      if before.version == mine.version && IsSuccess(m, mine, step, result, pick, repo.row) {
        SuccessIsSaved(m, before, mine, step, result, pick, repo.row);
      }
    }

    /** Saves that step `id` waits, and arms its timer. */
    method WaitUntil(inst: Instance, id: string, attempt: int, fireAt: int, now: int) returns (ok: bool)
      requires timers.Balanced() && attempt == StepAt(inst.Value(), id).attempt
      modifies inst, inst.state, repo`row, repo`faults, timers
      ensures Faults() >= old(Faults())
      ensures Faults() == old(Faults()) ==> (ok <==> old(repo.row).version == old(inst.version))
      ensures timers.Balanced()
      ensures var waiting := WaitingRow(old(inst.Value()), id, fireAt);
        && (repo.row == old(repo.row) || (old(repo.row).version == old(inst.version) && repo.row == waiting))
        && (ok ==> old(repo.row).version == old(inst.version) && repo.row == waiting)
      ensures ok ==> TimerIsSet(old(timers.queue), id, fireAt, now)
      ensures timers.rows - {this.id} == old(timers.rows) - {this.id}
    {
      inst.status := InstWaiting;
      inst.current := Some(id);
      var key := Lookup(inst.state.steps, id).key;
      inst.state.steps := inst.state.steps[id := StepState(StepWaiting, "", attempt, key, Some(fireAt))];
      ok := repo.UpdateInstance(inst, inst.version);
      if !ok {
        return;
      }
      ok := timers.Schedule(this.id, Timers.Timer(id, fireAt), now);
    }

    /** The timer table holds the timer, or the timer was due and has put the instance on the stream. */
    predicate TimerIsSet(queue: seq<string>, step: string, fireAt: int, now: int)
      reads timers
    {
      if now < fireAt then id in timers.rows && timers.rows[id] == Timers.Timer(step, fireAt)
      else timers.queue == queue + [id]
    }

    method HandleStepWaiting(inst: Instance, step: Step, h: nat, attempt: int, fireAt: int, now: int)
      returns (ok: bool)
      requires h < |repo.history| && timers.Balanced() && InStep(repo.row, inst.Value())
      requires Runs(m, inst.Value(), step) && attempt == StepAt(inst.Value(), step.id).attempt
      modifies inst, inst.state, repo`row, repo`faults, repo`history, timers
      ensures Faults() >= old(Faults())
      ensures Faults() == old(Faults()) ==> (ok <==> old(repo.row).version == old(inst.version))
      ensures Saves(m, old(repo.row), old(inst.Value()), Wait(fireAt), repo.row) && timers.Balanced()
      ensures ok ==> Saved(m, old(repo.row), old(inst.Value()), Wait(fireAt), repo.row)
      ensures ok ==> TimerIsSet(old(timers.queue), step.id, fireAt, now)
      ensures ok || repo.row != old(repo.row) ==> repo.history == Told(old(repo.history), h, WaitingUntil(fireAt))
      ensures timers.rows - {id} == old(timers.rows) - {id}
    {
      hide Saved, Runs, Commit, InStep, InUndo;
      ghost var mine := inst.Value();
      ghost var before := repo.row;
      ok := repo.CompleteHistory(h, WaitingUntil(fireAt));
      if !ok {
        return;
      }
      ok := WaitUntil(inst, step.id, attempt, fireAt, now);
      if repo.row != before || ok {
        WaitIsSaved(m, before, mine, step, Wait(fireAt), repo.row);
      }
    }

    method HandleStepFailure(inst: Instance, step: Step, h: nat, attempt: int, now: int)
      returns (ok: bool, ghost change: Change)
      requires h < |repo.history| && timers.Balanced() && InStep(repo.row, inst.Value())
      requires Runs(m, inst.Value(), step) && !InUndo(inst.Value())
      requires attempt == StepAt(inst.Value(), step.id).attempt
      modifies inst, inst.state, repo`row, repo`faults, repo`history, timers, this`sent, this`faults
      ensures Faults() >= old(Faults())
      ensures Faults() == old(Faults()) ==> (ok <==> old(repo.row).version == old(inst.version))
      ensures Saves(m, old(repo.row), old(inst.Value()), change, repo.row) && timers.Balanced()
      ensures ok ==> Saved(m, old(repo.row), old(inst.Value()), change, repo.row)
      ensures if HasRetry(step, attempt) then change == RetryAt(now + Retry.Delay(step.retry.value, attempt))
        else change.Fail?
      ensures ok && change.RetryAt? ==> TimerIsSet(old(timers.queue), step.id, change.fireAt, now)
      ensures ok && change.Fail? && !Terminal(repo.row) ==> sent == old(sent) + 1
      ensures ok || repo.row != old(repo.row) ==> repo.history == Told(old(repo.history), h, Failure)
      ensures timers.rows - {id} == old(timers.rows) - {id}
      ensures sent == old(sent) || (sent == old(sent) + 1 && !Terminal(repo.row) && repo.row != old(repo.row))
    {
      hide Saved, Runs, Commit, InStep, InUndo, Retry.Delay, CompensationQueue, IsPick;
      ghost var mine := inst.Value();
      ghost var before := repo.row;
      change := if HasRetry(step, attempt) then RetryAt(now + Retry.Delay(step.retry.value, attempt)) else Fail(NoBranch);
      ok := repo.CompleteHistory(h, Failure);
      if !ok {
        return;
      }
      var key := Lookup(inst.state.steps, step.id).key;
      inst.state.steps := inst.state.steps[step.id := StepState(StepFailed, "", attempt, key, None)];
      if step.retry.Some? && attempt <= step.retry.value.maxRetries {
        var delay := Retry.Backoff(step.retry.value, attempt);
        ok := WaitUntil(inst, step.id, attempt, now + delay, now);
        if repo.row != before || ok {
          WaitIsSaved(m, before, mine, step, change, repo.row);
        }
        return;
      }
      ok, change := GiveUpStep(inst, step, mine);
      if repo.row != before || ok {
        FailureIsSaved(m, before, mine, step, change.pick, repo.row);
      }
    }

    /** The rest of handleStepFailure, when there is no retry left: fail the branch, and compensate or end. */
    method GiveUpStep(inst: Instance, step: Step, ghost mine: Row) returns (ok: bool, ghost change: Change)
      requires inst.version == mine.version && inst.state.forks == mine.state.forks && !InUndo(mine)
      requires inst.state.completed == mine.state.completed && inst.state.queue == mine.state.queue
      requires inst.state.steps == mine.state.steps[step.id := OutcomeState(mine, step.id, StepFailed, "", None)]
      modifies inst, inst.state, repo`row, repo`faults, this`sent, this`faults
      ensures Faults() >= old(Faults())
      ensures Faults() == old(Faults()) ==> (ok <==> old(repo.row).version == mine.version)
      ensures change.Fail?
      ensures repo.row == old(repo.row) ||
        (old(repo.row).version == mine.version && IsFailure(m, mine, step, change.pick, repo.row))
      ensures ok ==> old(repo.row).version == mine.version && IsFailure(m, mine, step, change.pick, repo.row)
      ensures ok && !Terminal(repo.row) ==> sent == old(sent) + 1
      ensures sent == old(sent) || (sent == old(sent) + 1 && !Terminal(repo.row) && repo.row != old(repo.row))
    {
      hide CompensationQueue, IsPick, MarkBranchFailed;
      ghost var pick := MarkBranchFailedIn(inst.state, step.id);
      change := Fail(pick);
      var queue := CompensationQueueOf(m.def, step.id, inst.state.completed);
      if |queue| > 0 {
        inst.state.queue := queue;
        inst.status := InstCompensating;
        inst.current := Some(queue[0]);
        ok := repo.UpdateInstance(inst, inst.version);
        if ok {
          ok := Enqueue();
        }
        return;
      }
      ok := FinishInstance(inst, InstFailed);
    }

    /** The outcome of a normal step goes to its handler. */
    method HandleOutcome(inst: Instance, step: Step, h: nat, attempt: int, outcome: StepOutcome, at: int, now: int)
      returns (ok: bool, ghost change: Change)
      requires h < |repo.history| && timers.Balanced() && InStep(repo.row, inst.Value())
      requires Runs(m, inst.Value(), step) && !InUndo(inst.Value())
      requires attempt == StepAt(inst.Value(), step.id).attempt
      requires (outcome.Success? ==> MayResult(step, outcome.result)) && at <= now
      modifies inst, inst.state, repo`row, repo`faults, repo`history, timers, this`sent, this`faults
      ensures Faults() >= old(Faults())
      ensures Faults() == old(Faults()) ==> (ok <==> old(repo.row).version == old(inst.version))
      ensures Saves(m, old(repo.row), old(inst.Value()), change, repo.row) && timers.Balanced()
      ensures Records(m, old(inst.Value()), outcome, at, now, change)
      ensures ok ==> Saved(m, old(repo.row), old(inst.Value()), change, repo.row)
      ensures ok || repo.row != old(repo.row) ==> repo.history == Told(old(repo.history), h, outcome)
      ensures (ok || repo.row != old(repo.row)) && outcome.Success? ==> id !in timers.rows && id !in timers.keys
      ensures timers.rows - {id} == old(timers.rows) - {id}
      ensures ok && !Terminal(repo.row) ==> Awake(old(sent), old(timers.queue), now)
      ensures sent == old(sent) || (sent == old(sent) + 1 && !Terminal(repo.row) && repo.row != old(repo.row))
    {
      hide Saved, InStep, Retry.Delay, MayResult, StepById, TimerIsSet, WaitsFor, Runs;
      ghost var mine := inst.Value();
      ghost var before := repo.row;
      match outcome {
      case Success(result) => ok, change := HandleStepSuccess(inst, step, h, attempt, result);
      case WaitingUntil(fireAt) =>
        change := Wait(fireAt);
        ok := HandleStepWaiting(inst, step, h, attempt, fireAt, now);
      case Failure =>
        ok, change := HandleStepFailure(inst, step, h, attempt, now);
        FailureRecords(m, mine, step, change, at, now);
      }
      if ok {
        SameRow(m, before, mine, change, repo.row);
        SavedWaits(m, mine, step, change, repo.row);
      }
    }

    /** Somebody will come back to the instance: its timer is set for the moment it waits for, or a message was sent. */
    predicate Awake(before: nat, queue: seq<string>, now: int)
      reads this`sent, timers, repo`row
    {
      var row := repo.row;
      if WaitsFor(row).Some? then TimerIsSet(queue, row.current.value, WaitsFor(row).value, now) else sent == before + 1
    }

    /** Marks the step, appends to the history, executes it, and hands the outcome on. `before` is the row as claimed;
        the copy differs from it in what StepForCurrent did to the forks. */
    method ExecuteNormalStep(inst: Instance, step: Step, key: string, at: int, now: int, answer: Answer,
                             ghost before: Row, ghost pick: Pick)
      returns (ok: bool, ghost changes: seq<Change>, ghost outcome: StepOutcome)
      requires MachineOk(m) && timers.Balanced() && key != "" && at <= now
      requires repo.row == before && Normal(before) && CanResolveRow(m, before, pick)
      requires ResolvedRow(m, before, pick) == Move(inst.state.forks, Some(step))
      requires inst.Value() == before.(state := before.state.(forks := inst.state.forks))
      modifies inst, inst.state, repo`row, repo`faults, repo`history, timers, this`sent, this`faults
      ensures Faults() >= old(Faults())
      ensures Faults() == old(Faults()) ==> ok && changes != []
      ensures Advanced(m, before, changes, repo.row) && Journey(m, before, changes, outcome, at, now) && timers.Balanced()
      ensures ok ==> |changes| == 2
      ensures |changes| == 2 ==> Recounts(m, before, changes[0], outcome, old(repo.history), repo.history)
      ensures |changes| == 2 && outcome.Success? ==> id !in timers.rows && id !in timers.keys
      ensures changes == [] ==> repo.history == old(repo.history)
      ensures timers.rows - {id} == old(timers.rows) - {id}
      ensures ok && !Terminal(repo.row) ==> Awake(old(sent), old(timers.queue), now)
      ensures sent == old(sent) || (sent == old(sent) + 1 && !Terminal(repo.row) && |changes| == 2)
    {
      hide Saved, Runs, CanResolveRow, ResolvedRow, MachineOk, InUndo, Journey, Advanced, MayHappen, Records, Normal,
        Recounts, Told, TimerIsSet, WaitsFor;
      var attempt := Lookup(inst.state.steps, step.id).attempt + 1;
      var previous := Lookup(inst.state.steps, step.id);
      ghost var forks := inst.state.forks;
      ghost var marked := MarkedRow(before, step.id, InstRunning, forks, key);
      changes, outcome := [], Failure;
      MarkIsSaved(m, before, step, pick, forks, key, marked);
      NothingSaved(m, before, outcome, at, now);
      var h;
      ok, h := BeginStep(inst, step.id, attempt, InstRunning, key);
      if repo.row != before {
        changes := [MarkRun(pick, key)];
        MarkSaved(m, before, changes[0], marked, outcome, at, now);
      }
      if !ok {
        return;
      }
      var result := ExecuteWithSpan(step, previous, at, answer);
      outcome := result;
      HappensInJourney(m, before, marked, step, outcome, at);
      MarkSaved(m, before, changes[0], marked, outcome, at, now);
      MarkRecounts(m, before, changes[0], step.id, marked, outcome, old(repo.history));
      ToldLast(old(repo.history), step.id, attempt, outcome);
      ghost var change;
      ok, change := HandleOutcome(inst, step, h, attempt, result, at, now);
      JourneyEnds(m, before, changes[0], marked, step, change, repo.row, outcome, at, now);
      if repo.row != marked || ok {
        changes := [changes[0], change];
      }
    }

    /** The outcome of a compensation: the queue goes on, or the instance fails. */
    method HandleUndo(inst: Instance, step: Step, h: nat, attempt: int, outcome: StepOutcome, at: int, now: int)
      returns (ok: bool, ghost change: Change)
      requires h < |repo.history| && timers.Balanced() && InStep(repo.row, inst.Value())
      requires Runs(m, inst.Value(), step) && InUndo(inst.Value())
      requires attempt == StepAt(inst.Value(), step.id).attempt
      modifies inst, inst.state, repo`row, repo`faults, repo`history, timers, this`sent, this`faults
      ensures Faults() >= old(Faults())
      ensures Faults() == old(Faults()) ==> (ok <==> old(repo.row).version == old(inst.version))
      ensures Saves(m, old(repo.row), old(inst.Value()), change, repo.row) && timers.Balanced()
      ensures Records(m, old(inst.Value()), outcome, at, now, change)
      ensures ok ==> Saved(m, old(repo.row), old(inst.Value()), change, repo.row)
      ensures ok || repo.row != old(repo.row) ==> repo.history == Told(old(repo.history), h, outcome)
      ensures timers.rows - {id} == old(timers.rows) - {id}
      ensures ok && !Terminal(repo.row) ==> Awake(old(sent), old(timers.queue), now)
      ensures sent == old(sent) || (sent == old(sent) + 1 && !Terminal(repo.row) && repo.row != old(repo.row))
    {
      ghost var mine := inst.Value();
      ghost var before := repo.row;
      UndoRecords(m, mine, step, outcome, at, now);
      assert mine.state.queue != [] && mine.state.queue[0] == step.id;
      hide Saved, Runs, InStep, InUndo, MayResult, StepById, TimerIsSet, Commit, Records, WaitsFor;
      change := UndoChangeFor(outcome);
      match outcome {
      case WaitingUntil(fireAt) => ok := HandleStepWaiting(inst, step, h, attempt, fireAt, now);
      case Failure =>
        ok := repo.CompleteHistory(h, outcome);
        if ok {
          ok := FinishInstance(inst, InstFailed);
        }
        if repo.row != before || ok {
          UndoIsSaved(m, before, mine, step, change, repo.row);
        }
      case Success(result) =>
        ok := UndoSucceeded(inst, step, h, attempt, result);
        if repo.row != before || ok {
          UndoIsSaved(m, before, mine, step, change, repo.row);
        }
      }
      if ok {
        SameRow(m, before, mine, change, repo.row);
        SavedWaits(m, mine, step, change, repo.row);
      }
    }

    /** The first compensation of the queue succeeded. */
    method UndoSucceeded(inst: Instance, step: Step, h: nat, attempt: int, result: Result) returns (ok: bool)
      requires h < |repo.history| && inst.state.queue != [] && inst.state.queue[0] == step.id
      requires attempt == StepAt(inst.Value(), step.id).attempt
      modifies inst, inst.state, repo`row, repo`faults, repo`history, this`sent, this`faults
      ensures Faults() >= old(Faults())
      ensures Faults() == old(Faults()) ==> (ok <==> old(repo.row).version == old(inst.version))
      ensures var undone := UndoneRow(old(inst.Value()), result);
        && (repo.row == old(repo.row) || (old(repo.row).version == old(inst.version) && repo.row == undone))
        && (ok ==> old(repo.row).version == old(inst.version) && repo.row == undone)
      ensures ok || repo.row != old(repo.row) ==> repo.history == Told(old(repo.history), h, Success(result))
      ensures ok && !Terminal(repo.row) ==> sent == old(sent) + 1
      ensures sent == old(sent) || (sent == old(sent) + 1 && !Terminal(repo.row) && repo.row != old(repo.row))
    {
      ok := repo.CompleteHistory(h, Success(result));
      if !ok {
        return;
      }
      var key := Lookup(inst.state.steps, step.id).key;
      inst.state.MarkCompleted(step.id, StepState(StepCompleted, result.outputNext, attempt, key, None));
      inst.state.queue := inst.state.queue[1..];
      ok := NextUndo(inst);
    }

    /** Saves that the first compensation is done: on to the next, or the end. */
    method NextUndo(inst: Instance) returns (ok: bool)
      modifies inst, repo`row, repo`faults, this`sent, this`faults
      ensures Faults() >= old(Faults())
      ensures Faults() == old(Faults()) ==> (ok <==> old(repo.row).version == old(inst.version))
      ensures var queue := inst.state.queue;
        var undone := Row(if queue == [] then InstFailed else InstCompensating,
                          if queue == [] then None else Some(queue[0]), inst.state.Value(), old(inst.version) + 1);
        && (repo.row == old(repo.row) || (old(repo.row).version == old(inst.version) && repo.row == undone))
        && (ok ==> old(repo.row).version == old(inst.version) && repo.row == undone)
      ensures ok && inst.state.queue != [] ==> sent == old(sent) + 1
      ensures sent == old(sent) || (sent == old(sent) + 1 && !Terminal(repo.row) && repo.row != old(repo.row))
    {
      if |inst.state.queue| == 0 {
        ok := FinishInstance(inst, InstFailed);
        return;
      }
      inst.current := Some(inst.state.queue[0]);
      inst.status := InstCompensating;
      ok := repo.UpdateInstance(inst, inst.version);
      if ok {
        ok := Enqueue();
      }
    }

    method AdvanceCompensation(inst: Instance, key: string, at: int, now: int, answer: Answer)
      returns (ok: bool, ghost changes: seq<Change>, ghost outcome: StepOutcome)
      requires timers.Balanced() && key != "" && at <= now
      requires repo.row == inst.Value() && !Terminal(repo.row) && InUndo(repo.row)
      modifies inst, inst.state, repo`row, repo`faults, repo`history, timers, this`sent, this`faults
      ensures Faults() >= old(Faults())
      ensures Faults() == old(Faults()) ==> ok && changes != []
      ensures Advanced(m, old(repo.row), changes, repo.row) && Journey(m, old(repo.row), changes, outcome, at, now)
      ensures timers.Balanced()
      ensures |changes| == 2 ==> Recounts(m, old(repo.row), changes[0], outcome, old(repo.history), repo.history)
      ensures changes == [] ==> repo.history == old(repo.history)
      ensures timers.rows - {id} == old(timers.rows) - {id}
      ensures ok && !Terminal(repo.row) ==>
        |changes| == 2 && Awake(old(sent), old(timers.queue), now)
      ensures sent == old(sent) || (sent == old(sent) + 1 && !Terminal(repo.row) && |changes| == 2)
    {
      ghost var before := repo.row;
      changes, outcome := [], Failure;
      NothingSaved(m, before, outcome, at, now);
      var step: Option<Step> := if |inst.state.queue| == 0 then None else StepById(m.def.steps, inst.state.queue[0]);
      if step.None? {
        MissingIsSaved(m, before, outcome, at, now);
        hide Saved, Runs, InUndo, Journey, Advanced, MayHappen, Records;
        ok := FinishInstance(inst, InstFailed);
        if repo.row != before || ok {
          changes := [UndoMissing];
        }
        return;
      }
      StepByIdHasId(m.def.steps, inst.state.queue[0]);
      hide Saved, Runs, InUndo, Journey, Advanced, MayHappen, Records, Recounts;
      ok, changes, outcome := ExecuteUndo(inst, step.value, key, at, now, answer);
    }

    /** Marks the first compensation of the queue, appends to the history, executes it as if it had no previous state, and
        hands the outcome on. */
    method ExecuteUndo(inst: Instance, step: Step, key: string, at: int, now: int, answer: Answer)
      returns (ok: bool, ghost changes: seq<Change>, ghost outcome: StepOutcome)
      requires timers.Balanced() && key != "" && at <= now
      requires repo.row == inst.Value() && !Terminal(repo.row) && InUndo(repo.row)
      requires inst.state.queue != [] && step.id == inst.state.queue[0] && StepById(m.def.steps, step.id) == Some(step)
      modifies inst, inst.state, repo`row, repo`faults, repo`history, timers, this`sent, this`faults
      ensures Faults() >= old(Faults())
      ensures Faults() == old(Faults()) ==> ok && changes != []
      ensures Advanced(m, old(repo.row), changes, repo.row) && Journey(m, old(repo.row), changes, outcome, at, now)
      ensures timers.Balanced()
      ensures |changes| == 2 ==> Recounts(m, old(repo.row), changes[0], outcome, old(repo.history), repo.history)
      ensures changes == [] ==> repo.history == old(repo.history)
      ensures timers.rows - {id} == old(timers.rows) - {id}
      ensures ok && !Terminal(repo.row) ==>
        |changes| == 2 && Awake(old(sent), old(timers.queue), now)
      ensures sent == old(sent) || (sent == old(sent) + 1 && !Terminal(repo.row) && |changes| == 2)
    {
      ghost var before := repo.row;
      changes, outcome := [], Failure;
      NothingSaved(m, before, outcome, at, now);
      ghost var marked := MarkedRow(before, step.id, InstCompensating, before.state.forks, key);
      MarkUndoIsSaved(m, before, step, key, marked);
      hide Saved, Runs, InUndo, Journey, Advanced, MayHappen, Records, StepById, Recounts, Told, TimerIsSet, WaitsFor;
      var attempt := Lookup(inst.state.steps, step.id).attempt + 1;
      var h;
      ok, h := BeginStep(inst, step.id, attempt, InstCompensating, key);
      if repo.row != before {
        changes := [MarkUndo(key)];
        MarkSaved(m, before, changes[0], marked, outcome, at, now);
      }
      if !ok {
        return;
      }
      var result := ExecuteWithSpan(step, ZERO_STEP, at, answer);
      outcome := result;
      MarkSaved(m, before, changes[0], marked, outcome, at, now);
      assert PreviousOf(before, marked) == ZERO_STEP;
      MarkRecounts(m, before, changes[0], step.id, marked, outcome, old(repo.history));
      ToldLast(old(repo.history), step.id, attempt, outcome);
      ghost var change;
      ok, change := HandleUndo(inst, step, h, attempt, result, at, now);
      JourneyEnds(m, before, changes[0], marked, step, change, repo.row, outcome, at, now);
      if repo.row != marked || ok {
        changes := [changes[0], change];
      }
    }

    /** The timer is set for the moment the row still waits for. */
    predicate TimerIsSetAgain(queue: seq<string>, now: int)
      reads timers, repo`row
    {
      var row := repo.row;
      WaitsFor(row).Some? && now < WaitsFor(row).value && TimerIsSet(queue, row.current.value, WaitsFor(row).value, now)
    }

    /** Whether the instance still waits; if so its timer is armed again. */
    method EnsureWaitingTimer(inst: Instance, now: int) returns (handled: bool, ok: bool)
      requires timers.Balanced()
      modifies timers
      ensures Faults() >= old(Faults()) && (Faults() == old(Faults()) ==> ok)
      ensures timers.Balanced() && handled == !WaitIsOver(inst.Value(), now)
      ensures !handled ==> ok && unchanged(timers)
      ensures timers.rows - {id} == old(timers.rows) - {id}
      ensures handled && ok ==> TimerIsSet(old(timers.queue), inst.current.value, WaitsFor(inst.Value()).value, now)
      ensures repo.row == inst.Value() && handled && ok ==> TimerIsSetAgain(old(timers.queue), now)
    {
      if !inst.status.InstWaiting? || inst.current.None? {
        return false, true;
      }
      var waiting := Lookup(inst.state.steps, inst.current.value).waitingTime;
      if waiting.None? || waiting.value <= now {
        return false, true;
      }
      ok := timers.Schedule(id, Timers.Timer(inst.current.value, waiting.value), now);
      handled := true;
    }

    /** The step the machine stands at, or the end. */
    method AdvanceNormally(inst: Instance, key: string, at: int, now: int, answer: Answer)
      returns (ok: bool, ghost changes: seq<Change>, ghost outcome: StepOutcome)
      requires MachineOk(m) && timers.Balanced() && key != "" && at <= now
      requires repo.row == inst.Value() && Normal(repo.row)
      modifies inst, inst.state, repo`row, repo`faults, repo`history, timers, this`sent, this`faults
      ensures Faults() >= old(Faults())
      ensures Faults() == old(Faults()) ==> ok && changes != []
      ensures Advanced(m, old(repo.row), changes, repo.row) && Journey(m, old(repo.row), changes, outcome, at, now)
      ensures timers.Balanced()
      ensures |changes| == 2 ==> Recounts(m, old(repo.row), changes[0], outcome, old(repo.history), repo.history)
      ensures |changes| == 2 && outcome.Success? ==> id !in timers.rows && id !in timers.keys
      ensures changes == [] ==> repo.history == old(repo.history)
      ensures timers.rows - {id} == old(timers.rows) - {id}
      ensures ok && !Terminal(repo.row) ==> |changes| == 2 && Awake(old(sent), old(timers.queue), now)
      ensures sent == old(sent) || (sent == old(sent) + 1 && !Terminal(repo.row) && |changes| == 2)
    {
      hide Saved, Runs, MachineOk, InUndo, Journey, Advanced, MayHappen, Records, Normal, Resolve, CanResolve,
        Recounts;
      ghost var before := repo.row;
      changes, outcome := [], Failure;
      NothingSaved(m, before, outcome, at, now);
      var step;
      ghost var pick;
      step, pick := StepForCurrentIn(m, inst.state, inst.current);
      if step.Some? {
        ok, changes, outcome := ExecuteNormalStep(inst, step.value, key, at, now, answer, before, pick);
        return;
      }
      ghost var ended := FinishedRow(before.(state := before.state.(forks := inst.state.forks)), true);
      NoStepIsSaved(m, before, pick, inst.state.forks, ended, outcome, at, now);
      ok := FinishInstance(inst, InstCompleted);
      if repo.row != before || ok {
        changes := [NoStep(pick)];
      }
    }

    /** What a worker does with an instance it has claimed: looks at its timer, and moves it on by one step. */
    method AdvanceClaimed(inst: Instance, now: int, at: int, end: int, key: string, answer: Answer)
      returns (ok: bool, ghost changes: seq<Change>, ghost outcome: StepOutcome)
      requires MachineOk(m) && timers.Balanced() && key != "" && now <= at <= end
      requires repo.row == inst.Value() && !Terminal(repo.row)
      modifies inst, inst.state, repo`row, repo`faults, repo`history, timers, this`sent, this`faults
      ensures Advanced(m, old(repo.row), changes, repo.row) && Journey(m, old(repo.row), changes, outcome, at, end)
      ensures timers.Balanced() && (changes != [] ==> WaitIsOver(old(repo.row), now))
      ensures ok && !Terminal(repo.row) ==> |changes| == 2 || (changes == [] && !WaitIsOver(repo.row, now))
      ensures ok && !Terminal(repo.row) && changes == [] ==> TimerIsSetAgain(old(timers.queue), now)
      ensures |changes| == 2 ==> Recounts(m, old(repo.row), changes[0], outcome, old(repo.history), repo.history)
      ensures |changes| == 2 && outcome.Success? && old(Normal(repo.row)) ==> id !in timers.rows && id !in timers.keys
      ensures changes == [] ==> repo.history == old(repo.history)
      ensures timers.rows - {id} == old(timers.rows) - {id}
      ensures ok && !Terminal(repo.row) && changes != [] ==> Awake(old(sent), old(timers.queue), end)
      ensures Faults() >= old(Faults())
      ensures Faults() == old(Faults()) ==> ok && (changes != [] <==> WaitIsOver(old(repo.row), now))
      ensures sent == old(sent) || (sent == old(sent) + 1 && !Terminal(repo.row) && |changes| == 2)
    {
      hide Saved, Runs, MachineOk, InUndo, Journey, Advanced, MayHappen, Records, TimerIsSet, WaitIsOver, WaitsFor, Recounts;
      changes, outcome := [], Failure;
      NothingSaved(m, repo.row, outcome, at, end);
      var handled;
      handled, ok := EnsureWaitingTimer(inst, now);
      if !handled && ok {
        if inst.status.InstCompensating? || |inst.state.queue| > 0 {
          assert InUndo(repo.row) by { UndoTest(repo.row); }
          ok, changes, outcome := AdvanceCompensation(inst, key, at, end, answer);
        } else {
          assert Normal(repo.row) by { UndoTest(repo.row); }
          ok, changes, outcome := AdvanceNormally(inst, key, at, end, answer);
        }
      }
    }

    /** A worker takes the instance, moves it on by one step, and lets it go. Whatever call fails, the row is as it was, or
        one or two commits further; nothing is begun before the waiting time; and if all went well the instance has ended,
        or somebody will come back to it. If no call fails, the worker gets the instance exactly when it has not ended and no
        other lease on it lasts, and the row changes unless it still waits. */
    method Advance(now: int, at: int, end: int, key: string, answer: Answer)
      returns (ok: bool, ghost changes: seq<Change>, ghost outcome: StepOutcome)
      requires MachineOk(m) && timers.Balanced() && key != "" && now <= at <= end
      modifies this, repo, timers
      ensures Advanced(m, old(repo.row), changes, repo.row) && Journey(m, old(repo.row), changes, outcome, at, end)
      ensures timers.Balanced() && claimSeq == old(claimSeq) + 1
      ensures changes != [] ==> WaitIsOver(old(repo.row), now) && old(repo.IsFree(OwnerName(consumer, claimSeq + 1), now))
      ensures ok && !Terminal(repo.row) ==> |changes| == 2 || (changes == [] && !WaitIsOver(repo.row, now))
      ensures ok && !Terminal(repo.row) && changes == [] ==> TimerIsSetAgain(old(timers.queue), now)
      ensures |changes| == 2 ==> Recounts(m, old(repo.row), changes[0], outcome, old(repo.history), repo.history)
      ensures |changes| == 2 && outcome.Success? && old(Normal(repo.row)) ==> id !in timers.rows && id !in timers.keys
      ensures changes == [] ==> repo.history == old(repo.history)
      ensures timers.rows - {id} == old(timers.rows) - {id}
      ensures ok && !Terminal(repo.row) && changes != [] ==> Awake(old(sent), old(timers.queue), end)
      ensures Faults() >= old(Faults()) && repo.row.version == old(repo.row).version + |changes|
      ensures Faults() == old(Faults()) ==> (ok <==> old(CanClaim(OwnerName(consumer, claimSeq + 1), now)))
      ensures Faults() == old(Faults()) && ok ==> repo.lockedBy.None? && repo.lockedUntil.None?
      ensures (repo.lockedBy == old(repo.lockedBy) && repo.lockedUntil == old(repo.lockedUntil)) ||
        (repo.lockedBy.None? && repo.lockedUntil.None?) ||
        (repo.lockedBy == Some(OwnerName(consumer, claimSeq)) && repo.lockedUntil == Some(now + lease))
      ensures Faults() == old(Faults()) && ok ==>
        if StillWaits(old(repo.row), now) then repo.row == old(repo.row) else repo.row.version > old(repo.row).version
      ensures sent == old(sent) || (sent == old(sent) + 1 && !Terminal(repo.row) && |changes| == 2)
    {
      hide Saved, Runs, MachineOk, InUndo, Journey, Advanced, MayHappen, Records, TimerIsSet, WaitIsOver, WaitsFor,
        StillWaits, Recounts;
      ghost var before := repo.row;
      changes, outcome := [], Failure;
      NothingSaved(m, before, outcome, at, end);
      WaitIsStill(before, now);
      var owner := NextClaimOwner();
      var claimed := repo.ClaimInstance(owner, now + lease, now);
      if claimed.None? {
        return false, changes, outcome;
      }
      ok, changes, outcome := AdvanceClaimed(claimed.value, now, at, end, key, answer);
      repo.ReleaseInstance(owner);
      AdvancedVersion(m, before, changes, repo.row);
      AdvancedNothing(m, before, repo.row);
    }

    /** The instance has not ended, and nobody else holds a lease on it that has not run out. */
    predicate CanClaim(owner: string, now: int)
      reads this, repo
    {
      && !repo.row.status.InstCompleted? && !repo.row.status.InstFailed?
      && (repo.lockedUntil.None? || repo.lockedUntil.value <= now || repo.lockedBy == Some(owner))
    }
  }

  /** The instance waits, and for a time after `now`. */
  predicate StillWaits(row: Row, now: int) {
    && row.status.InstWaiting? && row.current.Some? && row.current.value in row.state.steps
    && row.state.steps[row.current.value].waitingTime.Some? && now < row.state.steps[row.current.value].waitingTime.value
  }

  lemma WaitIsStill(row: Row, now: int)
    ensures StillWaits(row, now) <==> !WaitIsOver(row, now)
  {
  }

  lemma AdvancedNothing(m: Machine, before: Row, after: Row)
    ensures Advanced(m, before, [], after) ==> after == before
  {
  }

  lemma {:induction false} AdvancedVersion(m: Machine, before: Row, changes: seq<Change>, after: Row)
    requires Advanced(m, before, changes, after)
    ensures after.version == before.version + |changes|
    decreases |changes|
  {
    hide CanCommit, Commit;
    if changes != [] {
      VersionGrows(m, before, changes[0]);
      AdvancedVersion(m, Commit(m, before, changes[0]), changes[1..], after);
    }
  }

  lemma UndoTest(row: Row)
    ensures InUndo(row) <==> row.status.InstCompensating? || |row.state.queue| > 0
    ensures !Terminal(row) && !InUndo(row) ==> Normal(row)
  {
  }

  lemma NoStepIsSaved(m: Machine, before: Row, pick: Pick, forks: Forks, ended: Row, outcome: StepOutcome,
                      at: int, now: int)
    requires Normal(before) && CanResolveRow(m, before, pick) && ResolvedRow(m, before, pick) == Move(forks, None)
    requires ended == FinishedRow(before.(state := before.state.(forks := forks)), true)
    ensures Advanced(m, before, [NoStep(pick)], ended) && Journey(m, before, [NoStep(pick)], outcome, at, now)
  {
    hide Resolve, CanResolve;
    assert Saved(m, before, before, NoStep(pick), ended);
    MarkSaved(m, before, NoStep(pick), ended, outcome, at, now);
  }

  lemma FailureRecords(m: Machine, mine: Row, step: Step, change: Change, at: int, now: int)
    requires Runs(m, mine, step) && !InUndo(mine) && at <= now
    requires var attempt := StepAt(mine, step.id).attempt;
      change.Fail? || (step.retry.Some? && change == RetryAt(now + Retry.Delay(step.retry.value, attempt)))
    ensures Records(m, mine, Failure, at, now, change)
  {
    hide StepById, Retry.Delay;
  }

  lemma SameRow(m: Machine, before: Row, mine: Row, change: Change, after: Row)
    requires Saved(m, before, mine, change, after)
    ensures Saved(m, mine, mine, change, after)
  {
  }

  function UndoChangeFor(outcome: StepOutcome): Change {
    match outcome
    case Success(r) => UndoDone(r)
    case WaitingUntil(t) => Wait(t)
    case Failure => UndoFailed
  }

  lemma UndoRecords(m: Machine, mine: Row, step: Step, outcome: StepOutcome, at: int, now: int)
    requires Runs(m, mine, step) && InUndo(mine)
    ensures Records(m, mine, outcome, at, now, UndoChangeFor(outcome))
    ensures mine.state.queue != [] && mine.state.queue[0] == step.id
  {
  }

  lemma StepByIdHasId(steps: seq<Step>, id: string)
    ensures StepById(steps, id).Some? ==> StepById(steps, id).value.id == id
  {
  }

  lemma MissingIsSaved(m: Machine, before: Row, outcome: StepOutcome, at: int, now: int)
    requires !Terminal(before) && InUndo(before)
    requires before.state.queue == [] || StepById(m.def.steps, before.state.queue[0]).None?
    ensures Advanced(m, before, [UndoMissing], FinishedRow(before, false))
    ensures Journey(m, before, [UndoMissing], outcome, at, now)
  {
    assert Saved(m, before, before, UndoMissing, FinishedRow(before, false));
    MarkSaved(m, before, UndoMissing, FinishedRow(before, false), outcome, at, now);
  }

  lemma NothingSaved(m: Machine, before: Row, outcome: StepOutcome, at: int, now: int)
    ensures Advanced(m, before, [], before) && Journey(m, before, [], outcome, at, now)
  {
  }

  lemma MarkSaved(m: Machine, before: Row, change: Change, marked: Row, outcome: StepOutcome, at: int, now: int)
    requires Saved(m, before, before, change, marked) && BeginsWith(change)
    ensures Advanced(m, before, [change], marked) && Journey(m, before, [change], outcome, at, now)
  {
    AdvancedOne(m, before, change, marked);
    hide Advanced, CanCommit, Commit;
  }

  lemma HappensInJourney(m: Machine, before: Row, marked: Row, step: Step, outcome: StepOutcome, at: int)
    requires Runs(m, marked, step) && !InUndo(marked) && MayHappen(step, StepAt(before, step.id), at, outcome)
    ensures MayHappen(step, PreviousOf(before, marked), at, outcome)
    ensures outcome.Success? ==> MayResult(step, outcome.result)
  {
    hide StepById;
  }
}
