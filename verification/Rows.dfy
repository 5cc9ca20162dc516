/** The committed row of an instance and every change a commit can make to it (engine/engine.go). A worker commits
    twice per step: the step is marked running, and later its outcome is recorded. With the commits that only mark,
    wait or retry erased, the rows follow the sequential interpreter. */
module Rows {
  import opened Workflow
  import opened Regions
  import opened Machines
  import opened Saga
  import opened Interpreter

  datatype InstanceStatus = InstPending | InstRunning | InstWaiting | InstCompensating | InstCompleted | InstFailed

  datatype Row = Row(status: InstanceStatus, current: Option<string>, state: State, version: nat)

  const NEW_ROW: Row := Row(InstPending, None, EMPTY_STATE, 0)

  predicate Terminal(row: Row) {
    row.status.InstCompleted? || row.status.InstFailed?
  }

  /** The test with which Advance turns to compensation. */
  predicate InUndo(row: Row) {
    row.status.InstCompensating? || row.state.queue != []
  }

  function StepAt(row: Row, id: string): StepState {
    Lookup(row.state.steps, id)
  }

  /** The current step has been marked running. */
  predicate Marked(row: Row) {
    row.current.Some? && StepAt(row, row.current.value).status == StepRunning
  }

  /** What a commit does. `key` is the idempotency key generated in case the step has none yet. */
  datatype Change =
    | MarkRun(pick: Pick, key: string)
    | NoStep(pick: Pick)
    | Succeed(result: Result, pick: Pick)
    | Wait(fireAt: int)
    | RetryAt(fireAt: int)
    | Fail(pick: Pick)
    | MarkUndo(key: string)
    | UndoDone(result: Result)
    | UndoFailed
    | UndoMissing

  function ResolvedRow(m: Machine, row: Row, pick: Pick): Move
    requires ValidPick(row.state.forks, pick)
  {
    Resolve(m, DoneOf(row.state.steps), row.state.forks, row.current, pick)
  }

  ghost predicate CanResolveRow(m: Machine, row: Row, pick: Pick) {
    ValidPick(row.state.forks, pick) && CanResolve(m, DoneOf(row.state.steps), row.state.forks, row.current, pick)
  }

  /** `handleStepFailure` schedules a retry. */
  predicate HasRetry(step: Step, attempt: int) {
    step.retry.Some? && attempt <= step.retry.value.maxRetries
  }

  predicate MarkedNormal(m: Machine, row: Row) {
    !InUndo(row) && Marked(row) && StepById(m.def.steps, row.current.value).Some?
  }

  function CurrentStep(m: Machine, row: Row): Step
    requires MarkedNormal(m, row)
  {
    StepById(m.def.steps, row.current.value).value
  }

  predicate MarkedUndo(row: Row) {
    InUndo(row) && row.state.queue != [] && row.current == Some(row.state.queue[0]) && Marked(row)
  }

  ghost predicate CanCommit(m: Machine, row: Row, change: Change) {
    !Terminal(row) &&
    match change
    case MarkRun(pick, key) =>
      !InUndo(row) && CanResolveRow(m, row, pick) && ResolvedRow(m, row, pick).step.Some? && key != ""
    case NoStep(pick) => !InUndo(row) && CanResolveRow(m, row, pick) && ResolvedRow(m, row, pick).step.None?
    case Succeed(result, pick) =>
      MarkedNormal(m, row) && MayResult(CurrentStep(m, row), result) && CanPick(CurrentStep(m, row), row.state.forks, pick)
    case Wait(fireAt) => MarkedNormal(m, row) || MarkedUndo(row)
    case RetryAt(fireAt) =>
      MarkedNormal(m, row) && HasRetry(CurrentStep(m, row), StepAt(row, row.current.value).attempt)
    case Fail(pick) =>
      MarkedNormal(m, row) && !HasRetry(CurrentStep(m, row), StepAt(row, row.current.value).attempt) &&
      ValidPick(row.state.forks, pick) && IsPick(row.state.forks, row.current.value, pick)
    case MarkUndo(key) =>
      InUndo(row) && row.state.queue != [] && StepById(m.def.steps, row.state.queue[0]).Some? && key != ""
    case UndoDone(result) => MarkedUndo(row)
    case UndoFailed => MarkedUndo(row)
    case UndoMissing => InUndo(row) && (row.state.queue == [] || StepById(m.def.steps, row.state.queue[0]).None?)
  }

  function KeyFor(previous: StepState, key: string): string {
    if previous.key == "" then key else previous.key
  }

  /** markStepRunning: the attempt goes up, the key stays. */
  function RunningState(previous: StepState, key: string): StepState {
    StepState(StepRunning, "", previous.attempt + 1, KeyFor(previous, key), None)
  }

  function MarkedRow(row: Row, id: string, status: InstanceStatus, forks: Forks, key: string): Row {
    Row(status, Some(id),
        row.state.(steps := row.state.steps[id := RunningState(StepAt(row, id), key)], forks := forks),
        row.version + 1)
  }

  function FinishedRow(row: Row, success: bool): Row {
    row.(status := if success then InstCompleted else InstFailed, current := None, version := row.version + 1)
  }

  /** Attempt and key outlive the outcome of a step. */
  function OutcomeState(row: Row, id: string, status: StepStatus, outputNext: string, waiting: Option<int>): StepState {
    StepState(status, outputNext, StepAt(row, id).attempt, StepAt(row, id).key, waiting)
  }

  function SucceededRow(row: Row, id: string, outputNext: string, move: Move): Row {
    var state := Completed(row.state, id, OutcomeState(row, id, StepCompleted, outputNext, None)).(forks := move.forks);
    if move.step.None? then Row(InstCompleted, None, state, row.version + 1)
    else Row(InstRunning, Some(move.step.value.id), state, row.version + 1)
  }

  function WaitingRow(row: Row, id: string, fireAt: int): Row {
    Row(InstWaiting, Some(id),
        row.state.(steps := row.state.steps[id := OutcomeState(row, id, StepWaiting, "", Some(fireAt))]),
        row.version + 1)
  }

  function FailedRow(m: Machine, row: Row, id: string, pick: Pick): Row
    requires ValidPick(row.state.forks, pick)
  {
    var queue := CompensationQueue(m.def, id, row.state.completed);
    var state := row.state.(
      steps := row.state.steps[id := OutcomeState(row, id, StepFailed, "", None)],
      forks := MarkBranchFailed(row.state.forks, pick),
      queue := queue);
    if queue == [] then Row(InstFailed, None, state, row.version + 1)
    else Row(InstCompensating, Some(queue[0]), state, row.version + 1)
  }

  function UndoneRow(row: Row, result: Result): Row
    requires row.state.queue != []
  {
    var id, queue := row.state.queue[0], row.state.queue[1..];
    var state := Completed(row.state, id, OutcomeState(row, id, StepCompleted, result.outputNext, None)).(queue := queue);
    if queue == [] then Row(InstFailed, None, state, row.version + 1)
    else Row(InstCompensating, Some(queue[0]), state, row.version + 1)
  }

  ghost function Commit(m: Machine, row: Row, change: Change): Row
    requires CanCommit(m, row, change)
  {
    match change
    case MarkRun(pick, key) =>
      var move := ResolvedRow(m, row, pick);
      MarkedRow(row, move.step.value.id, InstRunning, move.forks, key)
    case NoStep(pick) => FinishedRow(row.(state := row.state.(forks := ResolvedRow(m, row, pick).forks)), true)
    case Succeed(result, pick) =>
      var step := CurrentStep(m, row);
      SucceededRow(row, step.id, result.outputNext, NextAfter(m, step, row.state.forks, result.next, pick))
    case Wait(fireAt) => WaitingRow(row, row.current.value, fireAt)
    case RetryAt(fireAt) => WaitingRow(row, row.current.value, fireAt)
    case Fail(pick) => FailedRow(m, row, row.current.value, pick)
    case MarkUndo(key) => MarkedRow(row, row.state.queue[0], InstCompensating, row.state.forks, key)
    case UndoDone(result) => UndoneRow(row, result)
    case UndoFailed => FinishedRow(row, false)
    case UndoMissing => FinishedRow(row, false)
  }

  /** The row as the sequential interpreter sees it: attempts, keys, waiting times and statuses are gone. */
  predicate InProgress(s: StepState) {
    s.status == StepRunning || s.status == StepWaiting
  }

  function PhaseOf(row: Row): Phase {
    if Terminal(row) then Done(row.status.InstCompleted?)
    else if InUndo(row) then Undoing
    else if row.current.Some? && InProgress(StepAt(row, row.current.value)) then Active(row.current.value)
    else Ready(row.current)
  }

  predicate Normal(row: Row) {
    !Terminal(row) && !InUndo(row)
  }

  function Abs(row: Row): Progress {
    Progress(PhaseOf(row), row.state.completed, if Normal(row) then DoneOf(row.state.steps) else map[],
             row.state.forks, row.state.queue)
  }

  /** The event a commit stands for; None for a commit that is erased. */
  function EventOf(row: Row, change: Change): Option<Event> {
    match change
    case MarkRun(pick, _) => if PhaseOf(row).Ready? then Some(Start(pick)) else None
    case NoStep(pick) => Some(Halt(pick))
    case Succeed(result, pick) => Some(Finish(result, pick))
    case Wait(_) => None
    case RetryAt(_) => None
    case Fail(pick) => Some(GiveUp(pick))
    case MarkUndo(_) => None
    case UndoDone(_) => Some(Undo)
    case UndoFailed => Some(UndoFail)
    case UndoMissing => Some(UndoFail)
  }

  /** Only the current step is in progress while normal steps run; compensation stands at the head of its queue. */
  ghost predicate RowOk(m: Machine, row: Row) {
    && (Normal(row) ==> forall id :: id in row.state.steps ==>
          row.state.steps[id].status == StepCompleted ||
          (row.current == Some(id) && InProgress(row.state.steps[id]) && StepById(m.def.steps, id).Some?))
    && (!Terminal(row) && InUndo(row) ==> row.state.queue != [] && row.current == Some(row.state.queue[0]))
  }

  /** The steps on the linear path are the steps of the definition. */
  predicate MachineOk(m: Machine) {
    forall i :: 0 <= i < |m.normal| ==> StepById(m.def.steps, m.normal[i].id) == Some(m.normal[i])
  }

  lemma {:induction false} NextNormalKnown(m: Machine, normal: seq<Step>, id: string)
    requires forall i :: 0 <= i < |normal| ==> StepById(m.def.steps, normal[i].id) == Some(normal[i])
    ensures var next := NextNormal(normal, id);
      next.Some? ==> StepById(m.def.steps, next.value.id) == next
  {
    hide StepById;
    if |normal| >= 2 {
      NextNormalKnown(m, normal[1..], id);
    }
  }

  lemma NextAfterKnown(m: Machine, step: Step, forks: Forks, next: string, pick: Pick)
    requires MachineOk(m) && ValidPick(forks, pick)
    ensures var to := NextAfter(m, step, forks, next, pick).step;
      to.Some? ==> StepById(m.def.steps, to.value.id) == to
  {
    NextNormalKnown(m, m.normal, step.id);
  }

  lemma ResolveKnown(m: Machine, done: map<string, string>, forks: Forks, current: Option<string>, pick: Pick)
    requires MachineOk(m) && ValidPick(forks, pick)
    ensures var to := Resolve(m, done, forks, current, pick).step;
      to.Some? ==> StepById(m.def.steps, to.value.id) == to
  {
    hide NextAfter;
    if current.Some? && StepById(m.def.steps, current.value).Some? && current.value in done {
      NextAfterKnown(m, StepById(m.def.steps, current.value).value, forks, done[current.value], pick);
    }
  }

  lemma DoneOfUpdate(steps: map<string, StepState>, id: string, s: StepState)
    ensures DoneOf(steps[id := s]) ==
      if s.status == StepCompleted then DoneOf(steps)[id := s.outputNext] else DoneOf(steps) - {id}
  {
  }

  /** A commit is an event of the interpreter, or does not show. */
  ghost predicate Refines(m: Machine, row: Row, change: Change)
    requires CanCommit(m, row, change)
  {
    var next := Commit(m, row, change);
    RowOk(m, next) &&
    match EventOf(row, change)
    case None => Abs(next) == Abs(row)
    case Some(e) => Enabled(m, Abs(row), e) && Abs(next) == Next(m, Abs(row), e)
  }

  lemma MarkRunRefines(m: Machine, row: Row, pick: Pick, key: string)
    requires MachineOk(m) && RowOk(m, row) && CanCommit(m, row, MarkRun(pick, key))
    ensures Refines(m, row, MarkRun(pick, key))
  {
    hide NextAfter, IsPick;
    var id := ResolvedRow(m, row, pick).step.value.id;
    DoneOfUpdate(row.state.steps, id, RunningState(StepAt(row, id), key));
    ResolveKnown(m, DoneOf(row.state.steps), row.state.forks, row.current, pick);
  }

  lemma NoStepRefines(m: Machine, row: Row, pick: Pick)
    requires RowOk(m, row) && CanCommit(m, row, NoStep(pick))
    ensures Refines(m, row, NoStep(pick))
  {
    hide NextAfter, IsPick;
  }

  lemma SucceedRefines(m: Machine, row: Row, result: Result, pick: Pick)
    requires MachineOk(m) && RowOk(m, row) && CanCommit(m, row, Succeed(result, pick))
    ensures Refines(m, row, Succeed(result, pick))
  {
    hide NextAfter, IsPick, MayResult;
    var id := row.current.value;
    DoneOfUpdate(row.state.steps, id, OutcomeState(row, id, StepCompleted, result.outputNext, None));
    NextAfterKnown(m, CurrentStep(m, row), row.state.forks, result.next, pick);
  }

  lemma WaitRefines(m: Machine, row: Row, change: Change)
    requires RowOk(m, row) && CanCommit(m, row, change) && (change.Wait? || change.RetryAt?)
    ensures Refines(m, row, change)
  {
    var id := row.current.value;
    DoneOfUpdate(row.state.steps, id, OutcomeState(row, id, StepWaiting, "", Some(change.fireAt)));
  }

  lemma FailRefines(m: Machine, row: Row, pick: Pick)
    requires RowOk(m, row) && CanCommit(m, row, Fail(pick))
    ensures Refines(m, row, Fail(pick))
  {
    hide CompensationQueue, IsPick, MarkBranchFailed;
  }

  lemma UndoRefines(m: Machine, row: Row, change: Change)
    requires RowOk(m, row) && CanCommit(m, row, change)
    requires change.MarkUndo? || change.UndoDone? || change.UndoFailed? || change.UndoMissing?
    ensures Refines(m, row, change)
  {
    hide DoneOf, StepById;
  }

  /** Every commit to a sound row refines the interpreter and leaves a sound row. */
  lemma CommitRefines(m: Machine, row: Row, change: Change)
    requires MachineOk(m) && RowOk(m, row) && CanCommit(m, row, change)
    ensures Refines(m, row, change)
  {
    hide RowOk, CanCommit, Refines;
    match change
    case MarkRun(pick, key) => MarkRunRefines(m, row, pick, key);
    case NoStep(pick) => NoStepRefines(m, row, pick);
    case Succeed(result, pick) => SucceedRefines(m, row, result, pick);
    case Fail(pick) => FailRefines(m, row, pick);
    case Wait(_) => WaitRefines(m, row, change);
    case RetryAt(_) => WaitRefines(m, row, change);
    case _ => UndoRefines(m, row, change);
  }
}
