/** Any number of workers on one instance: leases that expire, crashes at any point, duplicate messages, and commits by
    compare-and-swap on the version (engine/engine.go, store/postgres.go, timer/timer.go). Every step below is one
    atomic action on the database, the queue or the memory of one worker. */
module Workers {
  import opened Workflow
  import opened Regions
  import opened Machines
  import opened Interpreter
  import opened Rows
  import opened Logs
  import Retry

  /** What executing a step came to. */
  datatype StepOutcome = Success(result: Result) | WaitingUntil(fireAt: int) | Failure

  datatype HistoryRow = HistoryRow(step: string, attempt: int, version: nat, outcome: Option<StepOutcome>)

  /** One execution of a step by some worker: the version it had committed when it ran, the key it sent, and when. */
  datatype Effect = Effect(step: string, key: string, version: nat, at: int, outcome: StepOutcome)

  datatype Wake = Quiet | Enqueue | Arm(fireAt: int)

  /** Where a worker is in Advance. `h` and `e` are its rows in the history and in the list of effects. */
  datatype Stage =
    | Claimed
    | Checked
    | Started
    | Logged(h: nat)
    | Ran(h: nat, e: nat)
    | Recorded(h: nat, e: nat)
    | Cleared(h: nat, e: nat)
    | Leaving(wake: Wake)

  /** `inst` is the instance in the memory of the worker; its lease ends at `until`. */
  datatype Worker = Worker(inst: Row, until: int, stage: Stage)

  datatype System = System(
    log: Log, times: seq<int>, usedKeys: set<string>,
    lockedBy: Option<nat>, lockedUntil: int, workers: map<nat, Worker>, nextOwner: nat,
    history: seq<HistoryRow>, effects: seq<Effect>,
    timer: Option<int>, messages: nat, now: int)

  function NewSystem(now: int): System {
    System(NEW_LOG, [now], {}, None, 0, map[], 0, [], [], None, 0, now)
  }

  datatype Action =
    | Tick(elapsed: nat)
    | Claim(lease: int)
    | Inspect(w: nat)
    | Begin(w: nat, change: Change)
    | Append(w: nat)
    | Execute(w: nat, outcome: StepOutcome)
    | Record(w: nat)
    | ClearTimer(w: nat)
    | End(w: nat, change: Change)
    | Notify(w: nat)
    | Release(w: nat)
    | Abort(w: nat)      // some call returned an error, perhaps after taking effect
    | Crash(w: nat)
    | Recover
    | Ack
    | FireTimer(enqueued: bool)

  function Row0(s: System): Row
    requires s.log.rows != []
  {
    Last(s.log)
  }

  /** The waiting time ensureWaitingTimer looks at. */
  function WaitsFor(row: Row): Option<int> {
    if row.status.InstWaiting? && row.current.Some? then StepAt(row, row.current.value).waitingTime else None
  }

  predicate WaitIsOver(row: Row, now: int) {
    WaitsFor(row).Some? ==> WaitsFor(row).value <= now
  }

  predicate LeaseIsFree(s: System) {
    s.lockedBy.None? || s.lockedUntil <= s.now
  }

  /** executeWithSpan: a delay step that was waiting is judged by its waiting time alone; any other execution of a delay
      step arms it. Compensations are executed as if they had no previous state. */
  predicate MayHappen(step: Step, previous: StepState, at: int, outcome: StepOutcome) {
    if step.kind.Delay? then
      if previous.status == StepWaiting then
        if previous.waitingTime.None? || previous.waitingTime.value <= at then outcome == Success(Result("", ""))
        else outcome == WaitingUntil(previous.waitingTime.value)
      else outcome == WaitingUntil(at + step.config.duration)
    else outcome.Failure? || (outcome.Success? && MayResult(step, outcome.result))
  }

  /** The state a worker passes to executeWithSpan as the previous one. */
  function Previous(log: Log, version: nat): StepState
    requires 0 < version < |log.rows| && log.rows[version].current.Some?
  {
    if InUndo(log.rows[version]) then ZERO_STEP else StepAt(log.rows[version - 1], log.rows[version].current.value)
  }

  /** The change with which a worker records an outcome. A retry waits for the backoff of its attempt, counted from a
      moment between the execution and the commit. */
  predicate Records(m: Machine, row: Row, outcome: StepOutcome, at: int, now: int, change: Change) {
    match outcome
    case Success(r) => if InUndo(row) then change == UndoDone(r) else change.Succeed? && change.result == r
    case WaitingUntil(t) => change == Wait(t)
    case Failure =>
      if InUndo(row) then change == UndoFailed
      else
        change.Fail? ||
        (change.RetryAt? && row.current.Some? && RetryTime(m, row, row.current.value, at, now, change.fireAt))
  }

  predicate RetryTime(m: Machine, row: Row, id: string, at: int, now: int, fireAt: int) {
    var step := StepById(m.def.steps, id);
    step.Some? && step.value.retry.Some? &&
    var delay := Retry.Delay(step.value.retry.value, StepAt(row, id).attempt);
    at + delay <= fireAt <= now + delay
  }

  /** What a worker does after its last commit. */
  function WakeAfter(change: Change, next: Row): Wake {
    if change.Wait? || change.RetryAt? then Arm(change.fireAt)
    else if Terminal(next) then Quiet
    else Enqueue
  }

  predicate BeginsWith(change: Change) {
    Marks(change) || change.NoStep? || change.UndoMissing?
  }

  predicate FreshKey(s: System, change: Change) {
    Marks(change) ==> change.key !in s.usedKeys
  }

  ghost predicate CanAct(m: Machine, s: System, act: Action) {
    match act
    case Tick(_) => true
    case Claim(_) => s.messages > 0 && s.log.rows != [] && !Terminal(Row0(s)) && LeaseIsFree(s)
    case Inspect(w) => w in s.workers && s.workers[w].stage.Claimed?
    case Begin(w, change) =>
      w in s.workers && s.workers[w].stage.Checked? && s.log.rows != [] &&
      BeginsWith(change) && CanCommit(m, s.workers[w].inst, change) && FreshKey(s, change)
    case Append(w) => w in s.workers && s.workers[w].stage.Started? && s.workers[w].inst.current.Some?
    case Execute(w, outcome) =>
      w in s.workers && s.workers[w].stage.Logged? &&
      var inst := s.workers[w].inst;
      0 < inst.version < |s.log.rows| && inst.current.Some? && s.log.rows[inst.version] == inst &&
      StepById(m.def.steps, inst.current.value).Some? &&
      MayHappen(StepById(m.def.steps, inst.current.value).value, Previous(s.log, inst.version), s.now, outcome)
    case Record(w) => w in s.workers && s.workers[w].stage.Ran? && s.workers[w].stage.h < |s.history| &&
      s.workers[w].stage.e < |s.effects|
    case ClearTimer(w) =>
      w in s.workers && s.workers[w].stage.Recorded? && s.workers[w].stage.e < |s.effects| &&
      s.effects[s.workers[w].stage.e].outcome.Success? && !InUndo(s.workers[w].inst)
    case End(w, change) =>
      w in s.workers && s.log.rows != [] &&
      (if change.Succeed? then s.workers[w].stage.Cleared? else s.workers[w].stage.Recorded?) &&
      s.workers[w].stage.e < |s.effects| && CanCommit(m, s.workers[w].inst, change) &&
      var effect := s.effects[s.workers[w].stage.e];
      Records(m, s.workers[w].inst, effect.outcome, effect.at, s.now, change)
    case Notify(w) => w in s.workers && s.workers[w].stage.Leaving?
    case Release(w) => w in s.workers && s.workers[w].stage.Leaving?
    case Abort(w) => w in s.workers
    case Crash(w) => w in s.workers
    case Recover => s.log.rows != [] && !Terminal(Row0(s)) && LeaseIsFree(s)
    case Ack => s.messages > 0
    case FireTimer(_) => s.timer.Some?
  }

  function At(s: System, w: nat, stage: Stage): map<nat, Worker>
    requires w in s.workers
  {
    s.workers[w := s.workers[w].(stage := stage)]
  }

  /** UpdateInstance: the commit goes through if nobody else has committed since the worker read the row. */
  predicate Wins(s: System, w: nat)
    requires w in s.workers && s.log.rows != []
  {
    s.workers[w].inst.version == Row0(s).version
  }

  ghost function Committed(m: Machine, s: System, w: nat, change: Change, stage: Stage): System
    requires w in s.workers && s.log.rows != [] && CanCommit(m, s.workers[w].inst, change)
  {
    var next := Commit(m, s.workers[w].inst, change);
    s.(log := Log(s.log.rows + [next], s.log.changes + [change]), times := s.times + [s.now],
       usedKeys := if Marks(change) then s.usedKeys + {change.key} else s.usedKeys,
       workers := s.workers[w := s.workers[w].(inst := next, stage := stage)])
  }

  ghost function Act(m: Machine, s: System, act: Action): System
    requires CanAct(m, s, act)
  {
    match act
    case Tick(elapsed) => s.(now := s.now + elapsed)
    case Claim(lease) =>
      s.(lockedBy := Some(s.nextOwner), lockedUntil := s.now + lease, nextOwner := s.nextOwner + 1,
         workers := s.workers[s.nextOwner := Worker(Row0(s), s.now + lease, Claimed)])
    case Inspect(w) =>
      if WaitIsOver(s.workers[w].inst, s.now) then s.(workers := At(s, w, Checked))
      else s.(workers := At(s, w, Leaving(Arm(WaitsFor(s.workers[w].inst).value))))
    case Begin(w, change) =>
      if Wins(s, w) then Committed(m, s, w, change, if Marks(change) then Started else Leaving(Quiet))
      else s.(workers := At(s, w, Leaving(Quiet)))
    case Append(w) =>
      var inst := s.workers[w].inst;
      var id := inst.current.value;
      s.(history := s.history + [HistoryRow(id, StepAt(inst, id).attempt, inst.version, None)],
         workers := At(s, w, Logged(|s.history|)))
    case Execute(w, outcome) =>
      var inst := s.workers[w].inst;
      var id := inst.current.value;
      s.(effects := s.effects + [Effect(id, StepAt(inst, id).key, inst.version, s.now, outcome)],
         workers := At(s, w, Ran(s.workers[w].stage.h, |s.effects|)))
    case Record(w) =>
      var stage := s.workers[w].stage;
      s.(history := s.history[stage.h := s.history[stage.h].(outcome := Some(s.effects[stage.e].outcome))],
         workers := At(s, w, Recorded(stage.h, stage.e)))
    case ClearTimer(w) =>
      s.(timer := None, workers := At(s, w, Cleared(s.workers[w].stage.h, s.workers[w].stage.e)))
    case End(w, change) =>
      if Wins(s, w) then
        Committed(m, s, w, change, Leaving(WakeAfter(change, Commit(m, s.workers[w].inst, change))))
      else s.(workers := At(s, w, Leaving(Quiet)))
    case Notify(w) =>
      (match s.workers[w].stage.wake
       case Quiet => s
       case Enqueue => s.(messages := s.messages + 1, workers := At(s, w, Leaving(Quiet)))
       case Arm(t) =>
         if t <= s.now then s.(timer := None, messages := s.messages + 1, workers := At(s, w, Leaving(Quiet)))
         else s.(timer := Some(t), workers := At(s, w, Leaving(Quiet))))
    case Release(w) =>
      s.(workers := s.workers - {w}, lockedBy := if s.lockedBy == Some(w) then None else s.lockedBy)
    case Abort(w) => s.(workers := At(s, w, Leaving(Quiet)))
    case Crash(w) => s.(workers := s.workers - {w})
    case Recover => s.(messages := s.messages + 1)
    case Ack => s.(messages := s.messages - 1)
    case FireTimer(enqueued) => s.(timer := None, messages := s.messages + if enqueued then 1 else 0)
  }

  /** The actions lead from `s` to `t`. */
  ghost predicate Leads(m: Machine, s: System, acts: seq<Action>, t: System)
    decreases |acts|
  {
    if acts == [] then t == s else exists r :: LastLeads(m, s, acts, r, t)
  }

  ghost predicate LastLeads(m: Machine, s: System, acts: seq<Action>, r: System, t: System)
    requires acts != []
    decreases |acts|, 0
  {
    var last := |acts| - 1;
    CanAct(m, r, acts[last]) && t == Act(m, r, acts[last]) && Leads(m, s, acts[..last], r)
  }

  /** Some sequence of actions leads from a new system to `s`. */
  ghost predicate Reached(m: Machine, s: System) {
    exists now, acts :: Leads(m, NewSystem(now), acts, s)
  }

  lemma LeadsFurther(m: Machine, s: System, acts: seq<Action>, r: System, act: Action)
    requires Leads(m, s, acts, r) && CanAct(m, r, act)
    ensures Leads(m, s, acts + [act], Act(m, r, act))
  {
    hide CanAct, Act;
    var more := acts + [act];
    assert more[..|acts|] == acts;
    assert LastLeads(m, s, more, r, Act(m, r, act));
  }
}
