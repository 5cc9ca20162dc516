/** What the workers can bring about: exactly the runs of the sequential interpreter in which no delay step is given up
    and none is compensation. Refinement has one half, that what they commit is such a run; here is the other, that every
    such run is what some workers commit. */
module Completeness {
  import opened Workflow
  import opened Regions
  import opened Machines
  import opened Saga
  import opened Interpreter
  import opened Rows
  import opened Logs
  import opened ForkShape
  import opened Moves
  import opened Termination
  import opened Workers
  import opened Safety
  import opened Ledger
  import opened Guarantees
  import opened Waiting
  import opened Refinement
  import opened Recovery
  import opened Liveness
  import opened Limits
  import opened EndlessRuns
  import opened EarlyJoins
  import opened JoinHeads
  import Retry

  /** A step that can fail: any known step but a delay. */
  predicate CanFail(def: Definition, id: string) {
    StepById(def.steps, id).Some? && !StepById(def.steps, id).value.kind.Delay?
  }

  /** A step that can succeed as a compensation. */
  predicate CanUndo(def: Definition, id: string) {
    CanFail(def, id) && (StepById(def.steps, id).value.kind.Fork? ==> Heads(StepById(def.steps, id).value) != [])
  }

  /** What the workers can do when the interpreter is at `a` and may take event `e`. */
  predicate Feasible(def: Definition, a: Progress, e: Event) {
    match e
    case GiveUp(_) => a.phase.Active? && CanFail(def, a.phase.step)
    case Undo => a.queue != [] && CanUndo(def, a.queue[0])
    case UndoFail => a.queue != [] && (StepById(def.steps, a.queue[0]).None? || CanFail(def, a.queue[0]))
    case _ => true
  }

  /** The events lead from the initial one to `a`, and each of them is feasible where it happens. */
  ghost predicate Works(def: Definition, events: seq<Event>, a: Progress)
    decreases |events|
  {
    if events == [] then a == INITIAL else exists b :: WorksOn(def, events, b, a)
  }

  ghost predicate WorksOn(def: Definition, events: seq<Event>, b: Progress, a: Progress)
    requires events != []
    decreases |events|, 0
  {
    var e := events[|events| - 1];
    && Enabled(MachineOf(def), b, e) && Feasible(def, b, e) && a == Next(MachineOf(def), b, e)
    && Works(def, events[..|events| - 1], b)
  }

  lemma WorksExtends(def: Definition, events: seq<Event>, a: Progress, e: Event)
    requires Works(def, events, a) && Enabled(MachineOf(def), a, e) && Feasible(def, a, e)
    ensures Works(def, events + [e], Next(MachineOf(def), a, e))
  {
    var longer := events + [e];
    assert longer[..|events|] == events;
    assert WorksOn(def, longer, a, Next(MachineOf(def), a, e));
  }

  /** The log of `s` tells the events, and its last row stands where they lead. */
  ghost predicate Realizes(def: Definition, s: System, events: seq<Event>, a: Progress) {
    && Reached(MachineOf(def), s) && LogOk(MachineOf(def), s.log)
    && Events(s.log, |s.log.changes|) == events && Abs(Row0(s)) == a
  }

  /** An event the log shows is one the workers can bring about: what fails or compensates was executed. */
  lemma EventIsFeasible(def: Definition, s: System, j: nat)
    requires UniqueIds(def.steps) && Reached(MachineOf(def), s)
    requires j < |s.log.changes| < |s.log.rows| && EventOf(s.log.rows[j], s.log.changes[j]).Some?
    ensures Feasible(def, Abs(s.log.rows[j]), EventOf(s.log.rows[j], s.log.changes[j]).value)
  {
    var m := MachineOf(def);
    ReachedIsSane(m, s);
    ReachedLog(m, s);
    WorkersRefineInterpreter(def, s, j);
    hide Reached, Sane, LogOk, UniqueIds, Run, Events;
    var row, change := s.log.rows[j], s.log.changes[j];
    if BeginsWith(change) {
      assert FollowsAt(m, s.log, j) by { LogFollows(m, s.log, j); }
      BeginIsFeasible(def, row, change);
    } else {
      var e := CauseFacts(m, s, j);
      EndIsFeasible(def, s.log, row, change, s.effects[e], s.times[j + 1]);
    }
  }

  lemma LogFollows(m: Machine, log: Log, j: nat)
    requires LogOk(m, log) && j < |log.changes|
    ensures FollowsAt(m, log, j)
  {
  }

  lemma BeginIsFeasible(def: Definition, row: Row, change: Change)
    requires RowOk(MachineOf(def), row) && CanCommit(MachineOf(def), row, change) && BeginsWith(change)
    requires EventOf(row, change).Some?
    ensures Feasible(def, Abs(row), EventOf(row, change).value)
  {
    hide StepById, NormalSteps, CanResolveRow, ResolvedRow, DoneOf;
  }

  lemma EndIsFeasible(def: Definition, log: Log, row: Row, change: Change, effect: Effect, now: int)
    requires RowOk(MachineOf(def), row) && CanCommit(MachineOf(def), row, change) && EventOf(row, change).Some?
    requires Possible(MachineOf(def), log, effect) && log.rows[effect.version] == row
    requires Records(MachineOf(def), row, effect.outcome, effect.at, now, change)
    ensures Feasible(def, Abs(row), EventOf(row, change).value)
  {
    hide StepById, NormalSteps, CanResolveRow, ResolvedRow, DoneOf, RetryTime, IsPick, CanPick;
  }

  lemma NewRowIsInitial()
    ensures Abs(NEW_ROW) == INITIAL
  {
    assert DoneOf(map[]) == map[];
  }

  /** One more commit of a log. */
  lemma CommitWorks(def: Definition, row: Row, change: Change, events: seq<Event>)
    requires UniqueIds(def.steps) && RowOk(MachineOf(def), row) && CanCommit(MachineOf(def), row, change)
    requires Works(def, events, Abs(row))
    requires EventOf(row, change).Some? ==> Feasible(def, Abs(row), EventOf(row, change).value)
    ensures Works(def, events + EventShown(row, change), Abs(Commit(MachineOf(def), row, change)))
    ensures RowOk(MachineOf(def), Commit(MachineOf(def), row, change))
  {
    hide *;
    MachineOfOk(def);
    CommitIsEvent(MachineOf(def), row, change);
    if EventOf(row, change).Some? {
      WorksExtends(def, events, Abs(row), EventOf(row, change).value);
      EventShownIs(row, change);
    } else {
      EventShownIs(row, change);
      assert events + [] == events;
    }
  }

  function EventShown(row: Row, change: Change): seq<Event> {
    var e := EventOf(row, change);
    if e.Some? then [e.value] else []
  }

  lemma EventShownIs(row: Row, change: Change)
    ensures EventShown(row, change) == if EventOf(row, change).Some? then [EventOf(row, change).value] else []
  {
    hide EventOf;
  }

  lemma CommitIsEvent(m: Machine, row: Row, change: Change)
    requires MachineOk(m) && RowOk(m, row) && CanCommit(m, row, change)
    ensures var next := Commit(m, row, change);
      && RowOk(m, next)
      && (EventOf(row, change).None? ==> Abs(next) == Abs(row))
      && (EventOf(row, change).Some? ==>
            Enabled(m, Abs(row), EventOf(row, change).value) && Abs(next) == Next(m, Abs(row), EventOf(row, change).value))
  {
    CommitRefines(m, row, change);
    hide MachineOk, RowOk, CanCommit, Commit, EventOf, Abs, Enabled, Next;
  }

  lemma EventsGoOn(log: Log, n: nat)
    requires 0 < n <= |log.changes| && |log.rows| == |log.changes| + 1
    ensures Events(log, n) == Events(log, n - 1) + EventShown(log.rows[n - 1], log.changes[n - 1])
  {
    hide EventOf;
  }

  /** One half: the log of a reachable state tells a run of feasible events. */
  lemma {:induction false} WorkersWork(def: Definition, s: System, n: nat)
    requires UniqueIds(def.steps) && Reached(MachineOf(def), s) && n <= |s.log.changes| && LogOk(MachineOf(def), s.log)
    ensures Works(def, Events(s.log, n), Abs(s.log.rows[n]))
  {
    var m := MachineOf(def);
    if n == 0 {
      hide Reached, UniqueIds, CanCommit, Commit;
      NewRowIsInitial();
    } else {
      LogFollows(m, s.log, n - 1);
      var row, change := s.log.rows[n - 1], s.log.changes[n - 1];
      assert CanCommit(m, row, change) && Commit(m, row, change) == s.log.rows[n];
      hide *;
      LogHasRows(m, s.log);
      WorkersWork(def, s, n - 1);
      WorkersRefineInterpreter(def, s, n - 1);
      if EventOf(row, change).Some? {
        EventIsFeasible(def, s, n - 1);
      }
      CommitWorks(def, row, change, Events(s.log, n - 1));
      EventsGoOn(s.log, n);
    }
  }

  lemma LogHasRows(m: Machine, log: Log)
    requires LogOk(m, log)
    ensures |log.rows| == |log.changes| + 1
  {
  }

  /** One more commit, and what it tells. */
  lemma RealizesOn(def: Definition, r: System, s: System, events: seq<Event>, a: Progress, change: Change)
    requires UniqueIds(def.steps) && Realizes(def, r, events, a) && MayBecome(MachineOf(def), r, s)
    requires CanCommit(MachineOf(def), Row0(r), change) && s.log == Extended(MachineOf(def), r.log, change)
    ensures EventOf(Row0(r), change).None? ==> Realizes(def, s, events, a)
    ensures EventOf(Row0(r), change).Some? ==>
      Enabled(MachineOf(def), a, EventOf(Row0(r), change).value) &&
      Realizes(def, s, events + [EventOf(Row0(r), change).value],
               Next(MachineOf(def), a, EventOf(Row0(r), change).value))
  {
    hide *;
    var m := MachineOf(def);
    RealizedIs(def, r, events, a);
    ExtendedIs(m, r.log, change);
    StillReached(m, r, s);
    MachineOfOk(def);
    WorkersRefineInterpreter(def, r, |r.log.changes|);
    CommitIsEvent(m, Last(r.log), change);
    EventsOfPrefix(r.log, s.log, |r.log.changes|);
    EventsGoOn(s.log, |s.log.changes|);
    EventShownIs(Last(r.log), change);
    IsRealized(def, s);
    assert events + [] == events;
  }

  lemma RealizedIs(def: Definition, s: System, events: seq<Event>, a: Progress)
    requires Realizes(def, s, events, a)
    ensures Reached(MachineOf(def), s) && LogOk(MachineOf(def), s.log) && |s.log.rows| == |s.log.changes| + 1
    ensures Events(s.log, |s.log.changes|) == events && Abs(Last(s.log)) == a && Row0(s) == Last(s.log)
    ensures s.log.rows[|s.log.changes|] == Last(s.log)
  {
    hide Reached, Events, Abs, CanCommit, Commit;
  }

  lemma IsRealized(def: Definition, s: System)
    requires Reached(MachineOf(def), s)
    ensures |s.log.rows| == |s.log.changes| + 1
    ensures Realizes(def, s, Events(s.log, |s.log.changes|), Abs(Last(s.log)))
  {
    ReachedLog(MachineOf(def), s);
    hide Reached, Events, Abs, LogOk;
  }

  lemma ExtendedIs(m: Machine, log: Log, change: Change)
    requires |log.rows| == |log.changes| + 1 && CanCommit(m, Last(log), change)
    ensures var longer := Extended(m, log, change);
      && |longer.rows| == |longer.changes| + 1 && |longer.changes| == |log.changes| + 1
      && log.rows <= longer.rows && log.changes <= longer.changes
      && longer.rows[|longer.changes| - 1] == Last(log) && longer.changes[|longer.changes| - 1] == change
      && Last(longer) == Commit(m, Last(log), change)
  {
    hide CanCommit, Commit;
  }

  lemma {:induction false} EventsOfPrefix(log: Log, longer: Log, n: nat)
    requires n <= |log.changes| <= |longer.changes| && |log.rows| == |log.changes| + 1
    requires |longer.rows| == |longer.changes| + 1
    requires log.rows <= longer.rows && log.changes <= longer.changes
    ensures Events(longer, n) == Events(log, n)
  {
    hide EventOf;
    if n > 0 {
      EventsOfPrefix(log, longer, n - 1);
    }
  }

  lemma HasRows(def: Definition, s: System, events: seq<Event>, a: Progress)
    requires Realizes(def, s, events, a)
    ensures s.log.rows != []
  {
  }

  /** What is known of the last row of such a state. */
  lemma RealizedRow(def: Definition, s: System, events: seq<Event>, a: Progress)
    requires UniqueIds(def.steps) && Realizes(def, s, events, a)
    ensures s.log.rows != [] && RowOk(MachineOf(def), Row0(s)) && Abs(Row0(s)) == a
    ensures Row0(s).version == |s.log.rows| - 1
    ensures a.phase.Ready? <==> Normal(Row0(s)) && PhaseOf(Row0(s)).Ready?
    ensures a.phase.Active? ==> Row0(s).current == Some(a.phase.step)
    ensures a.phase.Active? <==> Normal(Row0(s)) && PhaseOf(Row0(s)).Active?
    ensures a.phase.Undoing? <==> Compensating(Row0(s))
  {
    hide *;
    RealizedIs(def, s, events, a);
    VersionIsPosition(MachineOf(def), s.log, |s.log.rows| - 1);
    WorkersRefineInterpreter(def, s, |s.log.changes|);
    PhaseIs(Last(s.log));
  }

  lemma PhaseIs(row: Row)
    ensures Abs(row).phase == PhaseOf(row)
    ensures Abs(row).phase.Ready? ==> Normal(row)
    ensures Abs(row).phase.Active? ==> Normal(row) && row.current == Some(Abs(row).phase.step)
    ensures Abs(row).phase.Undoing? <==> Compensating(row)
  {
    hide DoneOf, Lookup;
  }

  /** A worker begins on the instance. */
  lemma BeginRealizes(def: Definition, s: System, events: seq<Event>, a: Progress, change: Change)
    returns (t: System, w: nat)
    requires UniqueIds(def.steps) && Realizes(def, s, events, a)
    requires BeginsWith(change) && CanCommit(MachineOf(def), Row0(s), change) && FreshKey(s, change)
    ensures EventOf(Row0(s), change).None? ==> Realizes(def, t, events, a)
    ensures EventOf(Row0(s), change).Some? ==>
      Enabled(MachineOf(def), a, EventOf(Row0(s), change).value) &&
      Realizes(def, t, events + [EventOf(Row0(s), change).value],
               Next(MachineOf(def), a, EventOf(Row0(s), change).value))
    ensures t.log == Extended(MachineOf(def), s.log, change) && t.now == s.now + Patience(s, Row0(s))
    ensures Holds(t, w, Last(t.log), if Marks(change) then Started else Leaving(Quiet))
  {
    assert s.log.rows != [];
    hide Reached, MayBecome, UniqueIds, CanCommit, Commit, EventOf, Abs, Enabled, Next, Events, LogOk, Holds, Extended;
    t, w := BeginNow(MachineOf(def), s, change);
    RealizesOn(def, s, t, events, a, change);
  }

  /** A worker that has marked the last row runs the step at once and records the outcome. */
  lemma EndRealizes(def: Definition, s: System, w: nat, events: seq<Event>, a: Progress, outcome: StepOutcome, change: Change)
    returns (t: System)
    requires UniqueIds(def.steps) && Realizes(def, s, events, a) && Holds(s, w, Row0(s), Started)
    requires MayComeTo(MachineOf(def), s.log, Row0(s), s.now, outcome)
    requires CanCommit(MachineOf(def), Row0(s), change)
    requires Records(MachineOf(def), Row0(s), outcome, s.now, s.now, change)
    requires change.Succeed? <==> outcome.Success? && !InUndo(Row0(s))
    ensures EventOf(Row0(s), change).None? ==> Realizes(def, t, events, a)
    ensures EventOf(Row0(s), change).Some? ==>
      Enabled(MachineOf(def), a, EventOf(Row0(s), change).value) &&
      Realizes(def, t, events + [EventOf(Row0(s), change).value],
               Next(MachineOf(def), a, EventOf(Row0(s), change).value))
    ensures t.log == Extended(MachineOf(def), s.log, change) && t.now == s.now
  {
    var m := MachineOf(def);
    assert s.log.rows != [];
    hide Reached, MayBecome, UniqueIds, CanCommit, Commit, EventOf, Abs, Enabled, Next, Events, LogOk, Holds, Extended,
      Records, MayComeTo, InUndo;
    Now(m, s);
    t := CanEnd(m, s, s, w, outcome, change);
    RealizesOn(def, s, t, events, a, change);
  }

  /** The interpreter starts a step, or finds that there is none. */
  lemma RealizesStart(def: Definition, s: System, events: seq<Event>, a: Progress, e: Event) returns (t: System)
    requires UniqueIds(def.steps) && Realizes(def, s, events, a) && Enabled(MachineOf(def), a, e) && (e.Start? || e.Halt?)
    ensures Realizes(def, t, events + [e], Next(MachineOf(def), a, e))
  {
    var key := NewKey(s.usedKeys);
    var change := if e.Start? then MarkRun(e.pick, key) else NoStep(e.pick);
    RealizedRow(def, s, events, a);
    StartIsChange(MachineOf(def), Row0(s), change, e);
    hide Realizes, UniqueIds, CanCommit, Commit, EventOf, Abs, Enabled, Next, Holds, Extended, Patience;
    var w;
    t, w := BeginRealizes(def, s, events, a, change);
  }

  lemma StartIsChange(m: Machine, row: Row, change: Change, e: Event)
    requires Enabled(m, Abs(row), e)
    requires (e.Start? && change.MarkRun? && change.pick == e.pick && change.key != "") || (e.Halt? && change == NoStep(e.pick))
    ensures CanCommit(m, row, change) && EventOf(row, change) == Some(e)
  {
    hide Resolve, CanResolve, DoneOf;
  }

  /** A worker has marked step `id` and is about to run it. */
  ghost predicate AboutToRun(def: Definition, s: System, w: nat, id: string, previous: StepState) {
    && s.log.rows != [] && Holds(s, w, Row0(s), Started) && Row0(s).current == Some(id) && Marked(Row0(s))
    && 0 < Row0(s).version < |s.log.rows| && s.log.rows[Row0(s).version] == Row0(s)
    && Previous(s.log, Row0(s).version) == previous
  }

  /** The active step is marked once more: nothing shows, the attempt goes up, and its wait is over. */
  lemma MarkOnce(def: Definition, s: System, events: seq<Event>, a: Progress) returns (t: System, w: nat)
    requires UniqueIds(def.steps) && Realizes(def, s, events, a) && a.phase.Active?
    ensures Realizes(def, t, events, a) && Normal(Row0(t)) && StepById(def.steps, a.phase.step).Some?
    ensures AboutToRun(def, t, w, a.phase.step, StepAt(Row0(s), a.phase.step))
    ensures StepAt(Row0(t), a.phase.step).attempt == StepAt(Row0(s), a.phase.step).attempt + 1
    ensures var waiting := StepAt(Row0(s), a.phase.step).waitingTime; waiting.Some? ==> waiting.value <= t.now
  {
    var m, row := MachineOf(def), Row0(s);
    var key := NewKey(s.usedKeys);
    RealizedRow(def, s, events, a);
    var change := MarkAgain(m, row, key);
    assert LogOk(m, s.log);
    ExtendedLast(m, s.log, change);
    StepKept(m, row, change, a.phase.step);
    PatienceIsEnough(s, row);
    hide Realizes, UniqueIds, CanCommit, Commit, EventOf, Abs, Extended, Patience, LogOk, RowOk, PhaseOf, Reached, Events, Holds;
    hide Marked, Normal;
    t, w := BeginRealizes(def, s, events, a, change);
    NormalIsNotUndo(Row0(t));
  }

  /** What such a worker may find. */
  lemma MayFind(def: Definition, s: System, w: nat, id: string, previous: StepState, outcome: StepOutcome)
    requires AboutToRun(def, s, w, id, previous) && StepById(def.steps, id).Some?
    requires MayHappen(StepById(def.steps, id).value, previous, s.now, outcome)
    ensures MayComeTo(MachineOf(def), s.log, Row0(s), s.now, outcome) && Holds(s, w, Row0(s), Started)
    ensures Normal(Row0(s)) ==> MarkedNormal(MachineOf(def), Row0(s))
  {
    hide StepById, MayHappen;
  }

  lemma SucceedIsChange(m: Machine, row: Row, e: Event, now: int)
    requires e.Finish? && MarkedNormal(m, row) && Normal(row) && Enabled(m, Abs(row), e) && PhaseOf(row) == Active(row.current.value)
    ensures var change := Succeed(e.result, e.pick);
      CanCommit(m, row, change) && EventOf(row, change) == Some(e) && Records(m, row, Success(e.result), now, now, change)
  {
    hide StepById, MayResult, CanPick, DoneOf;
  }

  /** The active step succeeds, a delay step once it has been armed. */
  lemma RealizesFinish(def: Definition, s: System, events: seq<Event>, a: Progress, e: Event) returns (t: System)
    requires UniqueIds(def.steps) && Realizes(def, s, events, a) && e.Finish? && Enabled(MachineOf(def), a, e)
    requires StepById(def.steps, a.phase.step).value.kind.Delay? ==> StepAt(Row0(s), a.phase.step).status == StepWaiting
    ensures Realizes(def, t, events + [e], Next(MachineOf(def), a, e))
  {
    var previous := StepAt(Row0(s), a.phase.step);
    hide Realizes, UniqueIds, CanCommit, Commit, EventOf, Abs, Next, Holds, Records, Extended, AboutToRun, Normal, InUndo,
      StepById, CanPick;
    var r, w := MarkOnce(def, s, events, a);
    RealizedRow(def, r, events, a);
    MayFind(def, r, w, a.phase.step, previous, Success(e.result));
    hide Enabled, MayHappen, MayComeTo;
    SucceedIsChange(MachineOf(def), Row0(r), e, r.now);
    NormalIsNotUndo(Row0(r));
    t := EndRealizes(def, r, w, events, a, Success(e.result), Succeed(e.result, e.pick));
  }

  /** A delay step is armed. */
  lemma RealizesArming(def: Definition, s: System, events: seq<Event>, a: Progress) returns (t: System)
    requires UniqueIds(def.steps) && Realizes(def, s, events, a) && a.phase.Active?
    requires StepById(def.steps, a.phase.step).Some? && StepById(def.steps, a.phase.step).value.kind.Delay?
    requires StepAt(Row0(s), a.phase.step).status != StepWaiting
    ensures Realizes(def, t, events, a) && t.log.rows != [] && StepAt(Row0(t), a.phase.step).status == StepWaiting
  {
    var m, previous := MachineOf(def), StepAt(Row0(s), a.phase.step);
    hide Realizes, UniqueIds, Commit, Abs, Next, Holds, Extended, AboutToRun, Normal, InUndo, StepById, CanPick;
    var r, w := MarkOnce(def, s, events, a);
    RealizedRow(def, r, events, a);
    var until := r.now + StepById(def.steps, a.phase.step).value.config.duration;
    MayFind(def, r, w, a.phase.step, previous, WaitingUntil(until));
    NormalIsNotUndo(Row0(r));
    assert CanCommit(m, Row0(r), Wait(until));
    hide MayHappen, MayComeTo, CanCommit;
    t := EndRealizes(def, r, w, events, a, WaitingUntil(until), Wait(until));
    WaitChangeWaits(m, Row0(r), Wait(until));
    LastOfExtended(m, r.log, Wait(until));
  }

  lemma LastOfExtended(m: Machine, log: Log, change: Change)
    requires log.rows != [] && CanCommit(m, Last(log), change)
    ensures Extended(m, log, change).rows != [] && Last(Extended(m, log, change)) == Commit(m, Last(log), change)
  {
    hide CanCommit, Commit;
  }

  function RetriesLeft(step: Step, attempt: int): nat {
    if HasRetry(step, attempt) then step.retry.value.maxRetries - attempt + 1 else 0
  }

  /** The active step is marked until no retry is left. */
  lemma {:induction false} MarkUntilSpent(def: Definition, s: System, events: seq<Event>, a: Progress)
    returns (t: System, w: nat, previous: StepState)
    requires UniqueIds(def.steps) && Realizes(def, s, events, a) && a.phase.Active? && StepById(def.steps, a.phase.step).Some?
    ensures Realizes(def, t, events, a) && Normal(Row0(t)) && AboutToRun(def, t, w, a.phase.step, previous)
    ensures !HasRetry(StepById(def.steps, a.phase.step).value, StepAt(Row0(t), a.phase.step).attempt)
    decreases RetriesLeft(StepById(def.steps, a.phase.step).value, StepAt(Row0(s), a.phase.step).attempt)
  {
    hide Realizes, UniqueIds, AboutToRun, Normal, StepById;
    HasRows(def, s, events, a);
    previous := StepAt(Row0(s), a.phase.step);
    t, w := MarkOnce(def, s, events, a);
    HasRows(def, t, events, a);
    if HasRetry(StepById(def.steps, a.phase.step).value, StepAt(Row0(t), a.phase.step).attempt) {
      var r := t;
      t, w, previous := MarkUntilSpent(def, r, events, a);
    }
  }

  lemma FailIsChange(m: Machine, row: Row, e: Event, now: int)
    requires e.GiveUp? && MarkedNormal(m, row) && Normal(row) && Enabled(m, Abs(row), e) && PhaseOf(row) == Active(row.current.value)
    requires !HasRetry(CurrentStep(m, row), StepAt(row, row.current.value).attempt)
    ensures var change := Fail(e.pick);
      CanCommit(m, row, change) && EventOf(row, change) == Some(e) && Records(m, row, Failure, now, now, change)
  {
    hide StepById, DoneOf, IsPick, HasRetry;
  }

  /** The active step fails for the last time. */
  lemma RealizesGiveUp(def: Definition, s: System, events: seq<Event>, a: Progress, e: Event) returns (t: System)
    requires UniqueIds(def.steps) && Realizes(def, s, events, a) && e.GiveUp?
    requires Enabled(MachineOf(def), a, e) && Feasible(def, a, e)
    ensures Realizes(def, t, events + [e], Next(MachineOf(def), a, e))
  {
    hide Realizes, UniqueIds, CanCommit, Commit, EventOf, Abs, Next, Holds, Records, Extended, AboutToRun, Normal, InUndo,
      StepById, IsPick, HasRetry;
    var r, w, previous := MarkUntilSpent(def, s, events, a);
    RealizedRow(def, r, events, a);
    MayFind(def, r, w, a.phase.step, previous, Failure);
    FailIsChange(MachineOf(def), Row0(r), e, r.now);
    NormalIsNotUndo(Row0(r));
    hide Enabled, MayHappen, MayComeTo;
    t := EndRealizes(def, r, w, events, a, Failure, Fail(e.pick));
  }

  /** The head of the queue is marked: nothing shows. */
  lemma MarkHeadOnce(def: Definition, s: System, events: seq<Event>, a: Progress) returns (t: System, w: nat)
    requires UniqueIds(def.steps) && Realizes(def, s, events, a) && a.phase.Undoing? && a.queue != []
    requires StepById(def.steps, a.queue[0]).Some?
    ensures Realizes(def, t, events, a) && Compensating(Row0(t)) && MarkedUndo(Row0(t))
    ensures AboutToRun(def, t, w, a.queue[0], ZERO_STEP)
  {
    var m, row := MachineOf(def), Row0(s);
    var key := NewKey(s.usedKeys);
    RealizedRow(def, s, events, a);
    assert row.state.queue == a.queue;
    var change := MarkHead(m, row, key);
    assert LogOk(m, s.log) && EventOf(row, change).None?;
    ExtendedLast(m, s.log, change);
    hide Realizes, UniqueIds, CanCommit, Commit, EventOf, Abs, Extended, Patience, LogOk, RowOk, PhaseOf, Reached, Events, Holds;
    hide Marked;
    t, w := BeginRealizes(def, s, events, a, change);
  }

  lemma UndoIsChange(m: Machine, row: Row, e: Event, outcome: StepOutcome, now: int) returns (change: Change)
    requires Compensating(row) && MarkedUndo(row) && (e.Undo? || e.UndoFail?)
    requires if e.Undo? then outcome.Success? else outcome.Failure?
    ensures CanCommit(m, row, change) && EventOf(row, change) == Some(e) && Records(m, row, outcome, now, now, change)
    ensures !change.Succeed?
  {
    change := if e.Undo? then UndoDone(outcome.result) else UndoFailed;
    EndOfHead(m, row, outcome, change, now);
    hide CanCommit, Records, InUndo;
  }

  /** The head of the queue is run, and succeeds or fails; or it is no step. */
  lemma RealizesUndo(def: Definition, s: System, events: seq<Event>, a: Progress, e: Event) returns (t: System)
    requires UniqueIds(def.steps) && Realizes(def, s, events, a) && (e.Undo? || e.UndoFail?)
    requires Enabled(MachineOf(def), a, e) && Feasible(def, a, e)
    ensures Realizes(def, t, events + [e], Next(MachineOf(def), a, e))
  {
    var m := MachineOf(def);
    hide Realizes, UniqueIds, Commit, Abs, Next, Holds, Records, Extended, AboutToRun, Marked, Normal, StepById;
    if StepById(def.steps, a.queue[0]).Some? {
      var r, w := MarkHeadOnce(def, s, events, a);
      var outcome := if e.Undo? then Success(AnyResult(StepById(def.steps, a.queue[0]).value)) else Failure;
      HeadMayEnd(StepById(def.steps, a.queue[0]).value, e, r.now, outcome);
      MayFind(def, r, w, a.queue[0], ZERO_STEP, outcome);
      var change := UndoIsChange(m, Row0(r), e, outcome, r.now);
      assert InUndo(Row0(r));
      hide CanCommit, Enabled, MayHappen, MayComeTo, MarkedUndo, Feasible, EventOf, InUndo;
      t := EndRealizes(def, r, w, events, a, outcome, change);
    } else {
      RealizedRow(def, s, events, a);
      MissingIsChange(m, Row0(s), e);
      hide CanCommit, Enabled, Feasible, EventOf, InUndo, Patience;
      var w;
      t, w := BeginRealizes(def, s, events, a, UndoMissing);
    }
  }

  lemma MissingIsChange(m: Machine, row: Row, e: Event)
    requires e.UndoFail? && Compensating(row) && Abs(row).queue != [] && StepById(m.def.steps, Abs(row).queue[0]).None?
    ensures CanCommit(m, row, UndoMissing) && EventOf(row, UndoMissing) == Some(e)
  {
    hide StepById, DoneOf;
  }

  function AnyResult(step: Step): Result {
    match step.kind
    case Condition => Result(step.config.thenRef, step.config.thenRef)
    case Fork => if Heads(step) == [] then Result("", "") else Result(Heads(step)[0], Heads(step)[0])
    case Join => Result(step.config.next, step.config.next)
    case _ => Result("", "")
  }

  lemma HeadMayEnd(step: Step, e: Event, now: int, outcome: StepOutcome)
    requires !step.kind.Delay? && (step.kind.Fork? && e.Undo? ==> Heads(step) != [])
    requires outcome == if e.Undo? then Success(AnyResult(step)) else Failure
    ensures MayHappen(step, ZERO_STEP, now, outcome)
  {
  }

  lemma NothingHappened(def: Definition) returns (s: System)
    ensures Realizes(def, s, [], INITIAL)
  {
    s := NewSystem(0);
    assert Leads(MachineOf(def), s, [], s);
    NewRowIsInitial();
  }

  /** One more event. */
  lemma RealizesEvent(def: Definition, s: System, events: seq<Event>, a: Progress, e: Event) returns (t: System)
    requires UniqueIds(def.steps) && Realizes(def, s, events, a) && Enabled(MachineOf(def), a, e) && Feasible(def, a, e)
    ensures Realizes(def, t, events + [e], Next(MachineOf(def), a, e))
  {
    hide Realizes, UniqueIds, Next, Feasible, StepById, CanPick, IsPick, CanResolve;
    match e
    case Finish(_, _) =>
      var r := s;
      HasRows(def, s, events, a);
      if StepById(def.steps, a.phase.step).value.kind.Delay? && StepAt(Row0(s), a.phase.step).status != StepWaiting {
        r := RealizesArming(def, s, events, a);
      }
      t := RealizesFinish(def, r, events, a, e);
    case GiveUp(_) => t := RealizesGiveUp(def, s, events, a, e);
    case Undo => t := RealizesUndo(def, s, events, a, e);
    case UndoFail => t := RealizesUndo(def, s, events, a, e);
    case _ => t := RealizesStart(def, s, events, a, e);
  }

  /** The other half: whatever the interpreter can do with feasible events, some workers do. */
  lemma {:induction false} EveryRunIsWorked(def: Definition, events: seq<Event>, a: Progress) returns (s: System)
    requires UniqueIds(def.steps) && Works(def, events, a)
    ensures Realizes(def, s, events, a)
    decreases |events|
  {
    if events == [] {
      hide UniqueIds, Enabled, Feasible, Next, Realizes;
      s := NothingHappened(def);
    } else {
      var b :| WorksOn(def, events, b, a);
      var before, e := events[..|events| - 1], events[|events| - 1];
      assert events == before + [e];
      assert Works(def, before, b) && Enabled(MachineOf(def), b, e) && Feasible(def, b, e);
      assert a == Next(MachineOf(def), b, e);
      hide *;
      var r := EveryRunIsWorked(def, before, b);
      s := RealizesEvent(def, r, before, b, e);
    }
  }

  /** The workers bring about exactly the runs of feasible events. */
  lemma WorkersDoExactly(def: Definition, events: seq<Event>, a: Progress)
    requires UniqueIds(def.steps)
    ensures (exists s :: Realizes(def, s, events, a)) <==> Works(def, events, a)
  {
    hide UniqueIds, Works;
    if s :| Realizes(def, s, events, a) {
      hide Reached, LogOk, Abs, Events;
      LogHasRows(MachineOf(def), s.log);
      WorkersWork(def, s, |s.log.changes|);
    }
    if Works(def, events, a) {
      hide Realizes;
      var s := EveryRunIsWorked(def, events, a);
    }
  }

  lemma {:induction false} UnfailingWorks(def: Definition, events: seq<Event>, a: Progress)
    requires Run(MachineOf(def), events, a) && Unfailing(events)
    ensures Works(def, events, a)
    decreases |events|
  {
    hide Enabled, Next;
    if events != [] {
      var last := |events| - 1;
      var b :| RunStep(MachineOf(def), events, b, a);
      UnfailingWorks(def, events[..last], b);
      assert Feasible(def, b, events[last]);
      assert WorksOn(def, events, b, a);
    }
  }

  /** In particular some workers bring about every run without failures. */
  lemma SmoothRunIsReached(def: Definition, events: seq<Event>, a: Progress) returns (s: System)
    requires UniqueIds(def.steps) && SmoothRun(MachineOf(def), events, a)
    ensures Realizes(def, s, events, a)
  {
    hide UniqueIds, Run, Unfailing, Works, Realizes;
    UnfailingWorks(def, events, a);
    s := EveryRunIsWorked(def, events, a);
  }

  ghost predicate WorkWithin(def: Definition, bound: nat) {
    forall s :: Reached(MachineOf(def), s) ==> WorkDone(s.log) <= bound
  }

  /** The work of all systems of workers on a disciplined definition is bounded if and only if no loop of its run graph can
      be reached from its first step. */
  lemma WorkIsBoundedIff(def: Definition)
    requires Disciplined(def)
    ensures (exists bound :: WorkWithin(def, bound)) <==> LoopFree(def)
  {
    hide Tame, JoinsApart, LoopFree, Reached, WorkDone;
    if LoopFree(def) {
      var bound := WorkIsBounded(def);
      assert WorkWithin(def, bound);
    } else {
      hide WorkWithin;
      if bound :| WorkWithin(def, bound) {
        WorkGoesBeyond(def, bound);
      }
    }
  }

  lemma WorkGoesBeyond(def: Definition, bound: nat)
    requires Disciplined(def) && !LoopFree(def)
    ensures !WorkWithin(def, bound)
  {
    assert exists id :: IsFirst(def, id) && CanLoop(def, id) by { hide IsFirst, RunGraph; }
    hide Tame, JoinsApart, IsFirst, CanLoop, SmoothRun, Reached, WorkDone, Realizes, WorkWithin;
    var id :| IsFirst(def, id) && CanLoop(def, id);
    var events, a := RunsGoOn(def, id, bound);
    UniqueIdsOf(def);
    var s := SmoothRunIsReached(def, events, a);
    WorkIsEvents(def, s, events, a);
    assert !WorkWithin(def, bound) by { hide Tame, JoinsApart, IsFirst, CanLoop, SmoothRun, Reached, WorkDone, Realizes; }
  }

  lemma WorkIsEvents(def: Definition, s: System, events: seq<Event>, a: Progress)
    requires Realizes(def, s, events, a)
    ensures Reached(MachineOf(def), s) && WorkDone(s.log) == |events|
  {
    RealizedIs(def, s, events, a);
    hide Reached, Events, Abs, LogOk;
  }

  /** No committed row stands at the join of a fork that is not done. */
  ghost predicate WorkersJoinSafe(def: Definition) {
    forall s, n: nat :: Reached(MachineOf(def), s) && n < |s.log.rows| ==> !Unsafe(def, Abs(s.log.rows[n]))
  }

  /** The same for the workers. */
  lemma WorkersJoinSafeIff(def: Definition)
    requires Tame(def) && LoopFree(def)
    ensures WorkersJoinSafe(def) <==> ReachedJoinsApart(def)
  {
    hide Tame, LoopFree, Reached, Unsafe, SmoothRun, BeginsThere, IsReached;
    AllUniqueIds(def);
    if ReachedJoinsApart(def) {
      hide ReachedJoinsApart, Run, Abs;
      ReachedIsSafe(def);
      forall s, n: nat | Reached(MachineOf(def), s) && n < |s.log.rows| ensures !Unsafe(def, Abs(s.log.rows[n])) {
        ReachedLog(MachineOf(def), s);
        WorkersRefineInterpreter(def, s, n);
      }
    } else {
      hide ReachedJoinsApart;
      var goal, j := NotApartHasHead(def);
      var events, a := ReachedForkIsUnsafe(def, goal, j);
      var s := SmoothRunIsReached(def, events, a);
      RealizedIs(def, s, events, a);
      assert !WorkersJoinSafe(def) by { hide Abs, Realizes, LogOk, Events; }
    }
  }

  lemma AllUniqueIds(def: Definition)
    requires Tame(def)
    ensures UniqueIds(def.steps)
  {
  }
}
