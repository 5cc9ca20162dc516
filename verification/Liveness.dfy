/** When an instance can still end. On disciplined definitions without a cycle it always can, with one exception: a
    delay step used as a compensation arms its timer again on every wake-up and never finishes. */
module Liveness {
  import opened Workflow
  import opened Graph
  import opened Regions
  import opened Machines
  import opened Saga
  import opened Interpreter
  import opened Rows
  import opened Logs
  import opened ForkShape
  import opened Moves
  import opened Runs
  import opened Termination
  import opened Workers
  import opened Safety
  import opened Ledger
  import opened Waiting
  import opened Refinement
  import opened Recovery

  lemma {:induction false} LeadsOn(m: Machine, r: System, acts: seq<Action>, s: System, more: seq<Action>, t: System)
    requires Leads(m, r, acts, s) && Leads(m, s, more, t)
    ensures Leads(m, r, acts + more, t)
    decreases |more|
  {
    hide CanAct, Act;
    if more == [] {
      assert acts + more == acts;
    } else {
      var last := |more| - 1;
      var q :| LastLeads(m, s, more, q, t);
      LeadsOn(m, r, acts, s, more[..last], q);
      assert acts + more == (acts + more[..last]) + [more[last]];
      LeadsFurther(m, r, acts + more[..last], q, more[last]);
    }
  }

  lemma MayBecomeOn(m: Machine, r: System, s: System, t: System)
    requires MayBecome(m, r, s) && MayBecome(m, s, t)
    ensures MayBecome(m, r, t)
  {
    hide Leads;
    var acts :| Leads(m, r, acts, s);
    var more :| Leads(m, s, more, t);
    LeadsOn(m, r, acts, s, more, t);
  }

  lemma StillReached(m: Machine, s: System, t: System)
    requires Reached(m, s) && MayBecome(m, s, t)
    ensures Reached(m, t)
  {
    hide Leads;
    var now, acts :| Leads(m, NewSystem(now), acts, s);
    var more :| Leads(m, s, more, t);
    LeadsOn(m, NewSystem(now), acts, s, more, t);
  }

  /** The last row of a reachable state. */
  ghost predicate Fine(def: Definition, s: System) {
    && Reached(MachineOf(def), s) && s.log.rows != [] && LogOk(MachineOf(def), s.log)
    && RowOk(MachineOf(def), Row0(s)) && Sound(def, Abs(Row0(s)))
  }

  lemma ReachedIsFine(def: Definition, s: System)
    requires Disciplined(def) && Reached(MachineOf(def), s)
    ensures Fine(def, s)
  {
    hide Reached, Abs, Sound, RowOk, Tame, JoinsApart, UniqueIds;
    UniqueIdsOf(def);
    ReachedLog(MachineOf(def), s);
    WorkersRefineInterpreter(def, s, |s.log.changes|);
    ForksStayInOrder(def, s, |s.log.changes|);
  }

  /** Where a reachable instance stands is listed. */
  lemma ReachedIsListed(def: Definition, order: seq<string>, s: System)
    requires Disciplined(def) && RunOrder(def, order) && Fine(def, s)
    ensures Listed(order, Abs(Row0(s)))
  {
    hide Reached, Abs, Sound, RowOk, Tame, JoinsApart, UniqueIds, RunOrder, Listed, Run, Fuel;
    UniqueIdsOf(def);
    WorkersRefineInterpreter(def, s, |s.log.changes|);
    RunIsBounded(def, order, Events(s.log, |s.log.changes|), Abs(Row0(s)));
  }

  /** A commit that begins a step: its event burns fuel, or the step was already active. */
  lemma CommitBurns(def: Definition, order: seq<string>, row: Row, change: Change)
    requires Disciplined(def) && RunOrder(def, order) && RowOk(MachineOf(def), row)
    requires Sound(def, Abs(row)) && Listed(order, Abs(row))
    requires CanCommit(MachineOf(def), row, change)
    ensures var next := Commit(MachineOf(def), row, change);
      && RowOk(MachineOf(def), next)
      && (if EventOf(row, change).Some? then Fuel(def, order, Abs(next)) < Fuel(def, order, Abs(row))
          else Abs(next) == Abs(row))
  {
    hide Tame, JoinsApart, RunOrder, RowOk, Sound, Listed, CanCommit, Commit, Abs, EventOf, Fuel, Enabled, Next, MachineOk, UniqueIds;
    UniqueIdsOf(def);
    MachineOfOk(def);
    CommitRefines(MachineOf(def), row, change);
    if EventOf(row, change).Some? {
      EventBurns(def, order, Abs(row), EventOf(row, change).value);
    }
  }

  function Until(now: int, at: int): nat {
    if now < at then at - now else 0
  }

  /** Time enough for the lease, the wait of the instance and that of its current step to run out. */
  function Patience(s: System, row: Row): nat {
    var waiting := if row.current.Some? then StepAt(row, row.current.value).waitingTime else None;
    Until(s.now, s.lockedUntil) + (if waiting.Some? then Until(s.now, waiting.value) else 0)
  }

  lemma PatienceIsEnough(s: System, row: Row)
    ensures s.lockedBy.None? || s.lockedUntil <= s.now + Patience(s, row)
    ensures WaitIsOver(row, s.now + Patience(s, row))
    ensures row.current.Some? && StepAt(row, row.current.value).waitingTime.Some? ==>
      StepAt(row, row.current.value).waitingTime.value <= s.now + Patience(s, row)
  {
  }

  /** One more commit, with any change that may begin. */
  lemma BeginNow(m: Machine, s: System, change: Change) returns (t: System, w: nat)
    requires s.log.rows != [] && BeginsWith(change) && CanCommit(m, Row0(s), change) && FreshKey(s, change)
    ensures MayBecome(m, s, t) && t.log == Extended(m, s.log, change) && t.now == s.now + Patience(s, Row0(s))
    ensures Holds(t, w, Last(t.log), if Marks(change) then Started else Leaving(Quiet))
  {
    hide MayBecome, Holds, CanCommit, Extended, BeginsWith, FreshKey, Patience, WaitIsOver, Marks;
    PatienceIsEnough(s, Row0(s));
    t, w := CanBegin(m, s, Patience(s, Row0(s)), change);
  }

  /** What is left to do in a normal row: fuel, and a delay step that runs without having been armed. */
  function Unarmed(row: Row): nat {
    if row.current.Some? && StepAt(row, row.current.value).status == StepWaiting then 0 else 1
  }

  ghost predicate Closer(def: Definition, order: seq<string>, row: Row, next: Row) {
    || Terminal(next)
    || (Normal(next) && Fuel(def, order, Abs(next)) < Fuel(def, order, Abs(row)))
    || (Normal(next) && Abs(next) == Abs(row) && Unarmed(next) < Unarmed(row))
  }

  /** A normal row stays normal, or ends, unless its step is given up. */
  lemma StaysNormal(m: Machine, row: Row, change: Change)
    requires CanCommit(m, row, change) && Normal(row) && !change.Fail?
    ensures Normal(Commit(m, row, change)) || Terminal(Commit(m, row, change))
    ensures change.MarkRun? ==> Normal(Commit(m, row, change)) && Commit(m, row, change).current.Some?
  {
    hide ResolvedRow, CanResolveRow, NextAfter, MayResult, CanPick, IsPick, StepById;
  }

  /** The row a worker has just marked, and the one before. */
  lemma ExtendedLast(m: Machine, log: Log, change: Change)
    requires LogOk(m, log) && CanCommit(m, Last(log), change)
    ensures var longer := Extended(m, log, change);
      && Last(longer) == Commit(m, Last(log), change) && Last(longer).version == |log.rows| == |longer.rows| - 1
      && longer.rows[|log.rows|] == Last(longer) && longer.rows[|log.rows| - 1] == Last(log)
  {
    VersionIsPosition(m, log, |log.rows| - 1);
    VersionGrows(m, Last(log), change);
    hide LogOk, CanCommit, Commit;
  }

  /** What begins on a normal row whose step has not started: the step, or the end. */
  lemma ReadyChange(m: Machine, row: Row, used: set<string>) returns (change: Change)
    requires Normal(row) && PhaseOf(row).Ready?
    ensures BeginsWith(change) && CanCommit(m, row, change) && (Marks(change) ==> change.key !in used)
    ensures EventOf(row, change).Some? && !change.Fail?
  {
    hide CanResolveRow, ResolvedRow, StepById;
    change := BeginExists(m, row, used);
  }

  /** From a step that was not started yet. */
  lemma RoundReady(def: Definition, order: seq<string>, s: System) returns (t: System)
    requires Disciplined(def) && RunOrder(def, order) && Fine(def, s)
    requires Normal(Row0(s)) && PhaseOf(Row0(s)).Ready?
    ensures MayBecome(MachineOf(def), s, t) && t.log.rows != [] && Closer(def, order, Row0(s), Row0(t))
  {
    var m, row := MachineOf(def), Row0(s);
    hide Tame, JoinsApart, RunOrder, Reached, LogOk, RowOk, Sound, Listed, Fuel, Abs, MayBecome, Holds, Unarmed;
    hide CanCommit, Commit, Extended, PhaseOf, EventOf, Normal, Terminal, BeginsWith, Marks;
    var change := ReadyChange(m, row, s.usedKeys);
    ReachedIsListed(def, order, s);
    CommitBurns(def, order, row, change);
    StaysNormal(m, row, change);
    ExtendedLast(m, s.log, change);
    var w;
    t, w := BeginNow(m, s, change);
  }

  /** Every step can succeed, a delay step once it has waited. */
  lemma GoodOutcome(def: Definition, step: Step, previous: StepState, at: int) returns (outcome: StepOutcome)
    requires GoodStep(def, step)
    requires previous.status == StepWaiting && previous.waitingTime.Some? ==> previous.waitingTime.value <= at
    ensures MayHappen(step, previous, at, outcome)
    ensures outcome.Success? || (outcome.WaitingUntil? && step.kind.Delay? && previous.status != StepWaiting)
  {
    match step.kind
    case Delay =>
      outcome := if previous.status == StepWaiting then Success(Result("", "")) else WaitingUntil(at + step.config.duration);
    case Condition => outcome := Success(Result(step.config.thenRef, step.config.thenRef));
    case Fork => outcome := Success(Result(Heads(step)[0], Heads(step)[0]));
    case Join => outcome := Success(Result(step.config.next, step.config.next));
    case _ => outcome := Success(Result("", ""));
  }

  /** An active step can be marked again. */
  lemma MarkAgain(m: Machine, row: Row, key: string) returns (change: Change)
    requires RowOk(m, row) && Normal(row) && PhaseOf(row).Active? && key != ""
    ensures change == MarkRun(NoBranch, key) && CanCommit(m, row, change) && EventOf(row, change).None?
    ensures var next := Commit(m, row, change);
      && next.current == row.current == Some(PhaseOf(row).step) && Marked(next) && Normal(next)
      && StepById(m.def.steps, PhaseOf(row).step).Some?
  {
    change := MarkRun(NoBranch, key);
    hide NextAfter, IsPick;
  }

  /** The first half of a round: the active step is marked again, and may now come to an outcome of success, unless it is
      a delay that has to be armed. */
  lemma MarkActive(def: Definition, order: seq<string>, s: System) returns (t: System, w: nat, outcome: StepOutcome)
    requires Disciplined(def) && RunOrder(def, order) && Fine(def, s)
    requires Normal(Row0(s)) && PhaseOf(Row0(s)).Active?
    ensures MayBecome(MachineOf(def), s, t) && t.log.rows != [] && Holds(t, w, Row0(t), Started)
    ensures MayComeTo(MachineOf(def), t.log, Row0(t), t.now, outcome)
    ensures Normal(Row0(t)) && Abs(Row0(t)) == Abs(Row0(s)) && Marked(Row0(t)) && Row0(t).current == Row0(s).current
    ensures outcome.Success? || (outcome.WaitingUntil? && Unarmed(Row0(s)) == 1)
    ensures 0 < Row0(t).version <= |t.log.rows|
  {
    var m, row := MachineOf(def), Row0(s);
    var key := NewKey(s.usedKeys);
    hide Tame, JoinsApart, RunOrder, Reached, LogOk, RowOk, Sound, Listed, Fuel, Abs, MayBecome, Holds;
    var change := MarkAgain(m, row, key);
    ReachedIsListed(def, order, s);
    CommitBurns(def, order, row, change);
    ExtendedLast(m, s.log, change);
    assert PhaseOf(row).step == row.current.value;
    hide CanCommit, Commit, Extended, PhaseOf, EventOf, Marked, Normal;
    t, w := BeginNow(m, s, change);
    PatienceIsEnough(s, row);
    StepIsGood(def, row.current.value);
    var step, previous := StepById(def.steps, row.current.value).value, StepAt(row, row.current.value);
    hide GoodStep, StepById, MayHappen;
    outcome := GoodOutcome(def, step, previous, t.now);
    assert !InUndo(Row0(t)) by {
      assert Normal(Row0(t));
      hide *;
      NormalIsNotUndo(Row0(t));
    }
    assert Previous(t.log, Row0(t).version) == previous;
  }

  lemma NormalIsNotUndo(row: Row)
    requires Normal(row)
    ensures !InUndo(row) && !Terminal(row)
  {
  }

  /** From a step that is active, perhaps left behind by a crash. */
  lemma RoundActive(def: Definition, order: seq<string>, s: System) returns (t: System)
    requires Disciplined(def) && RunOrder(def, order) && Fine(def, s)
    requires Normal(Row0(s)) && PhaseOf(Row0(s)).Active?
    ensures MayBecome(MachineOf(def), s, t) && t.log.rows != [] && Closer(def, order, Row0(s), Row0(t))
  {
    var m := MachineOf(def);
    hide Tame, JoinsApart, RunOrder, Reached, LogOk, RowOk, Sound, Listed, Fuel, Abs, MayBecome, Holds, PhaseOf, Marked, Unarmed, Normal;
    var r, w, outcome := MarkActive(def, order, s);
    StillReached(m, s, r);
    ReachedIsFine(def, r);
    var row := Row0(r);
    NormalIsNotUndo(row);
    hide MayHappen, StepById, InUndo, Terminal;
    assert MarkedNormal(m, row) by {
      hide *;
      MarkedNormalIs(m, row);
    }
    var change := EndExists(m, row, outcome, Previous(r.log, row.version), r.now);
    ReachedIsListed(def, order, r);
    CommitBurns(def, order, row, change);
    ExtendedLast(m, r.log, change);
    EndIsEvent(m, row, change, outcome, r.now);
    hide CanCommit, Commit, Extended, EventOf, Records, Fine, MayComeTo;
    StaysNormal(m, row, change);
    t := CanEnd(m, s, r, w, outcome, change);
  }

  lemma MarkedNormalIs(m: Machine, row: Row)
    requires Normal(row) && Marked(row) && StepById(m.def.steps, row.current.value).Some?
    ensures MarkedNormal(m, row)
  {
  }

  lemma EndIsEvent(m: Machine, row: Row, change: Change, outcome: StepOutcome, now: int)
    requires CanCommit(m, row, change) && Records(m, row, outcome, now, now, change) && Normal(row) && !outcome.Failure?
    ensures if outcome.Success? then EventOf(row, change).Some? else Unarmed(Commit(m, row, change)) == 0
    ensures EventOf(row, change).None? ==> !outcome.Success?
    ensures !change.Fail?
  {
    hide StepById, NextAfter, CanPick, MayResult;
  }

  /** A normal row is brought to its end, every step from there on succeeding. */
  lemma NormalCanEnd(def: Definition, order: seq<string>, s: System) returns (t: System)
    requires Disciplined(def) && RunOrder(def, order) && Fine(def, s) && Normal(Row0(s))
    ensures MayBecome(MachineOf(def), s, t) && t.log.rows != [] && Terminal(Row0(t))
    decreases Fuel(def, order, Abs(Row0(s))), Unarmed(Row0(s))
  {
    hide Tame, JoinsApart, RunOrder, Fuel, Reached, LogOk, RowOk, Sound, Abs, MayBecome, Unarmed;
    NormalPhase(Row0(s));
    if PhaseOf(Row0(s)).Ready? {
      t := RoundReady(def, order, s);
    } else {
      t := RoundActive(def, order, s);
    }
    if !Terminal(Row0(t)) {
      StillReached(MachineOf(def), s, t);
      ReachedIsFine(def, t);
      var r := t;
      t := NormalCanEnd(def, order, r);
      MayBecomeOn(MachineOf(def), s, r, t);
    }
  }

  lemma NormalPhase(row: Row)
    requires Normal(row)
    ensures PhaseOf(row).Ready? || PhaseOf(row).Active?
  {
  }

  /** The head of the queue can be marked, if it is a step. */
  lemma MarkHead(m: Machine, row: Row, key: string) returns (change: Change)
    requires RowOk(m, row) && !Terminal(row) && InUndo(row) && key != ""
    requires StepById(m.def.steps, row.state.queue[0]).Some?
    ensures change == MarkUndo(key) && CanCommit(m, row, change)
    ensures var next := Commit(m, row, change);
      && MarkedUndo(next) && !Terminal(next) && next.state.queue == row.state.queue
      && next.current == Some(row.state.queue[0])
  {
    change := MarkUndo(key);
    hide StepById;
  }

  /** A compensation other than a delay can be run, with any result it may have, or fail. */
  lemma RunHead(def: Definition, s: System, outcome: StepOutcome, change: Change) returns (t: System)
    requires Disciplined(def) && Fine(def, s) && Compensating(Row0(s)) && HeadIs(def, Row0(s)) && !HeadStep(def, Row0(s)).kind.Delay?
    requires outcome.Failure? || (outcome.Success? && MayResult(HeadStep(def, Row0(s)), outcome.result))
    requires change == if outcome.Success? then UndoDone(outcome.result) else UndoFailed
    ensures MayBecome(MachineOf(def), s, t) && t.log.rows != []
    ensures !Terminal(Row0(t)) ==> Compensating(Row0(t)) && Row0(t).state.queue == Row0(s).state.queue[1..] && outcome.Success?
    ensures outcome.Success? ==> Row0(t).state.queue == Row0(s).state.queue[1..]
    ensures Terminal(Row0(t)) ==> Row0(t).status.InstFailed? && (outcome.Success? ==> Row0(t).state.queue == [])
  {
    var m, row := MachineOf(def), Row0(s);
    hide Tame, JoinsApart, Reached, LogOk, Sound, Abs, MayBecome, Holds, MayResult, StepById;
    var key := NewKey(s.usedKeys);
    var begin := MarkHead(m, row, key);
    ExtendedLast(m, s.log, begin);
    hide CanCommit, Commit, Extended, RowOk;
    var r, w := BeginNow(m, s, begin);
    var marked := Row0(r);
    StillReached(m, s, r);
    ReachedIsFine(def, r);
    EndOfHead(m, marked, outcome, change, r.now);
    ExtendedLast(m, r.log, change);
    assert MayComeTo(m, r.log, marked, r.now, outcome);
    assert InUndo(marked);
    hide Records, Fine, MayComeTo, MarkedUndo, InUndo;
    t := CanEnd(m, s, r, w, outcome, change);
  }

  /** Compensation is going on. */
  predicate Compensating(row: Row) {
    !Terminal(row) && InUndo(row)
  }

  predicate HeadIs(def: Definition, row: Row) {
    row.state.queue != [] && StepById(def.steps, row.state.queue[0]).Some?
  }

  function HeadStep(def: Definition, row: Row): Step
    requires HeadIs(def, row)
  {
    StepById(def.steps, row.state.queue[0]).value
  }

  lemma EndOfHead(m: Machine, row: Row, outcome: StepOutcome, change: Change, now: int)
    requires !Terminal(row) && MarkedUndo(row)
    requires outcome.Failure? || outcome.Success?
    requires change == if outcome.Success? then UndoDone(outcome.result) else UndoFailed
    ensures CanCommit(m, row, change) && Records(m, row, outcome, now, now, change)
    ensures var next := Commit(m, row, change);
      && (!Terminal(next) ==> Compensating(next) && next.state.queue == row.state.queue[1..] && outcome.Success?)
      && (outcome.Success? ==> next.state.queue == row.state.queue[1..])
      && (Terminal(next) ==> next.status.InstFailed? && (outcome.Success? ==> next.state.queue == []))
  {
  }

  ghost predicate DelayAtHead(def: Definition, row: Row) {
    Compensating(row) && HeadIs(def, row) && HeadStep(def, row).kind.Delay?
  }

  /** The execution of a delay step as a compensation never ends in anything but a new wait. */
  lemma DelayOnlyWaits(m: Machine, log: Log, effect: Effect)
    requires Possible(m, log, effect) && InUndo(log.rows[effect.version])
    requires StepById(m.def.steps, effect.step).value.kind.Delay?
    ensures effect.outcome.WaitingUntil?
  {
    hide StepById;
  }

  lemma EndingEffect(m: Machine, s: System, act: Action)
    requires Sane(m, s) && CanAct(m, s, act) && CommitFacts(m, s, act, Act(m, s, act)) && act.End?
    ensures s.log.rows != [] && EndFacts(m, s, act.w, act.change)
    ensures var effect := s.effects[s.workers[act.w].stage.e];
      Possible(m, s.log, effect) && s.log.rows[effect.version] == Row0(s)
  {
    hide CanAct, Act, PassedOk, HoldersOk, HistoryOk, CausesOk, KeysOk, LeaseOk, LogOk, Possible, Records, CanCommit, Extended;
    assert HasItsEffect(s.effects, s.workers[act.w]);
    assert EffectOk(m, s, s.effects[s.workers[act.w].stage.e]);
    hide MarkedAt, BeginsWith, FreshKey, StageAfter;
  }

  lemma DelayHeadCommit(def: Definition, row: Row, change: Change)
    requires DelayAtHead(def, row) && CanCommit(MachineOf(def), row, change)
    requires !change.UndoDone? && !change.UndoFailed?
    ensures DelayAtHead(def, Commit(MachineOf(def), row, change))
  {
    hide StepById, NormalSteps, CanResolveRow, ResolvedRow;
  }

  lemma DelayHeadStays(def: Definition, s: System, act: Action)
    requires Sane(MachineOf(def), s) && CanAct(MachineOf(def), s, act) && s.log.rows != [] && DelayAtHead(def, Row0(s))
    ensures var t := Act(MachineOf(def), s, act); t.log.rows != [] && DelayAtHead(def, Row0(t))
  {
    var m := MachineOf(def);
    hide Sane, CanAct, Act, Base, DelayAtHead;
    assert Base(m, s) by { SaneIsBase(m, s); }
    if CommitsNow(s, act) {
      CommitIs(m, s, act);
      if act.End? {
        EndingEffect(m, s, act);
        DelayEndWaits(def, s, act.w, act.change);
      }
      hide Commit, CanCommit, FreshKey, EndFacts;
      DelayHeadCommit(def, Row0(s), act.change);
    } else {
      ActIsQuiet(m, s, act);
    }
  }

  lemma SaneIsBase(m: Machine, s: System)
    requires Sane(m, s)
    ensures Base(m, s) && s.log.rows != []
  {
  }

  lemma DelayEndWaits(def: Definition, s: System, w: nat, change: Change)
    requires w in s.workers && s.log.rows != [] && DelayAtHead(def, Row0(s)) && EndFacts(MachineOf(def), s, w, change)
    requires s.workers[w].inst == Row0(s) && CanCommit(MachineOf(def), Row0(s), change)
    requires var effect := s.effects[s.workers[w].stage.e];
      Possible(MachineOf(def), s.log, effect) && s.log.rows[effect.version] == Row0(s)
    ensures change.Wait?
  {
    var effect := s.effects[s.workers[w].stage.e];
    hide StepById, NormalSteps, CanResolveRow, ResolvedRow, RetryTime;
    if change.UndoDone? || change.UndoFailed? {
      DelayOnlyWaits(MachineOf(def), s.log, effect);
    }
  }

  lemma {:induction false} DelayHeadForever(def: Definition, s: System, acts: seq<Action>, t: System)
    requires Sane(MachineOf(def), s) && Leads(MachineOf(def), s, acts, t) && s.log.rows != [] && DelayAtHead(def, Row0(s))
    ensures t.log.rows != [] && DelayAtHead(def, Row0(t))
    decreases |acts|
  {
    hide CanAct, Act, Sane, DelayAtHead;
    if acts != [] {
      var r :| LastLeads(MachineOf(def), s, acts, r, t);
      DelayHeadForever(def, s, acts[..|acts| - 1], r);
      SaneForever(MachineOf(def), s, acts[..|acts| - 1], r);
      DelayHeadStays(def, r, acts[|acts| - 1]);
    }
  }

  ghost predicate CanStillEnd(m: Machine, s: System) {
    exists t :: MayBecome(m, s, t) && t.log.rows != [] && Terminal(Row0(t))
  }

  /** A compensating row ends as failed when its first compensation fails, or is no step at all. */
  lemma UndoCanFail(def: Definition, s: System) returns (t: System)
    requires Disciplined(def) && Fine(def, s) && Compensating(Row0(s)) && !DelayAtHead(def, Row0(s))
    ensures MayBecome(MachineOf(def), s, t) && t.log.rows != [] && Terminal(Row0(t))
  {
    var m, row := MachineOf(def), Row0(s);
    hide Tame, JoinsApart, Reached, LogOk, RowOk, Sound, Abs, MayBecome, Holds, MayResult, StepById;
    if HeadIs(def, row) {
      t := RunHead(def, s, Failure, UndoFailed);
    } else {
      assert CanCommit(m, row, UndoMissing);
      ExtendedLast(m, s.log, UndoMissing);
      assert Terminal(Commit(m, row, UndoMissing));
      hide CanCommit, Commit, Extended, InUndo;
      var w;
      t, w := BeginNow(m, s, UndoMissing);
    }
  }

  /** When an instance can still end: always, unless it stands at a compensation that is a delay step. */
  lemma CanEndUnlessDelayUndoes(def: Definition, s: System)
    requires Disciplined(def) && LoopFree(def) && Reached(MachineOf(def), s)
    requires s.log.rows != [] && !Terminal(Row0(s))
    ensures CanStillEnd(MachineOf(def), s) <==> !DelayAtHead(def, Row0(s))
  {
    var m := MachineOf(def);
    ReachedIsSane(m, s);
    ReachedIsFine(def, s);
    var order := LoopFreeHasOrder(def);
    hide Tame, JoinsApart, Reached, Sane, Fine, RunOrder, DelayAtHead, LoopFree, RunGraph, InUndo;
    if DelayAtHead(def, Row0(s)) {
      forall t | MayBecome(m, s, t) ensures t.log.rows != [] && !Terminal(Row0(t)) {
        DelayNeverEnds(def, s, t);
      }
    } else {
      var t := Endable(def, order, s);
    }
  }

  lemma DelayNeverEnds(def: Definition, s: System, t: System)
    requires Sane(MachineOf(def), s) && MayBecome(MachineOf(def), s, t) && s.log.rows != [] && DelayAtHead(def, Row0(s))
    ensures t.log.rows != [] && !Terminal(Row0(t))
  {
    hide Sane, Leads;
    var acts :| Leads(MachineOf(def), s, acts, t);
    DelayHeadForever(def, s, acts, t);
  }

  lemma Endable(def: Definition, order: seq<string>, s: System) returns (t: System)
    requires Disciplined(def) && RunOrder(def, order) && Fine(def, s)
    requires !Terminal(Row0(s)) && !DelayAtHead(def, Row0(s))
    ensures MayBecome(MachineOf(def), s, t) && t.log.rows != [] && Terminal(Row0(t))
  {
    hide Tame, JoinsApart, RunOrder, Reached, LogOk, RowOk, Sound, Abs, MayBecome, DelayAtHead, InUndo, Terminal;
    if Normal(Row0(s)) {
      t := NormalCanEnd(def, order, s);
    } else {
      t := UndoCanFail(def, s);
    }
  }

  /** The first compensation of the queue can succeed. */
  lemma HeadCanSucceed(def: Definition, s: System) returns (t: System)
    requires Disciplined(def) && Fine(def, s) && Compensating(Row0(s)) && Row0(s).state.queue != []
    requires Undoable(def, Row0(s).state.queue[0])
    ensures MayBecome(MachineOf(def), s, t) && t.log.rows != [] && Row0(t).state.queue == Row0(s).state.queue[1..]
    ensures Compensating(Row0(t)) || (Row0(t).status.InstFailed? && Row0(t).state.queue == [])
  {
    var row := Row0(s);
    hide Tame, JoinsApart, Reached, LogOk, RowOk, Sound, Abs, MayBecome, InUndo, MayResult, StepById, Fine;
    StepIsGood(def, row.state.queue[0]);
    var outcome := GoodOutcome(def, HeadStep(def, row), ZERO_STEP, 0);
    NotDelayMayResult(HeadStep(def, row), ZERO_STEP, 0, outcome);
    hide GoodStep, MayHappen;
    t := RunHead(def, s, outcome, UndoDone(outcome.result));
  }

  /** When none of the queued compensations is a delay, all of them can still be run, in order, to the end. */
  lemma {:induction false} QueueCanEmpty(def: Definition, s: System) returns (t: System)
    requires Disciplined(def) && Fine(def, s) && Compensating(Row0(s)) && Row0(s).state.queue != []
    requires forall i :: 0 <= i < |Row0(s).state.queue| ==> Undoable(def, Row0(s).state.queue[i])
    ensures MayBecome(MachineOf(def), s, t) && t.log.rows != []
    ensures Row0(t).status.InstFailed? && Row0(t).state.queue == []
    decreases |Row0(s).state.queue|
  {
    var m := MachineOf(def);
    assert s.log.rows != [];
    hide Tame, JoinsApart, Reached, Sound, MayBecome, Undoable, Fine, Terminal, InUndo;
    t := HeadCanSucceed(def, s);
    if Compensating(Row0(t)) {
      StillReached(m, s, t);
      ReachedIsFine(def, t);
      OpenHasQueue(def, t);
      var r := t;
      t := QueueCanEmpty(def, r);
      MayBecomeOn(m, s, r, t);
    }
  }

  lemma OpenHasQueue(def: Definition, s: System)
    requires Fine(def, s) && Compensating(Row0(s))
    ensures Row0(s).state.queue != []
  {
    hide Reached, LogOk, Sound;
  }

  predicate Undoable(def: Definition, id: string) {
    StepById(def.steps, id).Some? && !StepById(def.steps, id).value.kind.Delay?
  }

  lemma NotDelayMayResult(step: Step, previous: StepState, at: int, outcome: StepOutcome)
    requires MayHappen(step, previous, at, outcome) && outcome.Success? && !step.kind.Delay?
    ensures MayResult(step, outcome.result)
  {
  }

  /** No step names a delay step in `on_failure`. */
  predicate NoDelayCompensates(def: Definition) {
    forall id :: id in CompensationRefs(def) && StepById(def.steps, id).Some? ==>
      !StepById(def.steps, id).value.kind.Delay?
  }

  lemma TargetIsRef(def: Definition, failed: string, completed: seq<string>, id: string)
    requires id in CompensationQueue(def, failed, completed)
    ensures id in CompensationRefs(def)
  {
    var last := CompensationQueueLaw(def, failed, completed);
    var steps := completed + [failed];
    var k :| 0 <= k < |steps| && Target(def, steps[k]) == id;
    hide CompensationQueue;
  }

  lemma CommitQueue(m: Machine, row: Row, change: Change, id: string)
    requires CanCommit(m, row, change) && id in Commit(m, row, change).state.queue
    ensures id in row.state.queue || id in CompensationRefs(m.def)
  {
    hide NextAfter, Resolve, CanResolve, IsPick, MayResult, StepById, CompensationRefs, MarkBranchFailed, CompensationQueue;
    if change.Fail? {
      TargetIsRef(m.def, row.current.value, row.state.completed, id);
    }
  }

  /** The queue holds targets of `on_failure` only. */
  lemma {:induction false} QueueIsOfTargets(m: Machine, log: Log, n: nat, id: string)
    requires LogOk(m, log) && n < |log.rows| && id in log.rows[n].state.queue
    ensures id in CompensationRefs(m.def)
  {
    hide CanCommit, Commit, CompensationRefs;
    if n > 0 {
      assert FollowsAt(m, log, n - 1);
      CommitQueue(m, log.rows[n - 1], log.changes[n - 1], id);
      if id in log.rows[n - 1].state.queue {
        QueueIsOfTargets(m, log, n - 1, id);
      }
    }
  }

  /** Without delay steps as compensations, every instance can end from wherever it is. */
  lemma AlwaysCanEnd(def: Definition, s: System)
    requires Disciplined(def) && LoopFree(def) && NoDelayCompensates(def) && Reached(MachineOf(def), s)
    requires s.log.rows != [] && !Terminal(Row0(s))
    ensures CanStillEnd(MachineOf(def), s)
  {
    CanEndUnlessDelayUndoes(def, s);
    ReachedLog(MachineOf(def), s);
    hide Tame, JoinsApart, Reached, CanStillEnd, LogOk, LoopFree, CompensationRefs, StepById;
    if DelayAtHead(def, Row0(s)) {
      QueueIsOfTargets(MachineOf(def), s.log, |s.log.rows| - 1, Row0(s).state.queue[0]);
    }
  }
}
