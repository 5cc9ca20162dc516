/** What the system of workers does to the table of instances, and a table that keeps an instance from being recovered. */
module Starvation {
  import opened Workflow
  import opened Regions
  import opened Machines
  import opened Saga
  import opened Interpreter
  import opened Rows
  import opened Logs
  import opened ForkShape
  import opened Workers
  import opened Safety
  import opened Ledger
  import opened Refinement
  import opened Recovery
  import opened Liveness
  import opened Recoverable
  import opened Validator
  import opened Acceptance
  import opened Limits

  /** A running step has no waiting time. */
  lemma RunningTime(m: Machine, row: Row, change: Change, id: string)
    requires CanCommit(m, row, change)
    ensures var before, after := StepAt(row, id), StepAt(Commit(m, row, change), id);
      after.status == StepRunning ==> after == before || after.waitingTime.None?
  {
    hide Resolve, NextAfter, CanResolve, IsPick, MayResult, MarkBranchFailed;
  }

  lemma {:induction false} RunningHasNoTime(m: Machine, log: Log, n: nat, id: string)
    requires LogOk(m, log) && n < |log.rows| && StepAt(log.rows[n], id).status == StepRunning
    ensures StepAt(log.rows[n], id).waitingTime.None?
  {
    hide CanCommit, Commit;
    if n > 0 {
      assert FollowsAt(m, log, n - 1);
      RunningTime(m, log.rows[n - 1], log.changes[n - 1], id);
      if StepAt(log.rows[n], id) == StepAt(log.rows[n - 1], id) {
        RunningHasNoTime(m, log, n - 1, id);
      }
    }
  }

  lemma EndsMarked(m: Machine, row: Row, change: Change)
    requires CanCommit(m, row, change) && !BeginsWith(change)
    ensures row.current.Some? && StepAt(row, row.current.value).status == StepRunning
  {
    hide StepById, MayResult, CanPick, IsPick, HasRetry;
  }

  /** No worker commits to a row that still waits. */
  lemma CommitsAfterWait(m: Machine, s: System, act: Action)
    requires Sane(m, s) && CanAct(m, s, act) && CommitsNow(s, act)
    ensures s.log.rows != [] && WaitIsOver(Row0(s), s.now)
  {
    assert Base(m, s) && PassedOk(s);
    CommitIs(m, s, act);
    hide Sane, CanAct, Act, LogOk, TimesOk, MemoryOk, CanCommit, Commit, Extended, Records, FreshKey, BeginsWith, WakeAfter;
    if act.End? {
      EndsMarked(m, Row0(s), act.change);
      RunningHasNoTime(m, s.log, |s.log.rows| - 1, Row0(s).current.value);
    }
  }

  /** The instance as it stands in the table. */
  function PlaceOf(s: System): Place
    requires s.log.rows != [] && s.times != []
  {
    Place(Row0(s), if s.lockedBy.Some? then Some(s.lockedUntil) else None, s.times[|s.times| - 1])
  }

  /** What an action does to the table. */
  function OpOf(s: System, act: Action, id: string, next: System): Option<Op>
    requires next.log.rows != []
  {
    if CommitsNow(s, act) then Some(Save(id, Row0(next)))
    else if act.Claim? then Some(Lock(id, next.lockedUntil))
    else if s.lockedBy.Some? && next.lockedBy.None? then Some(Unlock(id))
    else None
  }

  lemma SaneHasRows(m: Machine, s: System)
    requires Sane(m, s)
    ensures s.log.rows != [] && |s.times| == |s.log.rows| && Base(m, s)
  {
    hide LogOk;
  }

  lemma CommitIsSave(m: Machine, s: System, act: Action, rows: Table, id: string)
    requires Sane(m, s) && CanAct(m, s, act) && CommitsNow(s, act) && s.log.rows != [] && s.times != []
    requires id in rows && rows[id] == PlaceOf(s)
    ensures var t := Act(m, s, act);
      && t.log.rows != [] && t.times != [] && s.now <= t.now
      && CanApply(rows, s.now, Save(id, Row0(t))) && Apply(rows, s.now, Save(id, Row0(t))) == rows[id := PlaceOf(t)]
  {
    SaneHasRows(m, s);
    var t := Act(m, s, act);
    CommitsAfterWait(m, s, act);
    CommitIs(m, s, act);
    hide Sane, Base, CanAct, Act, CanCommit, Commit, WakeAfter, EndFacts, FreshKey, WaitIsOver, CommitsNow, BeginsWith,
      StageAfter;
  }

  lemma QuietIsOp(m: Machine, s: System, act: Action, rows: Table, id: string)
    requires Sane(m, s) && CanAct(m, s, act) && !CommitsNow(s, act) && s.log.rows != [] && s.times != []
    requires id in rows && rows[id] == PlaceOf(s)
    ensures var t := Act(m, s, act);
      && t.log.rows != [] && t.times != [] && s.now <= t.now
      && match OpOf(s, act, id, t)
         case None => PlaceOf(t) == PlaceOf(s)
         case Some(op) => op.id == id && CanApply(rows, s.now, op) && Apply(rows, s.now, op) == rows[id := PlaceOf(t)]
  {
    SaneHasRows(m, s);
    QuietIs(m, s, act);
    hide Sane, Base, CanAct, Act, HistoryMoves, EffectsMove, MovesTo, WaitIsOver, CommitsNow;
  }

  /** Every action of a worker is an operation on the table, one that may be applied, or leaves the table alone. */
  lemma ActIsOp(m: Machine, s: System, act: Action, rows: Table, id: string)
    requires Sane(m, s) && CanAct(m, s, act) && s.log.rows != [] && s.times != []
    requires id in rows && rows[id] == PlaceOf(s)
    ensures var t := Act(m, s, act);
      && t.log.rows != [] && t.times != [] && s.now <= t.now
      && match OpOf(s, act, id, t)
         case None => PlaceOf(t) == PlaceOf(s)
         case Some(op) => op.id == id && CanApply(rows, s.now, op) && Apply(rows, s.now, op) == rows[id := PlaceOf(t)]
  {
    hide Sane, CanAct, Act, PlaceOf, CanApply, Apply, CommitsNow;
    if CommitsNow(s, act) {
      CommitIsSave(m, s, act, rows, id);
    } else {
      QuietIsOp(m, s, act, rows, id);
    }
  }

  /** So a run of the workers on one instance is a sequence of moments of its table. */
  lemma {:induction false} WorkersKeepTable(m: Machine, s: System, acts: seq<Action>, t: System, rows: Table, id: string)
    returns (moments: seq<Moment>)
    requires Sane(m, s) && Leads(m, s, acts, t) && s.log.rows != [] && s.times != []
    requires id in rows && rows[id] == PlaceOf(s)
    ensures t.log.rows != [] && t.times != [] && s.now <= t.now
    ensures Becomes(rows, s.now, moments, t.now, rows[id := PlaceOf(t)])
    decreases |acts|
  {
    hide CanAct, Act, Sane, Apply, CanApply, PlaceOf;
    if acts == [] {
      moments := [];
      assert rows[id := PlaceOf(t)] == rows;
    } else {
      var last := |acts| - 1;
      var r :| LastLeads(m, s, acts, r, t);
      moments := WorkersKeepTable(m, s, acts[..last], r, rows, id);
      SaneForever(m, s, acts[..last], r);
      var between := rows[id := PlaceOf(r)];
      ActIsOp(m, r, acts[last], between, id);
      assert between[id := PlaceOf(t)] == rows[id := PlaceOf(t)];
      match OpOf(r, acts[last], id, t)
      case None => BecomesLater(rows, s.now, moments, r.now, between, t.now);
      case Some(op) =>
        BecomesFurther(rows, s.now, moments, r.now, between, Moment(r.now, op), t.now);
        moments := moments + [Moment(r.now, op)];
    }
  }

  lemma {:induction false} BecomesLater(rows: Table, start: int, moments: seq<Moment>, end: int, after: Table, later: int)
    requires Becomes(rows, start, moments, end, after) && end <= later
    ensures Becomes(rows, start, moments, later, after)
    decreases |moments|
  {
    if moments != [] {
      var first := moments[0];
      BecomesLater(Apply(rows, first.now, first.op), first.now, moments[1..], end, after, later);
    }
  }

  lemma {:induction false} BecomesFurther(rows: Table, start: int, moments: seq<Moment>, end: int, after: Table,
                                          moment: Moment, later: int)
    requires Becomes(rows, start, moments, end, after) && end <= moment.now <= later
    requires CanApply(after, moment.now, moment.op)
    ensures Becomes(rows, start, moments + [moment], later, Apply(after, moment.now, moment.op))
    decreases |moments|
  {
    hide Apply;
    var more := moments + [moment];
    if moments == [] {
      assert more[1..] == [];
    } else {
      var first := moments[0];
      assert more[1..] == moments[1..] + [moment];
      BecomesFurther(Apply(rows, first.now, first.op), first.now, moments[1..], end, after, moment, later);
    }
  }

  /** Whatever the workers do, an instance that waits keeps its row and its place in the list until the wait is over. */
  lemma WaitingInstanceKeepsItsPlace(m: Machine, s: System, acts: seq<Action>, t: System)
    requires Reached(m, s) && Leads(m, s, acts, t) && s.log.rows != [] && s.times != []
    requires !WaitIsOver(Row0(s), t.now)
    ensures t.log.rows != [] && t.times != [] && Row0(t) == Row0(s) && PlaceOf(t).updatedAt == PlaceOf(s).updatedAt
  {
    ReachedIsSane(m, s);
    hide Reached, Sane, Leads, WaitIsOver;
    var rows := map["" := PlaceOf(s)];
    var moments := WorkersKeepTable(m, s, acts, t, rows, "");
    WaitingKeepsItsPlace(rows, s.now, moments, t.now, rows["" := PlaceOf(t)], "");
  }

  /** A definition of one delay step. */
  function OneDelay(duration: int): Definition {
    Definition("wait", 1, [DelayOf(duration)])
  }

  function DelayOf(duration: int): Step {
    Step("d", Delay, Config("", "", "", "", None, duration, ""), None, "")
  }

  lemma OneDelayMachine(duration: int)
    ensures MachineOf(OneDelay(duration)).normal == [DelayOf(duration)]
  {
    var def := OneDelay(duration);
    assert def.steps[0] == DelayOf(duration);
    assert NormalSteps(def, 1) == NormalSteps(def, 0) + [def.steps[0]] by { hide InRegion; }
  }

  /** The row of an instance that waits until the given time. */
  function WaitingUntilRow(at: int): Row {
    Row(InstWaiting, Some("d"), EMPTY_STATE.(steps := map["d" := StepState(StepWaiting, "", 1, "k", Some(at))]), 2)
  }

  function RunningRow(): Row {
    Row(InstRunning, Some("d"), EMPTY_STATE.(steps := map["d" := StepState(StepRunning, "", 1, "k", None)]), 1)
  }

  lemma DelayCommits(duration: int, at: int)
    ensures var m := MachineOf(OneDelay(duration));
      && CanCommit(m, NEW_ROW, MarkRun(NoBranch, "k")) && Commit(m, NEW_ROW, MarkRun(NoBranch, "k")) == RunningRow()
      && CanCommit(m, RunningRow(), Wait(at)) && Commit(m, RunningRow(), Wait(at)) == WaitingUntilRow(at)
  {
    OneDelayMachine(duration);
    hide NormalSteps;
  }

  lemma DelayMayWait(duration: int, log: Log)
    requires log == Log([NEW_ROW, RunningRow()], [MarkRun(NoBranch, "k")])
    ensures MayComeTo(MachineOf(OneDelay(duration)), log, RunningRow(), 0, WaitingUntil(duration))
  {
    assert OneDelay(duration).steps[0] == DelayOf(duration);
    hide NormalSteps;
  }

  /** The instance is started, and waits. */
  lemma WaitingIsReached(duration: int) returns (s: System)
    ensures Reached(MachineOf(OneDelay(duration)), s) && s.log.rows != [] && Row0(s) == WaitingUntilRow(duration)
    ensures s.times != [] && PlaceOf(s).updatedAt <= 0 && s.now == 1
  {
    var m := MachineOf(OneDelay(duration));
    var start := NewSystem(0);
    assert Leads(m, start, [], start);
    DelayCommits(duration, duration);
    hide Reached, MayBecome, Leads, Holds, CanCommit, Commit, MayComeTo;
    var r, w := BeginNow(m, start, MarkRun(NoBranch, "k"));
    assert r.log == Log([NEW_ROW, RunningRow()], [MarkRun(NoBranch, "k")]) && r.now == 0;
    DelayMayWait(duration, r.log);
    var t := CanEnd(m, start, r, w, WaitingUntil(duration), Wait(duration));
    assert t.log.rows == r.log.rows + [WaitingUntilRow(duration)] && t.now == 0;
    s := ThenTick(m, start, t, 1);
    StillReached(m, start, t);
    StillReached(m, start, s);
    ReachedIsSane(m, t);
    TimesEndNow(m, t);
  }

  lemma TimesEndNow(m: Machine, s: System)
    requires Sane(m, s) && s.now == 0 && Reached(m, s)
    ensures s.times != [] && s.times[|s.times| - 1] <= 0
  {
    hide LogOk, MemoryOk, Reached;
    assert TimesOk(s);
  }

  lemma OneDelayAccepted(duration: int)
    ensures Accepted(OneDelay(duration)) && Disciplined(OneDelay(duration))
  {
    var def := OneDelay(duration);
    assert def.steps[0] == DelayOf(duration);
    assert "d"[0] != ' ' && "wait"[0] != ' ';
    assert !IsBlank("d") && !IsBlank("wait");
    assert FineStep(def, 0) && ForwardStep(def, 0) && Forward(def) by { hide IsNormal; }
    hide Forward, FineStep, CheckedGraph, InRegion;
    AcceptedWhen(def);
  }

  /** What a recovery at time `now` may list, after workers have been at the table and have released everything. */
  ghost predicate LaterListed(rows: Table, start: int, moments: seq<Moment>, now: int, after: Table, listed: set<string>) {
    && Becomes(rows, start, moments, now, after) && (forall w :: w in after ==> IsUnlocked(after[w], now))
    && MayList(after, now, RECOVERY_LIMIT, listed)
  }

  /** There is such a table, of instances the workers reach: all but one wait, the one left could go on and is recoverable,
      and no recovery enqueues it up to time `now`. */
  lemma StarvationHappens(now: int) returns (rows: Table, id: string, s: System)
    requires 1 < now
    ensures Reached(MachineOf(OneDelay(now + 1)), s) && s.now == 1 && s.log.rows != [] && s.times != []
    ensures id in rows && rows[id] == PlaceOf(NewSystem(1))
    ensures forall w :: w in rows && w != id ==> rows[w] == PlaceOf(s)
    ensures id in RecoverableIds(rows, now) && WaitIsOver(rows[id].row, now)
    ensures forall moments, after, listed :: LaterListed(rows, 1, moments, now, after, listed) ==> id !in listed
  {
    var waiting := ManyIds(RECOVERY_LIMIT);
    s := WaitingIsReached(now + 1);
    id := "";
    rows := map w | w in waiting + {id} :: if w == id then PlaceOf(NewSystem(1)) else PlaceOf(s);
    assert forall w :: w in waiting ==> w in rows && WaitsOlder(rows[w], rows[id], now);
    assert rows[id].updatedAt == 1;
    hide Reached, WaitsOlder, LaterListed, PlaceOf, WaitingUntilRow;
    forall moments, after, listed | LaterListed(rows, 1, moments, now, after, listed) ensures id !in listed {
      NeverListed(rows, waiting, id, moments, now, after, listed);
    }
  }

  predicate WaitsOlder(place: Place, other: Place, now: int) {
    !WaitIsOver(place.row, now) && !Terminal(place.row) && place.updatedAt < other.updatedAt
  }

  lemma NeverListed(rows: Table, waiting: set<string>, id: string, moments: seq<Moment>, now: int, after: Table,
                    listed: set<string>)
    requires LaterListed(rows, 1, moments, now, after, listed) && id in rows && rows[id].updatedAt == 1
    requires |waiting| == RECOVERY_LIMIT && forall w :: w in waiting ==> w in rows && WaitsOlder(rows[w], rows[id], now)
    ensures id !in listed
  {
    hide MayList, Becomes, WaitIsOver;
    forall w | w in waiting ensures w in RecoverableIds(after, now) {
      WaitingKeepsItsPlace(rows, 1, moments, now, after, w);
    }
    WaitingOnesStarveTheRest(rows, 1, moments, now, after, id, waiting, listed);
  }
}
