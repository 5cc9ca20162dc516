/** An instance is never stuck: from every reachable state in which it has not ended, recovery can have it claimed,
    advanced or its timer armed again, whatever messages and timers were lost and whatever leases are still held. */
module Recovery {
  import opened Workflow
  import opened Regions
  import opened Machines
  import opened Interpreter
  import opened Rows
  import opened Logs
  import opened Workers
  import opened Safety
  import opened Ledger
  import opened Guarantees
  import Retry

  lemma LongerThanAll(used: set<string>) returns (n: nat)
    ensures forall key :: key in used ==> |key| < n
  {
    if used == {} {
      n := 0;
    } else {
      var one :| one in used;
      n := LongerThanAll(used - {one});
      assert used == used - {one} + {one};
      n := if n <= |one| then |one| + 1 else n;
    }
  }

  /** There is always another key. */
  lemma NewKey(used: set<string>) returns (key: string)
    ensures key != "" && key !in used
  {
    var n := LongerThanAll(used);
    key := seq(n + 1, _ => 'k');
  }

  lemma ResolvePickExists(m: Machine, row: Row) returns (pick: Pick)
    ensures CanResolveRow(m, row, pick)
  {
    hide IsPick, DoneOf, StepById;
    pick := NoBranch;
    if row.current.Some? && StepById(m.def.steps, row.current.value).Some? && row.current.value in DoneOf(row.state.steps) {
      pick := CanPickExists(StepById(m.def.steps, row.current.value).value, row.state.forks);
    }
  }

  /** Something can begin on every row that has not ended. */
  lemma BeginExists(m: Machine, row: Row, used: set<string>) returns (change: Change)
    requires !Terminal(row)
    ensures BeginsWith(change) && CanCommit(m, row, change) && (Marks(change) ==> change.key !in used)
  {
    hide StepById, CanResolveRow, ResolvedRow;
    var key := NewKey(used);
    if InUndo(row) {
      if row.state.queue != [] && StepById(m.def.steps, row.state.queue[0]).Some? {
        change := MarkUndo(key);
      } else {
        change := UndoMissing;
      }
    } else {
      var pick := ResolvePickExists(m, row);
      PickIsValid(m, row, pick);
      if ResolvedRow(m, row, pick).step.Some? {
        change := MarkRun(pick, key);
      } else {
        change := NoStep(pick);
      }
    }
  }

  lemma PickIsValid(m: Machine, row: Row, pick: Pick)
    requires CanResolveRow(m, row, pick)
    ensures ValidPick(row.state.forks, pick)
  {
  }

  /** Some sequence of actions leads from `s` to `t`. */
  ghost predicate MayBecome(m: Machine, s: System, t: System) {
    exists acts :: Leads(m, s, acts, t)
  }

  lemma Now(m: Machine, s: System)
    ensures MayBecome(m, s, s)
  {
    assert Leads(m, s, [], s);
  }

  lemma Then(m: Machine, s: System, r: System, act: Action)
    requires MayBecome(m, s, r) && CanAct(m, r, act)
    ensures MayBecome(m, s, Act(m, r, act))
  {
    hide CanAct, Act, Leads;
    var acts :| Leads(m, s, acts, r);
    LeadsFurther(m, s, acts, r, act);
  }

  lemma ThenTick(m: Machine, s: System, r: System, elapsed: nat) returns (t: System)
    requires MayBecome(m, s, r)
    ensures MayBecome(m, s, t) && t == r.(now := r.now + elapsed)
  {
    t := Act(m, r, Tick(elapsed));
    hide MayBecome;
    Then(m, s, r, Tick(elapsed));
  }

  /** The instance is listed as recoverable and a worker takes the message. */
  lemma ThenRecover(m: Machine, s: System, r: System) returns (t: System)
    requires MayBecome(m, s, r) && r.log.rows != [] && !Terminal(Row0(r)) && LeaseIsFree(r)
    ensures MayBecome(m, s, t) && t == r.(messages := r.messages + 1)
  {
    t := Act(m, r, Recover);
    hide MayBecome;
    Then(m, s, r, Recover);
  }

  /** Worker `w` holds row `row` at the given stage. */
  predicate Holds(s: System, w: nat, row: Row, stage: Stage) {
    w in s.workers && s.workers[w].inst == row && s.workers[w].stage == stage
  }

  /** Log and clock are the same. */
  predicate SameLog(r: System, t: System) {
    t.log == r.log && t.now == r.now && t.usedKeys == r.usedKeys
  }

  lemma ThenClaim(m: Machine, s: System, r: System, lease: int) returns (t: System, w: nat)
    requires MayBecome(m, s, r) && r.messages > 0 && r.log.rows != [] && !Terminal(Row0(r)) && LeaseIsFree(r)
    ensures MayBecome(m, s, t) && SameLog(r, t) && Holds(t, w, Row0(r), Claimed)
  {
    t := Act(m, r, Claim(lease));
    w := r.nextOwner;
    hide MayBecome;
    Then(m, s, r, Claim(lease));
  }

  lemma ThenInspect(m: Machine, s: System, r: System, w: nat, row: Row) returns (t: System)
    requires MayBecome(m, s, r) && Holds(r, w, row, Claimed)
    ensures MayBecome(m, s, t) && SameLog(r, t)
    ensures Holds(t, w, row, if WaitIsOver(row, r.now) then Checked else Leaving(Arm(WaitsFor(row).value)))
  {
    t := Act(m, r, Inspect(w));
    hide MayBecome, WaitsFor;
    Then(m, s, r, Inspect(w));
  }

  lemma ThenArm(m: Machine, s: System, r: System, w: nat, row: Row, at: int) returns (t: System)
    requires MayBecome(m, s, r) && Holds(r, w, row, Leaving(Arm(at))) && r.now < at
    ensures MayBecome(m, s, t) && SameLog(r, t) && t.timer == Some(at)
  {
    t := Act(m, r, Notify(w));
    hide MayBecome;
    Then(m, s, r, Notify(w));
  }

  lemma ThenBegin(m: Machine, s: System, r: System, w: nat, change: Change) returns (t: System)
    requires MayBecome(m, s, r) && r.log.rows != [] && Holds(r, w, Row0(r), Checked)
    requires BeginsWith(change) && CanCommit(m, Row0(r), change) && FreshKey(r, change)
    ensures MayBecome(m, s, t) && t.now == r.now
    ensures t.log == Extended(m, r.log, change)
    ensures Holds(t, w, Last(t.log), if Marks(change) then Started else Leaving(Quiet))
  {
    t := Act(m, r, Begin(w, change));
    hide MayBecome, CanCommit, Commit, FreshKey, BeginsWith;
    Then(m, s, r, Begin(w, change));
  }

  lemma ThenAppend(m: Machine, s: System, r: System, w: nat, row: Row) returns (t: System)
    requires MayBecome(m, s, r) && Holds(r, w, row, Started) && row.current.Some?
    ensures MayBecome(m, s, t) && SameLog(r, t) && Holds(t, w, row, Logged(|r.history|))
    ensures |t.history| == |r.history| + 1 && t.effects == r.effects
  {
    t := Act(m, r, Append(w));
    hide MayBecome;
    Then(m, s, r, Append(w));
  }

  /** The step a worker that has marked `row` runs, and what can come of it. */
  predicate MayComeTo(m: Machine, log: Log, row: Row, at: int, outcome: StepOutcome) {
    && 0 < row.version < |log.rows| && row.current.Some? && log.rows[row.version] == row
    && StepById(m.def.steps, row.current.value).Some?
    && MayHappen(StepById(m.def.steps, row.current.value).value, Previous(log, row.version), at, outcome)
  }

  lemma ThenExecute(m: Machine, s: System, r: System, w: nat, row: Row, h: nat, outcome: StepOutcome)
    returns (t: System)
    requires MayBecome(m, s, r) && Holds(r, w, row, Logged(h)) && MayComeTo(m, r.log, row, r.now, outcome)
    ensures MayBecome(m, s, t) && SameLog(r, t) && Holds(t, w, row, Ran(h, |r.effects|)) && t.history == r.history
    ensures |t.effects| == |r.effects| + 1
    ensures t.effects[|r.effects|].outcome == outcome && t.effects[|r.effects|].at == r.now
  {
    t := Act(m, r, Execute(w, outcome));
    hide MayBecome, MayHappen, StepById, Previous;
    Then(m, s, r, Execute(w, outcome));
  }

  lemma ThenRecord(m: Machine, s: System, r: System, w: nat, row: Row, h: nat, e: nat) returns (t: System)
    requires MayBecome(m, s, r) && Holds(r, w, row, Ran(h, e)) && h < |r.history| && e < |r.effects|
    ensures MayBecome(m, s, t) && SameLog(r, t) && Holds(t, w, row, Recorded(h, e)) && t.effects == r.effects
  {
    t := Act(m, r, Record(w));
    hide MayBecome;
    Then(m, s, r, Record(w));
  }

  lemma ThenClearTimer(m: Machine, s: System, r: System, w: nat, row: Row, h: nat, e: nat) returns (t: System)
    requires MayBecome(m, s, r) && Holds(r, w, row, Recorded(h, e)) && e < |r.effects|
    requires r.effects[e].outcome.Success? && !InUndo(row)
    ensures MayBecome(m, s, t) && SameLog(r, t) && Holds(t, w, row, Cleared(h, e)) && t.effects == r.effects
  {
    t := Act(m, r, ClearTimer(w));
    hide MayBecome;
    Then(m, s, r, ClearTimer(w));
  }

  lemma ThenEnd(m: Machine, s: System, r: System, w: nat, change: Change, stage: Stage) returns (t: System)
    requires MayBecome(m, s, r) && r.log.rows != [] && Holds(r, w, Row0(r), stage)
    requires if change.Succeed? then stage.Cleared? else stage.Recorded?
    requires stage.e < |r.effects| && CanCommit(m, Row0(r), change)
    requires Records(m, Row0(r), r.effects[stage.e].outcome, r.effects[stage.e].at, r.now, change)
    ensures MayBecome(m, s, t) && t.now == r.now && t.log == Extended(m, r.log, change)
  {
    t := Act(m, r, End(w, change));
    hide MayBecome, CanCommit, Commit, Records;
    Then(m, s, r, End(w, change));
  }

  /** Once the lease has run out the instance can be recovered and claimed. */
  lemma CanBeClaimed(m: Machine, s: System, elapsed: nat) returns (t: System, w: nat)
    requires s.log.rows != [] && !Terminal(Row0(s))
    requires s.lockedBy.None? || s.lockedUntil <= s.now + elapsed
    ensures MayBecome(m, s, t) && t.log == s.log && t.usedKeys == s.usedKeys && t.now == s.now + elapsed
    ensures Holds(t, w, Row0(s), Claimed)
  {
    hide MayBecome, Holds;
    Now(m, s);
    t := ThenTick(m, s, s, elapsed);
    t := ThenRecover(m, s, t);
    t, w := ThenClaim(m, s, t, 1);
  }

  /** If the instance still has to wait, whoever claims it arms the timer again with the committed waiting time. */
  lemma TimerCanBeArmedAgain(m: Machine, s: System) returns (t: System)
    requires s.log.rows != [] && !Terminal(Row0(s)) && LeaseIsFree(s) && !WaitIsOver(Row0(s), s.now)
    ensures MayBecome(m, s, t) && t.log == s.log && t.now == s.now
    ensures t.timer.Some? && t.timer == WaitsFor(Row0(s))
  {
    hide MayBecome, Holds, WaitsFor;
    var r, w := CanBeClaimed(m, s, 0);
    t := ThenInspect(m, s, r, w, Row0(s));
    t := ThenArm(m, s, t, w, Row0(s), WaitsFor(Row0(s)).value);
  }

  /** If the wait is over by then, a worker can begin on the instance, with any change that may begin. */
  lemma CanBegin(m: Machine, s: System, elapsed: nat, change: Change) returns (t: System, w: nat)
    requires s.log.rows != [] && BeginsWith(change) && CanCommit(m, Row0(s), change) && FreshKey(s, change)
    requires s.lockedBy.None? || s.lockedUntil <= s.now + elapsed
    requires WaitIsOver(Row0(s), s.now + elapsed)
    ensures MayBecome(m, s, t) && t.log == Extended(m, s.log, change) && t.now == s.now + elapsed
    ensures Holds(t, w, Last(t.log), if Marks(change) then Started else Leaving(Quiet))
  {
    assert !Terminal(Row0(s)) && CanCommit(m, Last(s.log), change);
    hide MayBecome, Holds, WaitIsOver, CanCommit, Commit, BeginsWith, Extended;
    t, w := CanBeClaimed(m, s, elapsed);
    t := ThenInspect(m, s, t, w, Row0(s));
    t := ThenBegin(m, s, t, w, change);
  }

  /** From every reachable state in which the instance has not ended, some worker can commit to it. */
  lemma NeverStuck(m: Machine, s: System) returns (t: System)
    requires Reached(m, s) && Row0Open(s)
    ensures MayBecome(m, s, t)
    ensures |t.log.rows| == |s.log.rows| + 1 && t.log.rows[..|s.log.rows|] == s.log.rows
  {
    hide Reached, MayBecome, Holds, CanCommit, Commit, BeginsWith;
    var change := BeginExists(m, Row0(s), s.usedKeys);
    var lease: nat := if s.lockedUntil > s.now then s.lockedUntil - s.now else 0;
    var wait: nat := if WaitIsOver(Row0(s), s.now) then 0 else WaitsFor(Row0(s)).value - s.now;
    var w;
    t, w := CanBegin(m, s, lease + wait, change);
  }

  predicate Row0Open(s: System) {
    s.log.rows != [] && !Terminal(Row0(s))
  }

  /** Whatever the execution came to, there is a change that records it. */
  lemma EndExists(m: Machine, row: Row, outcome: StepOutcome, previous: StepState, now: int) returns (change: Change)
    requires !Terminal(row) && (MarkedNormal(m, row) || MarkedUndo(row))
    requires StepById(m.def.steps, row.current.value).Some?
    requires MayHappen(StepById(m.def.steps, row.current.value).value, previous, now, outcome)
    ensures CanCommit(m, row, change) && Records(m, row, outcome, now, now, change) && !BeginsWith(change)
    ensures change.Succeed? <==> outcome.Success? && !InUndo(row)
  {
    hide StepById, Retry.Delay;
    var step := StepById(m.def.steps, row.current.value).value;
    match outcome
    case Success(r) =>
      if InUndo(row) {
        change := UndoDone(r);
      } else {
        var pick := CanPickExists(step, row.state.forks);
        change := Succeed(r, pick);
      }
    case WaitingUntil(t) => change := Wait(t);
    case Failure =>
      if InUndo(row) {
        change := UndoFailed;
      } else if HasRetry(step, StepAt(row, row.current.value).attempt) {
        change := RetryAt(now + Retry.Delay(step.retry.value, StepAt(row, row.current.value).attempt));
      } else {
        var pick := PickExists(row.state.forks, row.current.value);
        change := Fail(pick);
      }
  }

  /** A worker that has marked the last row can run the step, after a while, and later record what came of it. */
  lemma CanEndLater(m: Machine, s: System, r: System, w: nat, outcome: StepOutcome, change: Change, wait: nat, rest: nat)
    returns (t: System)
    requires MayBecome(m, s, r) && r.log.rows != [] && Holds(r, w, Row0(r), Started)
    requires MayComeTo(m, r.log, Row0(r), r.now + wait, outcome)
    requires CanCommit(m, Row0(r), change)
    requires Records(m, Row0(r), outcome, r.now + wait, r.now + wait + rest, change)
    requires change.Succeed? <==> outcome.Success? && !InUndo(Row0(r))
    ensures MayBecome(m, s, t) && t.log == Extended(m, r.log, change) && t.now == r.now + wait + rest
  {
    assert CanCommit(m, Last(r.log), change);
    hide MayBecome, CanCommit, Commit, Records, MayHappen, StepById, Extended, InUndo, MayComeTo;
    var row := Row0(r);
    t := ThenAppend(m, s, r, w, row);
    t := ThenTick(m, s, t, wait);
    t := ThenExecute(m, s, t, w, row, |r.history|, outcome);
    t := ThenRecord(m, s, t, w, row, |r.history|, |r.effects|);
    t := ThenTick(m, s, t, rest);
    if change.Succeed? {
      t := ThenClearTimer(m, s, t, w, row, |r.history|, |r.effects|);
      t := ThenEnd(m, s, t, w, change, Cleared(|r.history|, |r.effects|));
    } else {
      t := ThenEnd(m, s, t, w, change, Recorded(|r.history|, |r.effects|));
    }
  }

  lemma CanEnd(m: Machine, s: System, r: System, w: nat, outcome: StepOutcome, change: Change) returns (t: System)
    requires MayBecome(m, s, r) && r.log.rows != [] && Holds(r, w, Row0(r), Started)
    requires MayComeTo(m, r.log, Row0(r), r.now, outcome)
    requires CanCommit(m, Row0(r), change) && Records(m, Row0(r), outcome, r.now, r.now, change)
    requires change.Succeed? <==> outcome.Success? && !InUndo(Row0(r))
    ensures MayBecome(m, s, t) && t.log == Extended(m, r.log, change) && t.now == r.now
  {
    hide *;
    t := CanEndLater(m, s, r, w, outcome, change, 0, 0);
  }
}
