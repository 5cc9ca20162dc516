/** The imperative handlers and the system of workers: whatever one call of Advance saves, a worker of the system can
    commit, so what holds of every reachable state holds of what the handlers do. */
module Bridge {
  import opened Workflow
  import opened Machines
  import opened Interpreter
  import opened Rows
  import opened Logs
  import opened Workers
  import opened Safety
  import opened Ledger
  import opened Recovery
  import opened Engines
  import Liveness

  /** The first change of the journey is one a worker may begin with, under a key nobody has used. */
  predicate UnusedKey(s: System, changes: seq<Change>) {
    changes != [] ==> FreshKey(s, changes[0])
  }

  lemma SuccessOnlyAfterSuccess(m: Machine, row: Row, outcome: StepOutcome, at: int, now: int, change: Change)
    requires Records(m, row, outcome, at, now, change)
    ensures change.Succeed? <==> outcome.Success? && !InUndo(row)
  {
    hide RetryTime, InUndo;
  }

  /** The row a worker of the system has marked, ready to be executed with the outcome of the journey. */
  lemma JourneyComesTo(m: Machine, log: Log, changes: seq<Change>, outcome: StepOutcome, at: int, now: int)
    requires LogOk(m, log) && Journey(m, Last(log), changes, outcome, at, now) && |changes| == 2
    ensures Marks(changes[0]) && CanCommit(m, Last(log), changes[0])
    ensures var longer := Extended(m, log, changes[0]);
      && longer.rows != [] && Last(longer) == Commit(m, Last(log), changes[0])
      && MayComeTo(m, longer, Last(longer), at, outcome)
      && Records(m, Last(longer), outcome, at, now, changes[1])
  {
    var longer := Extended(m, log, changes[0]);
    VersionIsPosition(m, log, |log.rows| - 1);
    VersionGrows(m, Last(log), changes[0]);
    hide LogOk, CanCommit, Commit, MayHappen, Records, StepById, Marks, BeginsWith;
    assert longer.rows[|log.rows|] == Last(longer) && longer.rows[|log.rows| - 1] == Last(log);
  }

  /** From any reachable state in which the lease is free and the wait is over, the system can commit what one call of
      Advance saves: the changes `changes`, one after the other, with the outcome `outcome` at the time `at`. */
  lemma AdvanceIsARun(m: Machine, s: System, changes: seq<Change>, after: Row, outcome: StepOutcome, at: int, now: int)
    returns (t: System)
    requires Reached(m, s) && s.log.rows != [] && LeaseIsFree(s) && WaitIsOver(Row0(s), s.now) && s.now <= at <= now
    requires Journey(m, Row0(s), changes, outcome, at, now) && Advanced(m, Row0(s), changes, after) && UnusedKey(s, changes)
    ensures MayBecome(m, s, t) && Reached(m, t) && t.log.rows != [] && Row0(t) == after
    ensures t.log.changes == s.log.changes + changes
  {
    ReachedIsSane(m, s);
    assert LogOk(m, s.log);
    hide Reached, Sane, LogOk, WaitIsOver, FreshKey, MayBecome, Holds;
    if changes == [] {
      Now(m, s);
      t := s;
    } else if |changes| == 1 {
      t := OneCommit(m, s, changes, after, outcome, at, now);
    } else {
      t := TwoCommits(m, s, changes, after, outcome, at, now);
    }
    Liveness.StillReached(m, s, t);
  }

  lemma OneCommit(m: Machine, s: System, changes: seq<Change>, after: Row, outcome: StepOutcome, at: int, now: int)
    returns (t: System)
    requires s.log.rows != [] && LeaseIsFree(s) && WaitIsOver(Row0(s), s.now) && |changes| == 1
    requires Journey(m, Row0(s), changes, outcome, at, now) && Advanced(m, Row0(s), changes, after) && UnusedKey(s, changes)
    ensures MayBecome(m, s, t) && t.log.rows != [] && Row0(t) == after && t.log.changes == s.log.changes + changes
  {
    assert changes == [changes[0]] && changes[1..] == [];
    assert CanCommit(m, Row0(s), changes[0]) && after == Commit(m, Row0(s), changes[0]);
    hide WaitIsOver, FreshKey, MayBecome, Holds, CanCommit, Commit, BeginsWith, Marks;
    var w;
    t, w := CanBegin(m, s, 0, changes[0]);
  }

  lemma TwoCommits(m: Machine, s: System, changes: seq<Change>, after: Row, outcome: StepOutcome, at: int, now: int)
    returns (t: System)
    requires s.log.rows != [] && LogOk(m, s.log) && LeaseIsFree(s) && WaitIsOver(Row0(s), s.now) && |changes| == 2
    requires s.now <= at <= now
    requires Journey(m, Row0(s), changes, outcome, at, now) && Advanced(m, Row0(s), changes, after) && UnusedKey(s, changes)
    ensures MayBecome(m, s, t) && t.log.rows != [] && Row0(t) == after && t.log.changes == s.log.changes + changes
  {
    hide *;
    RowIsLast(s);
    AdvancedIsTwo(m, Row0(s), changes, after);
    JourneyComesTo(m, s.log, changes, outcome, at, now);
    JourneyBegins(s, m, changes, outcome, at, now);
    var r, w := CanBegin(m, s, 0, changes[0]);
    RowIsLast(r);
    SuccessOnlyAfterSuccess(m, Row0(r), outcome, at, now, changes[1]);
    t := CanEndLater(m, s, r, w, outcome, changes[1], at - r.now, now - at);
    TwoExtended(m, s.log, r.log, t.log, changes);
    RowIsLast(t);
  }

  lemma RowIsLast(s: System)
    requires s.log.rows != []
    ensures Row0(s) == Last(s.log)
  {
  }

  lemma JourneyBegins(s: System, m: Machine, changes: seq<Change>, outcome: StepOutcome, at: int, now: int)
    requires s.log.rows != [] && LeaseIsFree(s) && WaitIsOver(Row0(s), s.now) && |changes| == 2
    requires Journey(m, Row0(s), changes, outcome, at, now) && UnusedKey(s, changes)
    ensures BeginsWith(changes[0]) && CanCommit(m, Row0(s), changes[0]) && FreshKey(s, changes[0])
    ensures (s.lockedBy.None? || s.lockedUntil <= s.now + 0) && WaitIsOver(Row0(s), s.now + 0)
  {
    hide CanCommit, FreshKey, WaitsFor;
  }

  lemma TwoExtended(m: Machine, log: Log, middle: Log, longer: Log, changes: seq<Change>)
    requires |changes| == 2 && log.rows != [] && CanCommit(m, Last(log), changes[0])
    requires middle == Extended(m, log, changes[0]) && middle.rows != [] && CanCommit(m, Last(middle), changes[1])
    requires longer == Extended(m, middle, changes[1])
    ensures longer.rows != [] && Last(longer) == Commit(m, Last(middle), changes[1])
    ensures Last(middle) == Commit(m, Last(log), changes[0]) && longer.changes == log.changes + changes
  {
    hide CanCommit, Commit;
    assert changes == [changes[0]] + [changes[1]];
  }

  lemma AdvancedIsTwo(m: Machine, before: Row, changes: seq<Change>, after: Row)
    requires |changes| == 2 && Advanced(m, before, changes, after)
    ensures CanCommit(m, before, changes[0])
    ensures var marked := Commit(m, before, changes[0]);
      CanCommit(m, marked, changes[1]) && after == Commit(m, marked, changes[1])
  {
    hide CanCommit, Commit;
    var marked, rest := Commit(m, before, changes[0]), changes[1..];
    assert rest[0] == changes[1] && rest[1..] == [];
    assert Advanced(m, marked, rest, after);
    assert Advanced(m, Commit(m, marked, rest[0]), [], after);
  }
}
