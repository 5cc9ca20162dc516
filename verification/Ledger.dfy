/** What the history, the executions, the keys and the lease of an instance have to do with its log, in every reachable
    state of the system of workers. */
module Ledger {
  import opened Workflow
  import opened Machines
  import opened Interpreter
  import opened Rows
  import opened Logs
  import opened Workers
  import opened Safety

  /** A row of the history names the step and the attempt of the commit it was appended after. */
  predicate RowFor(log: Log, row: HistoryRow) {
    MarkedAt(log, row.version) && log.rows[row.version].current == Some(row.step) &&
    row.attempt == StepAt(log.rows[row.version], row.step).attempt
  }

  predicate LoggedIn(history: seq<HistoryRow>, h: nat, version: nat) {
    h < |history| && history[h].version == version
  }

  predicate HasRow(stage: Stage) {
    stage.Logged? || stage.Ran? || stage.Recorded? || stage.Cleared?
  }

  /** The row of the history a worker holds is the one of its commit. */
  predicate HasItsRow(history: seq<HistoryRow>, worker: Worker) {
    && (worker.stage.Started? ==> forall h :: 0 <= h < |history| ==> history[h].version != worker.inst.version)
    && (HasRow(worker.stage) ==> LoggedIn(history, worker.stage.h, worker.inst.version))
  }

  /** Every commit that marks a step is followed by at most one row of the history. */
  ghost predicate HistoryOk(s: System) {
    && (forall h :: 0 <= h < |s.history| ==> RowFor(s.log, s.history[h]))
    && (forall g, h :: 0 <= g < h < |s.history| ==> s.history[g].version != s.history[h].version)
    && (forall w :: w in s.workers ==> HasItsRow(s.history, s.workers[w]))
  }

  /** The outcome a row tells is that of the execution which followed the same commit. */
  ghost predicate ToldBy(effects: seq<Effect>, row: HistoryRow) {
    row.outcome.Some? ==> exists e :: OutcomeIn(effects, e, row)
  }

  predicate OutcomeIn(effects: seq<Effect>, e: int, row: HistoryRow) {
    0 <= e < |effects| && effects[e].version == row.version && row.outcome == Some(effects[e].outcome)
  }

  ghost predicate HistoryTrue(s: System) {
    forall h :: 0 <= h < |s.history| ==> ToldBy(s.effects, s.history[h])
  }

  predicate EffectOk(m: Machine, s: System, effect: Effect) {
    && MarkedAt(s.log, effect.version) && Possible(m, s.log, effect)
    && effect.key == StepAt(s.log.rows[effect.version], effect.step).key
    && |s.times| == |s.log.rows| && s.times[effect.version] <= effect.at <= s.now
  }

  predicate HasRun(stage: Stage) {
    stage.Ran? || stage.Recorded? || stage.Cleared?
  }

  predicate RanIn(effects: seq<Effect>, e: nat, version: nat) {
    e < |effects| && effects[e].version == version
  }

  predicate HasItsEffect(effects: seq<Effect>, worker: Worker) {
    && (worker.stage.Started? || worker.stage.Logged? ==>
          forall e :: 0 <= e < |effects| ==> effects[e].version != worker.inst.version)
    && (HasRun(worker.stage) ==> RanIn(effects, worker.stage.e, worker.inst.version))
  }

  /** Every commit that marks a step is followed by at most one execution, of that step and with the committed key. */
  ghost predicate EffectsOk(m: Machine, s: System) {
    && (forall e :: 0 <= e < |s.effects| ==> EffectOk(m, s, s.effects[e]))
    && (forall e, f :: 0 <= e < f < |s.effects| ==> s.effects[e].version != s.effects[f].version)
    && (forall w :: w in s.workers ==> HasItsEffect(s.effects, s.workers[w]))
  }

  /** Commit `j` records the outcome of execution `e` of the version it commits to. */
  predicate Caused(m: Machine, s: System, j: nat, e: nat) {
    && j < |s.log.changes| && j < |s.log.rows| && j + 1 < |s.times| && RanIn(s.effects, e, j)
    && s.effects[e].at <= s.times[j + 1]
    && Records(m, s.log.rows[j], s.effects[e].outcome, s.effects[e].at, s.times[j + 1], s.log.changes[j])
  }

  ghost predicate CausesOk(m: Machine, s: System) {
    forall j :: 0 <= j < |s.log.changes| && !BeginsWith(s.log.changes[j]) ==> exists e :: Caused(m, s, j, e)
  }

  lemma RowForGoesOn(m: Machine, s: System, act: Action, t: System, row: HistoryRow)
    requires Base(m, s) && CommitFacts(m, s, act, t) && RowFor(s.log, row)
    ensures RowFor(t.log, row)
  {
    hide Base, CommitFacts;
    LogGoesOn(m, s, act, t, row.version);
  }

  lemma HistoryKeptByCommit(m: Machine, s: System, act: Action, t: System)
    requires Base(m, s) && CommitFacts(m, s, act, t) && HistoryOk(s)
    ensures HistoryOk(t)
  {
    forall h | 0 <= h < |t.history| ensures RowFor(t.log, t.history[h]) {
      RowForGoesOn(m, s, act, t, s.history[h]);
    }
    forall w | w in t.workers ensures HasItsRow(t.history, t.workers[w]) {
      HasItsRowAfterCommit(m, s, act, t, w);
    }
    hide Base, HasItsRow, RowFor, Extended, CanCommit, WakeAfter, EndFacts, FreshKey;
  }

  lemma HasItsRowAfterCommit(m: Machine, s: System, act: Action, t: System, w: nat)
    requires Base(m, s) && CommitFacts(m, s, act, t) && HistoryOk(s) && w in t.workers
    ensures HasItsRow(t.history, t.workers[w])
  {
    hide Base, Extended, CanCommit, WakeAfter, EndFacts, FreshKey, StepAt;
    if w == act.w && act.Begin? {
      forall h | 0 <= h < |t.history| ensures t.history[h].version != t.workers[w].inst.version {
        assert RowFor(s.log, s.history[h]);
      }
    } else if w != act.w {
      assert HasItsRow(s.history, s.workers[w]);
    }
  }

  /** Appending a row: no row has its version yet. */
  lemma AppendIsNew(s: System, w: nat, h: nat)
    requires HistoryOk(s) && w in s.workers && s.workers[w].stage.Started? && h < |s.history|
    ensures s.history[h].version != s.workers[w].inst.version
  {
    assert HasItsRow(s.history, s.workers[w]);
  }

  lemma HasItsRowAfterMove(m: Machine, s: System, act: Action, t: System, w: nat)
    requires HistoryOk(s) && HoldersOk(s) && QuietFacts(m, s, act, t) && w in t.workers
    ensures HasItsRow(t.history, t.workers[w])
  {
    hide LockMoves, EffectsMove, WaitIsOver, MarkedAt, RowFor;
    if !act.Claim? {
      assert HasItsRow(s.history, s.workers[w]) && MovesTo(s, act, w, s.workers[w], t.workers[w]);
      if act.Append? && w != act.w {
        assert !SameMark(s.workers[w], s.workers[act.w]);
      }
    } else if w != s.nextOwner {
      assert HasItsRow(s.history, s.workers[w]);
    }
  }

  lemma OldRowsKept(m: Machine, s: System, act: Action, t: System, h: nat)
    requires QuietFacts(m, s, act, t) && h < |s.history|
    ensures h < |t.history| && t.history[h] == s.history[h].(outcome := t.history[h].outcome)
    ensures !act.Append? ==> |t.history| == |s.history|
    ensures act.Append? ==> |t.history| == |s.history| + 1
  {
    hide LockMoves, EffectsMove, MovesTo;
    if act.Append? {
      assert t.history[h] == t.history[..|s.history|][h];
    }
  }

  lemma NewRow(m: Machine, s: System, act: Action, t: System)
    requires Base(m, s) && HoldersOk(s) && QuietFacts(m, s, act, t) && act.Append?
    ensures |t.history| == |s.history| + 1 && act.w in s.workers && s.workers[act.w].stage.Started?
    ensures t.history[|s.history|].version == s.workers[act.w].inst.version
    ensures RowFor(t.log, t.history[|s.history|])
  {
    hide LockMoves, EffectsMove, MarkedAt, MovesTo, LogOk, TimesOk;
  }

  lemma HistoryKept(m: Machine, s: System, act: Action, t: System)
    requires Base(m, s) && HistoryOk(s) && HoldersOk(s) && QuietFacts(m, s, act, t)
    ensures HistoryOk(t)
  {
    assert t.log == s.log;
    assert !act.Append? ==> |t.history| == |s.history|;
    hide Base, HoldersOk, QuietFacts, HasItsRow;
    forall w | w in t.workers ensures HasItsRow(t.history, t.workers[w]) {
      HasItsRowAfterMove(m, s, act, t, w);
    }
    forall h: nat | h < |s.history|
      ensures h < |t.history| && t.history[h] == s.history[h].(outcome := t.history[h].outcome)
      ensures RowFor(s.log, s.history[h])
    {
      OldRowsKept(m, s, act, t, h);
    }
    if act.Append? {
      NewRow(m, s, act, t);
      forall h: nat | h < |s.history| ensures s.history[h].version != s.workers[act.w].inst.version {
        AppendIsNew(s, act.w, h);
      }
    }
    hide MarkedAt, StepAt;
  }

  lemma EffectGoesOn(m: Machine, s: System, act: Action, t: System, effect: Effect)
    requires Base(m, s) && CommitFacts(m, s, act, t) && EffectOk(m, s, effect)
    ensures EffectOk(m, t, effect)
  {
    hide LogOk, MarkedAt, CanCommit, WakeAfter, EndFacts, FreshKey, MayHappen, StepById, StepAt;
    LogGoesOn(m, s, act, t, effect.version);
    LogGoesOn(m, s, act, t, effect.version - 1);
    MarkedIsPositive(s.log, effect.version);
  }

  lemma MarkedIsPositive(log: Log, v: int)
    requires MarkedAt(log, v)
    ensures 0 < v < |log.rows| && BegunAt(log, v)
  {
  }

  lemma HasItsEffectAfterCommit(m: Machine, s: System, act: Action, t: System, w: nat)
    requires Base(m, s) && CommitFacts(m, s, act, t) && EffectsOk(m, s) && w in t.workers
    ensures HasItsEffect(t.effects, t.workers[w])
  {
    hide Base, Extended, CanCommit, WakeAfter, EndFacts, FreshKey, StepAt, Possible;
    if w == act.w && act.Begin? {
      forall e | 0 <= e < |t.effects| ensures t.effects[e].version != t.workers[w].inst.version {
        assert EffectOk(m, s, s.effects[e]);
      }
    } else if w != act.w {
      assert HasItsEffect(s.effects, s.workers[w]);
    }
  }

  lemma EffectsKeptByCommit(m: Machine, s: System, act: Action, t: System)
    requires Base(m, s) && CommitFacts(m, s, act, t) && EffectsOk(m, s)
    ensures EffectsOk(m, t)
  {
    assert t.effects == s.effects;
    forall w | w in t.workers ensures HasItsEffect(t.effects, t.workers[w]) {
      HasItsEffectAfterCommit(m, s, act, t, w);
    }
    forall e | 0 <= e < |t.effects| ensures EffectOk(m, t, t.effects[e]) {
      EffectGoesOn(m, s, act, t, s.effects[e]);
    }
    hide Base, CommitFacts, HasItsEffect, EffectOk;
  }

  lemma HasItsEffectAfterMove(m: Machine, s: System, act: Action, t: System, w: nat)
    requires EffectsOk(m, s) && HoldersOk(s) && QuietFacts(m, s, act, t) && w in t.workers
    ensures HasItsEffect(t.effects, t.workers[w])
  {
    hide LockMoves, HistoryMoves, WaitIsOver, MarkedAt, EffectOk, Possible;
    if !act.Claim? {
      assert HasItsEffect(s.effects, s.workers[w]) && MovesTo(s, act, w, s.workers[w], t.workers[w]);
      if act.Execute? && w != act.w {
        assert !SameMark(s.workers[w], s.workers[act.w]);
      }
    } else if w != s.nextOwner {
      assert HasItsEffect(s.effects, s.workers[w]);
    }
  }

  lemma OldEffectsKept(m: Machine, s: System, act: Action, t: System, e: nat)
    requires QuietFacts(m, s, act, t) && e < |s.effects|
    ensures e < |t.effects| && t.effects[e] == s.effects[e]
    ensures EffectOk(m, s, s.effects[e]) ==> EffectOk(m, t, s.effects[e])
  {
    hide LockMoves, HistoryMoves, MovesTo, Possible, MarkedAt, StepAt;
    if act.Execute? {
      assert t.effects[e] == t.effects[..|s.effects|][e];
    }
  }

  lemma NewEffect(m: Machine, s: System, act: Action, t: System)
    requires Base(m, s) && HoldersOk(s) && QuietFacts(m, s, act, t) && act.Execute?
    ensures |t.effects| == |s.effects| + 1 && act.w in s.workers && s.workers[act.w].stage.Logged?
    ensures t.effects[|s.effects|].version == s.workers[act.w].inst.version
    ensures EffectOk(m, t, t.effects[|s.effects|])
  {
    hide LockMoves, HistoryMoves, MarkedAt, MovesTo, LogOk, MayHappen, StepById;
  }

  lemma ExecuteIsNew(m: Machine, s: System, w: nat, e: nat)
    requires EffectsOk(m, s) && w in s.workers && s.workers[w].stage.Logged? && e < |s.effects|
    ensures s.effects[e].version != s.workers[w].inst.version
  {
    hide EffectOk;
    assert HasItsEffect(s.effects, s.workers[w]);
  }

  lemma ExecutionsStayApart(m: Machine, s: System, act: Action, t: System, e: nat, f: nat)
    requires Base(m, s) && EffectsOk(m, s) && HoldersOk(s) && QuietFacts(m, s, act, t) && e < f < |t.effects|
    ensures t.effects[e].version != t.effects[f].version
  {
    assert f < |s.effects| || (act.Execute? && f == |s.effects|) by {
      hide Base, EffectsOk, HoldersOk;
    }
    hide Base, EffectsOk, HoldersOk, QuietFacts;
    OldEffectsKept(m, s, act, t, e);
    if f < |s.effects| {
      OldEffectsKept(m, s, act, t, f);
      EffectsApart(m, s, e, f);
    } else {
      NewEffect(m, s, act, t);
      ExecuteIsNew(m, s, act.w, e);
    }
  }

  lemma EffectsApart(m: Machine, s: System, e: nat, f: nat)
    requires EffectsOk(m, s) && e < f < |s.effects|
    ensures s.effects[e].version != s.effects[f].version
  {
  }

  lemma EveryEffectIsOk(m: Machine, s: System, act: Action, t: System, e: nat)
    requires Base(m, s) && EffectsOk(m, s) && HoldersOk(s) && QuietFacts(m, s, act, t) && e < |t.effects|
    ensures EffectOk(m, t, t.effects[e])
  {
    if e < |s.effects| {
      assert EffectOk(m, s, s.effects[e]);
      hide Base, EffectsOk, HoldersOk, QuietFacts, EffectOk;
      OldEffectsKept(m, s, act, t, e);
    } else {
      NewEffect(m, s, act, t);
    }
  }

  lemma EffectsKept(m: Machine, s: System, act: Action, t: System)
    requires Base(m, s) && EffectsOk(m, s) && HoldersOk(s) && QuietFacts(m, s, act, t)
    ensures EffectsOk(m, t)
  {
    hide Base, HoldersOk, QuietFacts, HasItsEffect, EffectOk;
    forall w | w in t.workers ensures HasItsEffect(t.effects, t.workers[w]) {
      HasItsEffectAfterMove(m, s, act, t, w);
    }
    forall e: nat | e < |t.effects| ensures EffectOk(m, t, t.effects[e]) {
      EveryEffectIsOk(m, s, act, t, e);
    }
    forall e: nat, f: nat | e < f < |t.effects| ensures t.effects[e].version != t.effects[f].version {
      ExecutionsStayApart(m, s, act, t, e, f);
    }
  }

  /** A row told the truth before; the executions only become more. */
  lemma ToldStays(m: Machine, s: System, act: Action, t: System, row: HistoryRow)
    requires QuietFacts(m, s, act, t) && ToldBy(s.effects, row)
    ensures ToldBy(t.effects, row)
  {
    hide QuietFacts, Possible;
    if row.outcome.Some? {
      var e :| OutcomeIn(s.effects, e, row);
      OldEffectsKept(m, s, act, t, e);
      assert OutcomeIn(t.effects, e, row);
    }
  }

  lemma RecordedIsTrue(m: Machine, s: System, act: Action, t: System, h: nat)
    requires HistoryOk(s) && EffectsOk(m, s) && QuietFacts(m, s, act, t) && h < |s.history| && h < |t.history|
    requires RecordsIn(s, act, h, t.history[h])
    ensures ToldBy(s.effects, t.history[h])
  {
    hide QuietFacts, RowFor, EffectOk;
    var worker := s.workers[act.w];
    assert HasItsRow(s.history, worker) && HasItsEffect(s.effects, worker);
    assert OutcomeIn(s.effects, worker.stage.e, t.history[h]);
  }

  lemma RowIsTrue(m: Machine, s: System, act: Action, t: System, h: nat)
    requires HistoryOk(s) && EffectsOk(m, s) && HistoryTrue(s) && QuietFacts(m, s, act, t) && h < |t.history|
    ensures ToldBy(t.effects, t.history[h])
  {
    hide HistoryOk, EffectsOk, LockMoves, EffectsMove, MovesTo, Possible, RecordsIn, ToldBy;
    if h < |s.history| {
      if act.Append? {
        assert t.history[h] == t.history[..|s.history|][h];
      } else if t.history[h] != s.history[h] {
        RecordedIsTrue(m, s, act, t, h);
      }
      ToldStays(m, s, act, t, t.history[h]);
    } else {
      NewRowIsSilent(m, s, act, t);
      assert h == |s.history|;
      SilentIsTrue(t.effects, t.history[h]);
    }
  }

  lemma SilentIsTrue(effects: seq<Effect>, row: HistoryRow)
    requires row.outcome.None?
    ensures ToldBy(effects, row)
  {
  }

  lemma NewRowIsSilent(m: Machine, s: System, act: Action, t: System)
    requires QuietFacts(m, s, act, t) && |t.history| > |s.history|
    ensures |t.history| == |s.history| + 1 && t.history[|s.history|].outcome.None?
  {
    hide LockMoves, EffectsMove, MovesTo, Possible, RecordsIn;
  }

  lemma HistoryStaysTrue(m: Machine, s: System, act: Action, t: System)
    requires HistoryOk(s) && EffectsOk(m, s) && HistoryTrue(s) && QuietFacts(m, s, act, t)
    ensures HistoryTrue(t)
  {
    hide HistoryOk, EffectsOk, QuietFacts, ToldBy;
    forall h: nat | h < |t.history| ensures ToldBy(t.effects, t.history[h]) {
      RowIsTrue(m, s, act, t, h);
    }
  }

  lemma CauseGoesOn(m: Machine, s: System, act: Action, t: System, j: nat, e: nat)
    requires Base(m, s) && CommitFacts(m, s, act, t) && Caused(m, s, j, e)
    ensures Caused(m, t, j, e)
  {
    hide LogOk, CanCommit, Commit, Records, WakeAfter, FreshKey, EndFacts, BeginsWith;
    LogGoesOn(m, s, act, t, j);
    LogGoesOn(m, s, act, t, j + 1);
  }

  /** The commit that records an outcome is caused by the execution of the worker that commits it. */
  lemma EndIsCaused(m: Machine, s: System, act: Action, t: System)
    requires Base(m, s) && EffectsOk(m, s) && CommitFacts(m, s, act, t) && act.End?
    ensures exists e :: Caused(m, t, |s.log.changes|, e)
  {
    assert |s.log.changes| + 1 == |s.log.rows| == |s.times|;
    hide LogOk, CanCommit, Commit, Records, WakeAfter, FreshKey, Possible;
    var worker := s.workers[act.w];
    assert HasItsEffect(s.effects, worker);
    assert EffectOk(m, s, s.effects[worker.stage.e]);
    assert Caused(m, t, |s.log.changes|, worker.stage.e);
  }

  lemma CausesKeptByCommit(m: Machine, s: System, act: Action, t: System)
    requires Base(m, s) && EffectsOk(m, s) && CausesOk(m, s) && CommitFacts(m, s, act, t)
    ensures CausesOk(m, t)
  {
    forall j | 0 <= j < |t.log.changes| && !BeginsWith(t.log.changes[j]) ensures exists e :: Caused(m, t, j, e) {
      CauseKeptByCommit(m, s, act, t, j);
    }
  }

  lemma CauseKeptByCommit(m: Machine, s: System, act: Action, t: System, j: nat)
    requires Base(m, s) && EffectsOk(m, s) && CausesOk(m, s) && CommitFacts(m, s, act, t)
    requires j < |t.log.changes| && !BeginsWith(t.log.changes[j])
    ensures exists e :: Caused(m, t, j, e)
  {
    hide LogOk, CanCommit, Caused, EndFacts, FreshKey, WakeAfter, EffectsOk, BeginsWith;
    if j < |s.log.changes| {
      assert t.log.changes[j] == s.log.changes[j];
      var e :| Caused(m, s, j, e);
      CauseGoesOn(m, s, act, t, j, e);
    } else {
      assert t.log.changes[j] == act.change && act.End?;
      EndIsCaused(m, s, act, t);
    }
  }

  lemma CausesKept(m: Machine, s: System, act: Action, t: System)
    requires CausesOk(m, s) && QuietFacts(m, s, act, t)
    ensures CausesOk(m, t)
  {
    hide LockMoves, HistoryMoves, MovesTo, Records, Possible;
    forall j | 0 <= j < |t.log.changes| && !BeginsWith(t.log.changes[j]) ensures exists e :: Caused(m, t, j, e) {
      var e :| Caused(m, s, j, e);
      OldEffectsKept(m, s, act, t, e);
      assert Caused(m, t, j, e);
    }
  }

  predicate KeysDiffer(row: Row, id: string, other: string) {
    StepAt(row, id).key != "" && StepAt(row, other).key != "" && id != other ==>
      StepAt(row, id).key != StepAt(row, other).key
  }

  /** The keys of the last row were generated for it, and no two steps share one. */
  ghost predicate KeysOk(s: System) {
    && s.log.rows != []
    && (forall id :: StepAt(Row0(s), id).key != "" ==> StepAt(Row0(s), id).key in s.usedKeys)
    && (forall id, other :: KeysDiffer(Row0(s), id, other))
  }

  /** A commit gives out a key only to the step it marks, and then the one generated for it. */
  lemma NewKeyIsFresh(m: Machine, row: Row, change: Change, id: string)
    requires CanCommit(m, row, change)
    ensures var was, now := StepAt(row, id).key, StepAt(Commit(m, row, change), id).key;
      now == was || (was == "" && Marks(change) && now == change.key && Commit(m, row, change).current == Some(id))
  {
    hide Resolve, NextAfter, CanResolve, IsPick, MayResult, MarkBranchFailed;
  }

  lemma KeysKeptByCommit(m: Machine, s: System, act: Action, t: System)
    requires KeysOk(s) && CommitFacts(m, s, act, t)
    ensures KeysOk(t)
  {
    hide CanCommit, Commit, WakeAfter, Records, StepAt;
    assert Row0(t) == Commit(m, Row0(s), act.change);
    forall id ensures StepAt(Row0(t), id).key != "" ==> StepAt(Row0(t), id).key in t.usedKeys {
      NewKeyIsFresh(m, Row0(s), act.change, id);
    }
    forall id, other ensures KeysDiffer(Row0(t), id, other) {
      NewKeyIsFresh(m, Row0(s), act.change, id);
      NewKeyIsFresh(m, Row0(s), act.change, other);
      assert KeysDiffer(Row0(s), id, other);
    }
  }

  /** As long as the lease of a worker lasts the row is locked by it. */
  predicate LeaseOk(s: System) {
    forall w :: w in s.workers && s.now < s.workers[w].until ==> Locked(s, w)
  }

  predicate Locked(s: System, w: nat)
    requires w in s.workers
  {
    s.lockedBy == Some(w) && s.lockedUntil == s.workers[w].until
  }

  lemma LeaseKept(m: Machine, s: System, act: Action, t: System)
    requires LeaseOk(s) && QuietFacts(m, s, act, t)
    ensures LeaseOk(t)
  {
    hide HistoryMoves, EffectsMove, StageMoves;
    forall w | w in t.workers && t.now < t.workers[w].until ensures Locked(t, w) {
      if w in s.workers && s.now < s.workers[w].until {
        assert Locked(s, w);
      }
    }
  }

  lemma LeaseKeptByCommit(m: Machine, s: System, act: Action, t: System)
    requires LeaseOk(s) && CommitFacts(m, s, act, t)
    ensures LeaseOk(t)
  {
    hide CanCommit, Extended, WakeAfter, FreshKey, EndFacts, BeginsWith, StageAfter;
    forall w | w in t.workers && t.now < t.workers[w].until ensures Locked(t, w) {
      assert Locked(s, w);
    }
  }

  /** Everything that holds in every reachable state. */
  ghost predicate Sane(m: Machine, s: System) {
    Base(m, s) && PassedOk(s) && HoldersOk(s) && HistoryOk(s) && EffectsOk(m, s) && CausesOk(m, s) && KeysOk(s) &&
    LeaseOk(s) && HistoryTrue(s)
  }

  lemma SaneAfterCommit(m: Machine, s: System, act: Action, t: System)
    requires Sane(m, s) && CommitFacts(m, s, act, t) && Base(m, t)
    ensures Sane(m, t)
  {
    LeaseKeptByCommit(m, s, act, t);
    assert t.history == s.history && t.effects == s.effects;
    hide CommitFacts, ToldBy, Base, PassedOk, HoldersOk, HistoryOk, EffectsOk, CausesOk, KeysOk, LeaseOk;
    PassedKeptByCommit(m, s, act, t);
    HoldersKeptByCommit(m, s, act, t);
    HistoryKeptByCommit(m, s, act, t);
    EffectsKeptByCommit(m, s, act, t);
    CausesKeptByCommit(m, s, act, t);
    KeysKeptByCommit(m, s, act, t);
  }

  lemma KeysKept(m: Machine, s: System, act: Action, t: System)
    requires KeysOk(s) && QuietFacts(m, s, act, t)
    ensures KeysOk(t)
  {
    hide LockMoves, HistoryMoves, MovesTo, EffectsMove, StepAt;
    assert Row0(t) == Row0(s);
    forall id, other ensures KeysDiffer(Row0(t), id, other) {
      assert KeysDiffer(Row0(s), id, other);
    }
  }

  lemma SaneAfterMove(m: Machine, s: System, act: Action, t: System)
    requires Sane(m, s) && QuietFacts(m, s, act, t) && Base(m, t)
    ensures Sane(m, t)
  {
    KeysKept(m, s, act, t);
    hide HistoryTrue, QuietFacts, Base, PassedOk, HoldersOk, HistoryOk, EffectsOk, CausesOk, KeysOk, LeaseOk;
    PassedKept(m, s, act, t);
    HoldersKept(m, s, act, t);
    HistoryKept(m, s, act, t);
    EffectsKept(m, s, act, t);
    CausesKept(m, s, act, t);
    LeaseKept(m, s, act, t);
    HistoryStaysTrue(m, s, act, t);
  }

  /** No action of any worker, message or timer breaks any of it. */
  lemma ActKeepsSane(m: Machine, s: System, act: Action)
    requires Sane(m, s) && CanAct(m, s, act)
    ensures Sane(m, Act(m, s, act))
  {
    hide CanAct, Act, CommitsNow, QuietFacts, CommitFacts;
    hide Base, PassedOk, HoldersOk, HistoryOk, EffectsOk, CausesOk, KeysOk, LeaseOk;
    BaseKept(m, s, act);
    if CommitsNow(s, act) {
      CommitIs(m, s, act);
      SaneAfterCommit(m, s, act, Act(m, s, act));
    } else {
      QuietIs(m, s, act);
      SaneAfterMove(m, s, act, Act(m, s, act));
    }
  }

  lemma NewSystemIsSane(m: Machine, now: int)
    ensures Sane(m, NewSystem(now))
  {
  }

  lemma {:induction false} SaneForever(m: Machine, s: System, acts: seq<Action>, t: System)
    requires Sane(m, s) && Leads(m, s, acts, t)
    ensures Sane(m, t)
    decreases |acts|
  {
    hide CanAct, Act, Sane;
    if acts != [] {
      var r :| LastLeads(m, s, acts, r, t);
      SaneForever(m, s, acts[..|acts| - 1], r);
      ActKeepsSane(m, r, acts[|acts| - 1]);
    }
  }

  /** Whatever the workers do, in whatever order. */
  lemma ReachedIsSane(m: Machine, s: System)
    requires Reached(m, s)
    ensures Sane(m, s)
  {
    hide Sane, Leads;
    var now, acts :| Leads(m, NewSystem(now), acts, s);
    NewSystemIsSane(m, now);
    SaneForever(m, NewSystem(now), acts, s);
  }
}
