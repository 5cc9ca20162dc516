/** What holds in every reachable state of the system of workers. */
module Safety {
  import opened Workflow
  import opened Machines
  import opened Interpreter
  import opened Rows
  import opened Logs
  import opened Workers

  ghost predicate TimesOk(s: System) {
    && |s.times| == |s.log.rows|
    && (forall i, j :: 0 <= i <= j < |s.times| ==> s.times[i] <= s.times[j])
    && (forall i :: 0 <= i < |s.times| ==> s.times[i] <= s.now)
  }

  /** The instance in the memory of every worker is a row the database held at its version. */
  predicate MemoryOk(s: System) {
    forall w :: w in s.workers ==>
      w < s.nextOwner && s.workers[w].inst.version < |s.log.rows| &&
      s.log.rows[s.workers[w].inst.version] == s.workers[w].inst
  }

  ghost predicate Base(m: Machine, s: System) {
    LogOk(m, s.log) && TimesOk(s) && MemoryOk(s)
  }

  lemma WinnerReadLastRow(m: Machine, s: System, w: nat)
    requires Base(m, s) && w in s.workers && Wins(s, w)
    ensures s.workers[w].inst == Row0(s)
  {
    hide LogOk, TimesOk;
    VersionIsPosition(m, s.log, |s.log.rows| - 1);
  }

  /** A winning commit extends the log. */
  lemma CommitExtends(m: Machine, s: System, w: nat, change: Change, stage: Stage)
    requires Base(m, s) && w in s.workers && Wins(s, w) && CanCommit(m, s.workers[w].inst, change)
    ensures CanCommit(m, Row0(s), change)
    ensures var t := Committed(m, s, w, change, stage);
      && t.log == Extended(m, s.log, change) && t.workers[w].inst == Last(t.log)
      && t.times == s.times + [s.now] && t.now == s.now
    ensures Base(m, Committed(m, s, w, change, stage))
  {
    WinnerReadLastRow(m, s, w);
    ExtendedOk(m, s.log, change);
    VersionIsPosition(m, s.log, |s.log.rows| - 1);
    VersionGrows(m, Row0(s), change);
    hide LogOk, CanCommit, Commit, Marks, Wins;
  }

  predicate CommitsNow(s: System, act: Action) {
    (act.Begin? || act.End?) && act.w in s.workers && s.log.rows != [] && Wins(s, act.w)
  }

  function StageAfter(act: Action, next: Row): Stage
    requires act.Begin? || act.End?
  {
    if act.End? then Leaving(WakeAfter(act.change, next))
    else if Marks(act.change) then Started else Leaving(Quiet)
  }

  lemma ActCommits(m: Machine, s: System, act: Action)
    requires CanAct(m, s, act) && CommitsNow(s, act)
    ensures CanCommit(m, s.workers[act.w].inst, act.change)
    ensures Act(m, s, act) ==
      Committed(m, s, act.w, act.change, StageAfter(act, Commit(m, s.workers[act.w].inst, act.change)))
  {
    hide CanCommit, Commit, Committed, Records, FreshKey, WakeAfter;
  }

  /** Every other action leaves the log alone, and changes at most the stage of one worker, or adds or removes one. */
  lemma ActIsQuiet(m: Machine, s: System, act: Action)
    requires CanAct(m, s, act) && !CommitsNow(s, act)
    ensures var t := Act(m, s, act);
      && t.log == s.log && t.times == s.times && t.usedKeys == s.usedKeys && s.now <= t.now
      && (act.Claim? || forall w :: w in t.workers ==> w in s.workers && t.workers[w].inst == s.workers[w].inst)
      && (act.Claim? || t.nextOwner == s.nextOwner)
  {
    hide CanCommit, Commit, Committed, Records, MayHappen, WakeAfter, WaitIsOver, WaitsFor;
  }

  lemma ClaimAdds(m: Machine, s: System, act: Action)
    requires CanAct(m, s, act) && act.Claim?
    ensures var t := Act(m, s, act);
      t.nextOwner == s.nextOwner + 1 && t.now == s.now &&
      t.workers == s.workers[s.nextOwner := Worker(Row0(s), s.now + act.lease, Claimed)]
  {
  }

  /** The log, the times and the memories stay sound. */
  lemma BaseKept(m: Machine, s: System, act: Action)
    requires Base(m, s) && CanAct(m, s, act)
    ensures Base(m, Act(m, s, act))
  {
    if CommitsNow(s, act) {
      ActCommits(m, s, act);
      var stage := StageAfter(act, Commit(m, s.workers[act.w].inst, act.change));
      hide *;
      CommitExtends(m, s, act.w, act.change, stage);
    } else {
      ActIsQuiet(m, s, act);
      VersionIsPosition(m, s.log, |s.log.rows| - 1);
      if act.Claim? {
        ClaimAdds(m, s, act);
      }
      hide CanAct, Act, LogOk;
    }
  }

  predicate Holding(stage: Stage) {
    stage.Started? || stage.Logged? || stage.Ran? || stage.Recorded? || stage.Cleared?
  }

  predicate MarkedAt(log: Log, v: int) {
    0 < v < |log.rows| && v <= |log.changes| && Marks(log.changes[v - 1])
  }

  predicate BegunAt(log: Log, v: int) {
    0 < v < |log.rows| && v <= |log.changes| && BeginsWith(log.changes[v - 1])
  }

  /** The row a worker appends to the history: it names the step and the attempt of the commit that marked it. */
  predicate HistoryFor(worker: Worker, row: HistoryRow) {
    worker.inst.current == Some(row.step) && row.version == worker.inst.version &&
    row.attempt == StepAt(worker.inst, row.step).attempt
  }

  predicate EffectFor(m: Machine, s: System, worker: Worker, effect: Effect) {
    worker.inst.current == Some(effect.step) && effect.version == worker.inst.version && effect.at == s.now &&
    effect.key == StepAt(worker.inst, effect.step).key &&
    Possible(m, s.log, effect)
  }

  /** The outcome of an execution is one the step can have. */
  predicate Possible(m: Machine, log: Log, effect: Effect) {
    0 < effect.version < |log.rows| && log.rows[effect.version].current == Some(effect.step) &&
    StepById(m.def.steps, effect.step).Some? &&
    MayHappen(StepById(m.def.steps, effect.step).value, Previous(log, effect.version), effect.at, effect.outcome)
  }

  /** How an action that does not commit changes the stage of worker `w`. */
  predicate StageMoves(s: System, act: Action, w: nat, was: Worker, stage: Stage) {
    || stage == was.stage
    || stage.Leaving?
    || (stage.Checked? && WaitIsOver(was.inst, s.now))
    || (act == Append(w) && was.stage.Started? && stage == Logged(|s.history|))
    || (act.Execute? && act.w == w && was.stage.Logged? && stage == Ran(was.stage.h, |s.effects|))
    || (act == Record(w) && was.stage.Ran? && stage == Recorded(was.stage.h, was.stage.e))
    || (act == ClearTimer(w) && was.stage.Recorded? && stage == Cleared(was.stage.h, was.stage.e))
  }

  ghost predicate HistoryMoves(s: System, act: Action, t: System) {
    if act.Append? then
      act.w in s.workers && s.workers[act.w].stage.Started? && |t.history| == |s.history| + 1 &&
      t.history[..|s.history|] == s.history && HistoryFor(s.workers[act.w], t.history[|s.history|]) &&
      t.history[|s.history|].outcome.None? &&
      act.w in t.workers && t.workers[act.w].stage == Logged(|s.history|)
    else
      |t.history| == |s.history| &&
      forall h :: 0 <= h < |s.history| ==> t.history[h] == s.history[h] || RecordsIn(s, act, h, t.history[h])
  }

  /** The row of a worker that has executed its step is completed with the outcome of that execution. */
  predicate RecordsIn(s: System, act: Action, h: int, row: HistoryRow) {
    && act.Record? && act.w in s.workers && s.workers[act.w].stage.Ran? && s.workers[act.w].stage.h == h
    && 0 <= h < |s.history| && s.workers[act.w].stage.e < |s.effects|
    && row == s.history[h].(outcome := Some(s.effects[s.workers[act.w].stage.e].outcome))
  }

  ghost predicate EffectsMove(m: Machine, s: System, act: Action, t: System) {
    if act.Execute? then
      act.w in s.workers && s.workers[act.w].stage.Logged? && |t.effects| == |s.effects| + 1 &&
      t.effects[..|s.effects|] == s.effects && EffectFor(m, s, s.workers[act.w], t.effects[|s.effects|]) &&
      act.w in t.workers && t.workers[act.w].stage == Ran(s.workers[act.w].stage.h, |s.effects|)
    else t.effects == s.effects
  }

  predicate LockMoves(s: System, act: Action, t: System) {
    if act.Claim? then LeaseIsFree(s) && t.lockedBy == Some(s.nextOwner) && t.lockedUntil == s.now + act.lease
    else
      t.lockedUntil == s.lockedUntil &&
      (t.lockedBy == s.lockedBy || (act.Release? && s.lockedBy == Some(act.w) && act.w !in t.workers))
  }

  /** What an action that does not commit changes, in one place. */
  ghost predicate QuietFacts(m: Machine, s: System, act: Action, t: System) {
    && s.log.rows != [] && t.log == s.log && t.times == s.times && t.usedKeys == s.usedKeys && s.now <= t.now
    && HistoryMoves(s, act, t) && EffectsMove(m, s, act, t) && LockMoves(s, act, t)
    && if act.Claim? then
         t.now == s.now && t.nextOwner == s.nextOwner + 1 &&
         t.workers == s.workers[s.nextOwner := Worker(Row0(s), s.now + act.lease, Claimed)]
       else
         t.nextOwner == s.nextOwner &&
         forall w :: w in t.workers ==> w in s.workers && MovesTo(s, act, w, s.workers[w], t.workers[w])
  }

  predicate MovesTo(s: System, act: Action, w: nat, was: Worker, worker: Worker) {
    worker.inst == was.inst && worker.until == was.until && StageMoves(s, act, w, was, worker.stage)
  }

  /** What a commit changes, in one place. */
  ghost predicate CommitFacts(m: Machine, s: System, act: Action, t: System) {
    && (act.Begin? || act.End?)
    && act.w in s.workers && s.log.rows != [] && |t.log.rows| == |s.log.rows| + 1
    && s.workers[act.w].inst == Row0(s) && Row0(s).version == |s.log.rows| - 1
    && CanCommit(m, Row0(s), act.change)
    && t.log == Extended(m, s.log, act.change) && t.times == s.times + [s.now] && t.now == s.now
    && t.workers == s.workers[act.w := Worker(Last(t.log), s.workers[act.w].until, StageAfter(act, Last(t.log)))]
    && Last(t.log).version == |s.log.rows|
    && t.usedKeys == (if Marks(act.change) then s.usedKeys + {act.change.key} else s.usedKeys)
    && t.history == s.history && t.effects == s.effects
    && t.lockedBy == s.lockedBy && t.lockedUntil == s.lockedUntil && t.nextOwner == s.nextOwner
    && (act.End? ==> EndFacts(m, s, act.w, act.change))
    && (act.Begin? ==> s.workers[act.w].stage.Checked? && BeginsWith(act.change) && FreshKey(s, act.change))
  }

  predicate EndFacts(m: Machine, s: System, w: nat, change: Change)
    requires w in s.workers
  {
    var worker := s.workers[w];
    !BeginsWith(change) && (worker.stage.Recorded? || worker.stage.Cleared?) && worker.stage.e < |s.effects| &&
    Records(m, worker.inst, s.effects[worker.stage.e].outcome, s.effects[worker.stage.e].at, s.now, change)
  }

  lemma EndIs(m: Machine, s: System, act: Action)
    requires CanAct(m, s, act) && CommitsNow(s, act)
    ensures act.End? ==> EndFacts(m, s, act.w, act.change)
    ensures act.Begin? ==> s.workers[act.w].stage.Checked? && BeginsWith(act.change) && FreshKey(s, act.change)
  {
    hide CanCommit, Commit, FreshKey, RetryTime;
  }

  lemma CommitIs(m: Machine, s: System, act: Action)
    requires Base(m, s) && CanAct(m, s, act) && CommitsNow(s, act)
    ensures CommitFacts(m, s, act, Act(m, s, act))
  {
    ActCommits(m, s, act);
    WinnerReadLastRow(m, s, act.w);
    CommitExtends(m, s, act.w, act.change, StageAfter(act, Commit(m, s.workers[act.w].inst, act.change)));
    VersionIsPosition(m, s.log, |s.log.rows| - 1);
    VersionGrows(m, Row0(s), act.change);
    EndIs(m, s, act);
    hide CanAct, Act, LogOk, Commit, CanCommit, WakeAfter, EndFacts, FreshKey;
  }

  lemma HistoryIs(m: Machine, s: System, act: Action)
    requires CanAct(m, s, act) && !CommitsNow(s, act)
    ensures HistoryMoves(s, act, Act(m, s, act))
  {
    hide CanCommit, Commit, Committed, Records, MayHappen, WakeAfter, WaitIsOver, WaitsFor;
  }

  lemma EffectsAre(m: Machine, s: System, act: Action)
    requires CanAct(m, s, act) && !CommitsNow(s, act)
    ensures EffectsMove(m, s, act, Act(m, s, act))
  {
    hide CanCommit, Commit, Committed, Records, MayHappen, WakeAfter, WaitIsOver, WaitsFor;
  }

  lemma LockIs(m: Machine, s: System, act: Action)
    requires CanAct(m, s, act) && !CommitsNow(s, act)
    ensures LockMoves(s, act, Act(m, s, act))
  {
    hide CanCommit, Commit, Committed, Records, MayHappen, WakeAfter, WaitIsOver, WaitsFor;
  }

  lemma StageIs(m: Machine, s: System, act: Action, w: nat)
    requires CanAct(m, s, act) && !CommitsNow(s, act) && !act.Claim? && w in Act(m, s, act).workers
    ensures w in s.workers && MovesTo(s, act, w, s.workers[w], Act(m, s, act).workers[w])
  {
    hide CanCommit, Commit, Committed, Records, MayHappen, WakeAfter, WaitIsOver, WaitsFor;
  }

  lemma QuietIs(m: Machine, s: System, act: Action)
    requires Base(m, s) && CanAct(m, s, act) && !CommitsNow(s, act)
    ensures QuietFacts(m, s, act, Act(m, s, act))
  {
    assert s.log.rows != [];
    hide CanAct, Act, Base, CommitsNow, HistoryMoves, EffectsMove, LockMoves, MovesTo;
    ActIsQuiet(m, s, act);
    HistoryIs(m, s, act);
    EffectsAre(m, s, act);
    LockIs(m, s, act);
    if act.Claim? {
      ClaimAdds(m, s, act);
    } else {
      var t := Act(m, s, act);
      forall w | w in t.workers ensures w in s.workers && MovesTo(s, act, w, s.workers[w], t.workers[w]) {
        StageIs(m, s, act, w);
      }
    }
  }

  /** A worker that has passed the timer check may run, and whatever began did so after its wait was over. */
  ghost predicate PassedOk(s: System) {
    && (forall w :: w in s.workers && s.workers[w].stage.Checked? ==> WaitIsOver(s.workers[w].inst, s.now))
    && (forall v :: BegunAt(s.log, v) ==> WaitedAt(s, v))
  }

  /** Version `v` was committed when the waiting time of the version before it had passed. */
  predicate WaitedAt(s: System, v: int) {
    0 < v < |s.log.rows| && |s.times| == |s.log.rows| && WaitIsOver(s.log.rows[v - 1], s.times[v])
  }

  predicate SameMark(v: Worker, w: Worker) {
    Holding(v.stage) && Holding(w.stage) && v.inst.version == w.inst.version
  }

  /** A worker that has marked a step holds the version of that commit, and no two workers hold the same version. */
  ghost predicate HoldersOk(s: System) {
    && (forall w :: w in s.workers && Holding(s.workers[w].stage) ==> MarkedAt(s.log, s.workers[w].inst.version))
    && (forall v, w :: v in s.workers && w in s.workers && v != w ==> !SameMark(s.workers[v], s.workers[w]))
  }

  /** The log before a commit is a part of the log after it. */
  lemma LogGoesOn(m: Machine, s: System, act: Action, t: System, v: int)
    requires Base(m, s) && CommitFacts(m, s, act, t)
    ensures MarkedAt(t.log, v) <==> MarkedAt(s.log, v) || (v == |s.log.rows| && Marks(act.change))
    ensures BegunAt(t.log, v) <==> BegunAt(s.log, v) || (v == |s.log.rows| && BeginsWith(act.change))
    ensures 0 <= v < |s.log.rows| ==> t.log.rows[v] == s.log.rows[v] && |s.times| == |s.log.rows| && t.times[v] == s.times[v]
    ensures 0 < v < |s.log.rows| ==> t.log.changes[v - 1] == s.log.changes[v - 1]
  {
    hide Commit, CanCommit;
  }

  lemma PassedKeptByCommit(m: Machine, s: System, act: Action, t: System)
    requires Base(m, s) && PassedOk(s) && CommitFacts(m, s, act, t)
    ensures PassedOk(t)
  {
    hide LogOk, MemoryOk, BegunAt, Extended, CanCommit, WaitIsOver, Records, FreshKey, WakeAfter;
    forall v | BegunAt(t.log, v) ensures WaitedAt(t, v) {
      LogGoesOn(m, s, act, t, v);
      LogGoesOn(m, s, act, t, v - 1);
    }
  }

  lemma PassedKept(m: Machine, s: System, act: Action, t: System)
    requires PassedOk(s) && QuietFacts(m, s, act, t)
    ensures PassedOk(t)
  {
    hide HistoryMoves, EffectsMove, LockMoves, WaitsFor;
  }

  lemma HoldersKeptByCommit(m: Machine, s: System, act: Action, t: System)
    requires Base(m, s) && HoldersOk(s) && CommitFacts(m, s, act, t)
    ensures HoldersOk(t)
  {
    hide LogOk, TimesOk, MarkedAt, Extended, CanCommit, WakeAfter, EndFacts, FreshKey;
    forall w | w in t.workers && Holding(t.workers[w].stage) ensures MarkedAt(t.log, t.workers[w].inst.version) {
      LogGoesOn(m, s, act, t, t.workers[w].inst.version);
    }
  }

  lemma StillHolding(s: System, act: Action, w: nat, was: Worker, worker: Worker)
    requires MovesTo(s, act, w, was, worker)
    ensures Holding(worker.stage) ==> Holding(was.stage)
    ensures worker.inst == was.inst
  {
    hide WaitIsOver;
  }

  lemma HoldersKept(m: Machine, s: System, act: Action, t: System)
    requires HoldersOk(s) && QuietFacts(m, s, act, t)
    ensures HoldersOk(t)
  {
    hide HistoryMoves, EffectsMove, LockMoves, MarkedAt, MovesTo;
    if !act.Claim? {
      forall w | w in t.workers
        ensures w in s.workers && t.workers[w].inst == s.workers[w].inst
        ensures Holding(t.workers[w].stage) ==> Holding(s.workers[w].stage)
      {
        StillHolding(s, act, w, s.workers[w], t.workers[w]);
      }
      hide QuietFacts, Holding;
    }
  }
}
