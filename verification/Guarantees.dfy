/** What the engine promises about one instance, whatever the workers do: any interleaving, overlapping leases, crashes,
    lost and duplicate messages. */
module Guarantees {
  import opened Workflow
  import opened Machines
  import opened Interpreter
  import opened Rows
  import opened Logs
  import opened Workers
  import opened Safety
  import opened Ledger
  import Retry

  /** Facts of the log and of one execution, out of the invariant. */
  lemma EffectFacts(m: Machine, s: System, e: nat)
    requires Sane(m, s) && e < |s.effects|
    ensures LogOk(m, s.log) && EffectOk(m, s, s.effects[e]) && BegunAt(s.log, s.effects[e].version)
    ensures WaitedAt(s, s.effects[e].version)
  {
    hide LogOk, MarkedAt, WaitedAt, Possible, HoldersOk, HistoryOk, CausesOk, KeysOk, LeaseOk;
    MarkedIsPositive(s.log, s.effects[e].version);
  }

  /** The key an execution sends was committed before it, and no later commit changes it. */
  lemma KeyWasCommittedFirst(m: Machine, s: System, e: nat, j: nat)
    requires Reached(m, s) && e < |s.effects| && s.effects[e].version <= j < |s.log.rows|
    ensures var effect := s.effects[e];
      && effect.key != "" && |s.times| == |s.log.rows| && s.times[effect.version] <= effect.at
      && s.log.rows[effect.version].current == Some(effect.step)
      && StepAt(s.log.rows[effect.version], effect.step).key == effect.key
      && StepAt(s.log.rows[j], effect.step).key == effect.key
  {
    var effect := s.effects[e];
    ReachedIsSane(m, s);
    EffectFacts(m, s, e);
    hide Reached, Sane, WaitedAt, LogOk;
    MarkIsKeyed(m, s.log, effect.version, effect.step);
    KeysAndAttemptsLast(m, s.log, effect.version, j, effect.step);
  }

  lemma MarkIsKeyed(m: Machine, log: Log, v: int, id: string)
    requires LogOk(m, log) && MarkedAt(log, v) && log.rows[v].current == Some(id)
    ensures StepAt(log.rows[v], id).key != "" && StepAt(log.rows[v], id).status == StepRunning
  {
    hide CanCommit, Commit;
    assert FollowsAt(m, log, v - 1);
    StepKept(m, log.rows[v - 1], log.changes[v - 1], id);
  }

  /** All executions of a step, by whatever workers, send the same key; no other step ever sends it. */
  lemma OneKeyPerStep(m: Machine, s: System, e: nat, f: nat)
    requires Reached(m, s) && e < |s.effects| && f < |s.effects|
    ensures s.effects[e].step == s.effects[f].step <==> s.effects[e].key == s.effects[f].key
  {
    ReachedIsSane(m, s);
    EffectFacts(m, s, e);
    EffectFacts(m, s, f);
    var last := |s.log.rows| - 1;
    assert KeysOk(s);
    assert KeysDiffer(Row0(s), s.effects[e].step, s.effects[f].step);
    hide Reached, Sane, WaitedAt, LogOk, KeysOk;
    KeyWasCommittedFirst(m, s, e, last);
    KeyWasCommittedFirst(m, s, f, last);
  }

  /** No two rows of the history share step and attempt. */
  lemma AttemptsDiffer(m: Machine, s: System, g: nat, h: nat)
    requires Reached(m, s) && g < h < |s.history| && s.history[g].step == s.history[h].step
    ensures s.history[g].attempt != s.history[h].attempt
  {
    ReachedIsSane(m, s);
    var one, two := s.history[g], s.history[h];
    assert LogOk(m, s.log) && HistoryOk(s);
    assert RowFor(s.log, one) && RowFor(s.log, two) && one.version != two.version;
    hide Reached, Sane, LogOk, HistoryOk;
    if one.version < two.version {
      MarksHaveDistinctAttempts(m, s.log, one.version, two.version, one.step);
    } else {
      MarksHaveDistinctAttempts(m, s.log, two.version, one.version, one.step);
    }
  }

  /** The execution history tells the truth: a completed row names the step of the commit it was appended after, and the
      outcome of the one execution that followed that commit. */
  lemma HistoryIsTrue(m: Machine, s: System, h: nat) returns (e: nat)
    requires Reached(m, s) && h < |s.history| && s.history[h].outcome.Some?
    ensures e < |s.effects| && s.effects[e].version == s.history[h].version && s.effects[e].step == s.history[h].step
    ensures s.history[h].outcome == Some(s.effects[e].outcome)
    ensures forall f :: 0 <= f < |s.effects| && f != e ==> s.effects[f].version != s.history[h].version
  {
    ReachedIsSane(m, s);
    assert HistoryOk(s) && EffectsOk(m, s);
    assert RowFor(s.log, s.history[h]) && ToldBy(s.effects, s.history[h]);
    e :| OutcomeIn(s.effects, e, s.history[h]);
    assert EffectOk(m, s, s.effects[e]);
    hide Reached, Sane, MarkedAt, MayHappen, StepAt, HistoryOk;
  }

  /** Every commit went to the last row by a worker that had read exactly that row: no update is lost. */
  lemma NoUpdateIsLost(m: Machine, s: System, i: nat)
    requires Reached(m, s) && i < |s.log.changes|
    ensures |s.log.rows| == |s.log.changes| + 1 && s.log.rows[i].version == i
    ensures CanCommit(m, s.log.rows[i], s.log.changes[i])
    ensures s.log.rows[i + 1] == Commit(m, s.log.rows[i], s.log.changes[i])
  {
    ReachedIsSane(m, s);
    assert LogOk(m, s.log) && FollowsAt(m, s.log, i);
    hide Reached, Sane, LogOk, CanCommit, Commit;
    VersionIsPosition(m, s.log, i);
  }

  /** Every retry of a step counts against `max_retries`, however many workers crash. */
  lemma RetriesStayWithinBudget(m: Machine, s: System, id: string)
    requires Reached(m, s)
    ensures |s.log.rows| == |s.log.changes| + 1 && Retries(s.log, |s.log.changes|, id) <= MaxRetries(m, id)
  {
    ReachedIsSane(m, s);
    assert LogOk(m, s.log);
    hide Reached, Sane, LogOk, MaxRetries;
    RetriesAreBounded(m, s.log, |s.log.changes|, id);
  }

  /** Two workers never hold the lease at the same time. */
  lemma LeaseIsExclusive(m: Machine, s: System, v: nat, w: nat)
    requires Reached(m, s) && v in s.workers && w in s.workers
    requires s.now < s.workers[v].until && s.now < s.workers[w].until
    ensures v == w
  {
    ReachedIsSane(m, s);
    assert LeaseOk(s);
    hide Reached, Sane;
    assert Locked(s, v) && Locked(s, w);
  }

  /** No action commits anything to a completed or failed instance. */
  lemma TerminalAbsorbs(m: Machine, s: System, act: Action)
    requires Sane(m, s) && Terminal(Row0(s)) && CanAct(m, s, act)
    ensures Act(m, s, act).log == s.log
  {
    assert Base(m, s);
    hide Sane, CanAct, Act, Base;
    if CommitsNow(s, act) {
      CommitIs(m, s, act);
    } else {
      ActIsQuiet(m, s, act);
    }
  }

  /** A completed or failed instance stays as it is, whatever workers that were in the middle of something do. */
  lemma {:induction false} TerminalForever(m: Machine, s: System, acts: seq<Action>, t: System)
    requires Sane(m, s) && Terminal(Row0(s)) && Leads(m, s, acts, t)
    ensures t.log == s.log
    decreases |acts|
  {
    hide CanAct, Act, Sane;
    if acts != [] {
      var r :| LastLeads(m, s, acts, r, t);
      TerminalForever(m, s, acts[..|acts| - 1], r);
      SaneForever(m, s, acts[..|acts| - 1], r);
      SaneHasRow(m, s);
      TerminalAbsorbs(m, r, acts[|acts| - 1]);
    }
  }

  lemma SaneHasRow(m: Machine, s: System)
    requires Sane(m, s)
    ensures s.log.rows != []
  {
  }
}
