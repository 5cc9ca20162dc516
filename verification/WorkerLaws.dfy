/** What the actions of the workers need and do, told by the fields of the system. */
module WorkerLaws {
  import opened Workflow
  import opened Regions
  import opened Machines
  import opened MachineLaws
  import opened Interpreter
  import opened Rows
  import opened Logs
  import opened Workers
  import opened Saga
  import opened Safety
  import opened Ledger
  import opened Engines

  /** A message can be taken exactly when the instance has not ended and no lease on it lasts; the new lease lasts as long as
      asked for. */
  lemma ClaimLaw(m: Machine, s: System, lease: int)
    requires s.log.rows != []
    ensures var row := s.log.rows[|s.log.rows| - 1];
      CanAct(m, s, Claim(lease)) <==>
        s.messages > 0 && row.status != InstCompleted && row.status != InstFailed &&
        (s.lockedBy.None? || s.lockedUntil <= s.now)
    ensures CanAct(m, s, Claim(lease)) ==>
      var t := Act(m, s, Claim(lease));
      && t.lockedBy == Some(s.nextOwner) && t.lockedUntil == s.now + lease && t.log == s.log
      && s.nextOwner in t.workers && t.workers[s.nextOwner].inst == s.log.rows[|s.log.rows| - 1]
  {
  }

  /** Recovery can list the instance exactly when it has not ended and no lease on it lasts. */
  lemma RecoverLaw(m: Machine, s: System)
    requires s.log.rows != []
    ensures var row := s.log.rows[|s.log.rows| - 1];
      CanAct(m, s, Recover) <==>
        row.status != InstCompleted && row.status != InstFailed && (s.lockedBy.None? || s.lockedUntil <= s.now)
    ensures CanAct(m, s, Recover) ==> Act(m, s, Recover) == s.(messages := s.messages + 1)
  {
  }

  /** A worker that finds the instance still waiting leaves to arm its timer for that time; any other goes on. */
  lemma InspectLaw(m: Machine, s: System, w: nat)
    requires CanAct(m, s, Inspect(w)) && w in s.workers
    ensures var t := Act(m, s, Inspect(w));
      && t.log == s.log && w in t.workers
      && var row := s.workers[w].inst;
         if StillWaits(row, s.now) then
           t.workers[w].stage == Leaving(Arm(row.state.steps[row.current.value].waitingTime.value))
         else t.workers[w].stage == Checked
  {
  }

  /** A commit goes through exactly when nobody committed since the worker read the row. */
  lemma CommitLaw(m: Machine, s: System, act: Action)
    requires CanAct(m, s, act) && (act.Begin? || act.End?) && s.log.rows != [] && act.w in s.workers
    ensures var t := Act(m, s, act);
      if s.workers[act.w].inst.version == s.log.rows[|s.log.rows| - 1].version then
        |t.log.changes| == |s.log.changes| + 1 && t.log.changes[|s.log.changes|] == act.change &&
        |t.log.rows| == |s.log.rows| + 1 && t.times == s.times + [s.now]
      else t.log == s.log && t.times == s.times
  {
    hide CanCommit, Commit, Records, FreshKey, WakeAfter;
  }

  /** What the last commit of a worker leaves it to do: nothing if the instance has ended, to arm the timer if it waits, and
      otherwise to send a message. */
  lemma WakeLaw(m: Machine, s: System, w: nat, change: Change)
    requires CanAct(m, s, End(w, change)) && s.log.rows != [] && w in s.workers
    requires s.workers[w].inst.version == s.log.rows[|s.log.rows| - 1].version
    ensures var t := Act(m, s, End(w, change));
      && w in t.workers && t.log.rows != [] && t.workers[w].stage.Leaving?
      && var row := t.log.rows[|t.log.rows| - 1];
         && ((row.status == InstCompleted || row.status == InstFailed) ==> t.workers[w].stage.wake.Quiet?)
         && (row.status == InstWaiting ==>
               row.current.Some? && row.current.value in row.state.steps &&
               row.state.steps[row.current.value].waitingTime.Some? &&
               t.workers[w].stage.wake == Arm(row.state.steps[row.current.value].waitingTime.value))
         && (row.status != InstCompleted && row.status != InstFailed && row.status != InstWaiting ==>
               t.workers[w].stage.wake.Enqueue?)
  {
    EndStatus(m, s.workers[w].inst, change);
    hide CanCommit, Commit, Records, FreshKey;
  }

  lemma EndStatus(m: Machine, row: Row, change: Change)
    requires CanCommit(m, row, change)
    ensures var next := Commit(m, row, change);
      && (change.Wait? || change.RetryAt? <==> next.status == InstWaiting)
      && (next.status == InstWaiting ==>
            next.current.Some? && next.current.value in next.state.steps &&
            next.state.steps[next.current.value].waitingTime == Some(change.fireAt))
  {
    hide StepById, NextAfter, Resolve, CanResolve, IsPick, MayResult, CanPick, CompensationQueue, MarkBranchFailed;
  }

  /** And how it does that. A timer that is due already is fired at once. */
  lemma NotifyLaw(m: Machine, s: System, w: nat)
    requires CanAct(m, s, Notify(w)) && w in s.workers
    ensures var t := Act(m, s, Notify(w));
      && t.log == s.log
      && match s.workers[w].stage.wake
         case Quiet => t == s
         case Enqueue => t.messages == s.messages + 1 && t.timer == s.timer
         case Arm(at) =>
           if at <= s.now then t.messages == s.messages + 1 && t.timer.None?
           else t.messages == s.messages && t.timer == Some(at)
  {
  }

  /** The outcomes an execution may have. A delay that has not waited waits for its duration; one that has is over when its
      time has come, and not before. Anything else fails, or succeeds with a name its kind allows: a condition with one of
      its two references, a fork with its first branch, a join with its successor. */
  lemma HappenLaw(step: Step, previous: StepState, at: int, outcome: StepOutcome)
    ensures step.kind.Delay? && previous.status != StepWaiting ==>
      (MayHappen(step, previous, at, outcome) <==> outcome == WaitingUntil(at + step.config.duration))
    ensures step.kind.Delay? && previous.status == StepWaiting && previous.waitingTime.Some? ==>
      (MayHappen(step, previous, at, outcome) <==>
        if previous.waitingTime.value <= at then outcome == Success(Result("", ""))
        else outcome == WaitingUntil(previous.waitingTime.value))
    ensures !step.kind.Delay? && outcome.Failure? ==> MayHappen(step, previous, at, outcome)
    ensures !step.kind.Delay? && outcome.WaitingUntil? ==> !MayHappen(step, previous, at, outcome)
    ensures !step.kind.Delay? && outcome.Success? ==>
      (MayHappen(step, previous, at, outcome) <==>
        var r := outcome.result;
        match step.kind
        case Condition => r.next == r.outputNext && (r.next == step.config.thenRef || r.next == step.config.elseRef)
        case Fork =>
          step.config.branches.Some? && step.config.branches.value != [] && r.next == r.outputNext == step.config.branches.value[0]
        case Join => r.next == r.outputNext == step.config.next
        case Transform => r.next == "" && (step.config.resultKey != "next_step" ==> r.outputNext == "")
        case _ => r.next == r.outputNext == "")
  {
  }

  /** An execution is of the marked step, with the key and the version of the mark, and comes to what the step may come to
      with the state it had before the mark; a compensation is run as if it had none. */
  lemma ExecuteLaw(m: Machine, s: System, w: nat, outcome: StepOutcome)
    requires CanAct(m, s, Execute(w, outcome)) && w in s.workers && s.workers[w].inst.current.Some?
    requires 0 < s.workers[w].inst.version <= |s.log.rows|
    ensures var inst, t := s.workers[w].inst, Act(m, s, Execute(w, outcome));
      var id, before := inst.current.value, s.log.rows[inst.version - 1];
      && t.log == s.log && |t.effects| == |s.effects| + 1 && t.effects[..|s.effects|] == s.effects
      && t.effects[|s.effects|] ==
           Effect(id, if id in inst.state.steps then inst.state.steps[id].key else "", inst.version, s.now, outcome)
      && StepById(m.def.steps, id).Some?
      && MayHappen(StepById(m.def.steps, id).value,
                   if inst.status == InstCompensating || inst.state.queue != [] || id !in before.state.steps
                   then StepState(NoStatus, "", 0, "", None) else before.state.steps[id],
                   s.now, outcome)
  {
    hide StepById, MayHappen;
  }

  /** The history gets a row before the execution, and what came of it afterwards. */
  lemma HistoryLaw(m: Machine, s: System, act: Action)
    requires CanAct(m, s, act)
    ensures var t := Act(m, s, act);
      && (act.Append? ==>
            && act.w in s.workers && s.workers[act.w].inst.current.Some?
            && var inst, id := s.workers[act.w].inst, s.workers[act.w].inst.current.value;
               t.history == s.history +
                 [HistoryRow(id, if id in inst.state.steps then inst.state.steps[id].attempt else 0, inst.version, None)])
      && (act.Record? ==>
            && act.w in s.workers && s.workers[act.w].stage.Ran?
            && var h, e := s.workers[act.w].stage.h, s.workers[act.w].stage.e;
               && h < |s.history| == |t.history| && e < |s.effects|
               && t.history[h] == s.history[h].(outcome := Some(s.effects[e].outcome))
               && forall k :: 0 <= k < |s.history| && k != h ==> t.history[k] == s.history[k])
      && (!act.Append? && !act.Record? ==> t.history == s.history)
  {
    hide CanCommit, Commit, Records, FreshKey, WakeAfter, MayHappen, StepById;
  }

  /** A worker lets go of the lease it holds, a crashed one does not; a timer that fires is gone and wakes the instance, unless
      it got lost; a success clears the timer. None of this shows in the row. */
  lemma OtherLaw(m: Machine, s: System, act: Action)
    requires CanAct(m, s, act)
    ensures var t := Act(m, s, act);
      && (act.Release? ==>
            t.log == s.log && act.w !in t.workers && t.messages == s.messages && t.timer == s.timer &&
            (if s.lockedBy == Some(act.w) then t.lockedBy.None? else t.lockedBy == s.lockedBy))
      && (act.Crash? ==> act.w in s.workers && t == s.(workers := s.workers - {act.w}))
      && (act.FireTimer? ==>
            s.timer.Some? && t == s.(timer := None, messages := if act.enqueued then s.messages + 1 else s.messages))
      && (act.ClearTimer? ==> t.log == s.log && t.timer.None? && t.messages == s.messages)
      && (act.Ack? ==> s.messages > 0 && t == s.(messages := s.messages - 1))
      && (act.Tick? ==> t == s.(now := s.now + act.elapsed))
      && (act.Abort? ==> t.log == s.log && t.messages == s.messages && t.timer == s.timer && t.lockedBy == s.lockedBy)
  {
    hide CanCommit, Commit, Records, FreshKey, WakeAfter, MayHappen, StepById;
  }

  /** A condition outside forks whose expression is true goes on to the step `then` names, one whose expression is false to the
      one `else` names; if that is empty, to the one `next` names; if that is empty too, to the end. */
  lemma ConditionLaw(def: Definition, step: Step, forks: Forks, at: int, answer: Answer)
    requires UniqueIds(def.steps) && step.kind.Condition? && answer.Answer?
    ensures Executed(step, at, answer).Success?
    ensures var ref := if answer.matched then step.config.thenRef else step.config.elseRef;
      var to := NextAfter(MachineOf(def), step, forks, Executed(step, at, answer).result.next, NoBranch).step;
      && (forall l :: NamedAt(def, ref, step.config.next, l) ==> to == Some(def.steps[l]))
      && (ref == "" && step.config.next == "" ==> to.None?)
  {
    hide *;
    ConditionAnswer(step, at, answer);
    OutsideLaw(def, step, forks, Executed(step, at, answer).result.next);
  }

  lemma ConditionAnswer(step: Step, at: int, answer: Answer)
    requires step.kind.Condition? && answer.Answer?
    ensures Executed(step, at, answer).Success?
    ensures Executed(step, at, answer).result.next == if answer.matched then step.config.thenRef else step.config.elseRef
    ensures !step.kind.Fork?
  {
  }
}
