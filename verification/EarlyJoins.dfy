/** When join safety fails. A run first stands at the join of a fork that is not done exactly when it begins a branch at that
    join; so all runs are safe if and only if no fork that can be reached has its join among its branches. */
module EarlyJoins {
  import opened Workflow
  import opened Graph
  import opened Regions
  import opened Machines
  import opened Validator
  import opened Interpreter
  import opened Rows
  import opened ForkShape
  import opened Moves
  import opened Runs
  import opened Termination
  import opened Acceptance
  import opened Limits
  import opened EndlessRuns

  /** The instance stands at the join of fork `f`, or the fork has stopped, and not all of its branches are done. */
  ghost predicate UnsafeAt(def: Definition, a: Progress, f: string) {
    && Cursor(a).Some? && f in a.forks
    && (a.forks[f].join == Cursor(a).value || !a.forks[f].status.ForkRunning?)
    && (StepById(def.steps, f).Some? ==>
          !AllBranchesDone(def, a.forks[f], Heads(StepById(def.steps, f).value), a.completed))
  }

  ghost predicate Unsafe(def: Definition, a: Progress) {
    exists f :: UnsafeAt(def, a, f)
  }

  lemma SoundIsSafe(def: Definition, a: Progress)
    requires Sound(def, a)
    ensures !Unsafe(def, a)
  {
    hide Sound, AllBranchesDone;
    if f :| UnsafeAt(def, a, f) {
      SoundJoins(def, a, f);
    }
  }

  /** Where a started branch or a finished step leads. */
  lemma EventLeads(def: Definition, a: Progress, e: Event)
    requires Enabled(MachineOf(def), a, e) && (e.Start? || e.Finish?)
    ensures var b := Next(MachineOf(def), a, e);
      var move := MoveOf(def, a, e);
      && (move.step.Some? ==> b.forks == move.forks && Cursor(b) == Some(move.step.value.id))
      && (move.step.None? ==> Cursor(b).None?)
      && (TooEarly(def, a, e) <==> JoinEntered(def, a.forks, move))
  {
    hide Resolve, CanResolve, NextAfter, CanPick, MayResult, JoinEntered, NormalSteps;
  }

  ghost function MoveOf(def: Definition, a: Progress, e: Event): Move
    requires Enabled(MachineOf(def), a, e) && (e.Start? || e.Finish?)
  {
    if e.Start? then Resolved(MachineOf(def), a, e.pick)
    else NextAfter(MachineOf(def), StepById(def.steps, a.phase.step).value, a.forks, e.result.next, e.pick)
  }

  /** A branch that begins at its join. */
  lemma TooEarlyIsUnsafe(def: Definition, a: Progress, e: Event)
    requires Enabled(MachineOf(def), a, e) && TooEarly(def, a, e)
    ensures Unsafe(def, Next(MachineOf(def), a, e))
  {
    var b := Next(MachineOf(def), a, e);
    assert (e.Start? && a.phase.Ready?) || (e.Finish? && a.phase.Active?);
    EventLeads(def, a, e);
    var move := MoveOf(def, a, e);
    hide Enabled, Next, TooEarly, MoveOf, BeginsAtJoin;
    var f, k :| BeginsAtJoin(def, a.forks, move.forks, f, k, move.step.value.id);
    BegunIsUnsafe(def, a.forks, b, f, k, move.step.value.id);
  }

  lemma BegunIsUnsafe(def: Definition, before: Forks, b: Progress, f: string, k: nat, at: string)
    requires BeginsAtJoin(def, before, b.forks, f, k, at) && Cursor(b) == Some(at)
    ensures UnsafeAt(def, b, f)
  {
    hide Heads, StepById, JoinOf, InOrder;
  }

  /** The events lead to `a`, and no state on the way, nor `a`, is unsafe. */
  ghost predicate SafeRun(def: Definition, events: seq<Event>, a: Progress)
    decreases |events|
  {
    !Unsafe(def, a) && if events == [] then a == INITIAL else exists b :: SafeStep(def, events, b, a)
  }

  ghost predicate SafeStep(def: Definition, events: seq<Event>, b: Progress, a: Progress)
    requires events != []
    decreases |events|, 0
  {
    var last := |events| - 1;
    && Enabled(MachineOf(def), b, events[last]) && a == Next(MachineOf(def), b, events[last])
    && SafeRun(def, events[..last], b)
  }

  lemma SafeEventKeepsSound(def: Definition, a: Progress, e: Event)
    requires Tame(def) && Sound(def, a) && Enabled(MachineOf(def), a, e)
    ensures Unsafe(def, Next(MachineOf(def), a, e)) <==> TooEarly(def, a, e)
    ensures !TooEarly(def, a, e) ==> Sound(def, Next(MachineOf(def), a, e))
  {
    hide *;
    if TooEarly(def, a, e) {
      TooEarlyIsUnsafe(def, a, e);
    } else {
      EventKeepsSound(def, a, e);
      SoundIsSafe(def, Next(MachineOf(def), a, e));
    }
  }

  lemma InitialIsSound(def: Definition)
    ensures Sound(def, INITIAL)
  {
  }

  /** While nothing is unsafe the forks are in order. */
  lemma {:induction false} SafeRunIsSound(def: Definition, events: seq<Event>, a: Progress)
    requires Tame(def) && SafeRun(def, events, a)
    ensures Sound(def, a)
    decreases |events|
  {
    hide Tame, Sound, Unsafe, Enabled, Next, TooEarly;
    if events == [] {
      InitialIsSound(def);
    } else {
      var b :| SafeStep(def, events, b, a);
      SafeRunIsSound(def, events[..|events| - 1], b);
      SafeEventKeepsSound(def, b, events[|events| - 1]);
    }
  }

  /** A run that was safe so far becomes unsafe exactly with the event that begins a branch at the join of its fork: a
      branch not begun before, of a fork that runs, whose first step is that join. */
  lemma FirstUnsafeIff(def: Definition, events: seq<Event>, b: Progress, e: Event)
    requires Tame(def) && SafeRun(def, events, b) && Enabled(MachineOf(def), b, e)
    ensures Unsafe(def, Next(MachineOf(def), b, e)) <==> TooEarly(def, b, e)
  {
    hide *;
    SafeRunIsSound(def, events, b);
    SafeEventKeepsSound(def, b, e);
  }

  /** The run graph leads from the first step to `id`. */
  ghost predicate IsReached(def: Definition, id: string) {
    exists first :: IsFirst(def, first) && Reaches(RunGraph(def), first, id)
  }

  lemma ReachedGoesOn(def: Definition, a: string, b: string)
    requires IsReached(def, a) && b in Succ(RunGraph(def), a)
    ensures IsReached(def, b)
  {
    hide RunGraph, Reaches, IsFirst;
    var first :| IsFirst(def, first) && Reaches(RunGraph(def), first, a);
    ReachesStep(RunGraph(def), first, a, b);
  }

  lemma FirstIsReached(def: Definition, id: string)
    requires IsFirst(def, id)
    ensures IsReached(def, id)
  {
    hide RunGraph, Reaches, IsFirst;
    ReachesSelf(RunGraph(def), id);
  }

  /** No fork that can be reached has its join among its branches. */
  ghost predicate ReachedJoinsApart(def: Definition) {
    forall f :: IsReached(def, f) && StepById(def.steps, f).Some? && StepById(def.steps, f).value.kind.Fork? ==>
      JoinOf(def, StepById(def.steps, f).value) !in Heads(StepById(def.steps, f).value)
  }

  /** Where the instance stands, and the forks it has started, can be reached. */
  ghost predicate OnReached(def: Definition, a: Progress) {
    Cursor(a).Some? ==> IsReached(def, Cursor(a).value) && ForksReached(def, a.forks)
  }

  ghost predicate ForksReached(def: Definition, forks: Forks) {
    forall f :: f in forks ==> IsReached(def, f)
  }

  lemma MoveIsReached(def: Definition, forks: Forks, at: string, completed: seq<string>, move: Move)
    requires GoodMove(def, forks, at, completed, move) && IsReached(def, at) && ForksReached(def, forks)
    ensures IsReached(def, move.step.value.id) && ForksReached(def, move.forks)
  {
    hide RunGraph, IsReached, ForksOk, Ids, IsHead, IsLastJoin, InOrder;
    var to := move.step.value.id;
    if to in Succ(RunGraph(def), at) {
      ReachedGoesOn(def, at, to);
    } else {
      var f, k :| RunningAt(forks, f, k) && MovesOn(def, f, k, at, move.forks, to);
      ReachedGoesOn(def, f, to);
    }
  }

  /** A move starts no fork but the one it comes from. */
  lemma NextAfterKeys(m: Machine, step: Step, forks: Forks, next: string, pick: Pick)
    requires ValidPick(forks, pick)
    ensures NextAfter(m, step, forks, next, pick).forks.Keys <= forks.Keys + {step.id}
  {
    hide JoinOf, Heads, StepById, NextOutsideFork, FirstOpen, NamedNext;
  }

  lemma MoveKeys(def: Definition, a: Progress, e: Event)
    requires Sound(def, a) && Enabled(MachineOf(def), a, e) && (e.Start? || e.Finish?)
    ensures forall f :: f in MoveOf(def, a, e).forks ==> f in a.forks || Cursor(a) == Some(f)
  {
    hide NextAfter, MayResult, IsPick, ForksOk, DoneOk, NormalSteps;
    if Cursor(a).Some? && StepById(def.steps, Cursor(a).value).Some? {
      KnownIds(def, Cursor(a).value);
      var step := StepById(def.steps, Cursor(a).value).value;
      hide StepById;
      if e.Finish? {
        NextAfterKeys(MachineOf(def), step, a.forks, e.result.next, e.pick);
      } else if Cursor(a).value in a.done {
        NextAfterKeys(MachineOf(def), step, a.forks, a.done[Cursor(a).value], e.pick);
      }
    }
  }

  lemma NoneBegins(def: Definition, before: Forks, move: Move)
    requires ReachedJoinsApart(def) && ForksReached(def, move.forks)
    ensures !JoinEntered(def, before, move)
  {
    hide IsReached, JoinOf, Heads, StepById, InOrder;
  }

  /** On reached ground nothing begins at a join. */
  lemma ReachedIsNotTooEarly(def: Definition, a: Progress, e: Event)
    requires ReachedJoinsApart(def) && Sound(def, a) && OnReached(def, a) && Enabled(MachineOf(def), a, e)
    ensures !TooEarly(def, a, e)
  {
    if e.Start? || e.Finish? {
      EventLeads(def, a, e);
      MoveKeys(def, a, e);
      var move := MoveOf(def, a, e);
      ReachedForks(def, a, move);
      hide *;
      NoneBegins(def, a.forks, move);
    }
  }

  lemma ReachedForks(def: Definition, a: Progress, move: Move)
    requires OnReached(def, a) && (Cursor(a).None? ==> a.forks == map[])
    requires forall f :: f in move.forks ==> f in a.forks || Cursor(a) == Some(f)
    ensures ForksReached(def, move.forks)
  {
    hide IsReached;
  }

  /** The ground stays reached. */
  lemma EventStaysReached(def: Definition, a: Progress, e: Event)
    requires Tame(def) && Sound(def, a) && OnReached(def, a) && Enabled(MachineOf(def), a, e) && !TooEarly(def, a, e)
    ensures OnReached(def, Next(MachineOf(def), a, e))
  {
    if e.Start? {
      StartStaysReached(def, a, e.pick);
    } else if e.Finish? {
      FinishStaysReached(def, a, e);
    } else {
      hide *;
      OtherKeeps(def, a, e);
      EndIsReached(def, Next(MachineOf(def), a, e));
    }
  }

  lemma EndIsReached(def: Definition, a: Progress)
    requires Cursor(a).None?
    ensures OnReached(def, a)
  {
    hide IsReached;
  }

  lemma CursorIsReached(def: Definition, a: Progress, id: string)
    requires Cursor(a) == Some(id) && IsReached(def, id) && ForksReached(def, a.forks)
    ensures OnReached(def, a)
  {
    hide IsReached;
  }

  lemma StartStaysReached(def: Definition, a: Progress, pick: Pick)
    requires Tame(def) && Sound(def, a) && OnReached(def, a) && Enabled(MachineOf(def), a, Start(pick))
    requires !TooEarly(def, a, Start(pick))
    ensures OnReached(def, Next(MachineOf(def), a, Start(pick)))
  {
    var move := Resolved(MachineOf(def), a, pick);
    EventLeads(def, a, Start(pick));
    assert move.step.Some?;
    if a.phase.current.None? {
      assert IsFirst(def, move.step.value.id) && move.forks == map[];
      hide *;
      FirstIsReached(def, move.step.value.id);
      NoForksReached(def);
    } else if a.phase.current.value in a.done {
      SkipIsGood(def, a, pick);
      hide *;
      ReachedFacts(def, a);
      MoveIsReached(def, a.forks, a.phase.current.value, a.completed, move);
    } else {
      KnownIds(def, a.phase.current.value);
      assert move.step.value.id == a.phase.current.value && move.forks == a.forks;
      hide *;
      ReachedFacts(def, a);
    }
    CursorIsReached(def, Next(MachineOf(def), a, Start(pick)), move.step.value.id);
  }

  lemma NoForksReached(def: Definition)
    ensures ForksReached(def, map[])
  {
    hide IsReached;
  }

  lemma ReachedFacts(def: Definition, a: Progress)
    requires OnReached(def, a)
    ensures a.phase.Ready? && a.phase.current.Some? ==> IsReached(def, a.phase.current.value) && ForksReached(def, a.forks)
    ensures a.phase.Active? ==> IsReached(def, a.phase.step) && ForksReached(def, a.forks)
  {
    hide IsReached;
  }

  lemma FinishStaysReached(def: Definition, a: Progress, e: Event)
    requires Tame(def) && Sound(def, a) && OnReached(def, a) && Enabled(MachineOf(def), a, e) && e.Finish?
    requires !TooEarly(def, a, e)
    ensures OnReached(def, Next(MachineOf(def), a, e))
  {
    var move := MoveOf(def, a, e);
    assert a.phase.Active?;
    EventLeads(def, a, e);
    FinishIsGood(def, a, e.result, e.pick);
    assert move.step.Some? ==> GoodMove(def, a.forks, a.phase.step, AppendNew(a.completed, a.phase.step), move);
    hide *;
    if move.step.Some? {
      ReachedFacts(def, a);
      MoveIsReached(def, a.forks, a.phase.step, AppendNew(a.completed, a.phase.step), move);
      CursorIsReached(def, Next(MachineOf(def), a, e), move.step.value.id);
    } else {
      EndIsReached(def, Next(MachineOf(def), a, e));
    }
  }

  lemma InitialIsReached(def: Definition)
    ensures OnReached(def, INITIAL)
  {
    hide IsReached;
  }

  lemma {:induction false} ReachedRunIsSound(def: Definition, events: seq<Event>, a: Progress)
    requires Tame(def) && ReachedJoinsApart(def) && Run(MachineOf(def), events, a)
    ensures Sound(def, a) && OnReached(def, a)
    decreases |events|
  {
    hide Tame, ReachedJoinsApart, Sound, OnReached, Enabled, Next, TooEarly;
    if events == [] {
      InitialIsSound(def);
      InitialIsReached(def);
    } else {
      var b :| RunStep(MachineOf(def), events, b, a);
      var e := events[|events| - 1];
      ReachedRunIsSound(def, events[..|events| - 1], b);
      ReachedIsNotTooEarly(def, b, e);
      EventKeepsSound(def, b, e);
      EventStaysReached(def, b, e);
    }
  }

  /** No run is ever unsafe. */
  ghost predicate JoinSafe(def: Definition) {
    forall events, a :: Run(MachineOf(def), events, a) ==> !Unsafe(def, a)
  }

  lemma ReachedIsSafe(def: Definition)
    requires Tame(def) && ReachedJoinsApart(def)
    ensures JoinSafe(def)
  {
    hide Tame, ReachedJoinsApart, Unsafe, Run, Sound;
    forall events, a | Run(MachineOf(def), events, a) ensures !Unsafe(def, a) {
      ReachedRunIsSound(def, events, a);
      SoundIsSafe(def, a);
    }
  }

  /** The name with which the step the instance stands at is left: the one it returned, or the recorded one. */
  function LeavingName(a: Progress, e: Event): string {
    if e.Finish? then e.result.next
    else if Cursor(a).Some? && Cursor(a).value in a.done then a.done[Cursor(a).value]
    else ""
  }

  /** The step the instance stands at is finished, or passed over. */
  predicate LeavesStep(a: Progress, e: Event) {
    e.Finish? || (e.Start? && Cursor(a).Some? && Cursor(a).value in a.done)
  }

  lemma BranchAfterStep(def: Definition, f: string, k: nat, step: Step, forks: Forks, next: string)
    requires f in forks && k < |forks[f].branches|
    ensures var after := NextAfterBranchStep(def, f, k, step, forks, next).forks;
      && f in after && k < |after[f].branches|
      && (after[f].branches[k].status.BranchCompleted? <==>
            NamedNext(step, next) == "" || NamedNext(step, next) == forks[f].join)
  {
    hide FirstOpen, StepById, NamedNext;
  }

  /** A running branch ends exactly when the name with which its step is left is empty or names the join: the name the step
      returned, or the one it recorded if it is passed over. */
  lemma BranchEndsIff(def: Definition, a: Progress, e: Event, f: string, k: nat)
    requires Sound(def, a) && Cursor(a).Some? && RunningAt(a.forks, f, k) && Enabled(MachineOf(def), a, e)
    requires LeavesStep(a, e) && StepById(def.steps, Cursor(a).value).Some?
    requires !StepById(def.steps, Cursor(a).value).value.kind.Fork?
    ensures var to := NamedNext(StepById(def.steps, Cursor(a).value).value, LeavingName(a, e));
      var after := MoveOf(def, a, e).forks;
      && f in after && k < |after[f].branches|
      && (after[f].branches[k].status.BranchCompleted? <==> to == "" || to == a.forks[f].join)
  {
    var at := Cursor(a).value;
    var step := StepById(def.steps, at).value;
    KnownIds(def, at);
    OneForkOnly(def, a.forks, at, a.completed, f, k, e.pick);
    BranchAfterStep(def, f, k, step, a.forks, LeavingName(a, e));
    hide ForksOk, NextAfterBranchStep, MayResult, DoneOk, NormalSteps, NamedNext, IsPick, InOrder;
  }

  lemma OneForkOnly(def: Definition, forks: Forks, at: string, completed: seq<string>, f: string, k: nat, pick: Pick)
    requires ForksOk(def, forks, at, completed) && RunningAt(forks, f, k)
    ensures IsPick(forks, at, pick) ==> pick == InBranch(f, k)
  {
    hide ForkOk, InOrder;
    RunsAlone(def, forks, at, completed, f, k);
    if IsPick(forks, at, pick) {
      PickIsUnique(def, forks, at, completed, pick, pick);
      hide ForksOk, RunningAt, IsPick, RunsStep;
    }
  }
}
