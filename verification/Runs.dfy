/** Whole runs of the sequential interpreter on disciplined definitions: the forks stay in order, joins are entered
    only after all branches, and when the run graph has no cycle every run is finite. */
module Runs {
  import opened Workflow
  import opened Graph
  import opened Regions
  import opened Machines
  import opened Saga
  import opened Interpreter
  import opened Rows
  import opened ForkShape
  import opened Moves

  /** What the recorded outputs may say. */
  ghost predicate DoneOk(def: Definition, a: Progress) {
    forall id :: id in a.done ==>
      && id in Ids(def) && id in a.completed && StepById(def.steps, id).Some?
      && Legit(StepById(def.steps, id).value, a.done[id])
      && (StepById(def.steps, id).value.kind.Fork? ==> id in a.forks)
  }

  /** The step the instance stands at, while normal steps run. */
  function Cursor(a: Progress): Option<string> {
    match a.phase
    case Ready(current) => current
    case Active(step) => Some(step)
    case _ => None
  }

  ghost predicate Sound(def: Definition, a: Progress) {
    && (a.phase == Ready(None) ==> a.forks == map[] && a.done == map[])
    && (Cursor(a).Some? ==>
          Cursor(a).value in Ids(def) && ForksOk(def, a.forks, Cursor(a).value, a.completed) && DoneOk(def, a))
  }

  lemma NoForksMoveNone(m: Machine, step: Step, next: string, pick: Pick)
    requires !step.kind.Fork? && CanPick(step, map[], pick)
    ensures NextAfter(m, step, map[], next, pick).forks == map[]
  {
    assert pick.NoBranch?;
    assert MarkJoined(step.id, map[]) == map[];
  }

  /** The event begins a branch at the join of its fork. */
  ghost predicate TooEarly(def: Definition, a: Progress, e: Event)
    requires Enabled(MachineOf(def), a, e)
  {
    match e
    case Start(pick) => JoinEntered(def, a.forks, Resolved(MachineOf(def), a, pick))
    case Finish(result, pick) =>
      JoinEntered(def, a.forks,
                  NextAfter(MachineOf(def), StepById(def.steps, a.phase.step).value, a.forks, result.next, pick))
    case _ => false
  }

  lemma SkipResolves(def: Definition, a: Progress, at: string, step: Step, pick: Pick)
    requires Sound(def, a) && a.phase == Ready(Some(at)) && at in a.done
    requires IsStep(def, at, step) && CanPick(step, a.forks, pick)
    ensures Resolve(MachineOf(def), a.done, a.forks, a.phase.current, pick) ==
      NextAfter(MachineOf(def), step, a.forks, a.done[at], pick)
  {
    hide IsPick, NextAfter, ForksOk, Legit;
    if a.forks == map[] {
      NoForksMoveNone(MachineOf(def), step, a.done[at], pick);
    }
  }

  /** Passing over a completed step is a good move. */
  lemma SkipIsGood(def: Definition, a: Progress, pick: Pick)
    requires Tame(def) && Sound(def, a) && a.phase.Ready? && a.phase.current.Some?
    requires a.phase.current.value in a.done
    requires ValidPick(a.forks, pick) && CanResolve(MachineOf(def), a.done, a.forks, a.phase.current, pick)
    requires Resolved(MachineOf(def), a, pick).step.Some?
    requires JoinsApart(def) || !JoinEntered(def, a.forks, Resolved(MachineOf(def), a, pick))
    ensures GoodMove(def, a.forks, a.phase.current.value, a.completed, Resolved(MachineOf(def), a, pick))
  {
    var at := a.phase.current.value;
    var step := StepById(def.steps, at).value;
    KnownIds(def, at);
    NextAfterIsGood(def, a.forks, at, step, a.completed, a.done[at], pick);
    hide GoodMove, JoinEntered, Tame, JoinsApart, ForksOk, IsPick, NextAfter;
    if a.forks == map[] {
      NoForksMoveNone(MachineOf(def), step, a.done[at], pick);
    }
  }

  lemma NoForksOk(def: Definition, at: string, completed: seq<string>)
    ensures ForksOk(def, map[], at, completed) && Idle(map[])
  {
  }

  lemma FirstNormalKnown(def: Definition)
    requires Tame(def) && MachineOf(def).normal != []
    ensures MachineOf(def).normal[0].id in Ids(def)
  {
    MachineOfOk(def);
    KnownIds(def, MachineOf(def).normal[0].id);
  }

  /** Where a start leads. */
  lemma StartIsGood(def: Definition, a: Progress, pick: Pick)
    requires Tame(def) && Sound(def, a) && Enabled(MachineOf(def), a, Start(pick))
    requires JoinsApart(def) || !TooEarly(def, a, Start(pick))
    ensures var move := Resolved(MachineOf(def), a, pick);
      && move.step.value.id in Ids(def) && a.forks.Keys <= move.forks.Keys
      && ForksOk(def, move.forks, move.step.value.id, a.completed) && DoneOk(def, a)
  {
    var move := Resolved(MachineOf(def), a, pick);
    if a.phase.current.None? {
      FirstNormalKnown(def);
      NoForksOk(def, move.step.value.id, a.completed);
    } else if a.phase.current.value in a.done {
      SkipIsGood(def, a, pick);
      hide Tame, JoinsApart, JoinEntered, ForksOk, Advances, IsPick, Resolve, DoneOk;
    } else {
      KnownIds(def, a.phase.current.value);
      hide Tame, JoinsApart, ForksOk, IsPick, DoneOk;
    }
  }

  lemma StartedSound(def: Definition, a: Progress, to: string, forks: Forks)
    requires DoneOk(def, a) && a.forks.Keys <= forks.Keys && to in Ids(def) && ForksOk(def, forks, to, a.completed)
    ensures Sound(def, Started(a, to, forks))
  {
    hide ForksOk, Legit, Ids, StepById;
  }

  lemma MovedSound(def: Definition, a: Progress, at: string, outputNext: string, move: Move)
    requires DoneOk(def, a) && a.forks.Keys <= move.forks.Keys && at in Ids(def) && StepById(def.steps, at).Some?
    requires Legit(StepById(def.steps, at).value, outputNext)
    requires StepById(def.steps, at).value.kind.Fork? ==> at in move.forks
    requires move.step.Some? ==> move.step.value.id in Ids(def)
    requires move.step.Some? ==> ForksOk(def, move.forks, move.step.value.id, AppendNew(a.completed, at))
    ensures Sound(def, Moved(a, at, outputNext, move))
  {
    hide ForksOk, Legit, Ids, StepById;
  }

  /** Finishing the active step is a good move. */
  lemma FinishIsGood(def: Definition, a: Progress, result: Result, pick: Pick)
    requires Tame(def) && Sound(def, a) && Enabled(MachineOf(def), a, Finish(result, pick))
    requires JoinsApart(def) || !TooEarly(def, a, Finish(result, pick))
    ensures var at := a.phase.step;
      var step := StepById(def.steps, at).value;
      var move := NextAfter(MachineOf(def), step, a.forks, result.next, pick);
      && step.id == at && Legit(step, result.outputNext)
      && (move.step.Some? ==> GoodMove(def, a.forks, at, AppendNew(a.completed, at), move))
      && (move.step.None? ==> ForksOk(def, move.forks, at, AppendNew(a.completed, at)) && Idle(move.forks))
      && (step.kind.Fork? ==> at in move.forks)
  {
    var at := a.phase.step;
    var step := StepById(def.steps, at).value;
    KnownIds(def, at);
    StepIsGood(def, at);
    MayResultIsLegit(def, step, result);
    ForksOkGrow(def, a.forks, at, a.completed, AppendNew(a.completed, at));
    NextAfterIsGood(def, a.forks, at, step, AppendNew(a.completed, at), result.next, pick);
  }

  /** Every event keeps the forks in order, unless it begins a branch at a join. */
  lemma EventKeepsSound(def: Definition, a: Progress, e: Event)
    requires Tame(def) && Sound(def, a) && Enabled(MachineOf(def), a, e) && (JoinsApart(def) || !TooEarly(def, a, e))
    ensures Sound(def, Next(MachineOf(def), a, e))
  {
    match e
    case Start(pick) =>
      StartIsGood(def, a, pick);
      hide *;
      StartKeeps(def, a, pick);
    case Finish(result, pick) =>
      FinishIsGood(def, a, result, pick);
      hide *;
      FinishKeeps(def, a, result, pick);
    case _ => OtherKeeps(def, a, e);
  }

  lemma StartKeeps(def: Definition, a: Progress, pick: Pick)
    requires Enabled(MachineOf(def), a, Start(pick))
    requires var move := Resolved(MachineOf(def), a, pick);
      && move.step.value.id in Ids(def) && a.forks.Keys <= move.forks.Keys
      && ForksOk(def, move.forks, move.step.value.id, a.completed) && DoneOk(def, a)
    ensures Sound(def, Next(MachineOf(def), a, Start(pick)))
  {
    StartedSound(def, a, Resolved(MachineOf(def), a, pick).step.value.id, Resolved(MachineOf(def), a, pick).forks);
    hide ForksOk, DoneOk, Resolve, Ids, Sound, CanResolve;
  }

  lemma FinishKeeps(def: Definition, a: Progress, result: Result, pick: Pick)
    requires Enabled(MachineOf(def), a, Finish(result, pick)) && Sound(def, a)
    requires var at := a.phase.step;
      var step := StepById(def.steps, at).value;
      var move := NextAfter(MachineOf(def), step, a.forks, result.next, pick);
      && step.id == at && Legit(step, result.outputNext)
      && (move.step.Some? ==> GoodMove(def, a.forks, at, AppendNew(a.completed, at), move))
      && (step.kind.Fork? ==> at in move.forks)
    ensures Sound(def, Next(MachineOf(def), a, Finish(result, pick)))
  {
    var at := a.phase.step;
    var step := StepById(def.steps, at).value;
    var move := NextAfter(MachineOf(def), step, a.forks, result.next, pick);
    hide ForksOk, DoneOk, Ids, NextAfter, IsPick, MayResult, Legit, Advances;
    assert Next(MachineOf(def), a, Finish(result, pick)) == Moved(a, at, result.outputNext, move);
    assert DoneOk(def, a) && at in Ids(def);
    hide Sound, Next, MachineOf, StepById;
    if move.step.Some? {
      MovedSound(def, a, at, result.outputNext, move);
    } else {
      EndedIsSound(def, a, at, result.outputNext, move);
    }
  }

  lemma EndedIsSound(def: Definition, a: Progress, at: string, outputNext: string, move: Move)
    requires move.step.None?
    ensures Sound(def, Moved(a, at, outputNext, move))
  {
  }

  lemma OtherKeeps(def: Definition, a: Progress, e: Event)
    requires Enabled(MachineOf(def), a, e) && !e.Start? && !e.Finish? && Sound(def, a)
    ensures Sound(def, Next(MachineOf(def), a, e)) && Cursor(Next(MachineOf(def), a, e)).None?
  {
    hide ForksOk, DoneOk, Resolve, CompensationQueue, MarkBranchFailed, IsPick, MachineOf;
  }

  /** The forks are in order after every run. */
  lemma {:induction false} RunIsSound(def: Definition, events: seq<Event>, a: Progress)
    requires Disciplined(def) && Run(MachineOf(def), events, a)
    ensures Sound(def, a)
    decreases |events|
  {
    hide Tame, JoinsApart, Enabled, Next;
    if events == [] {
      assert a == INITIAL;
    } else {
      var b :| RunStep(MachineOf(def), events, b, a);
      RunIsSound(def, events[..|events| - 1], b);
      EventKeepsSound(def, b, events[|events| - 1]);
    }
  }

  /** All branches are done: each went from its head along references to a step at which it could end, and completed
      every step on its way, and nothing else. */
  ghost predicate AllBranchesDone(def: Definition, fork: ForkState, heads: seq<string>, completed: seq<string>) {
    && (fork.status.ForkCompleted? || fork.status.ForkJoined?)
    && |fork.branches| == |heads|
    && forall i :: 0 <= i < |heads| ==> BranchDone(def, fork.join, fork.branches[i], heads[i], completed)
  }

  ghost predicate BranchDone(def: Definition, join: string, branch: BranchState, head: string, completed: seq<string>) {
    && branch.status.BranchCompleted? && branch.start == head
    && (forall id :: id in branch.completed ==> id in completed)
    && exists p :: FullTrail(def, join, branch, p)
  }

  lemma NotRunningIsDone(def: Definition, forks: Forks, at: string, completed: seq<string>, f: string)
    requires ForksOk(def, forks, at, completed) && f in forks && !forks[f].status.ForkRunning?
    ensures StepById(def.steps, f).Some?
    ensures AllBranchesDone(def, forks[f], Heads(StepById(def.steps, f).value), completed)
  {
    hide JoinOf, InRegion, StepById, Heads, FullTrail, Trail;
    var k :| ForkOk(def, f, forks[f], k, at, completed);
  }

  /** Whenever the forks are in order, a fork that no longer runs has all its branches done, and if the instance stands at a
      join, so has every fork it joins. */
  lemma SoundJoins(def: Definition, a: Progress, f: string)
    requires Sound(def, a) && Cursor(a).Some? && f in a.forks
    requires a.forks[f].join == Cursor(a).value || !a.forks[f].status.ForkRunning?
    ensures StepById(def.steps, f).Some?
    ensures AllBranchesDone(def, a.forks[f], Heads(StepById(def.steps, f).value), a.completed)
  {
    hide ForksOk, DoneOk, JoinOf, InRegion, AllBranchesDone, StepById;
    var at := Cursor(a).value;
    assert !a.forks[f].status.ForkRunning? by {
      if a.forks[f].status.ForkRunning? {
        var k := ForkRunsAt(def, a.forks, at, a.completed, f);
        RegionAvoids(def, StepById(def.steps, f).value, at);
      }
    }
    NotRunningIsDone(def, a.forks, at, a.completed, f);
  }

  /** So it is in every run. */
  lemma JoinOnlyAfterAllBranches(def: Definition, events: seq<Event>, a: Progress, f: string)
    requires Disciplined(def) && Run(MachineOf(def), events, a)
    requires Cursor(a).Some? && f in a.forks
    requires a.forks[f].join == Cursor(a).value || !a.forks[f].status.ForkRunning?
    ensures StepById(def.steps, f).Some?
    ensures AllBranchesDone(def, a.forks[f], Heads(StepById(def.steps, f).value), a.completed)
  {
    hide Tame, JoinsApart, Run, Sound, AllBranchesDone, StepById;
    RunIsSound(def, events, a);
    SoundJoins(def, a, f);
  }

  /** Once a step was given up no fork runs. */
  ghost predicate Quiet(a: Progress) {
    a.phase.Undoing? || a.phase == Done(false) ==> forall f :: f in a.forks ==> a.forks[f].status != ForkRunning
  }

  lemma GiveUpQuiets(def: Definition, a: Progress, pick: Pick)
    requires Sound(def, a) && Enabled(MachineOf(def), a, GiveUp(pick))
    ensures Quiet(Next(MachineOf(def), a, GiveUp(pick)))
  {
    hide ForksOk, DoneOk, CompensationQueue, MarkBranchFailed, IsPick, NormalSteps, Ids;
    var b := Next(MachineOf(def), a, GiveUp(pick));
    assert b.forks == MarkBranchFailed(a.forks, pick) && ForksOk(def, a.forks, a.phase.step, a.completed);
    assert IsPick(a.forks, a.phase.step, pick);
    hide *;
    FailedForkStops(def, a.forks, a.phase.step, a.completed, pick);
    StoppedIsQuiet(b);
  }

  lemma FailedForkStops(def: Definition, forks: Forks, at: string, completed: seq<string>, pick: Pick)
    requires ForksOk(def, forks, at, completed) && ValidPick(forks, pick) && IsPick(forks, at, pick)
    ensures Idle(MarkBranchFailed(forks, pick))
  {
    PickIsUnique(def, forks, at, completed, pick, pick);
    hide ForkOk, IsPick, InOrder;
  }

  lemma StoppedIsQuiet(a: Progress)
    requires Idle(a.forks)
    ensures Quiet(a)
  {
  }

  lemma {:induction false} RunIsQuiet(def: Definition, events: seq<Event>, a: Progress)
    requires Disciplined(def) && Run(MachineOf(def), events, a)
    ensures Quiet(a)
    decreases |events|
  {
    hide Tame, JoinsApart, Sound;
    if events != [] {
      var last := |events| - 1;
      var b :| RunStep(MachineOf(def), events, b, a);
      RunIsQuiet(def, events[..last], b);
      if events[last].GiveUp? {
        RunIsSound(def, events[..last], b);
        GiveUpQuiets(def, b, events[last].pick);
      } else {
        hide Run;
        OtherStaysQuiet(def, b, events[last]);
      }
    }
  }

  lemma OtherStaysQuiet(def: Definition, a: Progress, e: Event)
    requires Enabled(MachineOf(def), a, e) && !e.GiveUp? && Quiet(a)
    ensures Quiet(Next(MachineOf(def), a, e))
  {
    hide Resolve, CanResolve, NextAfter, CanPick, MayResult, NormalSteps;
  }

  /** The fork `f` did not fail and does not run any more. */
  predicate IsOver(forks: Forks, f: string) {
    f in forks && (forks[f].status.ForkCompleted? || forks[f].status.ForkJoined?)
  }

  ghost predicate ForkSettled(def: Definition, forks: Forks, completed: seq<string>, f: string)
    requires f in forks
  {
    StepById(def.steps, f).Some? &&
    AllBranchesDone(def, forks[f], Heads(StepById(def.steps, f).value), completed)
  }

  /** Whatever the phase: a fork that is over has all its branches done, and an instance that has completed has no other
      forks. */
  ghost predicate Settled(def: Definition, a: Progress) {
    && (forall f :: IsOver(a.forks, f) ==> ForkSettled(def, a.forks, a.completed, f))
    && (a.phase == Done(true) ==> forall f :: f in a.forks ==> IsOver(a.forks, f))
  }

  lemma OrderlyIsSettled(def: Definition, forks: Forks, at: string, completed: seq<string>)
    requires ForksOk(def, forks, at, completed)
    ensures forall f :: IsOver(forks, f) ==> ForkSettled(def, forks, completed, f)
    ensures Idle(forks) ==> forall f :: f in forks ==> IsOver(forks, f)
  {
    forall f | IsOver(forks, f) ensures ForkSettled(def, forks, completed, f) {
      hide ForksOk, StepById, AllBranchesDone;
      NotRunningIsDone(def, forks, at, completed, f);
    }
    hide InRegion, JoinOf, StepById, Heads, BranchOk, InOrder, AllBranchesDone, ForkSettled;
  }

  lemma DoneGrows(def: Definition, fork: ForkState, heads: seq<string>, completed: seq<string>, more: seq<string>)
    requires AllBranchesDone(def, fork, heads, completed) && forall id :: id in completed ==> id in more
    ensures AllBranchesDone(def, fork, heads, more)
  {
    hide FullTrail;
  }

  lemma SettledGrows(def: Definition, a: Progress, b: Progress)
    requires Settled(def, a) && b.forks == a.forks && b.phase != Done(true)
    requires forall id :: id in a.completed ==> id in b.completed
    ensures Settled(def, b)
  {
    hide StepById, AllBranchesDone, Heads;
    forall f | IsOver(b.forks, f) ensures ForkSettled(def, b.forks, b.completed, f) {
      assert IsOver(a.forks, f);
      DoneGrows(def, a.forks[f], Heads(StepById(def.steps, f).value), a.completed, b.completed);
    }
  }

  lemma FailedSettles(def: Definition, a: Progress, pick: Pick, b: Progress)
    requires Settled(def, a) && ValidPick(a.forks, pick) && b.forks == MarkBranchFailed(a.forks, pick)
    requires b.completed == a.completed && b.phase != Done(true)
    ensures Settled(def, b)
  {
    hide StepById, AllBranchesDone, Heads;
    forall f | IsOver(b.forks, f) ensures ForkSettled(def, b.forks, b.completed, f) {
      assert IsOver(a.forks, f) && a.forks[f] == b.forks[f];
    }
  }

  lemma StandingSettles(def: Definition, a: Progress)
    requires Sound(def, a) && Cursor(a).Some?
    ensures Settled(def, a)
  {
    hide ForksOk, DoneOk, ForkSettled;
    OrderlyIsSettled(def, a.forks, Cursor(a).value, a.completed);
  }

  /** An end with orderly forks, none of them running. */
  lemma EndSettles(def: Definition, at: string, b: Progress)
    requires ForksOk(def, b.forks, at, b.completed) && Idle(b.forks)
    ensures Settled(def, b)
  {
    hide ForksOk, ForkSettled, IsOver;
    OrderlyIsSettled(def, b.forks, at, b.completed);
  }

  lemma MovedOn(a: Progress, at: string, outputNext: string, move: Move)
    ensures var b := Moved(a, at, outputNext, move);
      && b.forks == move.forks && b.completed == AppendNew(a.completed, at)
      && (move.step.Some? <==> Cursor(b).Some?)
  {
  }

  lemma FinishSettles(def: Definition, a: Progress, result: Result, pick: Pick)
    requires Disciplined(def) && Sound(def, a) && Enabled(MachineOf(def), a, Finish(result, pick))
    ensures Settled(def, Next(MachineOf(def), a, Finish(result, pick)))
  {
    var at, b := a.phase.step, Next(MachineOf(def), a, Finish(result, pick));
    var step := StepById(def.steps, at).value;
    var move := NextAfter(MachineOf(def), step, a.forks, result.next, pick);
    assert b == Moved(a, step.id, result.outputNext, move);
    hide *;
    EventKeepsSound(def, a, Finish(result, pick));
    FinishIsGood(def, a, result, pick);
    MovedOn(a, step.id, result.outputNext, move);
    if Cursor(b).Some? {
      StandingSettles(def, b);
    } else {
      EndSettles(def, at, b);
    }
  }

  /** Nothing to run: the forks are left in order, none running. */
  lemma HaltIsGood(def: Definition, a: Progress, pick: Pick)
    requires Disciplined(def) && Sound(def, a) && Enabled(MachineOf(def), a, Halt(pick))
    ensures var forks := Resolved(MachineOf(def), a, pick).forks;
      forks == map[] || exists at :: ForksOk(def, forks, at, a.completed) && Idle(forks)
  {
    if a.phase.current.Some? {
      var at := a.phase.current.value;
      KnownIds(def, at);
      if a.forks != map[] {
        NextAfterIsGood(def, a.forks, at, StepById(def.steps, at).value, a.completed, a.done[at], pick);
        hide GoodMove, Tame, JoinsApart, ForksOk, IsPick, NextAfter;
      }
    }
  }

  lemma HaltSettles(def: Definition, a: Progress, pick: Pick)
    requires Disciplined(def) && Sound(def, a) && Enabled(MachineOf(def), a, Halt(pick))
    ensures Settled(def, Next(MachineOf(def), a, Halt(pick)))
  {
    var b := Next(MachineOf(def), a, Halt(pick));
    HaltIsGood(def, a, pick);
    assert b.forks == Resolved(MachineOf(def), a, pick).forks && b.completed == a.completed;
    hide *;
    if b.forks == map[] {
      NoForksSettle(def, b);
    } else {
      var at :| ForksOk(def, b.forks, at, a.completed) && Idle(b.forks);
      EndSettles(def, at, b);
    }
  }

  lemma NoForksSettle(def: Definition, b: Progress)
    requires b.forks == map[]
    ensures Settled(def, b)
  {
  }

  lemma UndoSettles(def: Definition, a: Progress, e: Event)
    requires Settled(def, a) && Enabled(MachineOf(def), a, e) && (e.GiveUp? || e.Undo? || e.UndoFail?)
    ensures Settled(def, Next(MachineOf(def), a, e))
  {
    var b := Next(MachineOf(def), a, e);
    hide Settled, CompensationQueue, MarkBranchFailed, IsPick;
    if e.GiveUp? {
      FailedSettles(def, a, e.pick, b);
    } else {
      SettledGrows(def, a, b);
    }
  }

  /** In every state of every run, ended and compensating ones included. */
  lemma {:induction false} RunIsSettled(def: Definition, events: seq<Event>, a: Progress)
    requires Disciplined(def) && Run(MachineOf(def), events, a)
    ensures Settled(def, a)
    decreases |events|
  {
    hide Tame, JoinsApart, Enabled, Next, Settled, Sound;
    if events == [] {
      InitialIsSettled(def);
    } else {
      var last := |events| - 1;
      var b :| RunStep(MachineOf(def), events, b, a);
      RunIsSettled(def, events[..last], b);
      RunIsSound(def, events[..last], b);
      match events[last]
      case Start(pick) =>
        EventKeepsSound(def, b, events[last]);
        StartStands(def, b, pick);
        StandingSettles(def, a);
      case Finish(result, pick) => FinishSettles(def, b, result, pick);
      case Halt(pick) => HaltSettles(def, b, pick);
      case _ => UndoSettles(def, b, events[last]);
    }
  }

  lemma StartStands(def: Definition, a: Progress, pick: Pick)
    requires Enabled(MachineOf(def), a, Start(pick))
    ensures Cursor(Next(MachineOf(def), a, Start(pick))).Some?
  {
    hide Resolve, CanResolve;
  }

  lemma InitialIsSettled(def: Definition)
    ensures Settled(def, INITIAL)
  {
  }

  /** An event without the choice of a branch. */
  function Outcome(e: Event): Event {
    match e
    case Start(_) => Start(NoBranch)
    case Halt(_) => Halt(NoBranch)
    case Finish(result, _) => Finish(result, NoBranch)
    case GiveUp(_) => GiveUp(NoBranch)
    case _ => e
  }

  lemma ResolvePickIsUnique(def: Definition, a: Progress, p: Pick, q: Pick)
    requires Sound(def, a) && a.phase.Ready?
    requires ValidPick(a.forks, p) && CanResolve(MachineOf(def), a.done, a.forks, a.phase.current, p)
    requires ValidPick(a.forks, q) && CanResolve(MachineOf(def), a.done, a.forks, a.phase.current, q)
    ensures p == q
  {
    hide ForksOk, DoneOk, IsPick;
    if a.phase.current.Some? {
      KnownIds(def, a.phase.current.value);
      if a.phase.current.value in a.done && !StepById(def.steps, a.phase.current.value).value.kind.Fork? {
        PickIsUnique(def, a.forks, a.phase.current.value, a.completed, p, q);
      }
    }
  }

  lemma EventIsUnique(def: Definition, a: Progress, d: Event, e: Event)
    requires Sound(def, a) && Enabled(MachineOf(def), a, d) && Enabled(MachineOf(def), a, e)
    requires Outcome(d) == Outcome(e)
    ensures d == e
  {
    hide ForksOk, DoneOk, IsPick, Resolve, MayResult, CanResolve;
    match d
    case Start(p) => ResolvePickIsUnique(def, a, p, e.pick);
    case Halt(p) => ResolvePickIsUnique(def, a, p, e.pick);
    case Finish(_, p) =>
      KnownIds(def, a.phase.step);
      if !StepById(def.steps, a.phase.step).value.kind.Fork? {
        PickIsUnique(def, a.forks, a.phase.step, a.completed, p, e.pick);
      }
    case GiveUp(p) => PickIsUnique(def, a.forks, a.phase.step, a.completed, p, e.pick);
    case _ =>
  }

  /** The outcomes of the steps alone decide where an instance stands: the order in which Go ranges over the forks never
      matters. */
  lemma {:induction false} OutcomesDecide(def: Definition, s: seq<Event>, t: seq<Event>, a: Progress, b: Progress)
    requires Disciplined(def) && Run(MachineOf(def), s, a) && Run(MachineOf(def), t, b)
    requires |s| == |t| && forall i :: 0 <= i < |s| ==> Outcome(s[i]) == Outcome(t[i])
    ensures s == t && a == b
    decreases |s|
  {
    hide Tame, JoinsApart, Sound, Enabled, Next, Outcome;
    if s != [] {
      var n := |s| - 1;
      var a' :| RunStep(MachineOf(def), s, a', a);
      var b' :| RunStep(MachineOf(def), t, b', b);
      OutcomesDecide(def, s[..n], t[..n], a', b');
      RunIsSound(def, s[..n], a');
      EventIsUnique(def, a', s[n], t[n]);
      assert s == s[..n] + [s[n]] && t == t[..n] + [t[n]];
    }
  }
}
