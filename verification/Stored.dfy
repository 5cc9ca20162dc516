/** A transform that stores its result under "next_step": when its completed step is passed over, the stored string is
    taken for the next step, and a branch runs a step from behind the join. */
module StoredNames {
  import opened Workflow
  import opened Graph
  import opened Regions
  import opened Machines
  import opened Validator
  import opened Interpreter
  import opened ForkShape
  import opened Acceptance
  import opened Limits

  /** A fork with two branches, a transform and a task that goes on to the same transform; then the join and a task. */
  predicate Stored(def: Definition) {
    && !IsBlank(def.name) && def.version >= 1 && UniqueIds(def.steps) && |def.steps| == 5
    && IsFork(def.steps[0], def.steps[3].id) && |Heads(def.steps[0])| == 2
    && Heads(def.steps[0])[0] == def.steps[2].id && Heads(def.steps[0])[1] == def.steps[1].id
    && GoesTo(def.steps[1], def.steps[2].id) && def.steps[1].kind.HttpRequest?
    && GoesTo(def.steps[2], "") && def.steps[2].kind.Transform? && def.steps[2].config.resultKey == "next_step"
    && GoesTo(def.steps[3], "") && def.steps[3].kind.Join? && GoesTo(def.steps[4], "") && def.steps[4].kind.HttpRequest?
  }

  lemma StoredSteps(def: Definition)
    requires Stored(def)
    ensures forall i :: 0 <= i < 5 ==> StepById(def.steps, def.steps[i].id) == Some(def.steps[i]) && def.steps[i].id != ""
    ensures forall i :: 0 <= i < 5 ==> def.steps[i].id in Ids(def)
    ensures JoinOf(def, def.steps[0]) == def.steps[3].id && |def.steps| == 5
  {
    forall i | 0 <= i < 5 ensures StepById(def.steps, def.steps[i].id) == Some(def.steps[i]) && def.steps[i].id != "" {
      StepByIdUnique(def.steps, i);
      NotBlank(def.steps[i].id);
    }
    hide StepById, IsBlank;
  }

  lemma StoredFine(def: Definition)
    requires Stored(def)
    ensures FineStep(def, 0) && ForwardStep(def, 0) && FineStep(def, 1) && ForwardStep(def, 1)
  {
    StoredSteps(def);
    assert Later(def, 0, def.steps[1].id) && Later(def, 0, def.steps[2].id) && Later(def, 0, def.steps[3].id);
    assert Later(def, 1, def.steps[2].id);
    hide Later, IsBlank, IsFork, FineStep, ForwardStep, StepById, GoesTo, Ids;
    FineFork(def, 0, def.steps[3].id);
    FineTask(def, 1, def.steps[2].id);
  }

  lemma StoredIsAccepted(def: Definition)
    requires Stored(def)
    ensures Accepted(def)
  {
    hide Accepted, FineStep, ForwardStep, IsNormal, IsBlank, IsFork, GoesTo;
    StoredFine(def);
    FineTask(def, 2, "");
    FineTask(def, 3, "");
    FineTask(def, 4, "");
    assert Forward(def);
    hide Forward;
    AcceptedWhen(def);
  }

  /** Nothing refers to the fork and to the last task. */
  lemma StoredUnnamed(def: Definition, k: nat)
    requires Stored(def) && (k == 0 || k == 4)
    ensures Unnamed(def, def.steps[k].id)
  {
    StoredSteps(def);
    forall i: nat | i < 5
      ensures def.steps[i].kind.Fork? ==> def.steps[k].id !in Heads(def.steps[i])
      ensures def.steps[k].id !in BranchRefs(def.steps[i]) && def.steps[k].id != def.steps[i].onFailure
    {
      StoredUnnamedAt(def, k, i);
    }
    hide Stored, Heads, BranchRefs, UniqueIds;
  }

  lemma StoredUnnamedAt(def: Definition, k: nat, i: nat)
    requires Stored(def) && (k == 0 || k == 4) && i < 5
    ensures def.steps[i].kind.Fork? ==> def.steps[k].id !in Heads(def.steps[i])
    ensures def.steps[k].id !in BranchRefs(def.steps[i]) && def.steps[k].id != def.steps[i].onFailure
  {
    StoredSteps(def);
    hide StepById, IsBlank, JoinOf, Ids;
  }

  /** The state after the transform, then after the task of the other branch. */
  function WithBranches(def: Definition, one: BranchState, two: BranchState): Forks
    requires |def.steps| == 5
  {
    map[def.steps[0].id := ForkState(ForkRunning, def.steps[3].id, [one, two])]
  }

  function EndedBranch(def: Definition): BranchState
    requires |def.steps| == 5
  {
    BranchState(def.steps[2].id, "", BranchCompleted, [def.steps[2].id])
  }

  function Second(def: Definition, at: string, done: seq<string>): BranchState
    requires |def.steps| == 5
  {
    BranchState(def.steps[1].id, at, BranchRunning, done)
  }

  lemma StoredStarts(def: Definition) returns (events: seq<Event>, a: Progress)
    requires Stored(def)
    ensures SmoothRun(MachineOf(def), events, a) && a.phase == Ready(Some(def.steps[2].id)) && a.done.Keys == {def.steps[0].id}
    ensures a.forks == WithBranches(def, BranchState(def.steps[2].id, def.steps[2].id, BranchRunning, []),
                                    PendingBranch(def.steps[1].id))
  {
    var f := def.steps[0];
    StoredSteps(def);
    assert Heads(f) != [];
    assert Unnamed(def, f.id) by { StoredUnnamed(def, 0); }
    assert StartsWithFork(def, f) by {
      hide IsBlank, Unnamed, StepById, JoinOf, Ids;
    }
    hide StartsWithFork, Unnamed, StepById, SmoothRun, NormalSteps, IsBlank, GoesTo, IsFork, Ids;
    JoinComesFirstIff(def, f);
    events, a := STARTED + [Finish(ForkResult(f), NoBranch)], Forked(def, f);
    hide ForkResult, JoinOf, Heads;
    ForkedTwo(def, f);
  }

  /** The transform runs, and stores the id of the last step. */
  lemma TransformRuns(def: Definition, events: seq<Event>, a: Progress) returns (more: seq<Event>, b: Progress)
    requires Stored(def) && SmoothRun(MachineOf(def), events, a)
    requires a.phase == Ready(Some(def.steps[2].id)) && a.done.Keys == {def.steps[0].id}
    requires a.forks == WithBranches(def, BranchState(def.steps[2].id, def.steps[2].id, BranchRunning, []),
                                     PendingBranch(def.steps[1].id))
    ensures SmoothRun(MachineOf(def), more, b) && b.phase == Ready(Some(def.steps[1].id))
    ensures b.done.Keys == {def.steps[0].id, def.steps[2].id} && b.done[def.steps[2].id] == def.steps[4].id
    ensures b.forks == WithBranches(def, EndedBranch(def), Second(def, def.steps[1].id, []))
  {
    var m, t, pick := MachineOf(def), def.steps[2], InBranch(def.steps[0].id, 0);
    StoredSteps(def);
    assert t.kind.Transform? && t.config.next == "" && t.config.resultKey == "next_step" && t.id !in a.done;
    hide Stored, StepById, IsBlank, JoinOf, Heads, NormalSteps, NextAfter, SmoothRun, IsPick, Moved, Ids;
    FirstBranchEnds(m, def.steps[0].id, def.steps[3].id, t.id, t, [], def.steps[1].id);
    assert [] + [t.id] == [t.id];
    PickFirst(def.steps[0].id, a.forks[def.steps[0].id], t.id);
    var result := Result("", def.steps[4].id);
    var move := NextAfter(m, t, a.forks, "", pick);
    b := Moved(a, t.id, result.outputNext, move);
    MovedFacts(a, t.id, result.outputNext, move);
    MovedName(a, t.id, result.outputNext, move);
    more := events + [Start(NoBranch)] + [Finish(result, pick)];
    StartAndFinish(m, events, a, t, result, pick, move);
  }

  /** The second branch goes from its task to the transform, or from there to the stored name. */
  lemma SecondMove(def: Definition, at: Step, next: string, to: Step, done: seq<string>)
    requires Stored(def)
    requires !at.kind.Fork? && at.id !in done && NamedNext(at, next) == to.id && to.id != "" && to.id != def.steps[3].id
    requires StepById(def.steps, to.id) == Some(to)
    ensures var forks, pick := WithBranches(def, EndedBranch(def), Second(def, at.id, done)), InBranch(def.steps[0].id, 1);
      && ValidPick(forks, pick) && IsPick(forks, at.id, pick)
      && NextAfter(MachineOf(def), at, forks, next, pick) ==
           Move(WithBranches(def, EndedBranch(def), Second(def, to.id, done + [at.id])), Some(to))
  {
    var f, join := def.steps[0].id, def.steps[3].id;
    assert MachineOf(def).def == def;
    hide Stored, StepById, NormalSteps, NextAfter, IsPick, NamedNext;
    SecondBranchGoesOn(MachineOf(def), f, join, EndedBranch(def), def.steps[1].id, at, next, to.id, done);
    PickSecond(f, ForkState(ForkRunning, join, [EndedBranch(def), Second(def, at.id, done)]), at.id);
  }

  /** The steps of the second branch. */
  lemma SecondSteps(def: Definition)
    requires Stored(def)
    ensures |def.steps| == 5 && MachineOf(def).def == def
    ensures var u, t, z := def.steps[1], def.steps[2], def.steps[4];
      && u.kind.HttpRequest? && u.config.next == t.id && t.kind.Transform?
      && t.id != "" && t.id != def.steps[3].id && z.id != "" && z.id != def.steps[3].id
      && StepById(def.steps, u.id) == Some(u) && StepById(def.steps, t.id) == Some(t) && StepById(def.steps, z.id) == Some(z)
      && u.id != t.id && u.id != def.steps[0].id && t.id !in [u.id]
  {
    StoredSteps(def);
    hide IsBlank, StepById, NormalSteps, IsFork, JoinOf, Heads;
  }

  /** The task of the second branch runs, and goes on to the transform. */
  lemma SecondTaskRuns(def: Definition, events: seq<Event>, a: Progress) returns (more: seq<Event>, b: Progress)
    requires Stored(def) && SmoothRun(MachineOf(def), events, a) && a.phase == Ready(Some(def.steps[1].id))
    requires a.done.Keys == {def.steps[0].id, def.steps[2].id} && a.done[def.steps[2].id] == def.steps[4].id
    requires a.forks == WithBranches(def, EndedBranch(def), Second(def, def.steps[1].id, []))
    ensures SmoothRun(MachineOf(def), more, b) && b.phase == Ready(Some(def.steps[2].id))
    ensures def.steps[2].id in b.done && b.done[def.steps[2].id] == def.steps[4].id
    ensures b.forks == WithBranches(def, EndedBranch(def), Second(def, def.steps[2].id, [def.steps[1].id]))
  {
    var m, u, pick := MachineOf(def), def.steps[1], InBranch(def.steps[0].id, 1);
    SecondSteps(def);
    hide Stored, StepById, NormalSteps, NextAfter, SmoothRun, IsPick, Moved, WithBranches, EndedBranch, Second;
    SecondMove(def, u, "", def.steps[2], []);
    assert [] + [u.id] == [u.id] && u.id !in a.done;
    var move := NextAfter(m, u, a.forks, "", pick);
    b := Moved(a, u.id, "", move);
    MovedFacts(a, u.id, "", move);
    MovedName(a, u.id, "", move);
    more := events + [Start(NoBranch)] + [Finish(Result("", ""), pick)];
    StartAndFinish(m, events, a, u, Result("", ""), pick, move);
  }

  /** The transform is passed over, and the string it stored is taken for the next step of the branch. */
  lemma StoredNameIsFollowed(def: Definition, events: seq<Event>, a: Progress) returns (more: seq<Event>, b: Progress)
    requires Stored(def) && SmoothRun(MachineOf(def), events, a) && a.phase == Ready(Some(def.steps[2].id))
    requires def.steps[2].id in a.done && a.done[def.steps[2].id] == def.steps[4].id
    requires a.forks == WithBranches(def, EndedBranch(def), Second(def, def.steps[2].id, [def.steps[1].id]))
    ensures SmoothRun(MachineOf(def), more, b) && b.phase == Active(def.steps[4].id)
    ensures b.forks == WithBranches(def, EndedBranch(def), Second(def, def.steps[4].id, [def.steps[1].id] + [def.steps[2].id]))
  {
    var m, t, pick := MachineOf(def), def.steps[2], InBranch(def.steps[0].id, 1);
    hide *;
    SecondSteps(def);
    StoredIsNamed(def);
    SecondMove(def, t, def.steps[4].id, def.steps[4], [def.steps[1].id]);
    ForksAreThere(def, t, pick, a.forks);
    var move := NextAfter(m, t, a.forks, def.steps[4].id, pick);
    b := Started(a, def.steps[4].id, move.forks);
    more := events + [Start(pick)];
    PassOver(m, events, a, t, pick, move);
    StartedFacts(a, def.steps[4].id, move.forks);
  }

  lemma StoredIsNamed(def: Definition)
    requires Stored(def)
    ensures NamedNext(def.steps[2], def.steps[4].id) == def.steps[4].id && def.steps[2].id !in [def.steps[1].id]
  {
    SecondSteps(def);
    hide StepById, IsBlank, IsFork, GoesTo;
  }

  lemma ForksAreThere(def: Definition, step: Step, pick: Pick, forks: Forks)
    requires pick.InBranch? && ValidPick(forks, pick) && IsPick(forks, step.id, pick) && !step.kind.Fork?
    ensures forks != map[] && CanPick(step, forks, pick)
  {
    hide IsPick;
  }

  lemma StartedFacts(a: Progress, step: string, forks: Forks)
    ensures Started(a, step, forks).phase == Active(step) && Started(a, step, forks).forks == forks
  {
  }

  /** Step `id` is executed while a fork is running, though it is in no branch. */
  ghost predicate RunsOutOfPlace(def: Definition, a: Progress, id: string) {
    && a.phase == Active(id) && !IsBranchStep(def, id)
    && exists f :: f in a.forks && a.forks[f].status.ForkRunning?
  }

  /** Such a definition is accepted, and the task behind the join runs before the join does. */
  lemma StoredNameIsUnsafe(def: Definition) returns (events: seq<Event>, a: Progress)
    requires Stored(def)
    ensures Accepted(def) && SmoothRun(MachineOf(def), events, a) && RunsOutOfPlace(def, a, def.steps[4].id)
  {
    StoredIsAccepted(def);
    assert !IsBranchStep(def, def.steps[4].id) by {
      StoredUnnamed(def, 4);
      hide Unnamed, IsBranchStep, CompensationRefs;
      UnnamedIsNormal(def, def.steps[4]);
    }
    hide Accepted, SmoothRun, Stored, IsBranchStep;
    events, a := StoredStarts(def);
    events, a := TransformRuns(def, events, a);
    events, a := SecondTaskRuns(def, events, a);
    events, a := StoredNameIsFollowed(def, events, a);
    assert def.steps[0].id in a.forks && a.forks[def.steps[0].id].status.ForkRunning?;
  }
}
