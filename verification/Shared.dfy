/** Two branches that share a tail of two steps: the second of them runs twice. */
module SharedTails {
  import opened Workflow
  import opened Graph
  import opened Regions
  import opened Machines
  import opened Validator
  import opened Interpreter
  import opened ForkShape
  import opened Moves
  import opened Runs
  import opened Termination
  import opened Acceptance
  import opened Limits

  /** A fork with two branches, each of one task that goes on to the same two tasks; then the join. */
  predicate Shared(def: Definition) {
    && !IsBlank(def.name) && def.version >= 1 && UniqueIds(def.steps) && |def.steps| == 6
    && IsFork(def.steps[0], def.steps[5].id) && |Heads(def.steps[0])| == 2
    && Heads(def.steps[0])[0] == def.steps[1].id && Heads(def.steps[0])[1] == def.steps[2].id
    && GoesTo(def.steps[1], def.steps[3].id) && GoesTo(def.steps[2], def.steps[3].id)
    && GoesTo(def.steps[3], def.steps[4].id) && GoesTo(def.steps[4], "")
    && GoesTo(def.steps[5], "") && def.steps[5].kind.Join?
    && (forall i :: 1 <= i < 5 ==> def.steps[i].kind.HttpRequest?)
  }

  lemma SharedSteps(def: Definition)
    requires Shared(def)
    ensures |def.steps| == 6
    ensures forall i :: 0 <= i < 6 ==> StepById(def.steps, def.steps[i].id) == Some(def.steps[i]) && def.steps[i].id != ""
    ensures forall i :: 0 <= i < 6 ==> def.steps[i].id in Ids(def)
  {
    forall i | 0 <= i < 6 ensures StepById(def.steps, def.steps[i].id) == Some(def.steps[i]) && def.steps[i].id != "" {
      StepByIdUnique(def.steps, i);
      NotBlank(def.steps[i].id);
    }
    hide StepById, IsBlank;
  }

  lemma SharedKinds(def: Definition)
    requires Shared(def)
    ensures |def.steps| == 6 && def.steps[0].kind.Fork? && JoinOf(def, def.steps[0]) !in Heads(def.steps[0])
    ensures forall i :: 0 < i < 6 ==> !def.steps[i].kind.Fork? && !def.steps[i].kind.Transform?
    ensures !IsBlank(def.name) && def.version >= 1 && UniqueIds(def.steps) && def.steps[0].config.join != ""
    ensures JoinOf(def, def.steps[0]) == def.steps[5].id
  {
    hide IsBlank;
  }

  lemma SharedFork(def: Definition)
    requires Shared(def)
    ensures FineStep(def, 0) && ForwardStep(def, 0)
  {
    assert Later(def, 0, def.steps[1].id) && Later(def, 0, def.steps[2].id) && Later(def, 0, def.steps[5].id);
    hide Later, IsBlank, IsFork, FineStep, ForwardStep, GoesTo;
    FineFork(def, 0, def.steps[5].id);
  }

  lemma SharedTask(def: Definition, k: nat)
    requires Shared(def) && 0 < k < 6
    ensures FineStep(def, k) && ForwardStep(def, k)
  {
    SharedSteps(def);
    assert Later(def, 1, def.steps[3].id) && Later(def, 2, def.steps[3].id) && Later(def, 3, def.steps[4].id);
    hide Later, IsBlank, IsFork, FineStep, ForwardStep, GoesTo, StepById, Ids, UniqueIds;
    FineTask(def, k, if k < 3 then def.steps[3].id else if k == 3 then def.steps[4].id else "");
  }

  lemma SharedFine(def: Definition, k: nat)
    requires Shared(def) && k < |def.steps|
    ensures FineStep(def, k) && ForwardStep(def, k)
  {
    hide *;
    SharedKinds(def);
    if k == 0 {
      SharedFork(def);
    } else {
      SharedTask(def, k);
    }
  }

  lemma SharedUnnamed(def: Definition)
    requires Shared(def)
    ensures Unnamed(def, def.steps[0].id)
  {
    SharedSteps(def);
    forall i: nat | i < 6
      ensures def.steps[i].kind.Fork? ==> def.steps[0].id !in Heads(def.steps[i])
      ensures def.steps[0].id !in BranchRefs(def.steps[i]) && def.steps[0].id != def.steps[i].onFailure
    {
      SharedUnnamedAt(def, i);
    }
    hide Shared, Heads, BranchRefs, UniqueIds;
  }

  lemma SharedUnnamedAt(def: Definition, i: nat)
    requires Shared(def) && i < 6
    ensures def.steps[i].kind.Fork? ==> def.steps[0].id !in Heads(def.steps[i])
    ensures def.steps[0].id !in BranchRefs(def.steps[i]) && def.steps[0].id != def.steps[i].onFailure
  {
    SharedSteps(def);
    hide StepById, IsBlank, Ids;
  }

  /** It keeps the discipline of forks, and nothing in it goes round. */
  lemma SharedIsFine(def: Definition)
    requires Shared(def)
    ensures Accepted(def) && Disciplined(def) && !HasCycle(RunGraph(def)) && StartsWithFork(def, def.steps[0])
  {
    hide *;
    SharedKinds(def);
    forall k: nat | k < |def.steps| ensures FineStep(def, k) && ForwardStep(def, k) {
      SharedFine(def, k);
    }
    IsForward(def);
    AcceptedWhen(def);
    AcceptedIsReferenced(def);
    SharedUnnamed(def);
    IsOneFork(def);
    OneForkIsDisciplined(def);
    AllForwardHasNoLoop(def);
    SharedStarts(def);
  }

  lemma SharedStarts(def: Definition)
    requires Shared(def) && Unnamed(def, def.steps[0].id)
    ensures StartsWithFork(def, def.steps[0])
  {
    SharedSteps(def);
    SharedKinds(def);
    hide StepById, IsBlank, JoinOf, Ids, Unnamed;
  }

  /** The instance stands at step `i`; the fork has the given branches. */
  predicate StandsAt(def: Definition, a: Progress, i: int, one: BranchState, two: BranchState) {
    && |def.steps| == 6 && 0 <= i < 6 && a.phase == Ready(Some(def.steps[i].id))
    && a.forks == Two(def.steps[0].id, def.steps[5].id, one, two)
  }

  /** What is done are the steps numbered in `numbers`, each of them without a name. */
  ghost predicate DoneAre(def: Definition, a: Progress, numbers: set<int>)
    requires |def.steps| == 6
  {
    && (forall i :: 0 <= i < 6 ==> (def.steps[i].id in a.done <==> i in numbers))
    && (forall i :: 0 < i < 6 && i in numbers ==> a.done[def.steps[i].id] == "" && def.steps[i].id in a.completed)
  }

  lemma SharedBegins(def: Definition) returns (events: seq<Event>, a: Progress)
    requires Shared(def)
    ensures SmoothRun(MachineOf(def), events, a) && |def.steps| == 6 && DoneAre(def, a, {0})
    ensures StandsAt(def, a, 1, Running(def.steps[1].id, def.steps[1].id, []), PendingBranch(def.steps[2].id))
  {
    hide *;
    SharedHeads(def);
    SharedIsFine(def);
    SharedSteps(def);
    SharedKinds(def);
    var f := def.steps[0];
    ForkHasHead(def, f);
    JoinComesFirstIff(def, f);
    events, a := STARTED + [Finish(ForkResult(f), NoBranch)], Forked(def, f);
    ForkedTwo(def, f);
    OnlyForkDone(def, a);
    StandsAtFirst(def, a);
  }

  lemma SharedHeads(def: Definition)
    requires Shared(def)
    ensures |def.steps| == 6 && |Heads(def.steps[0])| == 2
    ensures Heads(def.steps[0])[0] == def.steps[1].id && Heads(def.steps[0])[1] == def.steps[2].id
  {
    hide IsBlank;
  }

  lemma OnlyForkDone(def: Definition, a: Progress)
    requires |def.steps| == 6 && UniqueIds(def.steps) && a.done.Keys == {def.steps[0].id}
    ensures DoneAre(def, a, {0})
  {
  }

  lemma StandsAtFirst(def: Definition, a: Progress)
    requires |def.steps| == 6 && a.phase == Ready(Some(def.steps[1].id))
    requires a.forks == map[def.steps[0].id := ForkState(ForkRunning, def.steps[5].id,
      [BranchState(def.steps[1].id, def.steps[1].id, BranchRunning, []), PendingBranch(def.steps[2].id)])]
    ensures StandsAt(def, a, 1, Running(def.steps[1].id, def.steps[1].id, []), PendingBranch(def.steps[2].id))
  {
  }

  /** A task of the fork runs and the machine goes where the given move says. */
  lemma TaskRuns(def: Definition, events: seq<Event>, a: Progress, i: nat, j: nat, pick: Pick, numbers: set<int>, move: Move)
    returns (more: seq<Event>, b: Progress)
    requires Shared(def) && SmoothRun(MachineOf(def), events, a) && 0 < i < 5 && j < 6 && |def.steps| == 6
    requires a.phase == Ready(Some(def.steps[i].id)) && DoneAre(def, a, numbers) && i !in numbers
    requires ValidPick(a.forks, pick) && IsPick(a.forks, def.steps[i].id, pick)
    requires move == NextAfter(MachineOf(def), def.steps[i], a.forks, "", pick) && move.step == Some(def.steps[j])
    ensures SmoothRun(MachineOf(def), more, b) && DoneAre(def, b, numbers + {i})
    ensures b.phase == Ready(Some(def.steps[j].id)) && b.forks == move.forks
  {
    var m, step := MachineOf(def), def.steps[i];
    SharedSteps(def);
    assert step.kind.HttpRequest? && m.def == def && step.id !in a.done;
    hide Shared, StepById, IsBlank, NormalSteps, NextAfter, SmoothRun, IsPick, Moved, Ids, DoneAre;
    b := Moved(a, step.id, "", move);
    more := events + [Start(NoBranch)] + [Finish(Result("", ""), pick)];
    StartAndFinish(m, events, a, step, Result("", ""), pick, move);
    MovedFacts(a, step.id, "", move);
    TaskDone(def, a, i, move, numbers);
  }

  lemma TaskDone(def: Definition, a: Progress, i: nat, move: Move, numbers: set<int>)
    requires |def.steps| == 6 && UniqueIds(def.steps) && 0 < i < 6 && move.step.Some? && DoneAre(def, a, numbers)
    ensures DoneAre(def, Moved(a, def.steps[i].id, "", move), numbers + {i})
  {
    MovedFacts(a, def.steps[i].id, "", move);
    MovedName(a, def.steps[i].id, "", move);
    MovedOn(a, def.steps[i].id, "", move);
    hide Moved;
  }

  /** The tasks go from the first or second to the shared ones, and from the first of these to the second. */
  lemma SharedEdge(def: Definition, i: nat, j: nat)
    requires Shared(def) && ((i == 1 && j == 3) || (i == 2 && j == 3) || (i == 3 && j == 4))
    ensures |def.steps| == 6 && !def.steps[i].kind.Fork? && def.steps[i].config.next == def.steps[j].id != ""
    ensures def.steps[j].id != def.steps[5].id && StepById(MachineOf(def).def.steps, def.steps[j].id) == Some(def.steps[j])
    ensures MachineOf(def).def == def
  {
    SharedSteps(def);
    hide StepById, IsBlank, NormalSteps, Ids;
  }

  /** A task of the first branch runs and goes on to the next. */
  lemma FirstRuns(def: Definition, events: seq<Event>, a: Progress, i: nat, done: seq<string>, j: nat, numbers: set<int>)
    returns (more: seq<Event>, b: Progress)
    requires Shared(def) && SmoothRun(MachineOf(def), events, a) && ((i == 1 && j == 3) || (i == 3 && j == 4)) && |def.steps| == 6
    requires StandsAt(def, a, i, Running(def.steps[1].id, def.steps[i].id, done), PendingBranch(def.steps[2].id))
    requires DoneAre(def, a, numbers) && i !in numbers && def.steps[i].id !in done
    ensures SmoothRun(MachineOf(def), more, b) && DoneAre(def, b, numbers + {i})
    ensures StandsAt(def, b, j, Running(def.steps[1].id, def.steps[j].id, done + [def.steps[i].id]), PendingBranch(def.steps[2].id))
  {
    var f, join, pick := def.steps[0].id, def.steps[5].id, InBranch(def.steps[0].id, 0);
    hide Shared, SmoothRun, DoneAre, StepById, NormalSteps, NextAfter, IsPick;
    SharedEdge(def, i, j);
    FirstBranchGoesOn(MachineOf(def), f, join, def.steps[1].id, def.steps[i], def.steps[j].id, done, def.steps[2].id);
    PickFirst(f, a.forks[f], def.steps[i].id);
    var move := NextAfter(MachineOf(def), def.steps[i], a.forks, "", pick);
    more, b := TaskRuns(def, events, a, i, j, pick, numbers, move);
  }

  /** The last task of the first branch runs; the second branch starts. */
  lemma FirstStops(def: Definition, events: seq<Event>, a: Progress) returns (more: seq<Event>, b: Progress)
    requires Shared(def) && SmoothRun(MachineOf(def), events, a) && |def.steps| == 6 && DoneAre(def, a, {0, 1, 3})
    requires StandsAt(def, a, 4, Running(def.steps[1].id, def.steps[4].id, [def.steps[1].id] + [def.steps[3].id]),
                PendingBranch(def.steps[2].id))
    ensures SmoothRun(MachineOf(def), more, b) && DoneAre(def, b, {0, 1, 3} + {4})
    ensures StandsAt(def, b, 2, FirstDone(def), Running(def.steps[2].id, def.steps[2].id, []))
  {
    var f, join, pick, y := def.steps[0].id, def.steps[5].id, InBranch(def.steps[0].id, 0), def.steps[4];
    SharedLast(def);
    hide Shared, SmoothRun, DoneAre, StepById, NormalSteps, NextAfter, IsPick;
    FirstBranchEnds(MachineOf(def), f, join, def.steps[1].id, y, [def.steps[1].id] + [def.steps[3].id], def.steps[2].id);
    PickFirst(f, a.forks[f], y.id);
    var move := NextAfter(MachineOf(def), y, a.forks, "", pick);
    more, b := TaskRuns(def, events, a, 4, 2, pick, {0, 1, 3}, move);
  }

  lemma SharedLast(def: Definition)
    requires Shared(def)
    ensures |def.steps| == 6 && !def.steps[4].kind.Fork? && def.steps[4].config.next == "" && def.steps[2].id != ""
    ensures def.steps[4].id !in [def.steps[1].id] + [def.steps[3].id]
    ensures StepById(MachineOf(def).def.steps, def.steps[2].id) == Some(def.steps[2])
  {
    SharedSteps(def);
    hide StepById, IsBlank, NormalSteps, Ids;
  }

  /** The task of the second branch runs and goes on to the shared ones. */
  lemma SecondRuns(def: Definition, events: seq<Event>, a: Progress) returns (more: seq<Event>, b: Progress)
    requires Shared(def) && SmoothRun(MachineOf(def), events, a) && |def.steps| == 6 && DoneAre(def, a, {0, 1, 3} + {4})
    requires StandsAt(def, a, 2, FirstDone(def), Running(def.steps[2].id, def.steps[2].id, []))
    ensures SmoothRun(MachineOf(def), more, b) && DoneAre(def, b, {0, 1, 3} + {4} + {2})
    ensures StandsAt(def, b, 3, FirstDone(def), Running(def.steps[2].id, def.steps[3].id, [] + [def.steps[2].id]))
  {
    var f, join, pick, u := def.steps[0].id, def.steps[5].id, InBranch(def.steps[0].id, 1), def.steps[2];
    SharedEdge(def, 2, 3);
    hide Shared, SmoothRun, DoneAre, StepById, NormalSteps, NextAfter, IsPick;
    SecondBranchGoesOn(MachineOf(def), f, join, FirstDone(def), u.id, u, "", def.steps[3].id, []);
    PickSecond(f, a.forks[f], u.id);
    var move := NextAfter(MachineOf(def), u, a.forks, "", pick);
    more, b := TaskRuns(def, events, a, 2, 3, pick, {0, 1, 3} + {4}, move);
  }

  /** The first branch runs its three tasks, and the second its first. */
  lemma SharedRuns(def: Definition) returns (events: seq<Event>, a: Progress)
    requires Shared(def)
    ensures SmoothRun(MachineOf(def), events, a) && |def.steps| == 6 && DoneAre(def, a, {0, 1, 3} + {4} + {2})
    ensures StandsAt(def, a, 3, FirstDone(def), Running(def.steps[2].id, def.steps[3].id, [] + [def.steps[2].id]))
  {
    SharedKinds(def);
    SharedLast(def);
    assert def.steps[3].id !in [def.steps[1].id];
    assert {0} + {1} == {0, 1} && {0, 1} + {3} == {0, 1, 3} && [] + [def.steps[1].id] == [def.steps[1].id];
    hide Shared, SmoothRun, DoneAre, Running, FirstDone, StandsAt, StepById, NormalSteps;
    events, a := SharedBegins(def);
    events, a := FirstRuns(def, events, a, 1, [], 3, {0});
    events, a := FirstRuns(def, events, a, 3, [def.steps[1].id], 4, {0, 1});
    events, a := FirstStops(def, events, a);
    events, a := SecondRuns(def, events, a);
  }

  function FirstDone(def: Definition): BranchState
    requires |def.steps| == 6
  {
    BranchState(def.steps[1].id, "", BranchCompleted, [def.steps[1].id] + [def.steps[3].id] + [def.steps[4].id])
  }

  /** The first shared task is passed over, and the second runs again. */
  lemma TailPasses(def: Definition, before: seq<Event>, b: Progress) returns (events: seq<Event>, a: Progress)
    requires Shared(def) && SmoothRun(MachineOf(def), before, b) && |def.steps| == 6
    requires StandsAt(def, b, 3, FirstDone(def), Running(def.steps[2].id, def.steps[3].id, [] + [def.steps[2].id]))
    requires def.steps[3].id in b.done && b.done[def.steps[3].id] == ""
    ensures SmoothRun(MachineOf(def), events, a) && a.phase == Active(def.steps[4].id) && a.completed == b.completed
  {
    var f, join, pick, x := def.steps[0].id, def.steps[5].id, InBranch(def.steps[0].id, 1), def.steps[3];
    SharedEdge(def, 3, 4);
    SharedSteps(def);
    FirstIsDone(def);
    assert x.id !in [] + [def.steps[2].id] by { hide IsBlank, StepById; }
    hide Shared, SmoothRun, StepById, NormalSteps, NextAfter, IsPick, FirstDone, UniqueIds;
    SecondBranchGoesOn(MachineOf(def), f, join, FirstDone(def), def.steps[2].id, x, "", def.steps[4].id, [] + [def.steps[2].id]);
    PickSecond(f, b.forks[f], x.id);
    var move := NextAfter(MachineOf(def), x, b.forks, "", pick);
    a := Started(b, def.steps[4].id, move.forks);
    events := before + [Start(pick)];
    PassOver(MachineOf(def), before, b, x, pick, move);
  }

  /** An accepted and disciplined definition without any loop: after five steps the last of the shared tasks is active though
      it is completed. */
  lemma SharedTailRunsTwice(def: Definition) returns (events: seq<Event>, a: Progress)
    requires Shared(def)
    ensures Accepted(def) && Disciplined(def) && !HasCycle(RunGraph(def)) && |def.steps| == 6
    ensures SmoothRun(MachineOf(def), events, a) && a.phase == Active(def.steps[4].id) && def.steps[4].id in a.completed
  {
    SharedIsFine(def);
    var before, b := SharedRuns(def);
    assert def.steps[3].id in b.done && b.done[def.steps[3].id] == "" && def.steps[4].id in b.completed by {
      hide SmoothRun, StandsAt, Shared, Accepted, Tame, JoinsApart, HasCycle;
    }
    hide *;
    events, a := TailPasses(def, before, b);
  }

  lemma FirstIsDone(def: Definition)
    requires |def.steps| == 6
    ensures FirstDone(def).status.BranchCompleted?
  {
  }
}
