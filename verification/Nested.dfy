/** A fork inside a branch of another: the outer join is entered while the outer fork is still running. */
module NestedForks {
  import opened Workflow
  import opened Graph
  import opened Regions
  import opened Machines
  import opened Validator
  import opened Interpreter
  import opened ForkShape
  import opened Runs
  import opened Acceptance
  import opened Limits

  /** An outer fork whose only branch is an inner fork, whose only branch is a task; then the inner and the outer join. */
  predicate Nested(def: Definition) {
    && !IsBlank(def.name) && def.version >= 1 && UniqueIds(def.steps) && |def.steps| == 5
    && IsFork(def.steps[0], def.steps[4].id) && |Heads(def.steps[0])| == 1 && Heads(def.steps[0])[0] == def.steps[1].id
    && IsFork(def.steps[1], def.steps[3].id) && |Heads(def.steps[1])| == 1 && Heads(def.steps[1])[0] == def.steps[2].id
    && GoesTo(def.steps[2], "") && def.steps[2].kind.HttpRequest?
    && GoesTo(def.steps[3], "") && def.steps[3].kind.Join? && GoesTo(def.steps[4], "") && def.steps[4].kind.Join?
  }

  lemma NestedSteps(def: Definition)
    requires Nested(def)
    ensures forall i :: 0 <= i < 5 ==> StepById(def.steps, def.steps[i].id) == Some(def.steps[i]) && def.steps[i].id != ""
    ensures JoinOf(def, def.steps[0]) == def.steps[4].id && JoinOf(def, def.steps[1]) == def.steps[3].id
  {
    forall i | 0 <= i < 5 ensures StepById(def.steps, def.steps[i].id) == Some(def.steps[i]) && def.steps[i].id != "" {
      StepByIdUnique(def.steps, i);
      NotBlank(def.steps[i].id);
    }
    hide StepById, IsBlank;
  }

  lemma LaterAt(def: Definition, k: nat, l: nat)
    requires k < l < |def.steps|
    ensures Later(def, k, def.steps[l].id)
  {
  }

  lemma FineForks(def: Definition)
    requires Nested(def)
    ensures FineStep(def, 0) && ForwardStep(def, 0) && FineStep(def, 1) && ForwardStep(def, 1)
  {
    hide Later, IsBlank, IsFork, FineStep, ForwardStep, GoesTo;
    LaterAt(def, 0, 1);
    LaterAt(def, 0, 4);
    LaterAt(def, 1, 2);
    LaterAt(def, 1, 3);
    FineFork(def, 0, def.steps[4].id);
    FineFork(def, 1, def.steps[3].id);
  }

  lemma NestedIsAccepted(def: Definition)
    requires Nested(def)
    ensures Accepted(def)
  {
    hide Accepted, FineStep, ForwardStep, IsNormal, IsBlank, IsFork, GoesTo;
    FineForks(def);
    FineTask(def, 2, "");
    FineTask(def, 3, "");
    FineTask(def, 4, "");
    assert Forward(def);
    hide Forward;
    AcceptedWhen(def);
  }

  lemma NoRefs(def: Definition, i: nat)
    requires Nested(def) && i < 5
    ensures BranchRefs(def.steps[i]) == [] && def.steps[i].onFailure == ""
    ensures def.steps[i].kind.Fork? <==> i < 2
  {
    hide IsBlank, UniqueIds;
  }

  /** Nothing refers to the outer fork and the joins but forks to their joins. */
  lemma NestedUnnamed(def: Definition, k: nat)
    requires Nested(def) && k < 5 && k != 1 && k != 2
    ensures Unnamed(def, def.steps[k].id)
  {
    hide Nested, Heads, BranchRefs, UniqueIds;
    FiveSteps(def);
    forall i: nat | i < 5
      ensures def.steps[i].kind.Fork? ==> def.steps[k].id !in Heads(def.steps[i])
      ensures def.steps[k].id !in BranchRefs(def.steps[i]) && def.steps[k].id != def.steps[i].onFailure
    {
      UnnamedAt(def, k, i);
    }
  }

  lemma FiveSteps(def: Definition)
    requires Nested(def)
    ensures |def.steps| == 5 && def.steps[0].id != def.steps[1].id && UniqueIds(def.steps)
    ensures forall i :: 0 <= i < 5 ==> def.steps[i].id != ""
  {
    NestedSteps(def);
  }

  lemma UnnamedAt(def: Definition, k: nat, i: nat)
    requires Nested(def) && k < 5 && k != 1 && k != 2 && i < 5
    ensures def.steps[i].kind.Fork? ==> def.steps[k].id !in Heads(def.steps[i])
    ensures def.steps[k].id !in BranchRefs(def.steps[i]) && def.steps[k].id != def.steps[i].onFailure
  {
    FiveSteps(def);
    NoRefs(def, i);
    hide IsBlank, BranchRefs, IsFork, GoesTo;
    assert i < 2 ==> |Heads(def.steps[i])| == 1 && Heads(def.steps[i])[0] == def.steps[i + 1].id;
    hide Heads;
  }

  /** After the inner join the linear path goes on to the outer join. */
  lemma OuterJoinIsNext(def: Definition)
    requires Nested(def)
    ensures NextNormal(MachineOf(def).normal, def.steps[3].id) == Some(def.steps[4])
  {
    NestedUnnamed(def, 3);
    NestedUnnamed(def, 4);
    assert UniqueIds(def.steps);
    hide Nested, Unnamed, IsNormal;
    UnnamedIsNormal(def, def.steps[3]);
    UnnamedIsNormal(def, def.steps[4]);
    LinearPairIsNext(def, 3);
  }

  function Outer(def: Definition): ForkState
    requires |def.steps| == 5
  {
    ForkState(ForkRunning, def.steps[4].id, [BranchState(def.steps[1].id, def.steps[1].id, BranchRunning, [])])
  }

  function Inner(def: Definition, status: ForkStatus, branch: BranchState): ForkState
    requires |def.steps| == 5
  {
    ForkState(status, def.steps[3].id, [branch])
  }

  function Both(def: Definition, inner: ForkState): Forks
    requires |def.steps| == 5
  {
    map[def.steps[0].id := Outer(def)][def.steps[1].id := inner]
  }

  /** The branch of the inner fork while its task runs, and after. */
  function RunningBranch(def: Definition): BranchState
    requires |def.steps| == 5
  {
    BranchState(def.steps[2].id, def.steps[2].id, BranchRunning, [])
  }

  function DoneBranch(def: Definition): BranchState
    requires |def.steps| == 5
  {
    BranchState(def.steps[2].id, "", BranchCompleted, [def.steps[2].id])
  }

  lemma StartsOneBranch(m: Machine, forks: Forks, f: Step, next: string)
    requires f.kind.Fork? && |Heads(f)| == 1 && Heads(f)[0] != "" && JoinOf(m.def, f) != "" && f.id !in forks
    ensures NextAfter(m, f, forks, next, NoBranch) ==
      Move(forks[f.id := ForkState(ForkRunning, JoinOf(m.def, f),
                                   [BranchState(Heads(f)[0], Heads(f)[0], BranchRunning, [])])],
           StepById(m.def.steps, Heads(f)[0]))
  {
    var branches := PendingBranches(Heads(f));
    assert branches == [PendingBranch(Heads(f)[0])];
    FirstOpenIs(branches, 0);
    hide StepById, JoinOf, Heads, PendingBranches, FirstOpen;
    var started := ForkState(ForkRunning, JoinOf(m.def, f), branches);
    assert StartFork(m.def, f, forks) == forks[f.id := started];
    hide StartFork;
    assert branches[0 := Resumed(branches[0])] == [BranchState(Heads(f)[0], Heads(f)[0], BranchRunning, [])];
    assert forks[f.id := started][f.id := started.(branches := branches[0 := Resumed(branches[0])])] ==
      forks[f.id := started.(branches := branches[0 := Resumed(branches[0])])];
  }

  lemma EndsOneBranch(m: Machine, forks: Forks, f: string, join: string, start: string, at: Step)
    requires f in forks && forks[f] == ForkState(ForkRunning, join, [BranchState(start, at.id, BranchRunning, [])])
    requires !at.kind.Fork? && at.config.next == ""
    ensures NextAfter(m, at, forks, "", InBranch(f, 0)) ==
      Move(forks[f := ForkState(ForkCompleted, join, [BranchState(start, "", BranchCompleted, [at.id])])],
           StepById(m.def.steps, join))
  {
    hide StepById, FirstOpen;
    var branch := BranchState(start, "", BranchCompleted, [at.id]);
    assert forks[f].branches[0 := branch] == [branch];
    FirstOpenIs([branch], 1);
    assert AppendNew([], at.id) == [at.id];
    var open := ForkState(ForkRunning, join, [branch]);
    assert forks[f := open][f := open.(status := ForkCompleted)] == forks[f := open.(status := ForkCompleted)];
  }

  /** The inner fork starts. */
  lemma InnerForkMove(def: Definition, next: string)
    requires Nested(def)
    ensures NextAfter(MachineOf(def), def.steps[1], map[def.steps[0].id := Outer(def)], next, NoBranch) ==
      Move(Both(def, Inner(def, ForkRunning, RunningBranch(def))), Some(def.steps[2]))
  {
    NestedSteps(def);
    assert def.steps[1].kind.Fork? && def.steps[1].id != def.steps[0].id && MachineOf(def).def == def;
    hide StepById, IsBlank, JoinOf, Heads, NormalSteps, NextAfter, IsFork, GoesTo;
    StartsOneBranch(MachineOf(def), map[def.steps[0].id := Outer(def)], def.steps[1], next);
  }

  /** Its task finishes: the inner fork is completed, the inner join is next. */
  lemma InnerTaskMove(def: Definition)
    requires Nested(def)
    ensures var forks, pick := Both(def, Inner(def, ForkRunning, RunningBranch(def))), InBranch(def.steps[1].id, 0);
      && ValidPick(forks, pick)
      && NextAfter(MachineOf(def), def.steps[2], forks, "", pick) ==
           Move(Both(def, Inner(def, ForkCompleted, DoneBranch(def))), Some(def.steps[3]))
  {
    NestedSteps(def);
    var x, f := def.steps[2], def.steps[1].id;
    assert !x.kind.Fork? && x.config.next == "" && f != def.steps[0].id && MachineOf(def).def == def && |def.steps| == 5;
    hide StepById, IsBlank, JoinOf, Heads, NormalSteps, NextAfter, IsFork, GoesTo, Nested;
    var forks := Both(def, Inner(def, ForkRunning, RunningBranch(def)));
    EndsOneBranch(MachineOf(def), forks, f, def.steps[3].id, x.id, x);
    var done := ForkState(ForkCompleted, def.steps[3].id, [BranchState(x.id, "", BranchCompleted, [x.id])]);
    assert done == Inner(def, ForkCompleted, DoneBranch(def));
    hide *;
    BothInner(def, Inner(def, ForkRunning, RunningBranch(def)), Inner(def, ForkCompleted, DoneBranch(def)));
  }

  lemma BothInner(def: Definition, one: ForkState, two: ForkState)
    requires |def.steps| == 5 && def.steps[0].id != def.steps[1].id
    ensures Both(def, one)[def.steps[1].id := two] == Both(def, two)
  {
  }

  lemma InnerTaskPick(def: Definition)
    requires Nested(def)
    ensures var forks, pick := Both(def, Inner(def, ForkRunning, RunningBranch(def))), InBranch(def.steps[1].id, 0);
      ValidPick(forks, pick) && IsPick(forks, def.steps[2].id, pick)
  {
    assert def.steps[1].id != def.steps[0].id;
    hide IsBlank, Nested;
    assert RunsStep(Both(def, Inner(def, ForkRunning, RunningBranch(def))), def.steps[1].id, 0, def.steps[2].id);
  }

  /** The inner join finishes, and the linear path leads to the outer join. */
  lemma InnerJoinMove(def: Definition)
    requires Nested(def)
    ensures var forks := Both(def, Inner(def, ForkCompleted, DoneBranch(def)));
      && IsPick(forks, def.steps[3].id, NoBranch)
      && NextAfter(MachineOf(def), def.steps[3], forks, "", NoBranch) ==
           Move(Both(def, Inner(def, ForkJoined, DoneBranch(def))), Some(def.steps[4]))
  {
    OuterJoinIsNext(def);
    var j := def.steps[3];
    var forks := Both(def, Inner(def, ForkCompleted, DoneBranch(def)));
    assert j.kind.Join? && j.config.next == "" && def.steps[1].id != def.steps[0].id && def.steps[1].id != j.id;
    hide Nested, StepById, IsBlank, JoinOf, Heads, NormalSteps, NextNormal;
    assert MarkJoined(j.id, forks) == Both(def, Inner(def, ForkJoined, DoneBranch(def)));
  }

  /** The run up to the inner join: outer fork, inner fork, task. */
  lemma NestedStarts(def: Definition) returns (events: seq<Event>, a: Progress)
    requires Nested(def)
    ensures SmoothRun(MachineOf(def), events, a) && a.phase == Ready(Some(def.steps[1].id))
    ensures a.done.Keys == {def.steps[0].id} && a.forks == map[def.steps[0].id := Outer(def)]
  {
    var f := def.steps[0];
    NestedSteps(def);
    NestedUnnamed(def, 0);
    assert Heads(f) != [];
    hide StartsWithFork, Unnamed, StepById, Forked, SmoothRun, NormalSteps, IsBlank;
    OuterStarts(def);
    JoinComesFirstIff(def, f);
    ForkedOne(def, f, def.steps[1].id);
    hide Nested, Heads, IsFork, JoinOf;
    events, a := STARTED + [Finish(ForkResult(f), NoBranch)], Forked(def, f);
  }

  lemma OuterStarts(def: Definition)
    requires Nested(def)
    ensures StartsWithFork(def, def.steps[0])
  {
    NestedSteps(def);
    NestedUnnamed(def, 0);
    assert def.steps[1].id in Ids(def);
    hide IsBlank, Unnamed, StepById, JoinOf, Ids;
  }

  /** The inner fork starts within the branch of the outer one. */
  lemma InnerForkRuns(def: Definition, events: seq<Event>, a: Progress) returns (more: seq<Event>, b: Progress)
    requires Nested(def) && SmoothRun(MachineOf(def), events, a) && a.phase == Ready(Some(def.steps[1].id))
    requires a.done.Keys == {def.steps[0].id} && a.forks == map[def.steps[0].id := Outer(def)]
    ensures SmoothRun(MachineOf(def), more, b) && b.phase == Ready(Some(def.steps[2].id))
    ensures b.done.Keys == {def.steps[0].id, def.steps[1].id}
    ensures b.forks == Both(def, Inner(def, ForkRunning, RunningBranch(def)))
  {
    var m, f := MachineOf(def), def.steps[1];
    NestedSteps(def);
    assert f.kind.Fork? && Heads(f) != [] && f.id !in a.done;
    InnerForkMove(def, Heads(f)[0]);
    ForkMayFinish(def, f);
    var move := NextAfter(m, f, a.forks, Heads(f)[0], NoBranch);
    b := Moved(a, f.id, Heads(f)[0], move);
    MovedFacts(a, f.id, Heads(f)[0], move);
    more := events + [Start(NoBranch)] + [Finish(ForkResult(f), NoBranch)];
    assert CanPick(f, a.forks, NoBranch);
    hide Nested, StepById, IsBlank, JoinOf, Heads, NormalSteps, NextAfter, SmoothRun, MayResult, IsPick, ForkResult, Moved, Both;
    StartAndFinish(m, events, a, f, ForkResult(f), NoBranch, move);
  }

  /** The inner task runs. */
  lemma InnerTaskRuns(def: Definition, events: seq<Event>, a: Progress) returns (more: seq<Event>, b: Progress)
    requires Nested(def) && SmoothRun(MachineOf(def), events, a) && a.phase == Ready(Some(def.steps[2].id))
    requires a.done.Keys == {def.steps[0].id, def.steps[1].id}
    requires a.forks == Both(def, Inner(def, ForkRunning, RunningBranch(def)))
    ensures SmoothRun(MachineOf(def), more, b) && b.phase == Ready(Some(def.steps[3].id))
    ensures b.done.Keys == {def.steps[0].id, def.steps[1].id, def.steps[2].id}
    ensures b.forks == Both(def, Inner(def, ForkCompleted, DoneBranch(def)))
  {
    var m, x, pick := MachineOf(def), def.steps[2], InBranch(def.steps[1].id, 0);
    hide *;
    FiveSteps(def);
    InnerTaskFacts(def, a);
    InnerTaskMove(def);
    var move := NextAfter(m, x, a.forks, "", pick);
    b := Moved(a, x.id, "", move);
    MovedFacts(a, x.id, "", move);
    more := events + [Start(NoBranch)] + [Finish(Result("", ""), pick)];
    StartAndFinish(m, events, a, x, Result("", ""), pick, move);
  }

  lemma InnerTaskFacts(def: Definition, a: Progress)
    requires Nested(def) && a.done.Keys == {def.steps[0].id, def.steps[1].id}
    requires a.forks == Both(def, Inner(def, ForkRunning, RunningBranch(def)))
    ensures var x := def.steps[2];
      && StepById(MachineOf(def).def.steps, x.id) == Some(x) && MayResult(x, Result("", ""))
      && CanPick(x, a.forks, InBranch(def.steps[1].id, 0)) && x.id !in a.done
  {
    var x := def.steps[2];
    assert x.kind.HttpRequest? && MachineOf(def).def == def;
    hide Nested, NextAfter, StepById, IsBlank, JoinOf, Heads, IsPick, NormalSteps, Both;
    FiveSteps(def);
    NestedSteps(def);
    InnerTaskPick(def);
    hide Inner, RunningBranch;
    NotAmongTwo(def, a.done.Keys);
  }

  lemma NotAmongTwo(def: Definition, keys: set<string>)
    requires UniqueIds(def.steps) && |def.steps| == 5 && keys == {def.steps[0].id, def.steps[1].id}
    ensures def.steps[2].id !in keys
  {
  }

  /** The inner join runs. */
  lemma InnerJoinRuns(def: Definition, events: seq<Event>, a: Progress) returns (more: seq<Event>, b: Progress)
    requires Nested(def) && SmoothRun(MachineOf(def), events, a) && a.phase == Ready(Some(def.steps[3].id))
    requires a.done.Keys == {def.steps[0].id, def.steps[1].id, def.steps[2].id}
    requires a.forks == Both(def, Inner(def, ForkCompleted, DoneBranch(def)))
    ensures SmoothRun(MachineOf(def), more, b) && b.phase == Ready(Some(def.steps[4].id))
    ensures b.forks == Both(def, Inner(def, ForkJoined, DoneBranch(def)))
  {
    var m, j := MachineOf(def), def.steps[3];
    hide *;
    FiveSteps(def);
    InnerJoinFacts(def, a);
    InnerJoinMove(def);
    var move := NextAfter(m, j, a.forks, "", NoBranch);
    b := Moved(a, j.id, "", move);
    MovedFacts(a, j.id, "", move);
    more := events + [Start(NoBranch)] + [Finish(Result("", ""), NoBranch)];
    StartAndFinish(m, events, a, j, Result("", ""), NoBranch, move);
  }

  lemma InnerJoinFacts(def: Definition, a: Progress)
    requires Nested(def) && a.done.Keys == {def.steps[0].id, def.steps[1].id, def.steps[2].id}
    requires a.forks == Both(def, Inner(def, ForkCompleted, DoneBranch(def)))
    ensures var j := def.steps[3];
      && StepById(MachineOf(def).def.steps, j.id) == Some(j) && MayResult(j, Result("", ""))
      && CanPick(j, a.forks, NoBranch) && j.id !in a.done
  {
    var j := def.steps[3];
    assert j.kind.Join? && j.config.next == "" && MachineOf(def).def == def;
    hide Nested, NextAfter, StepById, IsBlank, JoinOf, Heads, IsPick, NormalSteps, Both;
    FiveSteps(def);
    NestedSteps(def);
    InnerJoinMove(def);
    hide Inner, DoneBranch;
    NotAmongThree(def, a.done.Keys);
  }

  lemma NotAmongThree(def: Definition, keys: set<string>)
    requires UniqueIds(def.steps) && |def.steps| == 5 && keys == {def.steps[0].id, def.steps[1].id, def.steps[2].id}
    ensures def.steps[3].id !in keys
  {
  }

  /** The instance stands at the outer join; the outer fork is as it was when it started. */
  predicate AtOuterJoin(def: Definition, a: Progress) {
    && |def.steps| == 5 && Cursor(a) == Some(Outer(def).join)
    && def.steps[0].id in a.forks && a.forks[def.steps[0].id] == Outer(def)
  }

  /** Such a definition is accepted, and without any failure the instance comes to the outer join while the outer fork is
      running and its branch has completed nothing. */
  lemma NestedForkIsUnsafe(def: Definition) returns (events: seq<Event>, a: Progress)
    requires Nested(def)
    ensures Accepted(def) && SmoothRun(MachineOf(def), events, a)
    ensures AtOuterJoin(def, a)
  {
    NestedIsAccepted(def);
    hide Accepted, SmoothRun, Nested;
    events, a := NestedStarts(def);
    events, a := InnerForkRuns(def, events, a);
    events, a := InnerTaskRuns(def, events, a);
    events, a := InnerJoinRuns(def, events, a);
    FiveSteps(def);
  }
}
