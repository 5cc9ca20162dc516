/** Loops the validator does not see. Each shape is accepted, keeps the discipline of forks, and has runs of any length. */
module UnseenLoops {
  import opened Workflow
  import opened Graph
  import opened Regions
  import opened Machines
  import opened Validator
  import opened Interpreter
  import opened ForkShape
  import opened Moves
  import opened Termination
  import opened Acceptance
  import opened Limits
  import opened EndlessRuns

  /** A fork with one branch, whose two steps refer to each other. */
  predicate Loop(def: Definition) {
    && !IsBlank(def.name) && def.version >= 1 && UniqueIds(def.steps) && |def.steps| == 4
    && IsFork(def.steps[0], def.steps[3].id) && GoesTo(def.steps[3], "") && def.steps[3].kind.Join?
    && |Heads(def.steps[0])| == 1 && Heads(def.steps[0])[0] == def.steps[1].id
    && GoesTo(def.steps[1], def.steps[2].id) && GoesTo(def.steps[2], def.steps[1].id)
    && def.steps[1].kind.HttpRequest? && def.steps[2].kind.HttpRequest?
  }

  lemma LoopSteps(def: Definition)
    requires Loop(def)
    ensures forall i :: 0 <= i < 4 ==> StepById(def.steps, def.steps[i].id) == Some(def.steps[i]) && def.steps[i].id != ""
    ensures forall i :: 0 <= i < 4 ==> def.steps[i].id in Ids(def)
    ensures JoinOf(def, def.steps[0]) == def.steps[3].id
  {
    forall i | 0 <= i < 4 ensures StepById(def.steps, def.steps[i].id) == Some(def.steps[i]) && def.steps[i].id != "" {
      StepByIdUnique(def.steps, i);
      NotBlank(def.steps[i].id);
    }
    hide StepById, IsBlank;
  }

  /** The step that refers back is a branch step, so its reference is not checked. */
  lemma LoopIsUnchecked(def: Definition)
    requires Loop(def)
    ensures !IsNormal(def, def.steps[2])
  {
    LoopSteps(def);
    var f, a, b := def.steps[0], def.steps[1], def.steps[2];
    assert BranchRefs(a)[0] == b.id;
    hide StepById, IsBlank, BranchRefs, JoinOf, InRegion, Ids;
    HeadInRegion(def, f, 0);
    RegionGoesOn(def, f, a.id, a, b.id);
  }

  lemma LoopFork(def: Definition)
    requires Loop(def)
    ensures FineStep(def, 0) && ForwardStep(def, 0)
    ensures FineStep(def, 1) && ForwardStep(def, 1) && FineStep(def, 2)
  {
    LoopSteps(def);
    assert Later(def, 0, def.steps[1].id) && Later(def, 0, def.steps[3].id) && Later(def, 1, def.steps[2].id);
    hide Later, IsBlank, IsFork, FineStep, ForwardStep, StepById, GoesTo, Ids;
    FineFork(def, 0, def.steps[3].id);
    FineTask(def, 1, def.steps[2].id);
    FineTask(def, 2, def.steps[1].id);
  }

  lemma LoopIsAccepted(def: Definition)
    requires Loop(def)
    ensures Accepted(def)
  {
    hide *;
    LoopKinds(def);
    forall k: nat | k < |def.steps| ensures FineStep(def, k) {
      LoopStepFine(def, k);
    }
    forall k: nat | k < |def.steps| && IsNormal(def, def.steps[k]) ensures ForwardStep(def, k) {
      LoopStepForward(def, k);
    }
    IsForward(def);
    AcceptedWhen(def);
  }

  lemma LoopStepFine(def: Definition, k: nat)
    requires Loop(def) && k < |def.steps|
    ensures FineStep(def, k)
  {
    hide FineStep, ForwardStep, IsBlank, IsFork, GoesTo;
    LoopFork(def);
    FineTask(def, 3, "");
  }

  lemma LoopStepForward(def: Definition, k: nat)
    requires Loop(def) && k < |def.steps| && IsNormal(def, def.steps[k])
    ensures ForwardStep(def, k)
  {
    hide FineStep, ForwardStep, IsNormal, IsBlank, IsFork, GoesTo;
    LoopFork(def);
    LoopIsUnchecked(def);
    FineTask(def, 3, "");
  }

  lemma LoopIsOneFork(def: Definition)
    requires Loop(def)
    ensures OneFork(def)
  {
    hide *;
    LoopIsAccepted(def);
    AcceptedIsReferenced(def);
    LoopKinds(def);
    LoopUnnamed(def);
    IsOneFork(def);
  }

  lemma LoopKinds(def: Definition)
    requires Loop(def)
    ensures |def.steps| == 4 && def.steps[0].kind.Fork? && JoinOf(def, def.steps[0]) !in Heads(def.steps[0])
    ensures forall i :: 0 < i < 4 ==> !def.steps[i].kind.Fork? && !def.steps[i].kind.Transform?
    ensures !IsBlank(def.name) && def.version >= 1 && UniqueIds(def.steps)
  {
    hide IsBlank;
  }

  lemma LoopUnnamed(def: Definition)
    requires Loop(def)
    ensures Unnamed(def, def.steps[0].id)
  {
    LoopSteps(def);
    hide StepById, IsBlank, JoinOf, Ids;
  }

  /** From the fork the run graph leads into its branch, and there round and round. */
  lemma LoopIsReached(def: Definition)
    requires Loop(def) && OneFork(def)
    ensures !LoopFree(def)
  {
    LoopSteps(def);
    OneForkPath(def);
    var f, a, b := def.steps[0], def.steps[1], def.steps[2];
    assert NamedRefs(a) == [b.id] && NamedRefs(b) == [a.id];
    assert b.id in NamedRefs(a) && a.id in NamedRefs(b);
    hide Loop, OneFork, StepById, JoinOf, Ids, NamedRefs, RunGraph, NormalSteps, IsNormal;
    HeadIsEdge(def, f.id, f, 0);
    ReferenceIsEdge(def, a.id, a, b.id);
    ReferenceIsEdge(def, b.id, b, a.id);
    TwoGoRound(RunGraph(def), f.id, a.id, b.id);
    assert IsFirst(def, f.id);
  }

  lemma TwoGoRound(g: Graph, from: string, a: string, b: string)
    requires a in Succ(g, from) && b in Succ(g, a) && a in Succ(g, b)
    ensures Endless(g, from)
  {
    var p := [a, b, a];
    assert IsCycle(g, p) && PathFromTo(g, [a], a, a);
    assert LeadsInto(g, a, p);
    EndlessBefore(g, from, a);
  }

  /** The validator accepts two steps of a branch that refer to each other, and no number bounds the runs. */
  lemma LoopNeverEnds(def: Definition)
    requires Loop(def)
    ensures Accepted(def) && Disciplined(def) && !exists bound :: BoundedBy(def, bound)
  {
    hide Loop, Accepted, OneFork, Tame, JoinsApart, LoopFree, BoundedBy;
    LoopIsAccepted(def);
    LoopIsOneFork(def);
    OneForkIsDisciplined(def);
    LoopIsReached(def);
    RunsEndIffLoopFree(def);
  }

  /** The references of all steps, whatever they are for. */
  function ReferenceGraph(def: Definition): Graph {
    map id | id in Ids(def) :: if StepById(def.steps, id).Some? then ExplicitRefs(StepById(def.steps, id).value) else []
  }

  /** A fork with one branch of one step, which names the join; a step behind the join refers to that branch step. */
  predicate Detour(def: Definition) {
    && !IsBlank(def.name) && def.version >= 1 && UniqueIds(def.steps) && |def.steps| == 4
    && IsFork(def.steps[0], def.steps[1].id) && |Heads(def.steps[0])| == 1 && Heads(def.steps[0])[0] == def.steps[3].id
    && GoesTo(def.steps[1], "") && def.steps[1].kind.Join?
    && GoesTo(def.steps[2], def.steps[3].id) && def.steps[2].kind.HttpRequest?
    && GoesTo(def.steps[3], def.steps[1].id) && def.steps[3].kind.HttpRequest?
  }

  lemma DetourSteps(def: Definition)
    requires Detour(def)
    ensures forall i :: 0 <= i < 4 ==> StepById(def.steps, def.steps[i].id) == Some(def.steps[i]) && def.steps[i].id != ""
    ensures forall i :: 0 <= i < 4 ==> def.steps[i].id in Ids(def)
    ensures JoinOf(def, def.steps[0]) == def.steps[1].id
  {
    forall i | 0 <= i < 4 ensures StepById(def.steps, def.steps[i].id) == Some(def.steps[i]) && def.steps[i].id != "" {
      StepByIdUnique(def.steps, i);
      NotBlank(def.steps[i].id);
    }
    hide StepById, IsBlank;
  }

  lemma DetourIsUnchecked(def: Definition)
    requires Detour(def)
    ensures IsBranchStep(def, def.steps[3].id) && !IsNormal(def, def.steps[3])
  {
    DetourSteps(def);
    var f := def.steps[0];
    hide StepById, IsBlank, JoinOf, InRegion, Ids;
    HeadInRegion(def, f, 0);
  }

  lemma DetourFine(def: Definition)
    requires Detour(def)
    ensures FineStep(def, 0) && ForwardStep(def, 0) && FineStep(def, 1) && ForwardStep(def, 1)
    ensures FineStep(def, 2) && ForwardStep(def, 2) && FineStep(def, 3)
  {
    DetourSteps(def);
    assert Later(def, 0, def.steps[1].id) && Later(def, 0, def.steps[3].id) && Later(def, 2, def.steps[3].id);
    hide Later, IsBlank, IsFork, FineStep, ForwardStep, StepById, GoesTo, Ids;
    FineFork(def, 0, def.steps[1].id);
    FineTask(def, 1, "");
    FineTask(def, 2, def.steps[3].id);
    FineTask(def, 3, def.steps[1].id);
  }

  lemma DetourIsAccepted(def: Definition)
    requires Detour(def)
    ensures Accepted(def)
  {
    hide *;
    DetourKinds(def);
    forall k: nat | k < |def.steps| ensures FineStep(def, k) {
      DetourFine(def);
      DetourNumber(k);
    }
    forall k: nat | k < |def.steps| && IsNormal(def, def.steps[k]) ensures ForwardStep(def, k) {
      DetourStepForward(def, k);
    }
    IsForward(def);
    AcceptedWhen(def);
  }

  lemma DetourNumber(k: nat)
    requires k < 4
    ensures k == 0 || k == 1 || k == 2 || k == 3
  {
  }

  lemma DetourStepForward(def: Definition, k: nat)
    requires Detour(def) && k < |def.steps| && IsNormal(def, def.steps[k])
    ensures ForwardStep(def, k)
  {
    hide FineStep, ForwardStep, IsNormal, IsBlank, IsFork, GoesTo, IsBranchStep;
    DetourFine(def);
    DetourIsUnchecked(def);
  }

  lemma DetourIsOneFork(def: Definition)
    requires Detour(def)
    ensures OneFork(def)
  {
    hide *;
    DetourIsAccepted(def);
    AcceptedIsReferenced(def);
    DetourKinds(def);
    DetourUnnamed(def, 0);
    IsOneFork(def);
  }

  lemma DetourKinds(def: Definition)
    requires Detour(def)
    ensures |def.steps| == 4 && def.steps[0].kind.Fork? && JoinOf(def, def.steps[0]) !in Heads(def.steps[0])
    ensures forall i :: 0 < i < 4 ==> !def.steps[i].kind.Fork? && !def.steps[i].kind.Transform?
    ensures !IsBlank(def.name) && def.version >= 1 && UniqueIds(def.steps)
  {
    hide IsBlank;
  }

  lemma DetourUnnamed(def: Definition, k: nat)
    requires Detour(def) && (k == 0 || k == 2)
    ensures Unnamed(def, def.steps[k].id)
  {
    DetourSteps(def);
    hide StepById, IsBlank, JoinOf, Ids;
  }

  /** The linear path is the fork, its join, and the step behind it. */
  lemma DetourPath(def: Definition)
    requires Detour(def) && OneFork(def)
    ensures NextNormal(NormalSteps(def, |def.steps|), def.steps[1].id) == Some(def.steps[2])
  {
    hide *;
    DetourKinds(def);
    DetourSteps(def);
    DetourUnnamed(def, 2);
    UnnamedIsNormal(def, def.steps[2]);
    JoinIsNormal(def);
    LinearPairIsNext(def, 1);
  }

  lemma JoinIsNormal(def: Definition)
    requires Detour(def) && OneFork(def)
    ensures |def.steps| == 4 && IsNormal(def, def.steps[1])
  {
    DetourSteps(def);
    DetourUndoesNothing(def);
    JoinIsNoBranch(def, def.steps[1].id);
    hide Detour, StepById, IsBlank, JoinOf, OneFork, IsBranchStep, Ids, UniqueIds, CompensationRefs;
  }

  lemma DetourUndoesNothing(def: Definition)
    requires Detour(def)
    ensures CompensationRefs(def) == {}
  {
    hide IsBlank, UniqueIds;
  }

  /** Behind the join the machine goes into the branch again, and from there to the join. */
  lemma DetourIsReached(def: Definition)
    requires Detour(def) && OneFork(def)
    ensures !LoopFree(def)
  {
    DetourSteps(def);
    OneForkPath(def);
    DetourPath(def);
    var f, j, u, a := def.steps[0], def.steps[1], def.steps[2], def.steps[3];
    assert NamedRefs(u) == [a.id] && NamedRefs(a) == [j.id];
    assert a.id in NamedRefs(u) && j.id in NamedRefs(a);
    assert !j.kind.Fork? && !j.kind.Condition? && j.config.next == "" && |def.steps| == 4;
    hide Detour, OneFork, StepById, JoinOf, Ids, NamedRefs, RunGraph, NormalSteps, IsNormal, NextNormal;
    JoinIsEdge(def, f.id, f);
    LinearNextIsEdge(def, j.id, j, u);
    ReferenceIsEdge(def, u.id, u, a.id);
    ReferenceIsEdge(def, a.id, a, j.id);
    ThreeGoRound(RunGraph(def), f.id, j.id, u.id, a.id);
    assert IsFirst(def, f.id);
  }

  lemma ThreeGoRound(g: Graph, from: string, a: string, b: string, c: string)
    requires a in Succ(g, from) && b in Succ(g, a) && c in Succ(g, b) && a in Succ(g, c)
    ensures Endless(g, from)
  {
    var p := [a, b, c, a];
    assert IsCycle(g, p) && PathFromTo(g, [a], a, a);
    assert LeadsInto(g, a, p);
    EndlessBefore(g, from, a);
  }

  lemma DetourRefs(def: Definition, k: nat, i: nat)
    requires Detour(def) && k < 4 && |def.steps| == 4 && i < |ExplicitRefs(def.steps[k])|
    ensures k != 1 && (ExplicitRefs(def.steps[k])[i] == def.steps[1].id ||
      (ExplicitRefs(def.steps[k])[i] == def.steps[3].id && (k == 0 || k == 2)))
  {
    hide ExplicitRefs, IsBlank, UniqueIds, Distinct;
    if k == 0 {
      RefsOfFork(def.steps[0], def.steps[1].id, i);
    } else if k == 1 {
      RefsOfTask(def.steps[1], "", i);
    } else if k == 2 {
      RefsOfTask(def.steps[2], def.steps[3].id, i);
    } else {
      RefsOfTask(def.steps[3], def.steps[1].id, i);
    }
  }

  lemma DetourReference(def: Definition, a: string, b: string)
    requires Detour(def) && b in Succ(ReferenceGraph(def), a)
    ensures |def.steps| == 4
    ensures b == def.steps[1].id || (b == def.steps[3].id && (a == def.steps[0].id || a == def.steps[2].id))
    ensures a != def.steps[1].id
  {
    hide *;
    DetourDistinct(def);
    ReferenceIsOfStep(def, a, b);
    var k :| 0 <= k < |def.steps| && def.steps[k].id == a && b in ExplicitRefs(def.steps[k]);
    var i :| 0 <= i < |ExplicitRefs(def.steps[k])| && ExplicitRefs(def.steps[k])[i] == b;
    DetourRefs(def, k, i);
  }

  lemma DetourDistinct(def: Definition)
    requires Detour(def)
    ensures UniqueIds(def.steps) && |def.steps| == 4 && forall k :: 0 <= k < 4 && k != 1 ==> def.steps[k].id != def.steps[1].id
  {
    hide IsBlank;
  }

  lemma ReferenceIsOfStep(def: Definition, a: string, b: string)
    requires UniqueIds(def.steps) && b in Succ(ReferenceGraph(def), a)
    ensures exists k :: 0 <= k < |def.steps| && def.steps[k].id == a && b in ExplicitRefs(def.steps[k])
  {
    hide ExplicitRefs;
    var step := StepById(def.steps, a).value;
    var k :| 0 <= k < |def.steps| && def.steps[k] == step;
  }

  /** The references alone go round nowhere. */
  lemma DetourHasNoReferenceLoop(def: Definition)
    requires Detour(def)
    ensures !HasCycle(ReferenceGraph(def))
  {
    assert def.steps[3].id != def.steps[0].id && def.steps[3].id != def.steps[2].id && def.steps[3].id != def.steps[1].id;
    hide Detour, ReferenceGraph, Path;
    if HasCycle(ReferenceGraph(def)) {
      var p :| Path(ReferenceGraph(def), p) && |p| >= 2 && p[0] == p[|p| - 1];
      var b, c, d := ThreeOn(ReferenceGraph(def), p);
      DetourReference(def, p[0], b);
      DetourReference(def, b, c);
      DetourReference(def, c, d);
    }
  }

  /** The validator accepts a step of the linear path that refers to a branch step. Even when the references of all steps go
      round nowhere, no number bounds the runs. So EnteredByForks cannot be spared. */
  lemma DetourNeverEnds(def: Definition)
    requires Detour(def)
    ensures Accepted(def) && Disciplined(def) && !HasCycle(ReferenceGraph(def))
    ensures !EnteredByForks(def) && !exists bound :: BoundedBy(def, bound)
  {
    hide Accepted, OneFork, Tame, JoinsApart, LoopFree, BoundedBy, EnteredByForks, HasCycle;
    DetourIsAccepted(def);
    DetourIsOneFork(def);
    OneForkIsDisciplined(def);
    DetourIsReached(def);
    DetourHasNoReferenceLoop(def);
    RunsEndIffLoopFree(def);
    DetourEntersBranch(def);
  }

  lemma DetourEntersBranch(def: Definition)
    requires Detour(def)
    ensures !EnteredByForks(def)
  {
    hide *;
    DetourKinds(def);
    DetourIsUnchecked(def);
    DetourUnnamed(def, 2);
    UnnamedIsNormal(def, def.steps[2]);
    DetourRefers(def);
    EntryIsSeen(def, def.steps[2], def.steps[3].id);
  }

  lemma DetourRefers(def: Definition)
    requires Detour(def)
    ensures |def.steps| == 4 && StepById(def.steps, def.steps[2].id) == Some(def.steps[2])
    ensures NamedRefs(def.steps[2]) == [def.steps[3].id] && !def.steps[2].kind.Fork?
  {
    DetourSteps(def);
    hide StepById, IsBlank, JoinOf, Ids;
  }

  lemma EntryIsSeen(def: Definition, u: Step, id: string)
    requires StepById(def.steps, u.id) == Some(u) && IsNormal(def, u) && !u.kind.Fork?
    requires NamedRefs(u) == [id] && IsBranchStep(def, id)
    ensures !EnteredByForks(def)
  {
    hide IsBranchStep, IsNormal, StepById, NamedRefs, RunGraph, JoinOf;
    assert OnPath(def, u.id);
    assert NamedRefs(u)[0] == id;
    assert !AvoidsBranches(def, u.id);
  }
}
