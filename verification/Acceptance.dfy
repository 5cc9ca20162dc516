/** What acceptance by the validator means for the runs of the machine: outside branches and compensations the machine
    moves along checked edges only, so whatever loops must pass through a step whose references were not checked. */
module Acceptance {
  import opened Workflow
  import opened Graph
  import opened Regions
  import opened Machines
  import opened Saga
  import opened Validator
  import opened Interpreter
  import opened ForkShape
  import opened Moves
  import opened Runs
  import opened Termination

  /** Step `k` of the definition, if normal, comes after the normal steps among the first `k`. */
  lemma {:induction false} NormalAt(def: Definition, n: nat, k: nat)
    requires k < n <= |def.steps| && IsNormal(def, def.steps[k])
    ensures |NormalSteps(def, k)| < |NormalSteps(def, n)|
    ensures NormalSteps(def, n)[|NormalSteps(def, k)|] == def.steps[k]
  {
    hide IsNormal;
    if k < n - 1 {
      NormalAt(def, n - 1, k);
    }
  }

  /** The default join of a fork is listed after it. */
  lemma {:induction false} FirstJoinComesLater(steps: seq<Step>, id: string, found: bool)
    requires FirstJoin(steps, id, found) != ""
    ensures exists l :: 0 <= l < |steps| && steps[l].id == FirstJoin(steps, id, found) && (found || PrecededBy(steps, l, id))
  {
    var join := FirstJoin(steps, id, found);
    if steps[0].id == id {
      FirstJoinComesLater(steps[1..], id, true);
      var l :| 0 <= l < |steps| - 1 && steps[1..][l].id == join;
      assert steps[l + 1].id == join && PrecededBy(steps, l + 1, id);
    } else if !(found && steps[0].kind.Join?) {
      FirstJoinComesLater(steps[1..], id, found);
      var l :| 0 <= l < |steps| - 1 && steps[1..][l].id == join && (found || PrecededBy(steps[1..], l, id));
      assert steps[l + 1].id == join;
      if !found {
        var k :| 0 <= k < l && steps[1..][k].id == id;
        assert steps[k + 1].id == id;
      }
    }
  }

  predicate PrecededBy(steps: seq<Step>, l: int, id: string) {
    exists k :: 0 <= k < l && k < |steps| && steps[k].id == id
  }

  ghost function Linear(def: Definition): seq<Step> {
    NormalSteps(def, |def.steps|)
  }

  /** `id` is on the linear path. */
  ghost predicate OnPath(def: Definition, id: string) {
    StepById(def.steps, id).Some? && IsNormal(def, StepById(def.steps, id).value)
  }

  /** Where a step of the linear path stands, and its checked edges. */
  lemma PathPosition(def: Definition, id: string) returns (i: nat)
    requires UniqueIds(def.steps) && OnPath(def, id)
    ensures i < |Linear(def)| && StepById(def.steps, id) == Some(Linear(def)[i])
    ensures Succ(CheckedGraph(def), id) == OutEdges(Linear(def), i)
    ensures UniqueIds(Linear(def))
  {
    var step := StepById(def.steps, id).value;
    var k :| 0 <= k < |def.steps| && def.steps[k] == step;
    hide StepById, IsNormal, OutEdges;
    NormalAt(def, |def.steps|, k);
    i := |NormalSteps(def, k)|;
    NormalStepsUnique(def, |def.steps|);
    EdgesOfNormal(Linear(def), |Linear(def)|, i);
  }

  lemma {:induction false} NextNormalIs(normal: seq<Step>, i: nat)
    requires UniqueIds(normal) && i < |normal|
    ensures NextNormal(normal, normal[i].id) == if i + 1 < |normal| then Some(normal[i + 1]) else None
  {
    if i > 0 && |normal| >= 2 {
      assert normal[1..][i - 1] == normal[i];
      NextNormalIs(normal[1..], i - 1);
    }
  }

  /** Outside forks, every successor the machine gives for a step of the linear path is an edge that was checked. */
  lemma MachineFollowsCheckedGraph(def: Definition, id: string, next: string)
    requires Disciplined(def) && OnPath(def, id)
    requires var step := StepById(def.steps, id).value; !step.kind.Fork? && Legit(step, next)
    ensures var to := NextOutsideFork(MachineOf(def), StepById(def.steps, id).value, next);
      to.Some? ==> to.value.id in Succ(CheckedGraph(def), id)
  {
    var step := StepById(def.steps, id).value;
    StepIsGood(def, id);
    assert UniqueIds(def.steps);
    hide Tame, JoinsApart, StepById, IsNormal, CheckedGraph;
    var i := PathPosition(def, id);
    if NamedNext(step, next) != "" {
      NamedNextKnown(def, step, next);
      hide ExplicitRefs, GoodStep, Legit;
      assert NamedNext(step, next) in OutEdges(Linear(def), i);
      KnownIds(def, NamedNext(step, next));
    } else {
      NextNormalIs(Linear(def), i);
    }
  }

  /** One edge or more lead from `a` to `b`. */
  ghost predicate Onward(g: Graph, a: string, b: string) {
    exists c :: c in Succ(g, a) && Reaches(g, c, b)
  }

  lemma EdgeIsOnward(g: Graph, a: string, b: string)
    requires b in Succ(g, a)
    ensures Onward(g, a, b)
  {
    ReachesSelf(g, b);
  }

  lemma OnwardStep(g: Graph, a: string, b: string, c: string)
    requires Onward(g, a, b) && c in Succ(g, b)
    ensures Onward(g, a, c)
  {
    hide Reaches;
    var d :| d in Succ(g, a) && Reaches(g, d, b);
    ReachesStep(g, d, b, c);
  }

  lemma {:induction false} LinearGoesOn(def: Definition, i: nat, j: nat)
    requires UniqueIds(def.steps) && i < j < |Linear(def)|
    ensures Onward(CheckedGraph(def), Linear(def)[i].id, Linear(def)[j].id)
    decreases j
  {
    hide CheckedGraph, StepById, IsNormal, NormalSteps, OnPath, Onward;
    LinearIsOnPath(def, j - 1);
    var k := PathPosition(def, Linear(def)[j - 1].id);
    assert k == j - 1;
    if i < j - 1 {
      LinearGoesOn(def, i, j - 1);
      OnwardStep(CheckedGraph(def), Linear(def)[i].id, Linear(def)[j - 1].id, Linear(def)[j].id);
    } else {
      EdgeIsOnward(CheckedGraph(def), Linear(def)[i].id, Linear(def)[j].id);
    }
  }

  lemma LinearIsOnPath(def: Definition, k: nat)
    requires UniqueIds(def.steps) && k < |Linear(def)|
    ensures OnPath(def, Linear(def)[k].id) && IsStep(def, Linear(def)[k].id, Linear(def)[k])
  {
    hide IsNormal, StepById;
    var l := NormalStepIsStep(def, |def.steps|, k);
    StepByIdUnique(def.steps, l);
  }

  /** From a fork to its join, given or defaulted, the checked graph leads on, when both are on the linear path. */
  lemma ForkLeadsToJoin(def: Definition, id: string)
    requires Disciplined(def) && OnPath(def, id) && StepById(def.steps, id).value.kind.Fork?
    requires OnPath(def, JoinOf(def, StepById(def.steps, id).value))
    ensures Onward(CheckedGraph(def), id, JoinOf(def, StepById(def.steps, id).value))
  {
    var step := StepById(def.steps, id).value;
    var join := JoinOf(def, step);
    StepIsGood(def, id);
    assert UniqueIds(def.steps) && step.id == id;
    hide Tame, JoinsApart, IsNormal, CheckedGraph, OnPath, Onward;
    var i := PathPosition(def, id);
    if step.config.join != "" {
      hide StepById;
      ForkRefs(step, 0);
      hide ExplicitRefs;
      assert join in OutEdges(Linear(def), i);
      EdgeIsOnward(CheckedGraph(def), id, join);
    } else {
      FirstJoinComesLater(def.steps, id, false);
      hide StepById, FirstJoin, GoodStep;
      var k, l := PositionsInOrder(def, id, join);
      var a, b := LinearInOrder(def, k, l);
      LinearGoesOn(def, a, b);
    }
  }

  lemma PositionsInOrder(def: Definition, id: string, join: string) returns (k: nat, l: nat)
    requires exists l :: 0 <= l < |def.steps| && def.steps[l].id == join && PrecededBy(def.steps, l, id)
    requires UniqueIds(def.steps) && OnPath(def, id) && OnPath(def, join)
    ensures k < l < |def.steps| && def.steps[k].id == id && def.steps[l].id == join
    ensures IsNormal(def, def.steps[k]) && IsNormal(def, def.steps[l])
  {
    hide IsNormal, StepById;
    l :| 0 <= l < |def.steps| && def.steps[l].id == join && PrecededBy(def.steps, l, id);
    k :| 0 <= k < l && def.steps[k].id == id;
    StepByIdUnique(def.steps, k);
    StepByIdUnique(def.steps, l);
  }

  lemma {:induction false} LinearInOrder(def: Definition, k: nat, l: nat) returns (a: nat, b: nat)
    requires k < l < |def.steps| && IsNormal(def, def.steps[k]) && IsNormal(def, def.steps[l])
    ensures a < b < |Linear(def)| && Linear(def)[a] == def.steps[k] && Linear(def)[b] == def.steps[l]
  {
    hide IsNormal;
    NormalAt(def, |def.steps|, k);
    NormalAt(def, |def.steps|, l);
    NormalAt(def, l, k);
    a, b := |NormalSteps(def, k)|, |NormalSteps(def, l)|;
  }

  /** A reference a finished step hands over is one the validator knows. */
  lemma NamedIsExplicit(step: Step, next: string)
    requires !step.kind.Fork? && next in NamedRefs(step)
    ensures next in BranchRefs(step) && next in ExplicitRefs(step) && next != ""
  {
    assert NonEmpty(next) == [next] || next == "";
    assert BranchRefs(step) == ExplicitRefs(step);
  }

  lemma HeadIsExplicit(step: Step, next: string)
    requires step.kind.Fork? && next in Heads(step)
    ensures next in ExplicitRefs(step)
  {
    var i :| 0 <= i < |Heads(step)| && Heads(step)[i] == next;
    ForkRefs(step, i);
  }

  /** `b` is the step after the given one on the linear path, and the given one names no successor. */
  ghost predicate IsLinearNext(def: Definition, step: Step, b: string) {
    && !step.kind.Condition? && step.config.next == ""
    && NextNormal(Linear(def), step.id).Some? && b == NextNormal(Linear(def), step.id).value.id
  }

  /** The successors of a step in the run graph, by kind. */
  lemma RunEdgeKinds(def: Definition, a: string, step: Step, b: string)
    requires IsStep(def, a, step) && b in Succ(RunGraph(def), a)
    ensures step.kind.Fork? ==> b in Heads(step) || b == JoinOf(def, step)
    ensures !step.kind.Fork? ==> b in NamedRefs(step) || IsLinearNext(def, step, b)
  {
    RunGraphAt(def, a, step);
    hide NamedRefs, JoinOf, Heads, RunGraph, NormalSteps;
  }

  /** An edge of the run graph between two steps of the linear path is a path of the checked graph. */
  lemma RunEdgeIsChecked(def: Definition, a: string, b: string)
    requires Disciplined(def) && OnPath(def, a) && OnPath(def, b) && b in Succ(RunGraph(def), a)
    ensures Onward(CheckedGraph(def), a, b)
  {
    var step := StepById(def.steps, a).value;
    assert UniqueIds(def.steps) && step.id == a;
    RunEdgeKinds(def, a, step, b);
    if step.kind.Fork? && b == JoinOf(def, step) {
      hide *;
      ForkLeadsToJoin(def, a);
    } else {
      hide Tame, JoinsApart, IsNormal, CheckedGraph, OnPath, Onward, StepById, ExplicitRefs, RunGraph, NamedRefs, Heads, JoinOf;
      var i := PathPosition(def, a);
      NextNormalIs(Linear(def), i);
      if step.kind.Fork? {
        HeadIsExplicit(step, b);
      } else if b in NamedRefs(step) {
        NamedIsExplicit(step, b);
      }
      assert b in OutEdges(Linear(def), i);
      EdgeIsOnward(CheckedGraph(def), a, b);
    }
  }

  lemma OnwardTrans(g: Graph, a: string, b: string, c: string)
    requires Onward(g, a, b) && Onward(g, b, c)
    ensures Onward(g, a, c)
  {
    hide Reaches;
    var x :| x in Succ(g, a) && Reaches(g, x, b);
    var y :| y in Succ(g, b) && Reaches(g, y, c);
    ReachesStep(g, x, b, y);
    ReachesTrans(g, x, y, c);
  }

  lemma OnwardToItself(g: Graph, a: string)
    requires Onward(g, a, a)
    ensures HasCycle(g)
  {
    var x :| x in Succ(g, a) && Reaches(g, x, a);
    var p :| PathFromTo(g, p, x, a);
    var q := [a] + p;
    assert forall i :: 0 <= i < |q| - 1 ==> q[i + 1] in Succ(g, q[i]);
    assert Path(g, q) && |q| >= 2 && q[0] == q[|q| - 1];
  }

  lemma {:induction false} LinearPathIsOnward(def: Definition, p: seq<string>)
    requires Disciplined(def) && Path(RunGraph(def), p) && |p| >= 2 && forall i :: 0 <= i < |p| ==> OnPath(def, p[i])
    ensures Onward(CheckedGraph(def), p[0], p[|p| - 1])
    decreases |p|
  {
    hide Tame, JoinsApart, CheckedGraph, RunGraph, OnPath, Onward;
    var n := |p| - 1;
    assert p[n - 1 + 1] in Succ(RunGraph(def), p[n - 1]);
    RunEdgeIsChecked(def, p[n - 1], p[n]);
    if n > 1 {
      assert Path(RunGraph(def), p[..n]);
      LinearPathIsOnward(def, p[..n]);
      OnwardTrans(CheckedGraph(def), p[0], p[n - 1], p[n]);
    }
  }

  /** If the validator accepts a definition, a run can only loop through steps it did not check: branch steps and
      compensations. */
  lemma LoopsLeaveTheLinearPath(def: Definition, p: seq<string>)
    requires Disciplined(def) && Accepted(def)
    requires Path(RunGraph(def), p) && |p| >= 2 && p[0] == p[|p| - 1]
    ensures exists i :: 0 <= i < |p| && !OnPath(def, p[i])
  {
    hide Tame, JoinsApart, CheckedGraph, RunGraph, OnPath, Onward;
    if forall i :: 0 <= i < |p| ==> OnPath(def, p[i]) {
      LinearPathIsOnward(def, p);
      OnwardToItself(CheckedGraph(def), p[0]);
    }
  }

  /** So there is no loop, and all runs end, when branch steps and compensations lead nowhere. */
  lemma AcceptedHasNoLoop(def: Definition)
    requires Disciplined(def) && Accepted(def) && forall id :: !OnPath(def, id) ==> Succ(RunGraph(def), id) == []
    ensures !HasCycle(RunGraph(def)) && LoopFree(def)
  {
    hide Tame, JoinsApart, Accepted, RunGraph, OnPath, LoopFree;
    if p :| Path(RunGraph(def), p) && |p| >= 2 && p[0] == p[|p| - 1] {
      LoopsLeaveTheLinearPath(def, p);
      var i :| 0 <= i < |p| && !OnPath(def, p[i]);
      CycleGoesOn(RunGraph(def), p, i);
    }
    NoCycleIsLoopFree(def);
  }

  /** The steps of branches, with where the machine goes from them. */
  ghost function BranchGraph(def: Definition): Graph {
    map id | id in Ids(def) && IsBranchStep(def, id) :: Succ(RunGraph(def), id)
  }

  /** Branches are entered only through their forks: the joins of the forks of the linear path are on it; no other step of
      the linear path refers to a branch step; and a compensation that is no branch step leads nowhere. */
  ghost predicate EnteredByForks(def: Definition) {
    && (forall id :: OnPath(def, id) && StepById(def.steps, id).value.kind.Fork? ==>
          OnPath(def, JoinOf(def, StepById(def.steps, id).value)))
    && (forall id :: OnPath(def, id) && !StepById(def.steps, id).value.kind.Fork? ==> AvoidsBranches(def, id))
    && (forall id :: id in Ids(def) && !OnPath(def, id) && !IsBranchStep(def, id) ==> Succ(RunGraph(def), id) == [])
  }

  ghost predicate AvoidsBranches(def: Definition, id: string)
    requires OnPath(def, id)
  {
    forall i :: 0 <= i < |NamedRefs(StepById(def.steps, id).value)| ==>
      !IsBranchStep(def, NamedRefs(StepById(def.steps, id).value)[i])
  }

  /** `a` is the given step of the linear path, or one the checked graph leads to from there. */
  ghost predicate AtOrAfter(def: Definition, from: string, a: string) {
    a == from || Onward(CheckedGraph(def), from, a)
  }

  lemma AfterFurther(def: Definition, from: string, a: string, b: string)
    requires AtOrAfter(def, from, a) && Onward(CheckedGraph(def), a, b)
    ensures Onward(CheckedGraph(def), from, b)
  {
    hide CheckedGraph, Onward;
    if a != from {
      OnwardTrans(CheckedGraph(def), from, a, b);
    }
  }

  /** Where a walk along the run graph is: back on the linear path, or within the region of a fork it has come to. */
  ghost predicate Excursion(def: Definition, from: string, at: string) {
    (OnPath(def, at) && AtOrAfter(def, from, at)) || exists f :: WithinFork(def, from, f, at)
  }

  ghost predicate WithinFork(def: Definition, from: string, f: string, at: string) {
    && OnPath(def, f) && StepById(def.steps, f).value.kind.Fork? && AtOrAfter(def, from, f)
    && InRegion(def, StepById(def.steps, f).value, at)
  }

  /** A walk on the linear path takes one step. */
  lemma FromPath(def: Definition, from: string, a: string, b: string)
    requires Disciplined(def) && EnteredByForks(def) && OnPath(def, a) && AtOrAfter(def, from, a)
    requires b in Succ(RunGraph(def), a) && (OnPath(def, b) || Succ(RunGraph(def), b) != [])
    ensures if OnPath(def, b) then Onward(CheckedGraph(def), from, b) else WithinFork(def, from, a, b)
  {
    if OnPath(def, b) {
      hide *;
      RunEdgeIsChecked(def, a, b);
      AfterFurther(def, from, a, b);
    } else {
      var step := StepById(def.steps, a).value;
      RunEdgeKinds(def, a, step, b);
      hide AtOrAfter, CheckedGraph, RunGraph, IsNormal, NamedRefs, JoinOf, InRegion, StepById, Heads;
      if step.kind.Fork? {
        HeadIsWithin(def, a, step, b);
      } else {
        OffPathIsBranch(def, b);
        LinearNextOnPath(def, step.id);
      }
    }
  }

  lemma HeadIsWithin(def: Definition, a: string, step: Step, b: string)
    requires Disciplined(def) && IsStep(def, a, step) && step.kind.Fork? && b in Heads(step)
    ensures InRegion(def, step, b)
  {
    StepIsGood(def, a);
    NoEmptyId(def);
    GoodStepHasId(def, step);
    hide Tame, JoinsApart, InRegion, JoinOf, GoodStep, StepById, Heads;
    var i :| 0 <= i < |Heads(step)| && Heads(step)[i] == b;
    HeadInRegion(def, step, i);
  }

  /** A step off the linear path with successors is a branch step. */
  lemma OffPathIsBranch(def: Definition, b: string)
    requires EnteredByForks(def) && !OnPath(def, b) && Succ(RunGraph(def), b) != []
    ensures IsBranchStep(def, b)
  {
    var c := Succ(RunGraph(def), b)[0];
    hide OnPath, IsBranchStep, RunGraph, AvoidsBranches;
    HasEdgesIsKnown(def, b, c);
  }

  lemma LinearNextOnPath(def: Definition, id: string)
    requires Disciplined(def)
    ensures var next := NextNormal(Linear(def), id); next.Some? ==> OnPath(def, next.value.id)
  {
    hide Tame, JoinsApart, OnPath;
    NextIsListed(Linear(def), id);
    var next := NextNormal(Linear(def), id);
    if next.Some? {
      var k :| 0 <= k < |Linear(def)| && Linear(def)[k] == next.value;
      AllUnique(def);
      LinearIsOnPath(def, k);
    }
  }

  lemma AllUnique(def: Definition)
    requires Tame(def)
    ensures UniqueIds(def.steps)
  {
  }

  lemma {:induction false} NextIsListed(normal: seq<Step>, id: string)
    ensures var next := NextNormal(normal, id); next.Some? ==> exists k :: 0 <= k < |normal| && normal[k] == next.value
  {
    if |normal| >= 2 && normal[0].id != id {
      NextIsListed(normal[1..], id);
      var next := NextNormal(normal[1..], id);
      if next.Some? {
        var k :| 0 <= k < |normal| - 1 && normal[1..][k] == next.value;
        assert normal[k + 1] == next.value;
      }
    }
  }

  /** A walk within the region of a fork takes one step: it stays, or leaves for the join. */
  lemma FromBranch(def: Definition, from: string, f: string, a: string, b: string)
    requires Disciplined(def) && EnteredByForks(def) && WithinFork(def, from, f, a) && b in Succ(RunGraph(def), a)
    ensures if OnPath(def, b) then Onward(CheckedGraph(def), from, b) else WithinFork(def, from, f, b)
  {
    var fork := StepById(def.steps, f).value;
    var join := JoinOf(def, fork);
    hide IsNormal, CheckedGraph, RunGraph, JoinOf, InRegion, StepById, AtOrAfter;
    StaysInRegion(def, f, fork, a, b);
    if b == join {
      ForkLeadsToJoin(def, f);
      AfterFurther(def, from, f, b);
    } else {
      RegionIsOffPath(def, fork, b);
    }
  }

  lemma RegionIsOffPath(def: Definition, fork: Step, b: string)
    requires InRegion(def, fork, b) && fork in def.steps && fork.kind.Fork?
    ensures IsBranchStep(def, b) && !OnPath(def, b)
  {
    var k :| 0 <= k < |def.steps| && def.steps[k] == fork;
    hide InRegion, StepById;
  }

  lemma StaysInRegion(def: Definition, f: string, fork: Step, a: string, b: string)
    requires Tame(def) && IsStep(def, f, fork) && fork.kind.Fork? && InRegion(def, fork, a)
    requires b in Succ(RunGraph(def), a)
    ensures b == JoinOf(def, fork) || InRegion(def, fork, b)
  {
    RegionAvoids(def, fork, a);
    KnownIds(def, a);
    KnownIds(def, f);
    var step := StepById(def.steps, a).value;
    RegionHasNoFork(def, f, fork, a, step);
    RunEdgeKinds(def, a, step, b);
    RegionIsOffPath(def, fork, a);
    StepIsGood(def, a);
    AllUnique(def);
    hide Tame, JoinsApart, RunGraph, JoinOf, InRegion, NamedRefs, IsNormal, StepById;
    OffPathHasNoNext(def, a);
    NamedIsExplicit(step, b);
    KnownReference(def, step, b);
    if b != JoinOf(def, fork) {
      RegionGoesOn(def, fork, a, step, b);
    }
  }

  lemma KnownReference(def: Definition, step: Step, b: string)
    requires GoodStep(def, step) && b in ExplicitRefs(step)
    ensures b in Ids(def)
  {
    var i :| 0 <= i < |ExplicitRefs(step)| && ExplicitRefs(step)[i] == b;
  }

  lemma OffPathHasNoNext(def: Definition, id: string)
    requires UniqueIds(def.steps) && !OnPath(def, id)
    ensures NextNormal(Linear(def), id).None?
  {
    hide OnPath, NormalSteps;
    forall i | 0 <= i < |Linear(def)| ensures Linear(def)[i].id != id {
      LinearIsOnPath(def, i);
    }
    NotListedHasNoNext(Linear(def), id);
  }

  lemma {:induction false} NotListedHasNoNext(normal: seq<Step>, id: string)
    requires forall i :: 0 <= i < |normal| ==> normal[i].id != id
    ensures NextNormal(normal, id).None?
  {
    if |normal| >= 2 {
      NotListedHasNoNext(normal[1..], id);
    }
  }

  lemma HasEdgesIsKnown(def: Definition, a: string, b: string)
    requires b in Succ(RunGraph(def), a)
    ensures a in Ids(def)
  {
    hide RunRefs;
  }

  /** Along a walk from a step of the linear path to a step with successors, every return is a path of the checked
      graph. */
  lemma {:induction false} WalkReturns(def: Definition, p: seq<string>)
    requires Disciplined(def) && EnteredByForks(def) && Path(RunGraph(def), p) && OnPath(def, p[0])
    requires OnPath(def, p[|p| - 1]) || Succ(RunGraph(def), p[|p| - 1]) != []
    ensures Excursion(def, p[0], p[|p| - 1])
    ensures |p| >= 2 && OnPath(def, p[|p| - 1]) ==> Onward(CheckedGraph(def), p[0], p[|p| - 1])
    decreases |p|
  {
    hide Tame, JoinsApart, EnteredByForks, RunGraph, OnPath, CheckedGraph, Onward, WithinFork;
    if |p| >= 2 {
      var n := |p| - 1;
      assert p[n - 1 + 1] in Succ(RunGraph(def), p[n - 1]);
      assert Path(RunGraph(def), p[..n]);
      WalkReturns(def, p[..n]);
      if OnPath(def, p[n - 1]) && AtOrAfter(def, p[0], p[n - 1]) {
        FromPath(def, p[0], p[n - 1], p[n]);
      } else {
        var f :| WithinFork(def, p[0], f, p[n - 1]);
        FromBranch(def, p[0], f, p[n - 1], p[n]);
      }
    }
  }

  /** A cycle can be walked from any of its nodes. */
  lemma CycleFrom(g: Graph, p: seq<string>, i: nat) returns (q: seq<string>)
    requires IsCycle(g, p) && i < |p|
    ensures IsCycle(g, q) && q[0] == p[i]
  {
    q := p[i..] + p[1..i + 1];
    forall k | 0 <= k < |q| - 1 ensures q[k + 1] in Succ(g, q[k]) {
      if k < |p| - i - 1 {
        assert p[i + k + 1] in Succ(g, p[i + k]);
      } else {
        var j := k - (|p| - i - 1);
        assert q[k] == p[j] && q[k + 1] == p[j + 1];
      }
    }
  }

  /** Every node of a cycle has a successor. */
  lemma CycleGoesOn(g: Graph, p: seq<string>, i: nat)
    requires IsCycle(g, p) && i < |p|
    ensures Succ(g, p[i]) != []
  {
    var j := if i == |p| - 1 then 0 else i;
    assert p[j + 1] in Succ(g, p[j]);
  }

  /** For an accepted definition whose branches are entered only by their forks, the machine can loop only within a branch:
      what the validator leaves unchecked and what can go round are the same. */
  lemma LoopsAreInBranches(def: Definition)
    requires Disciplined(def) && Accepted(def) && EnteredByForks(def)
    ensures HasCycle(RunGraph(def)) <==> HasCycle(BranchGraph(def))
  {
    hide Tame, JoinsApart, Accepted, EnteredByForks, RunGraph, BranchGraph;
    if HasCycle(RunGraph(def)) {
      var p :| Path(RunGraph(def), p) && |p| >= 2 && p[0] == p[|p| - 1];
      RunCycleIsInBranch(def, p);
    }
    if p :| Path(BranchGraph(def), p) && |p| >= 2 && p[0] == p[|p| - 1] {
      BranchPathIsRunPath(def, p);
    }
  }

  lemma BranchPathIsRunPath(def: Definition, p: seq<string>)
    requires Path(BranchGraph(def), p)
    ensures Path(RunGraph(def), p)
  {
    hide RunGraph, IsBranchStep;
    forall i | 0 <= i < |p| - 1 ensures p[i + 1] in Succ(RunGraph(def), p[i]) {
      assert p[i + 1] in Succ(BranchGraph(def), p[i]);
    }
  }

  lemma RunCycleIsInBranch(def: Definition, p: seq<string>)
    requires Disciplined(def) && Accepted(def) && EnteredByForks(def) && IsCycle(RunGraph(def), p)
    ensures HasCycle(BranchGraph(def))
  {
    hide Tame, JoinsApart, EnteredByForks, RunGraph, OnPath, CheckedGraph, Onward, BranchGraph, IsBranchStep, HasCycle;
    if i :| 0 <= i < |p| && OnPath(def, p[i]) {
      var q := CycleFrom(RunGraph(def), p, i);
      WalkReturns(def, q);
      OnwardToItself(CheckedGraph(def), q[0]);
      hide *;
      AcceptedHasNoCheckedCycle(def);
    } else {
      forall i: nat | i < |p| ensures IsBranchStep(def, p[i]) {
        CycleGoesOn(RunGraph(def), p, i);
        OffPathIsBranch(def, p[i]);
      }
      AllInBranch(def, p);
    }
  }

  lemma AcceptedHasNoCheckedCycle(def: Definition)
    requires Accepted(def)
    ensures !HasCycle(CheckedGraph(def))
  {
  }

  lemma AllInBranch(def: Definition, p: seq<string>)
    requires IsCycle(RunGraph(def), p) && forall i: nat :: i < |p| ==> IsBranchStep(def, p[i])
    ensures HasCycle(BranchGraph(def))
  {
    hide RunGraph, IsBranchStep;
    forall i | 0 <= i < |p| - 1 ensures p[i + 1] in Succ(BranchGraph(def), p[i]) {
      assert p[i + 1] in Succ(RunGraph(def), p[i]);
      HasEdgesIsKnown(def, p[i], p[i + 1]);
    }
    assert Path(BranchGraph(def), p);
  }

  /** So if the steps of branches do not refer to each other in a circle, every run of an accepted definition ends. */
  lemma AcceptedRunsEnd(def: Definition) returns (bound: nat)
    requires Disciplined(def) && Accepted(def) && EnteredByForks(def) && !HasCycle(BranchGraph(def))
    ensures forall events, a :: Run(MachineOf(def), events, a) ==> |events| <= bound
  {
    hide Tame, JoinsApart, Accepted, EnteredByForks, HasCycle, BranchGraph, RunGraph, Run, LoopFree;
    LoopsAreInBranches(def);
    NoCycleIsLoopFree(def);
    bound := EveryRunEnds(def);
  }
}
