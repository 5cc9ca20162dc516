/** Definitions of each of the shapes that break a promise, and of one that keeps them all. */
module Examples {
  import opened Workflow
  import opened Graph
  import opened Regions
  import opened Machines
  import opened Validator
  import opened ForkShape
  import opened Moves
  import opened Acceptance
  import opened Termination
  import opened Limits
  import opened Visits
  import UnseenLoops
  import NestedForks
  import StoredNames
  import SharedTails
  import Misfortunes

  const NO_CONFIG := Config("", "", "", "", None, 0, "")

  function Task(id: string, next: string): Step {
    Step(id, HttpRequest, NO_CONFIG.(next := next), None, "")
  }

  function ForkTo(id: string, heads: seq<string>, join: string): Step {
    Step(id, Fork, NO_CONFIG.(branches := Some(heads), join := join), None, "")
  }

  function JoinAt(id: string): Step {
    Step(id, Join, NO_CONFIG, None, "")
  }

  lemma NotBlankAt(id: string)
    requires id != "" && !IsSpace(id[0])
    ensures !IsBlank(id)
  {
  }

  lemma EarlyJoinExample()
    ensures EarlyJoin(Definition("early", 1, [ForkTo("f", ["j", "a"], "j"), Task("a", ""), JoinAt("j")]))
  {
    NotBlankAt("early");
    NotBlankAt("f");
    NotBlankAt("a");
    NotBlankAt("j");
    hide IsBlank;
  }

  lemma LoopExample()
    ensures UnseenLoops.Loop(
      Definition("loop", 1, [ForkTo("f", ["a"], "j"), Task("a", "b"), Task("b", "a"), JoinAt("j")]))
  {
    NotBlankAt("loop");
    NotBlankAt("f");
    NotBlankAt("a");
    NotBlankAt("b");
    NotBlankAt("j");
    hide IsBlank;
  }

  lemma DetourExample()
    ensures UnseenLoops.Detour(
      Definition("detour", 1, [ForkTo("f", ["a"], "j"), JoinAt("j"), Task("u", "a"), Task("a", "j")]))
  {
    NotBlankAt("detour");
    NotBlankAt("f");
    NotBlankAt("j");
    NotBlankAt("u");
    NotBlankAt("a");
    hide IsBlank;
  }

  lemma SharedTailExample()
    ensures SharedTails.Shared(
      Definition("shared", 1,
        [ForkTo("f", ["a", "b"], "j"), Task("a", "x"), Task("b", "x"), Task("x", "y"), Task("y", ""), JoinAt("j")]))
  {
    NotBlankAt("shared");
    NotBlankAt("f");
    NotBlankAt("a");
    NotBlankAt("b");
    NotBlankAt("x");
    NotBlankAt("y");
    NotBlankAt("j");
    hide IsBlank;
  }

  /** A task without retries, and one with three of them, compensated by a delay. */
  lemma TaskAndDelayExample(retries: Option<RetryPolicy>)
    requires retries.None? || retries == Some(RetryPolicy(3, Absent, Absent, 2.0))
    ensures Misfortunes.TaskAndDelay(
      Definition("undo", 1, [Step("a", HttpRequest, NO_CONFIG, retries, "d"),
                             Step("d", Delay, NO_CONFIG.(duration := 1), None, "")]))
  {
    NotBlankAt("undo");
    NotBlankAt("a");
    NotBlankAt("d");
    hide IsBlank;
  }

  lemma NestedExample()
    ensures NestedForks.Nested(
      Definition("nested", 1, [ForkTo("f", ["g"], "k"), ForkTo("g", ["a"], "j"), Task("a", ""), JoinAt("j"), JoinAt("k")]))
  {
    NotBlankAt("nested");
    NotBlankAt("f");
    NotBlankAt("g");
    NotBlankAt("a");
    NotBlankAt("j");
    NotBlankAt("k");
    hide IsBlank;
  }

  lemma StoredExample()
    ensures StoredNames.Stored(
      Definition("stored", 1,
        [ForkTo("f", ["t", "u"], "j"), Task("u", "t"),
         Step("t", Transform, NO_CONFIG.(resultKey := "next_step"), None, ""), JoinAt("j"), Task("z", "")]))
  {
    NotBlankAt("stored");
    NotBlankAt("f");
    NotBlankAt("u");
    NotBlankAt("t");
    NotBlankAt("j");
    NotBlankAt("z");
    hide IsBlank;
  }

  /** A fork with a branch of two tasks, the second of which names the join, and a branch of one; then the join. */
  predicate ForkOfTasks(def: Definition) {
    && !IsBlank(def.name) && def.version >= 1 && UniqueIds(def.steps) && |def.steps| == 5
    && IsFork(def.steps[0], def.steps[4].id) && |Heads(def.steps[0])| == 2
    && Heads(def.steps[0])[0] == def.steps[1].id && Heads(def.steps[0])[1] == def.steps[3].id
    && GoesTo(def.steps[1], def.steps[2].id) && GoesTo(def.steps[2], def.steps[4].id)
    && GoesTo(def.steps[3], "") && GoesTo(def.steps[4], "") && def.steps[4].kind.Join?
    && (forall i :: 1 <= i < 4 ==> def.steps[i].kind.HttpRequest?)
  }

  lemma FiveAreSteps(def: Definition)
    requires ForkOfTasks(def)
    ensures |def.steps| == 5 && UniqueIds(def.steps)
    ensures forall i :: 0 <= i < 5 ==>
      StepById(def.steps, def.steps[i].id) == Some(def.steps[i]) && def.steps[i].id != "" && def.steps[i].id in Ids(def)
  {
    forall i | 0 <= i < 5 ensures StepById(def.steps, def.steps[i].id) == Some(def.steps[i]) && def.steps[i].id != "" {
      StepByIdUnique(def.steps, i);
      NotBlank(def.steps[i].id);
    }
    hide StepById, IsBlank;
  }

  lemma FirstThreeFine(def: Definition)
    requires ForkOfTasks(def)
    ensures FineStep(def, 0) && ForwardStep(def, 0) && FineStep(def, 1) && ForwardStep(def, 1)
    ensures FineStep(def, 2) && ForwardStep(def, 2)
  {
    FiveAreSteps(def);
    assert Later(def, 0, def.steps[1].id) && Later(def, 0, def.steps[3].id) && Later(def, 0, def.steps[4].id);
    assert Later(def, 1, def.steps[2].id) && Later(def, 2, def.steps[4].id);
    hide Later, IsBlank, IsFork, FineStep, ForwardStep, GoesTo, StepById, Ids, UniqueIds;
    FineFork(def, 0, def.steps[4].id);
    FineTask(def, 1, def.steps[2].id);
    FineTask(def, 2, def.steps[4].id);
  }

  lemma ForkOfTasksAccepted(def: Definition)
    requires ForkOfTasks(def)
    ensures Accepted(def)
  {
    hide Accepted, FineStep, ForwardStep, IsNormal, IsBlank, IsFork, GoesTo;
    FirstThreeFine(def);
    FineTask(def, 3, "");
    FineTask(def, 4, "");
    assert Forward(def);
    hide Forward;
    AcceptedWhen(def);
  }

  lemma ForkOfTasksUnnamed(def: Definition)
    requires ForkOfTasks(def)
    ensures Unnamed(def, def.steps[0].id)
  {
    FiveAreSteps(def);
    hide IsBlank, StepById, Ids;
  }

  lemma ForkOfTasksTask(def: Definition, i: nat)
    requires ForkOfTasks(def) && 0 < i < 5
    ensures !def.steps[i].kind.Fork? && !def.steps[i].kind.Transform? && !def.steps[i].kind.Condition?
    ensures NamedRefs(def.steps[i]) == (if i == 1 then [def.steps[2].id] else if i == 2 then [def.steps[4].id] else [])
  {
    FiveAreSteps(def);
    hide IsBlank, UniqueIds, StepById, Ids;
  }

  lemma ForkOfTasksFork(def: Definition)
    requires ForkOfTasks(def)
    ensures JoinOf(def, def.steps[0]) == def.steps[4].id && def.steps[0].kind.Fork? && |def.steps| == 5
    ensures def.steps[4].id !in Heads(def.steps[0])
  {
    hide IsBlank;
  }

  /** The only fork is in no region. */
  lemma NoForkInside(def: Definition, id: string)
    requires ForkOfTasks(def) && InRegion(def, def.steps[0], id)
    ensures StepById(def.steps, id).Some? && !StepById(def.steps, id).value.kind.Fork?
  {
    hide *;
    ForkOfTasksFork(def);
    ForkOfTasksUnnamed(def);
    RegionIsNamed(def, def.steps[0], id);
    RegionAvoids(def, def.steps[0], id);
    KnownIds(def, id);
    var step := StepById(def.steps, id).value;
    var k :| 0 <= k < |def.steps| && def.steps[k] == step;
    if k > 0 {
      ForkOfTasksTask(def, k);
    }
  }

  lemma ForkOfTasksDisciplined(def: Definition)
    requires ForkOfTasks(def)
    ensures Disciplined(def)
  {
    ForkOfTasksAccepted(def);
    assert WellReferenced(def);
    ForkOfTasksFork(def);
    forall i: nat | 0 < i < 5 ensures !def.steps[i].kind.Fork? && !def.steps[i].kind.Transform? {
      ForkOfTasksTask(def, i);
    }
    hide ForkOfTasks, WellReferenced, InRegion, StepById, JoinOf, Heads, Accepted;
    forall i, id | 0 <= i < |def.steps| && def.steps[i].kind.Fork? && InRegion(def, def.steps[i], id)
      ensures !StepById(def.steps, id).value.kind.Fork?
    {
      NoForkInside(def, id);
    }
  }

  /** Which steps are on the linear path: the fork and the join. */
  lemma ForkOfTasksPath(def: Definition, i: nat)
    requires ForkOfTasks(def) && i < 5
    ensures OnPath(def, def.steps[i].id) <==> i == 0 || i == 4
    ensures IsBranchStep(def, def.steps[i].id) <==> 0 < i < 4
  {
    FiveAreSteps(def);
    if 0 < i < 4 {
      TaskInRegion(def, i);
      ForkOfTasksFork(def);
      hide *;
      RegionIsOffPath(def, def.steps[0], def.steps[i].id);
    } else {
      NotInBranch(def, i);
      assert CompensationRefs(def) == {} by { hide IsBlank, StepById; }
      hide IsBranchStep, StepById;
    }
  }

  lemma OnlyFork(def: Definition, id: string)
    requires ForkOfTasks(def) && IsBranchStep(def, id)
    ensures |def.steps| == 5 && InRegion(def, def.steps[0], id)
  {
    ForkOfTasksFork(def);
    var k :| 0 <= k < |def.steps| && def.steps[k].kind.Fork? && InRegion(def, def.steps[k], id);
    hide ForkOfTasks, InRegion, JoinOf, Heads;
    if k > 0 {
      ForkOfTasksTask(def, k);
    }
  }

  lemma NotInBranch(def: Definition, i: nat)
    requires ForkOfTasks(def) && (i == 0 || i == 4)
    ensures |def.steps| == 5 && !IsBranchStep(def, def.steps[i].id)
  {
    hide *;
    ForkOfTasksFork(def);
    ForkOfTasksUnnamed(def);
    var f, id := def.steps[0], def.steps[i].id;
    if IsBranchStep(def, id) {
      OnlyFork(def, id);
      RegionIsNamed(def, f, id);
      RegionAvoids(def, f, id);
    }
  }

  lemma TaskInRegion(def: Definition, i: nat)
    requires ForkOfTasks(def) && 0 < i < 4
    ensures |def.steps| == 5 && InRegion(def, def.steps[0], def.steps[i].id)
  {
    FiveAreSteps(def);
    ForkOfTasksFork(def);
    var f, a, b := def.steps[0], def.steps[1], def.steps[2];
    assert BranchRefs(a)[0] == b.id;
    assert a.id != def.steps[4].id && b.id != def.steps[4].id && def.steps[3].id != def.steps[4].id;
    assert |Heads(f)| == 2 && Heads(f)[0] == a.id && Heads(f)[1] == def.steps[3].id;
    hide ForkOfTasks, StepById, JoinOf, InRegion, BranchRefs, Heads, Ids, UniqueIds;
    HeadInRegion(def, f, 0);
    HeadInRegion(def, f, 1);
    if i == 2 {
      RegionGoesOn(def, f, a.id, a, b.id);
    }
  }

  lemma StepNumber(def: Definition, id: string) returns (k: nat)
    requires ForkOfTasks(def) && id in Ids(def)
    ensures |def.steps| == 5 && k < 5 && def.steps[k].id == id
  {
    FiveAreSteps(def);
    k :| 0 <= k < |def.steps| && def.steps[k].id == id;
  }

  lemma PathHasTwo(def: Definition, id: string)
    requires ForkOfTasks(def) && OnPath(def, id)
    ensures |def.steps| == 5 && (id == def.steps[0].id || id == def.steps[4].id)
  {
    KnownIds(def, id);
    hide IsNormal, Ids, ForkOfTasks, StepById;
    var k := StepNumber(def, id);
    ForkOfTasksPath(def, k);
  }

  lemma OffPathIsInBranch(def: Definition, id: string)
    requires ForkOfTasks(def) && id in Ids(def) && !OnPath(def, id)
    ensures IsBranchStep(def, id)
  {
    hide *;
    var k := StepNumber(def, id);
    ForkOfTasksPath(def, k);
  }

  lemma JoinRefersToNothing(def: Definition, id: string)
    requires ForkOfTasks(def) && OnPath(def, id) && !StepById(def.steps, id).value.kind.Fork?
    ensures AvoidsBranches(def, id)
  {
    FiveAreSteps(def);
    ForkOfTasksFork(def);
    PathHasTwo(def, id);
    ForkOfTasksTask(def, 4);
    hide ForkOfTasks, IsBranchStep, IsNormal, NamedRefs, StepById;
  }

  lemma JoinIsOnPath(def: Definition, id: string)
    requires ForkOfTasks(def) && OnPath(def, id) && StepById(def.steps, id).value.kind.Fork?
    ensures OnPath(def, JoinOf(def, StepById(def.steps, id).value))
  {
    FiveAreSteps(def);
    ForkOfTasksFork(def);
    PathHasTwo(def, id);
    ForkOfTasksPath(def, 4);
    ForkOfTasksTask(def, 4);
    hide ForkOfTasks, IsNormal, JoinOf, StepById, NamedRefs;
  }

  lemma ForkOfTasksEntered(def: Definition)
    requires ForkOfTasks(def)
    ensures EnteredByForks(def)
  {
    hide ForkOfTasks, IsBranchStep, IsNormal, JoinOf, AvoidsBranches, RunGraph, StepById, Ids;
    forall id | OnPath(def, id) && StepById(def.steps, id).value.kind.Fork?
      ensures OnPath(def, JoinOf(def, StepById(def.steps, id).value))
    {
      JoinIsOnPath(def, id);
    }
    forall id | OnPath(def, id) && !StepById(def.steps, id).value.kind.Fork? ensures AvoidsBranches(def, id) {
      JoinRefersToNothing(def, id);
    }
    forall id | id in Ids(def) ensures OnPath(def, id) || IsBranchStep(def, id) {
      if !OnPath(def, id) {
        OffPathIsInBranch(def, id);
      }
    }
  }

  /** Within the branches the first task leads to the second, and that to the join. */
  lemma BranchEdges(def: Definition, i: nat)
    requires ForkOfTasks(def) && i < 5
    ensures |def.steps| == 5
    ensures Succ(BranchGraph(def), def.steps[i].id) ==
      if i == 1 then [def.steps[2].id] else if i == 2 then [def.steps[4].id] else []
  {
    FiveAreSteps(def);
    ForkOfTasksPath(def, i);
    if 0 < i < 4 {
      TaskEdges(def, i);
    }
    hide ForkOfTasks, IsBranchStep, OnPath, RunGraph, StepById;
  }

  lemma TaskEdges(def: Definition, i: nat)
    requires ForkOfTasks(def) && 0 < i < 4
    ensures |def.steps| == 5
    ensures Succ(RunGraph(def), def.steps[i].id) ==
      if i == 1 then [def.steps[2].id] else if i == 2 then [def.steps[4].id] else []
  {
    hide ForkOfTasks, IsBranchStep, OnPath, NamedRefs, StepById, RunGraph, NormalSteps, JoinOf, Heads;
    FiveAreSteps(def);
    ForkOfTasksPath(def, i);
    ForkOfTasksTask(def, i);
    RunGraphAt(def, def.steps[i].id, def.steps[i]);
    OffPathHasNoNext(def, def.steps[i].id);
  }

  lemma BranchEdge(def: Definition, a: string, b: string)
    requires ForkOfTasks(def) && b in Succ(BranchGraph(def), a)
    ensures |def.steps| == 5
    ensures (a == def.steps[1].id && b == def.steps[2].id) || (a == def.steps[2].id && b == def.steps[4].id)
  {
    hide *;
    FiveAreSteps(def);
    BranchNodeIsStep(def, a);
    var k :| 0 <= k < |def.steps| && def.steps[k].id == a;
    BranchEdges(def, k);
  }

  /** From the second task there is only the join, and from there nothing. */
  lemma BranchesHaveNoLoop(def: Definition)
    requires ForkOfTasks(def)
    ensures !HasCycle(BranchGraph(def))
  {
    hide ForkOfTasks, BranchGraph, Path, UniqueIds;
    if HasCycle(BranchGraph(def)) {
      var p :| Path(BranchGraph(def), p) && |p| >= 2 && p[0] == p[|p| - 1];
      var b, c, d := ThreeOn(BranchGraph(def), p);
      FiveAreSteps(def);
      Distinct5(def);
      BranchEdge(def, p[0], b);
      BranchEdge(def, b, c);
      BranchEdge(def, c, d);
    }
  }

  lemma Distinct5(def: Definition)
    requires |def.steps| == 5 && UniqueIds(def.steps)
    ensures def.steps[1].id != def.steps[2].id && def.steps[1].id != def.steps[4].id && def.steps[2].id != def.steps[4].id
  {
  }

  lemma BranchNodeIsStep(def: Definition, a: string)
    requires Succ(BranchGraph(def), a) != []
    ensures exists k :: 0 <= k < |def.steps| && def.steps[k].id == a
  {
    hide IsBranchStep, RunGraph;
  }

  lemma {:induction false} StaysWithin(g: Graph, p: seq<string>, ids: set<string>)
    requires Path(g, p) && p[0] in ids && forall a, b :: a in ids && b in Succ(g, a) ==> b in ids
    ensures p[|p| - 1] in ids
    decreases |p|
  {
    if |p| > 1 {
      PathTail(g, p);
      StaysWithin(g, p[1..], ids);
    }
  }

  /** The references within the branches. */
  lemma RegionEdges(def: Definition, i: nat, b: string)
    requires ForkOfTasks(def) && 0 < i < 5 && b in Succ(RegionGraph(def, def.steps[4].id), def.steps[i].id)
    ensures (i == 1 && b == def.steps[2].id) || (i == 2 && b == def.steps[4].id)
  {
    FiveAreSteps(def);
    var id := def.steps[i].id;
    if i < 4 {
      Distinct5(def);
      assert id != def.steps[4].id by { DistinctFromJoin(def, i); }
      RegionGraphAt(def, def.steps[4].id, id);
      TaskBranchRefs(def, i);
    }
    hide ForkOfTasks, StepById, BranchRefs, UniqueIds, Ids;
  }

  lemma DistinctFromJoin(def: Definition, i: nat)
    requires ForkOfTasks(def) && i < 4
    ensures |def.steps| == 5 && def.steps[i].id != def.steps[4].id
  {
    hide IsBlank;
  }

  lemma TaskBranchRefs(def: Definition, i: nat)
    requires ForkOfTasks(def) && 0 < i < 5
    ensures |def.steps| == 5
    ensures BranchRefs(def.steps[i]) == (if i == 1 then [def.steps[2].id] else if i == 2 then [def.steps[4].id] else [])
  {
    FiveAreSteps(def);
    hide IsBlank, UniqueIds, StepById, Ids;
  }

  /** The steps of one branch, and the join. */
  function BranchIds(def: Definition, i: int): set<string>
    requires |def.steps| == 5
  {
    if i == 0 then {def.steps[1].id, def.steps[2].id, def.steps[4].id} else {def.steps[3].id}
  }

  lemma BranchIdsClosed(def: Definition, i: int, a: string, b: string)
    requires ForkOfTasks(def) && |def.steps| == 5 && a in BranchIds(def, i)
    requires b in Succ(RegionGraph(def, def.steps[4].id), a)
    ensures b in BranchIds(def, i)
  {
    hide *;
    var k := BranchNumber(def, i, a);
    RegionEdges(def, k, b);
    BranchIdsHold(def);
  }

  lemma BranchNumber(def: Definition, i: int, a: string) returns (k: nat)
    requires |def.steps| == 5 && a in BranchIds(def, i)
    ensures 0 < k < 5 && def.steps[k].id == a && (k == 3 <==> i != 0)
  {
    k := if i != 0 then 3 else if a == def.steps[1].id then 1 else if a == def.steps[2].id then 2 else 4;
  }

  lemma BranchIdsHold(def: Definition)
    requires |def.steps| == 5
    ensures def.steps[2].id in BranchIds(def, 0) && def.steps[4].id in BranchIds(def, 0)
  {
  }

  lemma DistinctFromThird(def: Definition)
    requires |def.steps| == 5 && UniqueIds(def.steps)
    ensures def.steps[3].id != def.steps[1].id && def.steps[3].id != def.steps[2].id && def.steps[3].id != def.steps[4].id
  {
  }

  lemma InBranchPath(def: Definition, f: string, i: int, id: string) returns (p: seq<string>)
    requires InBranchOf(def, f, i, id) && StepById(def.steps, f).Some?
    ensures var fork := StepById(def.steps, f).value;
      && fork.kind.Fork? && 0 <= i < |Heads(fork)| && id != JoinOf(def, fork)
      && PathFromTo(RegionGraph(def, JoinOf(def, fork)), p, Heads(fork)[i], id)
  {
    var fork := StepById(def.steps, f).value;
    hide JoinOf, Heads, StepById;
    p :| PathFromTo(RegionGraph(def, JoinOf(def, fork)), p, Heads(fork)[i], id);
  }

  /** What belongs to which branch. */
  lemma WhichBranch(def: Definition, f: string, i: int, id: string)
    requires ForkOfTasks(def) && InBranchOf(def, f, i, id)
    ensures |def.steps| == 5 && f == def.steps[0].id
    ensures (i == 0 && (id == def.steps[1].id || id == def.steps[2].id)) || (i == 1 && id == def.steps[3].id)
  {
    hide *;
    BranchIsOfFork(def, f, i, id);
    FiveAreSteps(def);
    ForkOfTasksFork(def);
    ForkOfTasksHeads(def);
    OnlyForkStep(def, f);
    var p := InBranchPath(def, f, i, id);
    var g := RegionGraph(def, def.steps[4].id);
    forall a, b | a in BranchIds(def, i) && b in Succ(g, a) ensures b in BranchIds(def, i) {
      BranchIdsClosed(def, i, a, b);
    }
    HeadIsIn(def, i);
    PathEnds(g, p, Heads(def.steps[0])[i], id);
    StaysWithin(g, p, BranchIds(def, i));
    NotTheJoin(def, i, id);
  }

  lemma PathEnds(g: Graph, p: seq<string>, a: string, b: string)
    requires PathFromTo(g, p, a, b)
    ensures p != [] && Path(g, p) && p[0] == a && p[|p| - 1] == b
  {
  }

  lemma HeadIsIn(def: Definition, i: int)
    requires |def.steps| == 5
    ensures i == 0 ==> def.steps[1].id in BranchIds(def, i)
    ensures i == 1 ==> def.steps[3].id in BranchIds(def, i)
  {
  }

  lemma NotTheJoin(def: Definition, i: int, id: string)
    requires |def.steps| == 5 && id in BranchIds(def, i) && id != def.steps[4].id
    ensures if i == 0 then id == def.steps[1].id || id == def.steps[2].id else id == def.steps[3].id
  {
  }

  lemma ForkOfTasksHeads(def: Definition)
    requires ForkOfTasks(def)
    ensures |def.steps| == 5 && |Heads(def.steps[0])| == 2
    ensures Heads(def.steps[0])[0] == def.steps[1].id && Heads(def.steps[0])[1] == def.steps[3].id
  {
    hide IsBlank;
  }

  lemma OnlyForkStep(def: Definition, f: string)
    requires ForkOfTasks(def) && StepById(def.steps, f).Some? && StepById(def.steps, f).value.kind.Fork?
    ensures |def.steps| == 5 && f == def.steps[0].id
  {
    var step := StepById(def.steps, f).value;
    var k :| 0 <= k < |def.steps| && def.steps[k] == step;
    FiveAreSteps(def);
    hide ForkOfTasks, StepById;
    if k > 0 {
      ForkOfTasksTask(def, k);
    }
  }

  lemma NothingIsShared(def: Definition, id: string)
    requires ForkOfTasks(def)
    ensures !IsShared(def, id)
  {
    FiveAreSteps(def);
    DistinctFromThird(def);
    hide ForkOfTasks, InBranchOf, UniqueIds, StepById, Ids;
    forall f, i, g, j ensures !InTwo(def, f, i, g, j, id) {
      if InTwo(def, f, i, g, j, id) {
        WhichBranch(def, f, i, id);
        WhichBranch(def, g, j, id);
      }
    }
  }

  /** Where an edge into a branch comes from. */
  lemma EntersFrom(def: Definition, f: string, i: int, a: string, b: string)
    requires ForkOfTasks(def) && Disciplined(def) && b in Succ(RunGraph(def), a) && InBranchOf(def, f, i, b)
    ensures a == f || InBranchOf(def, f, i, a)
  {
    hide *;
    FiveAreSteps(def);
    Distinct5(def);
    DistinctFromThird(def);
    WhichBranch(def, f, i, b);
    BranchIsBranchStep(def, f, i, b);
    HasEdgesIsKnown(def, a, b);
    var k := StepNumber(def, a);
    if 0 < k < 4 {
      TaskEdges(def, k);
      if i == 0 && k == 1 {
        ForkOfTasksFork(def);
        ForkOfTasksHeads(def);
        DisciplinedIs(def);
        StepIsHere(def, def.steps[0].id);
        HeadIsNext(def, def.steps[0].id, def.steps[0], 0);
      }
    } else if k == 4 {
      JoinEdges(def, b);
    }
  }

  lemma JoinEdges(def: Definition, b: string)
    requires ForkOfTasks(def) && Disciplined(def) && |def.steps| == 5 && b in Succ(RunGraph(def), def.steps[4].id)
    ensures !IsBranchStep(def, b)
  {
    FiveAreSteps(def);
    ForkOfTasksTask(def, 4);
    hide ForkOfTasks, Tame, JoinsApart, IsBranchStep, NamedRefs, StepById, RunGraph, NormalSteps, Ids, UniqueIds;
    StepIsHere(def, def.steps[4].id);
    RunEdgeKinds(def, def.steps[4].id, def.steps[4], b);
    LinearNextOnPath(def, def.steps[4].id);
  }

  lemma ForkOfTasksSeparate(def: Definition)
    requires ForkOfTasks(def)
    ensures Separate(def)
  {
    ForkOfTasksDisciplined(def);
    hide ForkOfTasks, Disciplined, RunGraph, InBranchOf, IsShared, Outside;
    forall a ensures !IsShared(def, a) {
      NothingIsShared(def, a);
    }
    forall f, i, a, b | b in Succ(RunGraph(def), a) && InBranchOf(def, f, i, b)
      ensures a == f || InBranchOf(def, f, i, a)
    {
      EntersFrom(def, f, i, a, b);
    }
  }

  /** Such a definition meets every condition of the promises, and all its runs end. */
  lemma ForkOfTasksKeepsPromises(def: Definition)
    requires ForkOfTasks(def)
    ensures Accepted(def) && Disciplined(def) && EnteredByForks(def) && !HasCycle(RunGraph(def)) && LoopFree(def)
    ensures Separate(def)
  {
    ForkOfTasksSeparate(def);
    hide Accepted, Tame, JoinsApart, Separate, EnteredByForks, RunGraph, BranchGraph, HasCycle, LoopFree;
    ForkOfTasksAccepted(def);
    ForkOfTasksDisciplined(def);
    ForkOfTasksEntered(def);
    BranchesHaveNoLoop(def);
    LoopsAreInBranches(def);
    NoCycleIsLoopFree(def);
  }

  lemma ForkOfTasksExample()
    ensures ForkOfTasks(
      Definition("plain", 1,
        [ForkTo("f", ["a", "c"], "j"), Task("a", "b"), Task("b", "j"), Task("c", ""), JoinAt("j")]))
  {
    NotBlankAt("plain");
    NotBlankAt("f");
    NotBlankAt("a");
    NotBlankAt("b");
    NotBlankAt("c");
    NotBlankAt("j");
    hide IsBlank;
  }

  /** A fork of two tasks that names no join; both tasks name the join step listed after them. */
  predicate DefaultJoin(def: Definition) {
    && !IsBlank(def.name) && def.version >= 1 && UniqueIds(def.steps) && |def.steps| == 4
    && def.steps[0].kind.Fork? && Plain(def.steps[0]) && def.steps[0].config.next == "" && def.steps[0].config.join == ""
    && def.steps[0].config.branches == Some([def.steps[1].id, def.steps[2].id])
    && def.steps[1].kind.HttpRequest? && GoesTo(def.steps[1], def.steps[3].id)
    && def.steps[2].kind.HttpRequest? && GoesTo(def.steps[2], def.steps[3].id)
    && def.steps[3].kind.Join? && GoesTo(def.steps[3], "")
  }

  lemma DefaultJoinSteps(def: Definition)
    requires DefaultJoin(def)
    ensures |def.steps| == 4 && UniqueIds(def.steps)
    ensures forall i :: 0 <= i < 4 ==> def.steps[i].id != "" && def.steps[i].id in Ids(def) && !IsBlank(def.steps[i].id)
    ensures def.steps[1].id != def.steps[2].id
    ensures def.steps[3].id != def.steps[1].id && def.steps[3].id != def.steps[2].id
    ensures forall i :: 1 <= i < 4 ==> def.steps[i].id != def.steps[0].id
  {
    forall i | 0 <= i < 4 ensures def.steps[i].id != "" {
      NotBlank(def.steps[i].id);
    }
    hide IsBlank;
  }

  /** Its join is that step, as FirstJoinLaw says. */
  lemma DefaultJoinIs(def: Definition)
    requires DefaultJoin(def)
    ensures |def.steps| == 4 && JoinOf(def, def.steps[0]) == def.steps[3].id && Heads(def.steps[0]) == [def.steps[1].id, def.steps[2].id]
  {
    JoinOfLaw(def, 0);
    assert IsNextJoin(def.steps, 0, 3);
    hide IsBlank, UniqueIds, FirstJoin;
  }

  lemma DefaultJoinFork(def: Definition)
    requires DefaultJoin(def)
    ensures |def.steps| == 4 && FineStep(def, 0) && ForwardStep(def, 0)
  {
    DefaultJoinSteps(def);
    DefaultJoinIs(def);
    assert Later(def, 0, def.steps[1].id) && Later(def, 0, def.steps[2].id);
    hide IsBlank, UniqueIds, JoinOf, Ids, Later;
    assert ExplicitRefs(def.steps[0]) == [def.steps[1].id, def.steps[2].id];
  }

  lemma DefaultJoinTask(def: Definition, k: nat)
    requires DefaultJoin(def) && 0 < k < 4
    ensures |def.steps| == 4 && FineStep(def, k) && ForwardStep(def, k)
  {
    DefaultJoinSteps(def);
    assert Later(def, 1, def.steps[3].id) && Later(def, 2, def.steps[3].id);
    hide Later, IsBlank, FineStep, ForwardStep, GoesTo, Ids, UniqueIds;
    FineTask(def, k, if k < 3 then def.steps[3].id else "");
  }

  lemma DefaultJoinUnnamed(def: Definition)
    requires DefaultJoin(def)
    ensures |def.steps| == 4 && Unnamed(def, def.steps[0].id)
    ensures forall i :: 0 < i < 4 ==> !def.steps[i].kind.Fork? && !def.steps[i].kind.Transform?
  {
    DefaultJoinSteps(def);
    DefaultJoinIs(def);
    hide IsBlank, UniqueIds, JoinOf, Ids;
  }

  /** The validator accepts it, and it keeps the discipline of forks. */
  lemma DefaultJoinKeepsPromises(def: Definition)
    requires DefaultJoin(def)
    ensures Accepted(def) && Disciplined(def) && |def.steps| == 4
    ensures JoinOf(def, def.steps[0]) == def.steps[3].id
  {
    DefaultJoinSteps(def);
    DefaultJoinIs(def);
    DefaultJoinFork(def);
    DefaultJoinUnnamed(def);
    forall k: nat | k < 4 ensures FineStep(def, k) && ForwardStep(def, k) {
      if k > 0 {
        DefaultJoinTask(def, k);
      }
    }
    assert def.steps[0].kind.Fork? && !IsBlank(def.name) && def.version >= 1;
    assert def.steps[3].id !in Heads(def.steps[0]);
    hide *;
    IsForward(def);
    AcceptedWhen(def);
    AcceptedIsReferenced(def);
    IsOneFork(def);
    OneForkIsDisciplined(def);
  }

  lemma DefaultJoinExample()
    ensures DefaultJoin(
      Definition("default", 1, [ForkTo("f", ["a", "b"], ""), Task("a", "j"), Task("b", "j"), JoinAt("j")]))
  {
    NotBlankAt("default");
    NotBlankAt("f");
    NotBlankAt("a");
    NotBlankAt("b");
    NotBlankAt("j");
    hide IsBlank;
  }
}
