/** Where the promises about forks and termination end: definitions the validator accepts, and runs of them that break
    each promise. They are the reason for the conditions of Disciplined, and for the one on the run graph. */
module Limits {
  import opened Workflow
  import opened Graph
  import opened Regions
  import opened Machines
  import opened Validator
  import opened Interpreter
  import opened Rows
  import opened ForkShape
  import opened Moves
  import opened Runs
  import opened Acceptance

  /** One more event of a run without failures. */
  lemma Continue(m: Machine, events: seq<Event>, a: Progress, e: Event, b: Progress)
    requires SmoothRun(m, events, a) && Enabled(m, a, e) && b == Next(m, a, e) && (e.Start? || e.Finish? || e.Halt?)
    ensures SmoothRun(m, events + [e], b)
  {
    hide Enabled, Next;
    RunExtends(m, events, a, e);
  }

  /** Nothing refers to `id`: it heads no branch, no step names it as its successor or its compensation. */
  predicate Unnamed(def: Definition, id: string) {
    forall i :: 0 <= i < |def.steps| ==>
      (def.steps[i].kind.Fork? ==> id !in Heads(def.steps[i])) && id !in BranchRefs(def.steps[i]) &&
      id != def.steps[i].onFailure
  }

  /** Whatever is in a region is a head or a reference. */
  lemma RegionIsNamed(def: Definition, fork: Step, id: string)
    requires InRegion(def, fork, id) && fork in def.steps && fork.kind.Fork?
    ensures !Unnamed(def, id)
  {
    hide BranchRefs, JoinOf, StepById, Heads;
    var join := JoinOf(def, fork);
    var g := RegionGraph(def, join);
    var k :| 0 <= k < |def.steps| && def.steps[k] == fork;
    var i :| 0 <= i < |Heads(fork)| && InRegionOfHead(def, join, Heads(fork)[i], id);
    var p :| PathFromTo(g, p, Heads(fork)[i], id);
    if |p| > 1 {
      assert p[|p| - 2 + 1] in Succ(g, p[|p| - 2]);
      RegionGraphAt(def, join, p[|p| - 2]);
      var step := StepById(def.steps, p[|p| - 2]).value;
      assert step in def.steps;
    }
  }

  /** A step nothing refers to is on the linear path. */
  lemma UnnamedIsNormal(def: Definition, step: Step)
    requires Unnamed(def, step.id)
    ensures IsNormal(def, step)
  {
    hide BranchRefs, Heads, InRegion;
    assert step.id !in CompensationRefs(def);
    if IsBranchStep(def, step.id) {
      var k :| 0 <= k < |def.steps| && def.steps[k].kind.Fork? && InRegion(def, def.steps[k], step.id);
      hide *;
      RegionIsNamed(def, def.steps[k], step.id);
    }
  }

  /** Some step listed after step `k` has this id. */
  predicate Later(def: Definition, k: int, id: string) {
    exists l :: k < l < |def.steps| && 0 <= l && def.steps[l].id == id
  }

  /** The references of the steps of the linear path lead to steps listed later. */
  ghost predicate Forward(def: Definition) {
    forall k :: 0 <= k < |def.steps| && IsNormal(def, def.steps[k]) ==> ForwardStep(def, k)
  }

  predicate ForwardStep(def: Definition, k: int)
    requires 0 <= k < |def.steps|
  {
    && (forall i :: 0 <= i < |ExplicitRefs(def.steps[k])| ==> Later(def, k, ExplicitRefs(def.steps[k])[i]))
    && (def.steps[k].onFailure != "" ==> Later(def, k, def.steps[k].onFailure))
  }

  /** The step after another on the linear path is listed after it. */
  lemma NextOnPathIsLater(def: Definition, i: nat, k: nat)
    requires UniqueIds(def.steps) && i + 1 < |Linear(def)| && k < |def.steps| && Linear(def)[i] == def.steps[k]
    requires IsNormal(def, def.steps[k])
    ensures Later(def, k, Linear(def)[i + 1].id)
  {
    hide IsNormal;
    var l := NormalStepIsStep(def, |def.steps|, i + 1);
    NormalStepsUnique(def, |def.steps|);
    if l < k {
      var a, b := LinearInOrder(def, l, k);
    }
  }

  lemma CheckedEdgeIsLater(def: Definition, k: nat, b: string)
    requires UniqueIds(def.steps) && Forward(def) && k < |def.steps| && b in Succ(CheckedGraph(def), def.steps[k].id)
    ensures Later(def, k, b)
  {
    var id := def.steps[k].id;
    StepByIdUnique(def.steps, k);
    hide UniqueIds;
    if OnPath(def, id) {
      var i := PathPosition(def, id);
      assert ForwardStep(def, k);
      hide IsNormal, CheckedGraph, Later, ExplicitRefs, StepById;
      if i + 1 < |Linear(def)| && b == Linear(def)[i + 1].id {
        NextOnPathIsLater(def, i, k);
      }
    } else {
      hide IsNormal, StepById, Forward;
      forall i | 0 <= i < |Linear(def)| ensures Linear(def)[i].id != id {
        LinearIsOnPath(def, i);
      }
      EdgesOfOthers(Linear(def), |Linear(def)|, id);
    }
  }

  /** All edges of `g` lead from steps to steps listed later. */
  ghost predicate LeadsForward(def: Definition, g: Graph) {
    && (forall k, b :: 0 <= k < |def.steps| && b in Succ(g, def.steps[k].id) ==> Later(def, k, b))
    && (forall a :: Succ(g, a) != [] ==> exists k :: 0 <= k < |def.steps| && def.steps[k].id == a)
  }

  lemma {:induction false} PathGoesForward(def: Definition, g: Graph, p: seq<string>, k: nat)
    requires LeadsForward(def, g) && Path(g, p) && |p| >= 2
    requires k < |def.steps| && def.steps[k].id == p[0]
    ensures Later(def, k, p[|p| - 1])
    decreases |p|
  {
    assert p[0 + 1] in Succ(g, p[0]);
    if |p| > 2 {
      var l :| k < l < |def.steps| && def.steps[l].id == p[1];
      PathTail(g, p);
      PathGoesForward(def, g, p[1..], l);
      hide Path, LeadsForward;
    }
  }

  /** When edges only lead forward, there is no cycle. */
  lemma ForwardHasNoCycle(def: Definition, g: Graph)
    requires UniqueIds(def.steps) && LeadsForward(def, g)
    ensures !HasCycle(g)
  {
    hide LeadsForward;
    if p :| Path(g, p) && |p| >= 2 && p[0] == p[|p| - 1] {
      assert p[0 + 1] in Succ(g, p[0]);
      var k := StartsAtStep(def, g, p[0]);
      PathGoesForward(def, g, p, k);
    }
  }

  lemma StartsAtStep(def: Definition, g: Graph, a: string) returns (k: nat)
    requires LeadsForward(def, g) && Succ(g, a) != []
    ensures k < |def.steps| && def.steps[k].id == a
  {
    k :| 0 <= k < |def.steps| && def.steps[k].id == a;
  }

  /** When references of the linear path only lead forward, the validator finds no cycle. */
  lemma ForwardIsAcyclic(def: Definition)
    requires UniqueIds(def.steps) && Forward(def)
    ensures !HasCycle(CheckedGraph(def))
  {
    var g := CheckedGraph(def);
    hide CheckedGraph, Forward, Later, UniqueIds;
    forall k, b | 0 <= k < |def.steps| && b in Succ(g, def.steps[k].id) ensures Later(def, k, b) {
      CheckedEdgeIsLater(def, k, b);
    }
    forall a | Succ(g, a) != [] ensures exists k :: 0 <= k < |def.steps| && def.steps[k].id == a {
      EdgesStartAtSteps(def, a);
    }
    ForwardHasNoCycle(def, g);
  }

  lemma RunEdgeIsLater(def: Definition, k: nat, b: string)
    requires UniqueIds(def.steps) && k < |def.steps| && ForwardStep(def, k) && b in Succ(RunGraph(def), def.steps[k].id)
    requires def.steps[k].kind.Fork? ==> def.steps[k].config.join != ""
    ensures Later(def, k, b)
  {
    var step := def.steps[k];
    StepByIdUnique(def.steps, k);
    RunEdgeKinds(def, step.id, step, b);
    hide Later, RunGraph, ExplicitRefs, NamedRefs, StepById, Heads, NextNormal;
    if step.kind.Fork? {
      ForkRefs(step, 0);
      if b in Heads(step) {
        HeadIsExplicit(step, b);
      }
    } else if b in NamedRefs(step) {
      NamedIsExplicit(step, b);
    } else {
      LinearNextIsLater(def, k, b);
    }
  }

  lemma LinearNextIsLater(def: Definition, k: nat, b: string)
    requires UniqueIds(def.steps) && k < |def.steps| && IsLinearNext(def, def.steps[k], b)
    ensures Later(def, k, b)
  {
    StepByIdUnique(def.steps, k);
    hide Later, StepById, NormalSteps, IsNormal;
    if OnPath(def, def.steps[k].id) {
      var i := PathPosition(def, def.steps[k].id);
      NextNormalIs(Linear(def), i);
      NextOnPathIsLater(def, i, k);
    } else {
      OffPathHasNoNext(def, def.steps[k].id);
    }
  }

  /** When the references of all steps only lead forward, nothing can go round. */
  lemma AllForwardHasNoLoop(def: Definition)
    requires UniqueIds(def.steps)
    requires forall k: nat :: k < |def.steps| ==> ForwardStep(def, k)
    requires forall k: nat :: k < |def.steps| && def.steps[k].kind.Fork? ==> def.steps[k].config.join != ""
    ensures !HasCycle(RunGraph(def))
  {
    var g := RunGraph(def);
    forall k: nat, b | k < |def.steps| && b in Succ(g, def.steps[k].id) ensures Later(def, k, b) {
      RunEdgeIsLater(def, k, b);
    }
    forall a | Succ(g, a) != [] ensures exists k :: 0 <= k < |def.steps| && def.steps[k].id == a {
      HasEdgesIsKnown(def, a, Succ(g, a)[0]);
    }
    hide RunGraph, ForwardStep, Later, UniqueIds;
    ForwardHasNoCycle(def, g);
  }

  lemma EdgesStartAtSteps(def: Definition, a: string)
    requires Succ(CheckedGraph(def), a) != []
    ensures exists k :: 0 <= k < |def.steps| && def.steps[k].id == a
  {
    hide IsNormal;
    if forall i :: 0 <= i < |Linear(def)| ==> Linear(def)[i].id != a {
      EdgesOfOthers(Linear(def), |Linear(def)|, a);
    } else {
      var i :| 0 <= i < |Linear(def)| && Linear(def)[i].id == a;
      var k := NormalStepIsStep(def, |def.steps|, i);
    }
  }

  /** A step without retry policy and compensation. */
  predicate Plain(step: Step) {
    !IsBlank(step.id) && step.onFailure == "" && step.retry.None?
  }

  /** The definition starts with a fork that nothing refers to. */
  ghost predicate StartsWithFork(def: Definition, f: Step) {
    && UniqueIds(def.steps) && def.steps != [] && def.steps[0] == f && f.kind.Fork?
    && Heads(f) != [] && JoinOf(def, f) != "" && Unnamed(def, f.id)
    && (forall i :: 0 <= i < |Heads(f)| ==> Heads(f)[i] in Ids(def) && Heads(f)[i] != "")
  }

  lemma {:induction false} FirstStaysFirst(def: Definition, n: nat)
    requires 0 < n <= |def.steps| && IsNormal(def, def.steps[0])
    ensures NormalSteps(def, n) != [] && NormalSteps(def, n)[0] == def.steps[0]
  {
    hide IsNormal;
    if n > 1 {
      FirstStaysFirst(def, n - 1);
    }
  }

  const STARTED: seq<Event> := [Start(NoBranch)]

  /** The state in which the fork has been started: branch 0 is about to run. */
  ghost function Forked(def: Definition, f: Step): Progress
    requires Heads(f) != []
  {
    var head := Heads(f)[0];
    var branches := PendingBranches(Heads(f));
    Progress(Ready(Some(head)), [f.id], map[f.id := head],
             map[f.id := ForkState(ForkRunning, JoinOf(def, f), branches[0 := Resumed(branches[0])])], [])
  }

  lemma FirstIsActive(def: Definition, f: Step)
    requires StartsWithFork(def, f)
    ensures SmoothRun(MachineOf(def), STARTED, INITIAL.(phase := Active(f.id)))
  {
    hide Unnamed, IsNormal, Heads, JoinOf, Ids;
    UnnamedIsNormal(def, f);
    FirstStaysFirst(def, |def.steps|);
    assert SmoothRun(MachineOf(def), [], INITIAL);
    assert INITIAL.done - {f.id} == map[];
    Continue(MachineOf(def), [], INITIAL, Start(NoBranch), INITIAL.(phase := Active(f.id)));
    assert [] + STARTED == STARTED;
  }

  lemma ForkMoves(def: Definition, f: Step, next: string)
    requires StartsWithFork(def, f)
    ensures NextAfter(MachineOf(def), f, map[], next, NoBranch) ==
      Move(Forked(def, f).forks, StepById(def.steps, Heads(f)[0]))
    ensures StepById(def.steps, Heads(f)[0]).Some? && StepById(def.steps, Heads(f)[0]).value.id == Heads(f)[0]
    ensures StepById(def.steps, f.id) == Some(f)
  {
    StepByIdUnique(def.steps, 0);
    KnownIds(def, Heads(f)[0]);
    hide Unnamed, NormalSteps, Ids, Heads, JoinOf, StepById;
    var branches := PendingBranches(Heads(f));
    FirstOpenIs(branches, 0);
    var fork := ForkState(ForkRunning, JoinOf(def, f), branches);
    var forks: Forks := map[];
    assert StartFork(def, f, forks) == forks[f.id := fork];
    hide StartsWithFork, StartFork;
    assert Resumed(branches[0]).current == Heads(f)[0];
    assert forks[f.id := fork][f.id := fork.(branches := branches[0 := Resumed(branches[0])])] == Forked(def, f).forks;
  }

  lemma FinishMoves(m: Machine, events: seq<Event>, a: Progress, step: Step, result: Result, pick: Pick, b: Progress)
    requires SmoothRun(m, events, a) && a.phase.Active? && StepById(m.def.steps, a.phase.step) == Some(step)
    requires MayResult(step, result) && CanPick(step, a.forks, pick)
    requires b == Moved(a, step.id, result.outputNext, NextAfter(m, step, a.forks, result.next, pick))
    ensures SmoothRun(m, events + [Finish(result, pick)], b)
  {
    hide SmoothRun, NextAfter, MayResult, StepById, IsPick, Moved;
    Continue(m, events, a, Finish(result, pick), b);
  }

  lemma ForkedIsMoved(def: Definition, f: Step, move: Move)
    requires Heads(f) != [] && move.forks == Forked(def, f).forks
    requires move.step.Some? && move.step.value.id == Heads(f)[0]
    ensures Forked(def, f) == Moved(INITIAL.(phase := Active(f.id)), f.id, Heads(f)[0], move)
  {
    hide JoinOf, PendingBranches;
    assert AppendNew([], f.id) == [f.id];
    assert INITIAL.done[f.id := Heads(f)[0]] == map[f.id := Heads(f)[0]];
  }

  lemma ForkedAtJoin(def: Definition, f: Step)
    requires Heads(f) != []
    ensures var a := Forked(def, f);
      && a.forks[f.id].status.ForkRunning?
      && (Cursor(a) == Some(a.forks[f.id].join) <==> Heads(f)[0] == JoinOf(def, f))
  {
  }

  function ForkResult(f: Step): Result
    requires Heads(f) != []
  {
    Result(Heads(f)[0], Heads(f)[0])
  }

  /** The first two events of every run that does not fail at the fork: it is started, and the head of its first branch
      is next. That is the join, with the fork still running, if and only if the fork names its join as first branch. */
  lemma JoinComesFirstIff(def: Definition, f: Step)
    requires StartsWithFork(def, f)
    ensures SmoothRun(MachineOf(def), STARTED + [Finish(ForkResult(f), NoBranch)], Forked(def, f))
    ensures var a := Forked(def, f);
      && a.forks[f.id].status.ForkRunning?
      && (Cursor(a) == Some(a.forks[f.id].join) <==> Heads(f)[0] == JoinOf(def, f))
  {
    hide *;
    ForkHasHead(def, f);
    FirstIsActive(def, f);
    ForkedAtJoin(def, f);
    FinishFork(def, f);
  }

  lemma ForkHasHead(def: Definition, f: Step)
    requires StartsWithFork(def, f)
    ensures Heads(f) != [] && f.kind.Fork?
  {
  }

  lemma FinishFork(def: Definition, f: Step)
    requires StartsWithFork(def, f) && SmoothRun(MachineOf(def), STARTED, INITIAL.(phase := Active(f.id)))
    ensures SmoothRun(MachineOf(def), STARTED + [Finish(ForkResult(f), NoBranch)], Forked(def, f))
  {
    hide *;
    ForkHasHead(def, f);
    ForkMayFinish(def, f);
    ForkMoves(def, f, Heads(f)[0]);
    var move := NextAfter(MachineOf(def), f, map[], Heads(f)[0], NoBranch);
    ForkedIsMoved(def, f, move);
    FinishMoves(MachineOf(def), STARTED, INITIAL.(phase := Active(f.id)), f, ForkResult(f), NoBranch, Forked(def, f));
  }

  lemma ForkMayFinish(def: Definition, f: Step)
    requires f.kind.Fork? && Heads(f) != []
    ensures MayResult(f, ForkResult(f)) && CanPick(f, map[], NoBranch) && ValidPick(map[], NoBranch)
    ensures ForkResult(f).next == ForkResult(f).outputNext == Heads(f)[0]
    ensures INITIAL.forks == map[] && MachineOf(def).def == def
  {
  }

  /** A fork with a given join. */
  predicate IsFork(step: Step, join: string) {
    && step.kind.Fork? && Plain(step) && step.config.next == "" && step.config.join == join && join != ""
    && Heads(step) != [] && Distinct(Heads(step))
  }

  /** A task or a join that goes on to `next`, if that is not "". */
  predicate GoesTo(step: Step, next: string) {
    Plain(step) && (step.kind.HttpRequest? || step.kind.Join? || step.kind.Transform?) && step.config.next == next
  }

  predicate FineStep(def: Definition, k: int)
    requires 0 <= k < |def.steps|
  {
    !IsBlank(def.steps[k].id) && StepOk(def.steps[k]) && RefsOk(def, def.steps[k])
  }

  /** What a definition of such steps needs to be accepted. */
  lemma AcceptedWhen(def: Definition)
    requires !IsBlank(def.name) && def.version >= 1 && def.steps != [] && UniqueIds(def.steps) && Forward(def)
    requires forall k :: 0 <= k < |def.steps| ==> FineStep(def, k)
    ensures Accepted(def)
  {
    hide Forward, CheckedGraph, StepOk, RefsOk, IsBlank, UniqueIds;
    ForwardIsAcyclic(def);
    forall i | 0 <= i < |def.steps|
      ensures !IsBlank(def.steps[i].id) && StepOk(def.steps[i]) && RefsOk(def, def.steps[i])
    {
      assert FineStep(def, i);
    }
  }

  lemma RefsOfFork(step: Step, join: string, i: nat)
    requires IsFork(step, join) && i < |ExplicitRefs(step)|
    ensures ExplicitRefs(step)[i] == join || exists h :: 0 <= h < |Heads(step)| && ExplicitRefs(step)[i] == Heads(step)[h]
  {
    hide IsBlank, Distinct;
    if i < |Heads(step)| {
      assert ExplicitRefs(step)[i] == Heads(step)[i];
    }
  }

  lemma FineFork(def: Definition, k: nat, join: string)
    requires k < |def.steps| && IsFork(def.steps[k], join) && Later(def, k, join)
    requires forall h :: 0 <= h < |Heads(def.steps[k])| ==> Later(def, k, Heads(def.steps[k])[h])
    ensures FineStep(def, k) && ForwardStep(def, k)
  {
    var step := def.steps[k];
    assert StepOk(step) && JoinOf(def, step) == join && !IsBlank(step.id) && step.onFailure == "";
    hide IsBlank, StepOk, Later, IsFork, JoinOf, ExplicitRefs, Heads;
    forall i: nat | i < |ExplicitRefs(step)| ensures Later(def, k, ExplicitRefs(step)[i]) {
      RefsOfFork(step, join, i);
    }
    forall i: nat | i < |ExplicitRefs(step)| ensures ExplicitRefs(step)[i] in Ids(def) {
      LaterIsKnown(def, k, ExplicitRefs(step)[i]);
    }
    hide Ids;
  }

  lemma RefsOfTask(step: Step, next: string, i: nat)
    requires GoesTo(step, next) && i < |ExplicitRefs(step)|
    ensures ExplicitRefs(step)[i] == next && next != ""
  {
    hide IsBlank;
  }

  lemma FineTask(def: Definition, k: nat, next: string)
    requires k < |def.steps| && GoesTo(def.steps[k], next) && (next == "" || next in Ids(def))
    ensures FineStep(def, k) && (next == "" || Later(def, k, next) ==> ForwardStep(def, k))
  {
    hide IsBlank, Later, Ids;
  }

  lemma LaterIsKnown(def: Definition, k: nat, id: string)
    requires Later(def, k, id)
    ensures id in Ids(def)
  {
  }

  /** A fork that names its join as its first branch. */
  predicate EarlyJoin(def: Definition) {
    && !IsBlank(def.name) && def.version >= 1 && UniqueIds(def.steps) && |def.steps| == 3
    && IsFork(def.steps[0], def.steps[2].id) && GoesTo(def.steps[1], "") && GoesTo(def.steps[2], "")
    && |Heads(def.steps[0])| == 2
    && Heads(def.steps[0])[0] == def.steps[2].id && Heads(def.steps[0])[1] == def.steps[1].id
  }

  lemma EarlyJoinIsAccepted(def: Definition)
    requires EarlyJoin(def)
    ensures Accepted(def)
  {
    EarlyFork(def);
    FineTask(def, 1, "");
    FineTask(def, 2, "");
    assert Forward(def) by {
      hide FineStep, ForwardStep, IsNormal, IsBlank;
    }
    hide EarlyJoin, FineStep, ForwardStep, Accepted, Forward;
    AcceptedWhen(def);
  }

  lemma EarlyFork(def: Definition)
    requires EarlyJoin(def)
    ensures FineStep(def, 0) && ForwardStep(def, 0)
  {
    assert Later(def, 0, def.steps[1].id) && Later(def, 0, def.steps[2].id);
    hide Later, IsBlank, IsFork, FineStep, ForwardStep;
    FineFork(def, 0, def.steps[2].id);
  }

  lemma NotBlank(id: string)
    requires !IsBlank(id)
    ensures id != ""
  {
  }

  lemma EarlyJoinStarts(def: Definition)
    requires EarlyJoin(def)
    ensures StartsWithFork(def, def.steps[0])
  {
    NotBlank(def.steps[0].id);
    NotBlank(def.steps[1].id);
    NotBlank(def.steps[2].id);
    hide IsBlank;
    assert JoinOf(def, def.steps[0]) == def.steps[2].id;
  }

  /** The validator accepts such a definition, and after two events its join is entered with nothing but the fork done. */
  lemma EarlyJoinIsUnsafe(def: Definition)
    requires EarlyJoin(def)
    ensures Accepted(def) && StartsWithFork(def, def.steps[0])
    ensures var f := def.steps[0];
      && SmoothRun(MachineOf(def), STARTED + [Finish(ForkResult(f), NoBranch)], Forked(def, f))
      && Cursor(Forked(def, f)) == Some(Forked(def, f).forks[f.id].join)
      && !AllBranchesDone(def, Forked(def, f).forks[f.id], Heads(f), Forked(def, f).completed)
  {
    EarlyJoinIsAccepted(def);
    EarlyJoinStarts(def);
    JoinComesFirstIff(def, def.steps[0]);
    hide Accepted, StartsWithFork, IsBlank, SmoothRun;
  }

  /** Starting a fork with one branch. */
  lemma ForkedOne(def: Definition, f: Step, head: string)
    requires |Heads(f)| == 1 && Heads(f)[0] == head && head != ""
    ensures Forked(def, f) ==
      Progress(Ready(Some(head)), [f.id], map[f.id := head],
               map[f.id := ForkState(ForkRunning, JoinOf(def, f), [BranchState(head, head, BranchRunning, [])])], [])
  {
    hide JoinOf, Heads;
    var branches := PendingBranches(Heads(f));
    assert branches == [PendingBranch(head)];
    assert branches[0 := Resumed(branches[0])] == [BranchState(head, head, BranchRunning, [])];
  }

  /** A step that is next and was not completed is started. */
  lemma StartNext(m: Machine, events: seq<Event>, a: Progress, at: string)
    requires SmoothRun(m, events, a) && a.phase == Ready(Some(at)) && at !in a.done && StepById(m.def.steps, at).Some?
    ensures SmoothRun(m, events + [Start(NoBranch)], a.(phase := Active(at)))
  {
    hide SmoothRun, NextAfter, StepById, IsPick;
    assert a.done - {at} == a.done;
    Continue(m, events, a, Start(NoBranch), a.(phase := Active(at)));
  }

  /** Start step `at`, and finish it with the given move. */
  lemma StartAndFinish(m: Machine, events: seq<Event>, a: Progress, at: Step, result: Result, pick: Pick, move: Move)
    requires SmoothRun(m, events, a) && a.phase == Ready(Some(at.id)) && at.id !in a.done
    requires StepById(m.def.steps, at.id) == Some(at) && MayResult(at, result) && CanPick(at, a.forks, pick)
    requires move == NextAfter(m, at, a.forks, result.next, pick)
    ensures SmoothRun(m, events + [Start(NoBranch)] + [Finish(result, pick)], Moved(a, at.id, result.outputNext, move))
  {
    hide SmoothRun, NextAfter, StepById, IsPick, MayResult, CanPick;
    StartNext(m, events, a, at.id);
    FinishMoves(m, events + [Start(NoBranch)], a.(phase := Active(at.id)), at, result, pick,
      Moved(a, at.id, result.outputNext, move));
  }

  lemma MovedFacts(a: Progress, id: string, outputNext: string, move: Move)
    requires move.step.Some?
    ensures var b := Moved(a, id, outputNext, move);
      b.phase == Ready(Some(move.step.value.id)) && b.done.Keys == a.done.Keys + {id} && b.forks == move.forks
  {
  }

  /** A completed step is passed over. */
  lemma PassOver(m: Machine, events: seq<Event>, a: Progress, at: Step, pick: Pick, move: Move)
    requires SmoothRun(m, events, a) && a.phase == Ready(Some(at.id)) && at.id in a.done && a.forks != map[]
    requires StepById(m.def.steps, at.id) == Some(at) && CanPick(at, a.forks, pick)
    requires move == NextAfter(m, at, a.forks, a.done[at.id], pick) && move.step.Some?
    ensures SmoothRun(m, events + [Start(pick)], Started(a, move.step.value.id, move.forks))
  {
    hide SmoothRun, NextAfter, StepById, IsPick;
    Continue(m, events, a, Start(pick), Started(a, move.step.value.id, move.forks));
  }

  /** A definition whose first step is its only fork. */
  ghost predicate OneFork(def: Definition) {
    && WellReferenced(def) && def.steps != [] && def.steps[0].kind.Fork? && Unnamed(def, def.steps[0].id)
    && JoinOf(def, def.steps[0]) !in Heads(def.steps[0])
    && forall i :: 0 < i < |def.steps| ==> !def.steps[i].kind.Fork? && !def.steps[i].kind.Transform?
  }

  lemma NoForkInRegion(def: Definition, id: string)
    requires OneFork(def) && InRegion(def, def.steps[0], id)
    ensures StepById(def.steps, id).Some? && !StepById(def.steps, id).value.kind.Fork?
  {
    hide JoinOf, Heads, WellReferenced, InRegion, Unnamed;
    RegionIsNamed(def, def.steps[0], id);
    RegionAvoids(def, def.steps[0], id);
    KnownIds(def, id);
    var step := StepById(def.steps, id).value;
    var k :| 0 <= k < |def.steps| && def.steps[k] == step;
    hide StepById;
  }

  lemma OneForkIsDisciplined(def: Definition)
    requires OneFork(def)
    ensures Disciplined(def)
  {
    hide Unnamed, WellReferenced, InRegion, StepById, JoinOf, Heads;
    forall i, id | 0 <= i < |def.steps| && def.steps[i].kind.Fork? && InRegion(def, def.steps[i], id)
      ensures StepById(def.steps, id).Some? && !StepById(def.steps, id).value.kind.Fork?
    {
      NoForkInRegion(def, id);
    }
  }

  /** Its fork is the first step of the linear path, and its join is on it too. */
  lemma OneForkPath(def: Definition)
    requires OneFork(def)
    ensures IsNormal(def, def.steps[0]) && NormalSteps(def, |def.steps|) != []
    ensures NormalSteps(def, |def.steps|)[0] == def.steps[0]
  {
    hide Unnamed, WellReferenced, JoinOf, Heads, IsNormal;
    UnnamedIsNormal(def, def.steps[0]);
    FirstStaysFirst(def, |def.steps|);
  }

  lemma JoinIsNoBranch(def: Definition, id: string)
    requires OneFork(def) && id == JoinOf(def, def.steps[0])
    ensures !IsBranchStep(def, id)
  {
    hide Unnamed, WellReferenced, Heads, InRegion, JoinOf;
    if IsBranchStep(def, id) {
      var k :| 0 <= k < |def.steps| && def.steps[k].kind.Fork? && InRegion(def, def.steps[k], id);
      RegionAvoids(def, def.steps[0], id);
    }
  }

  lemma AcceptedIsReferenced(def: Definition)
    requires Accepted(def)
    ensures WellReferenced(def)
  {
  }

  lemma IsOneFork(def: Definition)
    requires WellReferenced(def) && def.steps != [] && def.steps[0].kind.Fork? && Unnamed(def, def.steps[0].id)
    requires JoinOf(def, def.steps[0]) !in Heads(def.steps[0])
    requires forall i :: 0 < i < |def.steps| ==> !def.steps[i].kind.Fork? && !def.steps[i].kind.Transform?
    ensures OneFork(def)
  {
  }

  lemma IsForward(def: Definition)
    requires forall k: nat :: k < |def.steps| && IsNormal(def, def.steps[k]) ==> ForwardStep(def, k)
    ensures Forward(def)
  {
  }

  /** A fork with two branches. */
  function Two(f: string, join: string, one: BranchState, two: BranchState): Forks {
    map[f := ForkState(ForkRunning, join, [one, two])]
  }

  function Running(start: string, at: string, done: seq<string>): BranchState {
    BranchState(start, at, BranchRunning, done)
  }

  /** The first branch of two goes on. */
  lemma FirstBranchGoesOn(m: Machine, f: string, join: string, start: string, at: Step, to: string, done: seq<string>,
                          other: string)
    requires !at.kind.Fork? && at.config.next == to && to != "" && to != join && at.id !in done
    ensures NextAfter(m, at, Two(f, join, Running(start, at.id, done), PendingBranch(other)), "", InBranch(f, 0)) ==
      Move(Two(f, join, Running(start, to, done + [at.id]), PendingBranch(other)), StepById(m.def.steps, to))
  {
    hide StepById;
    var one := Running(start, to, done + [at.id]);
    var open := ForkState(ForkRunning, join, [Running(start, at.id, done), PendingBranch(other)]);
    assert open.branches[0 := one] == [one, PendingBranch(other)];
    var forks: Forks := map[f := open];
    assert forks[f := open.(branches := [one, PendingBranch(other)])] == Two(f, join, one, PendingBranch(other));
  }

  /** The first branch of two ends, and the other one is resumed. */
  lemma FirstBranchEnds(m: Machine, f: string, join: string, start: string, at: Step, done: seq<string>, other: string)
    requires !at.kind.Fork? && at.config.next == "" && other != "" && at.id !in done
    ensures NextAfter(m, at, Two(f, join, Running(start, at.id, done), PendingBranch(other)), "", InBranch(f, 0)) ==
      Move(Two(f, join, BranchState(start, "", BranchCompleted, done + [at.id]), Running(other, other, [])),
           StepById(m.def.steps, other))
  {
    hide StepById, FirstOpen;
    var one, two := BranchState(start, "", BranchCompleted, done + [at.id]), PendingBranch(other);
    var branches := [one, two];
    assert [Running(start, at.id, done), two][0 := one] == branches;
    FirstOpenIs(branches, 1);
    assert branches[1 := Resumed(two)] == [one, Running(other, other, [])];
    var open := ForkState(ForkRunning, join, branches);
    var forks: Forks := map[f := open];
    assert forks[f := open.(branches := branches[1 := Resumed(two)])] == Two(f, join, one, Running(other, other, []));
  }

  /** The second branch goes on, to where the step or the stored string says. */
  lemma SecondBranchGoesOn(m: Machine, f: string, join: string, one: BranchState, start: string, at: Step, next: string,
                           to: string, done: seq<string>)
    requires !at.kind.Fork? && NamedNext(at, next) == to && to != "" && to != join && at.id !in done
    ensures var forks: Forks := map[f := ForkState(ForkRunning, join, [one, BranchState(start, at.id, BranchRunning, done)])];
      NextAfter(m, at, forks, next, InBranch(f, 1)) ==
      Move(map[f := ForkState(ForkRunning, join, [one, BranchState(start, to, BranchRunning, done + [at.id])])],
           StepById(m.def.steps, to))
  {
    hide StepById, NamedNext;
    var two := BranchState(start, to, BranchRunning, done + [at.id]);
    var open := ForkState(ForkRunning, join, [one, BranchState(start, at.id, BranchRunning, done)]);
    assert open.branches[1 := two] == [one, two];
    var forks: Forks := map[f := open];
    assert forks[f := open.(branches := [one, two])] == map[f := open.(branches := [one, two])];
  }

  lemma ForkedTwo(def: Definition, f: Step)
    requires |Heads(f)| == 2 && Heads(f)[0] != ""
    ensures var a := Forked(def, f);
      && a.phase == Ready(Some(Heads(f)[0])) && a.done.Keys == {f.id}
      && a.forks == map[f.id := ForkState(ForkRunning, JoinOf(def, f),
           [BranchState(Heads(f)[0], Heads(f)[0], BranchRunning, []), PendingBranch(Heads(f)[1])])]
  {
    hide JoinOf, Heads;
    var branches := PendingBranches(Heads(f));
    assert branches == [PendingBranch(Heads(f)[0]), PendingBranch(Heads(f)[1])];
    assert branches[0 := Resumed(branches[0])] ==
      [BranchState(Heads(f)[0], Heads(f)[0], BranchRunning, []), PendingBranch(Heads(f)[1])];
  }

  lemma PickFirst(f: string, fork: ForkState, id: string)
    requires fork.status.ForkRunning? && |fork.branches| > 0 && AtStep(fork.branches[0], id)
    ensures var forks: Forks := map[f := fork]; ValidPick(forks, InBranch(f, 0)) && IsPick(forks, id, InBranch(f, 0))
  {
    var forks: Forks := map[f := fork];
    assert RunsStep(forks, f, 0, id);
  }

  lemma PickSecond(f: string, fork: ForkState, id: string)
    requires fork.status.ForkRunning? && |fork.branches| == 2 && AtStep(fork.branches[1], id)
    requires fork.branches[0].status.BranchCompleted?
    ensures var forks: Forks := map[f := fork]; ValidPick(forks, InBranch(f, 1)) && IsPick(forks, id, InBranch(f, 1))
  {
    var forks: Forks := map[f := fork];
    assert RunsStep(forks, f, 1, id);
  }

  lemma MovedName(a: Progress, id: string, outputNext: string, move: Move)
    requires move.step.Some?
    ensures var b := Moved(a, id, outputNext, move);
      id in b.done && b.done[id] == outputNext && forall k :: k in a.done && k != id ==> b.done[k] == a.done[k]
  {
  }

  /** Two neighbours that are both on the linear path follow each other there. */
  lemma LinearPairIsNext(def: Definition, k: nat)
    requires UniqueIds(def.steps) && k + 1 < |def.steps|
    requires IsNormal(def, def.steps[k]) && IsNormal(def, def.steps[k + 1])
    ensures NextNormal(NormalSteps(def, |def.steps|), def.steps[k].id) == Some(def.steps[k + 1])
  {
    var n := |def.steps|;
    hide IsNormal;
    NormalAt(def, n, k);
    NormalAt(def, n, k + 1);
    assert |NormalSteps(def, k + 1)| == |NormalSteps(def, k)| + 1;
    NormalStepsUnique(def, n);
    NextNormalIs(NormalSteps(def, n), |NormalSteps(def, k)|);
  }
}
