/** The shape of the fork states in every run, and what follows from it: the branch of the current step is unique, and
    a join is entered only after all branches. */
module ForkShape {
  import opened Workflow
  import opened Graph
  import opened Regions
  import opened Machines
  import opened Validator
  import opened Interpreter
  import opened Rows

  /** Definitions without a fork inside a branch and without a transform that stores its result under "next_step". */
  ghost predicate Tame(def: Definition) {
    && WellReferenced(def)
    && (forall i, id :: 0 <= i < |def.steps| && def.steps[i].kind.Fork? && InRegion(def, def.steps[i], id) ==>
          !StepById(def.steps, id).value.kind.Fork?)
    && (forall i :: 0 <= i < |def.steps| && def.steps[i].kind.Transform? ==>
          def.steps[i].config.resultKey != "next_step")
  }

  /** No branch begins at the join of its fork. */
  ghost predicate JoinsApart(def: Definition) {
    forall i :: 0 <= i < |def.steps| && def.steps[i].kind.Fork? ==> JoinOf(def, def.steps[i]) !in Heads(def.steps[i])
  }

  /** Definitions without the three shapes that break forks. */
  ghost predicate Disciplined(def: Definition) {
    Tame(def) && JoinsApart(def)
  }

  lemma DisciplinedIs(def: Definition)
    ensures Disciplined(def) <==> Tame(def) && JoinsApart(def)
  {
    hide Tame, JoinsApart;
  }

  lemma JoinIsApart(def: Definition, f: string, step: Step)
    requires JoinsApart(def) && IsStep(def, f, step) && step.kind.Fork?
    ensures JoinOf(def, step) !in Heads(step)
  {
    hide JoinOf, Heads;
  }

  /** The names a finished step may store or return. */
  predicate Legit(step: Step, next: string) {
    match step.kind
    case Condition => next == step.config.thenRef || next == step.config.elseRef
    case Join => next == step.config.next
    case Fork => true
    case _ => next == ""
  }

  ghost predicate IsStep(def: Definition, id: string, step: Step) {
    StepById(def.steps, id) == Some(step)
  }

  /** Everything a step refers to is a step. */
  predicate GoodStep(def: Definition, step: Step) {
    && step.id in Ids(def) && step.id != ""
    && (step.kind.Fork? ==> JoinOf(def, step) in Ids(def) && Heads(step) != [])
    && (step.kind.Fork? ==> forall i :: 0 <= i < |Heads(step)| ==> Heads(step)[i] in Ids(def))
    && (forall i :: 0 <= i < |ExplicitRefs(step)| ==> ExplicitRefs(step)[i] in Ids(def))
    && (step.kind.Transform? ==> step.config.resultKey != "next_step")
  }

  lemma {:induction false} FirstJoinKnown(steps: seq<Step>, id: string, found: bool)
    ensures FirstJoin(steps, id, found) != "" ==> exists i :: 0 <= i < |steps| && steps[i].id == FirstJoin(steps, id, found)
  {
    if steps != [] {
      FirstJoinKnown(steps[1..], id, true);
      FirstJoinKnown(steps[1..], id, found);
      assert forall i :: 0 <= i < |steps| - 1 ==> steps[1..][i] == steps[i + 1];
    }
  }

  lemma ForkRefs(step: Step, i: nat)
    requires step.kind.Fork?
    ensures i < |Heads(step)| ==> Heads(step)[i] in ExplicitRefs(step)
    ensures step.config.join != "" ==> step.config.join in ExplicitRefs(step)
  {
    if i < |Heads(step)| {
      assert ExplicitRefs(step)[|NonEmpty(step.config.next)| + i] == Heads(step)[i];
    }
    if step.config.join != "" {
      assert ExplicitRefs(step)[|NonEmpty(step.config.next)| + |Heads(step)|] == step.config.join;
    }
  }

  lemma StepIsGood(def: Definition, id: string)
    requires Tame(def) && StepById(def.steps, id).Some?
    ensures GoodStep(def, StepById(def.steps, id).value)
  {
    var step := StepById(def.steps, id).value;
    var k :| 0 <= k < |def.steps| && def.steps[k] == step;
    hide StepById;
    assert !IsBlank(step.id) && StepOk(step) && RefsOk(def, step);
    if step.kind.Fork? {
      hide ExplicitRefs;
      forall i | 0 <= i < |Heads(step)| ensures Heads(step)[i] in Ids(def) {
        ForkRefs(step, i);
      }
      ForkRefs(step, 0);
      FirstJoinKnown(def.steps, step.id, false);
    }
  }

  lemma KnownIds(def: Definition, id: string)
    ensures id in Ids(def) <==> StepById(def.steps, id).Some?
    ensures StepById(def.steps, id).Some? ==> StepById(def.steps, id).value.id == id
  {
  }

  lemma MayResultIsLegit(def: Definition, step: Step, r: Result)
    requires GoodStep(def, step) && MayResult(step, r)
    ensures Legit(step, r.next) && Legit(step, r.outputNext)
  {
  }

  lemma StepIsHere(def: Definition, at: string)
    requires StepById(def.steps, at).Some?
    ensures IsStep(def, at, StepById(def.steps, at).value)
  {
    hide StepById;
  }

  /** A reference the machine follows from a step other than a fork is a step, and one of its branch references. */
  lemma NamedNextKnown(def: Definition, step: Step, next: string)
    requires GoodStep(def, step) && Legit(step, next) && !step.kind.Fork? && NamedNext(step, next) != ""
    ensures NamedNext(step, next) in Ids(def) && NamedNext(step, next) in BranchRefs(step)
    ensures NamedNext(step, next) in ExplicitRefs(step)
  {
    var to := NamedNext(step, next);
    assert BranchRefs(step) == ExplicitRefs(step);
    assert NonEmpty(to)[0] == to;
    assert to in ExplicitRefs(step);
    var i :| 0 <= i < |ExplicitRefs(step)| && ExplicitRefs(step)[i] == to;
  }

  lemma RegionGoesOn(def: Definition, fork: Step, id: string, step: Step, next: string)
    requires InRegion(def, fork, id) && IsStep(def, id, step) && next in BranchRefs(step)
    requires next in Ids(def) && next != "" && next != JoinOf(def, fork)
    ensures InRegion(def, fork, next)
  {
    hide JoinOf, BranchRefs, Heads, Reaches;
    var join := JoinOf(def, fork);
    RegionGraphAt(def, join, id);
    var i :| 0 <= i < |Heads(fork)| && InRegionOfHead(def, join, Heads(fork)[i], id);
    ReachesStep(RegionGraph(def, join), Heads(fork)[i], id, next);
    assert InRegionOfHead(def, join, Heads(fork)[i], next);
  }

  lemma HeadInRegion(def: Definition, fork: Step, i: nat)
    requires i < |Heads(fork)| && Heads(fork)[i] in Ids(def) && Heads(fork)[i] != ""
    requires Heads(fork)[i] != JoinOf(def, fork)
    ensures InRegion(def, fork, Heads(fork)[i])
  {
    hide JoinOf, Heads, Reaches;
    ReachesSelf(RegionGraph(def, JoinOf(def, fork)), Heads(fork)[i]);
    assert InRegionOfHead(def, JoinOf(def, fork), Heads(fork)[i], Heads(fork)[i]);
  }

  lemma RegionAvoids(def: Definition, fork: Step, id: string)
    requires InRegion(def, fork, id)
    ensures id != JoinOf(def, fork) && id != "" && id in Ids(def)
  {
  }

  /** Branches up to `k` are completed, those after it pending. */
  predicate InOrder(branches: seq<BranchState>, k: nat) {
    && k <= |branches|
    && (forall j :: 0 <= j < k ==> branches[j].status.BranchCompleted?)
    && (forall j :: k < j < |branches| ==> branches[j].status.Pending?)
  }

  ghost predicate SameIds(a: seq<string>, b: seq<string>) {
    forall id :: id in a <==> id in b
  }

  /** A running branch went along `p`: from its start, each step to one it refers to, up to its current step. All but the
      last are what it completed. */
  ghost predicate Trail(def: Definition, join: string, branch: BranchState, p: seq<string>) {
    && Path(RegionGraph(def, join), p) && p[0] == branch.start && p[|p| - 1] == branch.current
    && SameIds(branch.completed, p[..|p| - 1])
  }

  predicate LeavesBy(step: Step, join: string, next: string) {
    Legit(step, next) && (NamedNext(step, next) == "" || NamedNext(step, next) == join)
  }

  /** The step may be the last of a branch: it may end with no step named, or with the join. */
  ghost predicate MayLeave(def: Definition, join: string, id: string) {
    StepById(def.steps, id).Some? && exists next :: LeavesBy(StepById(def.steps, id).value, join, next)
  }

  /** A completed branch went along `p` from its start to a step at which a branch may end, and completed all of it. */
  ghost predicate FullTrail(def: Definition, join: string, branch: BranchState, p: seq<string>) {
    && Path(RegionGraph(def, join), p) && p[0] == branch.start && SameIds(branch.completed, p)
    && MayLeave(def, join, p[|p| - 1])
  }

  /** A branch has completed exactly the steps on the way it went. */
  ghost predicate BranchOk(def: Definition, join: string, branch: BranchState, completed: seq<string>) {
    && (forall id :: id in branch.completed ==> id in completed)
    && (branch.status.Pending? ==> branch.current == branch.start && branch.completed == [])
    && (branch.status.BranchRunning? ==> exists p :: Trail(def, join, branch, p))
    && (branch.status.BranchCompleted? ==> exists p :: FullTrail(def, join, branch, p))
  }

  lemma BranchOkGrows(def: Definition, join: string, branch: BranchState, completed: seq<string>, more: seq<string>)
    requires BranchOk(def, join, branch, completed) && forall id :: id in completed ==> id in more
    ensures BranchOk(def, join, branch, more)
  {
    hide Trail, FullTrail;
  }

  /** A fork with `k` branches finished. While it runs, branch `k` stands at the step `at` of its region. */
  ghost predicate BranchesOk(def: Definition, step: Step, fork: ForkState, k: nat, at: string, completed: seq<string>) {
    && fork.join == JoinOf(def, step)
    && |fork.branches| == |Heads(step)|
    && (forall i :: 0 <= i < |fork.branches| ==>
          fork.branches[i].start == Heads(step)[i] && BranchOk(def, fork.join, fork.branches[i], completed))
    && InOrder(fork.branches, k)
    && match fork.status
       case ForkRunning => k < |fork.branches| && AtStep(fork.branches[k], at) && InRegion(def, step, at)
       case ForkFailed => false
       case _ => k == |fork.branches|
  }

  ghost predicate ForkOk(def: Definition, f: string, fork: ForkState, k: nat, at: string, completed: seq<string>) {
    && StepById(def.steps, f).Some? && StepById(def.steps, f).value.kind.Fork?
    && BranchesOk(def, StepById(def.steps, f).value, fork, k, at, completed)
  }

  /** Fork `f` is running with `k` branches finished. */
  predicate RunningAt(forks: Forks, f: string, k: nat) {
    f in forks && forks[f].status.ForkRunning? && k < |forks[f].branches| && InOrder(forks[f].branches, k) &&
    forks[f].branches[k].status.BranchRunning?
  }

  predicate Idle(forks: Forks) {
    forall f :: f in forks ==> !forks[f].status.ForkRunning?
  }

  /** All forks are in order, at most one runs, and its running branch stands at `at`. */
  ghost predicate ForksOk(def: Definition, forks: Forks, at: string, completed: seq<string>) {
    && (forall f :: f in forks ==> exists k :: ForkOk(def, f, forks[f], k, at, completed))
    && (forall f, g :: f in forks && g in forks && forks[f].status.ForkRunning? && forks[g].status.ForkRunning? ==> f == g)
  }

  lemma ForkRunsAt(def: Definition, forks: Forks, at: string, completed: seq<string>, f: string) returns (k: nat)
    requires ForksOk(def, forks, at, completed) && f in forks && forks[f].status.ForkRunning?
    ensures ForkOk(def, f, forks[f], k, at, completed) && RunningAt(forks, f, k)
    ensures RunsStep(forks, f, k, at)
  {
    hide InRegion, JoinOf, BranchOk, Heads, StepById;
    k :| ForkOk(def, f, forks[f], k, at, completed);
  }

  /** In an orderly state every worker finds the same branch, whatever the order in which it looks at the forks. */
  lemma PickIsUnique(def: Definition, forks: Forks, at: string, completed: seq<string>, p: Pick, q: Pick)
    requires ForksOk(def, forks, at, completed) && IsPick(forks, at, p) && IsPick(forks, at, q)
    ensures p == q
    ensures p.NoBranch? <==> Idle(forks)
    ensures p.InBranch? ==> RunningAt(forks, p.fork, p.index) && ForkOk(def, p.fork, forks[p.fork], p.index, at, completed)
  {
    hide ForkOk;
    if f :| f in forks && forks[f].status.ForkRunning? {
      var k := ForkRunsAt(def, forks, at, completed, f);
      assert !p.NoBranch? && !q.NoBranch?;
      RunsOnce(forks, f, k, p.index, at);
      RunsOnce(forks, f, k, q.index, at);
    }
  }

  lemma RunsOnce(forks: Forks, f: string, k: nat, i: int, at: string)
    requires RunningAt(forks, f, k) && RunsStep(forks, f, i, at)
    ensures i == k
  {
  }

  lemma RunsAlone(def: Definition, forks: Forks, at: string, completed: seq<string>, f: string, k: nat)
    requires ForksOk(def, forks, at, completed) && RunningAt(forks, f, k)
    ensures forall g, i: nat :: RunningAt(forks, g, i) ==> g == f && i == k
    ensures !Idle(forks)
  {
    hide ForkOk;
    forall g, i: nat | RunningAt(forks, g, i) ensures g == f && i == k {
      assert g == f;
    }
  }
}
