/** How one move of the machine changes an orderly state of the forks. */
module Moves {
  import opened Workflow
  import opened Graph
  import opened Regions
  import opened Machines
  import opened Validator
  import opened Rows
  import opened ForkShape

  /** The references a finished step hands over, other than a fork: of a condition `then` or `else`, or `next` where one
      of them is missing; of any other step `next`. */
  function NamedRefs(step: Step): seq<string> {
    if step.kind.Condition? then
      NonEmpty(NamedNext(step, step.config.thenRef)) + NonEmpty(NamedNext(step, step.config.elseRef))
    else NonEmpty(step.config.next)
  }

  /** Every step a move can lead to from the given one: from a fork its branches and its join (given or defaulted); from
      any other step the references it hands over, or, where it has none, the next step on the linear path. */
  ghost function RunRefs(def: Definition, step: Step): seq<string> {
    if step.kind.Fork? then Heads(step) + [JoinOf(def, step)]
    else
      NamedRefs(step) +
      if step.kind.Condition? || step.config.next != "" then []
      else
        var next := NextNormal(NormalSteps(def, |def.steps|), step.id);
        if next.Some? then [next.value.id] else []
  }

  ghost function RunGraph(def: Definition): Graph {
    map id | id in Ids(def) ::
      if StepById(def.steps, id).Some? then RunRefs(def, StepById(def.steps, id).value) else []
  }

  lemma RunGraphAt(def: Definition, id: string, step: Step)
    requires IsStep(def, id, step)
    ensures Succ(RunGraph(def), id) == RunRefs(def, step)
  {
    hide RunRefs;
  }

  /** From `at` the machine moves to `to`: along an edge with no fork running; into a fork; along an edge within a
      branch; on to the next branch; or from the last branch to the join. */
  ghost predicate Advances(def: Definition, before: Forks, at: string, after: Forks, to: string) {
    || (Idle(before) && Idle(after) && to in Succ(RunGraph(def), at))
    || (Idle(before) && RunningAt(after, at, 0) && to in Succ(RunGraph(def), at))
    || exists f, k :: RunningAt(before, f, k) && MovesOn(def, f, k, at, after, to)
  }

  ghost predicate MovesOn(def: Definition, f: string, k: nat, at: string, after: Forks, to: string) {
    || (RunningAt(after, f, k) && to in Succ(RunGraph(def), at))
    || (RunningAt(after, f, k + 1) && to in Succ(RunGraph(def), f) && IsHead(def, f, k + 1, to))
    || (Idle(after) && to in Succ(RunGraph(def), f) && IsLastJoin(def, f, k, to))
  }

  ghost predicate IsHead(def: Definition, f: string, i: nat, to: string) {
    var step := StepById(def.steps, f);
    step.Some? && i < |Heads(step.value)| && Heads(step.value)[i] == to
  }

  /** `k` is the last branch of fork `f`, and `to` is its join. */
  ghost predicate IsLastJoin(def: Definition, f: string, k: nat, to: string) {
    var step := StepById(def.steps, f);
    step.Some? && k + 1 == |Heads(step.value)| && JoinOf(def, step.value) == to
  }

  lemma ForkOkGrows(def: Definition, f: string, fork: ForkState, k: nat, at: string, to: string,
                    completed: seq<string>, more: seq<string>)
    requires ForkOk(def, f, fork, k, at, completed)
    requires forall id :: id in completed ==> id in more
    requires fork.status.ForkRunning? ==> at == to
    ensures ForkOk(def, f, fork, k, to, more)
  {
    hide InRegion, JoinOf, StepById, Heads, BranchOk, InOrder;
    forall i: nat | i < |fork.branches| ensures BranchOk(def, fork.join, fork.branches[i], more) {
      BranchOkGrows(def, fork.join, fork.branches[i], completed, more);
    }
  }

  lemma ForksOkGrow(def: Definition, forks: Forks, at: string, completed: seq<string>, more: seq<string>)
    requires ForksOk(def, forks, at, completed)
    requires forall id :: id in completed ==> id in more
    ensures ForksOk(def, forks, at, more)
  {
    hide ForkOk;
    forall f | f in forks ensures exists k :: ForkOk(def, f, forks[f], k, at, more) {
      var k :| ForkOk(def, f, forks[f], k, at, completed);
      ForkOkGrows(def, f, forks[f], k, at, at, completed, more);
    }
  }

  /** Replacing the only fork that may be running keeps the forks in order. */
  lemma UpdateFork(def: Definition, forks: Forks, at: string, completed: seq<string>, f: string, fork: ForkState, k: nat,
                   to: string)
    requires ForksOk(def, forks, at, completed)
    requires forall g :: g in forks && g != f ==> !forks[g].status.ForkRunning?
    requires ForkOk(def, f, fork, k, to, completed)
    ensures ForksOk(def, forks[f := fork], to, completed)
  {
    hide ForkOk;
    var after := forks[f := fork];
    forall g | g in after ensures exists j :: ForkOk(def, g, after[g], j, to, completed) {
      if g != f {
        var j :| ForkOk(def, g, forks[g], j, at, completed);
        ForkOkGrows(def, g, forks[g], j, at, to, completed, completed);
      }
    }
  }

  lemma IdleAnywhere(def: Definition, forks: Forks, at: string, to: string, completed: seq<string>)
    requires ForksOk(def, forks, at, completed) && Idle(forks)
    ensures ForksOk(def, forks, to, completed)
  {
    hide ForkOk;
    forall g | g in forks ensures exists j :: ForkOk(def, g, forks[g], j, to, completed) {
      var j :| ForkOk(def, g, forks[g], j, at, completed);
      ForkOkGrows(def, g, forks[g], j, at, to, completed, completed);
    }
  }

  lemma JoinedForkOk(def: Definition, f: string, fork: ForkState, k: nat, at: string, completed: seq<string>, join: string)
    requires ForkOk(def, f, fork, k, at, completed)
    ensures ForkOk(def, f, JoinedFork(fork, join), k, at, completed)
    ensures fork.status.ForkRunning? <==> JoinedFork(fork, join).status.ForkRunning?
  {
    hide InRegion, JoinOf, StepById, Heads, InOrder, BranchOk;
  }

  lemma MarkJoinedKeepsOrder(def: Definition, forks: Forks, join: string, at: string, completed: seq<string>)
    requires ForksOk(def, forks, at, completed) && Idle(forks)
    ensures ForksOk(def, MarkJoined(join, forks), at, completed) && Idle(MarkJoined(join, forks))
  {
    hide ForkOk, JoinedFork;
    var after := MarkJoined(join, forks);
    forall g | g in after
      ensures !after[g].status.ForkRunning? && exists j :: ForkOk(def, g, after[g], j, at, completed)
    {
      var j :| ForkOk(def, g, forks[g], j, at, completed);
      JoinedForkOk(def, g, forks[g], j, at, completed, join);
    }
  }

  /** The move from `at` to `to` keeps the forks in order, and is one of the five kinds. */
  ghost predicate GoodMove(def: Definition, forks: Forks, at: string, completed: seq<string>, move: Move) {
    && move.step.Some? && move.step.value.id in Ids(def)
    && forks.Keys <= move.forks.Keys <= forks.Keys + {at}
    && ForksOk(def, move.forks, move.step.value.id, completed)
    && Advances(def, forks, at, move.forks, move.step.value.id)
  }

  /** Branch `k` of fork `f`, not begun before, runs and stands at the join of the fork. */
  ghost predicate BeginsAtJoin(def: Definition, before: Forks, after: Forks, f: string, k: nat, at: string) {
    && RunningAt(after, f, k) && (f in before && k < |before[f].branches| ==> before[f].branches[k].status.Pending?)
    && after[f].join == at && after[f].branches[k].start == at && AtStep(after[f].branches[k], at)
    && StepById(def.steps, f).Some? && StepById(def.steps, f).value.kind.Fork?
    && JoinOf(def, StepById(def.steps, f).value) == at && at in Heads(StepById(def.steps, f).value)
  }

  /** The move begins a branch at the join of its fork. */
  ghost predicate JoinEntered(def: Definition, before: Forks, move: Move) {
    move.step.Some? && exists f, k :: BeginsAtJoin(def, before, move.forks, f, k, move.step.value.id)
  }

  /** That never happens in a good move, nor when the joins are apart. */
  lemma NotBoth(def: Definition, before: Forks, at: string, completed: seq<string>, move: Move)
    ensures GoodMove(def, before, at, completed, move) || JoinsApart(def) ==> !JoinEntered(def, before, move)
  {
    hide Advances, Ids, ForksOk, InOrder, Heads, JoinOf, StepById, JoinsApart;
    if (GoodMove(def, before, at, completed, move) || JoinsApart(def)) && JoinEntered(def, before, move) {
      var f, k :| BeginsAtJoin(def, before, move.forks, f, k, move.step.value.id);
      var fork := StepById(def.steps, f).value;
      if JoinsApart(def) {
        KnownIds(def, f);
        JoinIsApart(def, f, fork);
      } else {
        var j := ForkRunsAt(def, move.forks, move.step.value.id, completed, f);
        RegionAvoids(def, fork, move.step.value.id);
      }
    }
  }

  lemma UpdateMove(def: Definition, forks: Forks, at: string, completed: seq<string>, f: string, fork: ForkState, k: nat,
                   to: Step)
    requires ForksOk(def, forks, at, completed)
    requires forall g :: g in forks && g != f ==> !forks[g].status.ForkRunning?
    requires ForkOk(def, f, fork, k, to.id, completed) && to.id in Ids(def)
    requires Advances(def, forks, at, forks[f := fork], to.id) && (f in forks || f == at)
    ensures GoodMove(def, forks, at, completed, Move(forks[f := fork], Some(to)))
  {
    UpdateFork(def, forks, at, completed, f, fork, k, to.id);
    hide ForksOk, ForkOk, Advances, Ids;
  }

  lemma AdvancesIntoFork(def: Definition, forks: Forks, at: string, fork: ForkState, to: string, completed: seq<string>)
    requires Idle(forks) && fork.status.ForkRunning? && ForkOk(def, at, fork, 0, to, completed)
    requires to in Succ(RunGraph(def), at)
    ensures Advances(def, forks, at, forks[at := fork], to)
  {
    hide StepById, JoinOf, Heads, InRegion, RunGraph, BranchOk;
    assert RunningAt(forks[at := fork], at, 0);
  }

  lemma AdvancesAlongEdge(def: Definition, forks: Forks, at: string, f: string, fork: ForkState, to: string)
    requires Idle(forks) && !fork.status.ForkRunning? && to in Succ(RunGraph(def), at)
    ensures Advances(def, forks, at, forks[f := fork], to)
  {
    hide RunGraph;
    assert Idle(forks[f := fork]);
  }

  /** A fork that ran before is passed: the machine goes to its join. */
  lemma ForkPassed(def: Definition, forks: Forks, at: string, step: Step, completed: seq<string>)
    requires IsStep(def, at, step) && step.kind.Fork? && GoodStep(def, step) && at in forks
    requires ForksOk(def, forks, at, completed) && Idle(forks)
    ensures GoodMove(def, forks, at, completed, NextForkStep(def, at, forks))
  {
    var join := JoinOf(def, step);
    KnownIds(def, join);
    JoinIsEdge(def, at, step);
    var k :| ForkOk(def, at, forks[at], k, at, completed);
    var fork := forks[at].(status := ForkCompleted);
    PassedForkOk(def, step, forks[at], k, at, completed);
    assert ForkOk(def, at, fork, k, join, completed);
    AdvancesAlongEdge(def, forks, at, at, fork, join);
    hide *;
    UpdateMove(def, forks, at, completed, at, fork, k, StepById(def.steps, join).value);
  }

  lemma JoinIsEdge(def: Definition, f: string, step: Step)
    requires IsStep(def, f, step) && step.kind.Fork?
    ensures JoinOf(def, step) in Succ(RunGraph(def), f)
  {
    RunGraphAt(def, f, step);
    hide JoinOf, Heads, NormalSteps, RunGraph, StepById;
    assert RunRefs(def, step)[|Heads(step)|] == JoinOf(def, step);
  }

  lemma HeadIsEdge(def: Definition, f: string, step: Step, i: nat)
    requires IsStep(def, f, step) && step.kind.Fork? && i < |Heads(step)|
    ensures Heads(step)[i] in Succ(RunGraph(def), f)
  {
    RunGraphAt(def, f, step);
    hide JoinOf, Heads, NormalSteps, RunGraph, StepById;
    assert RunRefs(def, step)[i] == Heads(step)[i];
  }

  lemma PassedForkOk(def: Definition, step: Step, fork: ForkState, k: nat, at: string, completed: seq<string>)
    requires BranchesOk(def, step, fork, k, at, completed) && !fork.status.ForkRunning?
    ensures BranchesOk(def, step, fork.(status := ForkCompleted), k, JoinOf(def, step), completed)
    ensures FirstOpen(fork.branches) == |fork.branches| && fork.join == JoinOf(def, step)
  {
    hide InRegion, JoinOf, Heads, BranchOk;
    FirstOpenIs(fork.branches, k);
  }

  function FirstBranchRuns(head: string, branches: seq<BranchState>): seq<BranchState>
    requires branches != []
  {
    branches[0 := BranchState(head, head, BranchRunning, [])]
  }

  lemma StartedForkOk(def: Definition, step: Step, completed: seq<string>)
    requires Heads(step) != [] && InRegion(def, step, Heads(step)[0])
    ensures var heads := Heads(step);
      BranchesOk(def, step, ForkState(ForkRunning, JoinOf(def, step), FirstBranchRuns(heads[0], PendingBranches(heads))),
                 0, heads[0], completed)
  {
    hide JoinOf, InRegion, Heads, RegionGraph;
    var branch := BranchState(Heads(step)[0], Heads(step)[0], BranchRunning, []);
    assert Trail(def, JoinOf(def, step), branch, [Heads(step)[0]]);
    hide Trail, FullTrail;
  }

  lemma StartedForkMove(def: Definition, forks: Forks, at: string, step: Step)
    requires step.kind.Fork? && at == step.id && at !in forks && Heads(step) != [] && JoinOf(def, step) != ""
    requires Heads(step)[0] != ""
    ensures var heads := Heads(step);
      NextForkStep(def, at, StartFork(def, step, forks)) ==
      Move(forks[at := ForkState(ForkRunning, JoinOf(def, step), FirstBranchRuns(heads[0], PendingBranches(heads)))],
           StepById(def.steps, heads[0]))
  {
    hide JoinOf, StepById, Heads;
    var heads := Heads(step);
    var started := ForkState(ForkRunning, JoinOf(def, step), PendingBranches(heads));
    FirstOpenIs(started.branches, 0);
    var fork := started.(branches := FirstBranchRuns(heads[0], started.branches));
    assert forks[at := started][at := fork] == forks[at := fork];
  }

  /** A new fork starts its first branch. */
  lemma ForkEntered(def: Definition, forks: Forks, at: string, step: Step, completed: seq<string>)
    requires IsStep(def, at, step) && step.kind.Fork? && GoodStep(def, step) && at !in forks
    requires Heads(step)[0] != "" && JoinOf(def, step) != "" && Heads(step)[0] != JoinOf(def, step)
    requires ForksOk(def, forks, at, completed) && Idle(forks)
    ensures GoodMove(def, forks, at, completed, NextForkStep(def, at, StartFork(def, step, forks)))
    ensures at in NextForkStep(def, at, StartFork(def, step, forks)).forks
  {
    KnownIds(def, at);
    KnownIds(def, Heads(step)[0]);
    HeadInRegion(def, step, 0);
    var heads := Heads(step);
    StartedForkOk(def, step, completed);
    StartedForkMove(def, forks, at, step);
    var fork := ForkState(ForkRunning, JoinOf(def, step), FirstBranchRuns(heads[0], PendingBranches(heads)));
    assert ForkOk(def, at, fork, 0, heads[0], completed);
    HeadIsEdge(def, at, step, 0);
    AdvancesIntoFork(def, forks, at, fork, heads[0], completed);
    hide *;
    UpdateMove(def, forks, at, completed, at, fork, 0, StepById(def.steps, heads[0]).value);
  }

  /** A new fork whose first branch begins at its join. */
  lemma ForkEnteredAtJoin(def: Definition, forks: Forks, at: string, step: Step)
    requires IsStep(def, at, step) && step.kind.Fork? && GoodStep(def, step) && at !in forks
    requires JoinOf(def, step) != "" && Heads(step)[0] == JoinOf(def, step)
    ensures JoinEntered(def, forks, NextForkStep(def, at, StartFork(def, step, forks)))
    ensures at in NextForkStep(def, at, StartFork(def, step, forks)).forks
  {
    KnownIds(def, at);
    KnownIds(def, Heads(step)[0]);
    StartedForkMove(def, forks, at, step);
    var move := NextForkStep(def, at, StartFork(def, step, forks));
    hide JoinOf, Heads, GoodStep, NextForkStep, StartFork, StepById;
    assert BeginsAtJoin(def, forks, move.forks, at, 0, JoinOf(def, step));
  }

  /** The running branch at `at`, after `at` is completed: at `next`, or done when `next` is "". */
  function BranchAfter(branch: BranchState, at: string, next: string): BranchState {
    branch.(completed := AppendNew(branch.completed, at), current := next,
            status := if next == "" then BranchCompleted else BranchRunning)
  }

  function ForkAfter(fork: ForkState, k: nat, at: string, next: string): ForkState
    requires k < |fork.branches|
  {
    fork.(branches := fork.branches[k := BranchAfter(fork.branches[k], at, next)])
  }

  lemma BranchAfterOk(def: Definition, join: string, branch: BranchState, at: string, next: string, completed: seq<string>)
    requires BranchOk(def, join, branch, completed) && AtStep(branch, at) && at in completed
    requires if next == "" then MayLeave(def, join, at) else next in Succ(RegionGraph(def, join), at)
    ensures BranchOk(def, join, BranchAfter(branch, at, next), completed)
  {
    hide RegionGraph, MayLeave;
    var p :| Trail(def, join, branch, p);
    assert p == p[..|p| - 1] + [at];
    if next == "" {
      assert FullTrail(def, join, BranchAfter(branch, at, next), p);
    } else {
      var q := p + [next];
      assert q[..|q| - 1] == p;
      assert Trail(def, join, BranchAfter(branch, at, next), q);
    }
  }

  lemma ForkGoesOn(def: Definition, step: Step, fork: ForkState, k: nat, at: string, next: string, completed: seq<string>)
    requires BranchesOk(def, step, fork, k, at, completed) && fork.status.ForkRunning? && at in completed
    requires next != "" && InRegion(def, step, next) && next in Succ(RegionGraph(def, fork.join), at)
    ensures BranchesOk(def, step, ForkAfter(fork, k, at, next), k, next, completed)
  {
    hide JoinOf, InRegion, Heads, BranchOk, RegionGraph, Succ;
    BranchAfterOk(def, fork.join, fork.branches[k], at, next, completed);
  }

  /** The state between two branches: all up to `k` are done. */
  predicate BetweenBranches(fork: ForkState, k: nat) {
    fork.status.ForkRunning? && k <= |fork.branches| &&
    (forall j :: 0 <= j < k ==> fork.branches[j].status.BranchCompleted?) &&
    forall j :: k <= j < |fork.branches| ==> fork.branches[j].status.Pending?
  }

  /** All there is to say about a fork between branches, whatever its next step. */
  ghost predicate ResumableOk(def: Definition, step: Step, fork: ForkState, k: nat, completed: seq<string>) {
    && fork.join == JoinOf(def, step) && |fork.branches| == |Heads(step)|
    && (forall i :: 0 <= i < |fork.branches| ==>
          fork.branches[i].start == Heads(step)[i] && BranchOk(def, fork.join, fork.branches[i], completed))
    && BetweenBranches(fork, k)
  }

  lemma ForkEndsBranch(def: Definition, step: Step, fork: ForkState, k: nat, at: string, completed: seq<string>)
    requires BranchesOk(def, step, fork, k, at, completed) && fork.status.ForkRunning? && at in completed
    requires MayLeave(def, fork.join, at)
    ensures ResumableOk(def, step, ForkAfter(fork, k, at, ""), k + 1, completed)
  {
    hide JoinOf, InRegion, Heads, BranchOk, MayLeave;
    BranchAfterOk(def, fork.join, fork.branches[k], at, "", completed);
  }

  lemma ResumedOk(def: Definition, join: string, branch: BranchState, completed: seq<string>)
    requires BranchOk(def, join, branch, completed) && branch.status.Pending? && branch.start != ""
    ensures BranchOk(def, join, Resumed(branch), completed) && AtStep(Resumed(branch), branch.start)
    ensures Resumed(branch).start == branch.start
  {
    hide RegionGraph, FullTrail;
    assert Trail(def, join, Resumed(branch), [branch.start]);
  }

  function ForkResumed(fork: ForkState, k: nat): ForkState
    requires k < |fork.branches|
  {
    fork.(branches := fork.branches[k := Resumed(fork.branches[k])])
  }

  lemma ResumedForkOk(def: Definition, step: Step, fork: ForkState, k: nat, completed: seq<string>)
    requires ResumableOk(def, step, fork, k, completed)
    requires k < |fork.branches| ==> Heads(step)[k] != "" && InRegion(def, step, Heads(step)[k])
    ensures FirstOpen(fork.branches) == k
    ensures k < |fork.branches| ==> BranchesOk(def, step, ForkResumed(fork, k), k, Heads(step)[k], completed)
    ensures k == |fork.branches| ==> BranchesOk(def, step, fork.(status := ForkCompleted), k, JoinOf(def, step), completed)
  {
    hide JoinOf, InRegion, Heads, BranchOk, Resumed;
    FirstOpenIs(fork.branches, k);
    if k < |fork.branches| {
      ResumedOk(def, fork.join, fork.branches[k], completed);
    }
  }

  lemma AdvancesInFork(def: Definition, forks: Forks, at: string, f: string, k: nat, fork: ForkState, j: nat, to: string)
    requires RunningAt(forks, f, k) && RunningAt(forks[f := fork], f, j)
    requires (j == k && to in Succ(RunGraph(def), at)) ||
      (j == k + 1 && to in Succ(RunGraph(def), f) && IsHead(def, f, j, to))
    ensures Advances(def, forks, at, forks[f := fork], to)
  {
    hide RunGraph, RunningAt, IsHead, IsLastJoin;
    assert MovesOn(def, f, k, at, forks[f := fork], to);
  }

  lemma AdvancesToJoin(def: Definition, forks: Forks, at: string, f: string, k: nat, fork: ForkState, to: string)
    requires RunningAt(forks, f, k) && !fork.status.ForkRunning? && to in Succ(RunGraph(def), f)
    requires IsLastJoin(def, f, k, to)
    requires forall g :: g in forks && g != f ==> !forks[g].status.ForkRunning?
    ensures Advances(def, forks, at, forks[f := fork], to)
  {
    hide RunGraph, RunningAt, IsHead, IsLastJoin;
    assert Idle(forks[f := fork]);
    assert MovesOn(def, f, k, at, forks[f := fork], to);
  }

  lemma RunningBranches(def: Definition, step: Step, forks: Forks, f: string, fork: ForkState, k: nat, at: string,
                        completed: seq<string>)
    requires BranchesOk(def, step, fork, k, at, completed) && fork.status.ForkRunning?
    ensures RunningAt(forks[f := fork], f, k)
  {
    hide JoinOf, InRegion, Heads, BranchOk;
  }

  /** Within a branch the machine follows a reference of the step that does not lead to the join. */
  lemma BranchGoesOn(def: Definition, forks: Forks, f: string, k: nat, at: string, next: string, completed: seq<string>)
    requires ForksOk(def, forks, at, completed) && at in completed && RunningAt(forks, f, k)
    requires ForkOk(def, f, forks[f], k, at, completed)
    requires next != "" && next in Ids(def) && InRegion(def, StepById(def.steps, f).value, next)
    requires next in Succ(RunGraph(def), at) && next in Succ(RegionGraph(def, forks[f].join), at)
    ensures GoodMove(def, forks, at, completed, Move(forks[f := ForkAfter(forks[f], k, at, next)], StepById(def.steps, next)))
  {
    KnownIds(def, next);
    var step := StepById(def.steps, f).value;
    var fork := ForkAfter(forks[f], k, at, next);
    ForkGoesOn(def, step, forks[f], k, at, next, completed);
    RunningBranches(def, step, forks, f, fork, k, next, completed);
    AdvancesInFork(def, forks, at, f, k, fork, k, next);
    assert ForkOk(def, f, fork, k, next, completed);
    hide *;
    UpdateMove(def, forks, at, completed, f, fork, k, StepById(def.steps, next).value);
  }

  lemma NextHeadIsKnown(def: Definition, step: Step, i: nat)
    requires GoodStep(def, step) && step.kind.Fork? && i < |Heads(step)| && Heads(step)[i] != ""
    ensures Heads(step)[i] in Ids(def)
    ensures Heads(step)[i] != JoinOf(def, step) ==> InRegion(def, step, Heads(step)[i])
  {
    if Heads(step)[i] != JoinOf(def, step) {
      HeadInRegion(def, step, i);
    }
    hide InRegion, JoinOf, Heads;
  }

  /** At the end of a branch the next one starts; after the last one the machine goes to the join. */
  lemma BranchEnds(def: Definition, forks: Forks, f: string, k: nat, at: string, completed: seq<string>)
    requires ForksOk(def, forks, at, completed) && at in completed && RunningAt(forks, f, k)
    requires ForkOk(def, f, forks[f], k, at, completed)
    requires GoodStep(def, StepById(def.steps, f).value) && MayLeave(def, forks[f].join, at)
    requires forall i :: 0 <= i < |Heads(StepById(def.steps, f).value)| ==> Heads(StepById(def.steps, f).value)[i] != ""
    ensures var move := NextForkStep(def, f, forks[f := ForkAfter(forks[f], k, at, "")]);
      GoodMove(def, forks, at, completed, move) || JoinEntered(def, forks, move)
  {
    hide *;
    RunningForkIs(def, forks, f, k, at, completed);
    var step := StepById(def.steps, f).value;
    var fork := ForkAfter(forks[f], k, at, "");
    ForkEndsBranch(def, step, forks[f], k, at, completed);
    JoinIsKnown(def, step);
    if k + 1 < |fork.branches| {
      NextHeadIsKnown(def, step, k + 1);
      if Heads(step)[k + 1] == JoinOf(def, step) {
        BranchSwitchesToJoin(def, forks, f, k, at, completed, step, fork);
      } else {
        BranchSwitches(def, forks, f, k, at, completed, step, fork);
      }
    } else {
      BranchLeaves(def, forks, f, k, at, completed, step, fork);
    }
  }

  lemma RunningForkIs(def: Definition, forks: Forks, f: string, k: nat, at: string, completed: seq<string>)
    requires RunningAt(forks, f, k) && ForkOk(def, f, forks[f], k, at, completed)
    ensures f in forks && StepById(def.steps, f).Some?
    ensures var step := StepById(def.steps, f).value;
      && IsStep(def, f, step) && step.kind.Fork? && BranchesOk(def, step, forks[f], k, at, completed)
      && forks[f].status.ForkRunning? && k < |forks[f].branches| == |Heads(step)|
      && |ForkAfter(forks[f], k, at, "").branches| == |forks[f].branches|
  {
    hide InRegion, JoinOf, BranchOk, InOrder, Heads, StepById;
  }

  lemma JoinIsKnown(def: Definition, step: Step)
    requires GoodStep(def, step) && step.kind.Fork?
    ensures JoinOf(def, step) in Ids(def)
  {
    hide JoinOf, Ids;
  }

  lemma ResumeMove(def: Definition, forks: Forks, f: string, fork: ForkState, k: nat)
    requires FirstOpen(fork.branches) == k
    ensures NextForkStep(def, f, forks[f := fork]) == (
      if k < |fork.branches|
      then Move(forks[f := ForkResumed(fork, k)], StepById(def.steps, Resumed(fork.branches[k]).current))
      else Move(forks[f := fork.(status := ForkCompleted)], StepById(def.steps, fork.join)))
  {
    hide StepById, FirstOpen;
    if k < |fork.branches| {
      assert forks[f := fork][f := ForkResumed(fork, k)] == forks[f := ForkResumed(fork, k)];
    } else {
      assert forks[f := fork][f := fork.(status := ForkCompleted)] == forks[f := fork.(status := ForkCompleted)];
    }
  }

  lemma ResumesAtHead(def: Definition, step: Step, fork: ForkState, k: nat, completed: seq<string>)
    requires ResumableOk(def, step, fork, k, completed) && k < |fork.branches|
    ensures Resumed(fork.branches[k]).current == Heads(step)[k]
  {
    hide JoinOf, Heads;
  }

  lemma BranchSwitches(def: Definition, forks: Forks, f: string, k: nat, at: string, completed: seq<string>,
                       step: Step, fork: ForkState)
    requires ForksOk(def, forks, at, completed) && RunningAt(forks, f, k)
    requires IsStep(def, f, step) && step.kind.Fork?
    requires k + 1 < |fork.branches| && ResumableOk(def, step, fork, k + 1, completed)
    requires Heads(step)[k + 1] in Ids(def) && InRegion(def, step, Heads(step)[k + 1])
    ensures GoodMove(def, forks, at, completed, NextForkStep(def, f, forks[f := fork]))
  {
    var to := Heads(step)[k + 1];
    KnownIds(def, to);
    RegionAvoids(def, step, to);
    ResumedForkOk(def, step, fork, k + 1, completed);
    var after := ForkResumed(fork, k + 1);
    ResumesAtHead(def, step, fork, k + 1, completed);
    HeadIsEdge(def, f, step, k + 1);
    ResumeMove(def, forks, f, fork, k + 1);
    RunningBranches(def, step, forks, f, after, k + 1, to, completed);
    AdvancesInFork(def, forks, at, f, k, after, k + 1, to);
    assert ForkOk(def, f, after, k + 1, to, completed);
    hide *;
    UpdateMove(def, forks, at, completed, f, after, k + 1, StepById(def.steps, to).value);
  }

  /** The next branch begins at the join. */
  lemma BranchSwitchesToJoin(def: Definition, forks: Forks, f: string, k: nat, at: string, completed: seq<string>,
                             step: Step, fork: ForkState)
    requires RunningAt(forks, f, k) && fork == ForkAfter(forks[f], k, at, "")
    requires IsStep(def, f, step) && step.kind.Fork? && JoinOf(def, step) in Ids(def)
    requires k + 1 < |fork.branches| && ResumableOk(def, step, fork, k + 1, completed)
    requires Heads(step)[k + 1] == JoinOf(def, step) != ""
    ensures JoinEntered(def, forks, NextForkStep(def, f, forks[f := fork]))
  {
    hide *;
    var to := JoinOf(def, step);
    KnownIds(def, to);
    ForkStepIs(def, f, step, k + 1);
    PendingForkIs(def, step, fork, k + 1, completed);
    ResumedForkIs(fork, k + 1, to);
    ResumeMove(def, forks, f, fork, k + 1);
    ResumedBegins(def, forks, f, k, ForkResumed(fork, k + 1), to);
    EntersJoin(def, forks, forks[f := ForkResumed(fork, k + 1)], f, k + 1, to);
  }

  lemma EntersJoin(def: Definition, before: Forks, after: Forks, f: string, k: nat, at: string)
    requires BeginsAtJoin(def, before, after, f, k, at) && StepById(def.steps, at).Some?
    ensures JoinEntered(def, before, Move(after, StepById(def.steps, at)))
  {
    KnownIds(def, at);
    hide StepById, BeginsAtJoin;
  }

  lemma ForkStepIs(def: Definition, f: string, step: Step, i: nat)
    requires IsStep(def, f, step)
    ensures StepById(def.steps, f) == Some(step)
    ensures i < |Heads(step)| ==> Heads(step)[i] in Heads(step)
  {
  }

  lemma ResumedForkIs(fork: ForkState, k: nat, to: string)
    requires k < |fork.branches| && Resumed(fork.branches[k]).status.BranchRunning?
    requires forall j :: 0 <= j < k ==> fork.branches[j].status.BranchCompleted?
    requires forall j :: k <= j < |fork.branches| ==> fork.branches[j].status.Pending?
    ensures ForkResumed(fork, k).status == fork.status && ForkResumed(fork, k).join == fork.join
    ensures InOrder(ForkResumed(fork, k).branches, k) && |ForkResumed(fork, k).branches| == |fork.branches|
    ensures ForkResumed(fork, k).branches[k] == Resumed(fork.branches[k])
  {
    hide Resumed;
  }

  lemma ResumedBegins(def: Definition, forks: Forks, f: string, k: nat, resumed: ForkState, to: string)
    requires StepById(def.steps, f).Some? && StepById(def.steps, f).value.kind.Fork?
    requires JoinOf(def, StepById(def.steps, f).value) == to && to in Heads(StepById(def.steps, f).value)
    requires RunningAt(forks, f, k) && resumed.status.ForkRunning? && resumed.join == to
    requires k + 1 < |resumed.branches| && InOrder(resumed.branches, k + 1)
    requires resumed.branches[k + 1].start == to && AtStep(resumed.branches[k + 1], to)
    ensures BeginsAtJoin(def, forks, forks[f := resumed], f, k + 1, to)
  {
    hide JoinOf, Heads, StepById;
  }

  lemma PendingForkIs(def: Definition, step: Step, fork: ForkState, k: nat, completed: seq<string>)
    requires ResumableOk(def, step, fork, k, completed) && k < |fork.branches| && Heads(step)[k] != ""
    ensures FirstOpen(fork.branches) == k && |fork.branches| == |Heads(step)|
    ensures fork.status.ForkRunning? && fork.join == JoinOf(def, step)
    ensures forall j :: 0 <= j < k ==> fork.branches[j].status.BranchCompleted?
    ensures forall j :: k <= j < |fork.branches| ==> fork.branches[j].status.Pending?
    ensures Resumed(fork.branches[k]).status.BranchRunning? && Resumed(fork.branches[k]).start == Heads(step)[k]
    ensures AtStep(Resumed(fork.branches[k]), Heads(step)[k]) && Resumed(fork.branches[k]).current == Heads(step)[k]
  {
    hide JoinOf, InRegion, Heads, BranchOk;
    FirstOpenIs(fork.branches, k);
    ResumedOk(def, fork.join, fork.branches[k], completed);
  }

  lemma BranchLeaves(def: Definition, forks: Forks, f: string, k: nat, at: string, completed: seq<string>,
                     step: Step, fork: ForkState)
    requires ForksOk(def, forks, at, completed) && RunningAt(forks, f, k)
    requires IsStep(def, f, step) && step.kind.Fork? && JoinOf(def, step) in Ids(def)
    requires k + 1 == |fork.branches| && ResumableOk(def, step, fork, k + 1, completed)
    ensures GoodMove(def, forks, at, completed, NextForkStep(def, f, forks[f := fork]))
  {
    var to := JoinOf(def, step);
    KnownIds(def, to);
    JoinIsEdge(def, f, step);
    ResumedForkOk(def, step, fork, k + 1, completed);
    ResumeMove(def, forks, f, fork, k + 1);
    var after := fork.(status := ForkCompleted);
    AdvancesToJoin(def, forks, at, f, k, after, to);
    assert ForkOk(def, f, after, k + 1, to, completed);
    hide *;
    UpdateMove(def, forks, at, completed, f, after, k + 1, StepById(def.steps, to).value);
  }

  lemma MachineOfOk(def: Definition)
    requires UniqueIds(def.steps)
    ensures MachineOk(MachineOf(def))
  {
    hide IsNormal, StepById;
    var normal := NormalSteps(def, |def.steps|);
    forall i | 0 <= i < |normal| ensures StepById(def.steps, normal[i].id) == Some(normal[i]) {
      var k := NormalStepIsStep(def, |def.steps|, i);
      StepByIdUnique(def.steps, k);
    }
  }

  lemma NoEmptyId(def: Definition)
    requires Tame(def)
    ensures "" !in Ids(def)
  {
    forall i | 0 <= i < |def.steps| ensures def.steps[i].id != "" {
      assert !IsBlank(def.steps[i].id);
    }
  }

  lemma GoodStepHasId(def: Definition, step: Step)
    requires GoodStep(def, step)
    ensures step.id != ""
    ensures step.kind.Fork? ==> Heads(step) != [] && JoinOf(def, step) in Ids(def)
    ensures step.kind.Fork? ==> forall i :: 0 <= i < |Heads(step)| ==> Heads(step)[i] in Ids(def)
  {
  }

  lemma RegionHasNoFork(def: Definition, f: string, fork: Step, at: string, step: Step)
    requires Tame(def) && IsStep(def, f, fork) && fork.kind.Fork? && InRegion(def, fork, at)
    requires IsStep(def, at, step)
    ensures !step.kind.Fork?
  {
    hide InRegion, WellReferenced, JoinOf, Heads;
    var i :| 0 <= i < |def.steps| && def.steps[i] == fork;
    hide StepById;
  }

  /** A fork step is never inside a running fork. */
  lemma ForkStepIsOutside(def: Definition, forks: Forks, at: string, step: Step, completed: seq<string>)
    requires Tame(def) && IsStep(def, at, step) && step.kind.Fork? && ForksOk(def, forks, at, completed)
    ensures Idle(forks)
  {
    hide ForksOk, Tame, JoinsApart, InRegion, StepById, JoinOf;
    forall f | f in forks ensures !forks[f].status.ForkRunning? {
      if forks[f].status.ForkRunning? {
        var k := ForkRunsAt(def, forks, at, completed, f);
        RegionHasNoFork(def, f, StepById(def.steps, f).value, at, step);
      }
    }
  }

  lemma KeepsForks(def: Definition, forks: Forks, at: string, completed: seq<string>, move: Move)
    ensures GoodMove(def, forks, at, completed, move) && at in forks ==> at in move.forks
  {
    hide Ids, ForksOk, Advances;
  }

  lemma StartedForkIsKept(def: Definition, step: Step, forks: Forks)
    requires step.id in forks
    ensures StartFork(def, step, forks) == forks
  {
    hide JoinOf, Heads;
  }

  lemma ForkMove(def: Definition, forks: Forks, at: string, step: Step, completed: seq<string>)
    requires Tame(def) && IsStep(def, at, step) && step.kind.Fork? && ForksOk(def, forks, at, completed)
    ensures var move := NextForkStep(def, at, StartFork(def, step, forks));
      (GoodMove(def, forks, at, completed, move) || JoinEntered(def, forks, move)) && at in move.forks
    ensures JoinsApart(def) ==> GoodMove(def, forks, at, completed, NextForkStep(def, at, StartFork(def, step, forks)))
  {
    NotBoth(def, forks, at, completed, NextForkStep(def, at, StartFork(def, step, forks)));
    ForkStepIsOutside(def, forks, at, step, completed);
    StepIsGood(def, at);
    NoEmptyId(def);
    KnownIds(def, at);
    GoodStepHasId(def, step);
    assert Heads(step)[0] in Ids(def) && JoinOf(def, step) != "" && step.id == at && GoodStep(def, step);
    hide *;
    if at in forks {
      KeepsForks(def, forks, at, completed, NextForkStep(def, at, forks));
      StartedForkIsKept(def, step, forks);
      ForkPassed(def, forks, at, step, completed);
    } else {
      if Heads(step)[0] == JoinOf(def, step) {
        ForkEnteredAtJoin(def, forks, at, step);
      } else {
        ForkEntered(def, forks, at, step, completed);
      }
    }
  }

  lemma ReferenceIsEdge(def: Definition, at: string, step: Step, next: string)
    requires IsStep(def, at, step) && !step.kind.Fork? && next in NamedRefs(step)
    ensures next in Succ(RunGraph(def), at)
  {
    RunGraphAt(def, at, step);
    hide JoinOf, NamedRefs, NormalSteps, RunGraph;
  }

  lemma NamedIsReference(step: Step, next: string)
    requires Legit(step, next) && !step.kind.Fork? && NamedNext(step, next) != ""
    ensures NamedNext(step, next) in NamedRefs(step)
  {
    assert NonEmpty(NamedNext(step, next))[0] == NamedNext(step, next);
  }

  lemma LinearNextIsEdge(def: Definition, at: string, step: Step, next: Step)
    requires IsStep(def, at, step) && NextNormal(NormalSteps(def, |def.steps|), at) == Some(next)
    requires !step.kind.Fork? && !step.kind.Condition? && step.config.next == ""
    ensures next.id in Succ(RunGraph(def), at)
  {
    RunGraphAt(def, at, step);
    KnownIds(def, at);
    hide JoinOf, NamedRefs, NormalSteps, RunGraph;
  }

  lemma BranchMove(def: Definition, forks: Forks, at: string, step: Step, completed: seq<string>, next: string,
                   f: string, k: nat)
    requires Tame(def) && IsStep(def, at, step) && !step.kind.Fork? && Legit(step, next)
    requires ForksOk(def, forks, at, completed) && at in completed
    requires RunningAt(forks, f, k) && ForkOk(def, f, forks[f], k, at, completed)
    ensures var move := NextAfterBranchStep(def, f, k, step, forks, next);
      GoodMove(def, forks, at, completed, move) || JoinEntered(def, forks, move)
    ensures JoinsApart(def) ==> GoodMove(def, forks, at, completed, NextAfterBranchStep(def, f, k, step, forks, next))
  {
    var fork := StepById(def.steps, f).value;
    NotBoth(def, forks, at, completed, NextAfterBranchStep(def, f, k, step, forks, next));
    StepIsGood(def, at);
    StepIsGood(def, f);
    NoEmptyId(def);
    KnownIds(def, at);
    GoodStepHasId(def, fork);
    assert forks[f].join == JoinOf(def, fork) && InRegion(def, fork, at);
    hide Tame, JoinsApart, GoodMove, JoinEntered, ForksOk, ForkOk, JoinOf, Ids, StepById, GoodStep, InRegion, Heads, RunGraph;
    var to := NamedNext(step, next);
    if to != "" && to != forks[f].join {
      NamedNextKnown(def, step, next);
      NamedIsReference(step, next);
      RegionGoesOn(def, fork, at, step, to);
      ReferenceIsEdge(def, at, step, to);
      RegionEdge(def, forks[f].join, at, step, to);
      BranchGoesOn(def, forks, f, k, at, to, completed);
    } else {
      assert LeavesBy(step, forks[f].join, next);
      assert MayLeave(def, forks[f].join, at);
      BranchEnds(def, forks, f, k, at, completed);
    }
  }

  lemma RegionEdge(def: Definition, join: string, at: string, step: Step, to: string)
    requires IsStep(def, at, step) && at != "" && at != join && to in BranchRefs(step)
    ensures to in Succ(RegionGraph(def, join), at)
  {
    hide BranchRefs;
    RegionGraphAt(def, join, at);
    hide StepById;
  }

  lemma OutsideEdge(def: Definition, at: string, step: Step, next: string)
    requires Tame(def) && IsStep(def, at, step) && !step.kind.Fork? && Legit(step, next)
    ensures var to := NextOutsideFork(MachineOf(def), step, next);
      to.Some? ==> to.value.id in Ids(def) && to.value.id in Succ(RunGraph(def), at)
  {
    var to := NextOutsideFork(MachineOf(def), step, next);
    if to.Some? {
      StepIsGood(def, at);
      KnownIds(def, at);
      MachineOfOk(def);
      NextNormalKnown(MachineOf(def), NormalSteps(def, |def.steps|), at);
      KnownIds(def, to.value.id);
      hide Tame, JoinOf, Ids, GoodStep, RunGraph, Legit, NormalSteps;
      if NamedNext(step, next) != "" {
        KnownIds(def, NamedNext(step, next));
        NamedNextKnown(def, step, next);
        NamedIsReference(step, next);
        ReferenceIsEdge(def, at, step, NamedNext(step, next));
      } else {
        LinearNextIsEdge(def, at, step, to.value);
      }
    }
  }

  lemma EdgeMove(def: Definition, forks: Forks, at: string, completed: seq<string>, after: Forks, to: Step)
    requires ForksOk(def, after, at, completed) && Idle(forks) && Idle(after) && forks.Keys == after.Keys
    requires to.id in Ids(def) && to.id in Succ(RunGraph(def), at)
    ensures GoodMove(def, forks, at, completed, Move(after, Some(to)))
  {
    IdleAnywhere(def, after, at, to.id, completed);
    hide ForksOk, RunGraph, Ids;
  }

  lemma OutsideMove(def: Definition, forks: Forks, at: string, step: Step, completed: seq<string>, next: string)
    requires Tame(def) && IsStep(def, at, step) && !step.kind.Fork? && Legit(step, next)
    requires ForksOk(def, forks, at, completed) && Idle(forks)
    ensures var after := if step.kind.Join? then MarkJoined(at, forks) else forks;
      var to := NextOutsideFork(MachineOf(def), step, next);
      (to.Some? ==> GoodMove(def, forks, at, completed, Move(after, to))) &&
      ForksOk(def, after, at, completed) && Idle(after)
  {
    var after := if step.kind.Join? then MarkJoined(at, forks) else forks;
    var to := NextOutsideFork(MachineOf(def), step, next);
    hide *;
    OutsideEdge(def, at, step, next);
    MarkJoinedKeepsOrder(def, forks, at, at, completed);
    SameForks(at, forks);
    if to.Some? {
      EdgeMove(def, forks, at, completed, after, to.value);
    }
  }

  lemma SameForks(join: string, forks: Forks)
    ensures MarkJoined(join, forks).Keys == forks.Keys
  {
  }

  /** Every move of the machine from an orderly state is a good one, unless it begins a branch at the join of its fork. */
  lemma NextAfterIsGood(def: Definition, forks: Forks, at: string, step: Step, completed: seq<string>, next: string,
                        pick: Pick)
    requires Tame(def) && IsStep(def, at, step) && Legit(step, next)
    requires ForksOk(def, forks, at, completed) && at in completed && CanPick(step, forks, pick)
    ensures var move := NextAfter(MachineOf(def), step, forks, next, pick);
      && (move.step.Some? ==> GoodMove(def, forks, at, completed, move) || JoinEntered(def, forks, move))
      && (move.step.Some? && JoinsApart(def) ==> GoodMove(def, forks, at, completed, move))
      && (move.step.None? ==> ForksOk(def, move.forks, at, completed) && Idle(move.forks))
      && (step.kind.Fork? ==> at in move.forks)
  {
    KnownIds(def, at);
    if step.kind.Fork? {
      ForkMove(def, forks, at, step, completed);
    } else {
      PickIsUnique(def, forks, at, completed, pick, pick);
      hide Tame, ForksOk, ForkOk, StepById, GoodMove, NextOutsideFork, NextAfterBranchStep, Legit, IsPick;
      if pick.InBranch? {
        BranchMove(def, forks, at, step, completed, next, pick.fork, pick.index);
      } else {
        OutsideMove(def, forks, at, step, completed, next);
      }
    }
  }
}
