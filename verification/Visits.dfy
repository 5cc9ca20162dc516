/** When no step runs again after it has completed: branches that share at most their last steps and are entered only from
    their fork, and no loop. */
module Visits {
  import opened Workflow
  import opened Graph
  import opened Regions
  import opened Machines
  import opened Saga
  import opened Interpreter
  import opened Rows
  import opened ForkShape
  import opened Moves
  import opened Runs
  import opened Termination
  import opened Acceptance
  import opened Limits
  import opened EndlessRuns

  /** `id` belongs to branch `i` of fork `f`. */
  ghost predicate InBranchOf(def: Definition, f: string, i: int, id: string) {
    && StepById(def.steps, f).Some? && StepById(def.steps, f).value.kind.Fork?
    && 0 <= i < |Heads(StepById(def.steps, f).value)|
    && InRegionOfHead(def, JoinOf(def, StepById(def.steps, f).value), Heads(StepById(def.steps, f).value)[i], id)
  }

  ghost predicate Outside(def: Definition, id: string) {
    forall f, i :: !InBranchOf(def, f, i, id)
  }

  /** `id` belongs to two branches, of one fork or of two. */
  ghost predicate IsShared(def: Definition, id: string) {
    exists f, i, g, j :: InTwo(def, f, i, g, j, id)
  }

  ghost predicate InTwo(def: Definition, f: string, i: int, g: string, j: int, id: string) {
    InBranchOf(def, f, i, id) && InBranchOf(def, g, j, id) && (f != g || i != j)
  }

  /** A step that branches share is the last of each, and the first of none; and a branch is entered only from its fork. */
  ghost predicate Separate(def: Definition) {
    && (forall a, b :: b in Succ(RunGraph(def), a) && IsShared(def, a) ==> Outside(def, b))
    && (forall f, a :: a in Succ(RunGraph(def), f) && IsShared(def, a) ==> !Outside(def, f))
    && (forall f, i, a, b :: b in Succ(RunGraph(def), a) && InBranchOf(def, f, i, b) && !IsShared(def, b) ==>
          a == f || InBranchOf(def, f, i, a))
  }

  lemma EnteredFromFork(def: Definition, f: string, i: int, a: string, b: string)
    requires Separate(def) && b in Succ(RunGraph(def), a) && InBranchOf(def, f, i, b)
    ensures a == f || !Outside(def, a)
  {
    hide InBranchOf, IsShared, RunGraph;
  }

  lemma OnlyBranch(def: Definition, f: string, k: int, at: string)
    requires InBranchOf(def, f, k, at)
    ensures !IsShared(def, at) ==> forall g, i :: InBranchOf(def, g, i, at) ==> g == f && i == k
    ensures !Outside(def, at)
  {
    hide InBranchOf;
    if !IsShared(def, at) {
      forall g, i | InBranchOf(def, g, i, at) ensures g == f && i == k {
        assert !InTwo(def, g, i, f, k, at);
      }
    }
  }

  lemma BranchIsOfFork(def: Definition, f: string, i: int, id: string)
    requires InBranchOf(def, f, i, id)
    ensures StepById(def.steps, f).Some? && StepById(def.steps, f).value.kind.Fork?
  {
    hide InRegionOfHead, StepById;
  }

  lemma BranchIsRegion(def: Definition, f: string, i: int, id: string)
    requires InBranchOf(def, f, i, id)
    ensures InRegion(def, StepById(def.steps, f).value, id)
  {
    hide JoinOf, InRegionOfHead, StepById, Heads;
  }

  lemma HeadInBranch(def: Definition, f: string, step: Step, i: nat)
    requires IsStep(def, f, step) && step.kind.Fork? && i < |Heads(step)|
    requires Heads(step)[i] in Ids(def) && Heads(step)[i] != "" && Heads(step)[i] != JoinOf(def, step)
    ensures InBranchOf(def, f, i, Heads(step)[i])
  {
    hide JoinOf, Heads, Reaches, StepById;
    ReachesSelf(RegionGraph(def, JoinOf(def, step)), Heads(step)[i]);
  }

  lemma BranchStays(def: Definition, f: string, fork: Step, i: int, at: string, step: Step, to: string)
    requires InBranchOf(def, f, i, at) && IsStep(def, f, fork) && IsStep(def, at, step) && to in BranchRefs(step)
    requires to in Ids(def) && to != "" && to != JoinOf(def, fork)
    ensures InBranchOf(def, f, i, to)
  {
    hide JoinOf, BranchRefs, Heads, Reaches;
    var join := JoinOf(def, fork);
    RegionGraphAt(def, join, at);
    ReachesStep(RegionGraph(def, join), Heads(fork)[i], at, to);
  }

  lemma BranchHoldsNoFork(def: Definition, f: string, i: int, id: string, step: Step)
    requires Disciplined(def) && InBranchOf(def, f, i, id) && IsStep(def, id, step)
    ensures !step.kind.Fork?
  {
    BranchIsRegion(def, f, i, id);
    hide Tame, JoinsApart, InRegion, StepById, JoinOf, Heads, InRegionOfHead;
    RegionHasNoFork(def, f, StepById(def.steps, f).value, id, step);
  }

  /** A fork step is in no branch, nor is the join of a fork. */
  lemma ForkIsOutside(def: Definition, f: string, fork: Step)
    requires Disciplined(def) && IsStep(def, f, fork) && fork.kind.Fork?
    ensures Outside(def, f)
  {
    hide Tame, JoinsApart, InBranchOf, StepById;
    forall g, i ensures !InBranchOf(def, g, i, f) {
      if InBranchOf(def, g, i, f) {
        BranchHoldsNoFork(def, g, i, f, fork);
      }
    }
  }

  lemma BranchAvoidsJoin(def: Definition, f: string, fork: Step, i: int, id: string)
    requires InBranchOf(def, f, i, id) && IsStep(def, f, fork)
    ensures id != JoinOf(def, fork)
  {
    BranchIsRegion(def, f, i, id);
    hide InRegion, StepById, JoinOf, Heads, InRegionOfHead;
    RegionAvoids(def, fork, id);
  }

  lemma JoinIsOutside(def: Definition, f: string, fork: Step)
    requires Disciplined(def) && Separate(def) && IsStep(def, f, fork) && fork.kind.Fork?
    ensures Outside(def, JoinOf(def, fork))
  {
    var join := JoinOf(def, fork);
    hide Tame, JoinsApart, RunGraph, StepById, JoinOf, InBranchOf, Separate;
    JoinIsEdge(def, f, fork);
    ForkIsOutside(def, f, fork);
    forall g, i ensures !InBranchOf(def, g, i, join) {
      if InBranchOf(def, g, i, join) {
        EnteredFromFork(def, g, i, f, join);
        BranchAvoidsJoin(def, f, fork, i, join);
      }
    }
  }

  /** Everything completed, but for shared steps, lies behind the instance: outside branches, at a higher rank; in the
      branches of the running fork, in an earlier branch or at a higher rank of the same. */
  ghost predicate Behind(def: Definition, order: seq<string>, forks: Forks, at: string, completed: seq<string>) {
    && (Idle(forks) ==> Outside(def, at) && BehindOutside(def, order, Rank(order, at), completed))
    && (forall f, k: nat :: RunningAt(forks, f, k) ==> BehindInside(def, order, f, k, at, completed))
  }

  /** What is completed outside branches has a rank above `rank`. */
  ghost predicate BehindOutside(def: Definition, order: seq<string>, rank: int, completed: seq<string>) {
    forall id :: id in completed && Outside(def, id) ==> rank < Rank(order, id)
  }

  ghost predicate BehindInside(def: Definition, order: seq<string>, f: string, k: int, at: string, completed: seq<string>) {
    && InBranchOf(def, f, k, at) && BehindOutside(def, order, Rank(order, f) - 1, completed)
    && (forall i, id :: id in completed && InBranchOf(def, f, i, id) && !IsShared(def, id) ==>
          i < k || (i == k && Rank(order, at) < Rank(order, id)))
  }

  /** Forks that started are completed, and so is no branch of a fork that did not start. */
  ghost predicate StartedForks(def: Definition, forks: Forks, completed: seq<string>) {
    && (forall f :: f in forks ==> f in completed)
    && (forall f, i, id :: id in completed && InBranchOf(def, f, i, id) && !IsShared(def, id) ==> f in forks)
  }

  /** Where the instance stands it has not been before, unless it is at a shared step. */
  lemma BehindIsNew(def: Definition, order: seq<string>, forks: Forks, at: string, completed: seq<string>)
    requires ForksOk(def, forks, at, completed) && Behind(def, order, forks, at, completed)
    ensures at !in completed || IsShared(def, at)
    ensures Idle(forks) ==> at !in completed
  {
    hide ForkOk, InBranchOf, Rank, IsShared;
    if f :| f in forks && forks[f].status.ForkRunning? {
      var k := ForkRunsAt(def, forks, at, completed, f);
      assert BehindInside(def, order, f, k, at, completed);
    }
  }

  /** A fork starts. */
  lemma EnterIsNew(def: Definition, order: seq<string>, forks: Forks, at: string, step: Step, completed: seq<string>,
                   fork: ForkState, to: string)
    requires IsStep(def, at, step) && step.kind.Fork? && at !in forks && InBranchOf(def, at, 0, to)
    requires RunOrder(def, order) && at in order
    requires Idle(forks) && Behind(def, order, forks, at, completed) && StartedForks(def, forks, completed)
    requires Outside(def, at) && RunningAt(forks[at := fork], at, 0)
    requires ForksOk(def, forks[at := fork], to, completed + [at])
    ensures Behind(def, order, forks[at := fork], to, completed + [at])
    ensures StartedForks(def, forks[at := fork], completed + [at])
  {
    var after, more := forks[at := fork], completed + [at];
    hide InBranchOf, Rank, RunOrder, ForkOk, StepById, IsShared;
    assert BehindInside(def, order, at, 0, to, more);
    forall f, k: nat | RunningAt(after, f, k) ensures f == at && k == 0 {
      assert f == at;
    }
  }

  lemma SameStarted(def: Definition, forks: Forks, at: string, completed: seq<string>, after: Forks)
    requires StartedForks(def, forks, completed) && after.Keys == forks.Keys
    requires forall f, i :: InBranchOf(def, f, i, at) && !IsShared(def, at) ==> f in forks
    ensures StartedForks(def, after, completed + [at])
  {
    hide InBranchOf, IsShared;
  }

  /** A step outside forks leads on. */
  lemma OutsideIsNew(def: Definition, order: seq<string>, forks: Forks, at: string, step: Step, completed: seq<string>,
                     after: Forks, to: string)
    requires Separate(def) && RunOrder(def, order) && at in order && IsStep(def, at, step) && !step.kind.Fork?
    requires Idle(forks) && Behind(def, order, forks, at, completed) && StartedForks(def, forks, completed)
    requires Idle(after) && after.Keys == forks.Keys && to in Succ(RunGraph(def), at)
    ensures Behind(def, order, after, to, completed + [at]) && StartedForks(def, after, completed + [at])
  {
    hide Separate, InBranchOf, Rank, RunOrder, StepById, RunGraph, IsShared;
    EdgeLowersRank(def, order, at, to);
    forall f, i ensures !InBranchOf(def, f, i, to) {
      if InBranchOf(def, f, i, to) {
        EnteredFromFork(def, f, i, at, to);
        BranchIsOfFork(def, f, i, to);
      }
    }
    SameStarted(def, forks, at, completed, after);
  }

  lemma OneRuns(def: Definition, order: seq<string>, forks: Forks, f: string, k: nat, at: string, completed: seq<string>)
    requires ForksOk(def, forks, at, completed) && RunningAt(forks, f, k)
    requires BehindInside(def, order, f, k, at, completed)
    ensures Behind(def, order, forks, at, completed)
  {
    hide ForkOk, BehindInside, Outside, BehindOutside;
    forall g, j: nat | RunningAt(forks, g, j) ensures g == f && j == k {
      assert g == f;
    }
  }

  /** What is known of the running branch. */
  ghost predicate InRunningBranch(def: Definition, order: seq<string>, forks: Forks, f: string, k: nat, at: string,
                                  completed: seq<string>) {
    && RunningAt(forks, f, k) && BehindInside(def, order, f, k, at, completed) && StartedForks(def, forks, completed)
  }

  /** The branch goes on, or the next one starts. */
  lemma InsideIsNew(def: Definition, order: seq<string>, forks: Forks, f: string, k: nat, at: string,
                    completed: seq<string>, fork: ForkState, j: nat, to: string)
    requires Separate(def) && InRunningBranch(def, order, forks, f, k, at, completed)
    requires InBranchOf(def, f, j, to) && (j == k + 1 || (j == k && Rank(order, to) < Rank(order, at)))
    requires RunningAt(forks[f := fork], f, j) && ForksOk(def, forks[f := fork], to, completed + [at])
    ensures Behind(def, order, forks[f := fork], to, completed + [at])
    ensures StartedForks(def, forks[f := fork], completed + [at])
  {
    hide Separate, InBranchOf, Rank, ForksOk, IsShared;
    OnlyBranch(def, f, k, at);
    assert BehindInside(def, order, f, j, to, completed + [at]);
    SameStarted(def, forks, at, completed, forks[f := fork]);
    OneRuns(def, order, forks[f := fork], f, j, to, completed + [at]);
  }

  /** The last branch ends. */
  lemma LeaveIsNew(def: Definition, order: seq<string>, forks: Forks, f: string, k: nat, at: string,
                   completed: seq<string>, fork: ForkState, to: string)
    requires Separate(def) && InRunningBranch(def, order, forks, f, k, at, completed)
    requires Idle(forks[f := fork]) && Outside(def, to) && Rank(order, to) < Rank(order, f)
    ensures Behind(def, order, forks[f := fork], to, completed + [at])
    ensures StartedForks(def, forks[f := fork], completed + [at])
  {
    hide Separate, InBranchOf, Rank, IsShared;
    OnlyBranch(def, f, k, at);
    SameStarted(def, forks, at, completed, forks[f := fork]);
  }

  /** The running branch `k` of `f` goes on to `to`. */
  lemma BranchGoesOnIs(def: Definition, forks: Forks, f: string, k: nat, step: Step, next: string)
    requires RunningAt(forks, f, k) && AtStep(forks[f].branches[k], step.id)
    requires NamedNext(step, next) != "" && NamedNext(step, next) != forks[f].join
    ensures var after := forks[f := ForkAfter(forks[f], k, step.id, NamedNext(step, next))];
      && NextAfterBranchStep(def, f, k, step, forks, next) == Move(after, StepById(def.steps, NamedNext(step, next)))
      && RunningAt(after, f, k)
  {
    hide StepById, NamedNext;
  }

  /** It ends, and the next branch starts, or the fork is left. */
  lemma BranchEndIs(def: Definition, forks: Forks, f: string, k: nat, fork: Step, at: string, completed: seq<string>,
                    step: Step, next: string)
    requires IsStep(def, f, fork) && RunningAt(forks, f, k) && ForkOk(def, f, forks[f], k, at, completed) && step.id == at
    requires k + 1 < |Heads(fork)| ==> Heads(fork)[k + 1] != ""
    requires NamedNext(step, next) == "" || NamedNext(step, next) == forks[f].join
    ensures |Heads(fork)| == |forks[f].branches| && forks[f].join == JoinOf(def, fork)
    ensures var ended := ForkAfter(forks[f], k, at, "");
      var move := NextAfterBranchStep(def, f, k, step, forks, next);
      if k + 1 < |Heads(fork)| then
        move == Move(forks[f := ForkResumed(ended, k + 1)], StepById(def.steps, Heads(fork)[k + 1])) &&
        RunningAt(move.forks, f, k + 1)
      else move == Move(forks[f := ended.(status := ForkCompleted)], StepById(def.steps, forks[f].join))
  {
    var ended := ForkAfter(forks[f], k, at, "");
    hide JoinOf, Heads, StepById, ForkOk, InRegion, RunningAt, FirstOpen, InOrder, NextForkStep;
    OrderlyFork(def, forks, f, k, fork, at, completed);
    EndedFork(forks, f, k, at, Heads(fork));
    ResumeMove(def, forks, f, ended, k + 1);
    assert NextAfterBranchStep(def, f, k, step, forks, next) == NextForkStep(def, f, forks[f := ended]) by {
      hide *;
      EndsBranch(def, forks, f, k, step, next);
    }
  }

  lemma EndsBranch(def: Definition, forks: Forks, f: string, k: nat, step: Step, next: string)
    requires RunningAt(forks, f, k)
    requires NamedNext(step, next) == "" || NamedNext(step, next) == forks[f].join
    ensures NextAfterBranchStep(def, f, k, step, forks, next) ==
      NextForkStep(def, f, forks[f := ForkAfter(forks[f], k, step.id, "")])
  {
    hide NextForkStep, StepById, NamedNext;
  }

  lemma EndedFork(forks: Forks, f: string, k: nat, at: string, heads: seq<string>)
    requires RunningAt(forks, f, k) && |forks[f].branches| == |heads|
    requires forall i :: k < i < |heads| ==> forks[f].branches[i] == PendingBranch(heads[i])
    requires k + 1 < |heads| ==> heads[k + 1] != ""
    ensures f in forks && k < |forks[f].branches|
    ensures var ended := ForkAfter(forks[f], k, at, "");
      && FirstOpen(ended.branches) == k + 1
      && (k + 1 < |heads| ==>
            Resumed(ended.branches[k + 1]).current == heads[k + 1] && RunningAt(forks[f := ForkResumed(ended, k + 1)], f, k + 1))
  {
    FirstOpenIs(ForkAfter(forks[f], k, at, "").branches, k + 1);
    hide FirstOpen;
  }

  lemma HeadIsNext(def: Definition, f: string, fork: Step, i: nat)
    requires Disciplined(def) && IsStep(def, f, fork) && fork.kind.Fork? && i < |Heads(fork)|
    ensures InBranchOf(def, f, i, Heads(fork)[i]) && StepById(def.steps, Heads(fork)[i]).Some?
    ensures StepById(def.steps, Heads(fork)[i]).value.id == Heads(fork)[i]
  {
    HeadsKnown(def, f, fork);
    StepIsGood(def, f);
    GoodStepHasId(def, fork);
    KnownIds(def, Heads(fork)[i]);
    hide Tame, JoinsApart, JoinOf, GoodStep, StepById, InBranchOf;
    HeadInBranch(def, f, fork, i);
  }

  /** The forks after a move, and that what was completed is behind. */
  ghost predicate NewMove(def: Definition, order: seq<string>, move: Move, completed: seq<string>) {
    move.step.Some? ==>
      Behind(def, order, move.forks, move.step.value.id, completed) && StartedForks(def, move.forks, completed)
  }

  ghost predicate Positioned(def: Definition, order: seq<string>, forks: Forks, at: string, completed: seq<string>) {
    && RunOrder(def, order) && at in order && (forall f :: f in forks ==> f in order)
    && ForksOk(def, forks, at, completed) && Behind(def, order, forks, at, completed) && StartedForks(def, forks, completed)
  }

  lemma ForkIsNew(def: Definition, order: seq<string>, forks: Forks, at: string, step: Step, completed: seq<string>)
    requires Disciplined(def) && Separate(def) && IsStep(def, at, step) && step.kind.Fork?
    requires Positioned(def, order, forks, at, completed)
    ensures NewMove(def, order, NextForkStep(def, at, StartFork(def, step, forks)), completed + [at])
  {
    ForkStepIsOutside(def, forks, at, step, completed);
    BehindIsNew(def, order, forks, at, completed);
    assert at !in forks;
    ForksOkGrow(def, forks, at, completed, completed + [at]);
    ForkMove(def, forks, at, step, completed + [at]);
    HeadsKnown(def, at, step);
    ForkHeads(def, at, step);
    HeadIsNext(def, at, step, 0);
    StartedForkMove(def, forks, at, step);
    assert Outside(def, at);
    var fork := ForkState(ForkRunning, JoinOf(def, step), FirstBranchRuns(Heads(step)[0], PendingBranches(Heads(step))));
    assert RunningAt(forks[at := fork], at, 0);
    hide Tame, JoinsApart, Separate, Behind, StartedForks, ForkOk, InBranchOf, RunOrder, StepById, JoinOf, Heads, Advances,
      NextForkStep, StartFork, PendingBranches, FirstBranchRuns, Ids;
    EnterIsNew(def, order, forks, at, step, completed, fork, Heads(step)[0]);
  }

  lemma ForkHeads(def: Definition, at: string, step: Step)
    requires Disciplined(def) && IsStep(def, at, step) && step.kind.Fork?
    ensures Heads(step) != [] && step.id == at && Heads(step)[0] != "" && JoinOf(def, step) != ""
  {
    StepIsGood(def, at);
    NoEmptyId(def);
    GoodStepHasId(def, step);
    KnownIds(def, at);
    HeadsKnown(def, at, step);
  }

  lemma OutsideMoveIsNew(def: Definition, order: seq<string>, forks: Forks, at: string, step: Step,
                         completed: seq<string>, next: string)
    requires Disciplined(def) && Separate(def) && IsStep(def, at, step) && !step.kind.Fork? && Legit(step, next)
    requires Positioned(def, order, forks, at, completed) && Idle(forks)
    ensures var after := if step.kind.Join? then MarkJoined(at, forks) else forks;
      NewMove(def, order, Move(after, NextOutsideFork(MachineOf(def), step, next)), completed + [at])
  {
    var to := NextOutsideFork(MachineOf(def), step, next);
    OutsideEdge(def, at, step, next);
    MarkJoinedKeepsOrder(def, forks, at, at, completed);
    SameForks(at, forks);
    hide Tame, JoinsApart, Separate, Behind, StartedForks, ForksOk, RunOrder, StepById, NextOutsideFork, MarkJoined, RunGraph, Idle;
    if to.Some? {
      OutsideIsNew(def, order, forks, at, step, completed, if step.kind.Join? then MarkJoined(at, forks) else forks,
        to.value.id);
    }
  }

  /** A branch step hands over to a step of its branch. */
  lemma BranchNextIsNew(def: Definition, order: seq<string>, forks: Forks, at: string, step: Step, completed: seq<string>,
                        next: string, f: string, k: nat)
    requires Disciplined(def) && Separate(def) && IsStep(def, at, step) && !step.kind.Fork? && Legit(step, next)
    requires Positioned(def, order, forks, at, completed) && RunningAt(forks, f, k)
    requires ForkOk(def, f, forks[f], k, at, completed)
    requires NamedNext(step, next) != "" && NamedNext(step, next) != forks[f].join
    ensures NewMove(def, order, NextAfterBranchStep(def, f, k, step, forks, next), completed + [at])
  {
    var to, fork := NamedNext(step, next), StepById(def.steps, f).value;
    assert BehindInside(def, order, f, k, at, completed) && forks[f].join == JoinOf(def, fork);
    KnownIds(def, at);
    ForksOkGrow(def, forks, at, completed, completed + [at]);
    ForkOkGrows(def, f, forks[f], k, at, at, completed, completed + [at]);
    BranchMove(def, forks, at, step, completed + [at], next, f, k);
    BranchGoesOnIs(def, forks, f, k, step, next);
    StepIsGood(def, at);
    NoEmptyId(def);
    NamedNextKnown(def, step, next);
    NamedIsReference(step, next);
    ReferenceIsEdge(def, at, step, to);
    KnownIds(def, to);
    hide Tame, JoinsApart, Separate, Behind, StartedForks, ForkOk, RunOrder, StepById, JoinOf, Heads, GoodStep, RunGraph, Advances,
      NextAfterBranchStep, InBranchOf, NamedNext, Legit, RunningAt, Ids, Rank, ForksOk;
    EdgeLowersRank(def, order, at, to);
    BranchStays(def, f, fork, k, at, step, to);
    InsideIsNew(def, order, forks, f, k, at, completed, ForkAfter(forks[f], k, at, to), k, to);
  }

  /** No branch begins with a shared step, and no join is one. */
  lemma ForkEdgeIsNotShared(def: Definition, f: string, fork: Step, to: string)
    requires Disciplined(def) && Separate(def) && IsStep(def, f, fork) && fork.kind.Fork? && to in Succ(RunGraph(def), f)
    ensures !IsShared(def, to)
  {
    ForkIsOutside(def, f, fork);
    hide Tame, JoinsApart, IsShared, Outside, RunGraph, InBranchOf;
  }

  /** A branch ends. */
  lemma BranchEndIsNew(def: Definition, order: seq<string>, forks: Forks, at: string, step: Step, completed: seq<string>,
                       next: string, f: string, k: nat)
    requires Disciplined(def) && Separate(def) && IsStep(def, at, step) && !step.kind.Fork? && Legit(step, next)
    requires Positioned(def, order, forks, at, completed) && RunningAt(forks, f, k)
    requires ForkOk(def, f, forks[f], k, at, completed)
    requires NamedNext(step, next) == "" || NamedNext(step, next) == forks[f].join
    ensures var move := NextAfterBranchStep(def, f, k, step, forks, next);
      NewMove(def, order, move, completed + [at]) && move.step.Some? && !IsShared(def, move.step.value.id)
  {
    var fork := StepById(def.steps, f).value;
    assert BehindInside(def, order, f, k, at, completed);
    KnownIds(def, at);
    OrderlyFork(def, forks, f, k, fork, at, completed);
    HeadsKnown(def, f, fork);
    ForksOkGrow(def, forks, at, completed, completed + [at]);
    ForkOkGrows(def, f, forks[f], k, at, at, completed, completed + [at]);
    BranchMove(def, forks, at, step, completed + [at], next, f, k);
    BranchEndIs(def, forks, f, k, fork, at, completed, step, next);
    var ended := ForkAfter(forks[f], k, at, "");
    hide Tame, JoinsApart, Separate, Behind, StartedForks, ForkOk, RunOrder, StepById, JoinOf, Heads, RunGraph, Advances,
      NextAfterBranchStep, InBranchOf, NamedNext, Legit, RunningAt, Ids, Rank, ForksOk, InRegion, IsShared;
    if k + 1 < |Heads(fork)| {
      HeadIsNext(def, f, fork, k + 1);
      HeadIsEdge(def, f, fork, k + 1);
      ForkEdgeIsNotShared(def, f, fork, Heads(fork)[k + 1]);
      InsideIsNew(def, order, forks, f, k, at, completed, ForkResumed(ended, k + 1), k + 1, Heads(fork)[k + 1]);
    } else {
      var over := ended.(status := ForkCompleted);
      OnlyForkStops(def, forks, at, completed, f, k, over);
      JoinIsOutside(def, f, fork);
      JoinIsEdge(def, f, fork);
      EdgeLowersRank(def, order, f, JoinOf(def, fork));
      KnownIds(def, JoinOf(def, fork));
      ForkEdgeIsNotShared(def, f, fork, JoinOf(def, fork));
      LeaveIsNew(def, order, forks, f, k, at, completed, over, JoinOf(def, fork));
    }
  }

  /** Every move leads to a step that was not there before. */
  lemma MoveIsNew(def: Definition, order: seq<string>, forks: Forks, at: string, step: Step, completed: seq<string>,
                  next: string, pick: Pick)
    requires Disciplined(def) && Separate(def) && IsStep(def, at, step) && Legit(step, next)
    requires Positioned(def, order, forks, at, completed) && CanPick(step, forks, pick)
    ensures NewMove(def, order, NextAfter(MachineOf(def), step, forks, next, pick), completed + [at])
  {
    KnownIds(def, at);
    if step.kind.Fork? {
      hide Separate, Positioned, NewMove, NextForkStep, StartFork, NormalSteps, StepById, Tame, JoinsApart;
      ForkIsNew(def, order, forks, at, step, completed);
    } else {
      PositionedForks(def, order, forks, at, completed);
      PickIsUnique(def, forks, at, completed, pick, pick);
      hide Separate, Positioned, NewMove, NextAfterBranchStep, NextOutsideFork, NormalSteps, StepById, Tame, JoinsApart, ForksOk,
        ForkOk, MarkJoined, IsPick, Legit, NamedNext;
      if pick.NoBranch? {
        OutsideMoveIsNew(def, order, forks, at, step, completed, next);
      } else if NamedNext(step, next) != "" && NamedNext(step, next) != forks[pick.fork].join {
        BranchNextIsNew(def, order, forks, at, step, completed, next, pick.fork, pick.index);
      } else {
        BranchEndIsNew(def, order, forks, at, step, completed, next, pick.fork, pick.index);
      }
    }
  }

  lemma PositionedForks(def: Definition, order: seq<string>, forks: Forks, at: string, completed: seq<string>)
    requires Positioned(def, order, forks, at, completed)
    ensures ForksOk(def, forks, at, completed) && (at !in completed || IsShared(def, at))
  {
    hide ForksOk, RunOrder, StartedForks;
    BehindIsNew(def, order, forks, at, completed);
  }

  /** What is active is active for the first time, and everything completed has a record. */
  ghost predicate FirstTime(def: Definition, order: seq<string>, a: Progress) {
    && (a.phase == Ready(None) ==> a.completed == [])
    && (Cursor(a).Some? ==>
          Behind(def, order, a.forks, Cursor(a).value, a.completed) && StartedForks(def, a.forks, a.completed))
    && (a.phase.Active? ==> a.phase.step !in a.completed)
    && (Cursor(a).Some? ==> forall id :: id in a.completed ==> id in a.done)
  }

  lemma PathIsOutside(def: Definition, id: string)
    requires !IsBranchStep(def, id)
    ensures Outside(def, id)
  {
    hide IsBranchStep, InBranchOf;
    forall f, i ensures !InBranchOf(def, f, i, id) {
      if InBranchOf(def, f, i, id) {
        BranchIsBranchStep(def, f, i, id);
      }
    }
  }

  lemma BranchIsBranchStep(def: Definition, f: string, i: int, id: string)
    requires InBranchOf(def, f, i, id)
    ensures IsBranchStep(def, id)
  {
    var fork := StepById(def.steps, f).value;
    BranchIsRegion(def, f, i, id);
    hide InRegion, InRegionOfHead, JoinOf, Heads;
    RegionIsOffPath(def, fork, id);
  }

  lemma FirstIsNew(def: Definition, order: seq<string>, id: string)
    requires Disciplined(def) && IsFirst(def, id)
    ensures Behind(def, order, map[], id, []) && StartedForks(def, map[], [])
  {
    AllUnique(def);
    LinearIsOnPath(def, 0);
    hide InBranchOf, IsBranchStep, Tame, JoinsApart, NormalSteps, StepById;
    PathIsOutside(def, id);
  }

  /** What is known of an instance in the course of a run. */
  ghost predicate OnTheWay(def: Definition, order: seq<string>, a: Progress) {
    Sound(def, a) && Listed(order, a) && FirstTime(def, order, a)
  }

  lemma OnTheWayFacts(def: Definition, order: seq<string>, a: Progress, at: string)
    requires RunOrder(def, order) && OnTheWay(def, order, a) && Cursor(a) == Some(at)
    ensures Positioned(def, order, a.forks, at, a.completed)
    ensures StepById(def.steps, at).Some? && StepById(def.steps, at).value.id == at
    ensures at !in a.completed || IsShared(def, at)
    ensures a.phase.Active? ==> at !in a.completed
    ensures at in a.done <==> at in a.completed
    ensures at in a.done ==> Legit(StepById(def.steps, at).value, a.done[at])
  {
    KnownIds(def, at);
    hide ForksOk, Behind, StartedForks, RunOrder, StepById, Legit, IsShared;
    BehindIsNew(def, order, a.forks, at, a.completed);
  }

  /** The first step starts. */
  lemma FirstStartIsNew(def: Definition, order: seq<string>, a: Progress, pick: Pick)
    requires Disciplined(def) && OnTheWay(def, order, a) && Enabled(MachineOf(def), a, Start(pick))
    requires a.phase.current.None?
    ensures FirstTime(def, order, Next(MachineOf(def), a, Start(pick)))
  {
    var move := Resolved(MachineOf(def), a, pick);
    FirstIsNew(def, order, move.step.value.id);
    assert move.forks == map[] && a.completed == [];
    assert Next(MachineOf(def), a, Start(pick)) == Started(a, move.step.value.id, move.forks);
    hide Behind, StartedForks, Next, Enabled, Resolved, OnTheWay, Disciplined;
  }

  /** The step the instance stands at starts. */
  lemma StandIsNew(def: Definition, order: seq<string>, a: Progress, pick: Pick)
    requires RunOrder(def, order) && OnTheWay(def, order, a) && Enabled(MachineOf(def), a, Start(pick))
    requires a.phase.current.Some? && a.phase.current.value !in a.done
    ensures FirstTime(def, order, Next(MachineOf(def), a, Start(pick)))
  {
    var at := a.phase.current.value;
    OnTheWayFacts(def, order, a, at);
    OnTheWayIsSound(def, order, a);
    PositionedFacts(def, order, a.forks, at, a.completed);
    StandStarts(def, a, at, pick);
    hide *;
    StandFirstTime(def, order, a, at);
  }

  lemma StandStarts(def: Definition, a: Progress, at: string, pick: Pick)
    requires Enabled(MachineOf(def), a, Start(pick)) && a.phase == Ready(Some(at)) && at !in a.done
    requires StepById(def.steps, at).Some? && StepById(def.steps, at).value.id == at
    ensures Next(MachineOf(def), a, Start(pick)) == Started(a, at, a.forks)
  {
    hide StepById, NextAfter;
  }

  lemma StandFirstTime(def: Definition, order: seq<string>, a: Progress, at: string)
    requires Behind(def, order, a.forks, at, a.completed) && StartedForks(def, a.forks, a.completed)
    requires at !in a.completed && forall id :: id in a.completed ==> id in a.done
    ensures FirstTime(def, order, Started(a, at, a.forks))
  {
    hide Behind, StartedForks;
  }

  /** Passing over a shared step leads out of the branch, to a step that is not shared. */
  lemma PassIsNew(def: Definition, order: seq<string>, a: Progress, pick: Pick)
    requires Disciplined(def) && Separate(def) && RunOrder(def, order) && OnTheWay(def, order, a)
    requires Enabled(MachineOf(def), a, Start(pick)) && a.phase.current.Some? && a.phase.current.value in a.done
    ensures FirstTime(def, order, Next(MachineOf(def), a, Start(pick)))
  {
    assert a.phase.Ready?;
    hide *;
    DisciplinedIs(def);
    var at := a.phase.current.value;
    ReadyStandsAt(a);
    OnTheWayFacts(def, order, a, at);
    var step := StepById(def.steps, at).value;
    StepIsHere(def, at);
    PositionedForks(def, order, a.forks, at, a.completed);
    PositionedFacts(def, order, a.forks, at, a.completed);
    BehindIsNew(def, order, a.forks, at, a.completed);
    SharedIsInBranch(def, order, a.forks, at, a.completed, step);
    PassPick(def, a, at, step, pick);
    PickIsUnique(def, a.forks, at, a.completed, pick, pick);
    var f, k := pick.fork, pick.index;
    RunningBranchHolds(def, order, a.forks, f, k, at, a.completed);
    SharedLeaves(def, a.forks, f, k, at, step, a.done[at], a.completed);
    BranchEndIsNew(def, order, a.forks, at, step, a.completed, a.done[at], f, k);
    PassMoves(def, order, a, at, step, pick);
    var move := Resolved(MachineOf(def), a, pick);
    NewMoveIs(def, order, move, a.completed + [at]);
    SameCompleted(def, order, move.forks, move.step.value.id, a.completed, at);
    OnTheWayIsSound(def, order, a);
    EventKeepsSound(def, a, Start(pick));
    PassedFirstTime(def, order, a, pick);
  }

  lemma ReadyStandsAt(a: Progress)
    requires a.phase.Ready? && a.phase.current.Some?
    ensures Cursor(a) == Some(a.phase.current.value)
  {
  }

  lemma OnTheWayIsSound(def: Definition, order: seq<string>, a: Progress)
    requires OnTheWay(def, order, a)
    ensures Sound(def, a) && (Cursor(a).Some? ==> forall id :: id in a.completed ==> id in a.done)
  {
    hide Sound, Listed, Behind, StartedForks;
  }

  /** A shared step is visited in a branch, and is no fork. */
  lemma SharedIsInBranch(def: Definition, order: seq<string>, forks: Forks, at: string, completed: seq<string>, step: Step)
    requires Disciplined(def) && Behind(def, order, forks, at, completed) && IsShared(def, at) && IsStep(def, at, step)
    ensures !Idle(forks) && !step.kind.Fork?
  {
    hide Tame, JoinsApart, InBranchOf, Idle, BehindOutside, BehindInside;
    var f, i, g, j :| InTwo(def, f, i, g, j, at);
    BranchHoldsNoFork(def, f, i, at, step);
  }

  lemma PassPick(def: Definition, a: Progress, at: string, step: Step, pick: Pick)
    requires Enabled(MachineOf(def), a, Start(pick)) && a.phase == Ready(Some(at)) && at in a.done && step.id == at
    requires StepById(def.steps, at) == Some(step) && !step.kind.Fork?
    ensures CanPick(step, a.forks, pick) && IsPick(a.forks, at, pick) && ValidPick(a.forks, pick)
  {
    hide IsPick, NextAfter, StepById;
  }

  lemma RunningBranchHolds(def: Definition, order: seq<string>, forks: Forks, f: string, k: nat, at: string,
                           completed: seq<string>)
    requires Behind(def, order, forks, at, completed) && RunningAt(forks, f, k)
    ensures InBranchOf(def, f, k, at)
  {
    hide InBranchOf, BehindOutside, Outside;
    assert BehindInside(def, order, f, k, at, completed);
  }

  lemma SharedLeaves(def: Definition, forks: Forks, f: string, k: nat, at: string, step: Step, next: string,
                     completed: seq<string>)
    requires Disciplined(def) && Separate(def) && IsShared(def, at) && InBranchOf(def, f, k, at)
    requires IsStep(def, at, step) && step.id == at && !step.kind.Fork? && Legit(step, next) && RunningAt(forks, f, k)
    requires ForkOk(def, f, forks[f], k, at, completed)
    ensures NamedNext(step, next) == "" || NamedNext(step, next) == forks[f].join
  {
    var to, fork := NamedNext(step, next), StepById(def.steps, f).value;
    assert forks[f].join == JoinOf(def, fork) && IsStep(def, f, fork);
    hide *;
    DisciplinedIs(def);
    GoodHere(def, at, step);
    NoEmptyId(def);
    if to != "" && to != JoinOf(def, fork) {
      NamedNextKnown(def, step, next);
      NamedIsReference(step, next);
      ReferenceIsEdge(def, at, step, to);
      BranchStays(def, f, fork, k, at, step, to);
      SharedIsLast(def, f, k, at, to);
    }
  }

  lemma GoodHere(def: Definition, at: string, step: Step)
    requires Tame(def) && IsStep(def, at, step)
    ensures GoodStep(def, step)
  {
    StepIsGood(def, at);
    hide Tame, GoodStep;
  }

  lemma SharedIsLast(def: Definition, f: string, k: int, at: string, to: string)
    requires Separate(def) && IsShared(def, at) && to in Succ(RunGraph(def), at)
    ensures !InBranchOf(def, f, k, to)
  {
    hide IsShared, RunGraph, InBranchOf;
    assert Outside(def, to);
  }

  lemma PassMoves(def: Definition, order: seq<string>, a: Progress, at: string, step: Step, pick: Pick)
    requires OnTheWay(def, order, a) && a.phase == Ready(Some(at)) && at in a.done && IsStep(def, at, step)
    requires CanPick(step, a.forks, pick) && !step.kind.Fork? && pick.InBranch? && ValidPick(a.forks, pick)
    ensures Resolved(MachineOf(def), a, pick) ==
      NextAfterBranchStep(def, pick.fork, pick.index, step, a.forks, a.done[at])
  {
    OnTheWayIsSound(def, order, a);
    SkipResolves(def, a, at, step, pick);
    hide OnTheWay, CanPick, Sound, NextAfterBranchStep, NormalSteps, Resolve;
  }

  lemma NewMoveIs(def: Definition, order: seq<string>, move: Move, completed: seq<string>)
    requires NewMove(def, order, move, completed) && move.step.Some?
    ensures Behind(def, order, move.forks, move.step.value.id, completed) && StartedForks(def, move.forks, completed)
  {
    hide Behind, StartedForks;
  }

  lemma SameCompleted(def: Definition, order: seq<string>, forks: Forks, at: string, completed: seq<string>, id: string)
    requires Behind(def, order, forks, at, completed + [id]) && StartedForks(def, forks, completed + [id]) && id in completed
    ensures Behind(def, order, forks, at, completed) && StartedForks(def, forks, completed)
  {
    assert forall x :: x in completed ==> x in completed + [id];
    hide InBranchOf, IsShared, Rank, Idle, RunningAt;
    forall f, k: nat | RunningAt(forks, f, k) ensures BehindInside(def, order, f, k, at, completed) {
      assert BehindInside(def, order, f, k, at, completed + [id]);
    }
  }

  lemma PassedFirstTime(def: Definition, order: seq<string>, a: Progress, pick: Pick)
    requires Enabled(MachineOf(def), a, Start(pick)) && Sound(def, Next(MachineOf(def), a, Start(pick)))
    requires forall id :: id in a.completed ==> id in a.done
    requires var move := Resolved(MachineOf(def), a, pick);
      && Behind(def, order, move.forks, move.step.value.id, a.completed) && StartedForks(def, move.forks, a.completed)
      && !IsShared(def, move.step.value.id)
    ensures FirstTime(def, order, Next(MachineOf(def), a, Start(pick)))
  {
    var move := Resolved(MachineOf(def), a, pick);
    var b := Next(MachineOf(def), a, Start(pick));
    assert b == Started(a, move.step.value.id, move.forks);
    assert ForksOk(def, move.forks, move.step.value.id, a.completed);
    hide Enabled, Next, Sound, Behind, StartedForks, IsShared, ForksOk, Resolved;
    BehindIsNew(def, order, move.forks, move.step.value.id, a.completed);
  }

  lemma StartIsNew(def: Definition, order: seq<string>, a: Progress, pick: Pick)
    requires Disciplined(def) && Separate(def) && RunOrder(def, order) && OnTheWay(def, order, a)
    requires Enabled(MachineOf(def), a, Start(pick))
    ensures FirstTime(def, order, Next(MachineOf(def), a, Start(pick)))
  {
    assert a.phase.Ready?;
    hide *;
    if a.phase.current.Some? && a.phase.current.value in a.done {
      PassIsNew(def, order, a, pick);
    } else if a.phase.current.Some? {
      StandIsNew(def, order, a, pick);
    } else {
      FirstStartIsNew(def, order, a, pick);
    }
  }

  lemma PositionedFacts(def: Definition, order: seq<string>, forks: Forks, at: string, completed: seq<string>)
    requires Positioned(def, order, forks, at, completed)
    ensures Behind(def, order, forks, at, completed) && StartedForks(def, forks, completed)
  {
  }

  lemma FinishIsNew(def: Definition, order: seq<string>, a: Progress, result: Result, pick: Pick)
    requires Disciplined(def) && Separate(def) && RunOrder(def, order) && OnTheWay(def, order, a)
    requires Enabled(MachineOf(def), a, Finish(result, pick))
    ensures FirstTime(def, order, Next(MachineOf(def), a, Finish(result, pick)))
  {
    var at := a.phase.step;
    var step := StepById(def.steps, at).value;
    var move := NextAfter(MachineOf(def), step, a.forks, result.next, pick);
    assert Next(MachineOf(def), a, Finish(result, pick)) == Moved(a, step.id, result.outputNext, move);
    assert CanPick(step, a.forks, pick) && MayResult(step, result);
    hide Tame, JoinsApart, Separate, RunOrder, OnTheWay, Next, Enabled, MayResult, CanPick, IsPick, NextAfter, Positioned, Legit,
      Moved, NormalSteps, StepById, NewMove, FirstTime, GoodStep;
    OnTheWayFacts(def, order, a, at);
    OnTheWayIsSound(def, order, a);
    StepIsGood(def, at);
    MayResultIsLegit(def, step, result);
    MoveIsNew(def, order, a.forks, at, step, a.completed, result.next, pick);
    MovedFirstTime(def, order, a, at, result.outputNext, move);
  }

  lemma MovedFirstTime(def: Definition, order: seq<string>, a: Progress, at: string, next: string, move: Move)
    requires at !in a.completed && NewMove(def, order, move, a.completed + [at])
    requires forall id :: id in a.completed ==> id in a.done
    ensures FirstTime(def, order, Moved(a, at, next, move))
  {
    hide Behind, StartedForks;
  }

  lemma OtherIsNew(def: Definition, order: seq<string>, a: Progress, e: Event)
    requires Enabled(MachineOf(def), a, e) && !e.Start? && !e.Finish?
    ensures FirstTime(def, order, Next(MachineOf(def), a, e))
  {
    hide Resolve, CompensationQueue, MarkBranchFailed, IsPick, Rank, Behind, StartedForks;
  }

  lemma {:induction false} RunIsNew(def: Definition, order: seq<string>, events: seq<Event>, a: Progress)
    requires Disciplined(def) && Separate(def) && RunOrder(def, order) && Run(MachineOf(def), events, a)
    ensures OnTheWay(def, order, a)
    decreases |events|
  {
    hide Tame, JoinsApart, Separate, RunOrder, Sound, Listed, Enabled, Next, FirstTime;
    RunIsSound(def, events, a);
    RunIsBounded(def, order, events, a);
    if events == [] {
      InitialIsNew(def, order);
    } else {
      var last := |events| - 1;
      var b :| RunStep(MachineOf(def), events, b, a);
      RunIsNew(def, order, events[..last], b);
      match events[last]
      case Start(pick) => StartIsNew(def, order, b, pick);
      case Finish(result, pick) => FinishIsNew(def, order, b, result, pick);
      case _ => OtherIsNew(def, order, b, events[last]);
    }
  }

  lemma InitialIsNew(def: Definition, order: seq<string>)
    ensures FirstTime(def, order, INITIAL)
  {
    hide Behind, StartedForks;
  }

  /** When branches share at most their last steps and are entered only from their fork, and no loop can be reached, no step
      is active again after it has completed. */
  lemma VisitedOnce(def: Definition, events: seq<Event>, a: Progress)
    requires Disciplined(def) && Separate(def) && LoopFree(def) && Run(MachineOf(def), events, a)
    ensures a.phase.Active? ==> a.phase.step !in a.completed
  {
    hide Tame, JoinsApart, Separate, LoopFree, Run, RunOrder, OnTheWay, Positioned;
    var order := LoopFreeHasOrder(def);
    RunIsNew(def, order, events, a);
    if a.phase.Active? {
      OnTheWayFacts(def, order, a, a.phase.step);
    }
  }
}
