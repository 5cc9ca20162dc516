/** When runs end. A loop of the run graph that can be reached from the first step can be walked for ever, branches and
    passed-over steps included; so the bound on runs holds exactly for the definitions without one. */
module EndlessRuns {
  import opened Workflow
  import opened Graph
  import opened Regions
  import opened Machines
  import opened Validator
  import opened Interpreter
  import opened Rows
  import opened ForkShape
  import opened Moves
  import opened Runs
  import opened Termination
  import opened Acceptance
  import opened Limits

  /** From step `id` the run graph can be walked for ever. */
  ghost predicate CanLoop(def: Definition, id: string) {
    Endless(RunGraph(def), id)
  }

  /** Outside forks, a step finished with this name leads on to one that can loop. */
  ghost predicate ToLoop(def: Definition, step: Step, next: string) {
    var to := NextOutsideFork(MachineOf(def), step, next);
    to.Some? && CanLoop(def, to.value.id)
  }

  /** A step may finish in a way that leads to any given successor, now and when it is passed over. */
  lemma ResultTo(def: Definition, id: string, step: Step, b: string) returns (r: Result)
    requires Tame(def) && IsStep(def, id, step) && !step.kind.Fork? && b in Succ(RunGraph(def), id)
    ensures MayResult(step, r) && LeadsTo(def, step, r.next, b) && LeadsTo(def, step, r.outputNext, b)
  {
    hide Tame, RunGraph, NamedRefs, IsLinearNext, GoodStep, MayResult, LeadsTo, NamedNext, StepById;
    RunEdgeKinds(def, id, step, b);
    StepIsGood(def, id);
    if b in NamedRefs(step) {
      r := NamedResult(step, b);
      ReferenceKnown(def, step, b);
      NamedLeads(def, step, r.next, b);
      NamedLeads(def, step, r.outputNext, b);
    } else {
      LinearFacts(def, step, b);
      r := NoResult(step);
      LinearLeads(def, step, b);
    }
  }

  /** Outside forks, the step finished with this name leads to `b`. */
  ghost predicate LeadsTo(def: Definition, step: Step, next: string, b: string) {
    var to := NextOutsideFork(MachineOf(def), step, next);
    to.Some? && to.value.id == b
  }

  lemma NamedLeads(def: Definition, step: Step, next: string, b: string)
    requires NamedNext(step, next) == b != ""
    requires StepById(def.steps, b).Some? && StepById(def.steps, b).value.id == b
    ensures LeadsTo(def, step, next, b)
  {
    hide NextNormal, NormalSteps, StepById;
  }

  lemma LinearLeads(def: Definition, step: Step, b: string)
    requires IsLinearNext(def, step, b)
    ensures LeadsTo(def, step, "", b)
  {
    hide NextNormal, NormalSteps, StepById;
  }

  /** A step that can loop may finish in a way that leads on to one that can loop, now and when it is passed over. */
  lemma LoopResult(def: Definition, id: string, step: Step) returns (r: Result)
    requires Tame(def) && IsStep(def, id, step) && !step.kind.Fork? && CanLoop(def, id)
    ensures MayResult(step, r) && ToLoop(def, step, r.next) && ToLoop(def, step, r.outputNext)
  {
    hide Tame, CanLoop, RunGraph, MayResult, NextOutsideFork, StepById;
    var b := LoopGoesOn(def, id);
    r := ResultTo(def, id, step, b);
  }

  lemma LoopGoesOn(def: Definition, id: string) returns (b: string)
    requires CanLoop(def, id)
    ensures b in Succ(RunGraph(def), id) && CanLoop(def, b)
  {
    hide RunGraph, Endless;
    b := EndlessGoesOn(RunGraph(def), id);
  }

  lemma LinearFacts(def: Definition, step: Step, b: string)
    requires IsLinearNext(def, step, b)
    ensures !step.kind.Condition? && step.config.next == ""
  {
  }

  lemma NoResult(step: Step) returns (r: Result)
    requires !step.kind.Fork? && !step.kind.Condition? && step.config.next == ""
    ensures r == Result("", "") && MayResult(step, r)
  {
    r := Result("", "");
  }

  lemma NamedResult(step: Step, b: string) returns (r: Result)
    requires !step.kind.Fork? && b in NamedRefs(step)
    ensures MayResult(step, r) && NamedNext(step, r.next) == b == NamedNext(step, r.outputNext) && b != ""
  {
    if step.kind.Condition? {
      if NamedNext(step, step.config.thenRef) == b {
        r := Result(step.config.thenRef, step.config.thenRef);
      } else {
        r := Result(step.config.elseRef, step.config.elseRef);
      }
    } else if step.kind.Join? {
      r := Result(step.config.next, step.config.next);
    } else {
      r := Result("", "");
    }
  }

  lemma ReferenceKnown(def: Definition, step: Step, b: string)
    requires GoodStep(def, step) && !step.kind.Fork? && b in NamedRefs(step)
    ensures StepById(def.steps, b).Some? && StepById(def.steps, b).value.id == b
  {
    NamedIsExplicit(step, b);
    hide ExplicitRefs, NamedRefs, BranchRefs;
    KnownReference(def, step, b);
    KnownIds(def, b);
  }

  /** Every step may finish somehow. */
  lemma SomeResult(def: Definition, step: Step) returns (r: Result)
    requires GoodStep(def, step)
    ensures MayResult(step, r)
  {
    match step.kind
    case Condition => r := Result(step.config.thenRef, step.config.thenRef);
    case Fork => r := Result(Heads(step)[0], Heads(step)[0]);
    case Join => r := Result(step.config.next, step.config.next);
    case _ => r := Result("", "");
  }

  /** Within fork `f`, at branch `k`: a loop lies at the join, ahead of the current step, or in a later branch. */
  ghost predicate LoopAhead(def: Definition, f: string, k: int, at: string) {
    StepById(def.steps, f).Some? &&
    var step := StepById(def.steps, f).value;
    CanLoop(def, JoinOf(def, step)) || CanLoop(def, at) || LaterBranchLoops(def, step, k)
  }

  ghost predicate LaterBranchLoops(def: Definition, step: Step, k: int) {
    exists i :: 0 <= k < i < |Heads(step)| && CanLoop(def, Heads(step)[i])
  }

  /** The instance is before a loop, whether a fork runs or not. */
  ghost predicate BeforeLoop(def: Definition, forks: Forks, at: string) {
    && (Idle(forks) ==> CanLoop(def, at))
    && (forall f, k: nat :: RunningAt(forks, f, k) ==> LoopAhead(def, f, k, at))
  }

  /** The join of a fork that is over can loop. */
  ghost predicate OverForksLoop(def: Definition, forks: Forks) {
    forall f :: IsOver(forks, f) ==> CanLoop(def, forks[f].join)
  }

  lemma OneForkRuns(def: Definition, forks: Forks, at: string, completed: seq<string>, f: string, k: nat)
    requires ForksOk(def, forks, at, completed) && RunningAt(forks, f, k) && LoopAhead(def, f, k, at)
    ensures BeforeLoop(def, forks, at)
  {
    hide ForkOk, LoopAhead, CanLoop;
    forall g, j: nat | RunningAt(forks, g, j) ensures g == f && j == k {
      assert g == f;
    }
  }

  lemma NoForkRuns(def: Definition, forks: Forks, at: string)
    requires Idle(forks) && CanLoop(def, at)
    ensures BeforeLoop(def, forks, at)
  {
    hide CanLoop, LoopAhead;
  }

  lemma UpdateOver(def: Definition, forks: Forks, f: string, fork: ForkState)
    requires OverForksLoop(def, forks)
    requires (fork.status.ForkCompleted? || fork.status.ForkJoined?) ==> CanLoop(def, fork.join)
    ensures OverForksLoop(def, forks[f := fork])
  {
    hide CanLoop;
    var after := forks[f := fork];
    forall g | IsOver(after, g) ensures CanLoop(def, after[g].join) {
      assert g != f ==> IsOver(forks, g);
    }
  }

  lemma JoinedOver(def: Definition, forks: Forks, join: string)
    requires OverForksLoop(def, forks)
    ensures OverForksLoop(def, MarkJoined(join, forks)) && (Idle(forks) ==> Idle(MarkJoined(join, forks)))
  {
    hide CanLoop;
    var after := MarkJoined(join, forks);
    forall g | IsOver(after, g) ensures CanLoop(def, after[g].join) {
      assert IsOver(forks, g);
    }
  }

  /** A fork that can loop has a loop at its join or in one of its branches. */
  lemma ForkLoops(def: Definition, f: string, step: Step)
    requires IsStep(def, f, step) && step.kind.Fork? && CanLoop(def, f) && Heads(step) != []
    ensures LoopAhead(def, f, 0, Heads(step)[0])
  {
    var b := EndlessGoesOn(RunGraph(def), f);
    RunEdgeKinds(def, f, step, b);
    hide RunGraph, Endless, JoinOf, Heads, StepById;
    if b != JoinOf(def, step) {
      var i :| 0 <= i < |Heads(step)| && Heads(step)[i] == b;
      if i > 0 {
        assert LaterBranchLoops(def, step, 0);
      }
    }
  }

  /** A fork starts, or is passed for its join. */
  lemma ForkTowardsLoop(def: Definition, forks: Forks, at: string, step: Step, completed: seq<string>)
    requires Disciplined(def) && IsStep(def, at, step) && step.kind.Fork? && ForksOk(def, forks, at, completed)
    requires BeforeLoop(def, forks, at) && OverForksLoop(def, forks)
    ensures var move := NextForkStep(def, at, StartFork(def, step, forks));
      move.step.Some? && BeforeLoop(def, move.forks, move.step.value.id) && OverForksLoop(def, move.forks)
  {
    hide Tame, JoinsApart, GoodStep, GoodMove, ForksOk, BeforeLoop, OverForksLoop, Idle, StepById, JoinOf, Heads, Ids, NextForkStep;
    ForkStepIsOutside(def, forks, at, step, completed);
    ForkMove(def, forks, at, step, completed);
    StepIsGood(def, at);
    NoEmptyId(def);
    GoodStepHasId(def, step);
    KnownIds(def, at);
    IdleIsLoop(def, forks, at);
    if at in forks {
      PassTowardsLoop(def, forks, at, step, completed);
    } else {
      EnterTowardsLoop(def, forks, at, step, completed);
    }
  }

  lemma IdleIsLoop(def: Definition, forks: Forks, at: string)
    requires BeforeLoop(def, forks, at) && Idle(forks)
    ensures CanLoop(def, at)
  {
  }

  lemma PassTowardsLoop(def: Definition, forks: Forks, at: string, step: Step, completed: seq<string>)
    requires IsStep(def, at, step) && step.kind.Fork? && at == step.id && at in forks && Idle(forks)
    requires ForksOk(def, forks, at, completed) && OverForksLoop(def, forks) && JoinOf(def, step) in Ids(def)
    ensures var move := NextForkStep(def, at, StartFork(def, step, forks));
      move.step.Some? && BeforeLoop(def, move.forks, move.step.value.id) && OverForksLoop(def, move.forks)
  {
    KnownIds(def, JoinOf(def, step));
    var k :| ForkOk(def, at, forks[at], k, at, completed);
    PassedForkOk(def, step, forks[at], k, at, completed);
    var fork := forks[at].(status := ForkCompleted);
    assert IsOver(forks, at);
    assert NextForkStep(def, at, forks) == Move(forks[at := fork], StepById(def.steps, fork.join));
    hide CanLoop, JoinOf, ForkOk, BranchesOk, StepById, BeforeLoop, IsOver;
    UpdateOver(def, forks, at, fork);
    NoForkRuns(def, forks[at := fork], fork.join);
  }

  lemma EnterTowardsLoop(def: Definition, forks: Forks, at: string, step: Step, completed: seq<string>)
    requires IsStep(def, at, step) && step.kind.Fork? && at == step.id && at !in forks && CanLoop(def, at)
    requires OverForksLoop(def, forks) && Heads(step) != [] && JoinOf(def, step) in Ids(def) && "" !in Ids(def)
    requires forall i :: 0 <= i < |Heads(step)| ==> Heads(step)[i] in Ids(def)
    requires GoodMove(def, forks, at, completed, NextForkStep(def, at, StartFork(def, step, forks)))
    ensures var move := NextForkStep(def, at, StartFork(def, step, forks));
      move.step.Some? && BeforeLoop(def, move.forks, move.step.value.id) && OverForksLoop(def, move.forks)
  {
    var heads := Heads(step);
    assert heads[0] in Ids(def);
    StartedForkMove(def, forks, at, step);
    KnownIds(def, heads[0]);
    ForkLoops(def, at, step);
    var fork := ForkState(ForkRunning, JoinOf(def, step), FirstBranchRuns(heads[0], PendingBranches(heads)));
    assert RunningAt(forks[at := fork], at, 0);
    assert ForksOk(def, forks[at := fork], heads[0], completed);
    hide *;
    UpdateOver(def, forks, at, fork);
    OneForkRuns(def, forks[at := fork], heads[0], completed, at, 0);
  }

  /** Outside forks. */
  lemma OutsideTowardsLoop(def: Definition, forks: Forks, step: Step, next: string)
    requires Idle(forks) && OverForksLoop(def, forks) && ToLoop(def, step, next)
    ensures var after := if step.kind.Join? then MarkJoined(step.id, forks) else forks;
      var to := NextOutsideFork(MachineOf(def), step, next);
      to.Some? && BeforeLoop(def, after, to.value.id) && OverForksLoop(def, after)
  {
    var after := if step.kind.Join? then MarkJoined(step.id, forks) else forks;
    var to := NextOutsideFork(MachineOf(def), step, next);
    hide CanLoop, OverForksLoop, NextOutsideFork, BeforeLoop, NormalSteps, Idle, MarkJoined;
    JoinedOver(def, forks, step.id);
    NoForkRuns(def, after, to.value.id);
  }

  /** What the fork of the current step looks like, and the loop ahead of it. */
  ghost predicate InLoopingFork(def: Definition, forks: Forks, f: string, k: nat, fork: Step, at: string) {
    && IsStep(def, f, fork) && RunningAt(forks, f, k) && forks[f].join == JoinOf(def, fork)
    && |forks[f].branches| == |Heads(fork)|
    && (forall i :: 0 <= i < |Heads(fork)| ==> Heads(fork)[i] != "" && Heads(fork)[i] in Ids(def))
    && (forall i :: k < i < |Heads(fork)| ==> forks[f].branches[i] == PendingBranch(Heads(fork)[i]))
    && JoinOf(def, fork) in Ids(def) && LoopAhead(def, f, k, at)
  }

  /** The branch goes on. */
  lemma GoesOnTowardsLoop(def: Definition, forks: Forks, f: string, k: nat, fork: Step, at: string, to: string)
    requires InLoopingFork(def, forks, f, k, fork, at) && to != "" && (CanLoop(def, at) ==> CanLoop(def, to))
    ensures RunningAt(forks[f := ForkAfter(forks[f], k, at, to)], f, k) && LoopAhead(def, f, k, to)
  {
    hide CanLoop, JoinOf, Heads, StepById;
  }

  /** The next branch starts. */
  lemma SwitchesTowardsLoop(def: Definition, forks: Forks, f: string, k: nat, fork: Step, at: string)
    requires InLoopingFork(def, forks, f, k, fork, at) && k + 1 < |Heads(fork)|
    requires CanLoop(def, at) ==> CanLoop(def, JoinOf(def, fork))
    ensures var ended := ForkAfter(forks[f], k, at, "");
      && FirstOpen(ended.branches) == k + 1 && Resumed(ended.branches[k + 1]).current == Heads(fork)[k + 1]
      && RunningAt(forks[f := ForkResumed(ended, k + 1)], f, k + 1) && LoopAhead(def, f, k + 1, Heads(fork)[k + 1])
  {
    hide CanLoop, JoinOf, Heads, StepById;
    FirstOpenIs(ForkAfter(forks[f], k, at, "").branches, k + 1);
    hide FirstOpen;
    if !CanLoop(def, JoinOf(def, fork)) {
      var i :| 0 <= k < i < |Heads(fork)| && CanLoop(def, Heads(fork)[i]);
      if i > k + 1 {
        assert LaterBranchLoops(def, fork, k + 1);
      }
    }
  }

  /** The last branch ends. */
  lemma LeavesTowardsLoop(def: Definition, forks: Forks, f: string, k: nat, fork: Step, at: string)
    requires InLoopingFork(def, forks, f, k, fork, at) && k + 1 == |Heads(fork)|
    requires CanLoop(def, at) ==> CanLoop(def, JoinOf(def, fork))
    ensures var ended := ForkAfter(forks[f], k, at, "");
      FirstOpen(ended.branches) == k + 1 == |ended.branches| && CanLoop(def, JoinOf(def, fork))
  {
    hide CanLoop, JoinOf, Heads, StepById;
    FirstOpenIs(ForkAfter(forks[f], k, at, "").branches, k + 1);
  }

  ghost predicate TowardsLoop(def: Definition, move: Move) {
    move.step.Some? && BeforeLoop(def, move.forks, move.step.value.id) && OverForksLoop(def, move.forks)
  }

  /** The forks after a good move that keeps fork `f` running at branch `k`. */
  lemma StillInFork(def: Definition, forks: Forks, at: string, completed: seq<string>, f: string, fork: ForkState, k: nat,
                    to: string)
    requires GoodMove(def, forks, at, completed, Move(forks[f := fork], StepById(def.steps, to)))
    requires OverForksLoop(def, forks) && fork.status.ForkRunning? && StepById(def.steps, to).Some?
    requires RunningAt(forks[f := fork], f, k) && LoopAhead(def, f, k, to)
    ensures TowardsLoop(def, Move(forks[f := fork], StepById(def.steps, to)))
  {
    KnownIds(def, to);
    hide Advances, ForksOk, LoopAhead, OverForksLoop, BeforeLoop, RunningAt, StepById, Ids;
    UpdateOver(def, forks, f, fork);
    OneForkRuns(def, forks[f := fork], to, completed, f, k);
  }

  lemma OutOfFork(def: Definition, forks: Forks, f: string, fork: ForkState, to: string)
    requires OverForksLoop(def, forks) && StepById(def.steps, to).Some? && CanLoop(def, to) && fork.join == to
    requires Idle(forks[f := fork])
    ensures TowardsLoop(def, Move(forks[f := fork], StepById(def.steps, to)))
  {
    KnownIds(def, to);
    hide OverForksLoop, BeforeLoop, StepById, Ids, CanLoop, Idle;
    UpdateOver(def, forks, f, fork);
    NoForkRuns(def, forks[f := fork], to);
  }

  lemma OnlyForkStops(def: Definition, forks: Forks, at: string, completed: seq<string>, f: string, k: nat, fork: ForkState)
    requires ForksOk(def, forks, at, completed) && RunningAt(forks, f, k) && !fork.status.ForkRunning?
    ensures Idle(forks[f := fork])
  {
    hide ForkOk;
  }

  lemma HeadsKnown(def: Definition, f: string, fork: Step)
    requires Tame(def) && IsStep(def, f, fork) && fork.kind.Fork?
    ensures JoinOf(def, fork) in Ids(def) && fork in def.steps
    ensures forall i :: 0 <= i < |Heads(fork)| ==> Heads(fork)[i] != "" && Heads(fork)[i] in Ids(def)
  {
    StepIsGood(def, f);
    NoEmptyId(def);
    GoodStepHasId(def, fork);
    hide Tame, JoinsApart, GoodStep, JoinOf, Heads, Ids;
  }

  lemma OrderlyFork(def: Definition, forks: Forks, f: string, k: nat, fork: Step, at: string, completed: seq<string>)
    requires IsStep(def, f, fork) && RunningAt(forks, f, k) && ForkOk(def, f, forks[f], k, at, completed)
    ensures fork.kind.Fork? && InRegion(def, fork, at)
    ensures forks[f].join == JoinOf(def, fork) && |forks[f].branches| == |Heads(fork)|
    ensures forall i :: k < i < |Heads(fork)| ==> forks[f].branches[i] == PendingBranch(Heads(fork)[i])
  {
    hide JoinOf, Heads, InRegion, BranchOk, StepById;
    forall i: nat | k < i < |Heads(fork)| ensures forks[f].branches[i] == PendingBranch(Heads(fork)[i]) {
      PendingIs(def, forks[f].join, forks[f].branches[i], completed);
    }
  }

  lemma BranchFacts(def: Definition, forks: Forks, f: string, k: nat, fork: Step, at: string, completed: seq<string>)
    requires Disciplined(def) && IsStep(def, f, fork) && RunningAt(forks, f, k) && ForkOk(def, f, forks[f], k, at, completed)
    requires LoopAhead(def, f, k, at)
    ensures InLoopingFork(def, forks, f, k, fork, at) && InRegion(def, fork, at) && fork.kind.Fork? && fork in def.steps
  {
    OrderlyFork(def, forks, f, k, fork, at, completed);
    HeadsKnown(def, f, fork);
    hide Tame, JoinsApart, JoinOf, Heads, LoopAhead, InRegion, Ids, StepById, ForkOk;
  }

  lemma PendingIs(def: Definition, join: string, branch: BranchState, completed: seq<string>)
    requires BranchOk(def, join, branch, completed) && branch.status.Pending?
    ensures branch == PendingBranch(branch.start)
  {
  }

  /** A branch step that can loop and leaves its branch leaves it for a join that can loop. */
  lemma LeavesForLoop(def: Definition, at: string, step: Step, next: string)
    requires Disciplined(def) && IsStep(def, at, step) && !OnPath(def, at)
    requires CanLoop(def, at) ==> ToLoop(def, step, next)
    ensures CanLoop(def, at) ==> NamedNext(step, next) != "" && CanLoop(def, NamedNext(step, next))
  {
    KnownIds(def, at);
    AllUnique(def);
    KnownIds(def, NamedNext(step, next));
    hide Tame, JoinsApart, CanLoop, OnPath, NormalSteps, StepById, Ids, NamedNext;
    OffPathHasNoNext(def, at);
  }

  lemma BranchTowardsLoop(def: Definition, forks: Forks, at: string, step: Step, completed: seq<string>, next: string,
                          f: string, k: nat)
    requires Disciplined(def) && IsStep(def, at, step) && !step.kind.Fork? && Legit(step, next)
    requires ForksOk(def, forks, at, completed) && at in completed
    requires RunningAt(forks, f, k) && ForkOk(def, f, forks[f], k, at, completed)
    requires BeforeLoop(def, forks, at) && OverForksLoop(def, forks) && (CanLoop(def, at) ==> ToLoop(def, step, next))
    ensures TowardsLoop(def, NextAfterBranchStep(def, f, k, step, forks, next))
  {
    var fork := StepById(def.steps, f).value;
    assert LoopAhead(def, f, k, at);
    BranchMove(def, forks, at, step, completed, next, f, k);
    BranchFacts(def, forks, f, k, fork, at, completed);
    RegionIsOffPath(def, fork, at);
    LeavesForLoop(def, at, step, next);
    KnownIds(def, at);
    var to := NamedNext(step, next);
    hide Tame, JoinsApart, ForksOk, ForkOk, BeforeLoop, OverForksLoop, CanLoop, ToLoop, GoodMove, LoopAhead, TowardsLoop,
      InLoopingFork, JoinOf, Heads, StepById, Ids, NamedNext, InRegion, OnPath, IsBranchStep, Legit, RunningAt, NextForkStep;
    var join := JoinOf(def, fork);
    LoopingForkFacts(def, forks, f, k, fork, at);
    if to != "" && to != join {
      var after := ForkAfter(forks[f], k, at, to);
      GoesOnTowardsLoop(def, forks, f, k, fork, at, to);
      GoodMoveStep(def, forks, at, completed, forks[f := after], StepById(def.steps, to));
      StillInFork(def, forks, at, completed, f, after, k, to);
    } else {
      var ended := ForkAfter(forks[f], k, at, "");
      KnownIds(def, join);
      if k + 1 < |Heads(fork)| {
        SwitchesTowardsLoop(def, forks, f, k, fork, at);
        ResumeMove(def, forks, f, ended, k + 1);
        KnownIds(def, Heads(fork)[k + 1]);
        StillInFork(def, forks, at, completed, f, ForkResumed(ended, k + 1), k + 1, Heads(fork)[k + 1]);
      } else {
        LeavesTowardsLoop(def, forks, f, k, fork, at);
        ResumeMove(def, forks, f, ended, k + 1);
        var over := ended.(status := ForkCompleted);
        OnlyForkStops(def, forks, at, completed, f, k, over);
        OutOfFork(def, forks, f, over, join);
      }
    }
  }

  lemma GoodMoveStep(def: Definition, forks: Forks, at: string, completed: seq<string>, after: Forks, to: Option<Step>)
    requires GoodMove(def, forks, at, completed, Move(after, to))
    ensures to.Some?
  {
  }

  lemma LoopingForkFacts(def: Definition, forks: Forks, f: string, k: nat, fork: Step, at: string)
    requires InLoopingFork(def, forks, f, k, fork, at)
    ensures f in forks && forks[f].status.ForkRunning? && k < |forks[f].branches| == |Heads(fork)|
    ensures forks[f].join == JoinOf(def, fork) && JoinOf(def, fork) in Ids(def)
    ensures forall i :: 0 <= i < |Heads(fork)| ==> Heads(fork)[i] in Ids(def)
  {
  }

  /** Every move from before a loop leads on towards it. */
  lemma MoveTowardsLoop(def: Definition, forks: Forks, at: string, step: Step, completed: seq<string>, next: string,
                        pick: Pick)
    requires Disciplined(def) && IsStep(def, at, step) && Legit(step, next)
    requires ForksOk(def, forks, at, completed) && at in completed && CanPick(step, forks, pick)
    requires BeforeLoop(def, forks, at) && OverForksLoop(def, forks)
    requires !step.kind.Fork? && CanLoop(def, at) ==> ToLoop(def, step, next)
    ensures TowardsLoop(def, NextAfter(MachineOf(def), step, forks, next, pick))
  {
    KnownIds(def, at);
    hide Tame, JoinsApart, ForksOk, ForkOk, StepById, NextOutsideFork, NextAfterBranchStep, Legit, IsPick, BeforeLoop,
      OverForksLoop, CanLoop, ToLoop, NextForkStep, StartFork, MarkJoined, NormalSteps;
    if step.kind.Fork? {
      ForkTowardsLoop(def, forks, at, step, completed);
    } else {
      PickIsUnique(def, forks, at, completed, pick, pick);
      if pick.InBranch? {
        BranchTowardsLoop(def, forks, at, step, completed, next, pick.fork, pick.index);
      } else {
        IdleIsLoop(def, forks, at);
        OutsideTowardsLoop(def, forks, step, next);
      }
    }
  }

  /** The name a step has recorded leads to a loop, if the step can loop. */
  ghost predicate NameLoops(def: Definition, id: string, next: string) {
    StepById(def.steps, id).Some? && !StepById(def.steps, id).value.kind.Fork? && CanLoop(def, id) ==>
      ToLoop(def, StepById(def.steps, id).value, next)
  }

  ghost predicate NamesLoop(def: Definition, done: map<string, string>) {
    forall id :: id in done ==> NameLoops(def, id, done[id])
  }

  /** An instance that can go on for ever. */
  ghost predicate Unending(def: Definition, a: Progress) {
    && Sound(def, a) && Cursor(a).Some? && BeforeLoop(def, a.forks, Cursor(a).value) && OverForksLoop(def, a.forks)
    && NamesLoop(def, a.done)
  }

  lemma MovedUnending(def: Definition, a: Progress, at: string, next: string, move: Move)
    requires Sound(def, Moved(a, at, next, move)) && TowardsLoop(def, move)
    requires NamesLoop(def, a.done) && NameLoops(def, at, next)
    ensures Unending(def, Moved(a, at, next, move)) && Moved(a, at, next, move).phase.Ready?
  {
    hide Sound, BeforeLoop, OverForksLoop, NameLoops;
  }

  lemma StartedUnending(def: Definition, a: Progress, to: string, forks: Forks)
    requires Sound(def, Started(a, to, forks)) && BeforeLoop(def, forks, to) && OverForksLoop(def, forks)
    requires NamesLoop(def, a.done)
    ensures Unending(def, Started(a, to, forks)) && Started(a, to, forks).phase.Active?
  {
    hide Sound, BeforeLoop, OverForksLoop, NameLoops;
  }

  lemma FinishIsMoved(m: Machine, a: Progress, step: Step, r: Result, pick: Pick)
    requires a.phase.Active? && StepById(m.def.steps, a.phase.step) == Some(step) && step.id == a.phase.step
    requires MayResult(step, r) && CanPick(step, a.forks, pick)
    ensures Enabled(m, a, Finish(r, pick))
    ensures Next(m, a, Finish(r, pick)) == Moved(a, a.phase.step, r.outputNext, NextAfter(m, step, a.forks, r.next, pick))
  {
    hide MayResult, IsPick, NextAfter, StepById;
  }

  lemma StartIsStarted(m: Machine, a: Progress, pick: Pick, move: Move)
    requires a.phase.Ready? && CanResolve(m, a.done, a.forks, a.phase.current, pick) && ValidPick(a.forks, pick)
    requires move == Resolve(m, a.done, a.forks, a.phase.current, pick) && move.step.Some?
    ensures Enabled(m, a, Start(pick)) && Next(m, a, Start(pick)) == Started(a, move.step.value.id, move.forks)
  {
    hide CanResolve, Resolve;
  }

  /** What Unending says of the step the instance stands at. */
  lemma UnendingFacts(def: Definition, a: Progress, at: string)
    requires Unending(def, a) && Cursor(a) == Some(at)
    ensures Sound(def, a) && BeforeLoop(def, a.forks, at) && OverForksLoop(def, a.forks) && NamesLoop(def, a.done)
    ensures ForksOk(def, a.forks, at, a.completed) && StepById(def.steps, at).Some? && StepById(def.steps, at).value.id == at
    ensures at in a.done ==> at in a.completed && Legit(StepById(def.steps, at).value, a.done[at])
  {
    KnownIds(def, at);
    hide ForksOk, BeforeLoop, OverForksLoop, NamesLoop, StepById, Legit;
  }

  /** The active step finishes towards the loop. */
  lemma FinishTowardsLoop(def: Definition, a: Progress) returns (e: Event)
    requires Disciplined(def) && Unending(def, a) && a.phase.Active?
    ensures Enabled(MachineOf(def), a, e) && Unending(def, Next(MachineOf(def), a, e))
    ensures Next(MachineOf(def), a, e).phase.Ready? && e.Finish?
  {
    hide Tame, JoinsApart, Enabled, Next, Sound, Unending, ForksOk, GoodStep, Legit, MayResult, IsPick, NextAfter, BeforeLoop,
      OverForksLoop, NamesLoop, NameLoops, StepById, CanLoop, ToLoop, CanPick, TowardsLoop, NormalSteps, Moved;
    var at, completed := a.phase.step, AppendNew(a.completed, a.phase.step);
    UnendingFacts(def, a, at);
    var step := StepById(def.steps, at).value;
    StepIsGood(def, at);
    var r := ResultTowardsLoop(def, at, step);
    var pick := CanPickExists(step, a.forks);
    MayResultIsLegit(def, step, r);
    ForksOkGrow(def, a.forks, at, a.completed, completed);
    CanPickIsValid(step, a.forks, pick);
    MoveTowardsLoop(def, a.forks, at, step, completed, r.next, pick);
    e := Finish(r, pick);
    FinishIsMoved(MachineOf(def), a, step, r, pick);
    EventKeepsSound(def, a, e);
    NameLoopsIs(def, at, step, r.outputNext);
    MovedUnending(def, a, at, r.outputNext, NextAfter(MachineOf(def), step, a.forks, r.next, pick));
  }

  lemma CanPickIsValid(step: Step, forks: Forks, pick: Pick)
    requires CanPick(step, forks, pick)
    ensures ValidPick(forks, pick)
  {
  }

  lemma NameLoopsIs(def: Definition, id: string, step: Step, next: string)
    requires IsStep(def, id, step) && (!step.kind.Fork? && CanLoop(def, id) ==> ToLoop(def, step, next))
    ensures NameLoops(def, id, next)
  {
    hide CanLoop, ToLoop, StepById;
  }

  lemma ResultTowardsLoop(def: Definition, at: string, step: Step) returns (r: Result)
    requires Disciplined(def) && IsStep(def, at, step) && GoodStep(def, step)
    ensures MayResult(step, r)
    ensures !step.kind.Fork? && CanLoop(def, at) ==> ToLoop(def, step, r.next) && ToLoop(def, step, r.outputNext)
  {
    hide Tame, JoinsApart, CanLoop, ToLoop, MayResult, GoodStep, StepById;
    if !step.kind.Fork? && CanLoop(def, at) {
      r := LoopResult(def, at, step);
    } else {
      r := SomeResult(def, step);
    }
  }

  /** The next step starts; a completed one is passed over towards the loop. */
  lemma StartTowardsLoop(def: Definition, a: Progress) returns (e: Event)
    requires Disciplined(def) && Unending(def, a) && a.phase.Ready?
    ensures Enabled(MachineOf(def), a, e) && Unending(def, Next(MachineOf(def), a, e))
    ensures Next(MachineOf(def), a, e).phase.Active? && e.Start?
  {
    CursorStands(def, a);
    hide Tame, JoinsApart, Enabled, Next, Sound, Unending, ForksOk, Legit, IsPick, NextAfter, BeforeLoop, Resolve, CanResolve,
      OverForksLoop, NamesLoop, NameLoops, StepById, CanPick, TowardsLoop, NormalSteps, Started;
    var at := a.phase.current.value;
    UnendingFacts(def, a, at);
    var step := StepById(def.steps, at).value;
    var pick := NoBranch;
    if at in a.done {
      pick := CanPickExists(step, a.forks);
      CanPickIsValid(step, a.forks, pick);
      SkipTowardsLoop(def, a, at, step, pick);
    } else {
      StandTowardsLoop(def, a, at, step);
    }
    var move := Resolve(MachineOf(def), a.done, a.forks, a.phase.current, pick);
    TowardsLoopFacts(def, move);
    CanResolveHere(def, a, at, step, pick);
    e := Start(pick);
    StartIsStarted(MachineOf(def), a, pick, move);
    EventKeepsSound(def, a, e);
    StartedUnending(def, a, move.step.value.id, move.forks);
  }

  lemma CursorStands(def: Definition, a: Progress)
    requires Unending(def, a) && a.phase.Ready?
    ensures a.phase.current.Some? && Cursor(a) == a.phase.current
  {
  }

  lemma TowardsLoopFacts(def: Definition, move: Move)
    requires TowardsLoop(def, move)
    ensures move.step.Some? && BeforeLoop(def, move.forks, move.step.value.id) && OverForksLoop(def, move.forks)
  {
  }

  lemma CanResolveHere(def: Definition, a: Progress, at: string, step: Step, pick: Pick)
    requires a.phase == Ready(Some(at)) && StepById(def.steps, at) == Some(step)
    requires if at in a.done then CanPick(step, a.forks, pick) else pick == NoBranch
    ensures CanResolve(MachineOf(def), a.done, a.forks, a.phase.current, pick)
  {
    hide CanPick, StepById;
  }

  lemma StandTowardsLoop(def: Definition, a: Progress, at: string, step: Step)
    requires a.phase == Ready(Some(at)) && at !in a.done && StepById(def.steps, at) == Some(step) && step.id == at
    requires BeforeLoop(def, a.forks, at) && OverForksLoop(def, a.forks)
    ensures TowardsLoop(def, Resolve(MachineOf(def), a.done, a.forks, a.phase.current, NoBranch))
  {
    hide BeforeLoop, OverForksLoop, StepById;
  }

  lemma SkipTowardsLoop(def: Definition, a: Progress, at: string, step: Step, pick: Pick)
    requires Disciplined(def) && Unending(def, a) && a.phase == Ready(Some(at)) && at in a.done
    requires IsStep(def, at, step) && CanPick(step, a.forks, pick)
    ensures TowardsLoop(def, Resolve(MachineOf(def), a.done, a.forks, a.phase.current, pick))
  {
    hide Tame, JoinsApart, ForksOk, IsPick, NextAfter, BeforeLoop, OverForksLoop, CanLoop, ToLoop, TowardsLoop;
    assert NameLoops(def, at, a.done[at]);
    MoveTowardsLoop(def, a.forks, at, step, a.completed, a.done[at], pick);
    if a.forks == map[] {
      NoForksMoveNone(MachineOf(def), step, a.done[at], pick);
    }
  }

  /** The first step starts. */
  lemma UnendingStarts(def: Definition, id: string) returns (a: Progress)
    requires Disciplined(def) && IsFirst(def, id) && CanLoop(def, id)
    ensures SmoothRun(MachineOf(def), STARTED, a) && a.phase.Active? && Unending(def, a)
  {
    var m := MachineOf(def);
    var move := Resolve(m, INITIAL.done, INITIAL.forks, None, NoBranch);
    a := Started(INITIAL, id, move.forks);
    InitialRun(m);
    hide Tame, JoinsApart, CanLoop, NormalSteps, SmoothRun;
    StartIsStarted(m, INITIAL, NoBranch, move);
    hide Enabled, Next;
    Continue(m, [], INITIAL, Start(NoBranch), a);
    assert [] + STARTED == STARTED;
    RunIsSound(def, STARTED, a);
    NoForkRuns(def, map[], id);
    hide Sound, BeforeLoop;
  }

  lemma InitialRun(m: Machine)
    ensures SmoothRun(m, [], INITIAL)
  {
  }

  /** It can be gone on with for as long as one likes, without any failure. */
  lemma {:induction false} RunsGoOn(def: Definition, id: string, n: nat) returns (events: seq<Event>, a: Progress)
    requires Disciplined(def) && IsFirst(def, id) && CanLoop(def, id)
    ensures SmoothRun(MachineOf(def), events, a) && |events| > n && a.phase.Active? && Unending(def, a)
  {
    hide Tame, JoinsApart, CanLoop, SmoothRun, Unending, Enabled, Next, IsFirst, NormalSteps;
    if n == 0 {
      a := UnendingStarts(def, id);
      events := STARTED;
    } else {
      var before, b := RunsGoOn(def, id, n - 1);
      var finish := FinishTowardsLoop(def, b);
      var c := Next(MachineOf(def), b, finish);
      Continue(MachineOf(def), before, b, finish, c);
      var start := StartTowardsLoop(def, c);
      a := Next(MachineOf(def), c, start);
      events := before + [finish] + [start];
      Continue(MachineOf(def), before + [finish], c, start, a);
    }
  }

  ghost predicate BoundedBy(def: Definition, bound: nat) {
    forall events, a :: Run(MachineOf(def), events, a) ==> |events| <= bound
  }

  /** The runs of a disciplined definition are bounded if and only if no loop of its run graph can be reached from its first
      step. */
  lemma RunsEndIffLoopFree(def: Definition)
    requires Disciplined(def)
    ensures (exists bound :: BoundedBy(def, bound)) <==> LoopFree(def)
  {
    hide Tame, JoinsApart, LoopFree, Run;
    if LoopFree(def) {
      var bound := EveryRunEnds(def);
      assert BoundedBy(def, bound);
    } else {
      hide BoundedBy;
      if bound :| BoundedBy(def, bound) {
        RunsGoBeyond(def, bound);
      }
    }
  }

  lemma RunsGoBeyond(def: Definition, bound: nat)
    requires Disciplined(def) && !LoopFree(def)
    ensures !BoundedBy(def, bound)
  {
    assert exists id :: IsFirst(def, id) && CanLoop(def, id) by { hide IsFirst, RunGraph; }
    hide Tame, JoinsApart, IsFirst, CanLoop, Run;
    var id :| IsFirst(def, id) && CanLoop(def, id);
    var events, a := RunsGoOn(def, id, bound);
  }
}
