/** How a run gets to a fork that can be reached, and on to a branch of it that begins at its join. */
module JoinHeads {
  import opened Workflow
  import opened Graph
  import opened Regions
  import opened Machines
  import opened Validator
  import opened Interpreter
  import opened Rows
  import opened ForkShape
  import opened Moves
  import opened Runs
  import opened Termination
  import opened Acceptance
  import opened Limits
  import opened EndlessRuns
  import opened EarlyJoins

  /** Branch `j` of fork `goal` begins at its join. */
  ghost predicate BeginsThere(def: Definition, goal: string, j: nat) {
    StepById(def.steps, goal).Some? &&
    var step := StepById(def.steps, goal).value;
    step.kind.Fork? && j < |Heads(step)| && Heads(step)[j] == JoinOf(def, step)
  }

  /** The run graph leads from `id` to the fork. */
  ghost predicate Toward(def: Definition, goal: string, id: string) {
    Reaches(RunGraph(def), id, goal)
  }

  lemma TowardGoesOn(def: Definition, goal: string, id: string) returns (b: string)
    requires Toward(def, goal, id) && id != goal
    ensures b in Succ(RunGraph(def), id) && Toward(def, goal, b)
  {
    hide RunGraph;
    var p :| PathFromTo(RunGraph(def), p, id, goal);
    PathTail(RunGraph(def), p);
    b := p[1];
    assert PathFromTo(RunGraph(def), p[1..], b, goal);
  }

  /** From inside a branch the way to a fork leads over the join. */
  lemma {:induction false} RegionLeadsOverJoin(def: Definition, goal: string, f: string, fork: Step, p: seq<string>)
    requires Tame(def) && IsStep(def, f, fork) && fork.kind.Fork? && p != [] && InRegion(def, fork, p[0])
    requires PathFromTo(RunGraph(def), p, p[0], goal)
    requires StepById(def.steps, goal).Some? && StepById(def.steps, goal).value.kind.Fork?
    ensures Toward(def, goal, JoinOf(def, fork))
    decreases |p|
  {
    hide Tame, RunGraph, InRegion, JoinOf, StepById;
    if |p| == 1 {
      RegionHasNoFork(def, f, fork, goal, StepById(def.steps, goal).value);
    } else {
      PathTail(RunGraph(def), p);
      assert PathFromTo(RunGraph(def), p[1..], p[1], goal);
      StaysInRegion(def, f, fork, p[0], p[1]);
      if p[1] != JoinOf(def, fork) {
        RegionLeadsOverJoin(def, goal, f, fork, p[1..]);
      }
    }
  }

  lemma ForkLeadsOverJoin(def: Definition, goal: string, f: string, fork: Step)
    requires Tame(def) && IsStep(def, f, fork) && fork.kind.Fork? && Toward(def, goal, f) && f != goal
    requires StepById(def.steps, goal).Some? && StepById(def.steps, goal).value.kind.Fork?
    ensures Toward(def, goal, JoinOf(def, fork))
  {
    hide *;
    var b := TowardGoesOn(def, goal, f);
    RunEdgeKinds(def, f, fork, b);
    if b != JoinOf(def, fork) {
      HeadIsInside(def, f, fork, b);
      var p := WayTo(def, goal, b);
      RegionLeadsOverJoin(def, goal, f, fork, p);
    }
  }

  lemma WayTo(def: Definition, goal: string, b: string) returns (p: seq<string>)
    requires Toward(def, goal, b)
    ensures p != [] && p[0] == b && PathFromTo(RunGraph(def), p, p[0], goal)
  {
    hide RunGraph;
    p :| PathFromTo(RunGraph(def), p, b, goal);
  }

  lemma HeadIsInside(def: Definition, f: string, fork: Step, b: string)
    requires Tame(def) && IsStep(def, f, fork) && fork.kind.Fork? && b in Heads(fork) && b != JoinOf(def, fork)
    ensures InRegion(def, fork, b)
  {
    var i :| 0 <= i < |Heads(fork)| && Heads(fork)[i] == b;
    StepIsGood(def, f);
    NoEmptyId(def);
    GoodStepHasId(def, fork);
    hide Tame, InRegion, JoinOf, Heads, GoodStep, StepById;
    HeadInRegion(def, fork, i);
  }

  /** Outside forks, a step finished with this name leads on towards the fork. */
  ghost predicate HeadsOn(def: Definition, goal: string, step: Step, next: string) {
    var to := NextOutsideFork(MachineOf(def), step, next);
    to.Some? && Toward(def, goal, to.value.id)
  }

  ghost predicate NameHeads(def: Definition, goal: string, id: string, next: string) {
    StepById(def.steps, id).Some? && !StepById(def.steps, id).value.kind.Fork? && Toward(def, goal, id) ==>
      HeadsOn(def, goal, StepById(def.steps, id).value, next)
  }

  ghost predicate NamesHead(def: Definition, goal: string, done: map<string, string>) {
    forall id :: id in done ==> NameHeads(def, goal, id, done[id])
  }

  ghost predicate JoinHeads(def: Definition, goal: string, f: string) {
    StepById(def.steps, f).Some? && Toward(def, goal, JoinOf(def, StepById(def.steps, f).value))
  }

  /** The fork has not begun, or runs before branch `j`; outside it, the instance is on the way there. */
  ghost predicate ForksHead(def: Definition, goal: string, j: nat, forks: Forks, at: string) {
    && (goal in forks ==> forks[goal].status.ForkRunning?)
    && (Idle(forks) ==> Toward(def, goal, at))
    && (forall f, k: nat :: RunningAt(forks, f, k) ==> if f == goal then k < j else JoinHeads(def, goal, f))
  }

  lemma NoneRuns(forks: Forks)
    requires Idle(forks)
    ensures forall f, k: nat :: !RunningAt(forks, f, k)
  {
  }

  lemma RunningForkHeads(def: Definition, goal: string, j: nat, forks: Forks, at: string, completed: seq<string>,
                         f: string, k: nat)
    requires ForksOk(def, forks, at, completed) && RunningAt(forks, f, k)
    requires if f == goal then k < j else JoinHeads(def, goal, f) && goal !in forks
    ensures ForksHead(def, goal, j, forks, at)
  {
    RunsAlone(def, forks, at, completed, f, k);
    hide ForksOk, JoinHeads, Toward, InOrder;
  }

  lemma IdleHeads(def: Definition, goal: string, j: nat, forks: Forks, at: string)
    requires Idle(forks) && goal !in forks && Toward(def, goal, at)
    ensures ForksHead(def, goal, j, forks, at)
  {
    NoneRuns(forks);
    hide RunningAt, JoinHeads, Toward;
  }

  /** A move within a running fork. */
  lemma InForkHeads(def: Definition, goal: string, j: nat, forks: Forks, at: string, completed: seq<string>, move: Move,
                    f: string, k: nat)
    requires BeginsThere(def, goal, j) && ForksOk(def, forks, at, completed) && RunningAt(forks, f, k)
    requires ForksHead(def, goal, j, forks, at) && GoodMove(def, forks, at, completed, move) && at != goal
    ensures ForksHead(def, goal, j, move.forks, move.step.value.id)
  {
    hide *;
    RunsAlone(def, forks, at, completed, f, k);
    HeadingFork(def, goal, j, forks, at, f, k);
    GoodMoveIs(def, forks, at, completed, move, f, k);
    var after, to := move.forks, move.step.value.id;
    if RunningAt(after, f, k) {
      RunningForkHeads(def, goal, j, after, to, completed, f, k);
    } else if RunningAt(after, f, k + 1) && IsHead(def, f, k + 1, to) {
      if f == goal {
        NotThereYet(def, goal, j, after, to, completed, k + 1);
      }
      RunningForkHeads(def, goal, j, after, to, completed, f, k + 1);
    } else {
      JoinIsLast(def, goal, j, f, k, to);
      IdleHeads(def, goal, j, after, to);
    }
  }

  lemma HeadingFork(def: Definition, goal: string, j: nat, forks: Forks, at: string, f: string, k: nat)
    requires ForksHead(def, goal, j, forks, at) && RunningAt(forks, f, k)
    requires forall g, i: nat :: RunningAt(forks, g, i) ==> g == f && i == k
    ensures if f == goal then k < j else JoinHeads(def, goal, f)
    ensures f in forks && forks[f].status.ForkRunning?
    ensures goal in forks ==> forks[goal].status.ForkRunning?
  {
    hide JoinHeads, Toward;
  }

  lemma GoodMoveIs(def: Definition, forks: Forks, at: string, completed: seq<string>, move: Move, f: string, k: nat)
    requires GoodMove(def, forks, at, completed, move) && ForksOk(def, forks, at, completed) && RunningAt(forks, f, k)
    requires forall g, i: nat :: RunningAt(forks, g, i) ==> g == f && i == k
    ensures move.step.Some? && ForksOk(def, move.forks, move.step.value.id, completed)
    ensures move.forks.Keys <= forks.Keys + {at}
    ensures RunningAt(move.forks, f, k) || (RunningAt(move.forks, f, k + 1) && IsHead(def, f, k + 1, move.step.value.id)) ||
      (Idle(move.forks) && IsLastJoin(def, f, k, move.step.value.id))
    ensures forall g :: g in forks && forks[g].status.ForkRunning? ==> g == f
  {
    hide ForkOk, RunGraph, Ids, IsHead, IsLastJoin, InOrder;
  }

  /** A branch in order does not stand at the join. */
  lemma NotThereYet(def: Definition, goal: string, j: nat, forks: Forks, to: string, completed: seq<string>, i: nat)
    requires BeginsThere(def, goal, j) && RunningAt(forks, goal, i) && IsHead(def, goal, i, to)
    requires ForksOk(def, forks, to, completed) && i <= j
    ensures i < j
  {
    hide ForksOk, JoinOf, Heads, StepById, InRegion, InOrder;
    var k := ForkRunsAt(def, forks, to, completed, goal);
    RegionAvoids(def, StepById(def.steps, goal).value, to);
  }

  lemma JoinIsLast(def: Definition, goal: string, j: nat, f: string, k: nat, to: string)
    requires BeginsThere(def, goal, j) && IsLastJoin(def, f, k, to)
    requires if f == goal then k < j else JoinHeads(def, goal, f)
    ensures f != goal && Toward(def, goal, to)
  {
    hide JoinOf, Heads, StepById, Toward;
  }

  /** A fork starts, or is passed for its join. */
  lemma ForkMoveHeads(def: Definition, goal: string, j: nat, forks: Forks, at: string, step: Step, completed: seq<string>)
    requires Tame(def) && BeginsThere(def, goal, j) && IsStep(def, at, step) && step.kind.Fork?
    requires ForksOk(def, forks, at, completed) && ForksHead(def, goal, j, forks, at)
    requires !JoinEntered(def, forks, NextForkStep(def, at, StartFork(def, step, forks)))
    ensures var move := NextForkStep(def, at, StartFork(def, step, forks));
      move.step.Some? && ForksHead(def, goal, j, move.forks, move.step.value.id)
  {
    hide *;
    ForkStepIsOutside(def, forks, at, step, completed);
    ForkMove(def, forks, at, step, completed);
    IdleTowards(def, goal, j, forks, at);
    GoalIsFork(def, goal, j);
    HeadsKnown(def, at, step);
    StepHasId(def, at, step);
    NoEmptyId(def);
    if at in forks {
      ForkLeadsOverJoin(def, goal, at, step);
      PassHeads(def, goal, j, forks, at, step, completed);
    } else {
      if at != goal {
        ForkLeadsOverJoin(def, goal, at, step);
      } else if j == 0 {
        FirstHeadIsJoin(def, goal, step);
        StepIsGood(def, at);
        ForkEnteredAtJoin(def, forks, at, step);
      }
      EnterHeads(def, goal, j, forks, at, step, completed);
    }
  }

  lemma StepHasId(def: Definition, at: string, step: Step)
    requires Tame(def) && IsStep(def, at, step)
    ensures step.id == at && StepById(def.steps, at) == Some(step) && GoodStep(def, step)
    ensures step.kind.Fork? ==> Heads(step) != []
  {
    KnownIds(def, at);
    StepIsGood(def, at);
    hide Tame, Heads, JoinOf, Ids;
  }

  lemma GoalIsFork(def: Definition, goal: string, j: nat)
    requires BeginsThere(def, goal, j)
    ensures StepById(def.steps, goal).Some? && StepById(def.steps, goal).value.kind.Fork?
  {
  }

  lemma FirstHeadIsJoin(def: Definition, goal: string, step: Step)
    requires BeginsThere(def, goal, 0) && IsStep(def, goal, step)
    ensures Heads(step)[0] == JoinOf(def, step)
  {
    hide JoinOf, Heads, StepById;
  }

  lemma IdleTowards(def: Definition, goal: string, j: nat, forks: Forks, at: string)
    requires ForksHead(def, goal, j, forks, at) && Idle(forks)
    ensures Toward(def, goal, at) && goal !in forks
  {
    hide Toward, JoinHeads;
  }

  lemma PassHeads(def: Definition, goal: string, j: nat, forks: Forks, at: string, step: Step, completed: seq<string>)
    requires IsStep(def, at, step) && step.kind.Fork? && at == step.id && at in forks && Idle(forks) && goal !in forks
    requires ForksOk(def, forks, at, completed) && JoinOf(def, step) in Ids(def) && Toward(def, goal, JoinOf(def, step))
    ensures var move := NextForkStep(def, at, StartFork(def, step, forks));
      move.step.Some? && ForksHead(def, goal, j, move.forks, move.step.value.id)
  {
    KnownIds(def, JoinOf(def, step));
    var k :| ForkOk(def, at, forks[at], k, at, completed);
    PassedForkOk(def, step, forks[at], k, at, completed);
    var fork := forks[at].(status := ForkCompleted);
    assert NextForkStep(def, at, forks) == Move(forks[at := fork], StepById(def.steps, fork.join));
    StartedForkIsKept(def, step, forks);
    assert Idle(forks[at := fork]);
    hide *;
    IdleHeads(def, goal, j, forks[at := fork], JoinOf(def, step));
  }

  lemma EnterHeads(def: Definition, goal: string, j: nat, forks: Forks, at: string, step: Step, completed: seq<string>)
    requires IsStep(def, at, step) && step.kind.Fork? && at == step.id && at !in forks && goal !in forks
    requires Heads(step) != [] && JoinOf(def, step) in Ids(def) && "" !in Ids(def)
    requires forall i :: 0 <= i < |Heads(step)| ==> Heads(step)[i] in Ids(def)
    requires if at == goal then 0 < j else Toward(def, goal, JoinOf(def, step))
    requires GoodMove(def, forks, at, completed, NextForkStep(def, at, StartFork(def, step, forks)))
    ensures var move := NextForkStep(def, at, StartFork(def, step, forks));
      move.step.Some? && ForksHead(def, goal, j, move.forks, move.step.value.id)
  {
    hide *;
    var move := NextForkStep(def, at, StartFork(def, step, forks));
    EnteredFork(def, forks, at, step);
    GoodMoveOrder(def, forks, at, completed, move);
    JoinHeadsFrom(def, goal, at, step);
    RunningForkHeads(def, goal, j, move.forks, move.step.value.id, completed, at, 0);
  }

  lemma EnteredFork(def: Definition, forks: Forks, at: string, step: Step)
    requires IsStep(def, at, step) && step.kind.Fork? && at == step.id && at !in forks
    requires Heads(step) != [] && JoinOf(def, step) in Ids(def) && "" !in Ids(def)
    requires forall i :: 0 <= i < |Heads(step)| ==> Heads(step)[i] in Ids(def)
    ensures var move := NextForkStep(def, at, StartFork(def, step, forks));
      RunningAt(move.forks, at, 0) && move.forks.Keys == forks.Keys + {at}
  {
    assert Heads(step)[0] in Ids(def);
    StartedForkMove(def, forks, at, step);
    hide JoinOf, Heads, Ids, NextForkStep, StartFork, StepById;
  }

  lemma GoodMoveOrder(def: Definition, forks: Forks, at: string, completed: seq<string>, move: Move)
    requires GoodMove(def, forks, at, completed, move)
    ensures move.step.Some? && ForksOk(def, move.forks, move.step.value.id, completed)
  {
    hide ForksOk, Advances, Ids;
  }

  lemma JoinHeadsFrom(def: Definition, goal: string, f: string, fork: Step)
    requires IsStep(def, f, fork)
    ensures Toward(def, goal, JoinOf(def, fork)) ==> JoinHeads(def, goal, f)
  {
    hide Toward, JoinOf, StepById;
  }

  /** Outside forks. */
  lemma OutsideHeads(def: Definition, goal: string, j: nat, forks: Forks, step: Step, next: string)
    requires Idle(forks) && goal !in forks && HeadsOn(def, goal, step, next)
    ensures var after := if step.kind.Join? then MarkJoined(step.id, forks) else forks;
      var to := NextOutsideFork(MachineOf(def), step, next);
      to.Some? && ForksHead(def, goal, j, after, to.value.id)
  {
    var after := if step.kind.Join? then MarkJoined(step.id, forks) else forks;
    assert Idle(after) && goal !in after;
    hide NextOutsideFork, NormalSteps, Toward, MarkJoined, Idle;
    IdleHeads(def, goal, j, after, NextOutsideFork(MachineOf(def), step, next).value.id);
  }

  /** Every move that does not begin a branch at a join leads on. */
  lemma MoveHeads(def: Definition, goal: string, j: nat, forks: Forks, at: string, step: Step, completed: seq<string>,
                  next: string, pick: Pick)
    requires Tame(def) && BeginsThere(def, goal, j) && IsStep(def, at, step) && Legit(step, next)
    requires ForksOk(def, forks, at, completed) && at in completed && CanPick(step, forks, pick) && ValidPick(forks, pick)
    requires ForksHead(def, goal, j, forks, at)
    requires !step.kind.Fork? && Toward(def, goal, at) ==> HeadsOn(def, goal, step, next)
    requires !JoinEntered(def, forks, NextAfter(MachineOf(def), step, forks, next, pick))
    ensures var move := NextAfter(MachineOf(def), step, forks, next, pick);
      move.step.Some? && ForksHead(def, goal, j, move.forks, move.step.value.id)
  {
    StepHasId(def, at, step);
    if step.kind.Fork? {
      hide Tame, ForksOk, StepById, IsPick, ForksHead, NextForkStep, StartFork, NormalSteps, BeginsThere, JoinEntered;
      ForkMoveHeads(def, goal, j, forks, at, step, completed);
    } else {
      GoalIsFork(def, goal, j);
      PickIsUnique(def, forks, at, completed, pick, pick);
      hide Tame, ForksOk, StepById, NextOutsideFork, NextAfterBranchStep, IsPick, ForksHead, MarkJoined, NormalSteps, Toward,
        HeadsOn, BeginsThere, JoinEntered, ForkOk, RunningAt, Legit;
      if pick.InBranch? {
        BranchMove(def, forks, at, step, completed, next, pick.fork, pick.index);
        InForkHeads(def, goal, j, forks, at, completed, NextAfterBranchStep(def, pick.fork, pick.index, step, forks, next),
                    pick.fork, pick.index);
      } else {
        IdleTowards(def, goal, j, forks, at);
        OutsideHeads(def, goal, j, forks, step, next);
      }
    }
  }

  /** The instance is on its way to branch `j` of the fork. */
  ghost predicate Heading(def: Definition, goal: string, j: nat, a: Progress) {
    && Sound(def, a) && Cursor(a).Some? && ForksHead(def, goal, j, a.forks, Cursor(a).value)
    && NamesHead(def, goal, a.done)
  }

  lemma HeadingFacts(def: Definition, goal: string, j: nat, a: Progress, at: string)
    requires Heading(def, goal, j, a) && Cursor(a) == Some(at)
    ensures Sound(def, a) && ForksHead(def, goal, j, a.forks, at) && NamesHead(def, goal, a.done)
    ensures ForksOk(def, a.forks, at, a.completed) && StepById(def.steps, at).Some? && StepById(def.steps, at).value.id == at
    ensures at in a.done ==> at in a.completed && Legit(StepById(def.steps, at).value, a.done[at])
    ensures at in a.done ==> NameHeads(def, goal, at, a.done[at])
    ensures a.phase.Ready? ==> a.phase == Ready(Some(at))
    ensures a.phase.Active? ==> a.phase == Active(at)
    ensures a.phase.Ready? || a.phase.Active?
  {
    KnownIds(def, at);
    hide ForksOk, ForksHead, NameHeads, StepById, Legit;
  }

  lemma NextHeads(def: Definition, goal: string, j: nat, a: Progress, b: Progress, to: string)
    requires Sound(def, b) && Cursor(b) == Some(to) && ForksHead(def, goal, j, b.forks, to)
    requires NamesHead(def, goal, a.done)
    requires forall id :: id in b.done ==> (id in a.done && b.done[id] == a.done[id]) || NameHeads(def, goal, id, b.done[id])
    ensures Heading(def, goal, j, b)
  {
    hide Sound, ForksHead, NameHeads;
  }

  /** The result with which a step finishes on the way. */
  lemma ResultOnTheWay(def: Definition, goal: string, at: string, step: Step) returns (r: Result)
    requires Tame(def) && IsStep(def, at, step) && (step.kind.Fork? || at != goal)
    ensures MayResult(step, r) && Legit(step, r.next) && Legit(step, r.outputNext)
    ensures !step.kind.Fork? && Toward(def, goal, at) ==>
      HeadsOn(def, goal, step, r.next) && HeadsOn(def, goal, step, r.outputNext)
    ensures NameHeads(def, goal, at, r.outputNext)
  {
    StepIsGood(def, at);
    hide Tame, Toward, MayResult, GoodStep, StepById, NextOutsideFork, RunGraph, Legit;
    if !step.kind.Fork? && Toward(def, goal, at) {
      var b := TowardGoesOn(def, goal, at);
      r := ResultTo(def, at, step, b);
    } else {
      r := SomeResult(def, step);
    }
    MayResultIsLegit(def, step, r);
  }

  ghost predicate GoesOnHeading(def: Definition, goal: string, j: nat, a: Progress, e: Event) {
    && Enabled(MachineOf(def), a, e) && (e.Start? || e.Finish?)
    && (TooEarly(def, a, e) || Heading(def, goal, j, Next(MachineOf(def), a, e)))
  }

  lemma MovedDone(a: Progress, at: string, outputNext: string, move: Move)
    requires move.step.Some?
    ensures var b := Moved(a, at, outputNext, move);
      && b.forks == move.forks && Cursor(b) == Some(move.step.value.id) && b.done == a.done[at := outputNext]
  {
  }

  lemma StartedDone(a: Progress, to: string, forks: Forks)
    ensures var b := Started(a, to, forks);
      && b.forks == forks && Cursor(b) == Some(to) && forall id :: id in b.done ==> id in a.done && b.done[id] == a.done[id]
  {
  }

  /** The active step finishes. */
  lemma FinishHeads(def: Definition, goal: string, j: nat, a: Progress) returns (e: Event)
    requires Tame(def) && BeginsThere(def, goal, j) && Heading(def, goal, j, a) && a.phase.Active?
    ensures GoesOnHeading(def, goal, j, a, e)
  {
    hide *;
    var at := a.phase.step;
    ActiveStands(a);
    HeadingFacts(def, goal, j, a, at);
    var step := StepById(def.steps, at).value;
    StepIsHere(def, at);
    GoalIsFork(def, goal, j);
    var r := ResultOnTheWay(def, goal, at, step);
    var pick := CanPickExists(step, a.forks);
    CanPickIsValid(step, a.forks, pick);
    e := Finish(r, pick);
    MachineIsOf(def);
    FinishIsMoved(MachineOf(def), a, step, r, pick);
    var move := NextAfter(MachineOf(def), step, a.forks, r.next, pick);
    FinishTooEarly(def, a, r, pick);
    if !TooEarly(def, a, e) {
      AppendedIsIn(a.completed, at);
      ForksOkGrow(def, a.forks, at, a.completed, AppendNew(a.completed, at));
      MoveHeads(def, goal, j, a.forks, at, step, AppendNew(a.completed, at), r.next, pick);
      EventKeepsSound(def, a, e);
      MovedDone(a, at, r.outputNext, move);
      NextHeads(def, goal, j, a, Next(MachineOf(def), a, e), move.step.value.id);
    }
    GoesOn(def, goal, j, a, e);
  }

  lemma GoesOn(def: Definition, goal: string, j: nat, a: Progress, e: Event)
    requires Enabled(MachineOf(def), a, e) && (e.Start? || e.Finish?)
    requires TooEarly(def, a, e) || Heading(def, goal, j, Next(MachineOf(def), a, e))
    ensures GoesOnHeading(def, goal, j, a, e)
  {
    hide Enabled, TooEarly, Heading, Next;
  }

  lemma MachineIsOf(def: Definition)
    ensures MachineOf(def).def == def
  {
    hide NormalSteps;
  }

  lemma ActiveStands(a: Progress)
    requires a.phase.Active?
    ensures Cursor(a) == Some(a.phase.step)
  {
  }

  lemma AppendedIsIn(completed: seq<string>, at: string)
    ensures at in AppendNew(completed, at) && forall id :: id in completed ==> id in AppendNew(completed, at)
  {
  }

  lemma FinishTooEarly(def: Definition, a: Progress, r: Result, pick: Pick)
    requires Enabled(MachineOf(def), a, Finish(r, pick))
    ensures TooEarly(def, a, Finish(r, pick)) <==>
      JoinEntered(def, a.forks, NextAfter(MachineOf(def), StepById(def.steps, a.phase.step).value, a.forks, r.next, pick))
  {
    hide JoinEntered, NextAfter, StepById;
  }

  /** The next step starts; a completed one is passed over. */
  lemma StartHeads(def: Definition, goal: string, j: nat, a: Progress) returns (e: Event)
    requires Tame(def) && BeginsThere(def, goal, j) && Heading(def, goal, j, a) && a.phase.Ready?
    ensures GoesOnHeading(def, goal, j, a, e)
  {
    hide *;
    ReadyStands(def, goal, j, a);
    var at := a.phase.current.value;
    HeadingFacts(def, goal, j, a, at);
    var step := StepById(def.steps, at).value;
    StepIsHere(def, at);
    var pick := NoBranch;
    if at in a.done {
      pick := CanPickExists(step, a.forks);
      CanPickIsValid(step, a.forks, pick);
      SkipResolves(def, a, at, step, pick);
    } else {
      StandResolves(def, a, at, step);
    }
    CanResolveHere(def, a, at, step, pick);
    var move := Resolve(MachineOf(def), a.done, a.forks, a.phase.current, pick);
    EnteredHasStep(def, a.forks, move);
    if at in a.done && !JoinEntered(def, a.forks, move) {
      NameHeadsIs(def, goal, at, step, a.done[at]);
      MoveHeads(def, goal, j, a.forks, at, step, a.completed, a.done[at], pick);
    }
    e := Start(pick);
    StartIsStarted(MachineOf(def), a, pick, move);
    StartTooEarly(def, a, pick);
    if !TooEarly(def, a, e) {
      EventKeepsSound(def, a, e);
      StartedDone(a, move.step.value.id, move.forks);
      NextHeads(def, goal, j, a, Next(MachineOf(def), a, e), move.step.value.id);
    }
    GoesOn(def, goal, j, a, e);
  }

  lemma ReadyStands(def: Definition, goal: string, j: nat, a: Progress)
    requires Heading(def, goal, j, a) && a.phase.Ready?
    ensures a.phase.current.Some? && Cursor(a) == a.phase.current
  {
    hide Sound, ForksHead, NamesHead;
  }

  lemma EnteredHasStep(def: Definition, before: Forks, move: Move)
    ensures JoinEntered(def, before, move) ==> move.step.Some?
  {
    hide BeginsAtJoin;
  }

  lemma NameHeadsIs(def: Definition, goal: string, id: string, step: Step, next: string)
    requires NameHeads(def, goal, id, next) && IsStep(def, id, step)
    ensures !step.kind.Fork? && Toward(def, goal, id) ==> HeadsOn(def, goal, step, next)
  {
    hide Toward, HeadsOn, StepById;
  }

  lemma StartTooEarly(def: Definition, a: Progress, pick: Pick)
    requires Enabled(MachineOf(def), a, Start(pick))
    ensures TooEarly(def, a, Start(pick)) <==>
      JoinEntered(def, a.forks, Resolve(MachineOf(def), a.done, a.forks, a.phase.current, pick))
  {
    hide JoinEntered, Resolve;
  }

  lemma StandResolves(def: Definition, a: Progress, at: string, step: Step)
    requires a.phase == Ready(Some(at)) && at !in a.done && IsStep(def, at, step)
    ensures Resolve(MachineOf(def), a.done, a.forks, a.phase.current, NoBranch) == Move(a.forks, Some(step))
    ensures ValidPick(a.forks, NoBranch)
  {
    hide StepById;
  }

  lemma GoesOneOn(def: Definition, goal: string, j: nat, a: Progress) returns (e: Event)
    requires Tame(def) && BeginsThere(def, goal, j) && Heading(def, goal, j, a)
    ensures GoesOnHeading(def, goal, j, a, e)
  {
    hide Tame, BeginsThere, Sound, ForksHead, NamesHead, GoesOnHeading;
    if a.phase.Active? {
      e := FinishHeads(def, goal, j, a);
    } else {
      e := StartHeads(def, goal, j, a);
    }
  }

  /** The run goes on until a branch begins at its join. */
  lemma {:induction false} RunsIntoJoin(def: Definition, order: seq<string>, goal: string, j: nat, events: seq<Event>,
                                        a: Progress) returns (more: seq<Event>, b: Progress)
    requires Tame(def) && BeginsThere(def, goal, j) && RunOrder(def, order)
    requires SmoothRun(MachineOf(def), events, a) && Heading(def, goal, j, a) && Listed(order, a)
    ensures SmoothRun(MachineOf(def), more, b) && Unsafe(def, b)
    decreases Fuel(def, order, a)
  {
    var m := MachineOf(def);
    hide Tame, BeginsThere, RunOrder, SmoothRun, Listed, Fuel, Enabled, Next, TooEarly, Sound, ForksHead, NamesHead, Unsafe;
    var e := GoesOneOn(def, goal, j, a);
    b := Next(m, a, e);
    more := events + [e];
    Continue(m, events, a, e, b);
    if TooEarly(def, a, e) {
      TooEarlyIsUnsafe(def, a, e);
    } else {
      EventBurns(def, order, a, e);
      more, b := RunsIntoJoin(def, order, goal, j, more, b);
    }
  }

  lemma HeadingStarts(def: Definition, goal: string, j: nat, id: string) returns (a: Progress)
    requires Tame(def) && BeginsThere(def, goal, j) && IsFirst(def, id) && Toward(def, goal, id)
    ensures SmoothRun(MachineOf(def), STARTED, a) && Heading(def, goal, j, a)
    ensures Cursor(a) == Some(id) && a.forks == map[]
  {
    var m := MachineOf(def);
    var move := Resolve(m, INITIAL.done, INITIAL.forks, None, NoBranch);
    a := Started(INITIAL, id, move.forks);
    InitialRun(m);
    InitialIsSound(def);
    StartIsStarted(m, INITIAL, NoBranch, move);
    assert move.forks == map[] && a.forks == map[] && a.done == map[];
    StartTooEarly(def, INITIAL, NoBranch);
    NoForkEntered(def, move);
    hide *;
    Continue(m, [], INITIAL, Start(NoBranch), a);
    assert [] + STARTED == STARTED;
    EventKeepsSound(def, INITIAL, Start(NoBranch));
    HeadingOutside(def, goal, j, a, id);
  }

  lemma NoForkEntered(def: Definition, move: Move)
    requires move.forks == map[]
    ensures !JoinEntered(def, map[], move)
  {
  }

  lemma HeadingOutside(def: Definition, goal: string, j: nat, a: Progress, id: string)
    requires Sound(def, a) && Cursor(a) == Some(id) && a.forks == map[] && a.done == map[] && Toward(def, goal, id)
    ensures Heading(def, goal, j, a)
  {
    hide Sound, Toward;
    IdleHeads(def, goal, j, a.forks, id);
  }

  lemma FirstIsListed(def: Definition, order: seq<string>, a: Progress, id: string)
    requires RunOrder(def, order) && IsFirst(def, id) && Cursor(a) == Some(id) && a.forks == map[]
    ensures Listed(order, a)
  {
    hide IsFirst, Topological;
  }

  /** Some run, without failures, gets to the fork and begins a branch of it at its join, or of another fork before. */
  lemma ReachedForkIsUnsafe(def: Definition, goal: string, j: nat) returns (events: seq<Event>, a: Progress)
    requires Tame(def) && LoopFree(def) && BeginsThere(def, goal, j) && IsReached(def, goal)
    ensures SmoothRun(MachineOf(def), events, a) && Unsafe(def, a)
  {
    hide Tame, LoopFree, BeginsThere, SmoothRun, RunGraph, Reaches, RunOrder, IsFirst, Heading, Unsafe;
    var id :| IsFirst(def, id) && Reaches(RunGraph(def), id, goal);
    assert Toward(def, goal, id);
    var order := LoopFreeHasOrder(def);
    a := HeadingStarts(def, goal, j, id);
    FirstIsListed(def, order, a, id);
    events, a := RunsIntoJoin(def, order, goal, j, STARTED, a);
  }

  lemma NotApartHasHead(def: Definition) returns (goal: string, j: nat)
    requires !ReachedJoinsApart(def)
    ensures IsReached(def, goal) && BeginsThere(def, goal, j)
  {
    hide IsReached, JoinOf, Heads, StepById;
    goal :| IsReached(def, goal) && StepById(def.steps, goal).Some? && StepById(def.steps, goal).value.kind.Fork? &&
      JoinOf(def, StepById(def.steps, goal).value) in Heads(StepById(def.steps, goal).value);
    var heads := Heads(StepById(def.steps, goal).value);
    j :| 0 <= j < |heads| && heads[j] == JoinOf(def, StepById(def.steps, goal).value);
  }

  /** All runs of a definition without nested forks, stored names and loops are join-safe if and only if no fork that can be
      reached has its join among its branches. */
  lemma JoinSafeIff(def: Definition)
    requires Tame(def) && LoopFree(def)
    ensures JoinSafe(def) <==> ReachedJoinsApart(def)
  {
    hide Tame, LoopFree, ReachedJoinsApart, Run, Unsafe;
    if ReachedJoinsApart(def) {
      ReachedIsSafe(def);
    } else {
      var goal, j := NotApartHasHead(def);
      hide BeginsThere, IsReached;
      var events, a := ReachedForkIsUnsafe(def, goal, j);
    }
  }
}
