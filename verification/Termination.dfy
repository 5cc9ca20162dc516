/** Every run of the interpreter on a disciplined definition is finite, unless a loop of the run graph can be reached from
    the first step. */
module Termination {
  import opened Workflow
  import opened Graph
  import opened Regions
  import opened Machines
  import opened Saga
  import opened Interpreter
  import opened Rows
  import opened ForkShape
  import opened Moves
  import opened Runs

  /** The first step of the linear path, if any. */
  ghost predicate IsFirst(def: Definition, id: string) {
    MachineOf(def).normal != [] && MachineOf(def).normal[0].id == id
  }

  /** No loop of the run graph can be reached from the first step. */
  ghost predicate LoopFree(def: Definition) {
    forall id :: IsFirst(def, id) ==> !Endless(RunGraph(def), id)
  }

  lemma NoCycleIsLoopFree(def: Definition)
    requires !HasCycle(RunGraph(def))
    ensures LoopFree(def)
  {
    forall id | IsFirst(def, id) ensures !Endless(RunGraph(def), id) {
      NoCycleNoEndless(RunGraph(def), id);
    }
  }

  /** A topological listing of the steps that can be reached. */
  ghost predicate RunOrder(def: Definition, order: seq<string>) {
    Topological(RunGraph(def), order) && forall id :: IsFirst(def, id) ==> id in order
  }

  lemma LoopFreeHasOrder(def: Definition) returns (order: seq<string>)
    requires LoopFree(def)
    ensures RunOrder(def, order)
  {
    hide RunGraph, NormalSteps, Topological;
    if MachineOf(def).normal == [] {
      order := [];
      NothingListed(RunGraph(def));
    } else {
      var id := MachineOf(def).normal[0].id;
      assert IsFirst(def, id);
      order := NotEndlessHasOrder(RunGraph(def), id);
    }
  }

  lemma NothingListed(g: Graph)
    ensures Topological(g, [])
  {
  }

  /** Where the instance stands, and the forks it has started, are listed. */
  ghost predicate Listed(order: seq<string>, a: Progress) {
    && (Cursor(a).Some? ==> Cursor(a).value in order)
    && (Cursor(a).Some? ==> forall f :: f in a.forks ==> f in order)
  }

  function Rank(order: seq<string>, id: string): nat {
    if id in order then IndexOf(order, id) else 0
  }

  function MaxHeads(steps: seq<Step>): nat {
    if steps == [] then 0
    else if |Heads(steps[0])| > MaxHeads(steps[1..]) then |Heads(steps[0])| else MaxHeads(steps[1..])
  }

  lemma {:induction false} HeadsBounded(steps: seq<Step>, i: nat)
    requires i < |steps|
    ensures |Heads(steps[i])| <= MaxHeads(steps)
  {
    if i > 0 {
      HeadsBounded(steps[1..], i - 1);
    }
  }

  /** Room for all the branches of one fork between two ranks. */
  function Width(def: Definition, order: seq<string>): (width: nat)
    ensures width > 0
  {
    MaxHeads(def.steps) * |order| + 1
  }

  /** Inside a fork with `open` branches left after the current one. */
  function InForkMeasure(width: nat, size: nat, forkRank: nat, open: nat, rank: nat): nat {
    forkRank * width + open * size + rank
  }

  function OutsideMeasure(width: nat, rank: nat): nat
    requires width > 0
  {
    rank * width + width - 1
  }

  /** The rank of the step outside forks that anchors the instance, the branches its fork has left, and the rank within
      the branch, as one number. */
  ghost function Measure(def: Definition, order: seq<string>, forks: Forks, at: string): nat {
    if f, k :| RunningAt(forks, f, k) then
      InForkMeasure(Width(def, order), |order|, Rank(order, f), |forks[f].branches| - k - 1, Rank(order, at))
    else OutsideMeasure(Width(def, order), Rank(order, at))
  }

  lemma MeasureInFork(def: Definition, order: seq<string>, forks: Forks, at: string, completed: seq<string>, f: string, k: nat)
    requires ForksOk(def, forks, at, completed) && RunningAt(forks, f, k)
    ensures Measure(def, order, forks, at) ==
      InForkMeasure(Width(def, order), |order|, Rank(order, f), |forks[f].branches| - k - 1, Rank(order, at))
  {
    hide InForkMeasure, Width, Rank, ForkOk;
    forall g, j | RunningAt(forks, g, j) ensures g == f && j == k {
      assert g == f;
    }
  }

  lemma MeasureOutside(def: Definition, order: seq<string>, forks: Forks, at: string)
    requires Idle(forks)
    ensures Measure(def, order, forks, at) == OutsideMeasure(Width(def, order), Rank(order, at))
  {
    hide OutsideMeasure, Width, Rank;
  }

  lemma RankBelow(def: Definition, order: seq<string>, id: string)
    requires RunOrder(def, order) && id in order
    ensures Rank(order, id) < |order|
  {
  }

  lemma EdgeLowersRank(def: Definition, order: seq<string>, a: string, b: string)
    requires RunOrder(def, order) && a in order && b in Succ(RunGraph(def), a)
    ensures b in order && Rank(order, b) < Rank(order, a)
  {
    EdgeDescends(RunGraph(def), order, a, b);
  }

  lemma OutsideOverInside(width: nat, size: nat, low: nat, high: nat, open: nat, rank: nat)
    requires low < high && width > 0
    ensures OutsideMeasure(width, low) < InForkMeasure(width, size, high, open, rank)
  {
    assert (low + 1) * width <= high * width;
    assert low * width + width == (low + 1) * width;
  }

  lemma OutsideDescends(width: nat, low: nat, high: nat)
    requires low < high && width > 0
    ensures OutsideMeasure(width, low) < OutsideMeasure(width, high)
  {
    assert (low + 1) * width <= high * width;
    assert low * width + width == (low + 1) * width;
  }

  lemma ForkFitsBelow(def: Definition, order: seq<string>, forkRank: nat, heads: nat, rank: nat)
    requires 0 < heads <= MaxHeads(def.steps) && rank < |order|
    ensures InForkMeasure(Width(def, order), |order|, forkRank, heads - 1, rank) <
      OutsideMeasure(Width(def, order), forkRank)
  {
    var max, size := MaxHeads(def.steps), |order|;
    hide MaxHeads;
    assert (heads - 1) * size + size == heads * size;
    assert heads * size <= max * size;
  }

  lemma SameBranchDescends(width: nat, size: nat, forkRank: nat, open: nat, low: nat, high: nat)
    requires low < high
    ensures InForkMeasure(width, size, forkRank, open, low) < InForkMeasure(width, size, forkRank, open, high)
  {
  }

  lemma NextBranchDescends(width: nat, size: nat, forkRank: nat, open: nat, rank: nat, next: nat)
    requires next < size && open > 0
    ensures InForkMeasure(width, size, forkRank, open - 1, next) < InForkMeasure(width, size, forkRank, open, rank)
  {
    assert (open - 1) * size + size == open * size;
  }

  lemma BranchCount(def: Definition, forks: Forks, at: string, completed: seq<string>, f: string)
    requires ForksOk(def, forks, at, completed) && f in forks
    ensures StepById(def.steps, f).Some? && |forks[f].branches| == |Heads(StepById(def.steps, f).value)|
    ensures |forks[f].branches| <= MaxHeads(def.steps)
    ensures f in Ids(def)
  {
    hide InRegion, JoinOf, BranchOk;
    KnownIds(def, f);
    var step := StepById(def.steps, f).value;
    var i :| 0 <= i < |def.steps| && def.steps[i] == step;
    HeadsBounded(def.steps, i);
  }

  /** Every good move lowers the measure. */
  lemma GoodMoveDescends(def: Definition, order: seq<string>, forks: Forks, at: string, completed: seq<string>, move: Move)
    requires RunOrder(def, order) && at in order && ForksOk(def, forks, at, completed)
    requires GoodMove(def, forks, at, completed, move) && forall f :: f in forks ==> f in order
    ensures Measure(def, order, move.forks, move.step.value.id) < Measure(def, order, forks, at)
    ensures move.step.value.id in order && forall f :: f in move.forks ==> f in order
  {
    var after, to := move.forks, move.step.value.id;
    hide RunOrder, ForksOk, RunGraph, Measure, Ids, RunningAt, MovesOn, Idle;
    if Idle(forks) && Idle(after) && to in Succ(RunGraph(def), at) {
      AlongEdgeDescends(def, order, forks, at, after, to);
    } else if Idle(forks) && RunningAt(after, at, 0) && to in Succ(RunGraph(def), at) {
      EnteringDescends(def, order, forks, at, completed, after, to);
    } else {
      var f, k :| RunningAt(forks, f, k) && MovesOn(def, f, k, at, after, to);
      InsideDescends(def, order, forks, at, completed, after, to, f, k);
    }
  }

  lemma AlongEdgeDescends(def: Definition, order: seq<string>, forks: Forks, at: string, after: Forks, to: string)
    requires RunOrder(def, order) && at in order && Idle(forks) && Idle(after) && to in Succ(RunGraph(def), at)
    ensures to in order && Measure(def, order, after, to) < Measure(def, order, forks, at)
  {
    hide RunOrder, RunGraph, Measure, OutsideMeasure, Width, Rank, Ids, Idle;
    EdgeLowersRank(def, order, at, to);
    MeasureOutside(def, order, forks, at);
    MeasureOutside(def, order, after, to);
    OutsideDescends(Width(def, order), Rank(order, to), Rank(order, at));
  }

  lemma EnteringDescends(def: Definition, order: seq<string>, forks: Forks, at: string, completed: seq<string>,
                         after: Forks, to: string)
    requires RunOrder(def, order) && at in order && ForksOk(def, after, to, completed)
    requires Idle(forks) && RunningAt(after, at, 0) && to in Succ(RunGraph(def), at)
    ensures to in order && Measure(def, order, after, to) < Measure(def, order, forks, at)
  {
    hide Measure, InForkMeasure, OutsideMeasure, Width, MaxHeads, ForksOk, Rank, RunOrder, RunGraph;
    EdgeLowersRank(def, order, at, to);
    RankBelow(def, order, to);
    BranchCount(def, after, to, completed, at);
    MeasureOutside(def, order, forks, at);
    MeasureInFork(def, order, after, to, completed, at, 0);
    ForkFitsBelow(def, order, Rank(order, at), |after[at].branches|, Rank(order, to));
  }

  lemma InsideDescends(def: Definition, order: seq<string>, forks: Forks, at: string, completed: seq<string>,
                       after: Forks, to: string, f: string, k: nat)
    requires RunOrder(def, order) && at in order && f in order
    requires ForksOk(def, forks, at, completed) && ForksOk(def, after, to, completed)
    requires RunningAt(forks, f, k) && MovesOn(def, f, k, at, after, to)
    ensures to in order && Measure(def, order, after, to) < Measure(def, order, forks, at)
  {
    hide InForkMeasure, OutsideMeasure, MaxHeads, RunOrder, ForksOk, RunGraph, Measure, Rank, Ids, Heads, StepById, Width;
    RankBelow(def, order, at);
    BranchCount(def, forks, at, completed, f);
    MeasureInFork(def, order, forks, at, completed, f, k);
    var open := |forks[f].branches| - k - 1;
    if RunningAt(after, f, k) && to in Succ(RunGraph(def), at) {
      EdgeLowersRank(def, order, at, to);
      BranchCount(def, after, to, completed, f);
      MeasureInFork(def, order, after, to, completed, f, k);
      SameBranchDescends(Width(def, order), |order|, Rank(order, f), open, Rank(order, to), Rank(order, at));
    } else if RunningAt(after, f, k + 1) && to in Succ(RunGraph(def), f) {
      EdgeLowersRank(def, order, f, to);
      RankBelow(def, order, to);
      BranchCount(def, after, to, completed, f);
      MeasureInFork(def, order, after, to, completed, f, k + 1);
      NextBranchDescends(Width(def, order), |order|, Rank(order, f), open, Rank(order, at), Rank(order, to));
    } else {
      EdgeLowersRank(def, order, f, to);
      MeasureOutside(def, order, after, to);
      OutsideOverInside(Width(def, order), |order|, Rank(order, to), Rank(order, f), open, Rank(order, at));
    }
  }

  lemma {:induction false} DistinctWithin(s: seq<string>, ids: set<string>)
    requires forall i, j :: 0 <= i < j < |s| ==> s[i] != s[j]
    requires forall i :: 0 <= i < |s| ==> s[i] in ids
    ensures |s| <= |ids|
  {
    if s != [] {
      var rest := s[..|s| - 1];
      DistinctWithin(rest, ids - {s[|s| - 1]});
    }
  }

  lemma QueueIsBounded(def: Definition, failed: string, completed: seq<string>)
    ensures |CompensationQueue(def, failed, completed)| <= |CompensationRefs(def)|
  {
    var queue := CompensationQueue(def, failed, completed);
    var last := CompensationQueueLaw(def, failed, completed);
    hide CompensationQueue;
    forall i | 0 <= i < |queue| ensures queue[i] in CompensationRefs(def) {
      var id := (completed + [failed])[last[i]];
      assert Target(def, id) == queue[i] != "";
      var k :| 0 <= k < |def.steps| && def.steps[k] == StepById(def.steps, id).value;
    }
    DistinctWithin(queue, CompensationRefs(def));
  }

  function UndoRoom(def: Definition): nat {
    |CompensationRefs(def)| + 1
  }

  function Top(def: Definition, order: seq<string>): nat {
    Width(def, order) * |order|
  }

  /** An upper bound on the events still to come. */
  ghost function Fuel(def: Definition, order: seq<string>, a: Progress): nat {
    match a.phase
    case Ready(None) => 2 * Top(def, order) + 3 + UndoRoom(def)
    case Ready(Some(at)) => 2 * Measure(def, order, a.forks, at) + 3 + UndoRoom(def)
    case Active(at) => 2 * Measure(def, order, a.forks, at) + 2 + UndoRoom(def)
    case Undoing => |a.queue| + 1
    case Done(_) => 0
  }

  lemma OutsideBelowTop(def: Definition, order: seq<string>, forks: Forks, at: string)
    requires RunOrder(def, order) && at in order && Idle(forks)
    ensures Measure(def, order, forks, at) < Top(def, order)
  {
    hide RunOrder, Ids, Rank, Measure, Width;
    MeasureOutside(def, order, forks, at);
    RankBelow(def, order, at);
    var rank, size, width := Rank(order, at), |order|, Width(def, order);
    assert (rank + 1) * width <= size * width;
    assert rank * width + width == (rank + 1) * width;
  }

  lemma StartedFuel(def: Definition, order: seq<string>, a: Progress, to: string, forks: Forks)
    requires a.phase.Ready?
    requires a.phase.current.None? ==> Measure(def, order, forks, to) < Top(def, order)
    requires a.phase.current.Some? ==>
      Measure(def, order, forks, to) <= Measure(def, order, a.forks, a.phase.current.value)
    ensures Fuel(def, order, Started(a, to, forks)) < Fuel(def, order, a)
  {
    hide Measure, Top, UndoRoom;
  }

  lemma MovedFuel(def: Definition, order: seq<string>, a: Progress, at: string, outputNext: string, move: Move)
    requires a.phase == Active(at)
    requires move.step.Some? ==> Measure(def, order, move.forks, move.step.value.id) < Measure(def, order, a.forks, at)
    ensures Fuel(def, order, Moved(a, at, outputNext, move)) < Fuel(def, order, a)
  {
    hide Measure, Top, UndoRoom;
  }

  lemma StartDescends(def: Definition, order: seq<string>, a: Progress, pick: Pick)
    requires Tame(def) && Sound(def, a) && RunOrder(def, order) && Listed(order, a)
    requires Enabled(MachineOf(def), a, Start(pick)) && a.phase.current.Some?
    requires JoinsApart(def) || !TooEarly(def, a, Start(pick))
    ensures var move := Resolved(MachineOf(def), a, pick);
      && Measure(def, order, move.forks, move.step.value.id) <= Measure(def, order, a.forks, a.phase.current.value)
      && move.step.value.id in order && forall f :: f in move.forks ==> f in order
  {
    hide Tame, JoinsApart, JoinEntered, RunOrder, ForksOk, Measure, DoneOk;
    var at := a.phase.current.value;
    KnownIds(def, at);
    if at in a.done {
      SkipIsGood(def, a, pick);
      hide *;
      ListedFacts(order, a, at);
      GoodMoveDescends(def, order, a.forks, at, a.completed, Resolved(MachineOf(def), a, pick));
    }
  }

  lemma ListedFacts(order: seq<string>, a: Progress, at: string)
    requires Listed(order, a) && (a.phase == Active(at) || a.phase == Ready(Some(at)))
    ensures at in order && forall f :: f in a.forks ==> f in order
  {
  }

  /** The start leads to a listed step, with less to do. */
  lemma StartBurns(def: Definition, order: seq<string>, a: Progress, pick: Pick)
    requires Tame(def) && Sound(def, a) && RunOrder(def, order) && Listed(order, a)
    requires Enabled(MachineOf(def), a, Start(pick)) && (JoinsApart(def) || !TooEarly(def, a, Start(pick)))
    ensures var move := Resolved(MachineOf(def), a, pick);
      && Fuel(def, order, Started(a, move.step.value.id, move.forks)) < Fuel(def, order, a)
      && Listed(order, Started(a, move.step.value.id, move.forks))
  {
    var move := Resolved(MachineOf(def), a, pick);
    var to := move.step.value.id;
    if a.phase.current.None? {
      assert IsFirst(def, to);
      NoForksOk(def, to, a.completed);
      OutsideBelowTop(def, order, map[], to);
      assert move.forks == map[];
    } else {
      StartDescends(def, order, a, pick);
    }
    hide *;
    StartedFuel(def, order, a, to, move.forks);
    StartedListed(order, a, to, move.forks);
  }

  lemma StartedListed(order: seq<string>, a: Progress, to: string, forks: Forks)
    requires to in order && forall f :: f in forks ==> f in order
    ensures Listed(order, Started(a, to, forks))
  {
  }

  lemma MovedListed(order: seq<string>, a: Progress, at: string, outputNext: string, move: Move)
    requires move.step.Some? ==> move.step.value.id in order && forall f :: f in move.forks ==> f in order
    ensures Listed(order, Moved(a, at, outputNext, move))
  {
  }

  lemma FinishDescends(def: Definition, order: seq<string>, a: Progress, at: string, move: Move)
    requires Sound(def, a) && RunOrder(def, order) && Listed(order, a) && a.phase == Active(at) && move.step.Some?
    requires GoodMove(def, a.forks, at, AppendNew(a.completed, at), move)
    ensures Measure(def, order, move.forks, move.step.value.id) < Measure(def, order, a.forks, at)
    ensures move.step.value.id in order && forall f :: f in move.forks ==> f in order
  {
    hide RunOrder, ForksOk, Measure, GoodMove, DoneOk;
    ForksOkGrow(def, a.forks, at, a.completed, AppendNew(a.completed, at));
    GoodMoveDescends(def, order, a.forks, at, AppendNew(a.completed, at), move);
  }

  /** A finished step leads to a listed step, with less to do. */
  lemma FinishBurns(def: Definition, order: seq<string>, a: Progress, result: Result, pick: Pick)
    requires Tame(def) && Sound(def, a) && RunOrder(def, order) && Listed(order, a)
    requires Enabled(MachineOf(def), a, Finish(result, pick))
    requires JoinsApart(def) || !TooEarly(def, a, Finish(result, pick))
    ensures var step := StepById(def.steps, a.phase.step).value;
      var move := NextAfter(MachineOf(def), step, a.forks, result.next, pick);
      && Fuel(def, order, Moved(a, step.id, result.outputNext, move)) < Fuel(def, order, a)
      && Listed(order, Moved(a, step.id, result.outputNext, move))
  {
    var at := a.phase.step;
    var step := StepById(def.steps, at).value;
    var move := NextAfter(MachineOf(def), step, a.forks, result.next, pick);
    FinishIsGood(def, a, result, pick);
    hide *;
    if move.step.Some? {
      FinishDescends(def, order, a, at, move);
    }
    MovedFuel(def, order, a, at, result.outputNext, move);
    MovedListed(order, a, at, result.outputNext, move);
  }

  lemma OtherBurns(def: Definition, order: seq<string>, a: Progress, e: Event)
    requires Enabled(MachineOf(def), a, e) && !e.Start? && !e.Finish?
    ensures Fuel(def, order, Next(MachineOf(def), a, e)) < Fuel(def, order, a)
    ensures Listed(order, Next(MachineOf(def), a, e))
  {
    if e.GiveUp? {
      QueueIsBounded(def, a.phase.step, a.completed);
    }
    hide Measure, Top, Resolve, CompensationQueue, MarkBranchFailed, IsPick, CompensationRefs, NormalSteps;
  }

  /** Every event leaves less to do. */
  lemma EventBurns(def: Definition, order: seq<string>, a: Progress, e: Event)
    requires Tame(def) && Sound(def, a) && RunOrder(def, order) && Listed(order, a)
    requires Enabled(MachineOf(def), a, e) && (JoinsApart(def) || !TooEarly(def, a, e))
    ensures Fuel(def, order, Next(MachineOf(def), a, e)) < Fuel(def, order, a)
    ensures Listed(order, Next(MachineOf(def), a, e))
  {
    match e
    case Start(pick) =>
      StartBurns(def, order, a, pick);
      hide Tame, JoinsApart, RunOrder, Fuel, Sound, Listed, Resolved, CanResolve;
    case Finish(result, pick) =>
      FinishBurns(def, order, a, result, pick);
      hide Tame, JoinsApart, RunOrder, Fuel, Sound, Listed, NextAfter, CanPick, MayResult;
    case _ => OtherBurns(def, order, a, e);
  }

  lemma InitialListed(order: seq<string>)
    ensures Listed(order, INITIAL)
  {
  }

  lemma {:induction false} RunIsBounded(def: Definition, order: seq<string>, events: seq<Event>, a: Progress)
    requires Disciplined(def) && RunOrder(def, order) && Run(MachineOf(def), events, a)
    ensures |events| + Fuel(def, order, a) <= Fuel(def, order, INITIAL) && Listed(order, a)
    decreases |events|
  {
    hide Tame, JoinsApart, RunOrder, Enabled, Next, Fuel, Listed;
    if events == [] {
      InitialListed(order);
    } else {
      var b :| RunStep(MachineOf(def), events, b, a);
      RunIsBounded(def, order, events[..|events| - 1], b);
      RunIsSound(def, events[..|events| - 1], b);
      EventBurns(def, order, b, events[|events| - 1]);
    }
  }

  /** Unless a loop can be reached, one bound holds for the length of all runs, failing or not. */
  lemma EveryRunEnds(def: Definition) returns (bound: nat)
    requires Disciplined(def) && LoopFree(def)
    ensures forall events, a :: Run(MachineOf(def), events, a) ==> |events| <= bound
  {
    hide Tame, JoinsApart, LoopFree, RunGraph, Run, Fuel;
    var order := LoopFreeHasOrder(def);
    bound := Fuel(def, order, INITIAL);
    forall events, a | Run(MachineOf(def), events, a) ensures |events| <= bound {
      RunIsBounded(def, order, events, a);
    }
  }
}
