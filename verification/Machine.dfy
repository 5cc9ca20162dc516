/** The step interpreter of engine/machine.go: functions that say where it goes next, and the methods that update the
    runtime state in place, each proved to do what its function says. */
module Machines {
  import opened Workflow
  import opened Regions

  /** A Machine of the engine: the definition and the steps on its linear path. */
  datatype Machine = Machine(def: Definition, normal: seq<Step>)

  ghost predicate IsNormal(def: Definition, step: Step) {
    step.id !in CompensationRefs(def) && !IsBranchStep(def, step.id)
  }

  /** The normal steps among the first `n`. */
  ghost function NormalSteps(def: Definition, n: nat): seq<Step>
    requires n <= |def.steps|
  {
    if n == 0 then []
    else NormalSteps(def, n - 1) + if IsNormal(def, def.steps[n - 1]) then [def.steps[n - 1]] else []
  }

  ghost function MachineOf(def: Definition): Machine {
    Machine(def, NormalSteps(def, |def.steps|))
  }

  method CompensationRefsOf(def: Definition) returns (refs: set<string>)
    ensures refs == CompensationRefs(def)
  {
    refs := {};
    for i := 0 to |def.steps|
      invariant refs == set k | 0 <= k < i && def.steps[k].onFailure != "" :: def.steps[k].onFailure
    {
      if def.steps[i].onFailure != "" {
        refs := refs + {def.steps[i].onFailure};
      }
    }
  }

  method NewMachine(def: Definition) returns (m: Machine)
    ensures m == MachineOf(def)
  {
    hide IsBranchStep, CompensationRefs;
    var compensation := CompensationRefsOf(def);
    var branchSteps := CollectForkBranchStepsInEngine(def);
    var normal: seq<Step> := [];
    for i := 0 to |def.steps|
      invariant normal == NormalSteps(def, i)
    {
      var step := def.steps[i];
      if step.id in compensation {
        continue;
      }
      if step.id in branchSteps {
        continue;
      }
      normal := normal + [step];
    }
    return Machine(def, normal);
  }

  /** The part of a worker.Result the machine reads: `NextStepID` ("" for nil) and `Output["next_step"]`. */
  datatype Result = Result(next: string, outputNext: string)

  /** Where the machine goes: the forks it leaves behind, and the step, if any. */
  datatype Move = Move(forks: Forks, step: Option<Step>)

  /** The running branch branchForCurrentStep settles on. Go ranges over the map of forks in any order. */
  datatype Pick = NoBranch | InBranch(fork: string, index: nat)

  predicate AtStep(branch: BranchState, id: string) {
    branch.status.BranchRunning? && branch.current == id
  }

  predicate RunsStep(forks: Forks, f: string, i: int, id: string) {
    f in forks && forks[f].status.ForkRunning? && 0 <= i < |forks[f].branches| && AtStep(forks[f].branches[i], id)
  }

  ghost predicate IsPick(forks: Forks, id: string, pick: Pick) {
    match pick
    case NoBranch => forall f, i :: !RunsStep(forks, f, i, id)
    case InBranch(f, i) => RunsStep(forks, f, i, id) && forall j :: 0 <= j < i ==> !RunsStep(forks, f, j, id)
  }

  predicate ValidPick(forks: Forks, pick: Pick) {
    pick.InBranch? ==> pick.fork in forks && pick.index < |forks[pick.fork].branches|
  }

  /** Fork steps do not look for a branch. */
  ghost predicate CanPick(step: Step, forks: Forks, pick: Pick) {
    ValidPick(forks, pick) && if step.kind.Fork? then pick == NoBranch else IsPick(forks, step.id, pick)
  }

  function PendingBranch(head: string): BranchState {
    BranchState(head, head, Pending, [])
  }

  function PendingBranches(heads: seq<string>): seq<BranchState> {
    seq(|heads|, i requires 0 <= i < |heads| => PendingBranch(heads[i]))
  }

  function StartFork(def: Definition, step: Step, forks: Forks): Forks {
    if Heads(step) == [] || step.id in forks || JoinOf(def, step) == "" then forks
    else forks[step.id := ForkState(ForkRunning, JoinOf(def, step), PendingBranches(Heads(step)))]
  }

  predicate IsOpen(branch: BranchState) {
    branch.status.Pending? || branch.status.BranchRunning?
  }

  /** The first branch that is pending or running, or the number of branches. */
  function FirstOpen(branches: seq<BranchState>): (i: nat)
    ensures i <= |branches|
    ensures forall j :: 0 <= j < i ==> !IsOpen(branches[j])
    ensures i < |branches| ==> IsOpen(branches[i])
  {
    if branches == [] then 0 else if IsOpen(branches[0]) then 0 else 1 + FirstOpen(branches[1..])
  }

  function Resumed(branch: BranchState): BranchState {
    branch.(status := BranchRunning, current := if branch.current == "" then branch.start else branch.current)
  }

  /** Reading a fork that was never started yields the zero value. */
  function ForkAt(forks: Forks, f: string): ForkState {
    if f in forks then forks[f] else ForkState(ForkCompleted, "", [])
  }

  function NextForkStep(def: Definition, f: string, forks: Forks): Move {
    var fork := ForkAt(forks, f);
    var i := FirstOpen(fork.branches);
    if i < |fork.branches| then
      var branch := Resumed(fork.branches[i]);
      Move(forks[f := fork.(branches := fork.branches[i := branch])], StepById(def.steps, branch.current))
    else
      Move(forks[f := fork.(status := ForkCompleted)], StepById(def.steps, fork.join))
  }

  /** The reference a finished step names: that of its result, else `config.next`. */
  function NamedNext(step: Step, next: string): string {
    if next != "" then next else step.config.next
  }

  function NextAfterBranchStep(def: Definition, f: string, i: nat, step: Step, forks: Forks, next: string): Move
    requires f in forks && i < |forks[f].branches|
  {
    var fork := forks[f];
    var branch := fork.branches[i].(completed := AppendNew(fork.branches[i].completed, step.id));
    var nextId := NamedNext(step, next);
    if nextId != "" && nextId != fork.join then
      Move(forks[f := fork.(branches := fork.branches[i := branch.(current := nextId, status := BranchRunning)])],
           StepById(def.steps, nextId))
    else
      NextForkStep(def, f,
        forks[f := fork.(branches := fork.branches[i := branch.(current := "", status := BranchCompleted)])])
  }

  function JoinedFork(fork: ForkState, join: string): ForkState {
    if fork.join == join && fork.status.ForkCompleted? then fork.(status := ForkJoined) else fork
  }

  function MarkJoined(join: string, forks: Forks): Forks {
    map f | f in forks :: JoinedFork(forks[f], join)
  }

  /** The step after the first occurrence of `id` on the linear path that has a successor. */
  function NextNormal(normal: seq<Step>, id: string): Option<Step> {
    if |normal| < 2 then None
    else if normal[0].id == id then Some(normal[1])
    else NextNormal(normal[1..], id)
  }

  function NextOutsideFork(m: Machine, step: Step, next: string): Option<Step> {
    if NamedNext(step, next) != "" then StepById(m.def.steps, NamedNext(step, next))
    else if step.kind.Condition? then None
    else NextNormal(m.normal, step.id)
  }

  function NextAfter(m: Machine, step: Step, forks: Forks, next: string, pick: Pick): Move
    requires ValidPick(forks, pick)
  {
    if step.kind.Fork? then NextForkStep(m.def, step.id, StartFork(m.def, step, forks))
    else match pick
      case InBranch(f, i) => NextAfterBranchStep(m.def, f, i, step, forks, next)
      case NoBranch =>
        Move(if step.kind.Join? then MarkJoined(step.id, forks) else forks, NextOutsideFork(m, step, next))
  }

  /** The steps with status completed, each with the `next_step` its output names. */
  function DoneOf(steps: map<string, StepState>): map<string, string> {
    map id | id in steps && steps[id].status == StepCompleted :: steps[id].outputNext
  }

  /** StepForCurrent: the step a worker runs for a committed state. A completed current step is passed over, once. The
      source works on a copy of the state that shares the map of forks with the original unless that map is nil, so
      what it does to the forks shows in the original exactly when there are any. */
  function Resolve(m: Machine, done: map<string, string>, forks: Forks, current: Option<string>, pick: Pick): Move
    requires ValidPick(forks, pick)
  {
    match current
    case None => Move(forks, if m.normal == [] then None else Some(m.normal[0]))
    case Some(id) =>
      var step := StepById(m.def.steps, id);
      if step.None? then Move(forks, None)
      else if id !in done then Move(forks, step)
      else
        var move := NextAfter(m, step.value, forks, done[id], pick);
        if forks == map[] then move.(forks := forks) else move
  }

  /** The picks StepForCurrent may make. */
  ghost predicate CanResolve(m: Machine, done: map<string, string>, forks: Forks, current: Option<string>, pick: Pick) {
    if current.Some? && StepById(m.def.steps, current.value).Some? && current.value in done
    then CanPick(StepById(m.def.steps, current.value).value, forks, pick)
    else pick == NoBranch
  }

  function MarkBranchFailed(forks: Forks, pick: Pick): Forks
    requires ValidPick(forks, pick)
  {
    match pick
    case NoBranch => forks
    case InBranch(f, i) =>
      forks[f := forks[f].(status := ForkFailed,
                           branches := forks[f].branches[i := forks[f].branches[i].(status := BranchFailed)])]
  }

  /** The first branch of fork `f` that runs step `id`. */
  lemma FirstRunning(forks: Forks, f: string, i: nat, id: string) returns (k: nat)
    requires RunsStep(forks, f, i, id)
    ensures RunsStep(forks, f, k, id) && forall j :: 0 <= j < k ==> !RunsStep(forks, f, j, id)
  {
    hide RunsStep;
    if j :| 0 <= j < i && RunsStep(forks, f, j, id) {
      k := FirstRunning(forks, f, j, id);
    } else {
      k := i;
    }
  }

  lemma PickExists(forks: Forks, id: string) returns (pick: Pick)
    ensures ValidPick(forks, pick) && IsPick(forks, id, pick)
  {
    if f, i :| RunsStep(forks, f, i, id) {
      var k := FirstRunning(forks, f, i, id);
      pick := InBranch(f, k);
    } else {
      pick := NoBranch;
    }
  }

  lemma CanPickExists(step: Step, forks: Forks) returns (pick: Pick)
    ensures CanPick(step, forks, pick)
  {
    if step.kind.Fork? {
      pick := NoBranch;
    } else {
      pick := PickExists(forks, step.id);
    }
  }

  method BranchForCurrentStep(forks: Forks, id: string) returns (pick: Pick)
    ensures IsPick(forks, id, pick)
  {
    var rest := forks.Keys;
    while rest != {}
      invariant rest <= forks.Keys
      invariant forall f, i :: f !in rest ==> !RunsStep(forks, f, i, id)
    {
      var f :| f in rest;
      rest := rest - {f};
      var fork := forks[f];
      if !fork.status.ForkRunning? {
        continue;
      }
      for i := 0 to |fork.branches|
        invariant forall j :: 0 <= j < i ==> !RunsStep(forks, f, j, id)
      {
        if fork.branches[i].status.BranchRunning? && fork.branches[i].current == id {
          return InBranch(f, i);
        }
      }
    }
    pick := NoBranch;
  }

  method StartForkIn(m: Machine, step: Step, state: RuntimeState)
    modifies state`forks
    ensures state.forks == StartFork(m.def, step, old(state.forks))
  {
    if step.config.branches.None? || step.config.branches.value == [] {
      return;
    }
    if step.id in state.forks {
      return;
    }
    var join := step.config.join;
    if join == "" {
      join := FirstJoinAfter(m.def, step.id);
    }
    if join == "" {
      return;
    }
    var heads := step.config.branches.value;
    var branches: seq<BranchState> := [];
    for i := 0 to |heads|
      invariant |branches| == i && forall k :: 0 <= k < i ==> branches[k] == PendingBranch(heads[k])
    {
      branches := branches + [BranchState(heads[i], heads[i], Pending, [])];
    }
    assert branches == PendingBranches(heads);
    state.forks := state.forks[step.id := ForkState(ForkRunning, join, branches)];
  }

  lemma FirstOpenIs(branches: seq<BranchState>, i: nat)
    requires i <= |branches| && forall j :: 0 <= j < i ==> !IsOpen(branches[j])
    requires i < |branches| ==> IsOpen(branches[i])
    ensures FirstOpen(branches) == i
  {
  }

  method NextForkStepIn(m: Machine, f: string, state: RuntimeState) returns (step: Option<Step>)
    modifies state`forks
    ensures Move(state.forks, step) == NextForkStep(m.def, f, old(state.forks))
  {
    var fork := ForkAt(state.forks, f);
    for i := 0 to |fork.branches|
      invariant state.forks == old(state.forks) && fork == ForkAt(state.forks, f)
      invariant forall j :: 0 <= j < i ==> !IsOpen(fork.branches[j])
    {
      if fork.branches[i].status.Pending? || fork.branches[i].status.BranchRunning? {
        FirstOpenIs(fork.branches, i);
        var branch := fork.branches[i].(status := BranchRunning);
        if branch.current == "" {
          branch := branch.(current := branch.start);
        }
        fork := fork.(branches := fork.branches[i := branch]);
        state.forks := state.forks[f := fork];
        return StepById(m.def.steps, branch.current);
      }
    }
    FirstOpenIs(fork.branches, |fork.branches|);
    fork := fork.(status := ForkCompleted);
    state.forks := state.forks[f := fork];
    return StepById(m.def.steps, fork.join);
  }

  method NextAfterBranchStepIn(m: Machine, f: string, i: nat, step: Step, state: RuntimeState, next: string)
    returns (to: Option<Step>)
    requires f in state.forks && i < |state.forks[f].branches|
    modifies state`forks
    ensures Move(state.forks, to) == NextAfterBranchStep(m.def, f, i, step, old(state.forks), next)
  {
    var fork := state.forks[f];
    var branch := fork.branches[i];
    if step.id !in branch.completed {
      branch := branch.(completed := branch.completed + [step.id]);
    }
    var nextId := next;
    if nextId == "" {
      nextId := step.config.next;
    }
    if nextId != "" && nextId != fork.join {
      branch := branch.(current := nextId, status := BranchRunning);
      state.forks := state.forks[f := fork.(branches := fork.branches[i := branch])];
      return StepById(m.def.steps, nextId);
    }
    branch := branch.(current := "", status := BranchCompleted);
    state.forks := state.forks[f := fork.(branches := fork.branches[i := branch])];
    to := NextForkStepIn(m, f, state);
  }

  method MarkJoinedIn(join: string, state: RuntimeState)
    modifies state`forks
    ensures state.forks == MarkJoined(join, old(state.forks))
  {
    var rest := state.forks.Keys;
    while rest != {}
      invariant rest <= state.forks.Keys == old(state.forks).Keys
      invariant forall f :: f in rest ==> state.forks[f] == old(state.forks)[f]
      invariant forall f :: f in state.forks && f !in rest ==> state.forks[f] == JoinedFork(old(state.forks)[f], join)
    {
      var f :| f in rest;
      rest := rest - {f};
      var fork := state.forks[f];
      if fork.join != join || !fork.status.ForkCompleted? {
        continue;
      }
      state.forks := state.forks[f := fork.(status := ForkJoined)];
    }
  }

  lemma {:induction false} NextNormalSkips(normal: seq<Step>, i: nat, id: string)
    requires i <= |normal| && forall k :: 0 <= k < i && k + 1 < |normal| ==> normal[k].id != id
    ensures NextNormal(normal, id) == NextNormal(normal[i..], id)
  {
    if i == 0 {
      assert normal[0..] == normal;
    } else if |normal| >= 2 {
      assert forall k :: 0 <= k < i - 1 && k + 1 < |normal[1..]| ==> normal[1..][k].id == normal[k + 1].id;
      NextNormalSkips(normal[1..], i - 1, id);
      assert normal[1..][i - 1..] == normal[i..];
    }
  }

  method NextAfterIn(m: Machine, step: Step, state: RuntimeState, result: Option<Result>)
    returns (to: Option<Step>, ghost pick: Pick)
    modifies state`forks
    ensures CanPick(step, old(state.forks), pick)
    ensures Move(state.forks, to) ==
      NextAfter(m, step, old(state.forks), if result.Some? then result.value.next else "", pick)
  {
    var next := if result.Some? then result.value.next else "";
    pick := NoBranch;
    if step.kind.Fork? {
      StartForkIn(m, step, state);
      to := NextForkStepIn(m, step.id, state);
      return;
    }
    var found := BranchForCurrentStep(state.forks, step.id);
    pick := found;
    if found.InBranch? {
      to := NextAfterBranchStepIn(m, found.fork, found.index, step, state, next);
      return;
    }
    if step.kind.Join? {
      MarkJoinedIn(step.id, state);
    }
    if next != "" {
      return StepById(m.def.steps, next), pick;
    }
    if step.config.next != "" {
      return StepById(m.def.steps, step.config.next), pick;
    }
    if step.kind.Condition? {
      return None, pick;
    }
    for i := 0 to |m.normal|
      invariant forall k :: 0 <= k < i && k + 1 < |m.normal| ==> m.normal[k].id != step.id
    {
      if m.normal[i].id == step.id && i + 1 < |m.normal| {
        NextNormalSkips(m.normal, i, step.id);
        return Some(m.normal[i + 1]), pick;
      }
    }
    NextNormalSkips(m.normal, |m.normal|, step.id);
    to := None;
  }

  method StepForCurrentIn(m: Machine, state: RuntimeState, current: Option<string>)
    returns (to: Option<Step>, ghost pick: Pick)
    modifies state`forks
    ensures ValidPick(old(state.forks), pick)
    ensures CanResolve(m, DoneOf(state.steps), old(state.forks), current, pick)
    ensures Move(state.forks, to) == Resolve(m, DoneOf(state.steps), old(state.forks), current, pick)
  {
    pick := NoBranch;
    if current.Some? {
      var step := StepById(m.def.steps, current.value);
      if step.None? {
        return None, pick;
      }
      if current.value !in state.steps || state.steps[current.value].status != StepCompleted {
        return step, pick;
      }
      var outputNext := state.steps[current.value].outputNext;
      var result := if outputNext != "" then Some(Result(outputNext, "")) else None;
      var copy := new RuntimeState(state.Value());
      to, pick := NextAfterIn(m, step.value, copy, result);
      if state.forks != map[] {
        state.forks := copy.forks;
      }
      return;
    }
    if |m.normal| == 0 {
      return None, pick;
    }
    return Some(m.normal[0]), pick;
  }

  method MarkBranchFailedIn(state: RuntimeState, id: string) returns (ghost pick: Pick)
    modifies state`forks
    ensures IsPick(old(state.forks), id, pick)
    ensures ValidPick(old(state.forks), pick)
    ensures state.forks == MarkBranchFailed(old(state.forks), pick)
  {
    var found := BranchForCurrentStep(state.forks, id);
    pick := found;
    if found.NoBranch? {
      return;
    }
    var fork := state.forks[found.fork].(status := ForkFailed);
    var failed := fork.branches[found.index].(status := BranchFailed);
    state.forks := state.forks[found.fork := fork.(branches := fork.branches[found.index := failed])];
  }
}
