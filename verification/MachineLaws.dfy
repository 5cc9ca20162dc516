/** What the machine does, told by the steps of the definition, their fields and their places alone. */
module MachineLaws {
  import opened Workflow
  import opened Graph
  import opened Regions
  import opened Machines
  import opened Validator
  import opened Acceptance

  /** Step `k` is named in some `on_failure`. */
  predicate IsTarget(def: Definition, k: nat)
    requires k < |def.steps|
  {
    exists j :: 0 <= j < |def.steps| && def.steps[j].onFailure == def.steps[k].id != ""
  }

  /** The branch `h` of the fork at `k` holds `id`: a chain of steps leads from the head of the branch to it, each naming
      the one after as `next`, or as `then` or `else` if it is a condition, and none of them is the join. */
  ghost predicate HoldsStep(def: Definition, k: nat, h: nat, chain: seq<Step>, id: string)
    requires k < |def.steps|
  {
    var fork := def.steps[k];
    && fork.kind.Fork? && fork.config.branches.Some? && h < |fork.config.branches.value| && chain != []
    && chain[0].id == fork.config.branches.value[h] && chain[|chain| - 1].id == id
    && (forall i :: 0 <= i < |chain| ==> chain[i] in def.steps && chain[i].id != "" && chain[i].id != JoinOf(def, fork))
    && (forall i :: 0 <= i < |chain| - 1 ==> Names(chain[i], chain[i + 1].id))
  }

  predicate Names(step: Step, id: string) {
    step.config.next == id || (step.kind.Condition? && (step.config.thenRef == id || step.config.elseRef == id))
  }

  lemma NamesIsRef(step: Step, id: string)
    requires id != ""
    ensures Names(step, id) <==> id in BranchRefs(step)
  {
    if Names(step, id) {
      assert id in NonEmpty(step.config.next) || (step.kind.Condition? &&
        (id in NonEmpty(step.config.thenRef) || id in NonEmpty(step.config.elseRef)));
    }
  }

  /** The steps along a path of a region. */
  lemma {:induction false} PathIsChain(def: Definition, join: string, p: seq<string>) returns (chain: seq<Step>)
    requires Path(RegionGraph(def, join), p) && p[|p| - 1] in RegionGraph(def, join)
    ensures |chain| == |p|
    ensures forall i :: 0 <= i < |p| ==>
      chain[i] in def.steps && chain[i].id == p[i] && p[i] != "" && p[i] != join
    ensures forall i :: 0 <= i < |p| - 1 ==> Names(chain[i], chain[i + 1].id)
    decreases |p|
  {
    var g := RegionGraph(def, join);
    var first := p[0];
    if |p| == 1 {
      chain := [StepById(def.steps, first).value];
    } else {
      PathTail(g, p);
      var rest := PathIsChain(def, join, p[1..]);
      chain := [StepById(def.steps, first).value] + rest;
      assert p[1] in BranchRefs(chain[0]);
      NamesIsRef(chain[0], p[1]);
      forall i | 0 <= i < |p| - 1 ensures Names(chain[i], chain[i + 1].id) {
        if i > 0 {
          assert chain[i] == rest[i - 1] && chain[i + 1] == rest[i];
        }
      }
    }
  }

  /** And the other way round. */
  lemma ChainIsPath(def: Definition, join: string, chain: seq<Step>) returns (p: seq<string>)
    requires UniqueIds(def.steps) && chain != []
    requires forall i :: 0 <= i < |chain| ==> chain[i] in def.steps && chain[i].id != "" && chain[i].id != join
    requires forall i :: 0 <= i < |chain| - 1 ==> Names(chain[i], chain[i + 1].id)
    ensures Path(RegionGraph(def, join), p) && |p| == |chain| && p[0] == chain[0].id && p[|p| - 1] == chain[|chain| - 1].id
    ensures p[|p| - 1] in RegionGraph(def, join)
  {
    hide UniqueIds, RegionGraph, Names, BranchRefs;
    p := seq(|chain|, i requires 0 <= i < |chain| => chain[i].id);
    KnownStep(def, join, chain[|chain| - 1]);
    forall i | 0 <= i < |p| - 1 ensures p[i + 1] in Succ(RegionGraph(def, join), p[i]) {
      KnownStep(def, join, chain[i]);
      NamesIsRef(chain[i], chain[i + 1].id);
    }
  }

  lemma KnownStep(def: Definition, join: string, step: Step)
    requires UniqueIds(def.steps) && step in def.steps && step.id != "" && step.id != join
    ensures step.id in RegionGraph(def, join) && Succ(RegionGraph(def, join), step.id) == BranchRefs(step)
  {
    var i :| 0 <= i < |def.steps| && def.steps[i] == step;
    StepByIdUnique(def.steps, i);
    hide UniqueIds, BranchRefs, StepById;
    RegionGraphAt(def, join, step.id);
  }

  /** What a branch step is. */
  lemma BranchStepLaw(def: Definition, id: string)
    requires UniqueIds(def.steps)
    ensures IsBranchStep(def, id) <==> exists k: nat, h: nat, chain :: k < |def.steps| && HoldsStep(def, k, h, chain, id)
  {
    hide UniqueIds, RegionGraph, JoinOf, BranchRefs, Names;
    if IsBranchStep(def, id) {
      var k: nat :| k < |def.steps| && def.steps[k].kind.Fork? && InRegion(def, def.steps[k], id);
      var fork := def.steps[k];
      var h: nat :| h < |Heads(fork)| && InRegionOfHead(def, JoinOf(def, fork), Heads(fork)[h], id);
      var p :| PathFromTo(RegionGraph(def, JoinOf(def, fork)), p, Heads(fork)[h], id);
      var chain := PathIsChain(def, JoinOf(def, fork), p);
      assert HoldsStep(def, k, h, chain, id);
    }
    if k: nat, h: nat, chain :| k < |def.steps| && HoldsStep(def, k, h, chain, id) {
      var fork := def.steps[k];
      var p := ChainIsPath(def, JoinOf(def, fork), chain);
      assert PathFromTo(RegionGraph(def, JoinOf(def, fork)), p, Heads(fork)[h], id);
      assert InRegionOfHead(def, JoinOf(def, fork), Heads(fork)[h], id);
      assert InRegion(def, fork, id);
    }
  }

  ghost predicate HeldByBranch(def: Definition, id: string) {
    exists k: nat, h: nat, chain :: k < |def.steps| && HoldsStep(def, k, h, chain, id)
  }

  /** The linear path holds, in the order of the definition, exactly the steps that no `on_failure` names and no branch of a
      fork holds: `places` says where they stand. */
  lemma LinearPathLaw(def: Definition) returns (places: seq<nat>)
    requires UniqueIds(def.steps) && forall k :: 0 <= k < |def.steps| ==> def.steps[k].id != ""
    ensures |places| == |MachineOf(def).normal|
    ensures forall i :: 0 <= i < |places| ==> places[i] < |def.steps| && MachineOf(def).normal[i] == def.steps[places[i]]
    ensures forall i, j :: 0 <= i < j < |places| ==> places[i] < places[j]
    ensures forall k: nat :: k < |def.steps| ==>
      (k in places <==> !IsTarget(def, k) && !HeldByBranch(def, def.steps[k].id))
  {
    places := PlacesUpTo(def, |def.steps|);
    assert ArePlaces(def, |def.steps|, places, MachineOf(def).normal);
    forall k: nat | k < |def.steps|
      ensures IsNormal(def, def.steps[k]) <==> !IsTarget(def, k) && !HeldByBranch(def, def.steps[k].id)
    {
      NormalLaw(def, k);
    }
    hide IsNormal, IsTarget, HeldByBranch, UniqueIds;
  }

  lemma NormalLaw(def: Definition, k: nat)
    requires UniqueIds(def.steps) && k < |def.steps| && def.steps[k].id != ""
    ensures IsNormal(def, def.steps[k]) <==> !IsTarget(def, k) && !HeldByBranch(def, def.steps[k].id)
  {
    BranchStepLaw(def, def.steps[k].id);
    hide IsBranchStep, HoldsStep, UniqueIds;
  }

  /** `places` are those of the normal steps among the first `n`, which `normal` lists. */
  ghost predicate ArePlaces(def: Definition, n: nat, places: seq<nat>, normal: seq<Step>) {
    && n <= |def.steps| && |places| == |normal|
    && (forall i :: 0 <= i < |places| ==> places[i] < n && normal[i] == def.steps[places[i]])
    && (forall i, j :: 0 <= i < j < |places| ==> places[i] < places[j])
    && (forall k: nat :: k < n ==> (k in places <==> IsNormal(def, def.steps[k])))
  }

  lemma {:induction false} PlacesUpTo(def: Definition, n: nat) returns (places: seq<nat>)
    requires n <= |def.steps|
    ensures ArePlaces(def, n, places, NormalSteps(def, n))
  {
    hide IsNormal, ArePlaces;
    if n == 0 {
      places := [];
      NoPlaces(def);
    } else {
      places := PlacesUpTo(def, n - 1);
      if IsNormal(def, def.steps[n - 1]) {
        PlaceAdded(def, n, places, NormalSteps(def, n - 1));
        places := places + [n - 1];
      } else {
        PlaceSkipped(def, n, places, NormalSteps(def, n - 1));
      }
    }
  }

  lemma NoPlaces(def: Definition)
    ensures ArePlaces(def, 0, [], [])
  {
    hide IsNormal;
  }

  lemma PlaceSkipped(def: Definition, n: nat, places: seq<nat>, normal: seq<Step>)
    requires 0 < n <= |def.steps| && ArePlaces(def, n - 1, places, normal) && !IsNormal(def, def.steps[n - 1])
    ensures ArePlaces(def, n, places, normal + [])
  {
    hide IsNormal;
    assert n - 1 !in places;
  }

  lemma PlaceAdded(def: Definition, n: nat, places: seq<nat>, normal: seq<Step>)
    requires 0 < n <= |def.steps| && ArePlaces(def, n - 1, places, normal) && IsNormal(def, def.steps[n - 1])
    ensures ArePlaces(def, n, places + [n - 1], normal + [def.steps[n - 1]])
  {
    hide IsNormal;
    var more := places + [n - 1];
    assert more[|places|] == n - 1;
    assert forall k :: k in more <==> k in places || k == n - 1;
  }

  /** Which of two names counts: the first, unless it is empty. */
  predicate NamedAt(def: Definition, first: string, second: string, l: int) {
    0 <= l < |def.steps| && def.steps[l].id != "" &&
    (first == def.steps[l].id || (first == "" && second == def.steps[l].id))
  }

  /** Outside forks: a finished step goes to the step its result names, else to the one its `next` names; a condition that
      names none is the end; any other step goes on to the step listed after it on the linear path, the last one to the end. */
  lemma OutsideLaw(def: Definition, step: Step, forks: Forks, next: string)
    requires UniqueIds(def.steps) && !step.kind.Fork?
    ensures var to := NextAfter(MachineOf(def), step, forks, next, NoBranch).step;
      var normal := MachineOf(def).normal;
      && (forall l :: NamedAt(def, next, step.config.next, l) ==> to == Some(def.steps[l]))
      && (next == "" && step.config.next == "" && step.kind.Condition? ==> to.None?)
      && (next == "" && step.config.next == "" && !step.kind.Condition? ==>
            (forall i :: 0 <= i < |normal| - 1 && normal[i].id == step.id ==> to == Some(normal[i + 1])) &&
            ((forall i :: 0 <= i < |normal| - 1 ==> normal[i].id != step.id) ==> to.None?))
  {
    var normal := MachineOf(def).normal;
    NormalStepsUnique(def, |def.steps|);
    forall l | NamedAt(def, next, step.config.next, l)
      ensures NextAfter(MachineOf(def), step, forks, next, NoBranch).step == Some(def.steps[l])
    {
      StepByIdUnique(def.steps, l);
    }
    forall i | 0 <= i < |normal| - 1 && normal[i].id == step.id ensures NextNormal(normal, step.id) == Some(normal[i + 1]) {
      NextNormalIs(normal, i);
    }
    if forall i :: 0 <= i < |normal| - 1 ==> normal[i].id != step.id {
      NextNormalSkips(normal, |normal|, step.id);
      assert normal[|normal|..] == [];
    }
    hide StepById, NextNormal, NormalSteps, UniqueIds, MarkJoined;
  }

  /** And it leaves the forks alone, but for a join: the forks that are completed and wait at it are joined. */
  lemma JoinLaw(m: Machine, step: Step, forks: Forks, next: string, f: string)
    requires !step.kind.Fork?
    ensures var after := NextAfter(m, step, forks, next, NoBranch).forks;
      && after.Keys == forks.Keys
      && (f in forks ==>
            after[f].branches == forks[f].branches && after[f].join == forks[f].join &&
            if step.kind.Join? && forks[f].join == step.id && forks[f].status.ForkCompleted? then after[f].status.ForkJoined?
            else after[f].status == forks[f].status)
  {
    hide NextOutsideFork;
  }

  /** A fork not seen before: all its branches stand at their heads, the first one runs and its head is next, the others are
      pending; other forks are left alone. */
  lemma ForkLaw(def: Definition, k: nat, forks: Forks, next: string)
    requires UniqueIds(def.steps) && k < |def.steps| && def.steps[k].kind.Fork? && def.steps[k].id !in forks
    requires JoinOf(def, def.steps[k]) != ""
    requires def.steps[k].config.branches.Some? && def.steps[k].config.branches.value != []
    requires def.steps[k].config.branches.value[0] != ""
    ensures var fork := def.steps[k];
      var heads := fork.config.branches.value;
      var move := NextAfter(MachineOf(def), fork, forks, next, NoBranch);
      && move.forks.Keys == forks.Keys + {fork.id} && (forall f :: f in forks ==> move.forks[f] == forks[f])
      && move.forks[fork.id].status.ForkRunning? && move.forks[fork.id].join == JoinOf(def, fork)
      && |move.forks[fork.id].branches| == |heads|
      && (forall i :: 0 <= i < |heads| ==>
            move.forks[fork.id].branches[i] == BranchState(heads[i], heads[i], if i == 0 then BranchRunning else Pending, []))
      && (forall l :: 0 <= l < |def.steps| && def.steps[l].id == heads[0] ==> move.step == Some(def.steps[l]))
  {
    var fork := def.steps[k];
    var heads := fork.config.branches.value;
    forall l | 0 <= l < |def.steps| && def.steps[l].id == heads[0] ensures StepById(def.steps, heads[0]) == Some(def.steps[l]) {
      StepByIdUnique(def.steps, l);
    }
    FirstOpenIs(PendingBranches(heads), 0);
    hide JoinOf, StepById, NormalSteps, FirstOpen, UniqueIds;
  }

  /** The first branch that still has something to do. */
  predicate IsFirstOpen(branches: seq<BranchState>, i: int) {
    && 0 <= i < |branches| && (branches[i].status == Pending || branches[i].status == BranchRunning)
    && forall j :: 0 <= j < i ==> branches[j].status == BranchCompleted || branches[j].status == BranchFailed
  }

  /** A fork seen before is not started again: its first open branch runs on where it stood; if there is none, it is completed
      and its join is next. */
  lemma ForkAgainLaw(m: Machine, step: Step, forks: Forks, next: string)
    requires step.kind.Fork? && step.id in forks
    ensures var was := forks[step.id];
      var move := NextAfter(m, step, forks, next, NoBranch);
      && move.forks.Keys == forks.Keys && (forall f :: f in forks && f != step.id ==> move.forks[f] == forks[f])
      && move.forks[step.id].join == was.join && |move.forks[step.id].branches| == |was.branches|
      && (forall i :: IsFirstOpen(was.branches, i) ==>
            var at := if was.branches[i].current == "" then was.branches[i].start else was.branches[i].current;
            && move.step == StepById(m.def.steps, at) && move.forks[step.id].status == was.status
            && move.forks[step.id].branches[i] == was.branches[i].(status := BranchRunning, current := at)
            && forall j :: 0 <= j < |was.branches| && j != i ==> move.forks[step.id].branches[j] == was.branches[j])
      && ((forall i :: !IsFirstOpen(was.branches, i)) ==>
            move.step == StepById(m.def.steps, was.join) && move.forks[step.id] == was.(status := ForkCompleted))
  {
    var branches := forks[step.id].branches;
    forall i | IsFirstOpen(branches, i) ensures FirstOpen(branches) == i {
      FirstOpenIs(branches, i);
    }
    if forall i :: !IsFirstOpen(branches, i) {
      assert !IsFirstOpen(branches, FirstOpen(branches));
    }
    hide StepById, FirstOpen;
  }

  /** A fork without branches or without a join leads nowhere. */
  lemma NoForkLaw(def: Definition, step: Step, forks: Forks, next: string)
    requires step.kind.Fork? && step.id !in forks && forall i :: 0 <= i < |def.steps| ==> def.steps[i].id != ""
    requires step.config.branches.None? || step.config.branches.value == [] || JoinOf(def, step) == ""
    ensures NextAfter(MachineOf(def), step, forks, next, NoBranch).step.None?
  {
    hide JoinOf, NormalSteps;
  }

  /** Where a finished step runs: a fork is not looked for; any other step runs in a running branch of a running fork that
      stands at it, if there is one. */
  lemma PickLaw(step: Step, forks: Forks, pick: Pick)
    requires CanPick(step, forks, pick)
    ensures step.kind.Fork? ==> pick.NoBranch?
    ensures pick.InBranch? ==> StandsAt(forks, pick.fork, pick.index, step.id)
    ensures pick.NoBranch? && !step.kind.Fork? ==> forall f, i :: !StandsAt(forks, f, i, step.id)
  {
    assert forall f, i :: StandsAt(forks, f, i, step.id) <==> RunsStep(forks, f, i, step.id);
  }

  /** Branch `i` of fork `f` runs, and so does the fork; the branch stands at `id`. */
  predicate StandsAt(forks: Forks, f: string, i: int, id: string) {
    f in forks && forks[f].status == ForkRunning && 0 <= i < |forks[f].branches| &&
    forks[f].branches[i].status == BranchRunning && forks[f].branches[i].current == id
  }

  /** What a step finished in branch `i` of fork `f` leaves alone: other forks, the branches before, and of the fork its join.
      The branch has completed the step, once. It stands at the step named next, unless none is named or the join is; then
      it is completed. */
  lemma BranchLaw(m: Machine, step: Step, forks: Forks, next: string, f: string, i: nat)
    requires !step.kind.Fork? && f in forks && i < |forks[f].branches|
    ensures var name := if next != "" then next else step.config.next;
      var before := forks[f].branches[i];
      var after := NextAfter(m, step, forks, next, InBranch(f, i)).forks;
      && after.Keys == forks.Keys && (forall g :: g in forks && g != f ==> after[g] == forks[g])
      && after[f].join == forks[f].join && |after[f].branches| == |forks[f].branches|
      && after[f].branches[i].start == before.start
      && after[f].branches[i].completed ==
           (if step.id in before.completed then before.completed else before.completed + [step.id])
      && (if name == "" || name == forks[f].join then after[f].branches[i].status.BranchCompleted?
          else after[f].branches[i].status.BranchRunning? && after[f].branches[i].current == name)
  {
    hide StepById, FirstOpen;
  }

  /** Within the branch the named step is next, and nothing else of the fork changes. */
  lemma BranchGoesOnLaw(def: Definition, step: Step, forks: Forks, next: string, f: string, i: nat, l: nat)
    requires UniqueIds(def.steps) && !step.kind.Fork? && f in forks && i < |forks[f].branches| && l < |def.steps|
    requires NamedAt(def, next, step.config.next, l) && def.steps[l].id != forks[f].join
    ensures var move := NextAfter(MachineOf(def), step, forks, next, InBranch(f, i));
      && move.step == Some(def.steps[l]) && move.forks[f].status == forks[f].status
      && forall j :: 0 <= j < |forks[f].branches| && j != i ==> move.forks[f].branches[j] == forks[f].branches[j]
  {
    StepByIdUnique(def.steps, l);
    hide StepById, NormalSteps, UniqueIds, NextForkStep;
  }

  /** Branch `i + 1` runs now, where it stood; but for branch `i` nothing else has changed. */
  predicate Switched(before: ForkState, after: ForkState, i: nat) {
    && after.status == before.status && |after.branches| == |before.branches| && i + 1 < |before.branches|
    && after.branches[i + 1] == before.branches[i + 1].(status := BranchRunning)
    && forall j :: 0 <= j < |before.branches| && j != i && j != i + 1 ==> after.branches[j] == before.branches[j]
  }

  /** The fork is completed; but for branch `i` nothing else has changed. */
  predicate Closed(before: ForkState, after: ForkState, i: nat) {
    && after.status.ForkCompleted? && |after.branches| == |before.branches|
    && forall j :: 0 <= j < |before.branches| && j != i ==> after.branches[j] == before.branches[j]
  }

  /** At the end of a branch the next pending one starts at its head. */
  lemma BranchSwitchLaw(def: Definition, step: Step, forks: Forks, next: string, f: string, i: nat, l: nat)
    requires UniqueIds(def.steps) && !step.kind.Fork? && f in forks && i + 1 < |forks[f].branches| && l < |def.steps|
    requires var name := if next != "" then next else step.config.next; name == "" || name == forks[f].join
    requires forall j :: 0 <= j < i ==> forks[f].branches[j].status.BranchCompleted?
    requires forks[f].branches[i + 1].status.Pending? && forks[f].branches[i + 1].current == def.steps[l].id != ""
    ensures var move := NextAfter(MachineOf(def), step, forks, next, InBranch(f, i));
      move.step == Some(def.steps[l]) && f in move.forks && Switched(forks[f], move.forks[f], i)
  {
    StepByIdUnique(def.steps, l);
    FirstOpenIs(EndedBranches(forks[f].branches, i, step.id), i + 1);
    hide StepById, NormalSteps, UniqueIds, FirstOpen;
  }

  /** After the last branch the fork is completed, and its join is next. */
  lemma BranchLastLaw(def: Definition, step: Step, forks: Forks, next: string, f: string, i: nat, l: nat)
    requires UniqueIds(def.steps) && !step.kind.Fork? && f in forks && i + 1 == |forks[f].branches| && l < |def.steps|
    requires var name := if next != "" then next else step.config.next; name == "" || name == forks[f].join
    requires forall j :: 0 <= j < i ==> forks[f].branches[j].status.BranchCompleted?
    requires forks[f].join == def.steps[l].id
    ensures var move := NextAfter(MachineOf(def), step, forks, next, InBranch(f, i));
      move.step == Some(def.steps[l]) && f in move.forks && Closed(forks[f], move.forks[f], i)
  {
    StepByIdUnique(def.steps, l);
    FirstOpenIs(EndedBranches(forks[f].branches, i, step.id), i + 1);
    hide StepById, NormalSteps, UniqueIds, FirstOpen;
  }

  /** The branches when branch `i` has ended. */
  function EndedBranches(branches: seq<BranchState>, i: nat, id: string): seq<BranchState>
    requires i < |branches|
  {
    branches[i := branches[i].(completed := AppendNew(branches[i].completed, id), current := "", status := BranchCompleted)]
  }

  /** A committed current step: it is run as it is, unless it is completed; then the machine goes on from it, with the name
      in its output; what that does to the forks shows only if there are any. Without a current step it is the first of the
      linear path. */
  lemma CurrentLaw(m: Machine, steps: map<string, StepState>, forks: Forks, current: Option<string>, pick: Pick)
    requires ValidPick(forks, pick)
    ensures var move := Resolve(m, DoneOf(steps), forks, current, pick);
      && (current.None? ==> move.forks == forks && if m.normal == [] then move.step.None? else move.step == Some(m.normal[0]))
      && (current.Some? && StepById(m.def.steps, current.value).None? ==> move.step.None?)
      && (current.Some? && StepById(m.def.steps, current.value).Some? ==>
            var step := StepById(m.def.steps, current.value).value;
            if current.value in steps && steps[current.value].status == StepCompleted then
              var on := NextAfter(m, step, forks, steps[current.value].outputNext, pick);
              move.step == on.step && move.forks == if forks == map[] then map[] else on.forks
            else move == Move(forks, Some(step)))
  {
    hide StepById, NextAfter;
  }
}
