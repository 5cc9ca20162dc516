/** Which steps belong to fork branches. The engine (engine/machine.go) and the validator (dsl/validator.go) each
    collect them with a recursive walk of their own; both are proved to compute the same reachable set. */
module Regions {
  import opened Workflow
  import opened Graph

  function NonEmpty(id: string): seq<string> {
    if id == "" then [] else [id]
  }

  /** The references a branch is followed through: `next`, and `then`/`else` of a condition. */
  function BranchRefs(step: Step): seq<string> {
    NonEmpty(step.config.next) +
    if step.kind.Condition? then NonEmpty(step.config.thenRef) + NonEmpty(step.config.elseRef) else []
  }

  /** The first join listed after the given step; "" when there is none. */
  function FirstJoin(steps: seq<Step>, id: string, found: bool): string {
    if steps == [] then ""
    else if steps[0].id == id then FirstJoin(steps[1..], id, true)
    else if found && steps[0].kind.Join? then steps[0].id
    else FirstJoin(steps[1..], id, found)
  }

  /** Step `l` is a join, and no step between `k` and it is one. */
  predicate IsNextJoin(steps: seq<Step>, k: int, l: int) {
    0 <= k < l < |steps| && steps[l].kind.Join? && forall j :: k < j < l ==> !steps[j].kind.Join?
  }

  /** Behind the step, the first join counts; another step of the same id is no join of it. */
  lemma {:induction false} FirstJoinFound(steps: seq<Step>, id: string, l: nat)
    requires l < |steps| && steps[l].kind.Join? && forall j :: 0 <= j < l ==> !steps[j].kind.Join?
    requires forall j :: 0 <= j < |steps| ==> steps[j].id != id
    ensures FirstJoin(steps, id, true) == steps[l].id
  {
    if l > 0 {
      assert forall j :: 0 <= j < |steps| - 1 ==> steps[1..][j] == steps[j + 1];
      FirstJoinFound(steps[1..], id, l - 1);
    }
  }

  lemma {:induction false} NoJoinFound(steps: seq<Step>, id: string, found: bool)
    requires found ==> forall j :: 0 <= j < |steps| ==> !steps[j].kind.Join?
    requires !found ==> forall j :: 0 <= j < |steps| ==> steps[j].id != id
    ensures FirstJoin(steps, id, found) == ""
  {
    if steps != [] {
      assert forall j :: 0 <= j < |steps| - 1 ==> steps[1..][j] == steps[j + 1];
      NoJoinFound(steps[1..], id, found);
    }
  }

  /** The default join of the step at `k`: the next step of that kind, if there is one. */
  lemma {:induction false} FirstJoinLaw(steps: seq<Step>, k: nat)
    requires UniqueIds(steps) && k < |steps|
    ensures forall l :: IsNextJoin(steps, k, l) ==> FirstJoin(steps, steps[k].id, false) == steps[l].id
    ensures (forall l :: k < l < |steps| ==> !steps[l].kind.Join?) ==> FirstJoin(steps, steps[k].id, false) == ""
  {
    var id, rest := steps[k].id, steps[1..];
    assert forall j :: 0 <= j < |rest| ==> rest[j] == steps[j + 1];
    if k > 0 {
      FirstJoinLaw(rest, k - 1);
      forall l | IsNextJoin(steps, k, l) ensures FirstJoin(steps, id, false) == steps[l].id {
        assert IsNextJoin(rest, k - 1, l - 1);
      }
    } else {
      forall l | IsNextJoin(steps, k, l) ensures FirstJoin(steps, id, false) == steps[l].id {
        FirstJoinFound(rest, id, l - 1);
      }
      if forall l :: k < l < |steps| ==> !steps[l].kind.Join? {
        NoJoinFound(rest, id, true);
      }
    }
  }

  /** The join of the fork at `k`: the one it names, else the next join step of the definition, else none. */
  lemma JoinOfLaw(def: Definition, k: nat)
    requires UniqueIds(def.steps) && k < |def.steps|
    ensures def.steps[k].config.join != "" ==> JoinOf(def, def.steps[k]) == def.steps[k].config.join
    ensures def.steps[k].config.join == "" ==>
      forall l :: IsNextJoin(def.steps, k, l) ==> JoinOf(def, def.steps[k]) == def.steps[l].id
    ensures def.steps[k].config.join == "" ==>
      ((exists l :: IsNextJoin(def.steps, k, l)) || JoinOf(def, def.steps[k]) == "")
  {
    FirstJoinLaw(def.steps, k);
    if def.steps[k].config.join == "" && !exists l :: IsNextJoin(def.steps, k, l) {
      if l :| k < l < |def.steps| && def.steps[l].kind.Join? {
        var first := EarliestJoin(def.steps, k, l);
      }
    }
  }

  lemma {:induction false} EarliestJoin(steps: seq<Step>, k: nat, l: nat) returns (first: nat)
    requires k < l < |steps| && steps[l].kind.Join?
    ensures IsNextJoin(steps, k, first)
    decreases l
  {
    if j :| k < j < l && steps[j].kind.Join? {
      first := EarliestJoin(steps, k, j);
    } else {
      first := l;
    }
  }

  method FirstJoinAfter(def: Definition, id: string) returns (join: string)
    ensures join == FirstJoin(def.steps, id, false)
  {
    var found := false;
    for i := 0 to |def.steps|
      invariant FirstJoin(def.steps, id, false) == FirstJoin(def.steps[i..], id, found)
    {
      var step := def.steps[i];
      assert def.steps[i..][0] == step && def.steps[i..][1..] == def.steps[i + 1..];
      if step.id == id {
        found := true;
      } else if found && step.kind.Join? {
        return step.id;
      }
    }
    join := "";
  }

  function JoinOf(def: Definition, fork: Step): string {
    if fork.config.join != "" then fork.config.join else FirstJoin(def.steps, fork.id, false)
  }

  function Heads(fork: Step): seq<string> {
    if fork.config.branches.Some? then fork.config.branches.value else []
  }

  /** The known steps other than `join`, each with the references a branch follows. */
  function RegionGraph(def: Definition, join: string): Graph {
    map id | id in Ids(def) && id != "" && id != join ::
      var step := StepById(def.steps, id);
      if step.Some? then BranchRefs(step.value) else []
  }

  lemma RegionGraphAt(def: Definition, join: string, id: string)
    requires Enterable(join, id)
    ensures StepById(def.steps, id).None? ==> id !in RegionGraph(def, join) && Succ(RegionGraph(def, join), id) == []
    ensures StepById(def.steps, id).Some? ==>
      id in Ids(def) && id in RegionGraph(def, join) &&
      Succ(RegionGraph(def, join), id) == BranchRefs(StepById(def.steps, id).value)
  {
  }

  ghost predicate InRegionOfHead(def: Definition, join: string, head: string, id: string) {
    id in RegionGraph(def, join) && Reaches(RegionGraph(def, join), head, id)
  }

  /** Reachable from one of the first `n` heads without entering the join. */
  ghost predicate InRegionOf(def: Definition, join: string, heads: seq<string>, n: nat, id: string)
    requires n <= |heads|
  {
    exists i :: 0 <= i < n && InRegionOfHead(def, join, heads[i], id)
  }

  ghost predicate InRegion(def: Definition, fork: Step, id: string) {
    InRegionOf(def, JoinOf(def, fork), Heads(fork), |Heads(fork)|, id)
  }

  /** In the region of one of the forks among the first `n` steps. */
  ghost predicate InSomeRegion(def: Definition, n: nat, id: string)
    requires n <= |def.steps|
  {
    exists k :: 0 <= k < n && def.steps[k].kind.Fork? && InRegion(def, def.steps[k], id)
  }

  ghost predicate IsBranchStep(def: Definition, id: string) {
    InSomeRegion(def, |def.steps|, id)
  }

  datatype Sets = Sets(seen: set<string>, out: set<string>)

  predicate Enterable(join: string, id: string) {
    id != "" && id != join
  }

  /** Every successor of a node added since `before` is in `seen`. */
  predicate ClosedSince(g: Graph, join: string, before: set<string>, seen: set<string>) {
    forall a, b :: a in seen - before && b in Succ(g, a) && Enterable(join, b) ==> b in seen
  }

  lemma {:induction false} ClosedHoldsPath(g: Graph, join: string, seen: set<string>, p: seq<string>)
    requires ClosedSince(g, join, {}, seen) && Path(g, p) && p[0] in seen
    requires forall a :: a in g ==> Enterable(join, a)
    requires p[|p| - 1] in g
    ensures p[|p| - 1] in seen
    decreases |p|
  {
    if |p| > 1 {
      var q := p[1..];
      assert forall i :: 0 <= i < |q| - 1 ==> q[i + 1] in Succ(g, q[i]);
      assert p[0 + 1] in Succ(g, p[0]);
      assert p[1] in g by {
        if |p| > 2 {
          assert p[1 + 1] in Succ(g, p[1]);
        }
      }
      ClosedHoldsPath(g, join, seen, q);
    }
  }

  /** A closed set that holds the head and nothing unreachable is the reachable set. */
  lemma ClosedIsReachable(g: Graph, join: string, head: string, seen: set<string>)
    requires forall a :: a in g ==> Enterable(join, a)
    requires ClosedSince(g, join, {}, seen)
    requires Enterable(join, head) ==> head in seen
    requires forall a :: a in seen ==> Reaches(g, head, a)
    ensures forall a :: a in g ==> (a in seen <==> Reaches(g, head, a))
  {
    forall a | a in g && Reaches(g, head, a) ensures a in seen {
      var p :| PathFromTo(g, p, head, a);
      if |p| > 1 {
        assert p[0 + 1] in Succ(g, p[0]);
      }
      ClosedHoldsPath(g, join, seen, p);
    }
  }

  /** What a walk from `id` makes of the sets: all it adds to `seen` is reachable, it leaves nothing open, and `out`
      gains the known part of that. */
  ghost predicate Walked(g: Graph, join: string, id: string, before: Sets, after: Sets) {
    && before.seen <= after.seen
    && (Enterable(join, id) ==> id in after.seen)
    && (forall a :: a in after.seen - before.seen ==> Reaches(g, id, a))
    && ClosedSince(g, join, before.seen, after.seen)
    && after.out == before.out + ((after.seen - before.seen) * g.Keys)
  }

  /** A walk in progress: `id` has been entered and the references in `done` have been followed. */
  ghost predicate Walking(g: Graph, join: string, id: string, done: seq<string>, before: Sets, now: Sets) {
    && before.seen + {id} <= now.seen
    && (forall a :: a in now.seen - before.seen ==> Reaches(g, id, a))
    && ClosedSince(g, join, before.seen + {id}, now.seen)
    && (forall b :: b in done && Enterable(join, b) ==> b in now.seen)
    && now.out == before.out + ((now.seen - before.seen) * g.Keys)
  }

  lemma WalkSkip(g: Graph, join: string, id: string, s: Sets)
    requires Enterable(join, id) ==> id in s.seen
    ensures Walked(g, join, id, s, s)
  {
  }

  lemma WalkUnknown(g: Graph, join: string, id: string, s: Sets)
    requires id !in s.seen && id !in g
    ensures Walked(g, join, id, s, Sets(s.seen + {id}, s.out))
  {
    ReachesSelf(g, id);
  }

  lemma WalkStart(g: Graph, join: string, id: string, s: Sets)
    requires id !in s.seen && id in g
    ensures Walking(g, join, id, [], s, Sets(s.seen + {id}, s.out + {id}))
  {
    ReachesSelf(g, id);
  }

  lemma WalkOn(g: Graph, join: string, id: string, done: seq<string>, ref: string, before: Sets, mid: Sets, after: Sets)
    requires ref in Succ(g, id)
    requires Walking(g, join, id, done, before, mid) && Walked(g, join, ref, mid, after)
    ensures Walking(g, join, id, done + [ref], before, after)
  {
    forall a | a in after.seen - mid.seen ensures Reaches(g, id, a) {
      ReachesSelf(g, id);
      ReachesStep(g, id, id, ref);
      ReachesTrans(g, id, ref, a);
    }
  }

  lemma WalkEnd(g: Graph, join: string, id: string, done: seq<string>, before: Sets, after: Sets)
    requires Walking(g, join, id, done, before, after)
    requires forall b :: b in Succ(g, id) ==> b in done
    ensures Walked(g, join, id, before, after)
  {
  }

  lemma WalkOnNext(g: Graph, join: string, id: string, refs: seq<string>, i: nat, before: Sets, mid: Sets, after: Sets)
    requires i < |refs| && Succ(g, id) == refs
    requires Walking(g, join, id, refs[..i], before, mid) && Walked(g, join, refs[i], mid, after)
    ensures Walking(g, join, id, refs[..i + 1], before, after)
  {
    hide Walking, Walked;
    WalkOn(g, join, id, refs[..i], refs[i], before, mid, after);
    assert refs[..i + 1] == refs[..i] + [refs[i]];
  }

  lemma WalkEndAll(g: Graph, join: string, id: string, refs: seq<string>, before: Sets, after: Sets)
    requires Succ(g, id) == refs && Walking(g, join, id, refs[..|refs|], before, after)
    ensures Walked(g, join, id, before, after)
  {
    assert refs[..|refs|] == refs;
    WalkEnd(g, join, id, refs, before, after);
  }

  /** The two Go sets a walk fills, shared by every level of its recursion. */
  class Collector {
    var seen: set<string>
    var out: set<string>

    function Value(): Sets
      reads this
    {
      Sets(seen, out)
    }

    constructor ()
      ensures Value() == Sets({}, {})
    {
      seen, out := {}, {};
    }

    /** collectBranchStep of the engine: one loop over the references of the step. */
    method CollectInEngine(def: Definition, id: string, join: string)
      modifies this
      decreases Ids(def) - seen
      ensures old(seen) <= seen
      ensures Walked(RegionGraph(def, join), join, id, old(Value()), Value())
    {
      ghost var g := RegionGraph(def, join);
      if id == "" || id == join {
        WalkSkip(g, join, id, Value());
        return;
      }
      if id in seen {
        WalkSkip(g, join, id, Value());
        return;
      }
      RegionGraphAt(def, join, id);
      ghost var before := Value();
      hide Walked, Walking, RegionGraph, BranchRefs;
      seen := seen + {id};
      var step := StepById(def.steps, id);
      if step.None? {
        WalkUnknown(g, join, id, before);
        return;
      }
      WalkStart(g, join, id, before);
      out := out + {id};
      var refs := BranchRefs(step.value);
      for i := 0 to |refs|
        invariant before.seen + {id} <= seen
        invariant Walking(g, join, id, refs[..i], before, Value())
      {
        ghost var mid := Value();
        CollectInEngine(def, refs[i], join);
        WalkOnNext(g, join, id, refs, i, before, mid, Value());
      }
      WalkEndAll(g, join, id, refs, before, Value());
    }
  
    /** collectBranchStep of the validator: the references are tried one by one. */
    method CollectInValidator(def: Definition, id: string, join: string)
      modifies this
      decreases Ids(def) - seen
      ensures old(seen) <= seen
      ensures Walked(RegionGraph(def, join), join, id, old(Value()), Value())
    {
      ghost var g := RegionGraph(def, join);
      if id == "" || id == join {
        WalkSkip(g, join, id, Value());
        return;
      }
      if id in seen {
        WalkSkip(g, join, id, Value());
        return;
      }
      RegionGraphAt(def, join, id);
      ghost var before := Value();
      hide Walked, Walking, RegionGraph;
      seen := seen + {id};
      var step := StepById(def.steps, id);
      if step.None? {
        WalkUnknown(g, join, id, before);
        return;
      }
      WalkStart(g, join, id, before);
      out := out + {id};
      var config := step.value.config;
      ghost var done: seq<string> := [];
      if config.next != "" {
        ghost var mid := Value();
        CollectInValidator(def, config.next, join);
        WalkOn(g, join, id, done, config.next, before, mid, Value());
        done := done + [config.next];
      }
      if step.value.kind.Condition? {
        if config.thenRef != "" {
          ghost var mid := Value();
          CollectInValidator(def, config.thenRef, join);
          WalkOn(g, join, id, done, config.thenRef, before, mid, Value());
          done := done + [config.thenRef];
        }
        if config.elseRef != "" {
          ghost var mid := Value();
          CollectInValidator(def, config.elseRef, join);
          WalkOn(g, join, id, done, config.elseRef, before, mid, Value());
          done := done + [config.elseRef];
        }
      }
      WalkEnd(g, join, id, done, before, Value());
    }
  }

  /** The sets while the heads of fork number `k` are being walked. */
  ghost predicate Gathered(def: Definition, k: nat, join: string, heads: seq<string>, n: nat, out: set<string>)
    requires k <= |def.steps| && n <= |heads|
  {
    forall id :: id in out <==> InSomeRegion(def, k, id) || InRegionOf(def, join, heads, n, id)
  }

  /** A walk from one more head, begun with nothing seen, adds exactly the region of that head. */
  lemma GatherHead(def: Definition, k: nat, join: string, heads: seq<string>, n: nat, out0: set<string>, after: Sets)
    requires k <= |def.steps| && n < |heads|
    requires Gathered(def, k, join, heads, n, out0)
    requires Walked(RegionGraph(def, join), join, heads[n], Sets({}, out0), after)
    ensures Gathered(def, k, join, heads, n + 1, after.out)
  {
    assert forall id :: id in after.out <==> id in out0 || InRegionOfHead(def, join, heads[n], id) by {
      ClosedIsReachable(RegionGraph(def, join), join, heads[n], after.seen);
    }
    hide InSomeRegion, InRegionOfHead, Walked, RegionGraph;
  }

  lemma GatherFork(def: Definition, k: nat, out: set<string>)
    requires k < |def.steps| && def.steps[k].kind.Fork?
    requires Gathered(def, k, JoinOf(def, def.steps[k]), Heads(def.steps[k]), |Heads(def.steps[k])|, out)
    ensures Gathered(def, k + 1, "", [], 0, out)
  {
    hide InRegionOfHead, JoinOf, Heads;
    assert forall id :: InSomeRegion(def, k + 1, id) <==> InSomeRegion(def, k, id) || InRegion(def, def.steps[k], id);
  }

  lemma GatherOther(def: Definition, k: nat, out: set<string>)
    requires k < |def.steps| && !def.steps[k].kind.Fork? && Gathered(def, k, "", [], 0, out)
    ensures Gathered(def, k + 1, "", [], 0, out)
  {
    hide InRegion, InRegionOfHead;
    assert forall id :: InSomeRegion(def, k + 1, id) <==> InSomeRegion(def, k, id);
  }

  lemma GatherNoHeads(def: Definition, k: nat, join: string, heads: seq<string>, out: set<string>)
    requires k <= |def.steps| && Gathered(def, k, "", [], 0, out)
    ensures Gathered(def, k, join, heads, 0, out)
  {
  }

  lemma GatherNothing(def: Definition)
    ensures Gathered(def, 0, "", [], 0, {})
  {
  }

  lemma GatheredAll(def: Definition, out: set<string>)
    requires Gathered(def, |def.steps|, "", [], 0, out)
    ensures forall id :: id in out <==> IsBranchStep(def, id)
  {
  }

  /** collectForkBranchSteps of the engine. */
  method CollectForkBranchStepsInEngine(def: Definition) returns (out: set<string>)
    ensures forall id :: id in out <==> IsBranchStep(def, id)
  {
    hide Walked, Gathered, InSomeRegion, InRegionOf, RegionGraph;
    var collector := new Collector();
    GatherNothing(def);
    for k := 0 to |def.steps|
      invariant fresh(collector)
      invariant Gathered(def, k, "", [], 0, collector.out)
    {
      var step := def.steps[k];
      if !step.kind.Fork? {
        GatherOther(def, k, collector.out);
        continue;
      }
      var join := step.config.join;
      if join == "" {
        join := FirstJoinAfter(def, step.id);
      }
      GatherNoHeads(def, k, join, Heads(step), collector.out);
      if step.config.branches.None? {
        GatherFork(def, k, collector.out);
        continue;
      }
      var branches := step.config.branches.value;
      for j := 0 to |branches|
        invariant fresh(collector)
        invariant Gathered(def, k, join, branches, j, collector.out)
      {
        ghost var before := collector.out;
        collector.seen := {};
        collector.CollectInEngine(def, branches[j], join);
        GatherHead(def, k, join, branches, j, before, collector.Value());
      }
      GatherFork(def, k, collector.out);
    }
    GatheredAll(def, collector.out);
    return collector.out;
  }

  /** collectForkBranchSteps of the validator: it looks at the branches before the join. */
  method CollectForkBranchStepsInValidator(def: Definition) returns (out: set<string>)
    ensures forall id :: id in out <==> IsBranchStep(def, id)
  {
    hide Walked, Gathered, InSomeRegion, InRegionOf, RegionGraph;
    var collector := new Collector();
    GatherNothing(def);
    for k := 0 to |def.steps|
      invariant fresh(collector)
      invariant Gathered(def, k, "", [], 0, collector.out)
    {
      var step := def.steps[k];
      if !step.kind.Fork? {
        GatherOther(def, k, collector.out);
        continue;
      }
      if step.config.branches.None? {
        GatherNoHeads(def, k, JoinOf(def, step), Heads(step), collector.out);
        GatherFork(def, k, collector.out);
        continue;
      }
      var branches := step.config.branches.value;
      var join := step.config.join;
      if join == "" {
        join := FirstJoinAfter(def, step.id);
      }
      GatherNoHeads(def, k, join, Heads(step), collector.out);
      for j := 0 to |branches|
        invariant fresh(collector)
        invariant Gathered(def, k, join, branches, j, collector.out)
      {
        ghost var before := collector.out;
        collector.seen := {};
        collector.CollectInValidator(def, branches[j], join);
        GatherHead(def, k, join, branches, j, before, collector.Value());
      }
      GatherFork(def, k, collector.out);
    }
    GatheredAll(def, collector.out);
    return collector.out;
  }
}
