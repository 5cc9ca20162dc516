/** What the validator checks, told by the fields of the steps and their places alone. */
module ValidatorLaws {
  import opened Workflow
  import opened Graph
  import opened Regions
  import opened Machines
  import opened Validator

  /** A step passes validateStep if and only if it is a join, or: its retry policy, if it has one, has no negative number and
      no interval that is malformed or not positive; and a fork has branches, all different. */
  lemma StepLaw(step: Step)
    ensures StepOk(step) <==>
      (step.kind == Join || (
        && (step.retry.Some? ==>
              var r := step.retry.value;
              && r.maxRetries >= 0 && r.multiplier >= 0.0
              && (r.initialInterval == Absent || (r.initialInterval.Parsed? && r.initialInterval.nanos > 0))
              && (r.maxInterval == Absent || (r.maxInterval.Parsed? && r.maxInterval.nanos > 0)))
        && (step.kind == Fork ==>
              step.config.branches.Some? &&
              var branches := step.config.branches.value;
              |branches| > 0 && forall i, j :: 0 <= i < j < |branches| ==> branches[i] != branches[j])))
  {
    if step.kind.Fork? && step.config.branches.Some? {
      assert Heads(step) == step.config.branches.value;
    }
  }

  /** Three retries from one second to ten pass; a negative number of them, or an interval of zero, does not. */
  lemma RetryExample(step: Step)
    requires step.kind == HttpRequest
    ensures StepOk(step.(retry := Some(RetryPolicy(3, Parsed(1_000_000_000), Parsed(10_000_000_000), 2.0))))
    ensures StepOk(step.(retry := Some(RetryPolicy(0, Absent, Absent, 0.0))))
    ensures !StepOk(step.(retry := Some(RetryPolicy(-1, Parsed(1_000_000_000), Parsed(10_000_000_000), 2.0))))
    ensures !StepOk(step.(retry := Some(RetryPolicy(3, Parsed(0), Parsed(10_000_000_000), 2.0))))
    ensures !StepOk(step.(retry := Some(RetryPolicy(3, Parsed(1_000_000_000), Malformed, 2.0))))
  {
  }

  /** The step refers to the id: as `next`, a condition as `then` or `else`, a fork as a branch or its join. */
  predicate RefersTo(step: Step, id: string) {
    || (id != "" && step.config.next == id)
    || (id != "" && step.kind == Condition && (step.config.thenRef == id || step.config.elseRef == id))
    || (id != "" && step.kind == Fork && step.config.join == id)
    || (step.kind == Fork && step.config.branches.Some? && id in step.config.branches.value)
  }

  lemma RefersLaw(step: Step, id: string)
    ensures id in ExplicitRefs(step) <==> RefersTo(step, id)
  {
    var c := step.config;
    assert forall name: string :: id in NonEmpty(name) <==> id == name != "";
    match step.kind
    case Condition =>
      assert ExplicitRefs(step) == NonEmpty(c.next) + (NonEmpty(c.thenRef) + NonEmpty(c.elseRef));
    case Fork =>
      assert ExplicitRefs(step) == NonEmpty(c.next) + (Heads(step) + NonEmpty(c.join));
    case _ =>
      assert ExplicitRefs(step) == NonEmpty(c.next) + [];
  }

  /** All ids step `k` refers to, its compensation among them, are ids of steps; and if it is a fork, it names its join, or a
      join is listed behind it. */
  ghost predicate KnowsItsSteps(def: Definition, k: nat)
    requires k < |def.steps|
  {
    var step := def.steps[k];
    && (forall id :: RefersTo(step, id) || id == step.onFailure != "" ==>
          exists i :: 0 <= i < |def.steps| && def.steps[i].id == id)
    && (step.kind == Fork ==> step.config.join != "" || exists l :: k < l < |def.steps| && def.steps[l].kind == Join)
  }

  lemma RefsLaw(def: Definition, k: nat)
    requires UniqueIds(def.steps) && k < |def.steps| && forall i :: 0 <= i < |def.steps| ==> def.steps[i].id != ""
    ensures RefsOk(def, def.steps[k]) <==> KnowsItsSteps(def, k)
  {
    var step := def.steps[k];
    forall id ensures id in ExplicitRefs(step) <==> RefersTo(step, id) {
      RefersLaw(step, id);
    }
    hide RefersTo, ExplicitRefs;
    JoinIsKnownIff(def, k);
    assert forall id :: id in Ids(def) <==> exists i :: 0 <= i < |def.steps| && def.steps[i].id == id;
    hide Ids, JoinOf, UniqueIds;
    assert (forall i :: 0 <= i < |ExplicitRefs(step)| ==> ExplicitRefs(step)[i] in Ids(def)) <==>
      forall id :: id in ExplicitRefs(step) ==> id in Ids(def);
  }

  lemma JoinIsKnownIff(def: Definition, k: nat)
    requires UniqueIds(def.steps) && k < |def.steps| && forall i :: 0 <= i < |def.steps| ==> def.steps[i].id != ""
    ensures JoinOf(def, def.steps[k]) != "" <==>
      def.steps[k].config.join != "" || exists l :: k < l < |def.steps| && def.steps[l].kind == Join
  {
    JoinOfLaw(def, k);
    hide JoinOf, UniqueIds;
    if l :| k < l < |def.steps| && def.steps[l].kind == Join {
      var first := EarliestJoin(def.steps, k, l);
    }
  }

  /** The graph whose cycles are rejected: each step of the linear path leads to the one behind it, to all it refers to and to
      its compensation; other steps lead nowhere. */
  lemma EdgeLaw(def: Definition, a: string, b: string)
    requires UniqueIds(def.steps)
    ensures var normal := MachineOf(def).normal;
      b in Succ(CheckedGraph(def), a) <==>
        exists i: nat :: i < |normal| && normal[i].id == a && HasEdge(normal, i, b)
  {
    var normal := MachineOf(def).normal;
    NormalStepsUnique(def, |def.steps|);
    hide UniqueIds, NormalSteps, EdgesUpTo, OutEdges;
    if i: nat :| i < |normal| && normal[i].id == a {
      EdgesOfNormal(normal, |normal|, i);
      OutLaw(normal, i, b);
      OnlyOne(normal, i);
    } else {
      EdgesOfOthers(normal, |normal|, a);
    }
  }

  lemma OnlyOne(steps: seq<Step>, i: nat)
    requires UniqueIds(steps) && i < |steps|
    ensures forall j :: 0 <= j < |steps| && steps[j].id == steps[i].id ==> j == i
  {
  }

  predicate HasEdge(normal: seq<Step>, i: nat, b: string)
    requires i < |normal|
  {
    (i + 1 < |normal| && b == normal[i + 1].id) || RefersTo(normal[i], b) || b == normal[i].onFailure != ""
  }

  lemma OutLaw(normal: seq<Step>, i: nat, b: string)
    requires i < |normal|
    ensures b in OutEdges(normal, i) <==> HasEdge(normal, i, b)
  {
    RefersLaw(normal[i], b);
    hide RefersTo, ExplicitRefs;
  }

  /** A definition is accepted if and only if it has a name, a version of at least 1 and steps, the steps have names, all
      different, each passes by itself and refers to steps only, each fork has its join, and the graph has no cycle. */
  lemma AcceptedLaw(def: Definition)
    ensures Accepted(def) <==>
      && (exists c :: c in def.name && !IsSpace(c)) && def.version >= 1 && |def.steps| > 0
      && (forall i, j :: 0 <= i < j < |def.steps| ==> def.steps[i].id != def.steps[j].id)
      && (forall k :: 0 <= k < |def.steps| ==>
            (exists c :: c in def.steps[k].id && !IsSpace(c)) && StepOk(def.steps[k]) && KnowsItsSteps(def, k))
      && !HasCycle(CheckedGraph(def))
  {
    hide HasCycle, CheckedGraph, StepOk, IsSpace, RefsOk;
    BlankLaw(def.name);
    if UniqueIds(def.steps) && forall k :: 0 <= k < |def.steps| ==> !IsBlank(def.steps[k].id) {
      forall k | 0 <= k < |def.steps| ensures RefsOk(def, def.steps[k]) <==> KnowsItsSteps(def, k) {
        RefsLaw(def, k);
      }
    }
    hide KnowsItsSteps;
    forall k | 0 <= k < |def.steps|
      ensures !IsBlank(def.steps[k].id) <==> exists c :: c in def.steps[k].id && !IsSpace(c)
    {
      BlankLaw(def.steps[k].id);
    }
    hide IsBlank;
  }

  lemma BlankLaw(s: string)
    ensures !IsBlank(s) <==> exists c :: c in s && !IsSpace(c)
  {
    hide IsSpace;
    if i :| 0 <= i < |s| && !IsSpace(s[i]) {
      assert s[i] in s;
    }
  }
}
