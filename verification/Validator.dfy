/** What the validator accepts (internal/dsl/validator.go). */
module Validator {
  import opened Workflow
  import opened Graph
  import opened Regions
  import opened Machines

  /** White space in the sense of strings.TrimSpace. */
  predicate IsSpace(c: char) {
    var n := c as int;
    9 <= n <= 13 || n == 0x20 || n == 0x85 || n == 0xA0 || n == 0x1680 || 0x2000 <= n <= 0x200A || n == 0x2028 ||
    n == 0x2029 || n == 0x202F || n == 0x205F || n == 0x3000
  }

  predicate IsBlank(s: string) {
    forall i :: 0 <= i < |s| ==> IsSpace(s[i])
  }

  /** The references of a step that Validate checks and validateAcyclic follows (explicitRefs). */
  function ExplicitRefs(step: Step): seq<string> {
    NonEmpty(step.config.next) +
    match step.kind
    case Condition => NonEmpty(step.config.thenRef) + NonEmpty(step.config.elseRef)
    case Fork => Heads(step) + NonEmpty(step.config.join)
    case _ => []
  }

  predicate Distinct(s: seq<string>) {
    forall i, j :: 0 <= i < j < |s| ==> s[i] != s[j]
  }

  predicate PositiveOrAbsent(d: Duration) {
    match d
    case Absent => true
    case Malformed => false
    case Parsed(n) => n > 0
  }

  predicate RetryOk(step: Step) {
    step.retry.Some? ==>
      step.retry.value.maxRetries >= 0 && PositiveOrAbsent(step.retry.value.initialInterval) &&
      PositiveOrAbsent(step.retry.value.maxInterval) && step.retry.value.multiplier >= 0.0
  }

  /** validateStep without the checks of single fields: the branches of a fork, and the retry policy, which is not
      looked at for joins. */
  predicate StepOk(step: Step) {
    match step.kind
    case Fork => Heads(step) != [] && Distinct(Heads(step)) && RetryOk(step)
    case Join => true
    case _ => RetryOk(step)
  }

  predicate RefsOk(def: Definition, step: Step) {
    && (step.onFailure != "" ==> step.onFailure in Ids(def))
    && (step.kind.Fork? ==> JoinOf(def, step) != "")
    && (forall i :: 0 <= i < |ExplicitRefs(step)| ==> ExplicitRefs(step)[i] in Ids(def))
  }

  /** Everything but the graph. */
  predicate WellReferenced(def: Definition) {
    && UniqueIds(def.steps)
    && forall i :: 0 <= i < |def.steps| ==>
      !IsBlank(def.steps[i].id) && StepOk(def.steps[i]) && RefsOk(def, def.steps[i])
  }

  function OutEdges(normal: seq<Step>, i: nat): seq<string>
    requires i < |normal|
  {
    (if i + 1 < |normal| then [normal[i + 1].id] else []) + ExplicitRefs(normal[i]) + NonEmpty(normal[i].onFailure)
  }

  /** The edges validateAcyclic collects from the first `n` normal steps. */
  function EdgesUpTo(normal: seq<Step>, n: nat): Graph
    requires n <= |normal|
  {
    if n == 0 then map[]
    else
      var g := EdgesUpTo(normal, n - 1);
      g[normal[n - 1].id := Succ(g, normal[n - 1].id) + OutEdges(normal, n - 1)]
  }

  ghost function CheckedGraph(def: Definition): Graph {
    var normal := NormalSteps(def, |def.steps|);
    EdgesUpTo(normal, |normal|)
  }

  ghost predicate Accepted(def: Definition) {
    && !IsBlank(def.name) && def.version >= 1 && def.steps != []
    && WellReferenced(def)
    && !HasCycle(CheckedGraph(def))
  }

  lemma {:induction false} EdgesOfOthers(normal: seq<Step>, n: nat, id: string)
    requires n <= |normal| && forall k :: 0 <= k < n ==> normal[k].id != id
    ensures id !in EdgesUpTo(normal, n)
  {
    hide OutEdges;
    if n > 0 {
      EdgesOfOthers(normal, n - 1, id);
    }
  }

  lemma {:induction false} EdgesOfNormal(normal: seq<Step>, n: nat, i: nat)
    requires UniqueIds(normal) && i < n <= |normal|
    ensures Succ(EdgesUpTo(normal, n), normal[i].id) == OutEdges(normal, i)
  {
    hide OutEdges;
    if i == n - 1 {
      EdgesOfOthers(normal, n - 1, normal[i].id);
    } else {
      EdgesOfNormal(normal, n - 1, i);
    }
  }

  lemma {:induction false} NormalStepIsStep(def: Definition, n: nat, i: nat) returns (k: nat)
    requires n <= |def.steps| && i < |NormalSteps(def, n)|
    ensures k < n && NormalSteps(def, n)[i] == def.steps[k] && IsNormal(def, def.steps[k])
  {
    hide IsBranchStep, CompensationRefs;
    if i < |NormalSteps(def, n - 1)| {
      k := NormalStepIsStep(def, n - 1, i);
    } else {
      k := n - 1;
    }
  }

  lemma {:induction false} NormalStepsUnique(def: Definition, n: nat)
    requires n <= |def.steps| && UniqueIds(def.steps)
    ensures UniqueIds(NormalSteps(def, n))
  {
    hide IsNormal;
    if n > 0 {
      NormalStepsUnique(def, n - 1);
      var shorter := NormalSteps(def, n - 1);
      forall i | 0 <= i < |shorter| ensures shorter[i].id != def.steps[n - 1].id {
        var k := NormalStepIsStep(def, n - 1, i);
      }
    }
  }

  lemma {:induction false} EdgeKeys(normal: seq<Step>, n: nat, ids: set<string>)
    requires n <= |normal| && forall k :: 0 <= k < n ==> normal[k].id in ids
    ensures EdgesUpTo(normal, n).Keys <= ids
  {
    hide OutEdges;
    if n > 0 {
      EdgeKeys(normal, n - 1, ids);
    }
  }

  lemma OutEdgesAre(normal: seq<Step>, i: nat, before: seq<string>, out: seq<string>)
    requires i < |normal|
    requires out == before + (if i + 1 < |normal| then [normal[i + 1].id] else []) + ExplicitRefs(normal[i]) +
      (if normal[i].onFailure != "" then [normal[i].onFailure] else [])
    ensures out == before + OutEdges(normal, i)
  {
  }

  lemma NormalMeans(def: Definition, compensation: set<string>, branchSteps: set<string>)
    requires compensation == CompensationRefs(def) && forall id :: id in branchSteps <==> IsBranchStep(def, id)
    ensures forall step: Step :: IsNormal(def, step) <==> step.id !in compensation && step.id !in branchSteps
  {
    hide CompensationRefs, IsBranchStep;
  }

  method NormalStepsOf(def: Definition) returns (normal: seq<Step>)
    ensures normal == NormalSteps(def, |def.steps|)
  {
    hide IsBranchStep, IsNormal, CompensationRefs;
    var compensation := CompensationRefsOf(def);
    var branchSteps := CollectForkBranchStepsInValidator(def);
    NormalMeans(def, compensation, branchSteps);
    normal := [];
    for i := 0 to |def.steps|
      invariant normal == NormalSteps(def, i)
    {
      var step := def.steps[i];
      if step.id !in compensation {
        if step.id in branchSteps {
          continue;
        }
        normal := normal + [step];
      }
    }
  }

  /** The two loops that fill the map of edges. The second one adds keys without successors. */
  method EdgesOf(def: Definition, normal: seq<Step>) returns (edges: Graph)
    ensures forall a :: Succ(edges, a) == Succ(EdgesUpTo(normal, |normal|), a)
  {
    hide OutEdges, ExplicitRefs;
    edges := map[];
    for i := 0 to |normal|
      invariant edges == EdgesUpTo(normal, i)
    {
      var step := normal[i];
      ghost var before := Succ(edges, step.id);
      var out := Succ(edges, step.id);
      if i + 1 < |normal| {
        out := out + [normal[i + 1].id];
      }
      out := out + ExplicitRefs(step);
      if step.onFailure != "" {
        out := out + [step.onFailure];
      }
      OutEdgesAre(normal, i, before, out);
      edges := edges[step.id := out];
    }
    for i := 0 to |def.steps|
      invariant forall a :: Succ(edges, a) == Succ(EdgesUpTo(normal, |normal|), a)
    {
      if def.steps[i].onFailure != "" {
        edges := edges[def.steps[i].onFailure := Succ(edges, def.steps[i].onFailure)];
      }
    }
  }

  lemma EdgesLeaveSteps(def: Definition)
    ensures CheckedGraph(def).Keys <= Ids(def)
  {
    hide IsNormal;
    var normal := NormalSteps(def, |def.steps|);
    forall k | 0 <= k < |normal| ensures normal[k].id in Ids(def) {
      var j := NormalStepIsStep(def, |def.steps|, k);
    }
    EdgeKeys(normal, |normal|, Ids(def));
  }

  /** validateAcyclic: it succeeds exactly when the graph it derives has no cycle. */
  method ValidateAcyclic(def: Definition, ids: set<string>) returns (ok: bool)
    requires ids == Ids(def)
    ensures ok <==> !HasCycle(CheckedGraph(def))
  {
    hide HasCycle, EdgesUpTo, NormalSteps, Ids;
    var normal := NormalStepsOf(def);
    var edges := EdgesOf(def, normal);
    SameSuccessorsSameCycles(edges, CheckedGraph(def));
    EdgesLeaveSteps(def);
    assert forall a :: a in edges && edges[a] != [] ==> Succ(CheckedGraph(def), a) != [];
    ghost var order;
    ok, order := FindCycle(edges, ids);
  }

  datatype ValidationError =
    | NameRequired | VersionTooSmall | NoSteps
    | EmptyId(index: nat) | DuplicateId(index: nat) | InvalidStep(index: nat)
    | UnknownOnFailure(index: nat) | NoJoin(index: nat) | UnknownReference(index: nat, ref: string)
    | CycleDetected

  /** What each error means. */
  ghost predicate Explains(def: Definition, error: ValidationError) {
    match error
    case NameRequired => IsBlank(def.name)
    case VersionTooSmall => def.version < 1
    case NoSteps => def.steps == []
    case EmptyId(i) => i < |def.steps| && IsBlank(def.steps[i].id)
    case DuplicateId(i) => i < |def.steps| && exists k :: 0 <= k < i && def.steps[k].id == def.steps[i].id
    case InvalidStep(i) => i < |def.steps| && !StepOk(def.steps[i])
    case UnknownOnFailure(i) =>
      i < |def.steps| && def.steps[i].onFailure != "" && def.steps[i].onFailure !in Ids(def)
    case NoJoin(i) => i < |def.steps| && def.steps[i].kind.Fork? && JoinOf(def, def.steps[i]) == ""
    case UnknownReference(i, ref) => i < |def.steps| && ref in ExplicitRefs(def.steps[i]) && ref !in Ids(def)
    case CycleDetected => HasCycle(CheckedGraph(def))
  }

  /** The first loop of Validate fills `ids`. */
  method CheckSteps(def: Definition) returns (error: Option<ValidationError>, ids: set<string>)
    ensures error.None? ==> ids == Ids(def) && UniqueIds(def.steps)
    ensures error.None? ==> forall i :: 0 <= i < |def.steps| ==> !IsBlank(def.steps[i].id) && StepOk(def.steps[i])
    ensures error.Some? ==> Explains(def, error.value)
  {
    hide IsBlank, StepOk;
    ids := {};
    for i := 0 to |def.steps|
      invariant ids == set k | 0 <= k < i :: def.steps[k].id
      invariant UniqueIds(def.steps[..i])
      invariant forall k :: 0 <= k < i ==> !IsBlank(def.steps[k].id) && StepOk(def.steps[k])
    {
      var step := def.steps[i];
      if IsBlank(step.id) {
        return Some(EmptyId(i)), ids;
      }
      if step.id in ids {
        return Some(DuplicateId(i)), ids;
      }
      ids := ids + {step.id};
      if !StepOk(step) {
        return Some(InvalidStep(i)), ids;
      }
    }
    assert def.steps[..|def.steps|] == def.steps;
    error := None;
  }

  /** The second loop checks the references of every step. */
  method CheckReferences(def: Definition, ids: set<string>) returns (error: Option<ValidationError>)
    requires ids == Ids(def)
    ensures error.None? ==> forall i :: 0 <= i < |def.steps| ==> RefsOk(def, def.steps[i])
    ensures error.Some? ==> Explains(def, error.value)
  {
    hide ExplicitRefs, Ids, JoinOf;
    for i := 0 to |def.steps|
      invariant forall k :: 0 <= k < i ==> RefsOk(def, def.steps[k])
    {
      var step := def.steps[i];
      if step.onFailure != "" && step.onFailure !in ids {
        return Some(UnknownOnFailure(i));
      }
      if step.kind.Fork? && JoinOf(def, step) == "" {
        return Some(NoJoin(i));
      }
      var refs := ExplicitRefs(step);
      for j := 0 to |refs|
        invariant forall k :: 0 <= k < j ==> refs[k] in ids
      {
        if refs[j] !in ids {
          return Some(UnknownReference(i, refs[j]));
        }
      }
    }
    error := None;
  }

  lemma ErrorMeansRejected(def: Definition, error: ValidationError)
    requires Explains(def, error)
    ensures !Accepted(def)
  {
    hide HasCycle, CheckedGraph, IsBlank, StepOk, JoinOf;
    if error.UnknownReference? {
      var i := error.index;
      assert exists k :: 0 <= k < |ExplicitRefs(def.steps[i])| && ExplicitRefs(def.steps[i])[k] == error.ref;
      hide ExplicitRefs;
    }
  }

  /** Validate: a definition passes exactly when it is accepted, and an error tells the truth. */
  method Validate(def: Definition) returns (error: Option<ValidationError>)
    ensures error.None? <==> Accepted(def)
    ensures error.Some? ==> Explains(def, error.value)
  {
    hide HasCycle, CheckedGraph, IsBlank, StepOk, RefsOk, Ids;
    error := None;
    var ids: set<string>;
    if IsBlank(def.name) {
      error := Some(NameRequired);
    } else if def.version < 1 {
      error := Some(VersionTooSmall);
    } else if def.steps == [] {
      error := Some(NoSteps);
    } else {
      error, ids := CheckSteps(def);
      if error.None? {
        error := CheckReferences(def, ids);
        if error.None? {
          var ok := ValidateAcyclic(def, ids);
          if !ok {
            error := Some(CycleDetected);
          }
        }
      }
    }
    if error.Some? {
      ErrorMeansRejected(def, error.value);
    }
  }
}
