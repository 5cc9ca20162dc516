/** Definitions and runtime state of a workflow (internal/workflow/types.go). */
module Workflow {

  datatype Option<+T> = None | Some(value: T)

  datatype StepKind = HttpRequest | Transform | Delay | Condition | Fork | Join

  /** A duration field: absent, not parsable, or a number of nanoseconds. */
  datatype Duration = Absent | Malformed | Parsed(nanos: int)

  datatype RetryPolicy = RetryPolicy(
    maxRetries: int, initialInterval: Duration, maxInterval: Duration, multiplier: real)

  /** The keys of `config` the engine reads. "" stands for a key that is absent, null or not a string. */
  datatype Config = Config(
    next: string, thenRef: string, elseRef: string, join: string, branches: Option<seq<string>>,
    duration: int, resultKey: string)

  datatype Step = Step(id: string, kind: StepKind, config: Config, retry: Option<RetryPolicy>, onFailure: string)

  datatype Definition = Definition(name: string, version: int, steps: seq<Step>)

  function Ids(def: Definition): set<string> {
    set i | 0 <= i < |def.steps| :: def.steps[i].id
  }

  predicate UniqueIds(steps: seq<Step>) {
    forall i, j :: 0 <= i < j < |steps| ==> steps[i].id != steps[j].id
  }

  /** The first step with the given id (StepByID). */
  function StepById(steps: seq<Step>, id: string): (r: Option<Step>)
    ensures r.Some? ==> r.value in steps && r.value.id == id
    ensures r.None? <==> forall i :: 0 <= i < |steps| ==> steps[i].id != id
  {
    if steps == [] then None
    else if steps[0].id == id then Some(steps[0])
    else StepById(steps[1..], id)
  }

  lemma {:induction false} StepByIdUnique(steps: seq<Step>, i: nat)
    requires UniqueIds(steps) && i < |steps|
    ensures StepById(steps, steps[i].id) == Some(steps[i])
  {
    if i > 0 {
      assert steps[i] == steps[1..][i - 1];
      StepByIdUnique(steps[1..], i - 1);
    }
  }

  lemma {:induction false} StepByIdIsFirst(steps: seq<Step>, id: string) returns (i: nat)
    ensures StepById(steps, id).Some? ==>
      i < |steps| && steps[i] == StepById(steps, id).value && forall j :: 0 <= j < i ==> steps[j].id != id
  {
    i := 0;
    if steps != [] && steps[0].id != id {
      var k := StepByIdIsFirst(steps[1..], id);
      i := k + 1;
      assert forall j :: 0 < j < |steps| ==> steps[j] == steps[1..][j - 1];
    }
  }

  /** Targets of `on_failure` (CompensationRefs). */
  function CompensationRefs(def: Definition): set<string> {
    set i | 0 <= i < |def.steps| && def.steps[i].onFailure != "" :: def.steps[i].onFailure
  }

  datatype StepStatus = NoStatus | StepRunning | StepWaiting | StepCompleted | StepFailed

  /** `outputNext` is `Output["next_step"]` when that is a string; `body`, `error` and the rest of the output are
      payload the engine never branches on. */
  datatype StepState = StepState(
    status: StepStatus, outputNext: string, attempt: int, key: string, waitingTime: Option<int>)

  const ZERO_STEP: StepState := StepState(NoStatus, "", 0, "", None)

  /** Reading a Go map: the zero value for a missing key. */
  function Lookup(steps: map<string, StepState>, id: string): StepState {
    if id in steps then steps[id] else ZERO_STEP
  }

  datatype BranchStatus = Pending | BranchRunning | BranchCompleted | BranchFailed

  datatype BranchState = BranchState(start: string, current: string, status: BranchStatus, completed: seq<string>)

  datatype ForkStatus = ForkRunning | ForkCompleted | ForkJoined | ForkFailed

  datatype ForkState = ForkState(status: ForkStatus, join: string, branches: seq<BranchState>)

  type Forks = map<string, ForkState>

  /** The value of a RuntimeState. */
  datatype State = State(
    steps: map<string, StepState>, completed: seq<string>, queue: seq<string>, forks: Forks)

  const EMPTY_STATE: State := State(map[], [], [], map[])

  function AppendNew(s: seq<string>, id: string): seq<string> {
    if id in s then s else s + [id]
  }

  /** What MarkCompleted does to a state. */
  function Completed(s: State, id: string, result: StepState): State {
    s.(steps := s.steps[id := result.(status := StepCompleted)], completed := AppendNew(s.completed, id))
  }

  /** The runtime state the engine and the machine update in place. */
  class RuntimeState {
    var steps: map<string, StepState>
    var completed: seq<string>
    var queue: seq<string>
    var forks: Forks

    function Value(): State
      reads this
    {
      State(steps, completed, queue, forks)
    }

    constructor (s: State)
      ensures Value() == s
    {
      steps, completed, queue, forks := s.steps, s.completed, s.queue, s.forks;
    }

    method HasCompleted(id: string) returns (found: bool)
      ensures found <==> id in completed
    {
      found := false;
      for i := 0 to |completed|
        invariant id !in completed[..i]
      {
        if completed[i] == id {
          return true;
        }
      }
    }

    method MarkCompleted(id: string, result: StepState)
      modifies this
      ensures Value() == Completed(old(Value()), id, result)
    {
      steps := steps[id := result.(status := StepCompleted)];
      var found := HasCompleted(id);
      if !found {
        completed := completed + [id];
      }
    }
  }
}

/** Retry delays (RetryPolicy.Backoff), with exact multiplication truncated to whole nanoseconds. */
module Retry {
  import opened Workflow

  const SECOND := 1_000_000_000

  function InitialBackoff(r: RetryPolicy): (d: int)
    ensures d > 0
  {
    match r.initialInterval
    case Parsed(n) => if n <= 0 then SECOND else n
    case _ => SECOND
  }

  function MaxBackoff(r: RetryPolicy): (d: int)
    ensures d > 0
  {
    match r.maxInterval
    case Parsed(n) => if n <= 0 then 30 * SECOND else n
    case _ => 30 * SECOND
  }

  function Multiplier(r: RetryPolicy): (m: real)
    ensures m > 1.0
  {
    if r.multiplier <= 1.0 then 2.0 else r.multiplier
  }

  /** One round of the loop: multiply, truncate, and double instead when that did not grow. */
  function Grow(r: RetryPolicy, d: int): (next: int)
    ensures d > 0 ==> next > d
  {
    var next := (d as real * Multiplier(r)).Floor;
    if next <= d then 2 * d else next
  }

  /** The delay after `k` growth steps, if there were no cap. */
  function Uncapped(r: RetryPolicy, k: nat): (d: int)
    ensures d > 0
  {
    if k == 0 then InitialBackoff(r) else Grow(r, Uncapped(r, k - 1))
  }

  function Min(a: int, b: int): int {
    if a <= b then a else b
  }

  /** Each delay as a law: the uncapped delay of its attempt, cut at the cap. */
  function Delay(r: RetryPolicy, attempt: int): int {
    Min(MaxBackoff(r), Uncapped(r, if attempt < 1 then 0 else attempt - 1))
  }

  lemma {:induction false} UncappedMonotone(r: RetryPolicy, i: nat, j: nat)
    requires i <= j
    ensures Uncapped(r, i) <= Uncapped(r, j)
    decreases j - i
  {
    if i < j {
      UncappedMonotone(r, i, j - 1);
    }
  }

  /** The loop with its early exit computes the capped law. */
  method Backoff(r: RetryPolicy, attempt: int) returns (d: int)
    ensures d == Delay(r, attempt)
  {
    var last := if attempt < 1 then 1 else attempt;
    var backoff := InitialBackoff(r);
    for i := 1 to last
      invariant backoff == Uncapped(r, i - 1)
    {
      backoff := Grow(r, backoff);
      if backoff >= MaxBackoff(r) {
        UncappedMonotone(r, i, last - 1);
        return MaxBackoff(r);
      }
    }
    if backoff > MaxBackoff(r) {
      return MaxBackoff(r);
    }
    return backoff;
  }

  /** Delays are positive and capped, never shrink, and grow strictly until they sit at the cap. */
  lemma BackoffLaw(r: RetryPolicy, a: int, b: int)
    requires a <= b
    ensures 0 < Delay(r, a) <= Delay(r, b) <= MaxBackoff(r)
    ensures 1 <= a < b && Delay(r, a) < MaxBackoff(r) ==> Delay(r, a) < Delay(r, b)
  {
    var i := if a < 1 then 0 else a - 1;
    var j := if b < 1 then 0 else b - 1;
    UncappedMonotone(r, i, j);
    if i < j {
      UncappedMonotone(r, i, j - 1);
    }
  }

  /** `d` doubled `k` times. */
  function Doubled(d: int, k: nat): int {
    if k == 0 then d else 2 * Doubled(d, k - 1)
  }

  lemma GrowDoubles(r: RetryPolicy, d: int)
    requires d > 0 && Multiplier(r) >= 2.0
    ensures Grow(r, d) >= 2 * d
  {
    var product := d as real * Multiplier(r);
    assert product >= (2 * d) as real;
    assert product.Floor >= 2 * d;
  }

  lemma {:induction false} UncappedDoubles(r: RetryPolicy, k: nat)
    requires Multiplier(r) >= 2.0
    ensures Uncapped(r, k) >= Doubled(InitialBackoff(r), k)
  {
    if k > 0 {
      UncappedDoubles(r, k - 1);
      GrowDoubles(r, Uncapped(r, k - 1));
    }
  }

  /** With an effective multiplier of at least 2 the delay is at least the doubling schedule, cut at the cap. */
  lemma BackoffAtLeastDoubles(r: RetryPolicy, attempt: int)
    requires attempt >= 1 && Multiplier(r) >= 2.0
    ensures Delay(r, attempt) >= Min(MaxBackoff(r), Doubled(InitialBackoff(r), attempt - 1))
  {
    UncappedDoubles(r, attempt - 1);
  }

  /** The first attempt waits for the initial interval of the policy, or for one second if that is no positive time; at most
      for the maximal interval, or for 30 seconds. */
  lemma FirstBackoffLaw(r: RetryPolicy, attempt: int)
    requires attempt <= 1
    ensures var initial := if r.initialInterval.Parsed? && r.initialInterval.nanos > 0 then r.initialInterval.nanos
                           else 1_000_000_000;
      var most := if r.maxInterval.Parsed? && r.maxInterval.nanos > 0 then r.maxInterval.nanos else 30_000_000_000;
      Delay(r, attempt) == if initial <= most then initial else most
  {
  }

  /** The next attempt waits for the multiplied delay, in whole nanoseconds, if that is more, else for twice the delay; a
      multiplier of at most 1 counts as 2. Again at most for the maximal interval. */
  lemma NextBackoffLaw(r: RetryPolicy, attempt: int)
    requires attempt >= 1
    ensures var factor := if r.multiplier > 1.0 then r.multiplier else 2.0;
      var most := if r.maxInterval.Parsed? && r.maxInterval.nanos > 0 then r.maxInterval.nanos else 30_000_000_000;
      var grown := (Delay(r, attempt) as real * factor).Floor;
      var next := if grown > Delay(r, attempt) then grown else 2 * Delay(r, attempt);
      Delay(r, attempt + 1) == if next <= most then next else most
  {
    GrowLaw(r, Delay(r, attempt));
    hide Grow, InitialBackoff, Multiplier;
    assert Uncapped(r, attempt) == Grow(r, Uncapped(r, attempt - 1));
  }

  lemma GrowLaw(r: RetryPolicy, d: int)
    requires d > 0
    ensures var grown := (d as real * if r.multiplier > 1.0 then r.multiplier else 2.0).Floor;
      Grow(r, d) == if grown > d then grown else 2 * d
  {
  }

  /** From one second to ten, doubling: 1, 2, 4, 8 and 10 seconds. */
  lemma BackoffExample()
    ensures var r := RetryPolicy(4, Parsed(1_000_000_000), Parsed(10_000_000_000), 2.0);
      && Delay(r, 1) == 1_000_000_000 && Delay(r, 2) == 2_000_000_000 && Delay(r, 3) == 4_000_000_000
      && Delay(r, 4) == 8_000_000_000 && Delay(r, 5) == 10_000_000_000
  {
    var r := RetryPolicy(4, Parsed(1_000_000_000), Parsed(10_000_000_000), 2.0);
    FirstBackoffLaw(r, 1);
    NextBackoffLaw(r, 1);
    NextBackoffLaw(r, 2);
    NextBackoffLaw(r, 3);
    NextBackoffLaw(r, 4);
    hide *;
  }
}
