/** The compensation queue of a failed instance (CompensationQueue of engine/machine.go). */
module Saga {
  import opened Workflow

  /** The `on_failure` target of a known step, or "". */
  function Target(def: Definition, id: string): string {
    var step := StepById(def.steps, id);
    if step.Some? then step.value.onFailure else ""
  }

  function Pushed(queue: seq<string>, target: string): seq<string> {
    if target == "" then queue else AppendNew(queue, target)
  }

  /** Pushing the targets of the first `n` steps, last one first. */
  function Backward(def: Definition, steps: seq<string>, n: nat, queue: seq<string>): seq<string>
    requires n <= |steps|
  {
    if n == 0 then queue else Backward(def, steps, n - 1, Pushed(queue, Target(def, steps[n - 1])))
  }

  function CompensationQueue(def: Definition, failed: string, completed: seq<string>): seq<string> {
    Backward(def, completed, |completed|, Pushed([], Target(def, failed)))
  }

  lemma TargetOf(def: Definition, id: string)
    ensures Target(def, id) ==
      if StepById(def.steps, id).None? then "" else StepById(def.steps, id).value.onFailure
  {
  }

  method CompensationQueueOf(def: Definition, failed: string, completed: seq<string>) returns (queue: seq<string>)
    ensures queue == CompensationQueue(def, failed, completed)
  {
    hide StepById;
    queue := [];
    var step := StepById(def.steps, failed);
    if step.Some? && step.value.onFailure != "" {
      queue := queue + [step.value.onFailure];
    }
    assert queue == Pushed([], Target(def, failed));
    hide Target;
    var seen: set<string> := {};
    for k := 0 to |queue|
      invariant forall id :: id in seen <==> id in queue[..k]
    {
      seen := seen + {queue[k]};
    }
    var i := |completed|;
    while i > 0
      invariant 0 <= i <= |completed|
      invariant forall id :: id in seen <==> id in queue
      invariant CompensationQueue(def, failed, completed) == Backward(def, completed, i, queue)
    {
      i := i - 1;
      step := StepById(def.steps, completed[i]);
      TargetOf(def, completed[i]);
      if step.None? || step.value.onFailure == "" {
        continue;
      }
      if step.value.onFailure in seen {
        continue;
      }
      queue := queue + [step.value.onFailure];
      seen := seen + {step.value.onFailure};
    }
  }

  /** `p` is the last position at which a step with this target stands. */
  predicate LastUse(def: Definition, steps: seq<string>, target: string, p: int) {
    && 0 <= p < |steps| && Target(def, steps[p]) == target != ""
    && forall k :: p < k < |steps| ==> Target(def, steps[k]) != target
  }

  /** The queue lists the targets used from position `n` on, each once, by decreasing last use. */
  ghost predicate Ordered(def: Definition, steps: seq<string>, n: nat, queue: seq<string>, last: seq<int>) {
    && |last| == |queue|
    && (forall i :: 0 <= i < |queue| ==> n <= last[i] && LastUse(def, steps, queue[i], last[i]))
    && (forall i, j :: 0 <= i < j < |last| ==> last[i] > last[j])
    && (forall k :: n <= k < |steps| && Target(def, steps[k]) != "" ==> Target(def, steps[k]) in queue)
  }

  lemma OrderedSkip(def: Definition, steps: seq<string>, n: nat, queue: seq<string>, last: seq<int>)
    requires 0 < n <= |steps| && Ordered(def, steps, n, queue, last)
    requires Target(def, steps[n - 1]) == "" || Target(def, steps[n - 1]) in queue
    ensures Ordered(def, steps, n - 1, queue, last)
  {
    hide Target, LastUse;
  }

  lemma OrderedPush(def: Definition, steps: seq<string>, n: nat, queue: seq<string>, last: seq<int>)
    requires 0 < n <= |steps| && Ordered(def, steps, n, queue, last)
    requires Target(def, steps[n - 1]) != "" && Target(def, steps[n - 1]) !in queue
    ensures Ordered(def, steps, n - 1, queue + [Target(def, steps[n - 1])], last + [n - 1])
  {
    hide Target;
    var t := Target(def, steps[n - 1]);
    assert LastUse(def, steps, t, n - 1);
    hide LastUse;
    var q, l := queue + [t], last + [n - 1];
    forall i | 0 <= i < |q| ensures n - 1 <= l[i] && LastUse(def, steps, q[i], l[i]) {
      if i < |queue| {
        assert q[i] == queue[i] && l[i] == last[i];
      }
    }
    assert forall k :: n <= k < |steps| && Target(def, steps[k]) != "" ==> Target(def, steps[k]) in q;
    assert q[|queue|] == t;
  }

  lemma {:induction false} BackwardOrders(def: Definition, steps: seq<string>, n: nat, queue: seq<string>, last: seq<int>)
    returns (all: seq<int>)
    requires n <= |steps| && Ordered(def, steps, n, queue, last)
    ensures Ordered(def, steps, 0, Backward(def, steps, n, queue), all)
  {
    hide Ordered, Target, StepById;
    if n == 0 {
      all := last;
    } else {
      var t := Target(def, steps[n - 1]);
      if t == "" || t in queue {
        OrderedSkip(def, steps, n, queue, last);
        all := BackwardOrders(def, steps, n - 1, queue, last);
      } else {
        OrderedPush(def, steps, n, queue, last);
        all := BackwardOrders(def, steps, n - 1, queue + [t], last + [n - 1]);
      }
    }
  }

  lemma {:induction false} BackwardExtends(def: Definition, steps: seq<string>, more: seq<string>, n: nat, queue: seq<string>)
    requires n <= |steps|
    ensures Backward(def, steps, n, queue) == Backward(def, steps + more, n, queue)
  {
    if n > 0 {
      BackwardExtends(def, steps, more, n - 1, Pushed(queue, Target(def, steps[n - 1])));
    }
  }

  /** The queue holds exactly the targets of the completed steps and the failed one, each once. It is ordered by the
      last completion among the steps that share a target, latest first; the failed step counts as the latest. */
  lemma CompensationQueueLaw(def: Definition, failed: string, completed: seq<string>) returns (last: seq<int>)
    ensures var queue := CompensationQueue(def, failed, completed);
      var steps := completed + [failed];
      && |last| == |queue|
      && (forall i :: 0 <= i < |queue| ==> LastUse(def, steps, queue[i], last[i]))
      && (forall i, j :: 0 <= i < j < |queue| ==> last[i] > last[j] && queue[i] != queue[j])
      && (forall t :: t in queue <==> t != "" && exists k :: 0 <= k < |steps| && Target(def, steps[k]) == t)
      && (Target(def, failed) != "" ==> queue != [] && queue[0] == Target(def, failed))
  {
    var steps := completed + [failed];
    var queue := CompensationQueue(def, failed, completed);
    assert Backward(def, steps, |steps|, []) == queue by {
      BackwardExtends(def, completed, [failed], |completed|, Pushed([], Target(def, failed)));
    }
    last := BackwardOrders(def, steps, |steps|, [], []);
    if Target(def, failed) != "" {
      assert steps[|completed|] == failed;
      var i :| 0 <= i < |queue| && queue[i] == Target(def, failed);
      assert last[i] == |completed|;
    }
  }
}
