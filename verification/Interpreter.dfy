/** The sequential interpreter: what one worker that never crashes would do with an instance, one event at a time.
    A step is started (StepForCurrent), then finished (NextAfter) or given up; a given-up instance compensates. */
module Interpreter {
  import opened Workflow
  import opened Regions
  import opened Machines
  import opened Saga

  /** Ready: the current step is committed but not started. */
  datatype Phase = Ready(current: Option<string>) | Active(step: string) | Undoing | Done(success: bool)

  /** `done` holds the steps with status completed and the next step their output names. It matters only while normal
      steps run. */
  datatype Progress = Progress(
    phase: Phase, completed: seq<string>, done: map<string, string>, forks: Forks, queue: seq<string>)

  const INITIAL: Progress := Progress(Ready(None), [], map[], map[], [])

  datatype Event =
    | Start(pick: Pick)                   // the current step, or the one after it, is marked running
    | Halt(pick: Pick)                    // there is no step to run
    | Finish(result: Result, pick: Pick)  // the active step succeeded
    | GiveUp(pick: Pick)                  // the active step failed and has no retry left
    | Undo                                // the first step of the queue succeeded
    | UndoFail                            // compensation cannot go on

  /** The results the executors of each kind of step may return. */
  predicate MayResult(step: Step, r: Result) {
    match step.kind
    case HttpRequest => r == Result("", "")
    case Delay => r == Result("", "")
    case Transform => r.next == "" && (step.config.resultKey != "next_step" ==> r.outputNext == "")
    case Condition => r.outputNext == r.next && (r.next == step.config.thenRef || r.next == step.config.elseRef)
    case Fork => Heads(step) != [] && r == Result(Heads(step)[0], Heads(step)[0])
    case Join => r == Result(step.config.next, step.config.next)
  }

  function Resolved(m: Machine, a: Progress, pick: Pick): Move
    requires a.phase.Ready? && ValidPick(a.forks, pick)
  {
    Resolve(m, a.done, a.forks, a.phase.current, pick)
  }

  ghost predicate Enabled(m: Machine, a: Progress, e: Event) {
    match e
    case Start(pick) =>
      a.phase.Ready? && ValidPick(a.forks, pick) && CanResolve(m, a.done, a.forks, a.phase.current, pick) &&
      Resolved(m, a, pick).step.Some?
    case Halt(pick) =>
      a.phase.Ready? && ValidPick(a.forks, pick) && CanResolve(m, a.done, a.forks, a.phase.current, pick) &&
      Resolved(m, a, pick).step.None?
    case Finish(result, pick) =>
      a.phase.Active? && StepById(m.def.steps, a.phase.step).Some? &&
      var step := StepById(m.def.steps, a.phase.step).value;
      MayResult(step, result) && CanPick(step, a.forks, pick)
    case GiveUp(pick) => a.phase.Active? && ValidPick(a.forks, pick) && IsPick(a.forks, a.phase.step, pick)
    case Undo => a.phase.Undoing? && a.queue != []
    case UndoFail => a.phase.Undoing?
  }

  function Ended(a: Progress, success: bool): Progress {
    a.(phase := Done(success), done := map[])
  }

  function Started(a: Progress, step: string, forks: Forks): Progress {
    a.(phase := Active(step), done := a.done - {step}, forks := forks)
  }

  /** The machine moved on after `id` finished. */
  function Moved(a: Progress, id: string, outputNext: string, move: Move): Progress {
    var b := a.(completed := AppendNew(a.completed, id), forks := move.forks);
    if move.step.None? then Ended(b, true)
    else b.(phase := Ready(Some(move.step.value.id)), done := a.done[id := outputNext])
  }

  function Abandoned(m: Machine, a: Progress, id: string, pick: Pick): Progress
    requires ValidPick(a.forks, pick)
  {
    var queue := CompensationQueue(m.def, id, a.completed);
    var b := a.(forks := MarkBranchFailed(a.forks, pick), queue := queue, done := map[]);
    if queue == [] then Ended(b, false) else b.(phase := Undoing)
  }

  function Undone(a: Progress): Progress
    requires a.queue != []
  {
    var b := a.(completed := AppendNew(a.completed, a.queue[0]), queue := a.queue[1..]);
    if b.queue == [] then Ended(b, false) else b
  }

  ghost function Next(m: Machine, a: Progress, e: Event): Progress
    requires Enabled(m, a, e)
  {
    match e
    case Start(pick) => Started(a, Resolved(m, a, pick).step.value.id, Resolved(m, a, pick).forks)
    case Halt(pick) => Ended(a.(forks := Resolved(m, a, pick).forks), true)
    case Finish(result, pick) =>
      var step := StepById(m.def.steps, a.phase.step).value;
      Moved(a, step.id, result.outputNext, NextAfter(m, step, a.forks, result.next, pick))
    case GiveUp(pick) => Abandoned(m, a, a.phase.step, pick)
    case Undo => Undone(a)
    case UndoFail => Ended(a, false)
  }

  /** The events lead from the initial one to `a`. */
  ghost predicate Run(m: Machine, events: seq<Event>, a: Progress)
    decreases |events|
  {
    if events == [] then a == INITIAL
    else exists b :: RunStep(m, events, b, a)
  }

  ghost predicate RunStep(m: Machine, events: seq<Event>, b: Progress, a: Progress)
    requires events != []
    decreases |events|, 0
  {
    var last := |events| - 1;
    Enabled(m, b, events[last]) && a == Next(m, b, events[last]) && Run(m, events[..last], b)
  }

  lemma RunExtends(m: Machine, events: seq<Event>, a: Progress, e: Event)
    requires Run(m, events, a) && Enabled(m, a, e)
    ensures Run(m, events + [e], Next(m, a, e))
  {
    var longer := events + [e];
    assert longer[..|events|] == events;
    assert RunStep(m, longer, a, Next(m, a, e));
  }

  /** Nothing is given up or compensated. */
  predicate Unfailing(events: seq<Event>) {
    forall i :: 0 <= i < |events| ==> events[i].Start? || events[i].Finish? || events[i].Halt?
  }

  /** A run without failures. */
  ghost predicate SmoothRun(m: Machine, events: seq<Event>, a: Progress) {
    Run(m, events, a) && Unfailing(events)
  }
}
