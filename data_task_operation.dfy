/** `DataTaskOperation`: an asynchronous `Operation` that runs one URL session data task. */
module DataTask {
  import opened Transport

  datatype State = Ready | Executing | Finished

  /** What an operation does that can be seen from outside it, in the order it does it. */
  datatype Effect =
    | StateSet(to: State)            // an assignment to `state`
    | TaskResumed                    // `task.resume()`
    | TaskCancelled                  // `task.cancel()`
    | HandlerCalled(response: Response)  // the user's completion handler ran

  /** The state left by a run of effects: the last one assigned, `Ready` before any. */
  function StateAfter(effects: seq<Effect>): State
  {
    if |effects| == 0 then Ready
    else match effects[|effects| - 1]
      case StateSet(s) => s
      case _ => StateAfter(effects[..|effects| - 1])
  }

  /** Appending an assignment sets the state; appending anything else keeps it. */
  lemma StateAfterAppend(effects: seq<Effect>, e: Effect)
    ensures StateAfter(effects + [e]) == if e.StateSet? then e.to else StateAfter(effects)
  {
    assert (effects + [e])[..|effects|] == effects;
  }

  class DataTaskOperation {
    var state: State
    /** `Operation.isCancelled`, set by `super.cancel()`. */
    var isCancelled: bool
    ghost var effects: seq<Effect>
    /** Whether `init` was given a `completionHandler`; the closure calls it through optional chaining. */
    const hasHandler: bool

    ghost predicate Valid()
      reads this
    {
      state == StateAfter(effects)
    }

    /** `init(session:url:completionHandler:)`: the data task is created but not resumed. */
    constructor (hasHandler: bool)
      ensures Valid()
      ensures state == Ready && !isCancelled && effects == []
      ensures this.hasHandler == hasHandler
    {
      this.hasHandler := hasHandler;
      state := Ready;
      isCancelled := false;
      effects := [];
    }

    predicate IsReady()
      reads this
    {
      state == Ready
    }

    predicate IsExecuting()
      reads this
    {
      state == Executing
    }

    predicate IsFinished()
      reads this
    {
      state == Finished
    }

    /** `start()`: a cancelled operation finishes without resuming its task; otherwise it runs it. */
    method Start()
      requires Valid()
      modifies this
      ensures Valid()
      ensures isCancelled == old(isCancelled)
      ensures old(isCancelled) ==> state == Finished && effects == old(effects) + [StateSet(Finished)]
      ensures !old(isCancelled) ==> state == Executing && effects == old(effects) + [StateSet(Executing), TaskResumed]
    {
      if isCancelled {
        StateAfterAppend(effects, StateSet(Finished));
        state := Finished;
        effects := effects + [StateSet(Finished)];
        return;
      }
      StateAfterAppend(effects, StateSet(Executing));
      state := Executing;
      effects := effects + [StateSet(Executing)];
      StateAfterAppend(effects, TaskResumed);
      effects := effects + [TaskResumed];
    }

    /** `cancel()`: sets the cancelled flag and cancels the task, in whatever state the operation is. */
    method Cancel()
      requires Valid()
      modifies this
      ensures Valid()
      ensures isCancelled && state == old(state)
      ensures effects == old(effects) + [TaskCancelled]
    {
      isCancelled := true;
      StateAfterAppend(effects, TaskCancelled);
      effects := effects + [TaskCancelled];
    }

    /**
     * The data task's completion closure: the user's handler, when there is one, runs first, then the
     * operation finishes.
     */
    method TaskCompleted(response: Response)
      requires Valid()
      modifies this
      ensures Valid()
      ensures isCancelled == old(isCancelled) && state == Finished
      ensures effects == old(effects) + (if hasHandler then [HandlerCalled(response)] else []) + [StateSet(Finished)]
    {
      if hasHandler {
        StateAfterAppend(effects, HandlerCalled(response));
        effects := effects + [HandlerCalled(response)];
      }
      StateAfterAppend(effects, StateSet(Finished));
      state := Finished;
      effects := effects + [StateSet(Finished)];
    }
  }

  /** `isReady`, `isExecuting` and `isFinished`: exactly one holds at any time. */
  lemma ExactlyOneFlag(op: DataTaskOperation)
    ensures (if op.IsReady() then 1 else 0) + (if op.IsExecuting() then 1 else 0) + (if op.IsFinished() then 1 else 0) == 1
  {
  }
}
