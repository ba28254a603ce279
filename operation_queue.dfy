/** Foundation's `OperationQueue`, reduced to the parts the library sets and calls. */
module Operations {

  /** The value Foundation gives `maxConcurrentOperationCount` until it is set (no explicit limit). */
  const DefaultMaxConcurrentOperationCount: int := -1

  class OperationQueue {
    var maxConcurrentOperationCount: int
    /** How many operations were handed to `addOperation`, over the queue's life. */
    ghost var added: nat
    /** How many of them, counted from the first, `cancelAllOperations` has asked to cancel. */
    ghost var cancelled: nat

    constructor ()
      ensures maxConcurrentOperationCount == DefaultMaxConcurrentOperationCount
      ensures added == 0 && cancelled == 0
    {
      maxConcurrentOperationCount := DefaultMaxConcurrentOperationCount;
      added, cancelled := 0, 0;
    }

    method AddOperation()
      modifies this
      ensures added == old(added) + 1
      ensures cancelled == old(cancelled) && maxConcurrentOperationCount == old(maxConcurrentOperationCount)
    {
      added := added + 1;
    }

    /** Asks every operation added so far to cancel; it does not remove them or wait for them. */
    method CancelAllOperations()
      modifies this
      ensures cancelled == added == old(added)
      ensures maxConcurrentOperationCount == old(maxConcurrentOperationCount)
    {
      cancelled := added;
    }
  }
}
