/** Option and Result, plus the error kinds the engine raises or absorbs. */
module Wrappers {

  datatype Option<+T> = None | Some(value: T) {
    function GetOr(default: T): T {
      match this
      case Some(v) => v
      case None => default
    }
  }

  /** The failures the Python code signals with exceptions. */
  datatype Error =
    | LockTimeout(lockKey: string)      // DistributedLock.acquire gave up
    | StorageUnavailable                // retries of a Redis round trip exhausted
    | StorageFailure                    // any other error raised inside a storage call
    | TurnNotFound(turnId: string)      // add_assistant_message on an unknown turn
    | InvalidStateVersion               // a stored "version" that is not an integer
    | InvalidChatState                  // a stored chat state that is not a JSON object
    | AgentFailure                      // AgentException raised by the conversation loop

  datatype Result<+R> = Ok(value: R) | Err(error: Error) {
    predicate IsFailure() { Err? }
    function PropagateFailure<U>(): Result<U>
      requires Err?
    {
      Err(error)
    }
    function Extract(): R
      requires Ok?
    {
      value
    }
  }

  /** A result without a value: `Pass` or `Fail(error)`. */
  datatype Outcome = Pass | Fail(error: Error) {
    predicate IsFailure() { Fail? }
    function PropagateFailure(): Outcome
      requires Fail?
    {
      this
    }
  }
}
