/** The library's own error type, `CustomError`. */
module CustomErrors {
  import opened Basics

  const UnknownError: string := "Unknown Error."

  /** A `LocalizedError` that carries a message; `init(message:)` stores it as given. */
  datatype CustomError = CustomError(message: string) {

    /** `errorDescription`: the message, or a fixed fallback when the message is empty. */
    function ErrorDescription(): (d: Option<string>)
      ensures d.Some?
      ensures message != "" ==> d.value == message
      ensures message == "" ==> d.value == UnknownError
    {
      CompactMapPair(if message == "" then None else Some(message), Some(UnknownError));
      First(CompactMap([if message == "" then None else Some(message), Some(UnknownError)]))
    }
  }
}
