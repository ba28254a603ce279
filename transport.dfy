/** What a data task hands back, and how both loaders turn it into a result. */
module Transport {
  import opened Basics
  import opened CustomErrors

  type Bytes = seq<bv8>

  /** Swift's `Error` as far as the loaders see it: an opaque transport error, or a `CustomError`. */
  datatype Error = TransportError(code: int) | Custom(custom: CustomError)

  /** The `(Data?, URLResponse?, Error?)` triple of a data task's completion; the response metadata is never read. */
  datatype Response = Response(data: Option<Bytes>, error: Option<Error>)

  /**
   * The result a loader builds from a finished task: an error wins over any data, data that `decode`
   * accepts is a success, and everything else is the failure `invalid`.
   */
  function Classify<V>(response: Response, decode: Bytes -> Option<V>, invalid: CustomError): (r: Result<V, Error>)
    ensures r.Success? <==> response.error.None? && response.data.Some? && decode(response.data.value).Some?
    ensures r.Success? ==> decode(response.data.value) == Some(r.value)
    ensures response.error.Some? ==> r == Failure(response.error.value)
    ensures response.error.None? && r.Failure? ==> r.error == Custom(invalid)
  {
    match response.error
    case Some(e) => Failure(e)
    case None =>
      match response.data
      case Some(data) =>
        (match decode(data)
         case Some(v) => Success(v)
         case None => Failure(Custom(invalid)))
      case None => Failure(Custom(invalid))
  }
}
