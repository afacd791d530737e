/** The standard values the source works with: Swift's `Optional` and
    `Int64`, and the `Result` enum of Exposure/Request.swift. */
module Wrappers {

  /** Swift's `Int64`. */
  type Int64 = x: int | -0x8000_0000_0000_0000 <= x < 0x8000_0000_0000_0000

  datatype Option<+T> = None | Some(value: T)

  /** `Result<Value>`: a value on success, an error on failure. */
  datatype Result<+T, +E> = Success(value: T) | Failure(error: E) {

    /** `Result.value`: the associated value on success, nil otherwise. */
    function Value(): (r: Option<T>)
      ensures r.Some? <==> Success?
      ensures r.Some? ==> r.value == value
    {
      match this
      case Success(v) => Some(v)
      case Failure(_) => None
    }

    /** `Result.error`: the associated error on failure, nil otherwise. */
    function Error(): (r: Option<E>)
      ensures r.Some? <==> Failure?
      ensures r.Some? ==> r.value == error
    {
      match this
      case Success(_) => None
      case Failure(e) => Some(e)
    }
  }

  /** Exactly one of `value` and `error` is set. */
  lemma ValueXorError<T, E>(r: Result<T, E>)
    ensures r.Value().Some? != r.Error().Some?
  {
  }
}
