/** Optional values and results: Java's `Optional` and "returns or throws". */
module Wrappers {

  datatype Option<+T> = None | Some(value: T)

  datatype Result<+T, +E> = Success(value: T) | Failure(error: E)

  /** `Optional.ofNullable`: a Java null becomes an empty optional. */
  function OfNullable<T>(x: T, isNull: bool): (r: Option<T>)
    ensures r.Some? <==> !isNull
    ensures r.Some? ==> r.value == x
  {
    if isNull then None else Some(x)
  }
}

/** What a Java call can throw, as far as the job handler tells throwables apart. */
module Throwables {

  datatype Thrown =
    | LambdaInvocationError(message: string)  // io.zeebe.lambda.LambdaInvocationError
    | Other(message: string)                  // any other Throwable, with its getMessage()
}
