/** Success/failure carriers used for the Java exceptions of the model. */
module Wrappers {

  datatype Option<+T> = None | Some(value: T)

  datatype Result<+R, +E> = Success(value: R) | Failure(error: E)

  /** The outcome of a `void` Java method: it returns normally or throws. */
  datatype Outcome<+E> = Pass | Fail(error: E)

  /** Forgets the value of a successful result, as a `void` caller does. */
  function Discard<R, E>(r: Result<R, E>): (o: Outcome<E>)
    ensures o.Pass? <==> r.Success?
    ensures r.Failure? ==> o == Fail(r.error)
  {
    match r
    case Success(_) => Pass
    case Failure(e) => Fail(e)
  }
}
