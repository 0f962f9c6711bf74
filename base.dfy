/** Java and driver value types that more than one model uses. */
module Base {

  /** A Java reference that may be `null`. */
  datatype Option<+T> = None | Some(value: T)

  /** A value, or the exception the Java code throws instead of returning it. */
  datatype Result<+T, +E> = Success(value: T) | Failure(error: E) {

    predicate IsFailure() {
      Failure?
    }

    function PropagateFailure<U>(): Result<U, E>
      requires Failure?
    {
      Failure(error)
    }

    function Extract(): T
      requires Success?
    {
      value
    }
  }

  /** A Java `int`. */
  newtype int32 = x: int | -0x8000_0000 <= x < 0x8000_0000

  /**
   * The numeric part of a server version (`com.datastax.driver.core.VersionNumber`).
   * The components are parsed from decimal digits, so none is negative.
   */
  datatype VersionNumber = VersionNumber(major: nat, minor: nat, patch: nat)
}
