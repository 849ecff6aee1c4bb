/** The few pieces of Python's runtime behaviour the CPU depends on: how a list
    resolves an integer index, and the exceptions an operation can raise. */
module Python {

  datatype Option<T> = None | Some(value: T)

  /** The exceptions the CPU can raise: an out-of-range list index, and the
      plain `Exception(message)` raised by the ALU. */
  datatype Exception = IndexError | PlainException(message: string)

  /** A value, or the exception raised while computing it. */
  datatype Result<T> = Ok(value: T) | Raise(exc: Exception)

  /** Python accepts `xs[i]` on a list of length n exactly when -n <= i < n;
      any other index raises IndexError. */
  predicate InBounds(i: int, n: nat) {
    -(n as int) <= i < n
  }

  /** The cell that an accepted index designates: a negative index counts
      from the end of the list. */
  function Resolve(i: int, n: nat): (k: nat)
    requires InBounds(i, n)
    ensures k < n
    ensures k == i || k == i + n
  {
    if i < 0 then i + n else i
  }
}
