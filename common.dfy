/** Shared vocabulary of the shop model: optional values, the exception kinds the
    services throw, a result type that carries them, and the decimal rendering
    that Java's string concatenation applies to a `Long` id. */
module Common {

  datatype Option<+T> = None | Some(value: T)

  /** The exception classes the core throws.  `DuplicateKey` stands for the
      store's primary-key violation (a second row under an existing key). */
  datatype ErrorKind =
    | EntityNotFound
    | DataProcessing
    | Registration
    | IllegalArgument
    | ConstraintViolation
    | AccessDenied
    | DuplicateKey

  /** A thrown exception: its class and its message. */
  datatype Failure = Failure(kind: ErrorKind, message: string)

  datatype Result<+T> = Ok(value: T) | Err(failure: Failure)

  type Id = nat

  function DigitChar(d: nat): char
    requires d < 10
  {
    "0123456789"[d]
  }

  /** The decimal text of an id, as `"..." + id` renders it. */
  function IdToString(n: nat): (s: string)
    ensures |s| >= 1
    ensures forall i :: 0 <= i < |s| ==> '0' <= s[i] <= '9'
    decreases n
  {
    if n < 10 then [DigitChar(n)] else IdToString(n / 10) + [DigitChar(n % 10)]
  }
}
