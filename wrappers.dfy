/** Option and Result values: the model's stand-in for nullable lookups and
    for C++ exceptions, which are returned instead of thrown. */
module Wrappers {
  datatype Option<T> = None | Some(value: T)

  datatype Result<T, E> = Success(value: T) | Failure(error: E) {
    predicate IsFailure() { Failure? }

    function PropagateFailure<U>(): Result<U, E>
      requires Failure?
    {
      Failure(error)
    }

    function Extract(): T
      requires Success?
    {
      value
    }
  }

  /** The result of a `void` C++ function that may throw. */
  datatype Outcome<E> = Pass | Fail(error: E)

  /** The ranges of the C++ integer types whose wrap-around the model writes out. */
  const UINT32_LIMIT: int := 0x1_0000_0000
  const UINT64_LIMIT: int := 0x1_0000_0000_0000_0000
  const INT64_LIMIT: int := 0x8000_0000_0000_0000
  const SIZE_T_LIMIT: int := 0x1_0000_0000_0000_0000

  /** A `uint8_t`. */
  type Byte = b: int | 0 <= b < 256
}

/** The exceptions the modelled code throws, each with its message. */
module Exceptions {
  datatype Error =
    | RuntimeError(msg: string)      // std::runtime_error
    | LogicError(msg: string)        // std::logic_error
    | OutOfRange(msg: string)        // std::out_of_range
    | LengthError(msg: string)       // std::length_error
    | InvalidArgument(msg: string)   // std::invalid_argument
    | ComError(msg: string, disconnect: bool)  // LtComException; `disconnect` is its DISCONNECTED flag
    | Malformed(what: string)        // a JSON accessor applied to a value of the wrong kind

  /** Decimal rendering of a natural number, as `std::to_string` and
      `LeddarUtils::LtStringUtils::IntToString` write it. */
  function Decimal(n: nat): (s: string)
    ensures |s| > 0
    ensures forall k :: 0 <= k < |s| ==> '0' <= s[k] <= '9'
    decreases n
  {
    if n < 10 then [DigitChar(n)] else Decimal(n / 10) + [DigitChar(n % 10)]
  }

  function DigitChar(d: nat): (c: char)
    requires d < 10
    ensures '0' <= c <= '9'
  {
    (('0' as int) + d) as char
  }

  /** Reads back a string of decimal digits. */
  function ParseDecimal(s: string): (n: nat)
    requires forall k :: 0 <= k < |s| ==> '0' <= s[k] <= '9'
    decreases |s|
  {
    if s == [] then 0 else 10 * ParseDecimal(s[..|s| - 1]) + ((s[|s| - 1] as int) - ('0' as int))
  }

  /** Decimal is the inverse of ParseDecimal: distinct numbers get distinct labels. */
  lemma {:induction false} DecimalRoundTrip(n: nat)
    ensures ParseDecimal(Decimal(n)) == n
    decreases n
  {
    var s := Decimal(n);
    if n >= 10 {
      DecimalRoundTrip(n / 10);
      assert s[..|s| - 1] == Decimal(n / 10);
    }
  }

  lemma DecimalInjective(a: nat, b: nat)
    requires Decimal(a) == Decimal(b)
    ensures a == b
  {
    DecimalRoundTrip(a);
    DecimalRoundTrip(b);
  }
}
