/** Values shared by the order, payment and product services: optional values,
    the exceptions the services throw, Java's 32-bit `Integer` arithmetic and
    nullable Java strings. */
module Common {

  datatype Option<+T> = None | Some(value: T)

  /** The exceptions a service call can end in. */
  datatype Failure =
    | NotFound             // NotFoundException: no entity with that id or key
    | Business             // BusinessException: duplicate key, wrong status, insufficient stock
    | IllegalState         // IllegalStateException: cancelling a shipped or delivered order
    | ConstraintViolation  // the store's unique index or unique column rejects an insert
    | Malformed            // the message could not be read into the expected event class
    | Exhausted            // a retry policy that allows no attempt at all

  /** A call that either returns a value or throws. */
  datatype Result<+T> = Ok(value: T) | Err(error: Failure)

  /** What a message handler did with a message before acknowledging it. */
  datatype Disposition = Processed | Swallowed(failure: Failure)

  /** What a listener makes of its handler's outcome: a failure is logged
      and swallowed, never rethrown. */
  function DispositionOf<T>(r: Result<T>): (d: Disposition)
    ensures d == Processed <==> r.Ok?
    ensures r.Err? ==> d == Swallowed(r.error)
  {
    match r
    case Ok(_) => Processed
    case Err(f) => Swallowed(f)
  }

  /** `BigDecimal`: exact decimal arithmetic, so a rational number. */
  type Decimal = real

  const INT32_MIN: int := -0x8000_0000
  const INT32_MAX: int := 0x7fff_ffff
  const TWO_TO_32: int := 0x1_0000_0000

  /** Java's `int`: the values an `Integer` field can hold. */
  type Int32 = x: int | INT32_MIN <= x <= INT32_MAX

  /** Java's `int` addition and subtraction: the exact result, wrapped into
      32 bits in two's complement. */
  function Wrap32(x: int): (r: Int32)
    ensures INT32_MIN <= x <= INT32_MAX ==> r == x
    ensures (x - r) % TWO_TO_32 == 0
  {
    var r := (x - INT32_MIN) % TWO_TO_32 + INT32_MIN;
    assert x - r == ((x - INT32_MIN) / TWO_TO_32) * TWO_TO_32;
    r
  }

  /** A Java `String` that may be null. */
  type JString = Option<string>

  /** Java's `prefix + s`, which renders a null `s` as "null". */
  function Concat(prefix: string, s: JString): string {
    prefix + (if s.Some? then s.value else "null")
  }

  function DigitChar(d: nat): char
    requires d < 10
  {
    "0123456789"[d]
  }

  function Digits(n: nat): string
    decreases n
  {
    if n < 10 then [DigitChar(n)] else Digits(n / 10) + [DigitChar(n % 10)]
  }

  /** Java's decimal rendering of a `Long` in string concatenation. */
  function LongToString(n: int): string {
    if n < 0 then "-" + Digits(-n) else Digits(n)
  }
}
