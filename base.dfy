/**
 * Shared vocabulary of the model: optional values, results, identifiers,
 * timestamps and bytes.
 */
module Base {

  datatype Option<T> = None | Some(value: T)
  {
    /** Rust's `Option::or`: this value if present, otherwise `other`. */
    function Or(other: Option<T>): Option<T>
    {
      if Some? then this else other
    }

    /** Rust's `Option::unwrap_or`. */
    function UnwrapOr(default: T): T
    {
      if Some? then value else default
    }
  }

  /** Result of a fallible step; `E` is the error kind. */
  datatype Result<T, E> = Ok(value: T) | Err(error: E)

  /** An `AppError`: only that a step failed, and why, matters to the callers. */
  datatype AppError = AppError(reason: string)

  /** `AppResult<T>`. */
  type AppResult<T> = Result<T, AppError>

  /** How a unit of background work ends: `Ok(())`, `Err(_)`, or a panic. */
  datatype Outcome = Done | Failed | Panicked

  /** A 128-bit UUID. */
  type Uuid = x: nat | x < 0x1_0000_0000_0000_0000_0000_0000_0000_0000

  /** `Uuid::nil()` (and `Uuid::default()`). */
  const NIL: Uuid := 0

  /** A point in time; only comparisons and differences are used. */
  type Timestamp = int

  type Byte = x: int | 0 <= x < 256

  const U32_LIMIT: int := 0x1_0000_0000

  /** Rust's `u32`. */
  type U32 = x: int | 0 <= x < U32_LIMIT

  /** Rust's `i32`. */
  type I32 = x: int | -0x8000_0000 <= x < 0x8000_0000

  /** Rust's `as u32` on an integer: keep the low 32 bits (two's complement). */
  function AsU32(x: int): (r: U32)
    ensures 0 <= x < U32_LIMIT ==> r == x
    ensures (r - x) % U32_LIMIT == 0
  {
    x % U32_LIMIT
  }

  /** Rust's integer `/`: the quotient rounded toward zero. */
  function TruncDiv(a: int, b: int): (q: int)
    requires b > 0
    ensures 0 <= a ==> 0 <= a - q * b < b
    ensures a < 0 ==> -b < a - q * b <= 0
  {
    if a >= 0 then a / b else -((-a) / b)
  }

  /** A `chrono::Duration`, in nanoseconds. */
  type Duration = int

  const NANOS_PER_SECOND: int := 1_000_000_000

  /** `chrono::Duration::seconds`. */
  function Seconds(s: int): Duration
  {
    s * NANOS_PER_SECOND
  }

  /** `chrono::Duration::num_seconds`: whole seconds, rounded toward zero. */
  function NumSeconds(d: Duration): (s: int)
    ensures -NANOS_PER_SECOND < d - Seconds(s) < NANOS_PER_SECOND
    ensures d >= 0 ==> 0 <= d - Seconds(s)
    ensures d < 0 ==> d - Seconds(s) <= 0
  {
    TruncDiv(d, NANOS_PER_SECOND)
  }

  /** A whole number of seconds survives `num_seconds`. */
  lemma NumSecondsOfSeconds(s: int)
    ensures NumSeconds(Seconds(s)) == s
  {
    var d := Seconds(s);
    var q := NumSeconds(d);
    assert -NANOS_PER_SECOND < (s - q) * NANOS_PER_SECOND < NANOS_PER_SECOND;
  }

  /** A deterministic string hash into UUIDs (`str_to_uuid`, `uri_to_uuid`). */
  type Hasher = string -> Uuid

  /** The last element of a sequence, as Rust's `Vec::pop` returns it. */
  function Last<T>(s: seq<T>): (r: Option<T>)
    ensures r.None? <==> s == []
    ensures r.Some? ==> r.value == s[|s| - 1]
  {
    if s == [] then None else Some(s[|s| - 1])
  }

  /** The first element of a sequence (`Vec::first`, `into_iter().next()`). */
  function First<T>(s: seq<T>): (r: Option<T>)
    ensures r.None? <==> s == []
    ensures r.Some? ==> r.value == s[0]
  {
    if s == [] then None else Some(s[0])
  }
}
