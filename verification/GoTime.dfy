/** Go's 64-bit durations. Instants are nanoseconds since the Unix epoch. */
module GoTime {
  const INT64_LIMIT: int := 0x8000_0000_0000_0000
  const SECOND: int := 1_000_000_000

  /** The zero time.Time, 1 January of year 1. */
  const ZERO_TIME: int := -62_135_596_800 * SECOND

  predicate IsInt64(x: int) { -INT64_LIMIT <= x < INT64_LIMIT }

  /** Two's-complement wrap-around of int64 arithmetic. */
  function Int64(x: int): (r: int)
    ensures IsInt64(r) && (IsInt64(x) ==> r == x)
  {
    (x + INT64_LIMIT) % (2 * INT64_LIMIT) - INT64_LIMIT
  }

  /** time.Time.Sub saturates at the ends of the range. */
  function Sub(t: int, u: int): int {
    if t - u < -INT64_LIMIT then -INT64_LIMIT
    else if t - u >= INT64_LIMIT then INT64_LIMIT - 1
    else t - u
  }

  function Min(a: int, b: int): int { if a < b then a else b }
  function Max(a: int, b: int): int { if a < b then b else a }
}
