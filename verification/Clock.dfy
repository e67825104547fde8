/** Instants and durations of the runtime.

    Both are integers counting nanoseconds. An instant counts from the zero
    time of the source's clock library (1 January of year 1), so that the zero
    instant is exactly the "unset" time the source tests for.
 */
module Clock {

  type Time = int
  type Duration = int

  const ZERO: Time := 0

  const SECOND: Duration := 1_000_000_000
  const MINUTE: Duration := 60_000_000_000
  const TEN_MINUTES: Duration := 600_000_000_000
  const HOUR: Duration := 3_600_000_000_000
  const THREE_HOURS: Duration := 10_800_000_000_000
  const DAY: Duration := 86_400_000_000_000

  // Days from the zero instant to 1 January 2000.
  const YEAR_2000: Time := 63_082_281_600_000_000_000

  function Max(a: int, b: int): int {
    if a < b then b else a
  }

  function Min(a: int, b: int): int {
    if a < b then a else b
  }
}
