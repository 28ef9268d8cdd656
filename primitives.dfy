/**
 * The Java value types the core relies on: the ranges of `long` and `short`,
 * and `java.time.Instant` with its conversion to epoch milliseconds.
 */
module Primitives {
  import opened Wrappers

  const MIN_LONG: int := -0x8000_0000_0000_0000
  const MAX_LONG: int := 0x7fff_ffff_ffff_ffff

  /** A Java `long`. */
  type Long = x: int | -0x8000_0000_0000_0000 <= x <= 0x7fff_ffff_ffff_ffff

  /** A Java `short`. */
  type Short = x: int | -0x8000 <= x <= 0x7fff

  predicate IsLong(x: int) {
    MIN_LONG <= x <= MAX_LONG
  }

  const NANOS_PER_SECOND: int := 1_000_000_000
  const NANOS_PER_MILLI: int := 1_000_000
  const MILLIS_PER_SECOND: int := 1000

  /** The smallest and largest second a `java.time.Instant` can hold. */
  const MIN_SECOND: int := -31557014167219200
  const MAX_SECOND: int := 31556889864403199

  /** An instant as `java.time.Instant` stores it: seconds from the epoch and a nanosecond adjustment. */
  datatype EpochInstant = EpochInstant(seconds: int, nanos: int)

  /** The instants Java can represent: seconds within the supported range and 0 <= nanos < 10^9. */
  type Instant = i: EpochInstant |
    -31557014167219200 <= i.seconds <= 31556889864403199 && 0 <= i.nanos < 1_000_000_000
    witness EpochInstant(0, 0)

  /** The instant as a count of nanoseconds from the epoch (the exact mathematical value). */
  function EpochNanos(t: Instant): int {
    t.seconds * NANOS_PER_SECOND + t.nanos
  }

  /** `Math.multiplyExact`: the product, or nothing when it overflows a `long`. */
  function MultiplyExact(x: int, y: int): (r: Option<Long>)
    ensures r.Some? <==> IsLong(x * y)
    ensures r.Some? ==> r.value == x * y
  {
    if IsLong(x * y) then Some(x * y) else None
  }

  /** `Math.addExact`: the sum, or nothing when it overflows a `long`. */
  function AddExact(x: int, y: int): (r: Option<Long>)
    ensures r.Some? <==> IsLong(x + y)
    ensures r.Some? ==> r.value == x + y
  {
    if IsLong(x + y) then Some(x + y) else None
  }

  /** Splitting an instant's nanoseconds at the millisecond leaves the floor of its epoch milliseconds. */
  lemma FloorMillis(t: Instant)
    ensures EpochNanos(t) / NANOS_PER_MILLI == t.seconds * MILLIS_PER_SECOND + t.nanos / NANOS_PER_MILLI
  {
  }

  /**
   * `Instant.toEpochMilli`, branch for branch: the number of whole milliseconds from the
   * epoch, rounded towards negative infinity, or nothing where Java throws
   * `ArithmeticException` because the count does not fit a `long`.
   */
  function ToEpochMilli(t: Instant): (r: Option<Long>)
    ensures r.Some? <==> IsLong(EpochNanos(t) / NANOS_PER_MILLI)
    ensures r.Some? ==> r.value * NANOS_PER_MILLI <= EpochNanos(t) < (r.value + 1) * NANOS_PER_MILLI
  {
    FloorMillis(t);
    if t.seconds < 0 && t.nanos > 0 then
      match MultiplyExact(t.seconds + 1, MILLIS_PER_SECOND)
      case None => None
      case Some(millis) => AddExact(millis, t.nanos / NANOS_PER_MILLI - MILLIS_PER_SECOND)
    else
      match MultiplyExact(t.seconds, MILLIS_PER_SECOND)
      case None => None
      case Some(millis) => AddExact(millis, t.nanos / NANOS_PER_MILLI)
  }
}
