/**
  Aggregation intervals (models/models.go): the duration of each interval
  in milliseconds and the bucketing of epoch-millisecond timestamps.
 */
module Intervals {

  type Interval = string

  const Interval1m: Interval := "1m"
  const Interval5m: Interval := "5m"
  const Interval15m: Interval := "15m"
  const Interval1h: Interval := "1h"
  const Interval4h: Interval := "4h"
  const Interval1d: Interval := "1d"

  /** The intervals the duration switch names. */
  const KnownIntervals: set<Interval> := DurationTable.Keys

  const MinuteMs: int := 60_000
  const HourMs: int := 60 * MinuteMs
  const DayMs: int := 24 * HourMs

  /**
    Days from Go's zero Time (January 1, year 1, UTC) to the Unix epoch,
    computed as Go's time package does: 719162.
   */
  const UnixToInternalDays: int := 1969 * 365 + 1969 / 4 - 1969 / 100 + 1969 / 400

  /** Duration of an interval in milliseconds; an unknown interval counts as one minute. */
  function GetIntervalDuration(interval: Interval): (d: int)
    ensures d > 0 && d % MinuteMs == 0 && DayMs % d == 0
    ensures interval !in KnownIntervals ==> d == MinuteMs
  {
    if interval == Interval1m then MinuteMs
    else if interval == Interval5m then 5 * MinuteMs
    else if interval == Interval15m then 15 * MinuteMs
    else if interval == Interval1h then HourMs
    else if interval == Interval4h then 4 * HourMs
    else if interval == Interval1d then 24 * HourMs
    else MinuteMs
  }

  /** The table the duration switch encodes, written out independently. */
  const DurationTable: map<Interval, int> := map[
    "1m" := 60_000, "5m" := 300_000, "15m" := 900_000,
    "1h" := 3_600_000, "4h" := 14_400_000, "1d" := 86_400_000]

  lemma DurationMatchesTable(interval: Interval)
    ensures interval in DurationTable ==> GetIntervalDuration(interval) == DurationTable[interval]
    ensures interval !in DurationTable ==> GetIntervalDuration(interval) == 60_000
  {
  }

  /** A negative multiple of a positive d has a negative factor. */
  lemma NegativeFactor(k: int, d: int)
    requires d > 0 && k * d < 0
    ensures k < 0
  {
  }

  /** Multiples of a positive d are ordered as their factors: a * d < (b + 1) * d forces a <= b. */
  lemma FactorsOrdered(a: int, b: int, d: int)
    requires d > 0 && a * d < b * d + d
    ensures a <= b && a * d <= b * d
  {
    assert (a - b - 1) * d == a * d - b * d - d;
    NegativeFactor(a - b - 1, d);
    assert b * d - a * d == (b - a) * d;
  }

  /** Euclidean division is unique: a quotient and a remainder in [0, d) are x / d and x % d. */
  lemma DivModUnique(x: int, d: int, q: int, r: int)
    requires d > 0 && x == q * d + r && 0 <= r < d
    ensures q == x / d && r == x % d
  {
    var q0, r0 := x / d, x % d;
    assert x == q0 * d + r0;
    FactorsOrdered(q, q0, d);
    FactorsOrdered(q0, q, d);
  }

  /** Adding whole multiples of d leaves the remainder unchanged. */
  lemma ModShift(x: int, n: int, d: int)
    requires d > 0
    ensures (x + n * d) % d == x % d
  {
    assert x + n * d == (x / d + n) * d + x % d;
    DivModUnique(x + n * d, d, x / d + n, x % d);
  }

  /** Taking off the remainder leaves a multiple. */
  lemma FloorIsMultiple(x: int, d: int)
    requires d > 0
    ensures (x - x % d) % d == 0
  {
    assert x - x % d == (x / d) * d + 0;
    DivModUnique(x - x % d, d, x / d, 0);
  }

  /**
    Go's Time.Truncate rounds down to a multiple of the duration counted
    from the zero Time; the timestamp is first moved onto that scale.
   */
  function RoundToInterval(timestamp: int, interval: Interval): (r: int)
    ensures var d := GetIntervalDuration(interval); r % d == 0 && r <= timestamp < r + d
  {
    var d := GetIntervalDuration(interval);
    var sinceZeroTime := timestamp + UnixToInternalDays * DayMs;
    EpochAligned(timestamp, d);
    FloorIsMultiple(timestamp, d);
    timestamp - sinceZeroTime % d
  }

  /**
    Every duration divides a day and the zero Time lies a whole number of
    days before the Unix epoch, so both scales have the same buckets.
   */
  lemma EpochAligned(timestamp: int, d: int)
    requires d > 0 && DayMs % d == 0
    ensures (timestamp + UnixToInternalDays * DayMs) % d == timestamp % d
  {
    var perDay := DayMs / d;
    assert DayMs == perDay * d;
    assert UnixToInternalDays * DayMs == (UnixToInternalDays * perDay) * d;
    ModShift(timestamp, UnixToInternalDays * perDay, d);
  }

  /** Bucketing is plain floor arithmetic on Unix milliseconds. */
  lemma RoundIsEpochFloor(timestamp: int, interval: Interval)
    ensures RoundToInterval(timestamp, interval)
         == timestamp - timestamp % GetIntervalDuration(interval)
  {
    EpochAligned(timestamp, GetIntervalDuration(interval));
  }

  /** The bucket start is the greatest multiple of the duration not after the timestamp. */
  lemma RoundIsGreatestMultiple(timestamp: int, interval: Interval, m: int)
    requires m % GetIntervalDuration(interval) == 0 && m <= timestamp
    ensures m <= RoundToInterval(timestamp, interval)
  {
    var d := GetIntervalDuration(interval);
    var r := RoundToInterval(timestamp, interval);
    var a, b := m / d, r / d;
    assert m == a * d;
    assert r == b * d;
    FactorsOrdered(a, b, d);
  }

  /** A bucket start is its own bucket start. */
  lemma RoundIdempotent(timestamp: int, interval: Interval)
    ensures RoundToInterval(RoundToInterval(timestamp, interval), interval)
         == RoundToInterval(timestamp, interval)
  {
    var r := RoundToInterval(timestamp, interval);
    RoundIsEpochFloor(r, interval);
  }

  /** Later timestamps never fall into earlier buckets. */
  lemma RoundMonotone(t1: int, t2: int, interval: Interval)
    requires t1 <= t2
    ensures RoundToInterval(t1, interval) <= RoundToInterval(t2, interval)
  {
    RoundIsGreatestMultiple(t2, interval, RoundToInterval(t1, interval));
  }

  /** An interval outside the table buckets by the minute. */
  lemma UnknownIntervalIsMinute(timestamp: int, interval: Interval)
    requires interval !in KnownIntervals
    ensures RoundToInterval(timestamp, interval) == RoundToInterval(timestamp, Interval1m)
  {
  }

  /** 2024-01-01T12:34:56.789Z at one minute, five minutes, one hour and one day. */
  lemma RoundExamples()
    ensures RoundToInterval(1_704_112_496_789, Interval1m) == 1_704_112_440_000  // 12:34:00
    ensures RoundToInterval(1_704_112_496_789, Interval5m) == 1_704_112_200_000  // 12:30:00
    ensures RoundToInterval(1_704_112_496_789, Interval1h) == 1_704_110_400_000  // 12:00:00
    ensures RoundToInterval(1_704_112_496_789, Interval1d) == 1_704_067_200_000  // 00:00:00
    ensures RoundToInterval(1_704_112_496_789, "1s") == 1_704_112_440_000
  {
    RoundIsEpochFloor(1_704_112_496_789, Interval1m);
    RoundIsEpochFloor(1_704_112_496_789, Interval5m);
    RoundIsEpochFloor(1_704_112_496_789, Interval1h);
    RoundIsEpochFloor(1_704_112_496_789, Interval1d);
    RoundIsEpochFloor(1_704_112_496_789, "1s");
  }
}
