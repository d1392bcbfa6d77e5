/** The parts of `java.time` the app relies on: `Instant` with its ordering,
    `minusSeconds`, `ofEpochSecond`, and `Duration.between(..).toDays()`.
    Values are unbounded integers: the 64-bit range of `Instant` and `Duration`
    is not modelled. */
module JavaTime {

  const NanosPerSecond: int := 1_000_000_000
  const SecondsPerDay: int := 86400

  /** The nano-of-second field of an `Instant`: never negative, below one second. */
  type Nano = n: int | 0 <= n < 1_000_000_000

  /** `java.time.Instant`: whole seconds since the epoch (floored, so possibly
      negative) and the non-negative nanoseconds within that second. */
  datatype Instant = Instant(epochSecond: int, nano: Nano)

  /** Nanoseconds since the epoch: the single number an `Instant` stands for. */
  function EpochNanos(i: Instant): int {
    i.epochSecond * NanosPerSecond + i.nano
  }

  /** `a.isBefore(b)`: the seconds decide, the nanoseconds break a tie. */
  predicate IsBefore(a: Instant, b: Instant) {
    a.epochSecond < b.epochSecond || (a.epochSecond == b.epochSecond && a.nano < b.nano)
  }

  /** `a.isAfter(b)`. */
  predicate IsAfter(a: Instant, b: Instant) {
    IsBefore(b, a)
  }

  /** The field-wise ordering agrees with the ordering of the instants on the time line. */
  lemma IsBeforeMeansEarlier(a: Instant, b: Instant)
    ensures IsBefore(a, b) <==> EpochNanos(a) < EpochNanos(b)
  {
    if a.epochSecond < b.epochSecond {
      assert EpochNanos(a) < (a.epochSecond + 1) * NanosPerSecond <= EpochNanos(b);
    } else if a.epochSecond > b.epochSecond {
      assert EpochNanos(b) < (b.epochSecond + 1) * NanosPerSecond <= EpochNanos(a);
    }
  }

  /** `i.minusSeconds(seconds)`: moves the instant back by whole seconds and keeps its nanoseconds. */
  function MinusSeconds(i: Instant, seconds: int): Instant {
    Instant(i.epochSecond - seconds, i.nano)
  }

  lemma MinusSecondsMovesBack(i: Instant, seconds: int)
    ensures EpochNanos(MinusSeconds(i, seconds)) == EpochNanos(i) - seconds * NanosPerSecond
  {
  }

  /** `Instant.ofEpochSecond(s)`: the instant at the start of second `s`. */
  function OfEpochSecond(s: int): Instant {
    Instant(s, 0)
  }

  /** `Duration.between(start, end).getSeconds()`: the elapsed time in whole
      seconds, rounded down (a `Duration` keeps a non-negative nano part). */
  function DurationSeconds(start: Instant, end: Instant): int {
    end.epochSecond - start.epochSecond - (if end.nano < start.nano then 1 else 0)
  }

  /** The whole seconds of a duration are the elapsed time rounded down. */
  lemma DurationSecondsFloors(start: Instant, end: Instant)
    ensures var r := DurationSeconds(start, end);
      r * NanosPerSecond <= EpochNanos(end) - EpochNanos(start) < (r + 1) * NanosPerSecond
  {
  }

  /** `Duration.toDays()`: the seconds divided by 86400 with Java's long
      division, which truncates toward zero (Dafny's `/` would floor). */
  function ToDays(seconds: int): (r: int)
    ensures seconds >= 0 ==> 0 <= r && r * SecondsPerDay <= seconds < (r + 1) * SecondsPerDay
    ensures seconds < 0 ==> r <= 0 && (r - 1) * SecondsPerDay < seconds <= r * SecondsPerDay
  {
    if seconds >= 0 then seconds / SecondsPerDay else -((-seconds) / SecondsPerDay)
  }

  /** The whole days between two instants, as `Duration.between(start, end).toDays()`. */
  function WholeDaysBetween(start: Instant, end: Instant): int {
    ToDays(DurationSeconds(start, end))
  }
}
