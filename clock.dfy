/**
  Python `datetime`, `time` and `timedelta` as integers. An instant is a count of
  seconds from an epoch that falls on a Monday at midnight, so that the weekday and
  the time of day are plain integer arithmetic (Python's `//` and `%` floor, as
  Dafny's do for a positive divisor).
*/
module Clock {

  const SecondsPerMinute: int := 60
  const SecondsPerHour: int := 3600
  const SecondsPerDay: int := 86400
  const SecondsPerWeek: int := 604800

  /** A naive `datetime`, in seconds from a Monday midnight. */
  type Instant = int

  /** A `time` of day, in seconds after midnight. */
  type ClockTime = s: int | 0 <= s < SecondsPerDay

  /** `datetime.weekday()`: 0 is Monday, 6 is Sunday. */
  function Weekday(t: Instant): int
  {
    (t / SecondsPerDay) % 7
  }

  /** `datetime.time()`. */
  function TimeOf(t: Instant): ClockTime
  {
    t % SecondsPerDay
  }

  /** `(end - start).seconds`: the seconds part of the normalised `timedelta`, which drops whole days. */
  function DeltaSeconds(start: Instant, end: Instant): ClockTime
  {
    (end - start) % SecondsPerDay
  }

  /** The `time` with the given hour and minute and zero seconds. */
  function At(hour: int, minute: int): ClockTime
    requires 0 <= hour < 24 && 0 <= minute < 60
  {
    hour * SecondsPerHour + minute * SecondsPerMinute
  }

  function Hour(c: ClockTime): int { c / SecondsPerHour }

  function Minute(c: ClockTime): int { (c / SecondsPerMinute) % 60 }

  predicate WholeMinute(c: ClockTime) { c % SecondsPerMinute == 0 }

  /** What `strftime("%H:%M")` keeps of a time: the time with its seconds dropped. */
  function TruncateToMinute(c: ClockTime): ClockTime
  {
    c - c % SecondsPerMinute
  }

  /** Hour and minute of a time rebuild the time without its seconds; on a whole minute, the time itself. */
  lemma HourMinuteRecompose(c: ClockTime)
    ensures 0 <= Hour(c) < 24 && 0 <= Minute(c) < 60
    ensures At(Hour(c), Minute(c)) == TruncateToMinute(c)
    ensures WholeMinute(c) ==> At(Hour(c), Minute(c)) == c
  {
    var q := c / SecondsPerMinute;
    assert c == q * 60 + c % 60;
    assert q == (q / 60) * 60 + q % 60;
    assert c / SecondsPerHour == q / 60;
  }

  /** Whole days between two instants do not show in the `seconds` of their difference. */
  lemma {:induction false} DeltaSecondsDropsDays(start: Instant, end: Instant, days: int)
    ensures DeltaSeconds(start, end + days * SecondsPerDay) == DeltaSeconds(start, end)
  {
    var d := end - start;
    assert (d + days * SecondsPerDay) % SecondsPerDay == d % SecondsPerDay by {
      ModAddMultiple(d, days, SecondsPerDay);
    }
  }

  /** Shifting an instant by whole weeks keeps its weekday and its time of day. */
  lemma {:induction false} WeeklyRecurrence(t: Instant, weeks: int)
    ensures Weekday(t + weeks * SecondsPerWeek) == Weekday(t)
    ensures TimeOf(t + weeks * SecondsPerWeek) == TimeOf(t)
  {
    var days := t / SecondsPerDay;
    var tod := t % SecondsPerDay;
    assert t + weeks * SecondsPerWeek == (days + 7 * weeks) * SecondsPerDay + tod;
    DivModUnique(t + weeks * SecondsPerWeek, days + 7 * weeks, tod, SecondsPerDay);
    ModAddMultiple(days, weeks, 7);
  }

  lemma ModAddMultiple(a: int, k: int, n: int)
    requires n > 0
    ensures (a + k * n) % n == a % n
  {
    DivModUnique(a + k * n, a / n + k, a % n, n);
  }

  lemma DivModUnique(x: int, q: int, r: int, n: int)
    requires n > 0 && 0 <= r < n && x == q * n + r
    ensures x / n == q && x % n == r
  {
    var q', r' := x / n, x % n;
    assert (q - q') * n == r' - r by {
      assert q' * n + r' == q * n + r;
    }
    if q' < q {
      MulAtLeast(q - q', n);
    } else if q' > q {
      MulAtLeast(q' - q, n);
    }
  }

  lemma MulAtLeast(k: int, n: int)
    requires k >= 1 && n > 0
    ensures k * n >= n
  {
    assert k * n == (k - 1) * n + n;
  }
}
