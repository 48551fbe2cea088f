/**
 * What the metric MBeans share: the `NONE` sentinel held by a timestamp or duration
 * field that has no value yet, `noneAsNull`, `age`, `dateString`, the counters'
 * `incrementAndGet`, the average, and the rule by which a processing duration updates
 * the latest, total, minimum and maximum durations. Each metric class repeats these
 * as private helpers of its own; they are identical, so the model states them once.
 */
module Metrics {
  import opened Wrappers
  import opened JavaLang
  import opened TimeUnits

  /** `NONE`: `Long.MIN_VALUE`, the value of `none()`. */
  const NONE: int64 := -0x8000_0000_0000_0000

  /** `zero()` */
  const ZERO: int64 := 0

  /** `noneAsNull`: the sentinel reads as null and any other value as itself. */
  function NoneAsNull(n: int64): (r: Option<int64>)
    ensures r.None? <==> n == NONE
    ensures r.Some? ==> r.value == n
  {
    if n == NONE then None else Some(n)
  }

  /** Storing a nullable value with null as `NONE`. */
  function NullAsNone(v: Option<int64>): int64 {
    if v.Some? then v.value else NONE
  }

  /** Reading a field through `noneAsNull` and storing the result back gives the field. */
  lemma NoneAsNullRoundTrip(n: int64)
    ensures NullAsNone(NoneAsNull(n)) == n
  {
  }

  /** A value other than `NONE` survives storing and reading back. */
  lemma NullAsNoneRoundTrip(v: Option<int64>)
    requires v != Some(NONE)
    ensures NoneAsNull(NullAsNone(v)) == v
  {
  }

  /** `AtomicLong.incrementAndGet`: one more, wrapping at `Long.MAX_VALUE`. */
  function Incremented(n: int64): (r: int64)
    ensures n as int < LONG_MAX ==> r as int == n as int + 1
    ensures n as int == LONG_MAX ==> r == NONE
  {
    LongAdd(n, 1)
  }

  /**
   * `age(millis, unit)`: null for null, otherwise the milliseconds from `millis` to `now`
   * (a `long` subtraction) expressed in `unit`, whole units truncated toward zero; never
   * negative when `now` is not before `millis`.
   */
  function Age(millis: Option<int64>, unit: TimeUnit, now: int64): (r: Option<int64>)
    ensures r.None? <==> millis.None?
    ensures r.Some? && millis.value <= now && now as int - millis.value as int <= LONG_MAX ==> r.value >= 0
    ensures r.Some? && unit == MILLISECONDS && LONG_MIN <= now as int - millis.value as int <= LONG_MAX ==>
      r.value as int == now as int - millis.value as int
    ensures r.Some? && MILLISECONDS.Nanos() <= unit.Nanos() ==>
      r.value as int == TruncDiv(LongSub(now, millis.value) as int, Ratio(unit, MILLISECONDS))
    ensures r.Some? && unit == SECONDS && LONG_MIN <= now as int - millis.value as int <= LONG_MAX ==>
      r.value as int == TruncDiv(now as int - millis.value as int, 1000)
  {
    if millis.None? then None else Some(Convert(unit, LongSub(now, millis.value), MILLISECONDS))
  }

  /**
   * An `XMLGregorianCalendar` for an instant given in milliseconds since the epoch; the
   * calendar's fields and its `toXMLFormat` text are the JDK's.
   */
  datatype XmlDate = XmlDate(millis: int64)

  /** `date(millis)`: null for null. */
  function Date(millis: Option<int64>): (r: Option<XmlDate>)
    ensures r.None? <==> millis.None?
    ensures r.Some? ==> r.value.millis == millis.value
  {
    if millis.None? then None else Some(XmlDate(millis.value))
  }

  /** `dateString(millis)`: null for null, otherwise the JDK's rendering (`toXmlFormat`) of the date. */
  function DateString(millis: Option<int64>, toXmlFormat: XmlDate -> string): (r: Option<string>)
    ensures r.None? <==> millis.None?
    ensures r.Some? ==> r.value == toXmlFormat(XmlDate(millis.value))
  {
    if millis.None? then None else Some(toXmlFormat(Date(millis).value))
  }

  /** The average duration: `total / count` with Java's long division, or null when the count is 0. */
  function Average(total: int64, count: int64): (r: Option<int64>)
    ensures r.None? <==> count == 0
    ensures r.Some? && total >= 0 && count > 0 ==> r.value as int == total as int / count as int
    ensures r.Some? && count > 0 ==> r.value as int == TruncDiv(total as int, count as int)
  {
    if count != 0 then Some(LongDiv(total, count)) else None
  }

  // ---------------------------------------------------------------------------
  // Duration statistics

  /** The latest, total, minimum and maximum processing durations. */
  datatype DurationStats = DurationStats(latest: int64, total: int64, min: int64, max: int64)

  /** The statistics after a reset: no durations, total 0. */
  const CLEARED: DurationStats := DurationStats(NONE, ZERO, NONE, NONE)

  /** Either nothing was recorded, or some duration was and the minimum ≤ the latest ≤ the maximum, all non-negative. */
  predicate Consistent(s: DurationStats) {
    if s.latest == NONE then s.min == NONE && s.max == NONE
    else 0 <= s.min <= s.latest <= s.max
  }

  /**
   * One non-negative duration recorded: it becomes the latest, is added to the total, and
   * replaces the minimum (maximum) when there is none yet or it is strictly smaller (larger).
   */
  function Recorded(s: DurationStats, d: int64): (r: DurationStats)
    requires d >= 0
    ensures r.latest == d && r.total == LongAdd(s.total, d)
    ensures r.min != NONE && r.max != NONE && r.min <= d <= r.max
  {
    var min := NoneAsNull(s.min);
    var max := NoneAsNull(s.max);
    DurationStats(d, LongAdd(s.total, d),
      if min.None? || d < min.value then d else s.min,
      if max.None? || d > max.value then d else s.max)
  }

  /** Recording keeps the statistics consistent. */
  lemma RecordedConsistent(s: DurationStats, d: int64)
    requires d >= 0 && Consistent(s)
    ensures Consistent(Recorded(s, d))
  {
  }

  /** Recording the durations one after another, starting from `s`. */
  function RecordedAll(s: DurationStats, ds: seq<int64>): DurationStats
    requires forall i :: 0 <= i < |ds| ==> ds[i] >= 0
    decreases |ds|
  {
    if ds == [] then s else RecordedAll(Recorded(s, ds[0]), ds[1..])
  }

  /** The exact sum of the durations. */
  function Sum(ds: seq<int64>): int {
    if ds == [] then 0 else ds[0] as int + Sum(ds[1..])
  }

  /** The smallest duration. */
  function SeqMin(ds: seq<int64>): (m: int64)
    requires |ds| > 0
    ensures m in ds && forall i :: 0 <= i < |ds| ==> m <= ds[i]
  {
    if |ds| == 1 then ds[0]
    else
      var rest := SeqMin(ds[1..]);
      assert forall i :: 1 <= i < |ds| ==> ds[i] == ds[1..][i - 1];
      if ds[0] <= rest then ds[0] else rest
  }

  /** The largest duration. */
  function SeqMax(ds: seq<int64>): (m: int64)
    requires |ds| > 0
    ensures m in ds && forall i :: 0 <= i < |ds| ==> ds[i] <= m
  {
    if |ds| == 1 then ds[0]
    else
      var rest := SeqMax(ds[1..]);
      assert forall i :: 1 <= i < |ds| ==> ds[i] == ds[1..][i - 1];
      if ds[0] >= rest then ds[0] else rest
  }

  /** `Wrap` is determined by the residue of its argument. */
  lemma WrapOfCongruent(x: int, y: int)
    requires (x - y) % 0x1_0000_0000_0000_0000 == 0
    ensures Wrap(x) == Wrap(y)
  {
    var k := (x - y) / 0x1_0000_0000_0000_0000;
    assert x - LONG_MIN == (y - LONG_MIN) + k * 0x1_0000_0000_0000_0000;
  }

  /**
   * Starting from cleared statistics, recording a non-empty run of durations leaves the
   * last one as the latest, the smallest as the minimum, the largest as the maximum and
   * their sum, wrapped to a `long`, as the total.
   */
  lemma {:induction false} RecordedAllSummary(s: DurationStats, ds: seq<int64>)
    requires forall i :: 0 <= i < |ds| ==> ds[i] >= 0
    requires s.min == NONE && s.max == NONE
    requires |ds| > 0
    ensures RecordedAll(s, ds).latest == ds[|ds| - 1]
    ensures RecordedAll(s, ds).min == SeqMin(ds) && RecordedAll(s, ds).max == SeqMax(ds)
    ensures RecordedAll(s, ds).total == Wrap(s.total as int + Sum(ds))
  {
    RecordedAllLatest(s, ds);
    RecordedAllExtremes(s, ds);
    RecordedAllTotal(s, ds);
  }

  /** The latest duration after a run is the run's last one. */
  lemma {:induction false} RecordedAllLatest(s: DurationStats, ds: seq<int64>)
    requires forall i :: 0 <= i < |ds| ==> ds[i] >= 0
    requires |ds| > 0
    ensures RecordedAll(s, ds).latest == ds[|ds| - 1]
    decreases |ds|
  {
    if |ds| > 1 {
      RecordedAllLatest(Recorded(s, ds[0]), ds[1..]);
      assert ds[1..][|ds[1..]| - 1] == ds[|ds| - 1];
    }
  }

  /** The total after a run is the earlier total plus the run's sum, wrapped to a `long`. */
  lemma {:induction false} RecordedAllTotal(s: DurationStats, ds: seq<int64>)
    requires forall i :: 0 <= i < |ds| ==> ds[i] >= 0
    ensures RecordedAll(s, ds).total == Wrap(s.total as int + Sum(ds))
    decreases |ds|
  {
    if ds != [] {
      var next := Recorded(s, ds[0]);
      RecordedAllTotal(next, ds[1..]);
      WrapOfCongruent(next.total as int + Sum(ds[1..]), s.total as int + Sum(ds));
    }
  }

  /**
   * The extremes after a run: the run's own minimum and maximum when there were none before,
   * otherwise the smaller (larger) of the earlier one and the run's.
   */
  lemma {:induction false} RecordedAllExtremes(s: DurationStats, ds: seq<int64>)
    requires forall i :: 0 <= i < |ds| ==> ds[i] >= 0
    requires (s.min == NONE) == (s.max == NONE) && (s.min != NONE ==> 0 <= s.min <= s.max)
    requires |ds| > 0
    ensures s.min == NONE ==> RecordedAll(s, ds).min == SeqMin(ds) && RecordedAll(s, ds).max == SeqMax(ds)
    ensures s.min != NONE ==> RecordedAll(s, ds).min == (if s.min <= SeqMin(ds) then s.min else SeqMin(ds))
    ensures s.min != NONE ==> RecordedAll(s, ds).max == (if s.max >= SeqMax(ds) then s.max else SeqMax(ds))
    decreases |ds|
  {
    var next := Recorded(s, ds[0]);
    if |ds| > 1 {
      RecordedAllExtremes(next, ds[1..]);
      assert SeqMin(ds) == (if ds[0] <= SeqMin(ds[1..]) then ds[0] else SeqMin(ds[1..]));
      assert SeqMax(ds) == (if ds[0] >= SeqMax(ds[1..]) then ds[0] else SeqMax(ds[1..]));
    }
  }

  /** A run whose every duration is at least `lo` sums to at least its length times `lo`. */
  lemma {:induction false} SumAtLeast(ds: seq<int64>, lo: int)
    requires forall i :: 0 <= i < |ds| ==> lo <= ds[i] as int
    ensures |ds| * lo <= Sum(ds)
  {
    if ds != [] {
      SumAtLeast(ds[1..], lo);
      assert |ds| * lo == lo + (|ds| - 1) * lo;
    }
  }

  /** A run whose every duration is at most `hi` sums to at most its length times `hi`. */
  lemma {:induction false} SumAtMost(ds: seq<int64>, hi: int)
    requires forall i :: 0 <= i < |ds| ==> ds[i] as int <= hi
    ensures Sum(ds) <= |ds| * hi
  {
    if ds != [] {
      SumAtMost(ds[1..], hi);
      assert |ds| * hi == hi + (|ds| - 1) * hi;
    }
  }

  /**
   * When every output recorded a duration and the total did not wrap, the average lies
   * between the minimum and the maximum.
   */
  lemma AverageBetweenExtremes(ds: seq<int64>)
    requires |ds| > 0 && forall i :: 0 <= i < |ds| ==> ds[i] >= 0
    requires |ds| <= LONG_MAX && Sum(ds) <= LONG_MAX
    ensures var avg := Average(RecordedAll(CLEARED, ds).total, |ds| as int64);
      avg.Some? && SeqMin(ds) <= avg.value <= SeqMax(ds)
  {
    RecordedAllSummary(CLEARED, ds);
    SumNonNegative(ds);
    var total := RecordedAll(CLEARED, ds).total;
    assert total as int == Sum(ds);
    SumAtLeast(ds, SeqMin(ds) as int);
    SumAtMost(ds, SeqMax(ds) as int);
    DivBetween(Sum(ds), |ds|, SeqMin(ds) as int, SeqMax(ds) as int);
  }

  lemma {:induction false} SumNonNegative(ds: seq<int64>)
    requires forall i :: 0 <= i < |ds| ==> ds[i] >= 0
    ensures Sum(ds) >= 0
  {
    if ds != [] {
      SumNonNegative(ds[1..]);
    }
  }

  lemma DivBetween(s: int, n: int, lo: int, hi: int)
    requires n > 0 && s >= 0 && n * lo <= s <= n * hi
    ensures lo <= s / n <= hi
  {
    var q, r := s / n, s % n;
    assert s == q * n + r && 0 <= r < n;
    if q < lo {
      MulMonotone(q + 1, lo, n);
      assert false;
    }
    if q > hi {
      MulMonotone(hi + 1, q, n);
      assert false;
    }
  }

  lemma MulMonotone(a: int, b: int, n: int)
    requires a <= b && n > 0
    ensures a * n <= b * n
  {
  }
}
