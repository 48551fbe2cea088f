/** `java.util.concurrent.TimeUnit`: its seven constants and its saturating `convert`. */
module TimeUnits {
  import opened Wrappers
  import opened JavaLang
  import JavaStrings

  datatype TimeUnit = NANOSECONDS | MICROSECONDS | MILLISECONDS | SECONDS | MINUTES | HOURS | DAYS {

    /** `name()` and `toString()` */
    function Name(): string {
      match this
      case NANOSECONDS => "NANOSECONDS"
      case MICROSECONDS => "MICROSECONDS"
      case MILLISECONDS => "MILLISECONDS"
      case SECONDS => "SECONDS"
      case MINUTES => "MINUTES"
      case HOURS => "HOURS"
      case DAYS => "DAYS"
    }

    /** Length of one unit in nanoseconds. */
    function Nanos(): (n: nat)
      ensures n >= 1
    {
      match this
      case NANOSECONDS => 1
      case MICROSECONDS => 1000
      case MILLISECONDS => 1000_000
      case SECONDS => 1000_000_000
      case MINUTES => 60_000_000_000
      case HOURS => 3600_000_000_000
      case DAYS => 86400_000_000_000
    }
  }

  /** `TimeUnit.values()`, in declaration order. */
  const Values: seq<TimeUnit> := [NANOSECONDS, MICROSECONDS, MILLISECONDS, SECONDS, MINUTES, HOURS, DAYS]

  /** Saturation of an exact result into a `long`. */
  function Clamp(x: int): (r: int64)
    ensures LONG_MIN <= x <= LONG_MAX ==> r as int == x
    ensures x > LONG_MAX ==> r as int == LONG_MAX
    ensures x < LONG_MIN ==> r as int == LONG_MIN
    ensures x >= 0 ==> r >= 0
    ensures x <= 0 ==> r <= 0
  {
    if x < LONG_MIN then LONG_MIN as int64 else if x > LONG_MAX then LONG_MAX as int64 else x as int64
  }

  /** How many of the finer unit make one of the coarser. */
  function Ratio(coarse: TimeUnit, fine: TimeUnit): (k: nat)
    requires fine.Nanos() <= coarse.Nanos()
    ensures k >= 1 && k * fine.Nanos() == coarse.Nanos()
  {
    assert coarse.Nanos() % fine.Nanos() == 0;
    DivAtLeastOne(coarse.Nanos(), fine.Nanos());
    coarse.Nanos() / fine.Nanos()
  }

  /**
   * `target.convert(d, source)`: towards a coarser unit the quotient by the ratio of the
   * units, truncated toward zero; towards a finer unit the product with that ratio,
   * saturating at `Long.MIN_VALUE` and `Long.MAX_VALUE`.
   */
  function Convert(target: TimeUnit, d: int64, source: TimeUnit): (r: int64)
    ensures d >= 0 ==> r >= 0
    ensures d <= 0 ==> r <= 0
    ensures target == source ==> r == d
    ensures source.Nanos() <= target.Nanos() ==> r as int == TruncDiv(d as int, Ratio(target, source))
    ensures target.Nanos() < source.Nanos() ==>
      var x := d as int * Ratio(source, target);
      (LONG_MIN <= x <= LONG_MAX ==> r as int == x) &&
      (x > LONG_MAX ==> r as int == LONG_MAX) &&
      (x < LONG_MIN ==> r as int == LONG_MIN)
  {
    if source.Nanos() <= target.Nanos() then
      var q := TruncDiv(d as int, Ratio(target, source));
      assert Abs(q) <= Abs(d as int);
      Clamp(q)
    else
      Clamp(ScaleBy(d as int, Ratio(source, target)))
  }

  /**
   * Converting to a finer unit and back gives the duration back, unless the product
   * saturated.
   */
  lemma FinerAndBack(fine: TimeUnit, d: int64, coarse: TimeUnit)
    requires fine.Nanos() < coarse.Nanos()
    requires LONG_MIN <= d as int * Ratio(coarse, fine) <= LONG_MAX
    ensures Convert(coarse, Convert(fine, d, coarse), fine) == d
  {
    var k := Ratio(coarse, fine);
    var x := Convert(fine, d, coarse);
    assert x as int == d as int * k;
    ExactQuotient(d as int, k);
  }

  /** A truncating quotient of an exact multiple is the factor. */
  lemma ExactQuotient(d: int, k: nat)
    requires k >= 1
    ensures TruncDiv(d * k, k) == d
  {
    var q := TruncDiv(d * k, k);
    assert d * k - q * k == (d - q) * k;
    SmallMultipleIsZero(d - q, k);
  }

  /** A multiple of `k` smaller than `k` in magnitude is zero. */
  lemma SmallMultipleIsZero(m: int, k: nat)
    requires k >= 1 && Abs(m * k) < k
    ensures m == 0
  {
    if m != 0 {
      AbsOfMultiple(m, k);
      MulAtLeast(Abs(m), k);
      assert false;
    }
  }

  lemma AbsOfMultiple(m: int, k: nat)
    ensures Abs(m * k) == Abs(m) * k
  {
    if m < 0 {
      assert m * k == -((-m) * k);
    }
  }

  lemma MulAtLeast(x: nat, k: nat)
    requires x >= 1
    ensures x * k >= k
  {
    assert x * k == (x - 1) * k + k;
    assert (x - 1) * k >= 0;
  }

  lemma DivAtLeastOne(a: nat, b: nat)
    requires 1 <= b <= a
    ensures a / b >= 1
  {
  }

  function ScaleBy(d: int, k: nat): (r: int)
    requires k >= 1
    ensures d >= 0 ==> r >= 0
    ensures d <= 0 ==> r <= 0
    ensures k == 1 ==> r == d
  {
    d * k
  }

  /** Whether the upper-cased name of `u` starts with `prefix`. */
  predicate NameStartsWith(u: TimeUnit, prefix: string) {
    JavaStrings.StartsWith(JavaStrings.ToUpper(u.Name()), prefix)
  }

  /** The position of the first element of `xs` that satisfies `p`. */
  function FirstWhere<T>(xs: seq<T>, p: T -> bool): (r: Option<nat>)
    ensures r.None? <==> forall i :: 0 <= i < |xs| ==> !p(xs[i])
    ensures r.Some? ==> r.value < |xs| && p(xs[r.value])
    ensures r.Some? ==> forall j :: 0 <= j < r.value ==> !p(xs[j])
  {
    if xs == [] then None
    else if p(xs[0]) then Some(0)
    else
      var rest := FirstWhere(xs[1..], p);
      assert forall i :: 1 <= i < |xs| ==> xs[i] == xs[1..][i - 1];
      if rest.Some? then Some(rest.value + 1) else None
  }

  /** The test applied to each unit when looking one up by an abbreviation. */
  function PrefixTest(prefix: string): TimeUnit -> bool {
    u => NameStartsWith(u, prefix)
  }

  /** The position of the first unit, in the order given, whose upper-cased name starts with `prefix`. */
  function FirstWithPrefix(units: seq<TimeUnit>, prefix: string): (r: Option<nat>)
    ensures r.None? <==> forall i :: 0 <= i < |units| ==> !NameStartsWith(units[i], prefix)
    ensures r.Some? ==> r.value < |units| && NameStartsWith(units[r.value], prefix)
    ensures r.Some? ==> forall j :: 0 <= j < r.value ==> !NameStartsWith(units[j], prefix)
  {
    FirstWhere(units, PrefixTest(prefix))
  }

  /** Scans `xs` in order and stops at the first element that satisfies `p`. */
  method FindFirst<T>(xs: seq<T>, p: T -> bool) returns (found: Option<nat>)
    ensures found == FirstWhere(xs, p)
  {
    for i := 0 to |xs|
      invariant forall j :: 0 <= j < i ==> !p(xs[j])
    {
      if p(xs[i]) {
        FirstWhereAt(xs, p, i);
        return Some(i);
      }
    }
    found := None;
  }

  /** A satisfying position with none before it is the one `FirstWhere` finds. */
  lemma FirstWhereAt<T>(xs: seq<T>, p: T -> bool, i: nat)
    requires i < |xs| && p(xs[i])
    requires forall j :: 0 <= j < i ==> !p(xs[j])
    ensures FirstWhere(xs, p) == Some(i)
  {
  }

  /** A matching position with no match before it is the one `FirstWithPrefix` finds. */
  lemma FirstWithPrefixAt(units: seq<TimeUnit>, prefix: string, i: nat)
    requires i < |units| && NameStartsWith(units[i], prefix)
    requires forall j :: 0 <= j < i ==> !NameStartsWith(units[j], prefix)
    ensures FirstWithPrefix(units, prefix) == Some(i)
  {
    FirstWhereAt(units, PrefixTest(prefix), i);
  }
}
