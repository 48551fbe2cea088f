/**
 * The trunk `MessagingMBean`: counters, timestamps and processing-duration statistics for
 * a message-processing component, kept in a chosen `TimeUnit`. The class extends
 * `AbstractMBean`; the model holds the base part as `base`. The clock (`now()`) is a
 * parameter of each operation that reads it.
 */
module MessagingMBeans {
  import opened Wrappers
  import opened JavaLang
  import opened Beans
  import opened TimeUnits
  import opened Metrics
  import JavaStrings
  import AbstractMBeans

  /** The bean's own fields as a value. */
  datatype MessagingState = MessagingState(
    inputCount: int64, inputLatest: int64,
    outputCount: int64, outputLatest: int64,
    durationUnit: TimeUnit, durations: DurationStats,
    failedCount: int64, failedLatest: int64, failedLatestCause: Option<Throwable>)

  /** `resetMBean`: counts and total 0, timestamps and durations `NONE`, no cause, milliseconds. */
  const RESET: MessagingState :=
    MessagingState(ZERO, NONE, ZERO, NONE, MILLISECONDS, CLEARED, ZERO, NONE, None)

  /** The duration statistics are consistent (see `Metrics.Consistent`). */
  predicate Valid(s: MessagingState) {
    Consistent(s.durations)
  }

  /** `notifyInput` */
  function InputNotified(s: MessagingState, now: int64): MessagingState {
    s.(inputCount := Incremented(s.inputCount), inputLatest := now)
  }

  /**
   * `notifyOutput(inDuration, inUnit)`: the duration is converted to the bean's unit; the
   * output is always counted and stamped, and the duration statistics take the converted
   * duration only when it is not negative.
   */
  function OutputNotifiedIn(s: MessagingState, inDuration: int64, inUnit: TimeUnit, now: int64): MessagingState {
    var work := Convert(s.durationUnit, inDuration, inUnit);
    var counted := s.(outputLatest := now, outputCount := Incremented(s.outputCount));
    if work >= 0 then counted.(durations := Recorded(s.durations, work)) else counted
  }

  /**
   * `notifyOutput()` as written: the time since the latest input in milliseconds, or -1
   * milliseconds when there has been no input since the last reset.
   */
  function OutputNotifiedSinceInput(s: MessagingState, now: int64): MessagingState {
    if s.inputLatest == NONE then OutputNotifiedIn(s, -1, MILLISECONDS, now)
    else OutputNotifiedIn(s, LongSub(now, s.inputLatest), MILLISECONDS, now)
  }

  /** `notifyFailed(cause)` */
  function FailureNotified(s: MessagingState, cause: Option<Throwable>, now: int64): MessagingState {
    s.(failedCount := Incremented(s.failedCount), failedLatest := now, failedLatestCause := cause)
  }

  /** `notifyInput` counts one more input, stamps it, and changes nothing else. */
  lemma InputNotifiedEffect(s: MessagingState, now: int64)
    ensures var r := InputNotified(s, now);
      r.inputLatest == now && r.(inputCount := s.inputCount, inputLatest := s.inputLatest) == s &&
      (s.inputCount as int < LONG_MAX ==> r.inputCount as int == s.inputCount as int + 1)
  {
  }

  /**
   * `notifyOutput(d, unit)` always counts and stamps the output; the statistics change exactly
   * when the converted duration is not negative, and then it becomes the latest, is added to
   * the total and lies between the new minimum and maximum. Nothing else changes.
   */
  lemma OutputNotifiedInEffect(s: MessagingState, d: int64, unit: TimeUnit, now: int64)
    ensures var r := OutputNotifiedIn(s, d, unit, now);
      r.outputLatest == now && r.outputCount == Incremented(s.outputCount) &&
      r.(outputLatest := s.outputLatest, outputCount := s.outputCount, durations := s.durations) == s
    ensures var r := OutputNotifiedIn(s, d, unit, now);
      var work := Convert(s.durationUnit, d, unit);
      if work >= 0 then
        r.durations.latest == work && r.durations.total == LongAdd(s.durations.total, work) &&
        r.durations.min <= work <= r.durations.max
      else r.durations == s.durations
    ensures var r := OutputNotifiedIn(s, d, unit, now);
      Convert(s.durationUnit, d, unit) >= 0 && LONG_MIN <= s.durations.total as int + Convert(s.durationUnit, d, unit) as int <= LONG_MAX ==>
      r.durations.total as int == s.durations.total as int + Convert(s.durationUnit, d, unit) as int
  {
  }

  /** `notifyFailed(cause)` counts one more failure, stamps it and keeps the cause, which may be null. */
  lemma FailureNotifiedEffect(s: MessagingState, cause: Option<Throwable>, now: int64)
    ensures var r := FailureNotified(s, cause, now);
      r.failedLatest == now && r.failedLatestCause == cause &&
      r.(failedCount := s.failedCount, failedLatest := s.failedLatest, failedLatestCause := s.failedLatestCause) == s &&
      (s.failedCount as int < LONG_MAX ==> r.failedCount as int == s.failedCount as int + 1)
  {
  }

  /** Every operation keeps the duration statistics consistent. */
  lemma OperationsKeepValid(s: MessagingState, d: int64, unit: TimeUnit, cause: Option<Throwable>, now: int64)
    requires Valid(s)
    ensures Valid(RESET) && Valid(InputNotified(s, now)) && Valid(FailureNotified(s, cause, now))
    ensures Valid(OutputNotifiedIn(s, d, unit, now)) && Valid(OutputNotifiedSinceInput(s, now))
    ensures Valid(s.(durationUnit := unit))
  {
    OutputKeepsValid(s, d, unit, now);
    if s.inputLatest == NONE {
      OutputKeepsValid(s, -1, MILLISECONDS, now);
    } else {
      OutputKeepsValid(s, LongSub(now, s.inputLatest), MILLISECONDS, now);
    }
  }

  lemma OutputKeepsValid(s: MessagingState, d: int64, unit: TimeUnit, now: int64)
    requires Valid(s)
    ensures Valid(OutputNotifiedIn(s, d, unit, now))
  {
    var work := Convert(s.durationUnit, d, unit);
    if work >= 0 {
      RecordedConsistent(s.durations, work);
    }
  }

  // ---------------------------------------------------------------------------
  // notifyOutput() without a preceding notifyInput

  /** A unit of a second or coarser: -1 millisecond converts to 0 of it. */
  predicate Coarse(unit: TimeUnit) {
    unit == SECONDS || unit == MINUTES || unit == HOURS || unit == DAYS
  }

  /** With a unit of a millisecond or finer, an output without an input leaves the statistics alone. */
  lemma NoInputFineUnitSkipsStatistics(s: MessagingState, now: int64)
    requires s.inputLatest == NONE && !Coarse(s.durationUnit)
    ensures OutputNotifiedSinceInput(s, now).durations == s.durations
  {
  }

  /**
   * As written, with a unit of a second or coarser the -1 millisecond sentinel converts to 0,
   * so an output without an input records a duration of 0.
   */
  lemma NoInputCoarseUnitRecordsZero(s: MessagingState, now: int64)
    requires s.inputLatest == NONE && Coarse(s.durationUnit)
    ensures OutputNotifiedSinceInput(s, now).durations == Recorded(s.durations, 0)
  {
    assert Convert(s.durationUnit, -1, MILLISECONDS) == 0;
  }

  /**
   * `notifyOutput()` as evidently intended: without an input since the last reset the output
   * is counted and stamped and the statistics are left alone, whatever the unit.
   */
  function OutputNotifiedSinceInputIntended(s: MessagingState, now: int64): MessagingState {
    if s.inputLatest == NONE then s.(outputLatest := now, outputCount := Incremented(s.outputCount))
    else OutputNotifiedIn(s, LongSub(now, s.inputLatest), MILLISECONDS, now)
  }

  /** The intended `notifyOutput()` never records a duration without an input, and agrees with the code otherwise. */
  lemma IntendedOutputSkipsStatistics(s: MessagingState, now: int64)
    ensures s.inputLatest == NONE ==>
      OutputNotifiedSinceInputIntended(s, now).durations == s.durations &&
      OutputNotifiedSinceInputIntended(s, now).outputCount == Incremented(s.outputCount)
    ensures s.inputLatest != NONE ==> OutputNotifiedSinceInputIntended(s, now) == OutputNotifiedSinceInput(s, now)
    ensures !Coarse(s.durationUnit) ==> OutputNotifiedSinceInputIntended(s, now) == OutputNotifiedSinceInput(s, now)
  {
  }

  // ---------------------------------------------------------------------------
  // setDuration

  const EMPTY_DURATION_MESSAGE: string := "Empty value not allowed"

  /** The text `setDuration` reports for an input that names no unit. */
  function UnknownUnitMessage(trimName: string): string {
    "Unknown time unit: '" + trimName + "'"
  }

  /**
   * An abbreviation "M" selects microseconds: it comes second in declaration order, after
   * nanoseconds, and is the first whose name starts with "M".
   */
  lemma AbbreviationMSelectsMicroseconds()
    ensures FirstWithPrefix(Values, "M") == Some(1) && Values[1] == MICROSECONDS
  {
    FirstIsM(Values, "M");
  }

  /**
   * In a list starting NANOSECONDS, MICROSECONDS the first name starting with "M" is the
   * second. The prefix, and in the helpers below the unit, are parameters pinned by the
   * precondition rather than literals: with the literals in the contract the solver unfolds
   * `FirstWithPrefix` and the unit names on them and runs out of resource.
   */
  lemma FirstIsM(units: seq<TimeUnit>, m: string)
    requires |units| >= 2 && units[0] == NANOSECONDS && units[1] == MICROSECONDS && m == "M"
    ensures FirstWithPrefix(units, m) == Some(1)
  {
    NanosecondsIsNotM(units[0], m);
    MicrosecondsIsM(units[1], m);
    FirstWithPrefixAt(units, m, 1);
  }

  /** NANOSECONDS does not start with "M" (unit and prefix pinned as in `FirstIsM`). */
  lemma NanosecondsIsNotM(unit: TimeUnit, m: string)
    requires unit == NANOSECONDS && m == "M"
    ensures !NameStartsWith(unit, m)
  {
    assert JavaStrings.ToUpper(unit.Name())[0] == 'N';
  }

  /** MICROSECONDS starts with "M" (unit and prefix pinned as in `FirstIsM`). */
  lemma MicrosecondsIsM(unit: TimeUnit, m: string)
    requires unit == MICROSECONDS && m == "M"
    ensures NameStartsWith(unit, m)
  {
    var up := JavaStrings.ToUpper(unit.Name());
    assert up[0] == 'M' && up[..1] == [up[0]];
  }

  /** Every character of `s` is an upper-case ASCII letter. */
  predicate UpperCaseWord(s: string) {
    forall i :: 0 <= i < |s| ==> 'A' <= s[i] <= 'Z'
  }

  /** Unit names are non-empty upper-case words. */
  lemma NamesAreUpperCaseWords(u: TimeUnit)
    ensures UpperCaseWord(u.Name()) && |u.Name()| > 0
  {
  }

  /** Upper-casing an upper-case word changes nothing. */
  lemma UpperCaseWordIsUpper(s: string)
    requires UpperCaseWord(s)
    ensures JavaStrings.ToUpper(s) == s
  {
    var up := JavaStrings.ToUpper(s);
    assert forall i :: 0 <= i < |s| ==> up[i] == s[i];
  }

  /** Trimming a non-empty upper-case word changes nothing. */
  lemma UpperCaseWordIsTrimmed(s: string)
    requires UpperCaseWord(s) && |s| > 0
    ensures JavaStrings.Trim(s) == s
  {
    assert JavaStrings.TrimStart(s) == s;
    assert JavaStrings.TrimEnd(s) == s;
  }

  /** No unit's name starts with the name of a unit declared after it. */
  lemma LaterNameIsNoPrefix(i: nat, k: nat)
    requires i < k < |Values|
    ensures !JavaStrings.StartsWith(Values[i].Name(), Values[k].Name())
  {
    var a, b := Values[i].Name(), Values[k].Name();
    var d := if a[0] != b[0] then 0 else 2;
    assert d < |a| && d < |b| && a[d] != b[d];
    assert |b| <= |a| ==> a[..|b|][d] == a[d];
  }

  /** A unit declared before `u` is never the one its name selects. */
  lemma EarlierUnitNotSelected(j: nat, u: TimeUnit)
    requires j < IndexOf(u)
    ensures !NameStartsWith(Values[j], u.Name())
  {
    NamesAreUpperCaseWords(Values[j]);
    UpperCaseWordIsUpper(Values[j].Name());
    LaterNameIsNoPrefix(j, IndexOf(u));
  }

  /**
   * `setDuration(getDuration())` keeps the unit: the name `getDuration` reports is not blank,
   * trimming and upper-casing leave it as it is, and the first unit it is a prefix of is the
   * unit itself.
   */
  lemma DurationNameSelectsItsUnit(u: TimeUnit)
    ensures JavaStrings.Trim(u.Name()) == u.Name() != []
    ensures FirstWithPrefix(Values, JavaStrings.ToUpper(JavaStrings.Trim(u.Name()))) == Some(IndexOf(u))
    ensures Values[IndexOf(u)] == u
  {
    var name := u.Name();
    NamesAreUpperCaseWords(u);
    UpperCaseWordIsTrimmed(name);
    UpperCaseWordIsUpper(name);
    forall j | 0 <= j < IndexOf(u)
      ensures !NameStartsWith(Values[j], name)
    {
      EarlierUnitNotSelected(j, u);
    }
    FirstWithPrefixAt(Values, name, IndexOf(u));
  }

  // ---------------------------------------------------------------------------
  // The bean

  class MessagingMBean {
    /** The `AbstractMBean` part: the object name and `started`. */
    const base: AbstractMBeans.AbstractMBean

    var inputCount: int64
    var inputLatest: int64
    var outputCount: int64
    var outputLatest: int64
    var durationUnit: TimeUnit
    var durationLatest: int64
    var durationTotal: int64
    var durationMax: int64
    var durationMin: int64
    var failedCount: int64
    var failedLatest: int64
    var failedLatestCause: Option<Throwable>

    /** The bean's own fields as a value. */
    function State(): MessagingState
      reads this
    {
      MessagingState(inputCount, inputLatest, outputCount, outputLatest, durationUnit,
        DurationStats(durationLatest, durationTotal, durationMin, durationMax),
        failedCount, failedLatest, failedLatestCause)
    }

    /**
     * The constructors: the base part is built first, and its `initialize` runs this class's
     * `resetMBean`, so a new bean starts from `RESET`.
     */
    constructor (base: AbstractMBeans.AbstractMBean)
      ensures this.base == base && State() == RESET
    {
      this.base := base;
      inputLatest := NONE;
      outputLatest := NONE;
      failedLatest := NONE;
      failedLatestCause := None;
      inputCount := ZERO;
      outputCount := ZERO;
      failedCount := ZERO;
      durationUnit := MILLISECONDS;
      durationLatest := NONE;
      durationMin := NONE;
      durationMax := NONE;
      durationTotal := ZERO;
    }

    /** `notifyInput` */
    method NotifyInput(now: int64)
      modifies this
      ensures State() == InputNotified(old(State()), now)
    {
      inputCount := Incremented(inputCount);
      inputLatest := now;
    }

    /** `notifyOutput()` */
    method NotifyOutput(now: int64)
      modifies this
      ensures State() == OutputNotifiedSinceInput(old(State()), now)
    {
      var latest := inputLatest;
      if latest == NONE {
        NotifyOutputMillis(-1, now);
      } else {
        NotifyOutputMillis(LongSub(now, latest), now);
      }
    }

    /** `notifyOutput(durationMillis)`: the duration in milliseconds. */
    method NotifyOutputMillis(durationMillis: int64, now: int64)
      modifies this
      ensures State() == OutputNotifiedIn(old(State()), durationMillis, MILLISECONDS, now)
    {
      NotifyOutputIn(durationMillis, MILLISECONDS, now);
    }

    /** `notifyOutput(inDuration, inUnit)` */
    method NotifyOutputIn(inDuration: int64, inUnit: TimeUnit, now: int64)
      modifies this
      ensures State() == OutputNotifiedIn(old(State()), inDuration, inUnit, now)
    {
      var workDuration := Convert(durationUnit, inDuration, inUnit);
      outputLatest := now;
      outputCount := Incremented(outputCount);
      if workDuration >= 0 {
        RecordDuration(workDuration);
      }
    }

    /** The part of `notifyOutput(inDuration, inUnit)` that takes a non-negative duration into the statistics. */
    method RecordDuration(workDuration: int64)
      requires workDuration >= 0
      modifies this
      ensures State() == old(State()).(durations := Recorded(old(State()).durations, workDuration))
    {
      durationLatest := workDuration;
      durationTotal := LongAdd(durationTotal, workDuration);
      var minMillis := GetDurationMin();
      if minMillis.None? || workDuration < minMillis.value {
        durationMin := workDuration;
      }
      var maxMillis := GetDurationMax();
      if maxMillis.None? || workDuration > maxMillis.value {
        durationMax := workDuration;
      }
    }

    /** `notifyFailed()`: a failure without a cause. */
    method NotifyFailed(now: int64)
      modifies this
      ensures State() == FailureNotified(old(State()), None, now)
    {
      NotifyFailedWith(None, now);
    }

    /** `notifyFailed(cause)` */
    method NotifyFailedWith(cause: Option<Throwable>, now: int64)
      modifies this
      ensures State() == FailureNotified(old(State()), cause, now)
    {
      failedCount := Incremented(failedCount);
      failedLatest := now;
      failedLatestCause := cause;
    }

    /** `resetMBean`: the base part's reset changes nothing, so `started` is kept. */
    method ResetMBean()
      modifies this
      ensures State() == RESET
    {
      inputLatest, outputLatest, failedLatest, failedLatestCause := NONE, NONE, NONE, None;
      inputCount, outputCount, failedCount := ZERO, ZERO, ZERO;
      durationUnit := MILLISECONDS;
      durationLatest, durationMin, durationMax, durationTotal := NONE, NONE, NONE, ZERO;
    }

    /** `setDurationUnit` */
    method SetDurationUnit(unit: TimeUnit)
      modifies this
      ensures State() == old(State()).(durationUnit := unit)
    {
      durationUnit := unit;
    }

    /**
     * `setDuration(durationName)`: a null or blank name is an IllegalArgumentException;
     * otherwise the first unit in declaration order whose upper-cased name starts with the
     * upper-cased trimmed name becomes the unit, and a name no unit starts with is an
     * IllegalArgumentException. A failure changes nothing.
     */
    method SetDuration(durationName: Option<string>) returns (r: Result<(), Failure>)
      modifies this
      ensures durationName.None? || JavaStrings.Trim(durationName.value) == [] ==>
        r == Failure(IllegalArgument(Some(EMPTY_DURATION_MESSAGE), None))
      ensures durationName.Some? && JavaStrings.Trim(durationName.value) != [] ==>
        var trimName := JavaStrings.Trim(durationName.value);
        var first := FirstWithPrefix(Values, JavaStrings.ToUpper(trimName));
        (first.None? ==> r == Failure(IllegalArgument(Some(UnknownUnitMessage(trimName)), None))) &&
        (first.Some? ==> r.Success? && State() == old(State()).(durationUnit := Values[first.value]))
      ensures r.Failure? ==> State() == old(State())
    {
      if durationName.None? || JavaStrings.Trim(durationName.value) == [] {
        return Failure(IllegalArgument(Some(EMPTY_DURATION_MESSAGE), None));
      }
      var trimName := JavaStrings.Trim(durationName.value);
      var found := FindFirst(Values, PrefixTest(JavaStrings.ToUpper(trimName)));
      if found.None? {
        return Failure(IllegalArgument(Some(UnknownUnitMessage(trimName)), None));
      }
      SetDurationUnit(Values[found.value]);
      r := Success(());
    }

    /** `getDuration`: the unit's name. */
    function GetDuration(): (r: string)
      reads this
      ensures r == durationUnit.Name()
    {
      durationUnit.Name()
    }

    /** `getDurationLatest`: null before any duration is recorded. */
    function GetDurationLatest(): (r: Option<int64>)
      reads this
      ensures r.None? <==> durationLatest == NONE
      ensures r.Some? ==> r.value == durationLatest
    {
      NoneAsNull(durationLatest)
    }

    /** `getDurationMin`: null before any duration is recorded. */
    function GetDurationMin(): (r: Option<int64>)
      reads this
      ensures r.None? <==> durationMin == NONE
      ensures r.Some? ==> r.value == durationMin
    {
      NoneAsNull(durationMin)
    }

    /** `getDurationMax`: null before any duration is recorded. */
    function GetDurationMax(): (r: Option<int64>)
      reads this
      ensures r.None? <==> durationMax == NONE
      ensures r.Some? ==> r.value == durationMax
    {
      NoneAsNull(durationMax)
    }

    /** `getDurationAverage`: the total over the output count, or null with no output. */
    function GetDurationAverage(): (r: Option<int64>)
      reads this
      ensures r.None? <==> outputCount == 0
      ensures r.Some? && durationTotal >= 0 && outputCount > 0 ==> r.value as int == durationTotal as int / outputCount as int
      ensures r.Some? && outputCount > 0 ==> r.value as int == TruncDiv(durationTotal as int, outputCount as int)
    {
      Average(durationTotal, outputCount)
    }

    /** `getInputLatest`: the time of the latest input as a date, or null when there was none. */
    function GetInputLatest(): (r: Option<XmlDate>)
      reads this
      ensures r.None? <==> inputLatest == NONE
      ensures r.Some? ==> r.value.millis == inputLatest
    {
      Date(NoneAsNull(inputLatest))
    }

    /** `getInputLatestAgeSeconds`: whole seconds since the latest input, or null when there was none. */
    function GetInputLatestAgeSeconds(now: int64): (r: Option<int64>)
      reads this
      ensures r.None? <==> inputLatest == NONE
      ensures r.Some? && inputLatest <= now && now as int - inputLatest as int <= LONG_MAX ==> r.value >= 0
      ensures r.Some? ==> r.value as int == TruncDiv(LongSub(now, inputLatest) as int, 1000)
      ensures r.Some? && LONG_MIN <= now as int - inputLatest as int <= LONG_MAX ==>
        r.value as int == TruncDiv(now as int - inputLatest as int, 1000)
    {
      Age(NoneAsNull(inputLatest), SECONDS, now)
    }
  }

  /** The position of a unit in declaration order. */
  function IndexOf(unit: TimeUnit): (i: nat)
    ensures i < |Values| && Values[i] == unit
  {
    match unit
    case NANOSECONDS => 0
    case MICROSECONDS => 1
    case MILLISECONDS => 2
    case SECONDS => 3
    case MINUTES => 4
    case HOURS => 5
    case DAYS => 6
  }

  /** `MessagingMBean()`: the base part from the class's `@MBean` marker, then a reset bean. */
  method FromMarker(beanClass: ClassDesc, parse: string -> Result<ObjectName, Failure>) returns (r: Result<MessagingMBean, Failure>)
    ensures r.Success? <==>
      beanClass.mbean.Some? && beanClass.mbean.value.objectName != "" && parse(beanClass.mbean.value.objectName).Success?
    ensures r.Success? ==>
      fresh(r.value) && r.value.State() == RESET && r.value.base.objectName == parse(beanClass.mbean.value.objectName).value
  {
    var base :- AbstractMBeans.FromMarker(beanClass, parse);
    var bean := new MessagingMBean(base);
    r := Success(bean);
  }
}
