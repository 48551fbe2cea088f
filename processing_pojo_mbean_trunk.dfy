/**
 * The trunk `ProcessingPojoMBean`, a stand-alone predecessor of the root tree's: the same
 * counters, timestamps and duration statistics, plus its own `started` time. A negative
 * duration is rejected rather than clamped, `reset` also clears `started`, and `start`
 * registers before it stamps. The clock is a parameter.
 */
module TrunkProcessingPojoMBeans {
  import opened Wrappers
  import opened JavaLang
  import opened TimeUnits
  import opened Metrics
  import JavaStrings
  import AbstractPojoMBeans

  /** The bean's fields as a value. */
  datatype TrunkState = TrunkState(
    started: int64,
    inputCount: int64, inputLatest: int64,
    outputCount: int64, outputLatest: int64,
    durations: DurationStats,
    failedCount: int64, failedLatest: int64, failedLatestCause: Option<Throwable>)

  /** Not started, counts and total 0, timestamps and durations `NONE`, and the given failure cause. */
  function Cleared(cause: Option<Throwable>): TrunkState {
    TrunkState(NONE, ZERO, NONE, ZERO, NONE, CLEARED, ZERO, NONE, cause)
  }

  /** The duration statistics are consistent (see `Metrics.Consistent`). */
  predicate Valid(s: TrunkState) {
    Consistent(s.durations)
  }

  /** `reset`: everything cleared, `started` included, except the latest failure cause. */
  function ResetOf(s: TrunkState): TrunkState {
    Cleared(s.failedLatestCause)
  }

  /** `start`: registration comes first; only when it succeeds is `started` stamped. */
  function StartedAt(s: TrunkState, now: int64, registered: Result<(), Failure>): TrunkState {
    if registered.Success? then s.(started := now) else s
  }

  /** `notifyInput` */
  function InputNotified(s: TrunkState, now: int64): TrunkState {
    s.(inputCount := Incremented(s.inputCount), inputLatest := now)
  }

  /** `Long.toString(n)`: a minus sign for a negative `n`, then the decimal digits of its magnitude. */
  function LongText(n: int64): (r: string)
    ensures |r| > 0 && (r[0] == '-' <==> n < 0)
    ensures var digits := if n < 0 then r[1..] else r;
      |digits| > 0 && (forall i :: 0 <= i < |digits| ==> '0' <= digits[i] <= '9') &&
      (|digits| > 1 ==> digits[0] != '0') &&
      JavaStrings.DecimalValue(digits) == Abs(n as int)
  {
    if n < 0 then "-" + JavaStrings.Decimal(-(n as int)) else JavaStrings.Decimal(n as int)
  }

  /** The message of the IllegalArgumentException for a negative duration. */
  function NegativeDurationMessage(durationMillis: int64): string {
    "Negative duration: " + LongText(durationMillis)
  }

  /**
   * `notifyOutput(durationMillis)`: a negative duration is an IllegalArgumentException and
   * changes nothing; otherwise the output is counted and stamped and the duration recorded.
   */
  function OutputNotified(s: TrunkState, durationMillis: int64, now: int64): (r: Result<TrunkState, Failure>)
    ensures r.Failure? <==> durationMillis < 0
    ensures r.Failure? ==> r.error == IllegalArgument(Some(NegativeDurationMessage(durationMillis)), None)
  {
    if durationMillis < 0 then Failure(IllegalArgument(Some(NegativeDurationMessage(durationMillis)), None))
    else Success(s.(outputLatest := now, outputCount := Incremented(s.outputCount),
                    durations := Recorded(s.durations, durationMillis)))
  }

  /**
   * `notifyOutput()` as written: `now - inputLatest`. The guard against a missing input tests
   * the field for null, which it never is once the constructor's `reset` has run, so without
   * an input the sentinel `NONE` is subtracted.
   */
  function OutputNotifiedSinceInput(s: TrunkState, now: int64): Result<TrunkState, Failure> {
    OutputNotified(s, LongSub(now, s.inputLatest), now)
  }

  /** `notifyFailed(cause)` */
  function FailureNotified(s: TrunkState, cause: Option<Throwable>, now: int64): TrunkState {
    s.(failedCount := Incremented(s.failedCount), failedLatest := now, failedLatestCause := cause)
  }

  /** `notifyInput` counts one more input, stamps it, and changes nothing else. */
  lemma InputNotifiedEffect(s: TrunkState, now: int64)
    ensures var r := InputNotified(s, now);
      r.inputLatest == now && r.(inputCount := s.inputCount, inputLatest := s.inputLatest) == s &&
      (s.inputCount as int < LONG_MAX ==> r.inputCount as int == s.inputCount as int + 1)
  {
  }

  /**
   * A non-negative duration is counted and stamped, becomes the latest, is added to the total
   * and lies between the new minimum and maximum; nothing else changes.
   */
  lemma OutputNotifiedEffect(s: TrunkState, d: int64, now: int64)
    requires d >= 0
    ensures OutputNotified(s, d, now).Success?
    ensures var r := OutputNotified(s, d, now).value;
      r.outputLatest == now && r.outputCount == Incremented(s.outputCount) &&
      r.(outputLatest := s.outputLatest, outputCount := s.outputCount, durations := s.durations) == s
    ensures var r := OutputNotified(s, d, now).value;
      r.durations.latest == d && r.durations.min <= d <= r.durations.max &&
      r.durations.total == LongAdd(s.durations.total, d)
  {
  }

  /** `notifyFailed(cause)` counts one more failure, stamps it and keeps the cause, which may be null. */
  lemma FailureNotifiedEffect(s: TrunkState, cause: Option<Throwable>, now: int64)
    ensures var r := FailureNotified(s, cause, now);
      r.failedLatest == now && r.failedLatestCause == cause &&
      r.(failedCount := s.failedCount, failedLatest := s.failedLatest, failedLatestCause := s.failedLatestCause) == s &&
      (s.failedCount as int < LONG_MAX ==> r.failedCount as int == s.failedCount as int + 1)
  {
  }

  /** `reset` clears `started` with everything else but keeps the failure cause; resetting twice is resetting once. */
  lemma ResetClearsStarted(s: TrunkState)
    ensures ResetOf(s).started == NONE && ResetOf(s).failedLatestCause == s.failedLatestCause
    ensures ResetOf(s).inputCount == 0 && ResetOf(s).outputCount == 0 && ResetOf(s).failedCount == 0
    ensures ResetOf(s).durations == CLEARED
    ensures ResetOf(ResetOf(s)) == ResetOf(s)
  {
  }

  /** A failed registration leaves the bean as it was, `started` included; a successful one stamps `started` and nothing else. */
  lemma StartRegistersFirst(s: TrunkState, now: int64, registered: Result<(), Failure>)
    ensures registered.Failure? ==> StartedAt(s, now, registered) == s
    ensures registered.Success? ==>
      StartedAt(s, now, registered).started == now && StartedAt(s, now, registered).(started := s.started) == s
  {
  }

  /** Every operation that succeeds keeps the duration statistics consistent. */
  lemma OperationsKeepValid(s: TrunkState, d: int64, cause: Option<Throwable>, now: int64, registered: Result<(), Failure>)
    requires Valid(s)
    ensures Valid(ResetOf(s)) && Valid(InputNotified(s, now)) && Valid(FailureNotified(s, cause, now))
    ensures Valid(StartedAt(s, now, registered))
    ensures OutputNotified(s, d, now).Success? ==> Valid(OutputNotified(s, d, now).value)
    ensures OutputNotifiedSinceInput(s, now).Success? ==> Valid(OutputNotifiedSinceInput(s, now).value)
  {
    if d >= 0 {
      RecordedConsistent(s.durations, d);
    }
    var since := LongSub(now, s.inputLatest);
    if since >= 0 {
      RecordedConsistent(s.durations, since);
    }
  }

  // ---------------------------------------------------------------------------
  // notifyOutput() before any notifyInput

  /** For a clock at or after the epoch, `now - NONE` wraps to `now - 2^63`, which is negative. */
  lemma NowMinusNoneIsNegative(now: int64)
    requires now >= 0
    ensures LongSub(now, NONE) as int == now as int - 0x8000_0000_0000_0000
    ensures LongSub(now, NONE) < 0
  {
    WrapOfCongruent(now as int - NONE as int, now as int - 0x8000_0000_0000_0000);
  }

  /**
   * As written, `notifyOutput()` with no input since the last reset, at any time at or after
   * the epoch, is an IllegalArgumentException and the output is not counted.
   */
  lemma NoInputOutputRejected(s: TrunkState, now: int64)
    requires s.inputLatest == NONE && now >= 0
    ensures OutputNotifiedSinceInput(s, now).Failure?
    ensures OutputNotifiedSinceInput(s, now).error ==
      IllegalArgument(Some(NegativeDurationMessage(LongSub(now, NONE))), None)
  {
    NowMinusNoneIsNegative(now);
  }

  /**
   * `notifyOutput()` as evidently intended (and as the root tree's version does): a duration of
   * 0 when there was no input since the last reset.
   */
  function OutputNotifiedSinceInputIntended(s: TrunkState, now: int64): Result<TrunkState, Failure> {
    if s.inputLatest == NONE then OutputNotified(s, 0, now)
    else OutputNotified(s, LongSub(now, s.inputLatest), now)
  }

  /**
   * The intended `notifyOutput()` always succeeds without an input, counting the output and
   * recording 0, and agrees with the code once there has been an input.
   */
  lemma IntendedOutputAccepted(s: TrunkState, now: int64)
    ensures s.inputLatest == NONE ==>
      OutputNotifiedSinceInputIntended(s, now).Success? &&
      OutputNotifiedSinceInputIntended(s, now).value.durations == Recorded(s.durations, 0) &&
      OutputNotifiedSinceInputIntended(s, now).value.outputCount == Incremented(s.outputCount)
    ensures s.inputLatest != NONE ==> OutputNotifiedSinceInputIntended(s, now) == OutputNotifiedSinceInput(s, now)
  {
  }

  // ---------------------------------------------------------------------------
  // The object name

  /** `Package.toString()` for a package whose manifest gives no specification title or version. */
  function PackageText(packageName: string): string {
    "package " + packageName
  }

  /**
   * `createObjectName` as written: the domain is the bean class's package concatenated as an
   * object, that is its `toString()`, rather than its name.
   */
  function ObjectNameTextAsWritten(packageName: string, typeName: string, instanceName: string): string {
    AbstractPojoMBeans.ObjectNameText(PackageText(packageName), typeName, instanceName)
  }

  /**
   * As written, the text's domain (before its first ':') is "package " followed by the package
   * name, never the package name itself.
   */
  lemma AsWrittenDomainIsPackageText(packageName: string, typeName: string, instanceName: string)
    requires ':' !in packageName && ',' !in instanceName && ',' !in typeName
    ensures var split := JavaStrings.SplitFirst(ObjectNameTextAsWritten(packageName, typeName, instanceName), ':');
      split.Some? && split.value.0 == "package " + packageName && split.value.0 != packageName
  {
    assert ':' !in "package ";
    AbstractPojoMBeans.ObjectNameTextSplits(PackageText(packageName), typeName, instanceName);
    assert |PackageText(packageName)| > |packageName|;
  }

  /** `createObjectName` as evidently intended, as in `AbstractPojoMBean`: the package's name is the domain. */
  function ObjectNameTextIntended(packageName: string, typeName: string, instanceName: string): string {
    AbstractPojoMBeans.ObjectNameText(packageName, typeName, instanceName)
  }

  /** The intended text's domain is the package name, and its keys are "name" and "type". */
  lemma IntendedDomainIsPackageName(packageName: string, typeName: string, instanceName: string)
    requires ':' !in packageName && ',' !in instanceName && ',' !in typeName
    ensures var split := JavaStrings.SplitFirst(ObjectNameTextIntended(packageName, typeName, instanceName), ':');
      split.Some? && split.value.0 == packageName &&
      JavaStrings.Split(split.value.1, ',') == ["name=" + instanceName, "type=" + typeName]
  {
    AbstractPojoMBeans.ObjectNameTextSplits(packageName, typeName, instanceName);
  }

  // ---------------------------------------------------------------------------
  // The bean

  class ProcessingPojoMBean {
    /** `getName` */
    const instanceName: string
    /** The name the bean registers under. */
    const objectName: ObjectName

    var started: int64
    var inputCount: int64
    var inputLatest: int64
    var outputCount: int64
    var outputLatest: int64
    var durationLastMillis: int64
    var durationTotalMillis: int64
    var durationMaxMillis: int64
    var durationMinMillis: int64
    var failedCount: int64
    var failedLatest: int64
    var failedLatestCause: Option<Throwable>

    /** The fields as a value. */
    function State(): TrunkState
      reads this
    {
      TrunkState(started, inputCount, inputLatest, outputCount, outputLatest,
        DurationStats(durationLastMillis, durationTotalMillis, durationMinMillis, durationMaxMillis),
        failedCount, failedLatest, failedLatestCause)
    }

    /** The constructor's assignments, ending with `reset`; the cause has not been assigned and is null. */
    constructor (instanceName: string, objectName: ObjectName)
      ensures this.instanceName == instanceName && this.objectName == objectName && State() == Cleared(None)
    {
      this.instanceName := instanceName;
      this.objectName := objectName;
      failedLatestCause := None;
      started := NONE;
      inputLatest, outputLatest, failedLatest := NONE, NONE, NONE;
      inputCount, outputCount, failedCount := ZERO, ZERO, ZERO;
      durationLastMillis, durationTotalMillis, durationMinMillis, durationMaxMillis := NONE, ZERO, NONE, NONE;
    }

    /** `start`: `registered` is the registration's outcome; `started` is stamped only after it succeeds. */
    method Start(now: int64, registered: Result<(), Failure>) returns (r: Result<(), Failure>)
      modifies this
      ensures r == registered && State() == StartedAt(old(State()), now, registered)
    {
      if registered.Failure? {
        return registered;
      }
      started := now;
      r := registered;
    }

    /** `notifyInput` */
    method NotifyInput(now: int64)
      modifies this
      ensures State() == InputNotified(old(State()), now)
    {
      inputCount := Incremented(inputCount);
      inputLatest := now;
    }

    /** `notifyOutput()` */
    method NotifyOutput(now: int64) returns (r: Result<(), Failure>)
      modifies this
      ensures var expected := OutputNotifiedSinceInput(old(State()), now);
        (r.Failure? <==> expected.Failure?) && (r.Failure? ==> r.error == expected.error && State() == old(State()))
      ensures r.Success? ==> State() == OutputNotifiedSinceInput(old(State()), now).value
    {
      var durationMillis := LongSub(now, inputLatest);
      r := NotifyOutputMillis(durationMillis, now);
    }

    /** `notifyOutput(durationMillis)` */
    method NotifyOutputMillis(durationMillis: int64, now: int64) returns (r: Result<(), Failure>)
      modifies this
      ensures var expected := OutputNotified(old(State()), durationMillis, now);
        (r.Failure? <==> expected.Failure?) && (r.Failure? ==> r.error == expected.error && State() == old(State()))
      ensures r.Success? ==> State() == OutputNotified(old(State()), durationMillis, now).value
    {
      if durationMillis < 0 {
        return Failure(IllegalArgument(Some(NegativeDurationMessage(durationMillis)), None));
      }
      outputLatest := now;
      outputCount := Incremented(outputCount);
      RecordDuration(durationMillis);
      r := Success(());
    }

    /** The part of `notifyOutput(durationMillis)` that takes the duration into the statistics. */
    method RecordDuration(durationMillis: int64)
      requires durationMillis >= 0
      modifies this
      ensures State() == old(State()).(durations := Recorded(old(State()).durations, durationMillis))
    {
      durationLastMillis := durationMillis;
      durationTotalMillis := LongAdd(durationTotalMillis, durationMillis);
      var minMillis := GetDurationMinMillis();
      if minMillis.None? || durationMillis < minMillis.value {
        durationMinMillis := durationMillis;
      }
      var maxMillis := GetDurationMaxMillis();
      if maxMillis.None? || durationMillis > maxMillis.value {
        durationMaxMillis := durationMillis;
      }
    }

    /** `notifyFailed()`: a failure without a cause. */
    method NotifyFailed(now: int64)
      modifies this
      ensures State() == FailureNotified(old(State()), None, now)
    {
      NotifyFailedWith(None, now);
    }

    /** `notifyFailed(cause)` */
    method NotifyFailedWith(cause: Option<Throwable>, now: int64)
      modifies this
      ensures State() == FailureNotified(old(State()), cause, now)
    {
      failedCount := Incremented(failedCount);
      failedLatest := now;
      failedLatestCause := cause;
    }

    /** `reset` */
    method Reset()
      modifies this
      ensures State() == ResetOf(old(State()))
    {
      Assign(Cleared(failedLatestCause));
    }

    /** Every field set from `t`. */
    method Assign(t: TrunkState)
      modifies this
      ensures State() == t
    {
      started := t.started;
      inputCount, inputLatest, outputCount, outputLatest := t.inputCount, t.inputLatest, t.outputCount, t.outputLatest;
      durationLastMillis, durationTotalMillis := t.durations.latest, t.durations.total;
      durationMinMillis, durationMaxMillis := t.durations.min, t.durations.max;
      failedCount, failedLatest, failedLatestCause := t.failedCount, t.failedLatest, t.failedLatestCause;
    }

    /** `getStarted`: the start time rendered by the JDK (`toXmlFormat`), or null when not started since the last reset. */
    function GetStarted(toXmlFormat: XmlDate -> string): (r: Option<string>)
      reads this
      ensures r.None? <==> started == NONE
      ensures r.Some? ==> r.value == toXmlFormat(XmlDate(started))
    {
      DateString(NoneAsNull(started), toXmlFormat)
    }

    /** `getDurationMinMillis`: null before any duration is recorded. */
    function GetDurationMinMillis(): (r: Option<int64>)
      reads this
      ensures r.None? <==> durationMinMillis == NONE
      ensures r.Some? ==> r.value == durationMinMillis
    {
      NoneAsNull(durationMinMillis)
    }

    /** `getDurationMaxMillis`: null before any duration is recorded. */
    function GetDurationMaxMillis(): (r: Option<int64>)
      reads this
      ensures r.None? <==> durationMaxMillis == NONE
      ensures r.Some? ==> r.value == durationMaxMillis
    {
      NoneAsNull(durationMaxMillis)
    }

    /** `getProcessedDurationLatestMillis`: null before any duration is recorded. */
    function GetProcessedDurationLatestMillis(): (r: Option<int64>)
      reads this
      ensures r.None? <==> durationLastMillis == NONE
      ensures r.Some? ==> r.value == durationLastMillis
    {
      NoneAsNull(durationLastMillis)
    }

    /** `getProcessedDurationAverageMillis`: the total over the output count, or null with no output. */
    function GetProcessedDurationAverageMillis(): (r: Option<int64>)
      reads this
      ensures r.None? <==> outputCount == 0
      ensures r.Some? && durationTotalMillis >= 0 && outputCount > 0 ==>
        r.value as int == durationTotalMillis as int / outputCount as int
      ensures r.Some? && outputCount > 0 ==> r.value as int == TruncDiv(durationTotalMillis as int, outputCount as int)
    {
      Average(durationTotalMillis, outputCount)
    }

    /** `getReceivedLatestAgeSeconds`: whole seconds since the latest input, or null when there was none. */
    function GetReceivedLatestAgeSeconds(now: int64): (r: Option<int64>)
      reads this
      ensures r.None? <==> inputLatest == NONE
      ensures r.Some? && inputLatest <= now && now as int - inputLatest as int <= LONG_MAX ==> r.value >= 0
      ensures r.Some? ==> r.value as int == TruncDiv(LongSub(now, inputLatest) as int, 1000)
      ensures r.Some? && LONG_MIN <= now as int - inputLatest as int <= LONG_MAX ==>
        r.value as int == TruncDiv(now as int - inputLatest as int, 1000)
    {
      Age(NoneAsNull(inputLatest), SECONDS, now)
    }
  }

  /**
   * `ProcessingPojoMBean(monitored, instanceName)`: a null name is a NullPointerException naming
   * it, a null monitored object one without a message; the object name text as written, from
   * the bean class's package and the monitored object's class, is parsed by the JDK (`parse`);
   * the new bean is reset.
   */
  method Create(beanClass: ClassRef, monitored: Option<ClassRef>, instanceName: Option<string>,
                parse: string -> Result<ObjectName, Failure>) returns (r: Result<ProcessingPojoMBean, Failure>)
    ensures instanceName.None? ==> r == Failure(NullPointer(Some("instanceName")))
    ensures instanceName.Some? && monitored.None? ==> r == Failure(NullPointer(None))
    ensures instanceName.Some? && monitored.Some? ==>
      var parsed := parse(ObjectNameTextAsWritten(beanClass.packageName, monitored.value.Name(), instanceName.value));
      (r.Success? <==> parsed.Success?) && (r.Failure? ==> r.error == parsed.error) &&
      (r.Success? ==>
        fresh(r.value) && r.value.objectName == parsed.value &&
        r.value.instanceName == instanceName.value && r.value.State() == Cleared(None))
  {
    if instanceName.None? {
      return Failure(NullPointer(Some("instanceName")));
    }
    if monitored.None? {
      return Failure(NullPointer(None));
    }
    var parsed := parse(ObjectNameTextAsWritten(beanClass.packageName, monitored.value.Name(), instanceName.value));
    if parsed.Failure? {
      return Failure(parsed.error);
    }
    var bean := new ProcessingPojoMBean(instanceName.value, parsed.value);
    r := Success(bean);
  }
}
