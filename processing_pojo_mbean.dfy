/**
 * The `ProcessingPojoMBean` of the root tree: counters, timestamps and processing-duration
 * statistics (in milliseconds) of a message-processing component. It extends
 * `AbstractPojoMBean`; the model holds the base part as `base`. A negative duration is
 * clamped to 0, and `reset` keeps the latest failure cause. The clock is a parameter.
 */
module ProcessingPojoMBeans {
  import opened Wrappers
  import opened JavaLang
  import opened TimeUnits
  import opened Metrics
  import AbstractPojoMBeans

  /** The bean's own fields as a value. */
  datatype ProcessingState = ProcessingState(
    inputCount: int64, inputLatest: int64,
    outputCount: int64, outputLatest: int64,
    durations: DurationStats,
    failedCount: int64, failedLatest: int64, failedLatestCause: Option<Throwable>)

  /** Counts and total 0, timestamps and durations `NONE`, and the given failure cause. */
  function Cleared(cause: Option<Throwable>): ProcessingState {
    ProcessingState(ZERO, NONE, ZERO, NONE, CLEARED, ZERO, NONE, cause)
  }

  /** The duration statistics are consistent (see `Metrics.Consistent`). */
  predicate Valid(s: ProcessingState) {
    Consistent(s.durations)
  }

  /** `reset`: everything cleared except the latest failure cause, which is kept. */
  function ResetOf(s: ProcessingState): ProcessingState {
    Cleared(s.failedLatestCause)
  }

  /** `notifyInput` */
  function InputNotified(s: ProcessingState, now: int64): ProcessingState {
    s.(inputCount := Incremented(s.inputCount), inputLatest := now)
  }

  /** `notifyOutput(durationMillis)`: the duration, clamped at 0, is counted, stamped and recorded. */
  function OutputNotified(s: ProcessingState, durationMillis: int64, now: int64): ProcessingState {
    s.(outputLatest := now, outputCount := Incremented(s.outputCount),
       durations := Recorded(s.durations, Max(0, durationMillis)))
  }

  /** `notifyOutput()`: the time since the latest input, or 0 when there was none since the last reset. */
  function OutputNotifiedSinceInput(s: ProcessingState, now: int64): ProcessingState {
    if s.inputLatest == NONE then OutputNotified(s, 0, now)
    else OutputNotified(s, LongSub(now, s.inputLatest), now)
  }

  /** `notifyFailed(cause)` */
  function FailureNotified(s: ProcessingState, cause: Option<Throwable>, now: int64): ProcessingState {
    s.(failedCount := Incremented(s.failedCount), failedLatest := now, failedLatestCause := cause)
  }

  /** `notifyInput` counts one more input, stamps it, and changes nothing else. */
  lemma InputNotifiedEffect(s: ProcessingState, now: int64)
    ensures var r := InputNotified(s, now);
      r.inputLatest == now && r.(inputCount := s.inputCount, inputLatest := s.inputLatest) == s &&
      (s.inputCount as int < LONG_MAX ==> r.inputCount as int == s.inputCount as int + 1)
  {
  }

  /**
   * `notifyOutput(d)` counts and stamps the output; the clamped duration (0 for a negative
   * `d`, `d` otherwise) becomes the latest, is added to the total and lies between the new
   * minimum and maximum. Nothing else changes.
   */
  lemma OutputNotifiedEffect(s: ProcessingState, d: int64, now: int64)
    ensures var r := OutputNotified(s, d, now);
      r.outputLatest == now && r.outputCount == Incremented(s.outputCount) &&
      r.(outputLatest := s.outputLatest, outputCount := s.outputCount, durations := s.durations) == s
    ensures var r := OutputNotified(s, d, now);
      r.durations.latest == (if d < 0 then 0 else d) &&
      r.durations.min <= r.durations.latest <= r.durations.max &&
      r.durations.total == LongAdd(s.durations.total, r.durations.latest)
    ensures var r := OutputNotified(s, d, now);
      d >= 0 && s.durations.total as int + d as int <= LONG_MAX ==> r.durations.total as int == s.durations.total as int + d as int
  {
  }

  /** `notifyOutput()` without an input since the last reset records a duration of 0. */
  lemma NoInputRecordsZero(s: ProcessingState, now: int64)
    requires s.inputLatest == NONE
    ensures OutputNotifiedSinceInput(s, now).durations == Recorded(s.durations, 0)
    ensures OutputNotifiedSinceInput(s, now).outputCount == Incremented(s.outputCount)
  {
  }

  /** After an input at `t` and no later one, `notifyOutput()` at `now >= t` records `now - t`. */
  lemma SinceInputMeasuresElapsed(s: ProcessingState, t: int64, now: int64)
    requires t != NONE && t <= now && now as int - t as int <= LONG_MAX
    ensures OutputNotifiedSinceInput(InputNotified(s, t), now).durations.latest as int == now as int - t as int
  {
  }

  /** `notifyFailed(cause)` counts one more failure, stamps it and keeps the cause, which may be null. */
  lemma FailureNotifiedEffect(s: ProcessingState, cause: Option<Throwable>, now: int64)
    ensures var r := FailureNotified(s, cause, now);
      r.failedLatest == now && r.failedLatestCause == cause &&
      r.(failedCount := s.failedCount, failedLatest := s.failedLatest, failedLatestCause := s.failedLatestCause) == s &&
      (s.failedCount as int < LONG_MAX ==> r.failedCount as int == s.failedCount as int + 1)
  {
  }

  /**
   * `reset` clears every counter, timestamp and duration but keeps the latest failure cause;
   * resetting twice is resetting once.
   */
  lemma ResetKeepsCause(s: ProcessingState)
    ensures ResetOf(s).failedLatestCause == s.failedLatestCause
    ensures ResetOf(s).inputCount == 0 && ResetOf(s).outputCount == 0 && ResetOf(s).failedCount == 0
    ensures ResetOf(s).inputLatest == NONE && ResetOf(s).outputLatest == NONE && ResetOf(s).failedLatest == NONE
    ensures ResetOf(s).durations == CLEARED
    ensures ResetOf(ResetOf(s)) == ResetOf(s)
  {
  }

  /** Every operation keeps the duration statistics consistent. */
  lemma OperationsKeepValid(s: ProcessingState, d: int64, cause: Option<Throwable>, now: int64)
    requires Valid(s)
    ensures Valid(ResetOf(s)) && Valid(InputNotified(s, now)) && Valid(FailureNotified(s, cause, now))
    ensures Valid(OutputNotified(s, d, now)) && Valid(OutputNotifiedSinceInput(s, now))
  {
    RecordedConsistent(s.durations, Max(0, d));
    if s.inputLatest == NONE {
      RecordedConsistent(s.durations, 0);
    } else {
      RecordedConsistent(s.durations, Max(0, LongSub(now, s.inputLatest)));
    }
  }

  // ---------------------------------------------------------------------------
  // Runs of outputs

  /** `notifyOutput(d)` for each duration in turn. */
  function OutputsNotified(s: ProcessingState, ds: seq<int64>, now: int64): ProcessingState
    decreases |ds|
  {
    if ds == [] then s else OutputsNotified(OutputNotified(s, ds[0], now), ds[1..], now)
  }

  /**
   * A run of non-negative durations is recorded as `Metrics.RecordedAll` records it, and counts
   * one output per duration when the count does not wrap.
   */
  lemma {:induction false} OutputsRecordAll(s: ProcessingState, ds: seq<int64>, now: int64)
    requires forall i :: 0 <= i < |ds| ==> ds[i] >= 0
    ensures OutputsNotified(s, ds, now).durations == RecordedAll(s.durations, ds)
    ensures s.outputCount >= 0 && s.outputCount as int + |ds| <= LONG_MAX ==>
      OutputsNotified(s, ds, now).outputCount as int == s.outputCount as int + |ds|
    decreases |ds|
  {
    if ds != [] {
      OutputsRecordAll(OutputNotified(s, ds[0], now), ds[1..], now);
    }
  }

  /**
   * After a reset and a run of outputs whose total does not wrap, the minimum and maximum are
   * the run's and `getDurationAverageMillis` lies between them.
   */
  lemma AverageOfRunBetweenExtremes(cause: Option<Throwable>, ds: seq<int64>, now: int64)
    requires |ds| > 0 && forall i :: 0 <= i < |ds| ==> ds[i] >= 0
    requires |ds| <= LONG_MAX && Sum(ds) <= LONG_MAX
    ensures var r := OutputsNotified(Cleared(cause), ds, now);
      r.durations.min == SeqMin(ds) && r.durations.max == SeqMax(ds)
    ensures var r := OutputsNotified(Cleared(cause), ds, now);
      var avg := Average(r.durations.total, r.outputCount);
      avg.Some? && SeqMin(ds) <= avg.value <= SeqMax(ds)
  {
    OutputsRecordAll(Cleared(cause), ds, now);
    RecordedAllSummary(CLEARED, ds);
    AverageBetweenExtremes(ds);
  }

  // ---------------------------------------------------------------------------
  // The bean

  class ProcessingPojoMBean {
    /** The `AbstractPojoMBean` part: the name, the object name and `started`. */
    const base: AbstractPojoMBeans.AbstractPojoMBean

    var inputCount: int64
    var inputLatest: int64
    var outputCount: int64
    var outputLatest: int64
    var durationLastMillis: int64
    var durationTotalMillis: int64
    var durationMaxMillis: int64
    var durationMinMillis: int64
    var failedCount: int64
    var failedLatest: int64
    var failedLatestCause: Option<Throwable>

    /** The bean's own fields as a value. */
    function State(): ProcessingState
      reads this
    {
      ProcessingState(inputCount, inputLatest, outputCount, outputLatest,
        DurationStats(durationLastMillis, durationTotalMillis, durationMinMillis, durationMaxMillis),
        failedCount, failedLatest, failedLatestCause)
    }

    /**
     * The constructors: the base constructor ends with `reset`, which runs this class's
     * override; the cause field has not been assigned yet and is null.
     */
    constructor (base: AbstractPojoMBeans.AbstractPojoMBean)
      ensures this.base == base && State() == Cleared(None)
    {
      this.base := base;
      failedLatestCause := None;
      inputLatest, outputLatest, failedLatest := NONE, NONE, NONE;
      inputCount, outputCount, failedCount := ZERO, ZERO, ZERO;
      durationLastMillis, durationMinMillis, durationMaxMillis, durationTotalMillis := NONE, NONE, NONE, ZERO;
    }

    /** `notifyInput` */
    method NotifyInput(now: int64)
      modifies this
      ensures State() == InputNotified(old(State()), now)
    {
      inputCount := Incremented(inputCount);
      inputLatest := now;
    }

    /** `notifyOutput()` */
    method NotifyOutput(now: int64)
      modifies this
      ensures State() == OutputNotifiedSinceInput(old(State()), now)
    {
      var latest := inputLatest;
      if latest == NONE {
        NotifyOutputMillis(0, now);
      } else {
        NotifyOutputMillis(LongSub(now, latest), now);
      }
    }

    /** `notifyOutput(durationMillis)` */
    method NotifyOutputMillis(durationMillis: int64, now: int64)
      modifies this
      ensures State() == OutputNotified(old(State()), durationMillis, now)
    {
      var clamped := Max(0, durationMillis);
      outputLatest := now;
      outputCount := Incremented(outputCount);
      RecordDuration(clamped);
    }

    /** The part of `notifyOutput(durationMillis)` that takes the clamped duration into the statistics. */
    method RecordDuration(durationMillis: int64)
      requires durationMillis >= 0
      modifies this
      ensures State() == old(State()).(durations := Recorded(old(State()).durations, durationMillis))
    {
      durationLastMillis := durationMillis;
      durationTotalMillis := LongAdd(durationTotalMillis, durationMillis);
      var minMillis := GetDurationMinMillis();
      if minMillis.None? || durationMillis < minMillis.value {
        durationMinMillis := durationMillis;
      }
      var maxMillis := GetDurationMaxMillis();
      if maxMillis.None? || durationMillis > maxMillis.value {
        durationMaxMillis := durationMillis;
      }
    }

    /** `notifyFailed()`: a failure without a cause. */
    method NotifyFailed(now: int64)
      modifies this
      ensures State() == FailureNotified(old(State()), None, now)
    {
      NotifyFailedWith(None, now);
    }

    /** `notifyFailed(cause)` */
    method NotifyFailedWith(cause: Option<Throwable>, now: int64)
      modifies this
      ensures State() == FailureNotified(old(State()), cause, now)
    {
      failedCount := Incremented(failedCount);
      failedLatest := now;
      failedLatestCause := cause;
    }

    /** `reset`: the base part's reset, which keeps `started`, then the own fields; the cause is kept. */
    method Reset()
      modifies this
      ensures State() == ResetOf(old(State()))
      ensures base.started == old(base.started)
    {
      base.Reset();
      inputLatest, outputLatest, failedLatest := NONE, NONE, NONE;
      inputCount, outputCount, failedCount := ZERO, ZERO, ZERO;
      durationLastMillis, durationMinMillis, durationMaxMillis, durationTotalMillis := NONE, NONE, NONE, ZERO;
    }

    /** `getDurationLatestMillis`: null before any duration is recorded. */
    function GetDurationLatestMillis(): (r: Option<int64>)
      reads this
      ensures r.None? <==> durationLastMillis == NONE
      ensures r.Some? ==> r.value == durationLastMillis
    {
      NoneAsNull(durationLastMillis)
    }

    /** `getDurationMinMillis`: null before any duration is recorded. */
    function GetDurationMinMillis(): (r: Option<int64>)
      reads this
      ensures r.None? <==> durationMinMillis == NONE
      ensures r.Some? ==> r.value == durationMinMillis
    {
      NoneAsNull(durationMinMillis)
    }

    /** `getDurationMaxMillis`: null before any duration is recorded. */
    function GetDurationMaxMillis(): (r: Option<int64>)
      reads this
      ensures r.None? <==> durationMaxMillis == NONE
      ensures r.Some? ==> r.value == durationMaxMillis
    {
      NoneAsNull(durationMaxMillis)
    }

    /** `getDurationAverageMillis`: the total over the output count, or null with no output. */
    function GetDurationAverageMillis(): (r: Option<int64>)
      reads this
      ensures r.None? <==> outputCount == 0
      ensures r.Some? && durationTotalMillis >= 0 && outputCount > 0 ==>
        r.value as int == durationTotalMillis as int / outputCount as int
      ensures r.Some? && outputCount > 0 ==> r.value as int == TruncDiv(durationTotalMillis as int, outputCount as int)
    {
      Average(durationTotalMillis, outputCount)
    }

    /** `getInputLatest`: the time of the latest input rendered by the JDK (`toXmlFormat`), or null when there was none. */
    function GetInputLatest(toXmlFormat: XmlDate -> string): (r: Option<string>)
      reads this
      ensures r.None? <==> inputLatest == NONE
      ensures r.Some? ==> r.value == toXmlFormat(XmlDate(inputLatest))
    {
      DateString(NoneAsNull(inputLatest), toXmlFormat)
    }

    /** `getInputLatestAgeSeconds`: whole seconds since the latest input, or null when there was none. */
    function GetInputLatestAgeSeconds(now: int64): (r: Option<int64>)
      reads this
      ensures r.None? <==> inputLatest == NONE
      ensures r.Some? && inputLatest <= now && now as int - inputLatest as int <= LONG_MAX ==> r.value >= 0
      ensures r.Some? ==> r.value as int == TruncDiv(LongSub(now, inputLatest) as int, 1000)
      ensures r.Some? && LONG_MIN <= now as int - inputLatest as int <= LONG_MAX ==>
        r.value as int == TruncDiv(now as int - inputLatest as int, 1000)
    {
      Age(NoneAsNull(inputLatest), SECONDS, now)
    }
  }

  /** `ProcessingPojoMBean(domain, type, name)`: the base part's checks and object name, then a cleared bean. */
  method Create(domain: Option<string>, type_: Option<ClassRef>, name: Option<string>,
                parse: string -> Result<ObjectName, Failure>) returns (r: Result<ProcessingPojoMBean, Failure>)
    ensures r.Success? <==> AbstractPojoMBeans.ObjectNameFor(domain, type_, name, parse).Success?
    ensures r.Failure? ==> r.error == AbstractPojoMBeans.ObjectNameFor(domain, type_, name, parse).error
    ensures r.Success? ==>
      fresh(r.value) && r.value.State() == Cleared(None) && r.value.base.started.None? &&
      r.value.base.objectName == AbstractPojoMBeans.ObjectNameFor(domain, type_, name, parse).value
  {
    var base :- AbstractPojoMBeans.Create(domain, type_, name, parse);
    var bean := new ProcessingPojoMBean(base);
    r := Success(bean);
  }
}
