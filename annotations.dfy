/**
 * The annotation types of the library: the enums that carry behaviour
 * (`ManagedAttribute.Access`, `ManagedOperation.Impact`,
 * `Descriptor.MetricType`), their default values, and the marker records
 * the MBean builders read off classes, methods and parameters.
 */
module Annotations {
  import opened Wrappers
  import JavaStrings

  /** `ManagedAttribute.Access`: what a management client may do with an attribute. */
  datatype Access = READ | WRITE | READ_WRITE {
    /** the `canRead` flag */
    function CanRead(): (r: bool)
      ensures r <==> this != WRITE
    {
      match this
      case READ => true
      case WRITE => false
      case READ_WRITE => true
    }

    /** the `canWrite` flag */
    function CanWrite(): (r: bool)
      ensures r <==> this != READ
    {
      match this
      case READ => false
      case WRITE => true
      case READ_WRITE => true
    }
  }

  /** The constant the two flags of an `Access` identify: the flags tell the constants apart. */
  function AccessOf(canRead: bool, canWrite: bool): (r: Option<Access>)
    ensures r.Some? <==> canRead || canWrite
    ensures r.Some? ==> r.value.CanRead() == canRead && r.value.CanWrite() == canWrite
  {
    if canRead && canWrite then Some(READ_WRITE)
    else if canRead then Some(READ)
    else if canWrite then Some(WRITE)
    else None
  }

  /** Every constant grants at least one right, and is recovered from its flags. */
  lemma AccessFlagsIdentify(a: Access)
    ensures a.CanRead() || a.CanWrite()
    ensures AccessOf(a.CanRead(), a.CanWrite()) == Some(a)
  {
    match a
    case READ =>
    case WRITE =>
    case READ_WRITE =>
  }

  /** `@ManagedAttribute(value, access)` */
  datatype ManagedAttribute = ManagedAttribute(value: string, access: Access)

  /** `@ManagedAttribute` with every member left at its default. */
  const DefaultManagedAttribute: ManagedAttribute := ManagedAttribute("", READ)

  /** `ManagedOperation.Impact`, whose `impactValue` is the JMX impact code. */
  datatype Impact = INFO | ACTION | ACTION_INFO | UNKNOWN {
    function ImpactValue(): (v: int)
      ensures 0 <= v <= 3
      ensures this == INFO <==> v == 0
      ensures this == ACTION <==> v == 1
      ensures this == ACTION_INFO <==> v == 2
      ensures this == UNKNOWN <==> v == 3
    {
      match this
      case INFO => 0
      case ACTION => 1
      case ACTION_INFO => 2
      case UNKNOWN => 3
    }
  }

  /** The constant whose `impactValue` is `v`, if any. */
  function ImpactOf(v: int): (r: Option<Impact>)
    ensures r.Some? <==> 0 <= v <= 3
    ensures r.Some? ==> r.value.ImpactValue() == v
  {
    if v == 0 then Some(INFO)
    else if v == 1 then Some(ACTION)
    else if v == 2 then Some(ACTION_INFO)
    else if v == 3 then Some(UNKNOWN)
    else None
  }

  /** `impactValue` is injective: two constants with the same code are the same constant. */
  lemma ImpactValueInjective(a: Impact, b: Impact)
    requires a.ImpactValue() == b.ImpactValue()
    ensures a == b
  {
    var r := ImpactOf(a.ImpactValue());
    assert r == Some(a) by { match a case INFO => case ACTION => case ACTION_INFO => case UNKNOWN => }
    assert r == Some(b) by { match b case INFO => case ACTION => case ACTION_INFO => case UNKNOWN => }
  }

  /** `@ManagedOperation(value, impact)` */
  datatype ManagedOperation = ManagedOperation(value: string, impact: Impact)

  /** `@ManagedOperation` with every member left at its default. */
  const DefaultManagedOperation: ManagedOperation := ManagedOperation("", UNKNOWN)

  /** `Descriptor.MetricType`, whose `toString` is its name in lower case. */
  datatype MetricType = METRIC_UNKNOWN | COUNTER | GAUGE {
    /** `name()` */
    function Name(): string {
      match this
      case METRIC_UNKNOWN => "UNKNOWN"
      case COUNTER => "COUNTER"
      case GAUGE => "GAUGE"
    }

    /** `toString()` */
    function ToString(): (r: string)
      ensures r == JavaStrings.ToLower(Name())
    {
      match this
      case METRIC_UNKNOWN => "unknown"
      case COUNTER => "counter"
      case GAUGE => "gauge"
    }
  }

  /** `toString` tells the three constants apart. */
  lemma MetricTypeToStringInjective(a: MetricType, b: MetricType)
    requires a.ToString() == b.ToString()
    ensures a == b
  {
    match a
    case METRIC_UNKNOWN => assert a.ToString()[0] == 'u';
    case COUNTER => assert a.ToString()[0] == 'c';
    case GAUGE => assert a.ToString()[0] == 'g';
  }

  /** `Descriptor.NONE` */
  const NONE: string := ""

  /** `@Descriptor(...)`; `legalValues` is a string array. */
  datatype Descriptor = Descriptor(
    units: string, defaultValue: string, minValue: string, legalValues: seq<string>,
    maxValue: string, since: string, metricType: MetricType, enabled: bool)

  /** `@Descriptor` with every member left at its default (an array default given as one element). */
  const DefaultDescriptor: Descriptor :=
    Descriptor(NONE, NONE, NONE, [NONE], NONE, NONE, METRIC_UNKNOWN, true)

  // The marker records below hold the members the builders read, as they read them.

  /** `@Property(value)`: the attribute description. */
  datatype PropertyMarker = PropertyMarker(value: string)

  /** `@Operation`: description and impact; a missing impact reads as null. */
  datatype OperationMarker = OperationMarker(value: string, impact: Option<Impact>)

  /** `@Parameter`: a parameter's published name and description. */
  datatype ParameterMarker = ParameterMarker(name: string, description: string)

  /** `@MBean`: the description (`value`) and the object name text. */
  datatype MBeanMarker = MBeanMarker(value: string, objectName: string)

  /** `@Description(value)`, the marker of the older builder. */
  datatype DescriptionMarker = DescriptionMarker(value: string)
}
