/**
 * The trunk `AbstractMBean`: the base of the self-registering metric beans. It holds the
 * object name its registration uses and the time it was started. Only `start` assigns
 * `started`, so until then the field is a null reference.
 */
module AbstractMBeans {
  import opened Wrappers
  import opened JavaLang
  import opened Beans
  import opened Metrics
  import ObjectNameBuilders

  class AbstractMBean {
    /** The name the bean's `MBeanRegistration` registers it under. */
    const objectName: ObjectName
    /** `started`: None while the reference is null, that is before the first `start`. */
    var started: Option<int64>

    /**
     * `AbstractMBean(ObjectName)`. `initialize` runs `resetMBean`, which in the base class
     * changes nothing and in particular leaves `started` null.
     */
    constructor (objectName: ObjectName)
      ensures this.objectName == objectName && started.None?
    {
      this.objectName := objectName;
      started := None;
    }

    /**
     * `start`: `started` is stamped before the bean is registered, so it stays stamped when
     * registration fails; `registered` is the registration's outcome.
     */
    method Start(now: int64, registered: Result<(), Failure>) returns (r: Result<(), Failure>)
      modifies this
      ensures started == Some(now) && r == registered
    {
      started := Some(now);
      r := registered;
    }

    /**
     * `getStarted`: the start time as a date, or null when `started` holds `NONE`. Before
     * `start`, reading the null reference is a NullPointerException.
     */
    function GetStarted(): (r: Result<Option<XmlDate>, Failure>)
      reads this
      ensures r.Failure? <==> started.None?
      ensures r.Failure? ==> r.error == NullPointer(None)
      ensures r.Success? ==> (r.value.None? <==> started.value == NONE)
      ensures r.Success? && r.value.Some? ==> r.value.value.millis == started.value
    {
      match started
      case None => Failure(NullPointer(None))
      case Some(n) => Success(Date(NoneAsNull(n)))
    }
  }

  /** The text `ObjectNameBuilder.withObjectName(Class)` reports for a class without `@MBean`. */
  function NotAnnotatedMessage(beanClass: ClassDesc): string {
    "class " + beanClass.classRef.Name() + " is not annotated with " + ObjectNameBuilders.MBEAN_ANNOTATION_CLASS
  }

  /**
   * `AbstractMBean()`: the object name is the class's `@MBean` object name text, parsed by
   * the JDK (`parse`), through `ObjectNameBuilder`.
   */
  method FromMarker(beanClass: ClassDesc, parse: string -> Result<ObjectName, Failure>) returns (r: Result<AbstractMBean, Failure>)
    ensures beanClass.mbean.None? ==> r == Failure(NullPointer(Some(NotAnnotatedMessage(beanClass))))
    ensures r.Success? <==>
      beanClass.mbean.Some? && beanClass.mbean.value.objectName != "" && parse(beanClass.mbean.value.objectName).Success?
    ensures r.Success? ==>
      fresh(r.value) && r.value.objectName == parse(beanClass.mbean.value.objectName).value && r.value.started.None?
  {
    var builder := new ObjectNameBuilders.ObjectNameBuilder();
    var stored := builder.WithObjectNameOfClass(beanClass, parse);
    if stored.Failure? {
      return stored.PropagateFailure();
    }
    var name := builder.Build();
    ObjectNameBuilders.BuildReturnsStoredName(ObjectNameBuilders.EMPTY, parse(beanClass.mbean.value.objectName).value);
    var bean := new AbstractMBean(name.value);
    r := Success(bean);
  }

  /**
   * `AbstractMBean(mbeanName)`: as `AbstractMBean()`, with the "name" key of the marker's
   * object name bound to `mbeanName` and the domain and other keys kept. `withName` accepts a
   * null name, and `build` then fails with a NullPointerException; `build` also refuses a
   * name holding a character a value may not.
   */
  method FromMarkerNamed(beanClass: ClassDesc, mbeanName: Option<string>, parse: string -> Result<ObjectName, Failure>)
    returns (r: Result<AbstractMBean, Failure>)
    ensures beanClass.mbean.None? ==> r == Failure(NullPointer(Some(NotAnnotatedMessage(beanClass))))
    ensures r.Success? <==>
      beanClass.mbean.Some? && beanClass.mbean.value.objectName != "" && parse(beanClass.mbean.value.objectName).Success? &&
      mbeanName.Some? &&
      var parsed := parse(beanClass.mbean.value.objectName).value;
      WellFormedName(parsed.domain, parsed.keys[ObjectNameBuilders.KEY_NAME := mbeanName.value])
    ensures (beanClass.mbean.Some? && beanClass.mbean.value.objectName != "" && parse(beanClass.mbean.value.objectName).Success? &&
      mbeanName.None?) ==> r == Failure(NullPointer(None))
    ensures (beanClass.mbean.Some? && beanClass.mbean.value.objectName != "" && parse(beanClass.mbean.value.objectName).Success? &&
      mbeanName.Some? && r.Failure?) ==> r == Failure(ObjectNameRejected)
    ensures r.Success? ==> fresh(r.value) && r.value.started.None?
    ensures r.Success? ==>
      var parsed := parse(beanClass.mbean.value.objectName).value;
      r.value.objectName == ObjectName(parsed.domain, parsed.keys[ObjectNameBuilders.KEY_NAME := mbeanName.value])
  {
    var builder := new ObjectNameBuilders.ObjectNameBuilder();
    var stored := builder.WithObjectNameOfClass(beanClass, parse);
    if stored.Failure? {
      return stored.PropagateFailure();
    }
    builder.WithName(mbeanName);
    var name := builder.Build();
    var parsed := parse(beanClass.mbean.value.objectName).value;
    assert ObjectNameBuilders.KEY_NAME in builder.properties;
    assert builder.properties == (map[] + Wrapped(parsed.keys))[ObjectNameBuilders.KEY_NAME := mbeanName];
    assert map[] + Wrapped(parsed.keys) == Wrapped(parsed.keys);
    if mbeanName.Some? {
      assert Unwrapped(builder.properties) == parsed.keys[ObjectNameBuilders.KEY_NAME := mbeanName.value];
    }
    if name.Failure? {
      return name.PropagateFailure();
    }
    var bean := new AbstractMBean(name.value);
    r := Success(bean);
  }
}
