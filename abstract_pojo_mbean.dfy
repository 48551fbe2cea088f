/**
 * The trunk `AbstractPojoMBean`: the base of the self-registering POJO metric beans. It
 * holds the bean's name, the object name `<domain>:name=<name>,type=<type>` it registers
 * under, and the time it was started. Only `start` assigns `started`, so until then the
 * field is a null reference.
 */
module AbstractPojoMBeans {
  import opened Wrappers
  import opened JavaLang
  import opened Metrics
  import JavaStrings

  /** The object name text: `<domain>:name=<name>,type=<type name>`. */
  function ObjectNameText(domain: string, typeName: string, name: string): string {
    domain + ":name=" + name + ",type=" + typeName
  }

  /**
   * The text splits back into its parts: before the first ':' is the domain, and the rest
   * splits at ',' into "name=<name>" and "type=<type name>", in that order.
   */
  lemma ObjectNameTextSplits(domain: string, typeName: string, name: string)
    requires ':' !in domain && ',' !in name && ',' !in typeName
    ensures var text := ObjectNameText(domain, typeName, name);
      var rest := "name=" + name + ",type=" + typeName;
      JavaStrings.SplitFirst(text, ':') == Some((domain, rest)) &&
      JavaStrings.Split(rest, ',') == ["name=" + name, "type=" + typeName]
  {
    var rest := "name=" + name + ",type=" + typeName;
    assert ObjectNameText(domain, typeName, name) == domain + [':'] + rest;
    JavaStrings.SplitFirstOfJoined(domain, ':', rest);
    KeyPropertiesSplit(name, typeName);
  }

  /** "name=<name>,type=<type name>" splits at ',' into its two key properties. */
  lemma KeyPropertiesSplit(name: string, typeName: string)
    requires ',' !in name && ',' !in typeName
    ensures JavaStrings.Split("name=" + name + ",type=" + typeName, ',') == ["name=" + name, "type=" + typeName]
  {
    var pieces := ["name=" + name, "type=" + typeName];
    assert JavaStrings.Join(pieces, ',') == "name=" + name + ",type=" + typeName;
    assert ',' !in "name=" && ',' !in "type=";
    JavaStrings.SplitJoin(pieces, ',');
  }

  /**
   * `AbstractPojoMBean(domain, type, name)` up to the object name: the domain, the type and
   * the name are checked for null in that order, each failure a NullPointerException naming
   * it; the object name text is then parsed by the JDK (`parse`).
   */
  function ObjectNameFor(domain: Option<string>, type_: Option<ClassRef>, name: Option<string>,
                         parse: string -> Result<ObjectName, Failure>): (r: Result<ObjectName, Failure>)
    ensures domain.None? ==> r == Failure(NullPointer(Some("monitoredPackage")))
    ensures domain.Some? && type_.None? ==> r == Failure(NullPointer(Some("monitoredClass")))
    ensures domain.Some? && type_.Some? && name.None? ==> r == Failure(NullPointer(Some("name")))
    ensures domain.Some? && type_.Some? && name.Some? ==>
      r == parse(ObjectNameText(domain.value, type_.value.Name(), name.value))
    ensures r.Success? ==> domain.Some? && type_.Some? && name.Some?
  {
    if domain.None? then Failure(NullPointer(Some("monitoredPackage")))
    else if type_.None? then Failure(NullPointer(Some("monitoredClass")))
    else if name.None? then Failure(NullPointer(Some("name")))
    else parse(ObjectNameText(domain.value, type_.value.Name(), name.value))
  }

  class AbstractPojoMBean {
    /** `getName` */
    const name: string
    /** The name the bean registers under. */
    const objectName: ObjectName
    /** `started`: None while the reference is null, that is before the first `start`. */
    var started: Option<int64>

    /** The constructor's assignments; its `reset` changes nothing and leaves `started` null. */
    constructor (name: string, objectName: ObjectName)
      ensures this.name == name && this.objectName == objectName && started.None?
    {
      this.name := name;
      this.objectName := objectName;
      started := None;
    }

    /** `reset`: nothing to reset; in particular the start time is kept. */
    method Reset()
      ensures started == old(started)
    {
    }

    /**
     * `start`: `started` is stamped before the bean is registered, so it stays stamped when
     * registration fails; `registered` is the registration's outcome.
     */
    method Start(now: int64, registered: Result<(), Failure>) returns (r: Result<(), Failure>)
      modifies this
      ensures started == Some(now) && r == registered
    {
      started := Some(now);
      r := registered;
    }

    /**
     * `getStarted`: the start time rendered by the JDK (`toXmlFormat`), or null when `started`
     * holds `NONE`. Before `start`, reading the null reference is a NullPointerException.
     */
    function GetStarted(toXmlFormat: XmlDate -> string): (r: Result<Option<string>, Failure>)
      reads this
      ensures r.Failure? <==> started.None?
      ensures r.Failure? ==> r.error == NullPointer(None)
      ensures r.Success? ==> (r.value.None? <==> started.value == NONE)
      ensures r.Success? && r.value.Some? ==> r.value.value == toXmlFormat(XmlDate(started.value))
    {
      match started
      case None => Failure(NullPointer(None))
      case Some(n) => Success(DateString(NoneAsNull(n), toXmlFormat))
    }
  }

  /** `AbstractPojoMBean(domain, type, name)`: the checks and the object name of `ObjectNameFor`, then a bean not yet started. */
  method Create(domain: Option<string>, type_: Option<ClassRef>, name: Option<string>,
                parse: string -> Result<ObjectName, Failure>) returns (r: Result<AbstractPojoMBean, Failure>)
    ensures r.Success? <==> ObjectNameFor(domain, type_, name, parse).Success?
    ensures r.Failure? ==> r.error == ObjectNameFor(domain, type_, name, parse).error
    ensures r.Success? ==>
      fresh(r.value) && r.value.started.None? && r.value.name == name.value && r.value.objectName == ObjectNameFor(domain, type_, name, parse).value
  {
    var objectName := ObjectNameFor(domain, type_, name, parse);
    if objectName.Failure? {
      return Failure(objectName.error);
    }
    var bean := new AbstractPojoMBean(name.value, objectName.value);
    r := Success(bean);
  }

  /**
   * `AbstractPojoMBean(type, name)`: the domain is the type's package name; a null type is a
   * NullPointerException without a message, thrown before any check.
   */
  method CreateForType(type_: Option<ClassRef>, name: Option<string>,
                       parse: string -> Result<ObjectName, Failure>) returns (r: Result<AbstractPojoMBean, Failure>)
    ensures type_.None? ==> r == Failure(NullPointer(None))
    ensures type_.Some? ==>
      var expected := ObjectNameFor(Some(type_.value.packageName), type_, name, parse);
      (r.Success? <==> expected.Success?) && (r.Failure? ==> r.error == expected.error) &&
      (r.Success? ==> fresh(r.value) && r.value.started.None? && r.value.objectName == expected.value)
  {
    if type_.None? {
      return Failure(NullPointer(None));
    }
    r := Create(Some(type_.value.packageName), type_, name, parse);
  }
}
