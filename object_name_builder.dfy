/**
 * `ObjectNameBuilder`: a fluent builder of JMX object names. Its state is an optional
 * stored name, a domain and a table of key properties. A stored name stands for the
 * whole result until the next `with*` call that edits a part, which first folds the
 * stored name into the domain and the table ("normalizes").
 */
module ObjectNameBuilders {
  import opened Wrappers
  import opened JavaLang
  import opened Beans
  import Preconditions

  const KEY_NAME: string := "name"
  const KEY_TYPE: string := "type"
  const KEY_APPLICATION: string := "application"

  const MBEAN_ANNOTATION_CLASS: string := "interface org.softee.management.annotation.MBean"

  /**
   * The builder's fields as a value. The domain and the property values may be null
   * references: the `with*` calls store them as given, and `build` refuses them.
   */
  datatype BuilderState = BuilderState(objectName: Option<ObjectName>, domain: Option<string>, properties: map<string, Option<string>>)

  /** A fresh builder: no stored name, no domain, no properties. */
  const EMPTY: BuilderState := BuilderState(None, None, map[])

  /**
   * `normalize`: a stored name gives the builder its domain and adds its key properties to
   * the table (a key it shares with the table takes the stored name's value), and is then
   * dropped; without a stored name nothing changes.
   */
  function Normalized(s: BuilderState): (r: BuilderState)
    ensures r.objectName.None?
    ensures s.objectName.None? ==> r == s
    ensures s.objectName.Some? ==> r.domain == Some(s.objectName.value.domain)
    ensures s.objectName.Some? ==> forall k :: k in r.properties <==> k in s.properties || k in s.objectName.value.keys
    ensures s.objectName.Some? ==> forall k :: k in s.objectName.value.keys ==> r.properties[k] == Some(s.objectName.value.keys[k])
    ensures s.objectName.Some? ==> forall k :: k in s.properties && k !in s.objectName.value.keys ==>
      r.properties[k] == s.properties[k]
  {
    match s.objectName
    case None => s
    case Some(n) => BuilderState(None, Some(n.domain), s.properties + Wrapped(n.keys))
  }

  /** Normalizing twice is normalizing once. */
  lemma NormalizeIdempotent(s: BuilderState)
    ensures Normalized(Normalized(s)) == Normalized(s)
  {
  }

  /** `withObjectName(ObjectName)`: store the name and leave the rest for a later normalize. */
  function NameStored(s: BuilderState, n: ObjectName): BuilderState {
    s.(objectName := Some(n))
  }

  /** `withDomain`: normalize, then replace the domain. */
  function DomainSet(s: BuilderState, domain: Option<string>): BuilderState {
    Normalized(s).(domain := domain)
  }

  /** `withProperty`: normalize, then bind the key. */
  function PropertySet(s: BuilderState, key: string, value: Option<string>): BuilderState {
    var n := Normalized(s);
    n.(properties := n.properties[key := value])
  }

  /**
   * `build`: the stored name if there is one, otherwise the name made of the domain and a
   * `Hashtable` copy of the table; the copy is made first, so a null value fails before the
   * domain is looked at.
   */
  function Built(s: BuilderState): (r: Result<ObjectName, Failure>) {
    match s.objectName
    case Some(n) => Success(n)
    case None =>
      match HashtableOf(s.properties)
      case Failure(e) => Failure(e)
      case Success(table) => ObjectNameOf(s.domain, table)
  }

  /** A stored name is what `build` returns, whatever the builder held before. */
  lemma BuildReturnsStoredName(s: BuilderState, n: ObjectName)
    ensures Built(NameStored(s, n)) == Success(n)
  {
  }

  /**
   * `withProperty` binds the key to the value and leaves every other key and the domain as
   * normalizing left them.
   */
  lemma PropertySetBinds(s: BuilderState, key: string, value: Option<string>)
    ensures var r := PropertySet(s, key, value);
      r.objectName.None? && r.domain == Normalized(s).domain && key in r.properties && r.properties[key] == value &&
      forall k :: k != key ==> ((k in r.properties <==> k in Normalized(s).properties) &&
        (k in r.properties ==> r.properties[k] == Normalized(s).properties[k]))
  {
  }

  /** Rebinding a key overwrites it: the later value wins. */
  lemma PropertyRebindOverwrites(s: BuilderState, key: string, v1: Option<string>, v2: Option<string>)
    ensures PropertySet(PropertySet(s, key, v1), key, v2) == PropertySet(s, key, v2)
  {
    var n := Normalized(s);
    assert n.properties[key := v1][key := v2] == n.properties[key := v2];
  }

  /** `withDomain` replaces only the domain: the table is what normalizing left. */
  lemma DomainSetReplacesOnlyDomain(s: BuilderState, domain: Option<string>)
    ensures DomainSet(s, domain).domain == domain
    ensures DomainSet(s, domain).properties == Normalized(s).properties
    ensures DomainSet(s, domain).objectName.None?
  {
  }

  /**
   * A property bound before `withObjectName` survives the normalize of any later edit unless
   * the stored name has the same key; the stored name's keys and domain are all taken over.
   */
  lemma EarlierPropertiesSurvive(s: BuilderState, n: ObjectName, key: string, value: Option<string>)
    requires s.objectName.None? && key in s.properties
    ensures var r := PropertySet(NameStored(s, n), key, value);
      r.domain == Some(n.domain) && r.properties[key] == value
    ensures forall k :: k in s.properties && k !in n.keys ==>
      k in Normalized(NameStored(s, n)).properties && Normalized(NameStored(s, n)).properties[k] == s.properties[k]
    ensures forall k :: k in n.keys ==> Normalized(NameStored(s, n)).properties[k] == Some(n.keys[k])
  {
  }

  /**
   * Once no name is stored, `build` makes the name from the domain and the table. A null
   * value is a NullPointerException, whatever the domain; otherwise it fails exactly with a
   * null domain, without a key, or when a character of either is refused.
   */
  lemma BuildFromParts(s: BuilderState)
    requires s.objectName.None?
    ensures !NoNullValue(s.properties) ==> Built(s) == Failure(NullPointer(None))
    ensures NoNullValue(s.properties) ==> var table := Unwrapped(s.properties);
      (Built(s).Success? <==> s.domain.Some? && table != map[] && WellFormedName(s.domain.value, table)) &&
      (Built(s).Success? ==> Built(s).value == ObjectName(s.domain.value, table)) &&
      (s.domain.None? ==> Built(s) == Failure(NullPointer(Some("domain cannot be null")))) &&
      (s.domain.Some? && table != map[] && !WellFormedName(s.domain.value, table) ==> Built(s) == Failure(ObjectNameRejected))
  {
    if NoNullValue(s.properties) {
      assert HashtableOf(s.properties) == Success(Unwrapped(s.properties));
    }
  }

  /** `withProperty(k, null)` is accepted, and the next `build` is a NullPointerException. */
  lemma NullValueFailsBuild(s: BuilderState, key: string)
    ensures Built(PropertySet(s, key, None)) == Failure(NullPointer(None))
  {
    var t := PropertySet(s, key, None);
    assert key in t.properties && t.properties[key].None?;
  }

  /**
   * `withDomain(null)` is accepted, and the next `build` is a NullPointerException: the
   * JDK's for a null domain once the values are present, `Hashtable`'s otherwise.
   */
  lemma NullDomainFailsBuild(s: BuilderState)
    ensures Built(DomainSet(s, None)).Failure? && Built(DomainSet(s, None)).error.NullPointer?
    ensures NoNullValue(Normalized(s).properties) ==>
      Built(DomainSet(s, None)) == Failure(NullPointer(Some("domain cannot be null")))
  {
    BuildFromParts(DomainSet(s, None));
  }

  /**
   * After a domain and a property have been set, `build` fails on a null value left in the
   * table, and otherwise succeeds, with a name holding both, exactly when the domain and the
   * table the builder then holds are well formed.
   */
  lemma DomainAndPropertyBuild(s: BuilderState, domain: string, key: string, value: string)
    ensures var t := PropertySet(DomainSet(s, Some(domain)), key, Some(value));
      !NoNullValue(t.properties) ==> Built(t) == Failure(NullPointer(None))
    ensures var t := PropertySet(DomainSet(s, Some(domain)), key, Some(value));
      var r := Built(t);
      NoNullValue(t.properties) ==>
        (r.Success? <==> WellFormedName(domain, Unwrapped(t.properties))) &&
        (r.Success? ==> r.value.domain == domain && key in r.value.keys && r.value.keys[key] == value) &&
        (r.Failure? ==> r.error == ObjectNameRejected)
  {
    var t := PropertySet(DomainSet(s, Some(domain)), key, Some(value));
    assert key in t.properties;
    BuildFromParts(t);
  }

  /** The mutable builder. */
  class ObjectNameBuilder {
    var objectName: Option<ObjectName>
    var domain: Option<string>
    var properties: map<string, Option<string>>

    /** The fields as a value. */
    function State(): BuilderState
      reads this
    {
      BuilderState(objectName, domain, properties)
    }

    constructor ()
      ensures State() == EMPTY
    {
      objectName := None;
      domain := None;
      properties := map[];
    }

    /** `normalize` */
    method Normalize()
      modifies this
      ensures State() == Normalized(old(State()))
    {
      if objectName.Some? {
        domain := Some(objectName.value.domain);
        properties := properties + Wrapped(objectName.value.keys);
        objectName := None;
      }
    }

    /** `withObjectName(ObjectName)` */
    method WithObjectName(objectName: ObjectName)
      modifies this
      ensures State() == NameStored(old(State()), objectName)
    {
      this.objectName := Some(objectName);
    }

    /**
     * `withObjectName(MBean)`: the marker's object name text, which must not be empty, is
     * parsed by the JDK (`parse`) and stored; on a failure nothing changes.
     */
    method WithObjectNameOfMarker(annotation: Annotations.MBeanMarker, parse: string -> Result<ObjectName, Failure>)
      returns (r: Result<(), Failure>)
      modifies this
      ensures annotation.objectName == "" ==>
        r == Failure(NullPointer(Some("@{} annotation does not specify objectName")))
      ensures annotation.objectName != "" && parse(annotation.objectName).Failure? ==>
        r == Failure(parse(annotation.objectName).error)
      ensures r.Failure? ==> State() == old(State())
      ensures r.Success? <==> annotation.objectName != "" && parse(annotation.objectName).Success?
      ensures r.Success? ==> State() == NameStored(old(State()), parse(annotation.objectName).value)
    {
      var annotatedObjectName := annotation.objectName;
      var checked := Preconditions.NotEmptyMsg(Some(annotatedObjectName), Some("@{} annotation does not specify objectName"));
      if checked.Failure? {
        return checked.PropagateFailure();
      }
      var parsed := parse(annotatedObjectName);
      if parsed.Failure? {
        return parsed.PropagateFailure();
      }
      WithObjectName(parsed.value);
      r := Success(());
    }

    /** `withObjectName(Class)`: a class without `@MBean` is a NullPointerException naming it; otherwise as for its marker. */
    method WithObjectNameOfClass(mBeanClass: ClassDesc, parse: string -> Result<ObjectName, Failure>)
      returns (r: Result<(), Failure>)
      modifies this
      ensures mBeanClass.mbean.None? ==>
        r == Failure(NullPointer(Some("class " + mBeanClass.classRef.Name() + " is not annotated with " + MBEAN_ANNOTATION_CLASS))) &&
        State() == old(State())
      ensures mBeanClass.mbean.Some? ==>
        (r.Success? <==> mBeanClass.mbean.value.objectName != "" && parse(mBeanClass.mbean.value.objectName).Success?)
      ensures r.Failure? ==> State() == old(State())
      ensures r.Success? ==> State() == NameStored(old(State()), parse(mBeanClass.mbean.value.objectName).value)
    {
      var annotation := Preconditions.NotNullMsg(mBeanClass.mbean,
        Some("class " + mBeanClass.classRef.Name() + " is not annotated with " + MBEAN_ANNOTATION_CLASS));
      if annotation.Failure? {
        return annotation.PropagateFailure();
      }
      r := WithObjectNameOfMarker(annotation.value, parse);
    }

    /** `withDomainAndType`: the domain is the class's package name, the "type" key its qualified name. */
    method WithDomainAndType(mBeanClass: ClassRef)
      modifies this
      ensures State() == PropertySet(DomainSet(old(State()), Some(mBeanClass.packageName)), KEY_TYPE, Some(mBeanClass.Name()))
    {
      WithDomain(Some(mBeanClass.packageName));
      WithType(Some(mBeanClass.Name()));
    }

    /** `withDomain`: a null domain is stored as given. */
    method WithDomain(domain: Option<string>)
      modifies this
      ensures State() == DomainSet(old(State()), domain)
    {
      Normalize();
      this.domain := domain;
    }

    /** `withName`: the "name" key. */
    method WithName(name: Option<string>)
      modifies this
      ensures State() == PropertySet(old(State()), KEY_NAME, name)
    {
      WithProperty(KEY_NAME, name);
    }

    /** `withType`: the "type" key. */
    method WithType(type_: Option<string>)
      modifies this
      ensures State() == PropertySet(old(State()), KEY_TYPE, type_)
    {
      WithProperty(KEY_TYPE, type_);
    }

    /** `withApplication`: the "application" key. */
    method WithApplication(app: Option<string>)
      modifies this
      ensures State() == PropertySet(old(State()), KEY_APPLICATION, app)
    {
      WithProperty(KEY_APPLICATION, app);
    }

    /** `withProperty`: a null value is stored as given. */
    method WithProperty(key: string, value: Option<string>)
      modifies this
      ensures State() == PropertySet(old(State()), key, value)
    {
      Normalize();
      properties := properties[key := value];
    }

    /** `build`, which does not change the builder. */
    method Build() returns (r: Result<ObjectName, Failure>)
      ensures r == Built(State())
    {
      if objectName.Some? {
        r := Success(objectName.value);
      } else {
        var table := HashtableOf(properties);
        if table.Failure? {
          return table.PropagateFailure();
        }
        r := ObjectNameOf(domain, table.value);
      }
    }
  }
}
