/**
 * `ObjectNameFactory`: object names from an `@MBean` marker, from a domain and a key
 * table, from a name with one key replaced, and from a domain plus the "application",
 * "name" and "type" keys written out as text. The text form as written puts no
 * separators between the parts; the model keeps that method as written and gives the
 * evidently intended text beside it (see `AsWrittenText`, `IntendedText`).
 */
module ObjectNameFactories {
  import opened Wrappers
  import opened JavaLang
  import opened Beans
  import Preconditions
  import opened JavaStrings

  const MBEAN_ANNOTATION_NAME: string := "org.softee.management.annotation.MBean"

  /**
   * `createObjectName(Object)`: the object name text of the bean class's `@MBean`, parsed by
   * the JDK (`parse`); a missing marker or an empty text is a MalformedObjectNameException.
   */
  function CreateObjectNameOf(beanClass: ClassDesc, parse: string -> Result<ObjectName, Failure>): (r: Result<ObjectName, Failure>)
    ensures beanClass.mbean.None? ==>
      r == Failure(MalformedObjectName("class " + beanClass.classRef.Name() + " is not annotated with @" + MBEAN_ANNOTATION_NAME))
    ensures beanClass.mbean.Some? && beanClass.mbean.value.objectName == "" ==>
      r == Failure(MalformedObjectName("@" + MBEAN_ANNOTATION_NAME + " does not define the 'objectName' attribute"))
    ensures r.Success? ==>
      (beanClass.mbean.Some? && beanClass.mbean.value.objectName != "" && r == parse(beanClass.mbean.value.objectName))
  {
    match beanClass.mbean
    case None =>
      Failure(MalformedObjectName("class " + beanClass.classRef.Name() + " is not annotated with @" + MBEAN_ANNOTATION_NAME))
    case Some(annotation) =>
      if annotation.objectName == "" then
        Failure(MalformedObjectName("@" + MBEAN_ANNOTATION_NAME + " does not define the 'objectName' attribute"))
      else parse(annotation.objectName)
  }

  /**
   * `replaceProperty`: a copy of the key table with one key bound, under the same domain. A
   * null value or a null key is a NullPointerException from `Hashtable.put`; otherwise the
   * JDK refuses the name exactly when the domain or the new table holds a forbidden character.
   */
  method ReplaceProperty(objectName: ObjectName, name: Option<string>, value: Option<string>) returns (r: Result<ObjectName, Failure>)
    ensures name.None? || value.None? ==> r == Failure(NullPointer(None))
    ensures r.Success? <==>
      name.Some? && value.Some? && WellFormedName(objectName.domain, objectName.keys[name.value := value.value])
    ensures name.Some? && value.Some? && r.Failure? ==> r.error == ObjectNameRejected
    ensures r.Success? ==> r.value.domain == objectName.domain
    ensures r.Success? ==> name.value in r.value.keys && r.value.keys[name.value] == value.value
    ensures r.Success? ==> forall k :: k != name.value ==> (k in r.value.keys <==> k in objectName.keys)
    ensures r.Success? ==> forall k :: k != name.value && k in objectName.keys ==> r.value.keys[k] == objectName.keys[k]
  {
    var table := objectName.keys;
    if value.None? || name.None? {
      return Failure(NullPointer(None));
    }
    table := table[name.value := value.value];
    assert name.value in table;
    r := ObjectNameOf(Some(objectName.domain), table);
  }

  /**
   * `createObjectName(domain, properties)`: the map is copied into a `Hashtable` first, so a
   * null value is a NullPointerException before the domain is looked at.
   */
  function CreateObjectNameFromTable(domain: Option<string>, properties: map<string, Option<string>>): (r: Result<ObjectName, Failure>)
    ensures !NoNullValue(properties) ==> r == Failure(NullPointer(None))
    ensures r.Success? <==>
      NoNullValue(properties) && domain.Some? && properties != map[] && WellFormedName(domain.value, Unwrapped(properties))
    ensures r.Success? ==> r.value == ObjectName(domain.value, Unwrapped(properties))
    ensures NoNullValue(properties) && domain.None? ==> r.error == NullPointer(Some("domain cannot be null"))
    ensures NoNullValue(properties) && domain.Some? && properties == map[] ==>
      r.error == MalformedObjectName("key property list cannot be empty")
    ensures NoNullValue(properties) && domain.Some? && properties != map[] && !WellFormedName(domain.value, Unwrapped(properties)) ==>
      r.error == ObjectNameRejected
  {
    match HashtableOf(properties)
    case Failure(e) => Failure(e)
    case Success(table) => ObjectNameOf(domain, table)
  }

  // ---------------------------------------------------------------------------
  // createObjectName(domain, application, name, type)

  /** "key=value", or nothing for a null value. */
  function Segment(key: string, value: Option<string>): string {
    if value.Some? then key + "=" + value.value else ""
  }

  /** `addAttribute`: append "key=value" when there is a value; a required key without one is a NullPointerException naming it. */
  method AddAttribute(sb: string, name: string, value: Option<string>, required: bool) returns (r: Result<string, Failure>)
    ensures r.Failure? <==> required && value.None?
    ensures r.Failure? ==> r.error == NullPointer(Some(name))
    ensures r.Success? ==> r.value == sb + Segment(name, value)
  {
    if required && value.None? {
      return Failure(NullPointer(Some(name)));
    }
    if value.Some? {
      var appended := sb + name + "=" + value.value;
      assert appended == sb + (name + "=" + value.value);
      return Success(appended);
    }
    assert sb + "" == sb;
    r := Success(sb);
  }

  /**
   * The text `createObjectName(domain, application, name, type)` builds, as written: the
   * domain and the "key=value" segments run together with no ':' after the domain and no ','
   * between segments. A null domain, name or type is a NullPointerException naming it.
   */
  function AsWrittenText(domain: Option<string>, application: Option<string>, name: Option<string>, type_: Option<string>)
    : Result<string, Failure>
  {
    if domain.None? then Failure(NullPointer(Some("domain")))
    else if name.None? then Failure(NullPointer(Some("name")))
    else if type_.None? then Failure(NullPointer(Some("type")))
    else Success(domain.value + Segment("application", application) + Segment("name", name) + Segment("type", type_))
  }

  /** `createObjectName(domain, application, name, type)`, as written: the text is handed to the JDK's parser. */
  method CreateObjectName(domain: Option<string>, application: Option<string>, name: Option<string>, type_: Option<string>,
                          parse: string -> Result<ObjectName, Failure>) returns (r: Result<ObjectName, Failure>)
    ensures AsWrittenText(domain, application, name, type_).Failure? ==>
      r == Failure(AsWrittenText(domain, application, name, type_).error)
    ensures AsWrittenText(domain, application, name, type_).Success? ==>
      r == parse(AsWrittenText(domain, application, name, type_).value)
  {
    var checked := Preconditions.NotNullMsg(domain, Some("domain"));
    if checked.Failure? {
      return checked.PropagateFailure();
    }
    var sb := checked.value;
    var step := AddAttribute(sb, "application", application, false);
    sb := step.value;
    assert sb == domain.value + Segment("application", application);
    step := AddAttribute(sb, "name", name, true);
    if step.Failure? {
      return step.PropagateFailure();
    }
    sb := step.value;
    assert sb == domain.value + Segment("application", application) + Segment("name", name);
    step := AddAttribute(sb, "type", type_, true);
    if step.Failure? {
      return step.PropagateFailure();
    }
    sb := step.value;
    assert sb == AsWrittenText(domain, application, name, type_).value;
    r := parse(sb);
  }

  /** The "key=value" segments of the evidently intended text: "application" when given, then "name" and "type". */
  function Segments(application: Option<string>, name: string, type_: string): (r: seq<string>)
    ensures |r| > 0
  {
    (if application.Some? then ["application=" + application.value] else []) + ["name=" + name, "type=" + type_]
  }

  /**
   * The text the method's documentation promises, `<domain>:name=<name>,type=<type>`, with
   * "application=<application>," in front of the name when one is given.
   */
  function IntendedText(domain: Option<string>, application: Option<string>, name: Option<string>, type_: Option<string>)
    : (r: Result<string, Failure>)
    ensures r.Failure? <==> domain.None? || name.None? || type_.None?
    ensures r.Failure? ==> r == AsWrittenText(domain, application, name, type_)
  {
    if domain.None? then Failure(NullPointer(Some("domain")))
    else if name.None? then Failure(NullPointer(Some("name")))
    else if type_.None? then Failure(NullPointer(Some("type")))
    else Success(domain.value + ":" + Join(Segments(application, name.value, type_.value), ','))
  }

  /** Neither ':' nor ',' occurs in `s`. */
  predicate FreeOfSeparators(s: string) {
    ':' !in s && ',' !in s
  }

  /**
   * As written, parts free of ':' and ',' give a text with neither: there is no domain
   * separator for the JDK's parser to find, so no such call can yield an object name.
   */
  lemma AsWrittenTextHasNoSeparators(domain: string, application: Option<string>, name: string, type_: string)
    requires FreeOfSeparators(domain) && FreeOfSeparators(name) && FreeOfSeparators(type_)
    requires application.Some? ==> FreeOfSeparators(application.value)
    ensures AsWrittenText(Some(domain), application, Some(name), Some(type_)).Success?
    ensures var text := AsWrittenText(Some(domain), application, Some(name), Some(type_)).value;
      SplitFirst(text, ':').None? && ',' !in text
  {
    SegmentFree("application", application);
    SegmentFree("name", Some(name));
    SegmentFree("type", Some(type_));
  }

  /** A segment is free of ':' and ',' when its key and value are. */
  lemma SegmentFree(key: string, value: Option<string>)
    requires FreeOfSeparators(key) && (value.Some? ==> FreeOfSeparators(value.value))
    ensures FreeOfSeparators(Segment(key, value))
  {
  }

  /** For every input free of separators, the text as written is not the intended one: only the latter has the ':' after the domain. */
  lemma AsWrittenDiffersFromIntended(domain: string, application: Option<string>, name: string, type_: string)
    requires FreeOfSeparators(domain) && FreeOfSeparators(name) && FreeOfSeparators(type_)
    requires application.Some? ==> FreeOfSeparators(application.value)
    ensures AsWrittenText(Some(domain), application, Some(name), Some(type_)) != IntendedText(Some(domain), application, Some(name), Some(type_))
  {
    AsWrittenTextHasNoSeparators(domain, application, name, type_);
    var intended := IntendedText(Some(domain), application, Some(name), Some(type_)).value;
    assert intended[|domain|] == ':';
  }

  /**
   * The intended text splits back into its parts: before the first ':' is the domain, and
   * the rest splits at ',' into the "key=value" segments in the order application, name, type.
   */
  lemma IntendedTextSplits(domain: string, application: Option<string>, name: string, type_: string)
    requires FreeOfSeparators(domain) && FreeOfSeparators(name) && FreeOfSeparators(type_)
    requires application.Some? ==> FreeOfSeparators(application.value)
    ensures IntendedText(Some(domain), application, Some(name), Some(type_)).Success?
    ensures var text := IntendedText(Some(domain), application, Some(name), Some(type_)).value;
      var segments := Segments(application, name, type_);
      SplitFirst(text, ':') == Some((domain, Join(segments, ','))) &&
      Split(Join(segments, ','), ',') == segments
  {
    var segments := Segments(application, name, type_);
    var text := IntendedText(Some(domain), application, Some(name), Some(type_)).value;
    assert text == domain + [':'] + Join(segments, ',');
    SplitFirstOfJoined(domain, ':', Join(segments, ','));
    forall i | 0 <= i < |segments|
      ensures ',' !in segments[i]
    {
      if application.Some? {
        assert segments[0] == "application=" + application.value;
        assert i > 0 ==> segments[i] == (if i == 1 then "name=" + name else "type=" + type_);
      } else {
        assert segments[i] == (if i == 0 then "name=" + name else "type=" + type_);
      }
    }
    SplitJoin(segments, ',');
  }
}
