/**
 * `IntrospectedDynamicMBean`: exposes an annotated bean as a JMX Dynamic MBean
 * (JSR 3, section 2.3). Construction selects the `@Property`-marked
 * properties and the `@Operation`-marked methods and describes them in an
 * `MBeanInfo` whose attribute and operation lists are sorted by name;
 * `getAttribute`, `setAttribute` and `invoke` look entries up by name and sort
 * each failure into one exception category.
 */
module IntrospectedDynamicMBeans {
  import opened Wrappers
  import opened JavaLang
  import JavaStrings
  import opened Annotations
  import opened Beans

  /** `MBeanParameterInfo` */
  datatype ParameterInfo = ParameterInfo(name: string, paramType: string, description: string)

  /** `MBeanOperationInfo`; `impact` is the JMX impact code. */
  datatype OperationInfo = OperationInfo(
    name: string, description: string, signature: seq<ParameterInfo>, returnType: string, impact: int)

  /** `MBeanAttributeInfo` built from a getter and a setter. */
  datatype AttributeInfo = AttributeInfo(
    name: string, description: string, attrType: string, isReadable: bool, isWritable: bool)

  /** `MBeanInfo`; the constructor and notification lists are always null and are not represented. */
  datatype MBeanInfo = MBeanInfo(
    className: string, description: string, attributes: seq<AttributeInfo>, operations: seq<OperationInfo>)

  /** The constructed MBean: every field is final. */
  datatype IntrospectedDynamicMBean = IntrospectedDynamicMBean(
    mbeanType: ClassDesc,
    propertyDescriptors: map<string, PropertyDescriptor>,
    operationMethods: map<string, MethodDesc>,
    mbeanInfo: MBeanInfo)

  // ---------------------------------------------------------------------------
  // Construction

  /** The IllegalArgumentException thrown for a bean type that lacks the class marker. */
  function NotAnnotated(c: ClassRef, marker: string): Failure {
    IllegalArgument(Some("mbean type class " + c.Name() + " is not annotated with interface " + marker), None)
  }

  const MBEAN_ANNOTATION: string := "org.softee.management.annotation.MBean"

  /** A property is exposed when its getter, or failing that its setter, carries `@Property`. */
  predicate Exposed(p: PropertyDescriptor, kind: MarkerKind) {
    MarkerText(p, kind).Some?
  }

  /** The table `createPropertyDescriptors` fills: exposed properties by name, a later one replacing an earlier. */
  function SelectProperties(ps: seq<PropertyDescriptor>, kind: MarkerKind): map<string, PropertyDescriptor> {
    if ps == [] then map[]
    else
      var table := SelectProperties(ps[..|ps| - 1], kind);
      var p := ps[|ps| - 1];
      if Exposed(p, kind) then table[p.name := p] else table
  }

  /** A name is in the property table iff some exposed property has it, and it maps to such a property. */
  lemma {:induction false} SelectPropertiesSpec(ps: seq<PropertyDescriptor>, kind: MarkerKind)
    ensures forall k :: k in SelectProperties(ps, kind) <==> exists i :: 0 <= i < |ps| && ps[i].name == k && Exposed(ps[i], kind)
    ensures forall k :: k in SelectProperties(ps, kind) ==>
      SelectProperties(ps, kind)[k] in ps && SelectProperties(ps, kind)[k].name == k && Exposed(SelectProperties(ps, kind)[k], kind)
  {
    if ps != [] {
      var init := ps[..|ps| - 1];
      SelectPropertiesSpec(init, kind);
      assert forall i :: 0 <= i < |init| ==> init[i] == ps[i];
      forall k | exists i :: 0 <= i < |ps| && ps[i].name == k && Exposed(ps[i], kind)
        ensures k in SelectProperties(ps, kind)
      {
        var i :| 0 <= i < |ps| && ps[i].name == k && Exposed(ps[i], kind);
        if i < |init| {
          assert init[i].name == k;
        }
      }
    }
  }

  /** Every property in the table carries the marker. */
  lemma SelectedAreExposed(ps: seq<PropertyDescriptor>, kind: MarkerKind)
    ensures AllExposed(SelectProperties(ps, kind), kind)
  {
    SelectPropertiesSpec(ps, kind);
  }

  /** `createPropertyDescriptors` */
  method CreatePropertyDescriptors(ps: seq<PropertyDescriptor>, kind: MarkerKind) returns (table: map<string, PropertyDescriptor>)
    ensures table == SelectProperties(ps, kind)
  {
    table := map[];
    for i := 0 to |ps|
      invariant table == SelectProperties(ps[..i], kind)
    {
      assert ps[..i + 1][..i] == ps[..i];
      var property := ps[i];
      var attribute := MarkerText(property, kind);
      if attribute.Some? {
        table := table[property.name := property];
      }
    }
    assert ps[..|ps|] == ps;
  }

  /** No two `@Operation`-marked methods share a name. */
  predicate UniqueOperationNames(ms: seq<MethodDesc>) {
    forall i, j :: 0 <= i < j < |ms| && ms[i].operation.Some? && ms[j].operation.Some? ==> ms[i].name != ms[j].name
  }

  /** The IllegalStateException for a repeated operation name. */
  function DuplicateOperation(name: string): Failure {
    IllegalState("Multiple Operation annotations for operation " + name)
  }

  /** The table `createOperationMethods` fills, or the failure at the first repeated name. */
  function OperationTable(ms: seq<MethodDesc>): Result<map<string, MethodDesc>, Failure> {
    if ms == [] then Success(map[])
    else
      var table :- OperationTable(ms[..|ms| - 1]);
      var m := ms[|ms| - 1];
      if m.operation.None? then Success(table)
      else if m.name in table then Failure(DuplicateOperation(m.name))
      else Success(table[m.name := m])
  }

  /** The operation table, when built, holds exactly the names of the marked methods. */
  lemma {:induction false} OperationTableKeys(ms: seq<MethodDesc>)
    ensures OperationTable(ms).Success? ==> forall k :: k in OperationTable(ms).value <==>
      exists i :: 0 <= i < |ms| && ms[i].operation.Some? && ms[i].name == k
  {
    if ms != [] && OperationTable(ms).Success? {
      var n := |ms| - 1;
      var init := ms[..n];
      OperationTableKeys(init);
      assert forall i :: 0 <= i < n ==> init[i] == ms[i];
      forall k | exists i :: 0 <= i < |ms| && ms[i].operation.Some? && ms[i].name == k
        ensures k in OperationTable(ms).value
      {
        var i :| 0 <= i < |ms| && ms[i].operation.Some? && ms[i].name == k;
        if i < n {
          assert init[i].name == k;
        }
      }
    }
  }

  /** Every entry of the operation table is a marked method of the class, filed under its own name. */
  lemma {:induction false} OperationTableValues(ms: seq<MethodDesc>)
    ensures OperationTable(ms).Success? ==> OperationEntries(OperationTable(ms).value)
    ensures OperationTable(ms).Success? ==> forall k :: k in OperationTable(ms).value ==> OperationTable(ms).value[k] in ms
  {
    if ms != [] && OperationTable(ms).Success? {
      var n := |ms| - 1;
      var init := ms[..n];
      OperationTableValues(init);
      assert forall i :: 0 <= i < n ==> init[i] == ms[i];
    }
  }

  /** Building the operation table succeeds iff no two marked methods share a name. */
  lemma {:induction false} OperationTableSucceeds(ms: seq<MethodDesc>)
    ensures OperationTable(ms).Success? <==> UniqueOperationNames(ms)
  {
    if ms != [] {
      var n := |ms| - 1;
      var init := ms[..n];
      OperationTableSucceeds(init);
      OperationTableKeys(init);
      assert forall i :: 0 <= i < n ==> init[i] == ms[i];
      var prev := OperationTable(init);
      var m := ms[n];
      if prev.Success? && m.operation.Some? && m.name in prev.value {
        var i :| 0 <= i < n && init[i].operation.Some? && init[i].name == m.name;
        assert ms[i].name == ms[n].name;
      } else if prev.Success? {
        forall i, j | 0 <= i < j < |ms| && ms[i].operation.Some? && ms[j].operation.Some?
          ensures ms[i].name != ms[j].name
        {
          assert init[i] == ms[i];
          if j == n {
            assert init[i].name in prev.value;
          } else {
            assert init[j] == ms[j];
          }
        }
      }
    }
  }

  /** A failed build reports a name that two marked methods share, the later one being where it stopped. */
  lemma {:induction false} OperationTableFailure(ms: seq<MethodDesc>)
    ensures OperationTable(ms).Failure? ==>
      exists i, j :: (0 <= i < j < |ms| && ms[i].operation.Some? && ms[j].operation.Some? &&
        ms[i].name == ms[j].name && OperationTable(ms).error == DuplicateOperation(ms[j].name))
  {
    if ms != [] && OperationTable(ms).Failure? {
      var n := |ms| - 1;
      var init := ms[..n];
      assert forall i :: 0 <= i < n ==> init[i] == ms[i];
      var prev := OperationTable(init);
      if prev.Success? {
        OperationTableKeys(init);
        var i :| 0 <= i < n && init[i].operation.Some? && init[i].name == ms[n].name;
        assert ms[i].name == ms[n].name;
      } else {
        OperationTableFailure(init);
        var i, j :| 0 <= i < j < n && init[i].operation.Some? && init[j].operation.Some? &&
          init[i].name == init[j].name && prev.error == DuplicateOperation(init[j].name);
        assert ms[i] == init[i] && ms[j] == init[j];
      }
    }
  }

  /** `createOperationMethods` */
  method CreateOperationMethods(ms: seq<MethodDesc>) returns (r: Result<map<string, MethodDesc>, Failure>)
    ensures r == OperationTable(ms)
  {
    var table: map<string, MethodDesc> := map[];
    for i := 0 to |ms|
      invariant OperationTable(ms[..i]) == Success(table)
    {
      assert ms[..i + 1][..i] == ms[..i];
      var method_ := ms[i];
      if method_.operation.Some? {
        if method_.name in table {
          r := Failure(DuplicateOperation(method_.name));
          PrefixFailureSticks(ms, i + 1);
          return;
        }
        table := table[method_.name := method_];
      }
    }
    assert ms[..|ms|] == ms;
    r := Success(table);
  }

  /** Once a prefix of the methods fails, so does every longer prefix, with the same failure. */
  lemma {:induction false} PrefixFailureSticks(ms: seq<MethodDesc>, n: nat)
    requires n <= |ms| && OperationTable(ms[..n]).Failure?
    ensures OperationTable(ms) == OperationTable(ms[..n])
    decreases |ms| - n
  {
    if n < |ms| {
      assert ms[..n + 1][..n] == ms[..n];
      PrefixFailureSticks(ms, n + 1);
    } else {
      assert ms[..n] == ms;
    }
  }

  /** `sortedKeys`: the keys of a table, least first (see `SortedKeysAscending`). */
  function SortedKeys(keys: set<string>): (r: seq<string>)
    ensures |r| == |keys|
    ensures forall k :: k in r <==> k in keys
    decreases |keys|
  {
    if keys == {} then []
    else
      JavaStrings.LeastExists(keys);
      JavaStrings.LeastUnique(keys);
      var k :| JavaStrings.IsLeast(k, keys);
      [k] + SortedKeys(keys - {k})
  }

  /** The sorted keys are in strictly ascending `compareTo` order. */
  lemma {:induction false} SortedKeysAscending(keys: set<string>)
    ensures JavaStrings.StrictlyAscending(SortedKeys(keys))
    decreases |keys|
  {
    if keys != {} {
      JavaStrings.LeastExists(keys);
      JavaStrings.LeastUnique(keys);
      var k :| JavaStrings.IsLeast(k, keys);
      var rest := SortedKeys(keys - {k});
      SortedKeysAscending(keys - {k});
      var r := SortedKeys(keys);
      assert r == [k] + rest;
      forall i, j | 0 <= i < j < |r|
        ensures JavaStrings.Less(r[i], r[j])
      {
        if i == 0 {
          assert r[j] == rest[j - 1] && rest[j - 1] in keys - {k};
        } else {
          assert r[i] == rest[i - 1] && r[j] == rest[j - 1];
        }
      }
    }
  }

  /** The published form of parameter `i` (0-based) of an operation. */
  function ParameterInfoAt(p: Param, i: nat): (r: ParameterInfo)
    ensures r.paramType == p.paramType.Name()
    ensures p.marker.Some? ==> r.name == p.marker.value.name && r.description == p.marker.value.description
    ensures p.marker.None? ==> r.name == "p" + JavaStrings.Decimal(i + 1) && r.description == ""
  {
    match p.marker
    case Some(a) => ParameterInfo(a.name, p.paramType.Name(), a.description)
    case None => ParameterInfo("p" + JavaStrings.Decimal(i + 1), p.paramType.Name(), "")
  }

  /** The synthesised names `p1 .. pn` of unannotated parameters are pairwise distinct. */
  lemma SynthesisedNamesDistinct(ps: seq<Param>, i: nat, j: nat)
    requires i < j < |ps| && ps[i].marker.None? && ps[j].marker.None?
    ensures ParameterInfoAt(ps[i], i).name != ParameterInfoAt(ps[j], j).name
  {
    var a := JavaStrings.Decimal(i + 1);
    var b := JavaStrings.Decimal(j + 1);
    assert a == ("p" + a)[1..] && b == ("p" + b)[1..];
  }

  /** `createParameterInfo`: one entry per formal parameter, in order. */
  method CreateParameterInfo(m: MethodDesc) returns (r: seq<ParameterInfo>)
    ensures |r| == |m.params|
    ensures forall i :: 0 <= i < |r| ==> r[i] == ParameterInfoAt(m.params[i], i)
  {
    var parameters := new ParameterInfo[|m.params|];
    for parameterIndex := 0 to parameters.Length
      invariant parameters.Length == |m.params|
      invariant forall i :: 0 <= i < parameterIndex ==> parameters[i] == ParameterInfoAt(m.params[i], i)
    {
      var pType := m.params[parameterIndex].paramType.Name();
      var pName, pDesc;
      var annotation := m.params[parameterIndex].marker;
      if annotation.Some? {
        pName, pDesc := annotation.value.name, annotation.value.description;
      } else {
        pName, pDesc := "p" + JavaStrings.Decimal(parameterIndex + 1), "";
      }
      parameters[parameterIndex] := ParameterInfo(pName, pType, pDesc);
      assert parameters[parameterIndex] == ParameterInfoAt(m.params[parameterIndex], parameterIndex);
    }
    r := parameters[..];
  }

  /** Every entry of the operation table is a marked method filed under its own name. */
  predicate OperationEntries(ops: map<string, MethodDesc>) {
    forall k :: k in ops ==> ops[k].name == k && ops[k].operation.Some?
  }

  /** The published form of an operation method. */
  function OperationInfoOf(m: MethodDesc): OperationInfo
    requires m.operation.Some?
  {
    var annotation := m.operation.value;
    var impact := if annotation.impact.Some? then annotation.impact.value else UNKNOWN;
    OperationInfo(
      m.name, annotation.value,
      seq(|m.params|, i requires 0 <= i < |m.params| => ParameterInfoAt(m.params[i], i)),
      m.returnType.Name(), impact.ImpactValue())
  }

  /** The operation list for the given names, in the order of the names. */
  function OperationList(names: seq<string>, ops: map<string, MethodDesc>): seq<OperationInfo>
    requires forall i :: 0 <= i < |names| ==> names[i] in ops && ops[names[i]].operation.Some?
  {
    seq(|names|, i requires 0 <= i < |names| => OperationInfoOf(ops[names[i]]))
  }

  /** The operation list: one entry per table entry, taken in ascending name order. */
  function OperationInfos(ops: map<string, MethodDesc>): seq<OperationInfo>
    requires forall k :: k in ops ==> ops[k].operation.Some?
  {
    OperationList(SortedKeys(ops.Keys), ops)
  }

  /**
   * The operation list has one entry per table entry, and entry `i` is the operation whose
   * name is the `i`-th key in ascending order (`SortedKeys`, `SortedKeysAscending`).
   */
  lemma OperationInfosOrder(ops: map<string, MethodDesc>)
    requires OperationEntries(ops)
    ensures |OperationInfos(ops)| == |ops|
    ensures forall i :: 0 <= i < |ops| ==> OperationInfos(ops)[i].name == SortedKeys(ops.Keys)[i]
  {
  }

  /** One step of `createOperationInfo`: the `MBeanOperationInfo` of one marked method. */
  method CreateOneOperationInfo(method_: MethodDesc) returns (r: OperationInfo)
    requires method_.operation.Some?
    ensures r == OperationInfoOf(method_)
  {
    var signature := CreateParameterInfo(method_);
    var annotation := method_.operation.value;
    var impact := if annotation.impact.Some? then annotation.impact.value else UNKNOWN;
    r := OperationInfo(method_.name, annotation.value, signature, method_.returnType.Name(), impact.ImpactValue());
    assert signature == OperationInfoOf(method_).signature;
  }

  /** `createOperationInfo` */
  method CreateOperationInfo(ops: map<string, MethodDesc>) returns (r: seq<OperationInfo>)
    requires OperationEntries(ops)
    ensures r == OperationInfos(ops)
  {
    r := DescribeOperations(SortedKeys(ops.Keys), ops);
  }

  /** The loop of `createOperationInfo` over the given operation names. */
  method DescribeOperations(names: seq<string>, ops: map<string, MethodDesc>) returns (r: seq<OperationInfo>)
    requires forall i :: 0 <= i < |names| ==> names[i] in ops && ops[names[i]].operation.Some?
    ensures r == OperationList(names, ops)
  {
    ghost var infos := OperationList(names, ops);
    var operationInfos := new OperationInfo[|names|];
    for operationIndex := 0 to |names|
      invariant operationInfos.Length == |infos|
      invariant operationInfos[..operationIndex] == infos[..operationIndex]
    {
      operationInfos[operationIndex] := CreateOneOperationInfo(ops[names[operationIndex]]);
      assert operationInfos[..operationIndex + 1] == operationInfos[..operationIndex] + [infos[operationIndex]];
    }
    assert operationInfos[..] == operationInfos[..|infos|];
    assert infos == infos[..|infos|];
    r := operationInfos[..];
  }

  /** The bean-spec arity rule: a getter takes no parameter and a setter exactly one. */
  predicate ArityOk(p: PropertyDescriptor) {
    (p.readMethod.Some? ==> |p.readMethod.value.params| == 0) &&
    (p.writeMethod.Some? ==> |p.writeMethod.value.params| == 1)
  }

  /** The attribute type `MBeanAttributeInfo` derives: the getter's return type, else the setter's parameter type. */
  function AttributeType(readMethod: Option<MethodDesc>, writeMethod: Option<MethodDesc>): string {
    if readMethod.Some? then readMethod.value.returnType.Name()
    else if writeMethod.Some? && |writeMethod.value.params| > 0 then writeMethod.value.params[0].paramType.Name()
    else ""
  }

  /**
   * The published form of a property, the IntrospectionException for an accessor that breaks
   * the arity rule, or the NullPointerException of reading the description of a property that
   * carries no `@Property` (the property table holds no such property).
   */
  function AttributeInfoOf(p: PropertyDescriptor, kind: MarkerKind): Result<AttributeInfo, Failure> {
    if p.readMethod.Some? && |p.readMethod.value.params| != 0 then
      Failure(Introspection(p.readMethod.value.name))
    else if p.writeMethod.Some? && |p.writeMethod.value.params| != 1 then
      Failure(Introspection(p.writeMethod.value.name))
    else
      match MarkerText(p, kind)
      case None => Failure(NullPointer(None))
      case Some(description) =>
        Success(AttributeInfo(p.name, description, AttributeType(p.readMethod, p.writeMethod),
          p.readMethod.Some?, p.writeMethod.Some?))
  }

  /**
   * A property is described iff it keeps the arity rule and is exposed; the entry carries its
   * name, its `@Property` description and which accessors exist, and an accessor that breaks
   * the arity rule (the getter checked first) is named in the IntrospectionException.
   */
  lemma AttributeInfoOfSpec(p: PropertyDescriptor, kind: MarkerKind)
    ensures AttributeInfoOf(p, kind).Success? <==> ArityOk(p) && Exposed(p, kind)
    ensures AttributeInfoOf(p, kind).Success? ==>
      (AttributeInfoOf(p, kind).value.name == p.name &&
       AttributeInfoOf(p, kind).value.description == MarkerText(p, kind).value &&
       AttributeInfoOf(p, kind).value.isReadable == p.readMethod.Some? &&
       AttributeInfoOf(p, kind).value.isWritable == p.writeMethod.Some?)
    ensures !ArityOk(p) ==> AttributeInfoOf(p, kind).error == Introspection(
      if p.readMethod.Some? && |p.readMethod.value.params| != 0 then p.readMethod.value.name else p.writeMethod.value.name)
    ensures ArityOk(p) && !Exposed(p, kind) ==> AttributeInfoOf(p, kind).error == NullPointer(None)
  {
  }

  /** The attribute list for the given names, stopping at the first property that cannot be described. */
  function AttributeInfos(names: seq<string>, props: map<string, PropertyDescriptor>, kind: MarkerKind): Result<seq<AttributeInfo>, Failure>
    requires forall i :: 0 <= i < |names| ==> names[i] in props
  {
    if names == [] then Success([])
    else
      var init :- AttributeInfos(names[..|names| - 1], props, kind);
      var info :- AttributeInfoOf(props[names[|names| - 1]], kind);
      Success(init + [info])
  }

  /**
   * The attribute list succeeds iff every listed property keeps the arity rule (and is
   * exposed); it then has one entry per name, in the order of the names.
   */
  lemma {:induction false} AttributeInfosSpec(names: seq<string>, props: map<string, PropertyDescriptor>, kind: MarkerKind)
    requires forall i :: 0 <= i < |names| ==> names[i] in props
    ensures AttributeInfos(names, props, kind).Success? <==>
      forall i :: 0 <= i < |names| ==> ArityOk(props[names[i]]) && Exposed(props[names[i]], kind)
    ensures AttributeInfos(names, props, kind).Success? ==>
      |AttributeInfos(names, props, kind).value| == |names| &&
      forall i :: 0 <= i < |names| ==> AttributeInfoOf(props[names[i]], kind) == Success(AttributeInfos(names, props, kind).value[i])
  {
    if names != [] {
      var n := |names| - 1;
      var init := names[..n];
      assert forall i :: 0 <= i < n ==> init[i] == names[i];
      AttributeInfosSpec(init, props, kind);
      AttributeInfoOfSpec(props[names[n]], kind);
    }
  }

  /**
   * A failed attribute list reports the failure of the first listed property that cannot
   * be described: every property before it was described.
   */
  lemma {:induction false} AttributeInfosFailure(names: seq<string>, props: map<string, PropertyDescriptor>, kind: MarkerKind)
    requires forall i :: 0 <= i < |names| ==> names[i] in props
    requires AttributeInfos(names, props, kind).Failure?
    ensures exists i :: (0 <= i < |names| && AttributeInfos(names[..i], props, kind).Success? &&
      AttributeInfoOf(props[names[i]], kind).Failure? &&
      AttributeInfos(names, props, kind).error == AttributeInfoOf(props[names[i]], kind).error)
  {
    var n := |names| - 1;
    var init := names[..n];
    assert forall i :: 0 <= i < n ==> init[i] == names[i];
    if AttributeInfos(init, props, kind).Failure? {
      AttributeInfosFailure(init, props, kind);
      var i :| 0 <= i < n && AttributeInfos(init[..i], props, kind).Success? &&
        AttributeInfoOf(props[init[i]], kind).Failure? &&
        AttributeInfos(init, props, kind).error == AttributeInfoOf(props[init[i]], kind).error;
      assert init[..i] == names[..i];
    } else {
      assert names[..n] == init;
    }
  }

  /** The accessor an IntrospectionException names: the getter if it takes parameters, else the setter. */
  function OffendingAccessor(p: PropertyDescriptor): string
    requires !ArityOk(p)
  {
    if p.readMethod.Some? && |p.readMethod.value.params| != 0 then p.readMethod.value.name else p.writeMethod.value.name
  }

  /** Every property of a table carries the marker. */
  predicate AllExposed(props: map<string, PropertyDescriptor>, kind: MarkerKind) {
    forall k :: k in props ==> Exposed(props[k], kind)
  }

  /** `e` is the IntrospectionException naming an accessor of a property of the table that breaks the arity rule. */
  predicate ArityFailure(props: map<string, PropertyDescriptor>, e: Failure) {
    exists k :: k in props && !ArityOk(props[k]) && e == Introspection(OffendingAccessor(props[k]))
  }

  /**
   * When every property of the table is exposed, a failed attribute list is the
   * IntrospectionException of a property that breaks the arity rule.
   */
  lemma AttributeInfosFailOnArity(names: seq<string>, props: map<string, PropertyDescriptor>, kind: MarkerKind)
    requires forall i :: 0 <= i < |names| ==> names[i] in props
    requires AllExposed(props, kind)
    requires AttributeInfos(names, props, kind).Failure?
    ensures ArityFailure(props, AttributeInfos(names, props, kind).error)
  {
    AttributeInfosFailure(names, props, kind);
    var i :| 0 <= i < |names| && AttributeInfos(names[..i], props, kind).Success? &&
      AttributeInfoOf(props[names[i]], kind).Failure? &&
      AttributeInfos(names, props, kind).error == AttributeInfoOf(props[names[i]], kind).error;
    AttributeInfoOfSpec(props[names[i]], kind);
    assert names[i] in props;
  }

  /** The body of the `createAttributeInfo` loop for one property. */
  method CreateOneAttributeInfo(property: PropertyDescriptor, kind: MarkerKind) returns (r: Result<AttributeInfo, Failure>)
    ensures r == AttributeInfoOf(property, kind)
  {
    var readMethod := property.readMethod;
    if readMethod.Some? && |readMethod.value.params| != 0 {
      return Failure(Introspection(readMethod.value.name));
    }
    var writeMethod := property.writeMethod;
    if writeMethod.Some? && |writeMethod.value.params| != 1 {
      return Failure(Introspection(writeMethod.value.name));
    }
    var attribute := MarkerText(property, kind);
    if attribute.None? {
      return Failure(NullPointer(None));
    }
    r := Success(AttributeInfo(property.name, attribute.value, AttributeType(readMethod, writeMethod),
      readMethod.Some?, writeMethod.Some?));
  }

  /** `createAttributeInfo`: one entry per exposed property, in ascending name order. */
  method CreateAttributeInfo(props: map<string, PropertyDescriptor>) returns (r: Result<seq<AttributeInfo>, Failure>)
    ensures r == AttributeInfos(SortedKeys(props.Keys), props, PropertyKind)
  {
    r := DescribeAttributes(SortedKeys(props.Keys), props, PropertyKind);
  }

  /** The loop of `createAttributeInfo` over the given property names. */
  method DescribeAttributes(names: seq<string>, props: map<string, PropertyDescriptor>, kind: MarkerKind)
    returns (r: Result<seq<AttributeInfo>, Failure>)
    requires forall j :: 0 <= j < |names| ==> names[j] in props
    ensures r == AttributeInfos(names, props, kind)
  {
    var infos := new AttributeInfo[|names|];
    var i := 0;
    while i < |names|
      invariant i <= |names| == infos.Length
      invariant AttributeInfos(names[..i], props, kind) == Success(infos[..i])
    {
      AttributeInfosStep(names, props, i, kind);
      var info := CreateOneAttributeInfo(props[names[i]], kind);
      if info.Failure? {
        r := Failure(info.error);
        AttributeFailureSticks(names, props, i + 1, kind);
        return;
      }
      infos[i] := info.value;
      assert infos[..i + 1] == infos[..i] + [info.value];
      i := i + 1;
    }
    assert names[..i] == names;
    r := Success(infos[..i]);
  }

  /** One more name extends the attribute list by that property's entry, or fails with its failure. */
  lemma AttributeInfosStep(names: seq<string>, props: map<string, PropertyDescriptor>, i: nat, kind: MarkerKind)
    requires forall j :: 0 <= j < |names| ==> names[j] in props
    requires i < |names| && AttributeInfos(names[..i], props, kind).Success?
    ensures AttributeInfos(names[..i + 1], props, kind) ==
      match AttributeInfoOf(props[names[i]], kind)
      case Failure(e) => Failure(e)
      case Success(a) => Success(AttributeInfos(names[..i], props, kind).value + [a])
  {
    assert names[..i + 1][..i] == names[..i];
    assert names[..i + 1][i] == names[i];
  }

  /** Once a prefix of the names fails, so does every longer prefix, with the same failure. */
  lemma {:induction false} AttributeFailureSticks(names: seq<string>, props: map<string, PropertyDescriptor>, n: nat, kind: MarkerKind)
    requires forall i :: 0 <= i < |names| ==> names[i] in props
    requires n <= |names| && AttributeInfos(names[..n], props, kind).Failure?
    ensures AttributeInfos(names, props, kind) == AttributeInfos(names[..n], props, kind)
    decreases |names| - n
  {
    if n < |names| {
      assert names[..n + 1][..n] == names[..n];
      AttributeFailureSticks(names, props, n + 1, kind);
    } else {
      assert names[..n] == names;
    }
  }

  /** What the constructor produces for a bean type, or the exception it throws. */
  function Introspect(t: ClassDesc): Result<IntrospectedDynamicMBean, Failure> {
    if t.mbean.None? then Failure(NotAnnotated(t.classRef, MBEAN_ANNOTATION))
    else
      var props := SelectProperties(t.properties, PropertyKind);
      var ops :- OperationTable(t.methods);
      OperationTableValues(t.methods);
      var attributes :- AttributeInfos(SortedKeys(props.Keys), props, PropertyKind);
      var operations := OperationInfos(ops);
      Success(IntrospectedDynamicMBean(t, props, ops,
        MBeanInfo(t.classRef.Name(), t.mbean.value.value, attributes, operations)))
  }

  /** Every property of a table keeps the bean-spec arity rule. */
  predicate AllArityOk(props: map<string, PropertyDescriptor>) {
    forall k :: k in props ==> ArityOk(props[k])
  }

  /**
   * Describing a table of exposed properties, in any order that lists each key once,
   * succeeds iff every property in the table keeps the arity rule.
   */
  lemma AttributeInfosSucceed(names: seq<string>, props: map<string, PropertyDescriptor>, kind: MarkerKind)
    requires forall i :: 0 <= i < |names| ==> names[i] in props
    requires forall k :: k in props ==> k in names && Exposed(props[k], kind)
    ensures AttributeInfos(names, props, kind).Success? <==> AllArityOk(props)
  {
    AttributeInfosSpec(names, props, kind);
    if AllArityOk(props) {
      forall i | 0 <= i < |names|
        ensures ArityOk(props[names[i]]) && Exposed(props[names[i]], kind)
      {
        assert names[i] in props;
      }
    } else {
      var k :| k in props && !ArityOk(props[k]);
      var i :| 0 <= i < |names| && names[i] == k;
      assert !ArityOk(props[names[i]]);
    }
  }

  /**
   * Construction succeeds iff the type carries `@MBean`, no two operations share a name and
   * every exposed property keeps the arity rule; an unmarked type is rejected before any
   * table is built.
   */
  lemma IntrospectSucceeds(t: ClassDesc)
    ensures Introspect(t).Success? <==>
      t.mbean.Some? && UniqueOperationNames(t.methods) && AllArityOk(SelectProperties(t.properties, PropertyKind))
    ensures t.mbean.None? ==> Introspect(t) == Failure(NotAnnotated(t.classRef, MBEAN_ANNOTATION))
  {
    if t.mbean.Some? {
      var props := SelectProperties(t.properties, PropertyKind);
      var names := SortedKeys(props.Keys);
      OperationTableSucceeds(t.methods);
      assert Introspect(t).Success? <==>
        OperationTable(t.methods).Success? && AttributeInfos(names, props, PropertyKind).Success?;
      SelectPropertiesSpec(t.properties, PropertyKind);
      AttributeInfosSucceed(names, props, PropertyKind);
    }
  }

  /**
   * A marked type fails with the IllegalStateException of a repeated operation name
   * (`OperationTableFailure` names the pair), or else, the operations being unique, with the
   * IntrospectionException naming an accessor of an exposed property that breaks the arity rule.
   */
  lemma IntrospectFailure(t: ClassDesc)
    requires t.mbean.Some? && Introspect(t).Failure?
    ensures OperationTable(t.methods).Failure? ==> Introspect(t).error == OperationTable(t.methods).error
    ensures OperationTable(t.methods).Success? ==>
      ArityFailure(SelectProperties(t.properties, PropertyKind), Introspect(t).error)
  {
    if OperationTable(t.methods).Success? {
      var props := SelectProperties(t.properties, PropertyKind);
      var names := SortedKeys(props.Keys);
      assert Introspect(t).error == AttributeInfos(names, props, PropertyKind).error;
      SelectedAreExposed(t.properties, PropertyKind);
      AttributeInfosFailOnArity(names, props, PropertyKind);
    }
  }

  /** Entry `i` of a built attribute list describes the property filed under `names[i]`. */
  lemma AttributeListFollowsNames(names: seq<string>, props: map<string, PropertyDescriptor>, kind: MarkerKind)
    requires forall i :: 0 <= i < |names| ==> names[i] in props && props[names[i]].name == names[i]
    requires AttributeInfos(names, props, kind).Success?
    ensures |AttributeInfos(names, props, kind).value| == |names|
    ensures forall i :: 0 <= i < |names| ==>
      var a := AttributeInfos(names, props, kind).value[i];
      a.name == names[i] &&
      a.isReadable == props[names[i]].readMethod.Some? && a.isWritable == props[names[i]].writeMethod.Some?
  {
    AttributeInfosSpec(names, props, kind);
    forall i | 0 <= i < |names|
      ensures AttributeInfoOf(props[names[i]], kind).value.name == names[i]
      ensures AttributeInfoOf(props[names[i]], kind).value.isReadable == props[names[i]].readMethod.Some?
      ensures AttributeInfoOf(props[names[i]], kind).value.isWritable == props[names[i]].writeMethod.Some?
    {
      AttributeInfoOfSpec(props[names[i]], kind);
    }
  }

  /**
   * Describing a table whose properties are filed under their own names, in sorted key
   * order, gives one entry per property, each readable and writable exactly when the
   * property filed under its name has a getter and a setter.
   */
  lemma TableAttributesAgree(props: map<string, PropertyDescriptor>, kind: MarkerKind)
    requires forall k :: k in props ==> props[k].name == k
    requires AttributeInfos(SortedKeys(props.Keys), props, kind).Success?
    ensures var attrs := AttributeInfos(SortedKeys(props.Keys), props, kind).value;
      |attrs| == |props| &&
      forall i :: 0 <= i < |attrs| ==>
        attrs[i].name in props &&
        attrs[i].isReadable == props[attrs[i].name].readMethod.Some? &&
        attrs[i].isWritable == props[attrs[i].name].writeMethod.Some?
  {
    var names := SortedKeys(props.Keys);
    AttributeListFollowsNames(names, props, kind);
  }

  /**
   * The published attribute list agrees with the property table `getAttribute` and
   * `setAttribute` consult: one entry per property, each naming a property whose getter and
   * setter exist exactly when the entry is readable and writable.
   */
  lemma IntrospectAttributesConsistent(t: ClassDesc)
    requires Introspect(t).Success?
    ensures var mb := Introspect(t).value;
      |mb.mbeanInfo.attributes| == |mb.propertyDescriptors| &&
      forall i :: 0 <= i < |mb.mbeanInfo.attributes| ==>
        var a := mb.mbeanInfo.attributes[i];
        a.name in mb.propertyDescriptors &&
        a.isReadable == mb.propertyDescriptors[a.name].readMethod.Some? &&
        a.isWritable == mb.propertyDescriptors[a.name].writeMethod.Some?
  {
    var props := SelectProperties(t.properties, PropertyKind);
    assert Introspect(t).value.propertyDescriptors == props;
    assert Introspect(t).value.mbeanInfo.attributes == AttributeInfos(SortedKeys(props.Keys), props, PropertyKind).value;
    SelectPropertiesSpec(t.properties, PropertyKind);
    TableAttributesAgree(props, PropertyKind);
  }

  /**
   * The published operation list agrees with the table `invoke` consults: one entry per
   * operation, each naming an operation of the table; the class name and description are
   * the type's name and its `@MBean` value.
   */
  lemma IntrospectOperationsConsistent(t: ClassDesc)
    requires Introspect(t).Success?
    ensures var mb := Introspect(t).value;
      t.mbean.Some? && mb.mbeanInfo.className == t.classRef.Name() &&
      mb.mbeanInfo.description == t.mbean.value.value
    ensures var mb := Introspect(t).value;
      |mb.mbeanInfo.operations| == |mb.operationMethods| &&
      forall i :: 0 <= i < |mb.mbeanInfo.operations| ==> mb.mbeanInfo.operations[i].name in mb.operationMethods
  {
    OperationTableValues(t.methods);
    OperationInfosOrder(OperationTable(t.methods).value);
  }

  /** The constructor `IntrospectedDynamicMBean(mbean)`. */
  method Build(t: ClassDesc) returns (r: Result<IntrospectedDynamicMBean, Failure>)
    ensures r == Introspect(t)
  {
    if t.mbean.None? {
      return Failure(NotAnnotated(t.classRef, MBEAN_ANNOTATION));
    }
    var propertyDescriptors := CreatePropertyDescriptors(t.properties, PropertyKind);
    SelectPropertiesSpec(t.properties, PropertyKind);
    var operationMethods := CreateOperationMethods(t.methods);
    if operationMethods.Failure? {
      return operationMethods.PropagateFailure();
    }
    OperationTableValues(t.methods);
    var attributeInfo := CreateAttributeInfo(propertyDescriptors);
    if attributeInfo.Failure? {
      return attributeInfo.PropagateFailure();
    }
    var operationInfo := CreateOperationInfo(operationMethods.value);
    var info := MBeanInfo(t.classRef.Name(), t.mbean.value.value, attributeInfo.value, operationInfo);
    r := Success(IntrospectedDynamicMBean(t, propertyDescriptors, operationMethods.value, info));
  }

  // ---------------------------------------------------------------------------
  // Dispatch

  /**
   * `getAttribute`, given the property table: the getter of the named property, called with
   * no arguments. The older builder's `getAttribute` is the same code over its own table.
   */
  function GetAttribute<S>(props: map<string, PropertyDescriptor>, attribute: string, bean: S,
                           call: (S, MethodDesc, seq<Value>) -> Reply<S>): (r: Answer<Value, S>)
    ensures attribute !in props ==> r == Answer(Failure(AttributeNotFound(attribute)), bean)
    ensures attribute in props && props[attribute].readMethod.None? ==>
      r == Answer(Failure(AttributeNotFound("getter method for attribute " + attribute)), bean)
    ensures attribute in props && props[attribute].readMethod.Some? ==>
      var reply := call(bean, props[attribute].readMethod.value, []);
      r.state == reply.state &&
      (r.result.Success? <==> reply.outcome.Returned?) &&
      (r.result.Success? ==> r.result.value == reply.outcome.value) &&
      (r.result.Failure? ==> r.result.error == Runtime(attribute))
  {
    if attribute !in props then Answer(Failure(AttributeNotFound(attribute)), bean)
    else
      var getter := props[attribute].readMethod;
      if getter.None? then Answer(Failure(AttributeNotFound("getter method for attribute " + attribute)), bean)
      else
        var reply := call(bean, getter.value, []);
        match reply.outcome
        case Returned(v) => Answer(Success(v), reply.state)
        case _ => Answer(Failure(Runtime(attribute)), reply.state)
  }

  /**
   * `setAttribute`, given the property table (the older builder's is the same code): the
   * setter of the named property, called with the value. Each way
   * the call can fail has its exception; building that exception's message dereferences the
   * value, so a null value turns each of them into a NullPointerException.
   */
  function SetAttribute<S>(props: map<string, PropertyDescriptor>, attribute: Attribute, bean: S,
                           call: (S, MethodDesc, seq<Value>) -> Reply<S>): (r: Answer<Value, S>)
    ensures attribute.name !in props ==> r == Answer(Failure(AttributeNotFound(attribute.name)), bean)
    ensures attribute.name in props && props[attribute.name].writeMethod.None? ==>
      r == Answer(Failure(AttributeNotFound("setter method for attribute " + attribute.name)), bean)
    ensures attribute.name in props && props[attribute.name].writeMethod.Some? ==>
      var reply := call(bean, props[attribute.name].writeMethod.value, [attribute.value]);
      r.state == reply.state &&
      (r.result.Success? <==> reply.outcome.Returned?) &&
      (r.result.Success? ==> r.result.value == Null) &&
      (r.result.Failure? && attribute.value == Null ==> r.result.error == NullPointer(None)) &&
      (reply.outcome.ArgumentMismatch? && attribute.value != Null ==>
        r.result.error == InvalidAttributeValue(attribute.name)) &&
      (reply.outcome.AccessDenied? && attribute.value != Null ==> r.result.error == Reflection(attribute.name)) &&
      (reply.outcome.TargetThrew? && attribute.value != Null ==>
        r.result.error == MBeanFailure(attribute.name, reply.outcome.thrown))
  {
    var name := attribute.name;
    if name !in props then Answer(Failure(AttributeNotFound(name)), bean)
    else
      var setter := props[name].writeMethod;
      if setter.None? then Answer(Failure(AttributeNotFound("setter method for attribute " + name)), bean)
      else
        var reply := call(bean, setter.value, [attribute.value]);
        match reply.outcome
        case Returned(_) => Answer(Success(Null), reply.state)
        case ArgumentMismatch =>
          Answer(Failure(if attribute.value == Null then NullPointer(None) else InvalidAttributeValue(name)), reply.state)
        case AccessDenied =>
          Answer(Failure(if attribute.value == Null then NullPointer(None) else Reflection(name)), reply.state)
        case TargetThrew(t) =>
          Answer(Failure(if attribute.value == Null then NullPointer(None) else MBeanFailure(name, t)), reply.state)
  }

  /**
   * `invoke`: the operation of that name, called with the parameters; the signature is not
   * consulted. A missing operation, a null parameter array for a method that takes
   * parameters, and every failure of the call all end in a bare IllegalArgumentException.
   */
  function Invoke<S>(mb: IntrospectedDynamicMBean, actionName: string, params: Option<seq<Value>>,
                     signature: Option<seq<string>>, bean: S,
                     call: (S, MethodDesc, seq<Value>) -> Reply<S>): (r: Answer<Value, S>)
    ensures actionName !in mb.operationMethods ==> r == Answer(Failure(IllegalArgument(None, None)), bean)
    ensures actionName in mb.operationMethods && params.None? && |mb.operationMethods[actionName].params| != 0 ==>
      r == Answer(Failure(IllegalArgument(None, None)), bean)
    ensures actionName in mb.operationMethods && !(params.None? && |mb.operationMethods[actionName].params| != 0) ==>
      var reply := call(bean, mb.operationMethods[actionName], if params.Some? then params.value else []);
      r.state == reply.state &&
      (r.result.Success? <==> reply.outcome.Returned?) &&
      (reply.outcome.Returned? ==> r.result.value == reply.outcome.value)
    ensures r.result.Failure? ==> r.result.error == IllegalArgument(None, None)
  {
    if actionName !in mb.operationMethods then Answer(Failure(IllegalArgument(None, None)), bean)
    else
      var method_ := mb.operationMethods[actionName];
      if params.None? && |method_.params| != 0 then Answer(Failure(IllegalArgument(None, None)), bean)
      else
        var reply := call(bean, method_, if params.Some? then params.value else []);
        match reply.outcome
        case Returned(v) => Answer(Success(v), reply.state)
        case _ => Answer(Failure(IllegalArgument(None, None)), reply.state)
  }

  /**
   * `getAttributes`: each name in list order, the bean state threaded from call to call; the
   * first failure is rethrown wrapped in an IllegalArgumentException.
   */
  function GetAll<S>(mb: IntrospectedDynamicMBean, names: seq<string>, bean: S,
                     call: (S, MethodDesc, seq<Value>) -> Reply<S>): Answer<seq<Attribute>, S>
  {
    if names == [] then Answer(Success([]), bean)
    else
      var prev := GetAll(mb, names[..|names| - 1], bean, call);
      if prev.result.Failure? then prev
      else
        var name := names[|names| - 1];
        var a := GetAttribute(mb.propertyDescriptors, name, prev.state, call);
        if a.result.Failure? then Answer(Failure(IllegalArgument(None, Some(a.result.error))), a.state)
        else Answer(Success(prev.result.value + [Attribute(name, a.result.value)]), a.state)
  }

  /** A successful `getAttributes` pairs every requested name, in order, with a value. */
  lemma {:induction false} GetAllNames<S>(mb: IntrospectedDynamicMBean, names: seq<string>, bean: S,
                                          call: (S, MethodDesc, seq<Value>) -> Reply<S>)
    ensures GetAll(mb, names, bean, call).result.Success? ==>
      |GetAll(mb, names, bean, call).result.value| == |names| &&
      forall i :: 0 <= i < |names| ==> GetAll(mb, names, bean, call).result.value[i].name == names[i]
  {
    if names != [] {
      var init := names[..|names| - 1];
      GetAllNames(mb, init, bean, call);
    }
  }

  /**
   * A failed `getAttributes` stopped at some name `j`: every earlier name was read, and the
   * failure wraps what reading name `j` threw.
   */
  lemma {:induction false} GetAllFailure<S>(mb: IntrospectedDynamicMBean, names: seq<string>, bean: S,
                                            call: (S, MethodDesc, seq<Value>) -> Reply<S>)
    ensures GetAll(mb, names, bean, call).result.Failure? ==>
      exists j :: 0 <= j < |names| && GetAll(mb, names[..j], bean, call).result.Success? &&
        var a := GetAttribute(mb.propertyDescriptors, names[j], GetAll(mb, names[..j], bean, call).state, call);
        a.result.Failure? && GetAll(mb, names, bean, call) == Answer(Failure(IllegalArgument(None, Some(a.result.error))), a.state)
  {
    if names != [] && GetAll(mb, names, bean, call).result.Failure? {
      var n := |names| - 1;
      var init := names[..n];
      if GetAll(mb, init, bean, call).result.Failure? {
        GetAllFailure(mb, init, bean, call);
        var j :| 0 <= j < |init| && GetAll(mb, init[..j], bean, call).result.Success? &&
          var a := GetAttribute(mb.propertyDescriptors, init[j], GetAll(mb, init[..j], bean, call).state, call);
          a.result.Failure? && GetAll(mb, init, bean, call) == Answer(Failure(IllegalArgument(None, Some(a.result.error))), a.state);
        assert init[..j] == names[..j] && init[j] == names[j];
      } else {
        assert names[..n] == init;
      }
    }
  }

  /** Once a prefix of the names fails, the whole list fails the same way. */
  lemma {:induction false} GetAllFailureSticks<S>(mb: IntrospectedDynamicMBean, names: seq<string>, n: nat, bean: S,
                                                  call: (S, MethodDesc, seq<Value>) -> Reply<S>)
    requires n <= |names| && GetAll(mb, names[..n], bean, call).result.Failure?
    ensures GetAll(mb, names, bean, call) == GetAll(mb, names[..n], bean, call)
    decreases |names| - n
  {
    if n < |names| {
      assert names[..n + 1][..n] == names[..n];
      GetAllFailureSticks(mb, names, n + 1, bean, call);
    } else {
      assert names[..n] == names;
    }
  }

  /** `getAttributes` */
  method GetAttributes<S>(mb: IntrospectedDynamicMBean, attributeNames: seq<string>, bean: S,
                          call: (S, MethodDesc, seq<Value>) -> Reply<S>) returns (r: Answer<seq<Attribute>, S>)
    ensures r == GetAll(mb, attributeNames, bean, call)
  {
    var attributes: seq<Attribute> := [];
    var state := bean;
    for i := 0 to |attributeNames|
      invariant GetAll(mb, attributeNames[..i], bean, call) == Answer(Success(attributes), state)
    {
      assert attributeNames[..i + 1][..i] == attributeNames[..i];
      var attributeName := attributeNames[i];
      var a := GetAttribute(mb.propertyDescriptors, attributeName, state, call);
      if a.result.Failure? {
        r := Answer(Failure(IllegalArgument(None, Some(a.result.error))), a.state);
        GetAllFailureSticks(mb, attributeNames, i + 1, bean, call);
        return;
      }
      attributes := attributes + [Attribute(attributeName, a.result.value)];
      state := a.state;
    }
    assert attributeNames[..|attributeNames|] == attributeNames;
    r := Answer(Success(attributes), state);
  }

  /**
   * `setAttributes`: each attribute in list order, the bean state threaded from call to call;
   * the first failure is rethrown wrapped in an IllegalArgumentException, and success returns
   * the list it was given.
   */
  function SetAll<S>(mb: IntrospectedDynamicMBean, attributes: seq<Attribute>, bean: S,
                     call: (S, MethodDesc, seq<Value>) -> Reply<S>): Answer<seq<Attribute>, S>
  {
    if attributes == [] then Answer(Success([]), bean)
    else
      var prev := SetAll(mb, attributes[..|attributes| - 1], bean, call);
      if prev.result.Failure? then prev
      else
        var a := SetAttribute(mb.propertyDescriptors, attributes[|attributes| - 1], prev.state, call);
        if a.result.Failure? then Answer(Failure(IllegalArgument(None, Some(a.result.error))), a.state)
        else Answer(Success(attributes), a.state)
  }

  /** A successful `setAttributes` returns its input list unchanged. */
  lemma SetAllReturnsInput<S>(mb: IntrospectedDynamicMBean, attributes: seq<Attribute>, bean: S,
                              call: (S, MethodDesc, seq<Value>) -> Reply<S>)
    ensures SetAll(mb, attributes, bean, call).result.Success? ==> SetAll(mb, attributes, bean, call).result.value == attributes
  {
  }

  /**
   * A failed `setAttributes` stopped at some attribute `j`: every earlier one was set, and the
   * failure wraps what setting attribute `j` threw.
   */
  lemma {:induction false} SetAllFailure<S>(mb: IntrospectedDynamicMBean, attributes: seq<Attribute>, bean: S,
                                            call: (S, MethodDesc, seq<Value>) -> Reply<S>)
    ensures SetAll(mb, attributes, bean, call).result.Failure? ==>
      exists j :: 0 <= j < |attributes| && SetAll(mb, attributes[..j], bean, call).result.Success? &&
        var a := SetAttribute(mb.propertyDescriptors, attributes[j], SetAll(mb, attributes[..j], bean, call).state, call);
        a.result.Failure? && SetAll(mb, attributes, bean, call) == Answer(Failure(IllegalArgument(None, Some(a.result.error))), a.state)
  {
    if attributes != [] && SetAll(mb, attributes, bean, call).result.Failure? {
      var n := |attributes| - 1;
      var init := attributes[..n];
      if SetAll(mb, init, bean, call).result.Failure? {
        SetAllFailure(mb, init, bean, call);
        var j :| 0 <= j < |init| && SetAll(mb, init[..j], bean, call).result.Success? &&
          var a := SetAttribute(mb.propertyDescriptors, init[j], SetAll(mb, init[..j], bean, call).state, call);
          a.result.Failure? && SetAll(mb, init, bean, call) == Answer(Failure(IllegalArgument(None, Some(a.result.error))), a.state);
        assert init[..j] == attributes[..j] && init[j] == attributes[j];
      } else {
        assert attributes[..n] == init;
      }
    }
  }

  /** Once a prefix of the attributes fails, the whole list fails the same way. */
  lemma {:induction false} SetAllFailureSticks<S>(mb: IntrospectedDynamicMBean, attributes: seq<Attribute>, n: nat, bean: S,
                                                  call: (S, MethodDesc, seq<Value>) -> Reply<S>)
    requires n <= |attributes| && SetAll(mb, attributes[..n], bean, call).result.Failure?
    ensures SetAll(mb, attributes, bean, call) == SetAll(mb, attributes[..n], bean, call)
    decreases |attributes| - n
  {
    if n < |attributes| {
      assert attributes[..n + 1][..n] == attributes[..n];
      SetAllFailureSticks(mb, attributes, n + 1, bean, call);
    } else {
      assert attributes[..n] == attributes;
    }
  }

  /** `setAttributes` */
  method SetAttributes<S>(mb: IntrospectedDynamicMBean, attributes: seq<Attribute>, bean: S,
                          call: (S, MethodDesc, seq<Value>) -> Reply<S>) returns (r: Answer<seq<Attribute>, S>)
    ensures r == SetAll(mb, attributes, bean, call)
  {
    var state := bean;
    for i := 0 to |attributes|
      invariant SetAll(mb, attributes[..i], bean, call) == Answer(Success(attributes[..i]), state)
    {
      assert attributes[..i + 1][..i] == attributes[..i];
      var a := SetAttribute(mb.propertyDescriptors, attributes[i], state, call);
      if a.result.Failure? {
        r := Answer(Failure(IllegalArgument(None, Some(a.result.error))), a.state);
        SetAllFailureSticks(mb, attributes, i + 1, bean, call);
        return;
      }
      state := a.state;
    }
    assert attributes[..|attributes|] == attributes;
    r := Answer(Success(attributes), state);
  }

  /** `getAttribute` never reports an attribute missing that the `MBeanInfo` lists as readable. */
  lemma ReadableAttributeIsFound<S>(t: ClassDesc, i: nat, bean: S, call: (S, MethodDesc, seq<Value>) -> Reply<S>)
    requires Introspect(t).Success? && i < |Introspect(t).value.mbeanInfo.attributes|
    requires Introspect(t).value.mbeanInfo.attributes[i].isReadable
    ensures var mb := Introspect(t).value;
      var r := GetAttribute(mb.propertyDescriptors, mb.mbeanInfo.attributes[i].name, bean, call).result;
      !(r.Failure? && r.error.AttributeNotFound?)
  {
    IntrospectAttributesConsistent(t);
  }

  /** `setAttribute` never reports an attribute missing that the `MBeanInfo` lists as writable. */
  lemma WritableAttributeIsFound<S>(t: ClassDesc, i: nat, v: Value, bean: S, call: (S, MethodDesc, seq<Value>) -> Reply<S>)
    requires Introspect(t).Success? && i < |Introspect(t).value.mbeanInfo.attributes|
    requires Introspect(t).value.mbeanInfo.attributes[i].isWritable
    ensures var mb := Introspect(t).value;
      var r := SetAttribute(mb.propertyDescriptors, Attribute(mb.mbeanInfo.attributes[i].name, v), bean, call).result;
      !(r.Failure? && r.error.AttributeNotFound?)
  {
    IntrospectAttributesConsistent(t);
  }
}
