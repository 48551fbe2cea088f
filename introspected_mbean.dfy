/**
 * `IntrospectedMBean`, the older builder of the trunk tree: a Dynamic MBean over a
 * bean whose class carries `@Description`. Attributes are the properties whose getter
 * or setter carries `@Description`; operations are the other `@Description`-marked
 * methods. Attribute entries come out in the iteration order of a `HashMap`, which the
 * JDK leaves unspecified and the model takes as an input: any enumeration of the
 * table's keys. Only `getAttribute` and `setAttribute` do anything; the list accessors
 * and `invoke` are stubs.
 */
module IntrospectedMBeans {
  import opened Wrappers
  import opened JavaLang
  import JavaStrings
  import opened Annotations
  import opened Beans
  import IDM = IntrospectedDynamicMBeans

  /** The constructed MBean: every field is final. */
  datatype IntrospectedMBean = IntrospectedMBean(
    mbeanType: ClassDesc,
    propertyDescriptors: map<string, PropertyDescriptor>,
    mbeanInfo: IDM.MBeanInfo)

  const DESCRIPTION_ANNOTATION: string := "org.softee.management.annotation.Description"

  /** `order` lists every key of the table exactly once: a possible iteration order of a `HashMap`. */
  predicate EnumeratesKeys(order: seq<string>, props: map<string, PropertyDescriptor>) {
    (forall i :: 0 <= i < |order| ==> order[i] in props) &&
    (forall k :: k in props ==> k in order) &&
    (forall i, j :: 0 <= i < j < |order| ==> order[i] != order[j])
  }

  /** `description()`: the value of the class's `@Description`, or null. */
  function ClassDescription(t: ClassDesc): (r: Option<string>)
    ensures r.Some? <==> t.description.Some?
    ensures r.Some? ==> r.value == t.description.value.value
  {
    match t.description
    case None => None
    case Some(marker) => Some(marker.value)
  }

  // ---------------------------------------------------------------------------
  // Property methods

  /** `m` is the getter or the setter of some property of the table. */
  predicate IsPropertyMethod(props: map<string, PropertyDescriptor>, m: MethodDesc) {
    exists k :: k in props && (props[k].readMethod == Some(m) || props[k].writeMethod == Some(m))
  }

  /** The set `propertyMethods` collects: every getter and setter of the table's properties. */
  function PropertyMethods(props: map<string, PropertyDescriptor>): (r: set<MethodDesc>)
    ensures forall m :: m in r <==> IsPropertyMethod(props, m)
  {
    var getters := set k | k in props && props[k].readMethod.Some? :: props[k].readMethod.value;
    var setters := set k | k in props && props[k].writeMethod.Some? :: props[k].writeMethod.value;
    assert forall m :: IsPropertyMethod(props, m) ==> m in getters + setters by {
      forall m | IsPropertyMethod(props, m)
        ensures m in getters + setters
      {
        var k :| k in props && (props[k].readMethod == Some(m) || props[k].writeMethod == Some(m));
        if props[k].readMethod == Some(m) {
          assert m == props[k].readMethod.value;
        } else {
          assert m == props[k].writeMethod.value;
        }
      }
    }
    getters + setters
  }

  /** `addNotNull`: the collection with the element added, unless the element is null. */
  method AddNotNull(elements: set<MethodDesc>, element: Option<MethodDesc>) returns (r: set<MethodDesc>)
    ensures forall m :: m in r <==> m in elements || element == Some(m)
  {
    r := elements;
    if element.Some? {
      r := r + {element.value};
    }
  }

  /** `m` is the getter or the setter of a property filed under one of `keys`. */
  predicate IsAccessorAmong(props: map<string, PropertyDescriptor>, keys: set<string>, m: MethodDesc) {
    exists k :: k in keys && k in props && (props[k].readMethod == Some(m) || props[k].writeMethod == Some(m))
  }

  /** Taking one more key adds exactly that property's getter and setter. */
  lemma AccessorsStep(props: map<string, PropertyDescriptor>, keys: set<string>, k: string, m: MethodDesc)
    requires k in props
    ensures IsAccessorAmong(props, keys + {k}, m) <==>
      IsAccessorAmong(props, keys, m) || props[k].readMethod == Some(m) || props[k].writeMethod == Some(m)
  {
    if IsAccessorAmong(props, keys + {k}, m) {
      var j :| j in keys + {k} && j in props && (props[j].readMethod == Some(m) || props[j].writeMethod == Some(m));
      if j != k {
        assert IsAccessorAmong(props, keys, m);
      }
    }
  }

  /** `propertyMethods`: the loop over the table's properties, in whatever order the map yields them. */
  method CollectPropertyMethods(props: map<string, PropertyDescriptor>) returns (methods: set<MethodDesc>)
    ensures methods == PropertyMethods(props)
  {
    methods := {};
    var remaining := props.Keys;
    ghost var done: set<string> := {};
    while remaining != {}
      invariant remaining == props.Keys - done && done <= props.Keys
      invariant forall m :: m in methods <==> IsAccessorAmong(props, done, m)
      decreases |remaining|
    {
      var k :| k in remaining;
      var property := props[k];
      methods := AddNotNull(methods, property.readMethod);
      methods := AddNotNull(methods, property.writeMethod);
      forall m
        ensures m in methods <==> IsAccessorAmong(props, done + {k}, m)
      {
        AccessorsStep(props, done, k, m);
      }
      done := done + {k};
      remaining := remaining - {k};
    }
    assert done == props.Keys;
    assert forall m :: IsAccessorAmong(props, done, m) <==> IsPropertyMethod(props, m);
  }

  // ---------------------------------------------------------------------------
  // Operations

  /** The methods `createOperationInfo` publishes: `@Description`-marked and not a property method, in order. */
  function Operations(ms: seq<MethodDesc>, propertyMethods: set<MethodDesc>): seq<MethodDesc> {
    if ms == [] then []
    else
      var init := Operations(ms[..|ms| - 1], propertyMethods);
      var m := ms[|ms| - 1];
      if m.description.Some? && m !in propertyMethods then init + [m] else init
  }

  /** A method is published as an operation iff it is one of the class's methods, is marked and is no property's accessor. */
  lemma {:induction false} OperationsSelected(ms: seq<MethodDesc>, propertyMethods: set<MethodDesc>)
    ensures forall m :: m in Operations(ms, propertyMethods) <==>
      m in ms && m.description.Some? && m !in propertyMethods
    ensures |Operations(ms, propertyMethods)| <= |ms|
  {
    if ms != [] {
      var init := ms[..|ms| - 1];
      OperationsSelected(init, propertyMethods);
      assert ms == init + [ms[|ms| - 1]];
    }
  }

  /** Selection keeps the order of the method descriptors: it distributes over concatenation. */
  lemma {:induction false} OperationsKeepOrder(a: seq<MethodDesc>, b: seq<MethodDesc>, propertyMethods: set<MethodDesc>)
    ensures Operations(a + b, propertyMethods) == Operations(a, propertyMethods) + Operations(b, propertyMethods)
  {
    if b != [] {
      var n := |b| - 1;
      OperationsKeepOrder(a, b[..n], propertyMethods);
      assert (a + b)[..|a + b| - 1] == a + b[..n];
    } else {
      assert a + b == a;
    }
  }

  /**
   * `new MBeanOperationInfo(description, method)`: the JDK names parameter `i` (0-based)
   * "p" followed by i + 1, with an empty description, and gives the impact UNKNOWN.
   */
  function OperationInfoOf(m: MethodDesc): IDM.OperationInfo
    requires m.description.Some?
  {
    IDM.OperationInfo(
      m.name, m.description.value.value,
      seq(|m.params|, i requires 0 <= i < |m.params| =>
        IDM.ParameterInfo("p" + JavaStrings.Decimal(i + 1), m.params[i].paramType.Name(), "")),
      m.returnType.Name(), UNKNOWN.ImpactValue())
  }

  /** The published operation list for the selected methods, in their order. */
  function OperationInfoList(ops: seq<MethodDesc>): seq<IDM.OperationInfo>
    requires forall i :: 0 <= i < |ops| ==> ops[i].description.Some?
  {
    seq(|ops|, i requires 0 <= i < |ops| => OperationInfoOf(ops[i]))
  }

  /** Every selected method is marked. */
  lemma {:induction false} OperationsMarked(ms: seq<MethodDesc>, propertyMethods: set<MethodDesc>)
    ensures forall i :: 0 <= i < |Operations(ms, propertyMethods)| ==> Operations(ms, propertyMethods)[i].description.Some?
  {
    if ms != [] {
      OperationsMarked(ms[..|ms| - 1], propertyMethods);
    }
  }

  /** The published form of one marked method: its name, description, synthesised parameters and UNKNOWN impact. */
  lemma OperationInfoOfSpec(m: MethodDesc)
    requires m.description.Some?
    ensures OperationInfoOf(m).name == m.name && OperationInfoOf(m).description == m.description.value.value
    ensures |OperationInfoOf(m).signature| == |m.params|
    ensures forall i :: 0 <= i < |m.params| ==>
      OperationInfoOf(m).signature[i].name == "p" + JavaStrings.Decimal(i + 1) &&
      OperationInfoOf(m).signature[i].paramType == m.params[i].paramType.Name() &&
      OperationInfoOf(m).signature[i].description == ""
    ensures OperationInfoOf(m).impact == 3
  {
  }

  /** `createOperationInfo`: the loop over the method descriptors, appending to a list. */
  method CreateOperationInfo(ms: seq<MethodDesc>, propertyMethods: set<MethodDesc>) returns (r: seq<IDM.OperationInfo>)
    ensures forall i :: 0 <= i < |Operations(ms, propertyMethods)| ==> Operations(ms, propertyMethods)[i].description.Some?
    ensures r == OperationInfoList(Operations(ms, propertyMethods))
  {
    var operations: seq<IDM.OperationInfo> := [];
    for i := 0 to |ms|
      invariant forall j :: 0 <= j < |Operations(ms[..i], propertyMethods)| ==> Operations(ms[..i], propertyMethods)[j].description.Some?
      invariant operations == OperationInfoList(Operations(ms[..i], propertyMethods))
    {
      assert ms[..i + 1][..i] == ms[..i];
      OperationsMarked(ms[..i + 1], propertyMethods);
      var method_ := ms[i];
      if method_.description.Some? && method_ !in propertyMethods {
        operations := operations + [OperationInfoOf(method_)];
      }
      assert operations == OperationInfoList(Operations(ms[..i + 1], propertyMethods));
    }
    assert ms[..|ms|] == ms;
    r := operations;
  }

  // ---------------------------------------------------------------------------
  // Construction

  /**
   * What the constructor produces for a bean type, or the exception it throws, when the
   * property table is iterated in the given order.
   */
  function Introspect(t: ClassDesc, order: seq<string>): Result<IntrospectedMBean, Failure>
    requires EnumeratesKeys(order, IDM.SelectProperties(t.properties, DescriptionKind))
  {
    if t.description.None? then Failure(IDM.NotAnnotated(t.classRef, DESCRIPTION_ANNOTATION))
    else
      var props := IDM.SelectProperties(t.properties, DescriptionKind);
      var attributes :- IDM.AttributeInfos(order, props, DescriptionKind);
      var ops := Operations(t.methods, PropertyMethods(props));
      OperationsMarked(t.methods, PropertyMethods(props));
      Success(IntrospectedMBean(t, props,
        IDM.MBeanInfo(t.classRef.Name(), t.description.value.value, attributes, OperationInfoList(ops))))
  }

  /** The constructor `IntrospectedMBean(mbean)`, with the table's iteration order given. */
  method Build(t: ClassDesc, order: seq<string>) returns (r: Result<IntrospectedMBean, Failure>)
    requires EnumeratesKeys(order, IDM.SelectProperties(t.properties, DescriptionKind))
    ensures r == Introspect(t, order)
  {
    if t.description.None? {
      return Failure(IDM.NotAnnotated(t.classRef, DESCRIPTION_ANNOTATION));
    }
    var propertyDescriptors := IDM.CreatePropertyDescriptors(t.properties, DescriptionKind);
    var description := ClassDescription(t);
    var attributeInfo := IDM.DescribeAttributes(order, propertyDescriptors, DescriptionKind);
    if attributeInfo.Failure? {
      return attributeInfo.PropagateFailure();
    }
    var propertyMethods := CollectPropertyMethods(propertyDescriptors);
    var operationInfo := CreateOperationInfo(t.methods, propertyMethods);
    r := Success(IntrospectedMBean(t, propertyDescriptors,
      IDM.MBeanInfo(t.classRef.Name(), description.value, attributeInfo.value, operationInfo)));
  }

  /**
   * Construction succeeds iff the type carries `@Description` and every exposed property
   * keeps the arity rule; an unmarked type is rejected before any table is built.
   */
  lemma IntrospectSucceeds(t: ClassDesc, order: seq<string>)
    requires EnumeratesKeys(order, IDM.SelectProperties(t.properties, DescriptionKind))
    ensures Introspect(t, order).Success? <==>
      t.description.Some? && IDM.AllArityOk(IDM.SelectProperties(t.properties, DescriptionKind))
    ensures t.description.None? ==>
      Introspect(t, order) == Failure(IDM.NotAnnotated(t.classRef, DESCRIPTION_ANNOTATION))
  {
    if t.description.Some? {
      var props := IDM.SelectProperties(t.properties, DescriptionKind);
      IDM.SelectPropertiesSpec(t.properties, DescriptionKind);
      IDM.AttributeInfosSucceed(order, props, DescriptionKind);
    }
  }

  /**
   * A marked type fails only with the IntrospectionException naming an accessor of an
   * exposed property that breaks the arity rule.
   */
  lemma IntrospectFailure(t: ClassDesc, order: seq<string>)
    requires EnumeratesKeys(order, IDM.SelectProperties(t.properties, DescriptionKind))
    requires t.description.Some? && Introspect(t, order).Failure?
    ensures IDM.ArityFailure(IDM.SelectProperties(t.properties, DescriptionKind), Introspect(t, order).error)
  {
    var props := IDM.SelectProperties(t.properties, DescriptionKind);
    assert Introspect(t, order).error == IDM.AttributeInfos(order, props, DescriptionKind).error;
    IDM.SelectedAreExposed(t.properties, DescriptionKind);
    IDM.AttributeInfosFailOnArity(order, props, DescriptionKind);
  }

  /**
   * The published attribute list follows the iteration order: one entry per property of
   * the table, each naming a property whose getter and setter exist exactly when the entry
   * is readable and writable, no name twice.
   */
  lemma IntrospectAttributesConsistent(t: ClassDesc, order: seq<string>)
    requires EnumeratesKeys(order, IDM.SelectProperties(t.properties, DescriptionKind))
    requires Introspect(t, order).Success?
    ensures var mb := Introspect(t, order).value;
      |mb.mbeanInfo.attributes| == |order| == |mb.propertyDescriptors| &&
      forall i :: 0 <= i < |mb.mbeanInfo.attributes| ==>
        var a := mb.mbeanInfo.attributes[i];
        a.name == order[i] && a.name in mb.propertyDescriptors &&
        a.isReadable == mb.propertyDescriptors[a.name].readMethod.Some? &&
        a.isWritable == mb.propertyDescriptors[a.name].writeMethod.Some?
    ensures var attributes := Introspect(t, order).value.mbeanInfo.attributes;
      forall i, j :: 0 <= i < j < |attributes| ==> attributes[i].name != attributes[j].name
  {
    var props := IDM.SelectProperties(t.properties, DescriptionKind);
    assert Introspect(t, order).value.propertyDescriptors == props;
    assert Introspect(t, order).value.mbeanInfo.attributes == IDM.AttributeInfos(order, props, DescriptionKind).value;
    IDM.SelectPropertiesSpec(t.properties, DescriptionKind);
    IDM.AttributeListFollowsNames(order, props, DescriptionKind);
    KeyOrderLength(order, props);
  }

  /** An enumeration of a table's keys is as long as the table. */
  lemma {:induction false} KeyOrderLength(order: seq<string>, props: map<string, PropertyDescriptor>)
    requires EnumeratesKeys(order, props)
    ensures |order| == |props|
  {
    if order == [] {
      assert props.Keys == {};
    } else {
      var k := order[0];
      var rest := props - {k};
      assert EnumeratesKeys(order[1..], rest) by {
        forall i | 0 <= i < |order[1..]| ensures order[1..][i] in rest {
          assert order[1..][i] == order[i + 1] != order[0];
        }
        forall x | x in rest ensures x in order[1..] {
          var i :| 0 <= i < |order| && order[i] == x;
          assert i != 0;
          assert order[1..][i - 1] == x;
        }
      }
      KeyOrderLength(order[1..], rest);
      assert props.Keys == rest.Keys + {k};
    }
  }

  /**
   * The published operations are exactly the marked methods that are not accessors of an
   * exposed property, in the order of the method descriptors; the class name and the
   * description are the type's name and its `@Description` value.
   */
  lemma IntrospectOperations(t: ClassDesc, order: seq<string>)
    requires EnumeratesKeys(order, IDM.SelectProperties(t.properties, DescriptionKind))
    requires Introspect(t, order).Success?
    ensures var info := Introspect(t, order).value.mbeanInfo;
      info.className == t.classRef.Name() && Some(info.description) == ClassDescription(t)
    ensures var props := IDM.SelectProperties(t.properties, DescriptionKind);
      var ops := Operations(t.methods, PropertyMethods(props));
      var info := Introspect(t, order).value.mbeanInfo;
      |info.operations| == |ops| &&
      (forall i :: 0 <= i < |ops| ==> ops[i].description.Some? && info.operations[i] == OperationInfoOf(ops[i])) &&
      (forall m :: m in ops <==> m in t.methods && m.description.Some? && !IsPropertyMethod(props, m))
  {
    var props := IDM.SelectProperties(t.properties, DescriptionKind);
    OperationsMarked(t.methods, PropertyMethods(props));
    OperationsSelected(t.methods, PropertyMethods(props));
  }

  // ---------------------------------------------------------------------------
  // Dispatch

  /** `getAttribute` never reports an attribute missing that the `MBeanInfo` lists as readable. */
  lemma ReadableAttributeIsFound<S>(t: ClassDesc, order: seq<string>, i: nat, bean: S,
                                    call: (S, MethodDesc, seq<Value>) -> Reply<S>)
    requires EnumeratesKeys(order, IDM.SelectProperties(t.properties, DescriptionKind))
    requires Introspect(t, order).Success? && i < |Introspect(t, order).value.mbeanInfo.attributes|
    requires Introspect(t, order).value.mbeanInfo.attributes[i].isReadable
    ensures var mb := Introspect(t, order).value;
      var r := IDM.GetAttribute(mb.propertyDescriptors, mb.mbeanInfo.attributes[i].name, bean, call).result;
      !(r.Failure? && r.error.AttributeNotFound?)
  {
    IntrospectAttributesConsistent(t, order);
  }

  /** `setAttribute` never reports an attribute missing that the `MBeanInfo` lists as writable. */
  lemma WritableAttributeIsFound<S>(t: ClassDesc, order: seq<string>, i: nat, v: Value, bean: S,
                                    call: (S, MethodDesc, seq<Value>) -> Reply<S>)
    requires EnumeratesKeys(order, IDM.SelectProperties(t.properties, DescriptionKind))
    requires Introspect(t, order).Success? && i < |Introspect(t, order).value.mbeanInfo.attributes|
    requires Introspect(t, order).value.mbeanInfo.attributes[i].isWritable
    ensures var mb := Introspect(t, order).value;
      var r := IDM.SetAttribute(mb.propertyDescriptors, Attribute(mb.mbeanInfo.attributes[i].name, v), bean, call).result;
      !(r.Failure? && r.error.AttributeNotFound?)
  {
    IntrospectAttributesConsistent(t, order);
  }

  /** `getAttributes`, a stub: null, and the bean is not touched. */
  function GetAttributes<S>(mb: IntrospectedMBean, attributes: seq<string>, bean: S): (r: Answer<Option<seq<Attribute>>, S>)
    ensures r.result.Success? && r.result.value.None? && r.state == bean
  {
    Answer(Success(None), bean)
  }

  /** `setAttributes`, a stub: null, and the bean is not touched. */
  function SetAttributes<S>(mb: IntrospectedMBean, attributes: seq<Attribute>, bean: S): (r: Answer<Option<seq<Attribute>>, S>)
    ensures r.result.Success? && r.result.value.None? && r.state == bean
  {
    Answer(Success(None), bean)
  }

  /** `invoke`, a stub: null whatever the action, and the bean is not touched. */
  function Invoke<S>(mb: IntrospectedMBean, actionName: string, params: Option<seq<Value>>,
                     signature: Option<seq<string>>, bean: S): (r: Answer<Value, S>)
    ensures r.result.Success? && r.result.value == Null && r.state == bean
  {
    Answer(Success(Null), bean)
  }
}
