/**
 * `DynamicProxyFactory`'s invocation handler: a typed proxy over a `DynamicMBean`.
 * At construction the handler files every getter and setter of the interface under
 * its property name and every method under its signature (the names of its parameter
 * types); a call is then routed to `getAttribute`, `setAttribute` or `invoke` of the
 * Dynamic MBean, with getters taking precedence over setters and setters over
 * operations. A routed call is represented by the `Forward` it makes.
 */
module DynamicProxies {
  import opened Wrappers
  import opened JavaLang
  import opened Beans
  import Preconditions

  /** The `DynamicMBean` a handler forwards to, as an opaque reference. */
  datatype MBeanRef = MBeanRef(id: nat)

  /** The call a handler makes on its Dynamic MBean. */
  datatype Forward =
    | GetAttributeCall(attribute: string)
    | SetAttributeCall(assignment: Attribute)
    | InvokeCall(actionName: string, params: Option<seq<Value>>, signature: seq<string>)

  /** Which accessor of a property a table collects. */
  datatype AccessorKind = ReadAccessor | WriteAccessor

  /** `getReadMethod()` or `getWriteMethod()` */
  function Accessor(p: PropertyDescriptor, kind: AccessorKind): Option<MethodDesc> {
    match kind
    case ReadAccessor => p.readMethod
    case WriteAccessor => p.writeMethod
  }

  /** The table after `addNotNull(table, accessor, name)` for each property in turn. */
  function PutAccessors(table: map<MethodDesc, string>, ps: seq<PropertyDescriptor>, kind: AccessorKind): map<MethodDesc, string> {
    if ps == [] then table
    else
      var init := PutAccessors(table, ps[..|ps| - 1], kind);
      var p := ps[|ps| - 1];
      match Accessor(p, kind)
      case None => init
      case Some(m) => init[m := p.name]
  }

  /** Property `i`'s accessor is `m`, and no later property has `m` as that accessor. */
  predicate LastAccessorAt(ps: seq<PropertyDescriptor>, kind: AccessorKind, m: MethodDesc, i: int) {
    0 <= i < |ps| && Accessor(ps[i], kind) == Some(m) &&
    forall j :: i < j < |ps| ==> Accessor(ps[j], kind) != Some(m)
  }

  /** The table gains exactly the non-null accessors; a method that is no property's accessor keeps its entry. */
  lemma {:induction false} PutAccessorsKeys(table: map<MethodDesc, string>, ps: seq<PropertyDescriptor>, kind: AccessorKind)
    ensures forall m :: m in PutAccessors(table, ps, kind) <==>
      m in table || exists i :: 0 <= i < |ps| && Accessor(ps[i], kind) == Some(m)
    ensures forall m :: m in table && (forall i :: 0 <= i < |ps| ==> Accessor(ps[i], kind) != Some(m)) ==>
      PutAccessors(table, ps, kind)[m] == table[m]
  {
    if ps != [] {
      var n := |ps| - 1;
      var init := ps[..n];
      PutAccessorsKeys(table, init, kind);
      assert forall i :: 0 <= i < n ==> init[i] == ps[i];
      forall m | exists i :: 0 <= i < |ps| && Accessor(ps[i], kind) == Some(m)
        ensures m in PutAccessors(table, ps, kind)
      {
        var i :| 0 <= i < |ps| && Accessor(ps[i], kind) == Some(m);
        if i < n {
          assert Accessor(init[i], kind) == Some(m);
        }
      }
    }
  }

  /** An accessor is filed under the name of the last property that has it (a later `put` replaces an earlier one). */
  lemma {:induction false} PutAccessorsLastWins(table: map<MethodDesc, string>, ps: seq<PropertyDescriptor>, kind: AccessorKind,
                                                m: MethodDesc, i: nat)
    requires LastAccessorAt(ps, kind, m, i)
    ensures m in PutAccessors(table, ps, kind) && PutAccessors(table, ps, kind)[m] == ps[i].name
  {
    var n := |ps| - 1;
    var init := ps[..n];
    if i < n {
      assert LastAccessorAt(init, kind, m, i) by {
        forall j | i < j < n ensures Accessor(init[j], kind) != Some(m) {
          assert init[j] == ps[j];
        }
      }
      PutAccessorsLastWins(table, init, kind, m, i);
    }
  }

  /** The signature `createSignature` derives: the name of each parameter type, in order. */
  function SignatureOf(m: MethodDesc): seq<string> {
    seq(|m.params|, i requires 0 <= i < |m.params| => m.params[i].paramType.Name())
  }

  /** The table after `put(method, createSignature(...))` for each method in turn. */
  function PutSignatures(table: map<MethodDesc, seq<string>>, ms: seq<MethodDesc>): map<MethodDesc, seq<string>> {
    if ms == [] then table
    else
      var m := ms[|ms| - 1];
      PutSignatures(table, ms[..|ms| - 1])[m := SignatureOf(m)]
  }

  /** Every listed method gains an entry holding its own signature; other entries stay. */
  lemma {:induction false} PutSignaturesSpec(table: map<MethodDesc, seq<string>>, ms: seq<MethodDesc>)
    ensures forall m :: m in PutSignatures(table, ms) <==> m in table || m in ms
    ensures forall m :: m in ms ==> PutSignatures(table, ms)[m] == SignatureOf(m)
    ensures forall m :: m in table && m !in ms ==> PutSignatures(table, ms)[m] == table[m]
  {
    if ms != [] {
      var init := ms[..|ms| - 1];
      PutSignaturesSpec(table, init);
      assert ms == init + [ms[|ms| - 1]];
    }
  }

  /** `createSignature`: one entry per parameter type, entry `i` being the name of type `i`. */
  method CreateSignature(parameterTypes: seq<ClassRef>) returns (signature: seq<string>)
    ensures |signature| == |parameterTypes|
    ensures forall i :: 0 <= i < |parameterTypes| ==> signature[i] == parameterTypes[i].Name()
  {
    var names := new string[|parameterTypes|];
    for i := 0 to |parameterTypes|
      invariant names.Length == |parameterTypes|
      invariant forall j :: 0 <= j < i ==> names[j] == parameterTypes[j].Name()
    {
      names[i] := parameterTypes[i].Name();
    }
    signature := names[..];
  }

  /** The text `Method.toString()` gives a method; rendered here by its name alone. */
  function MethodText(m: MethodDesc): string {
    m.name
  }

  /** `DynamicMBeanInvokationHandler` */
  class InvocationHandler {
    var operationSignatures: map<MethodDesc, seq<string>>
    var getters: map<MethodDesc, string>
    var setters: map<MethodDesc, string>
    const dynamicMBean: MBeanRef

    /** The constructor once both arguments have passed their null checks (see `CreateHandler`). */
    constructor (dynamicMBean: MBeanRef, t: ClassDesc)
      ensures this.dynamicMBean == dynamicMBean
      ensures getters == PutAccessors(map[], t.properties, ReadAccessor)
      ensures setters == PutAccessors(map[], t.properties, WriteAccessor)
      ensures operationSignatures == PutSignatures(map[], t.methods)
    {
      this.dynamicMBean := dynamicMBean;
      operationSignatures := map[];
      getters := map[];
      setters := map[];
      new;
      InitializeSignatures(t);
    }

    /** `initializeSignatures`: file the accessors by property name, then every method by its signature. */
    method InitializeSignatures(t: ClassDesc)
      modifies this
      ensures getters == PutAccessors(old(getters), t.properties, ReadAccessor)
      ensures setters == PutAccessors(old(setters), t.properties, WriteAccessor)
      ensures operationSignatures == PutSignatures(old(operationSignatures), t.methods)
    {
      var ps := t.properties;
      for i := 0 to |ps|
        invariant getters == PutAccessors(old(getters), ps[..i], ReadAccessor)
        invariant setters == PutAccessors(old(setters), ps[..i], WriteAccessor)
        invariant operationSignatures == old(operationSignatures)
      {
        assert ps[..i + 1][..i] == ps[..i];
        var property := ps[i].name;
        AddNotNull(ReadAccessor, ps[i].readMethod, property);
        AddNotNull(WriteAccessor, ps[i].writeMethod, property);
      }
      assert ps[..|ps|] == ps;
      var ms := t.methods;
      for i := 0 to |ms|
        invariant getters == PutAccessors(old(getters), ps, ReadAccessor)
        invariant setters == PutAccessors(old(setters), ps, WriteAccessor)
        invariant operationSignatures == PutSignatures(old(operationSignatures), ms[..i])
      {
        assert ms[..i + 1][..i] == ms[..i];
        var method_ := ms[i];
        var signature := CreateSignature(seq(|method_.params|, j requires 0 <= j < |method_.params| => method_.params[j].paramType));
        assert signature == SignatureOf(method_);
        operationSignatures := operationSignatures[method_ := signature];
      }
      assert ms[..|ms|] == ms;
    }

    /** `addNotNull` into the getter or the setter table. */
    method AddNotNull(kind: AccessorKind, method_: Option<MethodDesc>, name: string)
      modifies this
      ensures kind == ReadAccessor ==>
        getters == (if method_.Some? then old(getters)[method_.value := name] else old(getters)) && setters == old(setters)
      ensures kind == WriteAccessor ==>
        setters == (if method_.Some? then old(setters)[method_.value := name] else old(setters)) && getters == old(getters)
      ensures operationSignatures == old(operationSignatures)
    {
      if method_.Some? {
        match kind
        case ReadAccessor => getters := getters[method_.value := name];
        case WriteAccessor => setters := setters[method_.value := name];
      }
    }

    /**
     * `invoke`: a getter reads its attribute; a setter, called with exactly one argument,
     * writes its attribute; any other known method is invoked as an operation with the
     * arguments and its cached signature; an unknown method is an IllegalArgumentException.
     */
    function Invoke(method_: MethodDesc, args: Option<seq<Value>>): (r: Result<Forward, Failure>)
      reads this
      ensures method_ in getters ==> r == Success(GetAttributeCall(getters[method_]))
      ensures method_ !in getters && method_ in setters ==>
        (r.Success? <==> args.Some? && |args.value| == 1) &&
        (r.Success? ==> r.value == SetAttributeCall(Attribute(setters[method_], args.value[0]))) &&
        (r.Failure? ==> r.error == IllegalArgument(Some("Setter method was called with != 1 arguments: " + MethodText(method_)), None))
      ensures method_ !in getters && method_ !in setters ==>
        (r.Success? <==> method_ in operationSignatures) &&
        (r.Success? ==> r.value == InvokeCall(method_.name, args, operationSignatures[method_])) &&
        (r.Failure? ==> r.error == IllegalArgument(Some("Unknown method: " + MethodText(method_)), None))
    {
      if method_ in getters then Success(GetAttributeCall(getters[method_]))
      else if method_ in setters then
        if args.None? || |args.value| != 1 then
          Failure(IllegalArgument(Some("Setter method was called with != 1 arguments: " + MethodText(method_)), None))
        else Success(SetAttributeCall(Attribute(setters[method_], args.value[0])))
      else if method_ in operationSignatures then Success(InvokeCall(method_.name, args, operationSignatures[method_]))
      else Failure(IllegalArgument(Some("Unknown method: " + MethodText(method_)), None))
    }
  }

  /** `new DynamicMBeanInvokationHandler(dynamicMBean, type)`: a null argument is a NullPointerException, the Dynamic MBean checked first. */
  method CreateHandler(dynamicMBean: Option<MBeanRef>, t: Option<ClassDesc>) returns (r: Result<InvocationHandler, Failure>)
    ensures r.Failure? <==> dynamicMBean.None? || t.None?
    ensures r.Failure? ==> r.error == NullPointer(None)
    ensures r.Success? ==> fresh(r.value) && r.value.dynamicMBean == dynamicMBean.value
    ensures r.Success? ==> BuiltFor(r.value, t.value)
  {
    var mbean := Preconditions.NotNull(dynamicMBean);
    if mbean.Failure? {
      return mbean.PropagateFailure();
    }
    var type_ := Preconditions.NotNull(t);
    if type_.Failure? {
      return type_.PropagateFailure();
    }
    var handler := new InvocationHandler(mbean.value, type_.value);
    r := Success(handler);
  }

  /** The tables a handler holds once built for the class `t`. */
  predicate BuiltFor(h: InvocationHandler, t: ClassDesc)
    reads h
  {
    h.getters == PutAccessors(map[], t.properties, ReadAccessor) &&
    h.setters == PutAccessors(map[], t.properties, WriteAccessor) &&
    h.operationSignatures == PutSignatures(map[], t.methods)
  }

  /** Every method the introspector lists, getters and setters included, is known to the handler. */
  lemma IntrospectedMethodsAreKnown(h: InvocationHandler, t: ClassDesc, m: MethodDesc, args: Option<seq<Value>>)
    requires BuiltFor(h, t) && m in t.methods
    ensures h.Invoke(m, args).Failure? ==> m in h.setters && (args.None? || |args.value| != 1)
  {
    PutSignaturesSpec(map[], t.methods);
  }

  /** A getter reads the attribute of the last property that has it as its read method. */
  lemma GetterReadsItsAttribute(h: InvocationHandler, t: ClassDesc, m: MethodDesc, i: nat, args: Option<seq<Value>>)
    requires BuiltFor(h, t) && LastAccessorAt(t.properties, ReadAccessor, m, i)
    ensures h.Invoke(m, args) == Success(GetAttributeCall(t.properties[i].name))
  {
    PutAccessorsLastWins(map[], t.properties, ReadAccessor, m, i);
  }

  /** A setter that is no getter, called with one argument, writes that argument to its property's attribute. */
  lemma SetterWritesItsAttribute(h: InvocationHandler, t: ClassDesc, m: MethodDesc, i: nat, v: Value)
    requires BuiltFor(h, t) && LastAccessorAt(t.properties, WriteAccessor, m, i)
    requires forall j :: 0 <= j < |t.properties| ==> t.properties[j].readMethod != Some(m)
    ensures h.Invoke(m, Some([v])) == Success(SetAttributeCall(Attribute(t.properties[i].name, v)))
  {
    PutAccessorsLastWins(map[], t.properties, WriteAccessor, m, i);
    PutAccessorsKeys(map[], t.properties, ReadAccessor);
    assert m !in h.getters;
  }

  /** A listed method that is no property's accessor is invoked by name, with the arguments and its own signature unchanged. */
  lemma OperationIsInvoked(h: InvocationHandler, t: ClassDesc, m: MethodDesc, args: Option<seq<Value>>)
    requires BuiltFor(h, t) && m in t.methods
    requires forall j :: 0 <= j < |t.properties| ==> t.properties[j].readMethod != Some(m) && t.properties[j].writeMethod != Some(m)
    ensures h.Invoke(m, args) == Success(InvokeCall(m.name, args, SignatureOf(m)))
  {
    PutAccessorsKeys(map[], t.properties, ReadAccessor);
    PutAccessorsKeys(map[], t.properties, WriteAccessor);
    PutSignaturesSpec(map[], t.methods);
    assert m !in h.getters && m !in h.setters;
  }
}
