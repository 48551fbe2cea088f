/**
 * What the MBean builders learn from Java reflection and JavaBeans
 * introspection, given as plain data: a class description with its property
 * descriptors and method descriptors, each method carrying the markers found
 * on it. A reflective call is a function supplied by the caller that threads
 * an abstract bean state and reports how the call ended.
 */
module Beans {
  import opened Wrappers
  import opened JavaLang
  import opened Annotations

  /** A formal parameter: its type and the `@Parameter` marker on it, if any. */
  datatype Param = Param(paramType: ClassRef, marker: Option<ParameterMarker>)

  /** A `java.lang.reflect.Method` together with the markers it carries. */
  datatype MethodDesc = MethodDesc(
    name: string,
    params: seq<Param>,
    returnType: ClassRef,
    property: Option<PropertyMarker>,
    operation: Option<OperationMarker>,
    description: Option<DescriptionMarker>)

  /** A `java.beans.PropertyDescriptor`: a name with an optional getter and setter. */
  datatype PropertyDescriptor = PropertyDescriptor(
    name: string,
    readMethod: Option<MethodDesc>,
    writeMethod: Option<MethodDesc>)

  /**
   * A class as seen by the builders: its name, its class-level markers, and
   * what `Introspector.getBeanInfo` reports (property and method descriptors,
   * in the order the introspector lists them).
   */
  datatype ClassDesc = ClassDesc(
    classRef: ClassRef,
    mbean: Option<MBeanMarker>,
    description: Option<DescriptionMarker>,
    properties: seq<PropertyDescriptor>,
    methods: seq<MethodDesc>)

  /** An attribute value or call argument; `Null` is Java's null. */
  datatype Value = Null | Bool(b: bool) | Long(l: int64) | Text(s: string) | Object(id: nat)

  /** `javax.management.Attribute` */
  datatype Attribute = Attribute(name: string, value: Value)

  /** How `Method.invoke` ended. */
  datatype CallOutcome =
    | Returned(value: Value)
      /** IllegalArgumentException: an argument of the wrong type or count */
    | ArgumentMismatch
      /** IllegalAccessException */
    | AccessDenied
      /** InvocationTargetException wrapping what the method threw */
    | TargetThrew(thrown: Throwable)

  /** The outcome of a reflective call and the bean state after it. */
  datatype Reply<S> = Reply(outcome: CallOutcome, state: S)

  /** What a dispatcher operation returns or throws, and the bean state after it. */
  datatype Answer<T, S> = Answer(result: Result<T, Failure>, state: S)

  /** Entity `i` is present and marked, and no entity before it is both. */
  predicate FirstMarkedAt<M>(entities: seq<Option<MethodDesc>>, marker: MethodDesc -> Option<M>, i: int) {
    0 <= i < |entities| && entities[i].Some? && marker(entities[i].value).Some? &&
    forall j :: 0 <= j < i ==> entities[j].None? || marker(entities[j].value).None?
  }

  /**
   * `getAnnotation(annotationClass, entities...)`: the marker on the first
   * non-null entity that carries one, scanning in argument order.
   */
  function FirstMarker<M>(entities: seq<Option<MethodDesc>>, marker: MethodDesc -> Option<M>): (r: Option<M>)
    ensures r.None? <==> forall i :: 0 <= i < |entities| && entities[i].Some? ==> marker(entities[i].value).None?
    ensures r.Some? ==> exists i :: FirstMarkedAt(entities, marker, i) && marker(entities[i].value) == r
  {
    if entities == [] then None
    else if entities[0].Some? && marker(entities[0].value).Some? then marker(entities[0].value)
    else
      var rest := FirstMarker(entities[1..], marker);
      assert forall i :: 1 <= i < |entities| ==> entities[i] == entities[1..][i - 1];
      if rest.Some? then
        ghost var i :| FirstMarkedAt(entities[1..], marker, i) && marker(entities[1..][i].value) == rest;
        assert FirstMarkedAt(entities, marker, i + 1);
        rest
      else
        rest
  }

  /** `getAnnotation(Property.class, getter, setter)`: the getter's `@Property`, else the setter's. */
  function PropertyAnnotation(p: PropertyDescriptor): Option<PropertyMarker> {
    if p.readMethod.Some? && p.readMethod.value.property.Some? then p.readMethod.value.property
    else if p.writeMethod.Some? then p.writeMethod.value.property
    else None
  }

  /** `PropertyAnnotation` is the general annotation lookup applied to a property's two accessors. */
  lemma PropertyAnnotationIsFirstMarker(p: PropertyDescriptor)
    ensures PropertyAnnotation(p) == FirstMarker([p.readMethod, p.writeMethod], PropertyOf)
  {
    var entities := [p.readMethod, p.writeMethod];
    var r := FirstMarker(entities, PropertyOf);
    assert entities[0] == p.readMethod && entities[1] == p.writeMethod;
    if r.Some? {
      var i :| FirstMarkedAt(entities, PropertyOf, i) && PropertyOf(entities[i].value) == r;
    }
  }

  /** `getAnnotation(Description.class, getter, setter)`: the getter's `@Description`, else the setter's. */
  function DescriptionAnnotation(p: PropertyDescriptor): Option<DescriptionMarker> {
    if p.readMethod.Some? && p.readMethod.value.description.Some? then p.readMethod.value.description
    else if p.writeMethod.Some? then p.writeMethod.value.description
    else None
  }

  /** `DescriptionAnnotation` is the general annotation lookup applied to a property's two accessors. */
  lemma DescriptionAnnotationIsFirstMarker(p: PropertyDescriptor)
    ensures DescriptionAnnotation(p) == FirstMarker([p.readMethod, p.writeMethod], DescriptionOf)
  {
    var entities := [p.readMethod, p.writeMethod];
    var r := FirstMarker(entities, DescriptionOf);
    assert entities[0] == p.readMethod && entities[1] == p.writeMethod;
    if r.Some? {
      var i :| FirstMarkedAt(entities, DescriptionOf, i) && DescriptionOf(entities[i].value) == r;
    }
  }

  /** Which marker a builder looks for on accessors: the current builder's `@Property`, the older one's `@Description`. */
  datatype MarkerKind = PropertyKind | DescriptionKind

  /** `getAnnotation(<marker>.class, getter, setter).value()`, or null when neither accessor carries the marker. */
  function MarkerText(p: PropertyDescriptor, kind: MarkerKind): Option<string> {
    match kind
    case PropertyKind => if PropertyAnnotation(p).Some? then Some(PropertyAnnotation(p).value.value) else None
    case DescriptionKind => if DescriptionAnnotation(p).Some? then Some(DescriptionAnnotation(p).value.value) else None
  }

  /** `@Property` on a method */
  function PropertyOf(m: MethodDesc): Option<PropertyMarker> { m.property }

  /** `@Operation` on a method */
  function OperationOf(m: MethodDesc): Option<OperationMarker> { m.operation }

  /** `@Description` on a method */
  function DescriptionOf(m: MethodDesc): Option<DescriptionMarker> { m.description }
}
