# pojo-mbean in Dafny

pojo-mbean lets a plain Java object be published as a JMX MBean through annotations. The
project models the library's core:

- **Annotations.** The `@ManagedAttribute` access levels, `@ManagedOperation` impacts and the
  `@Descriptor` metric types.
- **Introspection.** How an annotated class becomes an MBean's metadata:
  - `IntrospectedDynamicMBean` builds the attribute table, the operation table and the
    parameter infos, and dispatches `getAttribute`, `setAttribute` and `invoke` reflectively;
  - the trunk `IntrospectedMBean` builds the same metadata from a class description.
- **`DynamicProxyFactory`'s invocation handler.** It routes interface calls to getters,
  setters and operations.
- **Object names.** `ObjectNameBuilder` and `ObjectNameFactory`, which assemble object names
  from domains and key properties.
- **Self-registering metric beans.** `AbstractMBean`, `MessagingMBean`, `AbstractPojoMBean`,
  and `ProcessingPojoMBean` in both the main tree and trunk. Each keeps counters, latest
  times and a running duration record (latest, total, minimum, maximum) with
  `Long.MIN_VALUE` as its "none" marker.
- **Argument checks.** The `Preconditions` and `Objects` helpers in both trees.

Modelling choices:

- **Mutable objects are classes.** The builder, the invocation handler and the metric beans
  are classes whose methods update their fields. Every such method states its new state as a
  function of the old one (`State() == InputNotified(old(State()), now)`). Lemmas about those
  functions carry the properties:
  - which counters move;
  - the `Valid` invariant that keeps minimum ≤ latest ≤ maximum;
  - that a run of outputs records the sequence's minimum, maximum, last element and sum;
  - that the average lies between the extremes.
- **Reflection is data.** A class is described by a `ClassDesc` value (its methods,
  properties and annotations). A reflective call is a function parameter that returns a
  reply and the target's new state.
- **Java arithmetic is explicit.** `long` values are `int64` with two's-complement
  wrap-around (`JavaLang.Wrap`). Division truncates toward zero. `TimeUnit.convert` is exact:
  it truncates toward a coarser unit and saturates toward a finer one.
- **Java failures are values.** A thrown exception is a `Failure` in a `Result`. A null
  reference is `None`.
- **Inheritance is composition.** A subclass holds its base-class object in a `base` field.
- **Version skew.** The main tree's `ProcessingPojoMBean` extends an `AbstractPojoMBean` that
  the main tree does not contain. It is modelled over the trunk `AbstractPojoMBean`, which
  has the constructor it calls.
- **Code over documentation.** Where the two disagree, the model follows the code:
  - the trunk `IntrospectedDynamicMBeanTest` reads the attribute `loremThrowException`,
    whose getter throws, and expects an `MBeanException` whose cause is the exception the
    getter threw; the code wraps any failure of the getter call in a plain
    `RuntimeException` with no cause, and so does the model (an attribute that does not
    exist, or has no getter, is an `AttributeNotFoundException`);
  - the `setDuration` description names the unit "DAY", but the code's units are the JDK's,
    so the model's last unit is `DAYS`.

## Model

| member | source | states |
|---|---|---|
| Annotations.Access.CanRead | src/main/java/org/softee/management/annotation/ManagedAttribute.java:24 | READ and READ_WRITE are readable, WRITE is not |
| Annotations.Access.CanWrite | src/main/java/org/softee/management/annotation/ManagedAttribute.java:24 | WRITE and READ_WRITE are writable, READ is not |
| Annotations.AccessOf | src/main/java/org/softee/management/annotation/ManagedAttribute.java:24-31 | a pair of flags names an access level exactly when one of them is set, and that level has those flags |
| Annotations.AccessFlagsIdentify | src/main/java/org/softee/management/annotation/ManagedAttribute.java:24-31 | every access level grants something, and its two flags identify it |
| Annotations.Impact.ImpactValue | trunk/src/main/java/org/softee/management/annotation/ManagedOperation.java:21-26 | INFO, ACTION, ACTION_INFO and UNKNOWN have the JMX codes 0, 1, 2 and 3, and no other impact has that code |
| Annotations.ImpactOf | trunk/src/main/java/org/softee/management/annotation/ManagedOperation.java:21-26 | a JMX code names an impact exactly when it is 0..3, and that impact has this code |
| Annotations.ImpactValueInjective | trunk/src/main/java/org/softee/management/annotation/ManagedOperation.java:21-26 | different impacts have different codes |
| Annotations.MetricType.ToString | src/main/java/org/softee/management/annotation/Descriptor.java:35-43 | a metric type prints as its constant's name in lower case |
| Annotations.MetricTypeToStringInjective | src/main/java/org/softee/management/annotation/Descriptor.java:35-43 | different metric types print differently |
| Preconditions.NotNullMsg | src/main/java/org/softee/util/Preconditions.java:27-32 | a present value passes unchanged; null is a NullPointerException carrying the message |
| Preconditions.NotNull | src/main/java/org/softee/util/Preconditions.java:15-17 | null is a NullPointerException without a message |
| Preconditions.NotEmptyMsg | src/main/java/org/softee/util/Preconditions.java:38-44 | a string passes exactly when it is present and non-empty; null fails as in `notNull`; "" fails with the message, or "empty" by default |
| Preconditions.NotEmpty | src/main/java/org/softee/util/Preconditions.java:34-36 | "" fails with "empty"; null fails without a message |
| Objects.FirstPresent | src/main/java/org/softee/util/Objects.java:8-13 | the index of the first non-null argument, or none when all are null |
| Objects.FirstNotNull | src/main/java/org/softee/util/Objects.java:8-15 | succeeds exactly when some argument is non-null, returning the first one; otherwise an IllegalArgumentException "All null arguments" |
| Objects.NotNull | src/main/java/org/softee/util/Objects.java:17-22 | a present value passes; null is a NullPointerException |
| TrunkObjects.FirstNotNull | trunk/src/main/java/org/softee/util/Objects.java:14-21 | as in the main tree, but all-null is a NullPointerException "All null arguments" |
| TrunkObjects.SameChoiceAsMainTree | trunk/src/main/java/org/softee/util/Objects.java:14-21 | both trees choose the same argument and fail on the same inputs; only the exception type differs |
| TrunkObjects.NotNull | trunk/src/main/java/org/softee/util/Objects.java:30-35 | a present value passes; null is a NullPointerException |
| Beans.FirstMarker | src/main/java/org/softee/management/helper/IntrospectedDynamicMBean.java:338-348 | the annotation of the first present accessor that carries it; none exactly when no present accessor carries it |
| Beans.PropertyAnnotationIsFirstMarker | src/main/java/org/softee/management/helper/IntrospectedDynamicMBean.java:288-289 | a property's `@Property` is looked up on the getter first, then the setter |
| Beans.DescriptionAnnotationIsFirstMarker | trunk/src/main/java/org/softee/management/IntrospectedMBean.java:239-249 | a property's `@Description` is looked up on the getter first, then the setter |
| ObjectNameBuilders.Normalized | trunk/src/main/java/org/softee/management/helper/ObjectNameBuilder.java:25-31 | a stored object name is folded into the domain and properties: its domain wins, its keys override, other keys survive, nothing stays stored |
| ObjectNameBuilders.NormalizeIdempotent | trunk/src/main/java/org/softee/management/helper/ObjectNameBuilder.java:25-31 | normalising twice is normalising once |
| ObjectNameBuilders.BuildReturnsStoredName | trunk/src/main/java/org/softee/management/helper/ObjectNameBuilder.java:57-60 | building right after storing an object name returns that name |
| ObjectNameBuilders.PropertySetBinds | trunk/src/main/java/org/softee/management/helper/ObjectNameBuilder.java:91-95 | after `withProperty(k, v)` the key k is bound to v and every other key is kept |
| ObjectNameBuilders.PropertyRebindOverwrites | trunk/src/main/java/org/softee/management/helper/ObjectNameBuilder.java:91-95 | binding a key twice keeps only the second value |
| ObjectNameBuilders.DomainSetReplacesOnlyDomain | trunk/src/main/java/org/softee/management/helper/ObjectNameBuilder.java:73-77 | `withDomain` sets the domain and keeps the normalised properties |
| ObjectNameBuilders.EarlierPropertiesSurvive | trunk/src/main/java/org/softee/management/helper/ObjectNameBuilder.java:25-31 | properties set before a stored object name survive unless the name has the same key |
| ObjectNameBuilders.BuildFromParts | trunk/src/main/java/org/softee/management/helper/ObjectNameBuilder.java:97-100 | with no stored name, a null property value is a NullPointerException from the `Hashtable` copy, whatever the domain; otherwise build succeeds exactly when the domain is not null, some property is bound and the object name grammar accepts their characters, giving that domain and those keys; a null domain is the JDK's NullPointerException "domain cannot be null", a refused character a MalformedObjectNameException |
| ObjectNameBuilders.NullValueFailsBuild | trunk/src/main/java/org/softee/management/helper/ObjectNameBuilder.java:91-100 | `withProperty(k, null)` is accepted, and the next `build` is a NullPointerException |
| ObjectNameBuilders.NullDomainFailsBuild | trunk/src/main/java/org/softee/management/helper/ObjectNameBuilder.java:73-100 | `withDomain(null)` is accepted, and the next `build` is a NullPointerException, with the JDK's "domain cannot be null" when every value is present |
| ObjectNameBuilders.DomainAndPropertyBuild | trunk/src/main/java/org/softee/management/helper/ObjectNameBuilder.java:73-100 | after a domain and a property are set, a null value still in the table is a NullPointerException; otherwise build succeeds exactly when the domain and the table are well formed, with the domain and the key bound, and else it is a MalformedObjectNameException |
| ObjectNameBuilders.ObjectNameBuilder.constructor | trunk/src/main/java/org/softee/management/helper/ObjectNameBuilder.java:20-23 | a fresh builder has nothing set |
| ObjectNameBuilders.ObjectNameBuilder.Normalize | trunk/src/main/java/org/softee/management/helper/ObjectNameBuilder.java:25-31 | the state becomes its normalised form |
| ObjectNameBuilders.ObjectNameBuilder.WithObjectName | trunk/src/main/java/org/softee/management/helper/ObjectNameBuilder.java:57-60 | the object name is stored |
| ObjectNameBuilders.ObjectNameBuilder.WithObjectNameOfMarker | trunk/src/main/java/org/softee/management/helper/ObjectNameBuilder.java:45-50 | an empty `@MBean` name or an unparsable one fails and leaves the builder unchanged; otherwise the parsed name is stored |
| ObjectNameBuilders.ObjectNameBuilder.WithObjectNameOfClass | trunk/src/main/java/org/softee/management/helper/ObjectNameBuilder.java:39-43 | a class without `@MBean` is a NullPointerException naming the class; otherwise as for the marker |
| ObjectNameBuilders.ObjectNameBuilder.WithDomainAndType | trunk/src/main/java/org/softee/management/helper/ObjectNameBuilder.java:68-70 | the domain becomes the class's package and "type" the class's name |
| ObjectNameBuilders.ObjectNameBuilder.WithDomain | trunk/src/main/java/org/softee/management/helper/ObjectNameBuilder.java:73-77 | the new state is `DomainSet` of the old; a null domain is stored as given |
| ObjectNameBuilders.ObjectNameBuilder.WithName | trunk/src/main/java/org/softee/management/helper/ObjectNameBuilder.java:79-81 | binds the "name" key |
| ObjectNameBuilders.ObjectNameBuilder.WithType | trunk/src/main/java/org/softee/management/helper/ObjectNameBuilder.java:83-85 | binds the "type" key |
| ObjectNameBuilders.ObjectNameBuilder.WithApplication | trunk/src/main/java/org/softee/management/helper/ObjectNameBuilder.java:87-89 | binds the "application" key |
| ObjectNameBuilders.ObjectNameBuilder.WithProperty | trunk/src/main/java/org/softee/management/helper/ObjectNameBuilder.java:91-95 | binds the given key; a null value is stored as given |
| ObjectNameBuilders.ObjectNameBuilder.Build | trunk/src/main/java/org/softee/management/helper/ObjectNameBuilder.java:97-100 | the result is `Built` of the current state; `BuildFromParts` says when that succeeds |
| ObjectNameFactories.CreateObjectNameOf | trunk/src/main/java/org/softee/management/helper/ObjectNameFactory.java:20-31 | a class without `@MBean`, or one with an empty name, fails; otherwise the result is the parsed `@MBean` name |
| ObjectNameFactories.ReplaceProperty | trunk/src/main/java/org/softee/management/helper/ObjectNameFactory.java:33-37 | a null key or value is a NullPointerException from `Hashtable.put`; otherwise succeeds exactly when the domain and the table with the key bound are well formed (else a MalformedObjectNameException); the domain is kept, the key is bound to the value, every other key is kept |
| ObjectNameFactories.CreateObjectNameFromTable | trunk/src/main/java/org/softee/management/helper/ObjectNameFactory.java:58-61 | a null value is a NullPointerException from the `Hashtable` copy, before the domain is checked; then a null domain is a NullPointerException ("domain cannot be null"), an empty table or a refused character a MalformedObjectNameException; otherwise the name holds that domain and table |
| ObjectNameFactories.AddAttribute | trunk/src/main/java/org/softee/management/helper/ObjectNameFactory.java:63-70 | a required null value is a NullPointerException naming it; otherwise the segment is appended to the text |
| ObjectNameFactories.CreateObjectName | trunk/src/main/java/org/softee/management/helper/ObjectNameFactory.java:49-56 | a null domain, name or type fails with the NullPointerException its check produces, in that order; otherwise the result is the JDK's parse of the text as built, which may itself fail |
| ObjectNameFactories.AsWrittenTextHasNoSeparators | trunk/src/main/java/org/softee/management/helper/ObjectNameFactory.java:50-55 | the text the code builds has neither ':' nor ',' between its parts |
| ObjectNameFactories.SegmentFree | trunk/src/main/java/org/softee/management/helper/ObjectNameFactory.java:68 | a "key=value" segment of separator-free parts is separator-free |
| ObjectNameFactories.AsWrittenDiffersFromIntended | trunk/src/main/java/org/softee/management/helper/ObjectNameFactory.java:39-55 | for every input, the code's text is not the documented `domain:name=…,type=…` |
| ObjectNameFactories.IntendedText | trunk/src/main/java/org/softee/management/helper/ObjectNameFactory.java:39-49 | the documented text; fails exactly when a required part is null |
| ObjectNameFactories.IntendedTextSplits | trunk/src/main/java/org/softee/management/helper/ObjectNameFactory.java:39-49 | the documented text splits back into the domain and the key segments |
| DynamicProxies.PutAccessorsKeys | src/main/java/org/softee/management/helper/DynamicProxyFactory.java:56-61 | after the loop, the getter (setter) table holds exactly the old keys and the present getters (setters) of the properties |
| DynamicProxies.PutAccessorsLastWins | src/main/java/org/softee/management/helper/DynamicProxyFactory.java:57-61 | an accessor maps to the name of the last property that has it |
| DynamicProxies.PutSignaturesSpec | src/main/java/org/softee/management/helper/DynamicProxyFactory.java:63-69 | every introspected method maps to its signature, and other entries are kept |
| DynamicProxies.CreateSignature | src/main/java/org/softee/management/helper/DynamicProxyFactory.java:105-112 | the signature lists the parameter types' names, in order |
| DynamicProxies.InvocationHandler.constructor | src/main/java/org/softee/management/helper/DynamicProxyFactory.java:39-46 | the three tables are those the introspection loops produce |
| DynamicProxies.InvocationHandler.InitializeSignatures | src/main/java/org/softee/management/helper/DynamicProxyFactory.java:48-70 | the loops extend the getter, setter and signature tables as `PutAccessors` and `PutSignatures` say |
| DynamicProxies.InvocationHandler.AddNotNull | src/main/java/org/softee/management/helper/DynamicProxyFactory.java:72-76 | a present accessor is bound to the property name, an absent one changes nothing |
| DynamicProxies.InvocationHandler.Invoke | src/main/java/org/softee/management/helper/DynamicProxyFactory.java:78-98 | getters become getAttribute; setters with one argument become setAttribute; other calls are invoked with their signature |
| DynamicProxies.CreateHandler | src/main/java/org/softee/management/helper/DynamicProxyFactory.java:39-46 | a null bean or interface is a NullPointerException; otherwise the handler is built for that interface |
| DynamicProxies.IntrospectedMethodsAreKnown | src/main/java/org/softee/management/helper/DynamicProxyFactory.java:63-97 | an introspected method can only fail when it is a setter called without exactly one argument |
| DynamicProxies.GetterReadsItsAttribute | src/main/java/org/softee/management/helper/DynamicProxyFactory.java:79-82 | calling a property's getter reads that attribute |
| DynamicProxies.SetterWritesItsAttribute | src/main/java/org/softee/management/helper/DynamicProxyFactory.java:83-91 | calling a property's setter with a value writes that attribute |
| DynamicProxies.OperationIsInvoked | src/main/java/org/softee/management/helper/DynamicProxyFactory.java:93-95 | calling any other method invokes it by name with its signature |
| IntrospectedDynamicMBeans.SelectPropertiesSpec | src/main/java/org/softee/management/helper/IntrospectedDynamicMBean.java:285-295 | the kept properties are exactly the annotated ones, in order |
| IntrospectedDynamicMBeans.SelectedAreExposed | src/main/java/org/softee/management/helper/IntrospectedDynamicMBean.java:285-295 | every kept property carries `@Property` on its getter or setter |
| IntrospectedDynamicMBeans.CreatePropertyDescriptors | src/main/java/org/softee/management/helper/IntrospectedDynamicMBean.java:285-295 | the loop's result is `SelectProperties` |
| IntrospectedDynamicMBeans.OperationTableKeys | src/main/java/org/softee/management/helper/IntrospectedDynamicMBean.java:196-210 | on success the table's keys are the names of the `@Operation` methods |
| IntrospectedDynamicMBeans.OperationTableValues | src/main/java/org/softee/management/helper/IntrospectedDynamicMBean.java:196-210 | each name maps to the method with that name |
| IntrospectedDynamicMBeans.OperationTableSucceeds | src/main/java/org/softee/management/helper/IntrospectedDynamicMBean.java:196-210 | the table is built exactly when no two operations share a name |
| IntrospectedDynamicMBeans.OperationTableFailure | src/main/java/org/softee/management/helper/IntrospectedDynamicMBean.java:196-210 | a repeated operation name is an IllegalStateException naming the first repeat |
| IntrospectedDynamicMBeans.CreateOperationMethods | src/main/java/org/softee/management/helper/IntrospectedDynamicMBean.java:196-210 | the loop's result is `OperationTable` |
| IntrospectedDynamicMBeans.PrefixFailureSticks | src/main/java/org/softee/management/helper/IntrospectedDynamicMBean.java:196-210 | once a prefix fails, the whole table fails with the same error |
| IntrospectedDynamicMBeans.SortedKeys | src/main/java/org/softee/management/helper/IntrospectedDynamicMBean.java:326-330 | the keys are listed each exactly once |
| IntrospectedDynamicMBeans.SortedKeysAscending | src/main/java/org/softee/management/helper/IntrospectedDynamicMBean.java:326-330 | the list is in strictly ascending string order |
| IntrospectedDynamicMBeans.ParameterInfoAt | src/main/java/org/softee/management/helper/IntrospectedDynamicMBean.java:240-253 | an unannotated parameter is named "p" plus its 1-based position; the type is the parameter's class name |
| IntrospectedDynamicMBeans.SynthesisedNamesDistinct | src/main/java/org/softee/management/helper/IntrospectedDynamicMBean.java:250 | two positions never get the same synthesised name |
| IntrospectedDynamicMBeans.CreateParameterInfo | src/main/java/org/softee/management/helper/IntrospectedDynamicMBean.java:237-256 | one info per parameter, each `ParameterInfoAt` its position |
| IntrospectedDynamicMBeans.OperationInfosOrder | src/main/java/org/softee/management/helper/IntrospectedDynamicMBean.java:213-233 | the operation infos follow the sorted operation names |
| IntrospectedDynamicMBeans.CreateOneOperationInfo | src/main/java/org/softee/management/helper/IntrospectedDynamicMBean.java:217-231 | the info carries the method's name, description, parameters, return type and impact |
| IntrospectedDynamicMBeans.CreateOperationInfo | src/main/java/org/softee/management/helper/IntrospectedDynamicMBean.java:212-234 | the array is `OperationInfos` of the table |
| IntrospectedDynamicMBeans.DescribeOperations | src/main/java/org/softee/management/helper/IntrospectedDynamicMBean.java:212-234 | the loop builds the same infos |
| IntrospectedDynamicMBeans.AttributeInfoOfSpec | src/main/java/org/softee/management/helper/IntrospectedDynamicMBean.java:302-321 | an attribute is readable exactly when its getter exists and writable exactly when its setter exists, described by its `@Property` text; a getter with parameters or a setter without exactly one is an IntrospectionException naming it |
| IntrospectedDynamicMBeans.AttributeInfosSpec | src/main/java/org/softee/management/helper/IntrospectedDynamicMBean.java:297-324 | on success there is one info per property, in order |
| IntrospectedDynamicMBeans.AttributeInfosFailure | src/main/java/org/softee/management/helper/IntrospectedDynamicMBean.java:297-324 | a failure is the first offending property's error |
| IntrospectedDynamicMBeans.AttributeInfosFailOnArity | src/main/java/org/softee/management/helper/IntrospectedDynamicMBean.java:304-314 | a wrong accessor arity makes the whole table fail |
| IntrospectedDynamicMBeans.CreateOneAttributeInfo | src/main/java/org/softee/management/helper/IntrospectedDynamicMBean.java:302-321 | the result is `AttributeInfoOf` the property |
| IntrospectedDynamicMBeans.CreateAttributeInfo | src/main/java/org/softee/management/helper/IntrospectedDynamicMBean.java:297-324 | the result is `AttributeInfos` of the properties |
| IntrospectedDynamicMBeans.DescribeAttributes | src/main/java/org/softee/management/helper/IntrospectedDynamicMBean.java:297-324 | the loop builds the same infos and stops at the first error |
| IntrospectedDynamicMBeans.AttributeInfosStep | src/main/java/org/softee/management/helper/IntrospectedDynamicMBean.java:297-324 | extending by one property appends its info or fails with its error |
| IntrospectedDynamicMBeans.AttributeFailureSticks | src/main/java/org/softee/management/helper/IntrospectedDynamicMBean.java:297-324 | an error in a prefix is the error of the whole list |
| IntrospectedDynamicMBeans.AttributeInfosSucceed | src/main/java/org/softee/management/helper/IntrospectedDynamicMBean.java:297-324 | the table is built exactly when every property's arity is right |
| IntrospectedDynamicMBeans.IntrospectSucceeds | src/main/java/org/softee/management/helper/IntrospectedDynamicMBean.java:56-67 | an annotated class with unique operation names and well-formed accessors always introspects |
| IntrospectedDynamicMBeans.IntrospectFailure | src/main/java/org/softee/management/helper/IntrospectedDynamicMBean.java:56-67 | an unannotated class, a repeated operation name or a bad accessor is an error |
| IntrospectedDynamicMBeans.AttributeListFollowsNames | src/main/java/org/softee/management/helper/IntrospectedDynamicMBean.java:316-321 | the i-th attribute info describes the i-th property |
| IntrospectedDynamicMBeans.TableAttributesAgree | src/main/java/org/softee/management/helper/IntrospectedDynamicMBean.java:297-324 | a table described in sorted key order gives one entry per property, whose flags match that property's accessors |
| IntrospectedDynamicMBeans.IntrospectAttributesConsistent | src/main/java/org/softee/management/helper/IntrospectedDynamicMBean.java:297-324 | every published attribute is backed by a property with the accessors its flags claim |
| IntrospectedDynamicMBeans.IntrospectOperationsConsistent | src/main/java/org/softee/management/helper/IntrospectedDynamicMBean.java:168-182 | every published operation is in the operation table |
| IntrospectedDynamicMBeans.Build | src/main/java/org/softee/management/helper/IntrospectedDynamicMBean.java:56-67 | the constructor's result is `Introspect` of the class |
| IntrospectedDynamicMBeans.GetAttribute | src/main/java/org/softee/management/helper/IntrospectedDynamicMBean.java:71-87 | an unknown or unreadable attribute is an error; otherwise the getter is called and its value returned |
| IntrospectedDynamicMBeans.SetAttribute | src/main/java/org/softee/management/helper/IntrospectedDynamicMBean.java:105-127 | an unknown or unwritable attribute is an error; otherwise the setter is called with the value |
| IntrospectedDynamicMBeans.Invoke | src/main/java/org/softee/management/helper/IntrospectedDynamicMBean.java:150-160 | an unknown operation, or a null argument array for a method with parameters, is a bare IllegalArgumentException with the bean untouched; otherwise the method is called with the arguments, `invoke` returns its value exactly when it returns, the bean state is the call's, and every failure of the call is a bare IllegalArgumentException |
| IntrospectedDynamicMBeans.GetAllNames | src/main/java/org/softee/management/helper/IntrospectedDynamicMBean.java:90-102 | on success the attributes come back in the order of the names asked for |
| IntrospectedDynamicMBeans.GetAllFailure | src/main/java/org/softee/management/helper/IntrospectedDynamicMBean.java:90-102 | a failure is the first failing name's error |
| IntrospectedDynamicMBeans.GetAllFailureSticks | src/main/java/org/softee/management/helper/IntrospectedDynamicMBean.java:90-102 | a failure in a prefix fails the whole call |
| IntrospectedDynamicMBeans.GetAttributes | src/main/java/org/softee/management/helper/IntrospectedDynamicMBean.java:90-102 | the loop's result is `GetAll` |
| IntrospectedDynamicMBeans.SetAllReturnsInput | src/main/java/org/softee/management/helper/IntrospectedDynamicMBean.java:130-142 | on success the list returned is the list given |
| IntrospectedDynamicMBeans.SetAllFailure | src/main/java/org/softee/management/helper/IntrospectedDynamicMBean.java:130-142 | a failure is the first failing attribute's error |
| IntrospectedDynamicMBeans.SetAllFailureSticks | src/main/java/org/softee/management/helper/IntrospectedDynamicMBean.java:130-142 | a failure in a prefix fails the whole call |
| IntrospectedDynamicMBeans.SetAttributes | src/main/java/org/softee/management/helper/IntrospectedDynamicMBean.java:130-142 | the loop's result is `SetAll` |
| IntrospectedDynamicMBeans.ReadableAttributeIsFound | src/main/java/org/softee/management/helper/IntrospectedDynamicMBean.java:73-80 | a published readable attribute always reaches its getter |
| IntrospectedDynamicMBeans.WritableAttributeIsFound | src/main/java/org/softee/management/helper/IntrospectedDynamicMBean.java:109-116 | a published writable attribute always reaches its setter |
| IntrospectedMBeans.ClassDescription | trunk/src/main/java/org/softee/management/IntrospectedMBean.java:252-255 | the class's `@Description`, or none |
| IntrospectedMBeans.PropertyMethods | trunk/src/main/java/org/softee/management/IntrospectedMBean.java:170-177 | exactly the present getters and setters of the properties |
| IntrospectedMBeans.AddNotNull | trunk/src/main/java/org/softee/management/IntrospectedMBean.java:179-183 | a present accessor is added, an absent one changes nothing |
| IntrospectedMBeans.AccessorsStep | trunk/src/main/java/org/softee/management/IntrospectedMBean.java:170-177 | extending by one property adds exactly its accessors |
| IntrospectedMBeans.CollectPropertyMethods | trunk/src/main/java/org/softee/management/IntrospectedMBean.java:170-177 | the loop's result is `PropertyMethods` |
| IntrospectedMBeans.OperationsSelected | trunk/src/main/java/org/softee/management/IntrospectedMBean.java:156-168 | the operations are exactly the `@Description` methods that are not property accessors |
| IntrospectedMBeans.OperationsKeepOrder | trunk/src/main/java/org/softee/management/IntrospectedMBean.java:159-166 | the operations keep the order of the class's methods |
| IntrospectedMBeans.OperationsMarked | trunk/src/main/java/org/softee/management/IntrospectedMBean.java:156-168 | every operation info comes from a marked method |
| IntrospectedMBeans.OperationInfoOfSpec | trunk/src/main/java/org/softee/management/IntrospectedMBean.java:164 | the info carries the method's name, description and impact |
| IntrospectedMBeans.CreateOperationInfo | trunk/src/main/java/org/softee/management/IntrospectedMBean.java:156-168 | the loop's result is `OperationInfoList` |
| IntrospectedMBeans.Build | trunk/src/main/java/org/softee/management/IntrospectedMBean.java:47-57 | the constructor's result is `Introspect` of the class, with keys in the given order |
| IntrospectedMBeans.IntrospectSucceeds | trunk/src/main/java/org/softee/management/IntrospectedMBean.java:204-229 | a class whose accessors are well-formed always introspects |
| IntrospectedMBeans.IntrospectFailure | trunk/src/main/java/org/softee/management/IntrospectedMBean.java:208-219 | a bad accessor is the error |
| IntrospectedMBeans.IntrospectAttributesConsistent | trunk/src/main/java/org/softee/management/IntrospectedMBean.java:204-229 | every published attribute is backed by a property with the accessors its flags claim |
| IntrospectedMBeans.KeyOrderLength | trunk/src/main/java/org/softee/management/IntrospectedMBean.java:204-229 | an enumeration of the map's keys lists each key once |
| IntrospectedMBeans.IntrospectOperations | trunk/src/main/java/org/softee/management/IntrospectedMBean.java:134-168 | the published operations are the marked non-accessor methods |
| IntrospectedMBeans.ReadableAttributeIsFound | trunk/src/main/java/org/softee/management/IntrospectedMBean.java:63-70 | a published readable attribute always reaches its getter |
| IntrospectedMBeans.WritableAttributeIsFound | trunk/src/main/java/org/softee/management/IntrospectedMBean.java:90-97 | a published writable attribute always reaches its setter |
| IntrospectedMBeans.GetAttributes | trunk/src/main/java/org/softee/management/IntrospectedMBean.java:80-83 | not implemented: always null |
| IntrospectedMBeans.SetAttributes | trunk/src/main/java/org/softee/management/IntrospectedMBean.java:111-114 | not implemented: always null |
| IntrospectedMBeans.Invoke | trunk/src/main/java/org/softee/management/IntrospectedMBean.java:122-126 | not implemented: always null |
| Metrics.NoneAsNull | trunk/src/main/java/org/softee/management/AbstractMBean.java:108-111 | `Long.MIN_VALUE` reads as null; any other value reads as itself |
| Metrics.NoneAsNullRoundTrip | trunk/src/main/java/org/softee/management/AbstractMBean.java:108-111 | storing back what was read gives the stored value |
| Metrics.NullAsNoneRoundTrip | trunk/src/main/java/org/softee/management/AbstractMBean.java:108-111 | reading what was stored gives the value stored |
| Metrics.Incremented | trunk/src/main/java/org/softee/management/MessagingMBean.java:67 | `incrementAndGet` adds one, wrapping `Long.MAX_VALUE` to `Long.MIN_VALUE` |
| Metrics.Age | trunk/src/main/java/org/softee/management/AbstractMBean.java:113-115 | null stays null; otherwise the `long` difference from the time to now, in whole units truncated toward zero (whole seconds for SECONDS, exact milliseconds for MILLISECONDS); a past time has a non-negative age |
| Metrics.Date | trunk/src/main/java/org/softee/management/AbstractMBean.java:131-138 | null stays null; otherwise a date at those milliseconds |
| Metrics.DateString | trunk/src/main/java/org/softee/management/AbstractMBean.java:121-123 | null stays null; otherwise the XML format of the date |
| Metrics.Average | trunk/src/main/java/org/softee/management/MessagingMBean.java:253-258 | null exactly when nothing was processed; otherwise the total divided by the count, truncated toward zero, including after the total has wrapped |
| Metrics.Recorded | trunk/src/main/java/org/softee/management/MessagingMBean.java:112-125 | the duration becomes the latest, is added to the total, and lies between the new minimum and maximum |
| Metrics.RecordedConsistent | trunk/src/main/java/org/softee/management/MessagingMBean.java:112-125 | recording keeps minimum ≤ latest ≤ maximum |
| Metrics.SeqMin | trunk/src/main/java/org/softee/management/MessagingMBean.java:116-119 | the least element of a non-empty sequence |
| Metrics.SeqMax | trunk/src/main/java/org/softee/management/MessagingMBean.java:121-124 | the greatest element of a non-empty sequence |
| Metrics.RecordedAllSummary | trunk/src/main/java/org/softee/management/MessagingMBean.java:112-125 | from empty, a run of durations records its last element, its minimum, its maximum and its wrapped sum |
| Metrics.RecordedAllLatest | trunk/src/main/java/org/softee/management/MessagingMBean.java:113 | the latest is the run's last duration |
| Metrics.RecordedAllTotal | trunk/src/main/java/org/softee/management/MessagingMBean.java:114 | the total is the old total plus the run's sum, wrapped to 64 bits |
| Metrics.RecordedAllExtremes | trunk/src/main/java/org/softee/management/MessagingMBean.java:116-124 | the minimum and maximum combine the old ones with the run's |
| Metrics.SumAtLeast | trunk/src/main/java/org/softee/management/MessagingMBean.java:253-258 | a run bounded below by lo sums to at least n·lo |
| Metrics.SumAtMost | trunk/src/main/java/org/softee/management/MessagingMBean.java:253-258 | a run bounded above by hi sums to at most n·hi |
| Metrics.AverageBetweenExtremes | trunk/src/main/java/org/softee/management/MessagingMBean.java:253-258 | without overflow, the average of a run lies between its minimum and maximum |
| Metrics.SumNonNegative | trunk/src/main/java/org/softee/management/MessagingMBean.java:112 | only non-negative durations are recorded, so their sum is non-negative |
| TimeUnits.Convert | trunk/src/main/java/org/softee/management/MessagingMBean.java:108 | toward a coarser unit, the quotient by the units' ratio truncated toward zero; toward a finer unit, the product with that ratio, saturated at `Long.MIN_VALUE` and `Long.MAX_VALUE`; the sign is kept and equal units change nothing |
| TimeUnits.FinerAndBack | trunk/src/main/java/org/softee/management/MessagingMBean.java:108 | converting to a finer unit and back returns the duration, unless the product saturated |
| TimeUnits.FirstWithPrefix | trunk/src/main/java/org/softee/management/MessagingMBean.java:226-231 | the first unit whose upper-cased name starts with the prefix; none exactly when no unit does |
| TimeUnits.FirstWhere | trunk/src/main/java/org/softee/management/MessagingMBean.java:226-231 | the first position that satisfies the test; none exactly when no position does |
| TimeUnits.FirstWithPrefixAt | trunk/src/main/java/org/softee/management/MessagingMBean.java:226-231 | a matching unit with no match before it is the one chosen |
| JavaLang.Wrap | trunk/src/main/java/org/softee/management/MessagingMBean.java:114 | the 64-bit value congruent to the integer; the integer itself when in range |
| JavaLang.TruncDiv | trunk/src/main/java/org/softee/management/MessagingMBean.java:257 | Java's `long` division: the remainder is smaller than the divisor in magnitude and is zero or has the dividend's sign (rounding toward zero), and the quotient is no larger than the dividend |
| JavaLang.HashtableOf | trunk/src/main/java/org/softee/management/helper/ObjectNameBuilder.java:99 | `new Hashtable<>(map)` holds the same bindings, and fails with a NullPointerException exactly when some value is null |
| JavaLang.HashtableOfWrapped | trunk/src/main/java/org/softee/management/helper/ObjectNameBuilder.java:97-100 | a table whose values are all present copies back to the same bindings |
| JavaLang.ObjectNameOf | trunk/src/main/java/org/softee/management/helper/ObjectNameBuilder.java:99 | `new ObjectName(domain, table)` fails on a null domain (NullPointerException "domain cannot be null"), an empty table, and a domain, key or value with a character the object name grammar forbids (MalformedObjectNameException); otherwise it holds that domain and those keys |
| JavaLang.CommaValueNeedsQuotes | trunk/src/main/java/org/softee/management/helper/ObjectNameBuilder.java:99 | the value `a,b` is refused and the quoted value `"a,b"` is accepted |
| JavaStrings.ToUpper | trunk/src/main/java/org/softee/management/MessagingMBean.java:227 | upper-cases each character in place |
| JavaStrings.Trim | trunk/src/main/java/org/softee/management/MessagingMBean.java:222 | the slice of the input left after dropping the characters up to ' ' from both ends: every dropped character is such, and a non-empty result starts and ends with another; empty exactly when all of them are such |
| JavaStrings.Decimal | src/main/java/org/softee/management/helper/IntrospectedDynamicMBean.java:250 | digits without a leading zero whose decimal value is the number |
| JavaStrings.DecimalInjective | src/main/java/org/softee/management/helper/IntrospectedDynamicMBean.java:250 | different numbers print differently |
| JavaStrings.LessTotal | src/main/java/org/softee/management/helper/IntrospectedDynamicMBean.java:326-330 | `String.compareTo` orders any two different strings |
| JavaStrings.LeastExists | src/main/java/org/softee/management/helper/IntrospectedDynamicMBean.java:326-330 | every non-empty key set has a least element under `compareTo` |
| MessagingMBeans.InputNotifiedEffect | trunk/src/main/java/org/softee/management/MessagingMBean.java:66-69 | the input count goes up by one, the latest input is now, nothing else changes |
| MessagingMBeans.OutputNotifiedInEffect | trunk/src/main/java/org/softee/management/MessagingMBean.java:106-126 | the output count and time move; a non-negative converted duration is recorded and a negative one is not |
| MessagingMBeans.FailureNotifiedEffect | trunk/src/main/java/org/softee/management/MessagingMBean.java:139-143 | the failure count goes up, the latest failure is now, the cause is stored |
| MessagingMBeans.OperationsKeepValid | trunk/src/main/java/org/softee/management/MessagingMBean.java:66-172 | every operation keeps minimum ≤ latest ≤ maximum |
| MessagingMBeans.OutputKeepsValid | trunk/src/main/java/org/softee/management/MessagingMBean.java:106-126 | recording an output keeps the duration record valid |
| MessagingMBeans.NoInputFineUnitSkipsStatistics | trunk/src/main/java/org/softee/management/MessagingMBean.java:76-87 | with no input yet and a unit of milliseconds or finer, the -1 sentinel is not recorded |
| MessagingMBeans.NoInputCoarseUnitRecordsZero | trunk/src/main/java/org/softee/management/MessagingMBean.java:76-87 | with no input yet and a unit of seconds or coarser, the -1 sentinel becomes a recorded duration of 0 |
| MessagingMBeans.OutputNotifiedSinceInputIntended | trunk/src/main/java/org/softee/management/MessagingMBean.java:76-87 | the output without a preceding input counts the message but records no duration, in every unit |
| MessagingMBeans.IntendedOutputSkipsStatistics | trunk/src/main/java/org/softee/management/MessagingMBean.java:76-87 | the intended behaviour agrees with the code whenever an input was seen or the unit is fine enough |
| MessagingMBeans.AbbreviationMSelectsMicroseconds | trunk/src/main/java/org/softee/management/MessagingMBean.java:217-231 | `setDuration("M")` chooses MICROSECONDS, the first unit starting with M |
| MessagingMBeans.DurationNameSelectsItsUnit | trunk/src/main/java/org/softee/management/MessagingMBean.java:210-233 | `setDuration(getDuration())` selects the current unit again |
| MessagingMBeans.MessagingMBean.constructor | trunk/src/main/java/org/softee/management/MessagingMBean.java:157-172 | a new bean is in the reset state |
| MessagingMBeans.MessagingMBean.NotifyInput | trunk/src/main/java/org/softee/management/MessagingMBean.java:66-69 | the state becomes `InputNotified` of the old |
| MessagingMBeans.MessagingMBean.NotifyOutput | trunk/src/main/java/org/softee/management/MessagingMBean.java:76-87 | the state becomes `OutputNotifiedSinceInput` of the old, sentinel included |
| MessagingMBeans.MessagingMBean.NotifyOutputMillis | trunk/src/main/java/org/softee/management/MessagingMBean.java:96-98 | as `notifyOutput(d, MILLISECONDS)` |
| MessagingMBeans.MessagingMBean.NotifyOutputIn | trunk/src/main/java/org/softee/management/MessagingMBean.java:106-126 | the state becomes `OutputNotifiedIn` of the old |
| MessagingMBeans.MessagingMBean.RecordDuration | trunk/src/main/java/org/softee/management/MessagingMBean.java:112-125 | only the duration record changes, to `Recorded` |
| MessagingMBeans.MessagingMBean.NotifyFailed | trunk/src/main/java/org/softee/management/MessagingMBean.java:131-133 | a failure without a cause |
| MessagingMBeans.MessagingMBean.NotifyFailedWith | trunk/src/main/java/org/softee/management/MessagingMBean.java:139-143 | the state becomes `FailureNotified` of the old |
| MessagingMBeans.MessagingMBean.ResetMBean | trunk/src/main/java/org/softee/management/MessagingMBean.java:157-172 | every counter and time is cleared and the unit is MILLISECONDS again |
| MessagingMBeans.MessagingMBean.SetDurationUnit | trunk/src/main/java/org/softee/management/MessagingMBean.java:239-241 | only the unit changes |
| MessagingMBeans.MessagingMBean.SetDuration | trunk/src/main/java/org/softee/management/MessagingMBean.java:221-233 | null or blank is "Empty value not allowed"; otherwise the first unit the trimmed, upper-cased text abbreviates, or "Unknown time unit"; a failure changes nothing |
| MessagingMBeans.MessagingMBean.GetDuration | trunk/src/main/java/org/softee/management/MessagingMBean.java:210-212 | the unit's name |
| MessagingMBeans.MessagingMBean.GetDurationLatest | trunk/src/main/java/org/softee/management/MessagingMBean.java:244-246 | null exactly when no duration is recorded |
| MessagingMBeans.MessagingMBean.GetDurationMin | trunk/src/main/java/org/softee/management/MessagingMBean.java:261-263 | null exactly when no duration is recorded |
| MessagingMBeans.MessagingMBean.GetDurationMax | trunk/src/main/java/org/softee/management/MessagingMBean.java:266-268 | null exactly when no duration is recorded |
| MessagingMBeans.MessagingMBean.GetDurationAverage | trunk/src/main/java/org/softee/management/MessagingMBean.java:253-258 | null exactly when nothing was output; otherwise the total over the count, truncated toward zero |
| MessagingMBeans.MessagingMBean.GetInputLatest | trunk/src/main/java/org/softee/management/MessagingMBean.java:181-183 | null exactly when no input was seen; otherwise its time |
| MessagingMBeans.MessagingMBean.GetInputLatestAgeSeconds | trunk/src/main/java/org/softee/management/MessagingMBean.java:186-188 | null exactly when no input was seen; otherwise the whole seconds, truncated toward zero, of the `long` difference now − latest input; a past input has a non-negative age |
| TimeUnits.FindFirst | trunk/src/main/java/org/softee/management/MessagingMBean.java:226-231 | the loop over the units stops at the first match, the one `FirstWhere` specifies |
| MessagingMBeans.IndexOf | trunk/src/main/java/org/softee/management/MessagingMBean.java:226 | the position of a unit in `TimeUnit.values()` |
| MessagingMBeans.FromMarker | trunk/src/main/java/org/softee/management/MessagingMBean.java:51-53 | a bean named by its class's `@MBean`, in the reset state, or the naming error |
| AbstractMBeans.AbstractMBean.constructor | trunk/src/main/java/org/softee/management/AbstractMBean.java:63-66 | the object name is kept and the bean is not started |
| AbstractMBeans.AbstractMBean.Start | trunk/src/main/java/org/softee/management/AbstractMBean.java:89-92 | the start time is stamped whether or not registration succeeds |
| AbstractMBeans.AbstractMBean.GetStarted | trunk/src/main/java/org/softee/management/AbstractMBean.java:103-106 | a NullPointerException before `start`; then the start date |
| AbstractMBeans.FromMarker | trunk/src/main/java/org/softee/management/AbstractMBean.java:41-45 | succeeds exactly when the class's `@MBean` name is non-empty and parses, and the bean is named by it |
| AbstractMBeans.FromMarkerNamed | trunk/src/main/java/org/softee/management/AbstractMBean.java:52-56 | as `FromMarker`, with the "name" key replaced and everything else kept; a null name is a NullPointerException from `build`, and a name the object name grammar refuses as a value a MalformedObjectNameException |
| AbstractPojoMBeans.ObjectNameTextSplits | trunk/src/main/java/org/softee/management/AbstractPojoMBean.java:103-105 | the object name text splits back into the domain, "name=…" and "type=…" |
| AbstractPojoMBeans.KeyPropertiesSplit | trunk/src/main/java/org/softee/management/AbstractPojoMBean.java:103-105 | the key part splits into its two properties |
| AbstractPojoMBeans.ObjectNameFor | trunk/src/main/java/org/softee/management/AbstractPojoMBean.java:56-79 | the domain, type and name are checked for null in that order, each a NullPointerException naming it; when all three are present the result is exactly the JDK's parse of `<domain>:name=<name>,type=<type>` |
| AbstractPojoMBeans.AbstractPojoMBean.constructor | trunk/src/main/java/org/softee/management/AbstractPojoMBean.java:56-79 | the name and object name are kept and the bean is not started |
| AbstractPojoMBeans.AbstractPojoMBean.Reset | trunk/src/main/java/org/softee/management/AbstractPojoMBean.java:82-84 | the start time is kept |
| AbstractPojoMBeans.AbstractPojoMBean.Start | trunk/src/main/java/org/softee/management/AbstractPojoMBean.java:111-114 | the start time is stamped whether or not registration succeeds |
| AbstractPojoMBeans.AbstractPojoMBean.GetStarted | trunk/src/main/java/org/softee/management/AbstractPojoMBean.java:87-89 | a NullPointerException before `start`; then the start date text |
| AbstractPojoMBeans.Create | trunk/src/main/java/org/softee/management/AbstractPojoMBean.java:56-79 | succeeds exactly when `ObjectNameFor` does, giving a bean that is not started |
| AbstractPojoMBeans.CreateForType | trunk/src/main/java/org/softee/management/AbstractPojoMBean.java:45-47 | the domain is the type's package; a null type is a NullPointerException |
| ProcessingPojoMBeans.InputNotifiedEffect | src/main/java/org/softee/management/ProcessingPojoMBean.java:74-77 | the input count goes up and the latest input is now; nothing else changes |
| ProcessingPojoMBeans.OutputNotifiedEffect | src/main/java/org/softee/management/ProcessingPojoMBean.java:101-118 | the output count and time move; a negative duration is clamped to 0, and the clamped duration is recorded as the latest, added to the total and kept between minimum and maximum |
| ProcessingPojoMBeans.NoInputRecordsZero | src/main/java/org/softee/management/ProcessingPojoMBean.java:84-95 | an output with no input yet records a duration of 0 |
| ProcessingPojoMBeans.SinceInputMeasuresElapsed | src/main/java/org/softee/management/ProcessingPojoMBean.java:84-95 | after an input at t, an output at now records now − t |
| ProcessingPojoMBeans.FailureNotifiedEffect | src/main/java/org/softee/management/ProcessingPojoMBean.java:131-135 | the failure count goes up, the latest failure is now, the cause is stored |
| ProcessingPojoMBeans.ResetKeepsCause | src/main/java/org/softee/management/ProcessingPojoMBean.java:143-157 | reset clears the counters, times and durations, keeps the last cause, and is idempotent |
| ProcessingPojoMBeans.OperationsKeepValid | src/main/java/org/softee/management/ProcessingPojoMBean.java:74-157 | every operation keeps minimum ≤ latest ≤ maximum |
| ProcessingPojoMBeans.OutputsRecordAll | src/main/java/org/softee/management/ProcessingPojoMBean.java:101-118 | a run of outputs records its durations as `RecordedAll` and counts them |
| ProcessingPojoMBeans.AverageOfRunBetweenExtremes | src/main/java/org/softee/management/ProcessingPojoMBean.java:201-206 | after a run from reset, the average lies between the minimum and maximum |
| ProcessingPojoMBeans.ProcessingPojoMBean.constructor | src/main/java/org/softee/management/ProcessingPojoMBean.java:63-69 | a new bean is cleared |
| ProcessingPojoMBeans.ProcessingPojoMBean.NotifyInput | src/main/java/org/softee/management/ProcessingPojoMBean.java:74-77 | the state becomes `InputNotified` of the old |
| ProcessingPojoMBeans.ProcessingPojoMBean.NotifyOutput | src/main/java/org/softee/management/ProcessingPojoMBean.java:84-95 | the state becomes `OutputNotifiedSinceInput` of the old |
| ProcessingPojoMBeans.ProcessingPojoMBean.NotifyOutputMillis | src/main/java/org/softee/management/ProcessingPojoMBean.java:101-118 | the state becomes `OutputNotified` of the old |
| ProcessingPojoMBeans.ProcessingPojoMBean.RecordDuration | src/main/java/org/softee/management/ProcessingPojoMBean.java:104-117 | only the duration record changes, to `Recorded` |
| ProcessingPojoMBeans.ProcessingPojoMBean.NotifyFailed | src/main/java/org/softee/management/ProcessingPojoMBean.java:123-125 | a failure without a cause |
| ProcessingPojoMBeans.ProcessingPojoMBean.NotifyFailedWith | src/main/java/org/softee/management/ProcessingPojoMBean.java:131-135 | the state becomes `FailureNotified` of the old |
| ProcessingPojoMBeans.ProcessingPojoMBean.Reset | src/main/java/org/softee/management/ProcessingPojoMBean.java:143-157 | the state becomes `ResetOf` the old, and the start time is kept |
| ProcessingPojoMBeans.ProcessingPojoMBean.GetDurationLatestMillis | src/main/java/org/softee/management/ProcessingPojoMBean.java:191-194 | null exactly when no duration is recorded |
| ProcessingPojoMBeans.ProcessingPojoMBean.GetDurationMinMillis | src/main/java/org/softee/management/ProcessingPojoMBean.java:208-211 | null exactly when no duration is recorded |
| ProcessingPojoMBeans.ProcessingPojoMBean.GetDurationMaxMillis | src/main/java/org/softee/management/ProcessingPojoMBean.java:213-216 | null exactly when no duration is recorded |
| ProcessingPojoMBeans.ProcessingPojoMBean.GetDurationAverageMillis | src/main/java/org/softee/management/ProcessingPojoMBean.java:201-206 | null exactly when nothing was output; otherwise the total over the count, truncated toward zero |
| ProcessingPojoMBeans.ProcessingPojoMBean.GetInputLatest | src/main/java/org/softee/management/ProcessingPojoMBean.java:165-168 | null exactly when no input was seen; otherwise its date text |
| ProcessingPojoMBeans.ProcessingPojoMBean.GetInputLatestAgeSeconds | src/main/java/org/softee/management/ProcessingPojoMBean.java:170-173 | null exactly when no input was seen; otherwise the whole seconds, truncated toward zero, of the `long` difference now − latest input; a past input has a non-negative age |
| ProcessingPojoMBeans.Create | src/main/java/org/softee/management/ProcessingPojoMBean.java:63-69 | succeeds exactly when the base object name does, giving a cleared bean |
| TrunkProcessingPojoMBeans.LongText | trunk/src/main/java/org/softee/management/ProcessingPojoMBean.java:150 | a minus sign exactly for a negative number, then digits without a leading zero whose decimal value is the number's magnitude |
| TrunkProcessingPojoMBeans.OutputNotified | trunk/src/main/java/org/softee/management/ProcessingPojoMBean.java:148-166 | fails exactly on a negative duration, with "Negative duration: …" |
| TrunkProcessingPojoMBeans.InputNotifiedEffect | trunk/src/main/java/org/softee/management/ProcessingPojoMBean.java:129-132 | the input count goes up and the latest input is now; nothing else changes |
| TrunkProcessingPojoMBeans.OutputNotifiedEffect | trunk/src/main/java/org/softee/management/ProcessingPojoMBean.java:148-166 | a non-negative duration counts the output and is recorded |
| TrunkProcessingPojoMBeans.FailureNotifiedEffect | trunk/src/main/java/org/softee/management/ProcessingPojoMBean.java:179-183 | the failure count goes up, the latest failure is now, the cause is stored |
| TrunkProcessingPojoMBeans.ResetClearsStarted | trunk/src/main/java/org/softee/management/ProcessingPojoMBean.java:196-209 | reset clears the start time, counters and durations, keeps the cause, and is idempotent |
| TrunkProcessingPojoMBeans.StartRegistersFirst | trunk/src/main/java/org/softee/management/ProcessingPojoMBean.java:113-116 | the start time is stamped only when registration succeeds |
| TrunkProcessingPojoMBeans.OperationsKeepValid | trunk/src/main/java/org/softee/management/ProcessingPojoMBean.java:113-209 | every operation keeps minimum ≤ latest ≤ maximum |
| TrunkProcessingPojoMBeans.NowMinusNoneIsNegative | trunk/src/main/java/org/softee/management/ProcessingPojoMBean.java:139-142 | now − `Long.MIN_VALUE` wraps to a negative number for every non-negative now |
| TrunkProcessingPojoMBeans.NoInputOutputRejected | trunk/src/main/java/org/softee/management/ProcessingPojoMBean.java:139-142 | `notifyOutput()` with no input yet always fails with "Negative duration" |
| TrunkProcessingPojoMBeans.OutputNotifiedSinceInputIntended | trunk/src/main/java/org/softee/management/ProcessingPojoMBean.java:139-142 | with no input yet, the output is counted and a duration of 0 is recorded, as the main tree's `ProcessingPojoMBean` does |
| TrunkProcessingPojoMBeans.IntendedOutputAccepted | trunk/src/main/java/org/softee/management/ProcessingPojoMBean.java:139-142 | the intended output never fails when no input was seen, counts the output and records 0, and agrees with the code otherwise |
| TrunkProcessingPojoMBeans.AsWrittenDomainIsPackageText | trunk/src/main/java/org/softee/management/ProcessingPojoMBean.java:105-107 | the object name's domain is "package " followed by the package name |
| TrunkProcessingPojoMBeans.IntendedDomainIsPackageName | trunk/src/main/java/org/softee/management/ProcessingPojoMBean.java:105-107 | with the package's name, the domain is that name |
| TrunkProcessingPojoMBeans.ProcessingPojoMBean.constructor | trunk/src/main/java/org/softee/management/ProcessingPojoMBean.java:90-103 | a new bean is cleared and not started |
| TrunkProcessingPojoMBeans.ProcessingPojoMBean.Start | trunk/src/main/java/org/softee/management/ProcessingPojoMBean.java:113-116 | the state becomes `StartedAt` of the old |
| TrunkProcessingPojoMBeans.ProcessingPojoMBean.NotifyInput | trunk/src/main/java/org/softee/management/ProcessingPojoMBean.java:129-132 | the state becomes `InputNotified` of the old |
| TrunkProcessingPojoMBeans.ProcessingPojoMBean.NotifyOutput | trunk/src/main/java/org/softee/management/ProcessingPojoMBean.java:139-142 | fails as `OutputNotifiedSinceInput` does; on success the state is its value |
| TrunkProcessingPojoMBeans.ProcessingPojoMBean.NotifyOutputMillis | trunk/src/main/java/org/softee/management/ProcessingPojoMBean.java:148-166 | fails as `OutputNotified` does; on success the state is its value |
| TrunkProcessingPojoMBeans.ProcessingPojoMBean.RecordDuration | trunk/src/main/java/org/softee/management/ProcessingPojoMBean.java:152-165 | only the duration record changes, to `Recorded` |
| TrunkProcessingPojoMBeans.ProcessingPojoMBean.NotifyFailed | trunk/src/main/java/org/softee/management/ProcessingPojoMBean.java:171-173 | a failure without a cause |
| TrunkProcessingPojoMBeans.ProcessingPojoMBean.NotifyFailedWith | trunk/src/main/java/org/softee/management/ProcessingPojoMBean.java:179-183 | the state becomes `FailureNotified` of the old |
| TrunkProcessingPojoMBeans.ProcessingPojoMBean.Reset | trunk/src/main/java/org/softee/management/ProcessingPojoMBean.java:196-209 | the state becomes `ResetOf` the old |
| TrunkProcessingPojoMBeans.ProcessingPojoMBean.GetStarted | trunk/src/main/java/org/softee/management/ProcessingPojoMBean.java:185-188 | null exactly when not started; otherwise the start date text |
| TrunkProcessingPojoMBeans.ProcessingPojoMBean.GetDurationMinMillis | trunk/src/main/java/org/softee/management/ProcessingPojoMBean.java:264-267 | null exactly when no duration is recorded |
| TrunkProcessingPojoMBeans.ProcessingPojoMBean.GetDurationMaxMillis | trunk/src/main/java/org/softee/management/ProcessingPojoMBean.java:269-272 | null exactly when no duration is recorded |
| TrunkProcessingPojoMBeans.ProcessingPojoMBean.GetProcessedDurationLatestMillis | trunk/src/main/java/org/softee/management/ProcessingPojoMBean.java:247-250 | null exactly when no duration is recorded |
| TrunkProcessingPojoMBeans.ProcessingPojoMBean.GetProcessedDurationAverageMillis | trunk/src/main/java/org/softee/management/ProcessingPojoMBean.java:257-262 | null exactly when nothing was output; otherwise the total over the count, truncated toward zero |
| TrunkProcessingPojoMBeans.ProcessingPojoMBean.GetReceivedLatestAgeSeconds | trunk/src/main/java/org/softee/management/ProcessingPojoMBean.java:226-229 | null exactly when no input was seen; otherwise the whole seconds, truncated toward zero, of the `long` difference now − latest input; a past input has a non-negative age |
| TrunkProcessingPojoMBeans.Create | trunk/src/main/java/org/softee/management/ProcessingPojoMBean.java:90-107 | a null instance name or monitored class is a NullPointerException; otherwise a cleared bean named after them |

## Left out

- MBean server registration is outside the model: `register`, `unregister`, `stop`,
  `reregisterMonitor`, `MBeanRegistration` and the platform MBean server. Registration's
  outcome is a parameter of `start`.
- `DynamicProxyFactory.createDynamicProxy` is outside the model: `Proxy.newProxyInstance` is
  JDK machinery. Its invocation handler is modelled.
- The JDK is represented by parameters:
  - object name parsing (`new ObjectName(String)`) is a `parse` function;
  - the clock (`System.currentTimeMillis`) is a `now` argument;
  - XML date formatting (`DatatypeFactory`, `toXMLFormat`) is a `toXmlFormat` function.
- The `DatatypeFactory` configuration error that `initialize` turns into a RuntimeException
  is not modelled.
- The Java Beans `Introspector`, which pairs getters and setters by name, is not modelled. A
  class arrives already described as a `ClassDesc` with its properties. An
  `IntrospectionException` from `getBeanInfo` is not modelled either.
- Reflective calls (`Method.invoke`) are a `call` parameter. `InvocationTargetException` and
  `IllegalAccessException` are modelled as the failures such a call may return.
- `getFailedLatestReason` and `getFailedLatestStacktrace` are not modelled, because they
  format a `Throwable` with JDK code. The last failure's cause is kept as an opaque value.
- Some getters are not modelled one by one, because they read a single field the way the
  modelled getters do:
  - the plain count and total getters;
  - the output and failure "latest" and "age" getters.
- `Class.getPackage()` returning null is not modelled. A class's package name is always
  present, so `withDomainAndType` never stores a null domain.
- ObjectNameBuilders.ObjectNameBuilder.WithProperty: the key is never null. Java's
  `LinkedHashMap` would store a null key, and `build` would then fail with a
  NullPointerException from the `Hashtable` copy; the model has no null key to store.
- ObjectNameFactories.ReplaceProperty: a null key is a NullPointerException without a
  message. The helpful message a recent JVM attaches to a null dereference is not modelled.
- Concurrency is not modelled, because each method is taken as atomic:
  - `synchronized`;
  - `AtomicLong`;
  - the unsynchronized `notifyOutput(long, TimeUnit)`.
- Iteration order:
  - A `LinkedHashMap` keeps insertion order, which no modelled operation observes.
  - The trunk `IntrospectedMBean` builds its attribute infos in `HashMap` order. That order
    is an `order` parameter, required only to list each key once.
- `MBeanInfo`'s constructor and notification infos are always empty in the source. They are
  not represented.
- IntrospectedDynamicMBeans.AttributeType: the JMX type name is the getter's return type or
  the setter's parameter type as a class name. Primitive and array type names are not
  distinguished.
- DynamicProxies.MethodText: `Method.toString()` in exception messages is rendered as the
  method name only.
- The main tree's `@MBean` and `@Description` class markers are looked up on the class
  itself. Annotation inheritance through `@Inherited` is not modelled.
- JavaLang.ObjectNameOf: the characters are checked against the grammar `ObjectName`
  documents (domain, key, unquoted and quoted value). A wildcard where the grammar allows
  one makes a pattern name, which is accepted as the JDK accepts it. The message text of the
  JDK's MalformedObjectNameException for a refused character is not modelled.
- JavaStrings.ToUpper: maps only the ASCII letters 'a' to 'z'. Java's `toUpperCase()`
  follows Unicode and the default locale, so "ß" becomes "SS" and, in a Turkish locale,
  "i" becomes "İ".
- MessagingMBeans.MessagingMBean.SetDuration: upper-cases with the ASCII-only `ToUpper`. A
  text that only Java's Unicode mapping turns into a unit prefix ("ß", which Java reads as
  "SS" and so as SECONDS) is an unknown unit here.
- MessagingMBeans.MessagingMBean.NotifyOutput: one clock reading serves both the duration
  since the input and the output time, where the source reads the clock twice
  (trunk/src/main/java/org/softee/management/MessagingMBean.java:85 and :109).
- ProcessingPojoMBeans.ProcessingPojoMBean.NotifyOutput: one clock reading serves both the
  duration since the input and the output time, where the source reads the clock twice
  (src/main/java/org/softee/management/ProcessingPojoMBean.java:93 and :104).
- TrunkProcessingPojoMBeans.ProcessingPojoMBean.NotifyOutput: one clock reading serves both
  the duration since the input and the output time, where the source reads the clock twice
  (trunk/src/main/java/org/softee/management/ProcessingPojoMBean.java:140 and :152).
- Metrics.AverageBetweenExtremes: proved only when the run's sum stays within `long` range.
  Otherwise the total wraps, and the average need not lie between the extremes.

## Findings

| source | as written | input that shows it | evidently intended | confidence | as-written member | corrected member |
|---|---|---|---|---|---|---|
| trunk/src/main/java/org/softee/management/helper/ObjectNameFactory.java:50-55 | the parts are appended without ':' after the domain and without ',' between the key segments | domain "org.example", name "n", type "t" gives "org.examplename=ntype=t" | "org.example:name=n,type=t", as the method's comment describes | high, not executed | ObjectNameFactories.AsWrittenDiffersFromIntended | ObjectNameFactories.IntendedTextSplits |
| trunk/src/main/java/org/softee/management/MessagingMBean.java:76-87 | with no input, `notifyOutput()` passes the sentinel -1 ms, which any unit of SECONDS or coarser truncates to 0 and records | `setDuration("s")` after reset, then `notifyOutput()`: duration 0 recorded, minimum 0 | the sentinel is never recorded in any unit | medium, not executed | MessagingMBeans.NoInputCoarseUnitRecordsZero | MessagingMBeans.IntendedOutputSkipsStatistics |
| trunk/src/main/java/org/softee/management/ProcessingPojoMBean.java:139-142 | `notifyOutput()` computes `now - inputLatest` even when `inputLatest` is `Long.MIN_VALUE` | after reset, `notifyOutput()` at any now ≥ 0 throws "Negative duration: …" | an output without an input counts the message and records a duration of 0, as the main tree's version does | medium, not executed | TrunkProcessingPojoMBeans.NoInputOutputRejected | TrunkProcessingPojoMBeans.IntendedOutputAccepted |
| trunk/src/main/java/org/softee/management/ProcessingPojoMBean.java:105-107 | the domain is `Package.toString()`, which prefixes "package " | package `org.softee.management` gives the domain "package org.softee.management" | the domain is the package name | high, not executed | TrunkProcessingPojoMBeans.AsWrittenDomainIsPackageText | TrunkProcessingPojoMBeans.IntendedDomainIsPackageName |
