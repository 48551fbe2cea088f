/**
 * The few pieces of the Java platform the model needs: 64-bit `long`
 * arithmetic, the exceptions the core throws, class references and
 * JMX object names.
 */
module JavaLang {
  import opened Wrappers

  const LONG_MIN: int := -0x8000_0000_0000_0000
  const LONG_MAX: int := 0x7FFF_FFFF_FFFF_FFFF

  /** A Java `long`. */
  newtype int64 = x: int | -0x8000_0000_0000_0000 <= x < 0x8000_0000_0000_0000

  /** Two's-complement wrap-around of an exact result into a `long`. */
  function Wrap(x: int): (r: int64)
    ensures LONG_MIN <= x <= LONG_MAX ==> r as int == x
    ensures (r as int - x) % 0x1_0000_0000_0000_0000 == 0
  {
    var m := (x - LONG_MIN) % 0x1_0000_0000_0000_0000;
    (m + LONG_MIN) as int64
  }

  /** The magnitude of an integer. */
  function Abs(x: int): nat {
    if x >= 0 then x else -x
  }

  /**
   * Java's integer division, which truncates toward zero (Dafny's `/` is Euclidean): the
   * remainder is smaller than the divisor in magnitude and is zero or has the dividend's
   * sign, and the quotient is no larger than the dividend in magnitude.
   */
  function TruncDiv(a: int, b: int): (q: int)
    requires b != 0
    ensures Abs(a - q * b) < Abs(b)
    ensures a - q * b == 0 || (a - q * b > 0 <==> a > 0)
    ensures Abs(q) <= Abs(a)
    ensures a >= 0 && b > 0 ==> q == a / b
    ensures (a >= 0) == (b > 0) ==> q >= 0
    ensures (a <= 0) == (b > 0) ==> q <= 0
  {
    var q := if (a >= 0) == (b >= 0) then Abs(a) / Abs(b) else -(Abs(a) / Abs(b));
    TruncQuotient(a, b, q);
    q
  }

  /** The signed quotient of the magnitudes truncates toward zero. */
  lemma TruncQuotient(a: int, b: int, q: int)
    requires b != 0 && q == if (a >= 0) == (b >= 0) then Abs(a) / Abs(b) else -(Abs(a) / Abs(b))
    ensures Abs(a - q * b) < Abs(b)
    ensures a - q * b == 0 || (a - q * b > 0 <==> a > 0)
    ensures Abs(q) <= Abs(a)
    ensures a >= 0 && b > 0 ==> q == a / b
    ensures (a >= 0) == (b > 0) ==> q >= 0
    ensures (a <= 0) == (b > 0) ==> q <= 0
  {
    var aa, bb := Abs(a), Abs(b);
    var qq, rr := aa / bb, aa % bb;
    assert aa == qq * bb + rr && 0 <= rr < bb;
    QuotientAtMost(aa, bb);
    assert Abs(q) == qq;
    TruncRemainder(a, b, qq, rr);
  }

  /** The remainder of the signed quotient, from the quotient and remainder of the magnitudes. */
  lemma TruncRemainder(a: int, b: int, qq: int, rr: int)
    requires b != 0 && Abs(a) == qq * Abs(b) + rr
    ensures a - (if (a >= 0) == (b >= 0) then qq else -qq) * b == if a >= 0 then rr else -rr
  {
    if b < 0 {
      assert qq * Abs(b) == -(qq * b);
      assert (-qq) * b == -(qq * b);
    }
  }

  lemma QuotientAtMost(a: nat, b: nat)
    requires b >= 1
    ensures a / b <= a
  {
    var q, r := a / b, a % b;
    assert a == q * b + r && r >= 0;
    assert q * b == q * (b - 1) + q;
    MulNonNegative(q, b - 1);
  }

  lemma MulNonNegative(x: nat, y: nat)
    ensures x * y >= 0
  {
  }

  /** `a / b` on two `long`s, including the overflow of `Long.MIN_VALUE / -1`. */
  function LongDiv(a: int64, b: int64): int64
    requires b != 0
  {
    Wrap(TruncDiv(a as int, b as int))
  }

  /** `a + b` on two `long`s. */
  function LongAdd(a: int64, b: int64): int64 {
    Wrap(a as int + b as int)
  }

  /** `a - b` on two `long`s. */
  function LongSub(a: int64, b: int64): int64 {
    Wrap(a as int - b as int)
  }

  /** `Math.max(a, b)` */
  function Max(a: int64, b: int64): int64 {
    if a >= b then a else b
  }

  /** A thrown object, reduced to its class name and message. */
  datatype Throwable = Throwable(className: string, message: Option<string>)

  /** The exceptions the modelled code throws. */
  datatype Failure =
    | NullPointer(message: Option<string>)
    | IllegalArgument(message: Option<string>, cause: Option<Failure>)
    | IllegalState(text: string)
      /** java.beans.IntrospectionException; `accessor` is the offending accessor's name */
    | Introspection(accessor: string)
    | AttributeNotFound(text: string)
      /** javax.management.InvalidAttributeValueException for the named attribute */
    | InvalidAttributeValue(attribute: string)
      /** javax.management.ReflectionException wrapping an IllegalAccessException */
    | Reflection(attribute: string)
      /** javax.management.MBeanException wrapping the InvocationTargetException that carries `target` */
    | MBeanFailure(attribute: string, target: Throwable)
      /** a RuntimeException carrying no cause */
    | Runtime(attribute: string)
    | MalformedObjectName(text: string)
      /** the MalformedObjectNameException the JDK throws for a character the object name grammar forbids; its text is the JDK's */
    | ObjectNameRejected

  /** A `java.lang.Class`, reduced to what the core reads of it. */
  datatype ClassRef = ClassRef(packageName: string, simpleName: string) {
    /** `Class.getName()`: the fully qualified name */
    function Name(): string {
      if packageName == "" then simpleName else packageName + "." + simpleName
    }
  }

  /** A JMX `ObjectName`: a domain and its key properties (parsing belongs to the JDK). */
  datatype ObjectName = ObjectName(domain: string, keys: map<string, string>)

  /** An object name's domain: any characters but a colon and a line break. */
  predicate DomainText(d: string) {
    forall i :: 0 <= i < |d| ==> d[i] != ':' && d[i] != '\n'
  }

  /** A key: not empty, and none of the characters comma, equals, colon, asterisk, question mark, line break. */
  predicate KeyText(k: string) {
    |k| > 0 && forall i :: 0 <= i < |k| ==> k[i] !in {',', '=', ':', '*', '?', '\n'}
  }

  /** An unquoted value: possibly empty, without comma, equals, colon, quote or line break. */
  predicate UnquotedValue(v: string) {
    forall i :: 0 <= i < |v| ==> v[i] !in {',', '=', ':', '"', '\n'}
  }

  /**
   * The inside of a quoted value: a backslash escapes one of backslash, quote, asterisk,
   * question mark or 'n'; a bare quote or line break is not allowed.
   */
  predicate QuotedBody(s: string)
    decreases |s|
  {
    if s == [] then true
    else if s[0] == '\\' then |s| >= 2 && s[1] in {'\\', '"', '*', '?', 'n'} && QuotedBody(s[2..])
    else s[0] != '"' && s[0] != '\n' && QuotedBody(s[1..])
  }

  /** A key property value: unquoted, or quoted with its inside escaped as `QuotedBody` says. */
  predicate ValueText(v: string) {
    UnquotedValue(v) || (|v| >= 2 && v[0] == '"' && v[|v| - 1] == '"' && QuotedBody(v[1..|v| - 1]))
  }

  /** The characters of a domain and a key table are those the object name grammar allows. */
  predicate WellFormedName(domain: string, keys: map<string, string>) {
    DomainText(domain) && forall k :: k in keys ==> KeyText(k) && ValueText(keys[k])
  }

  /**
   * `new ObjectName(domain, table)` / `ObjectName.getInstance(domain, table)`: a null domain
   * is a NullPointerException, an empty key list a MalformedObjectNameException, and so is
   * a domain, key or value whose characters the object name grammar forbids.
   */
  function ObjectNameOf(domain: Option<string>, keys: map<string, string>): (r: Result<ObjectName, Failure>)
    ensures r.Success? <==> domain.Some? && keys != map[] && WellFormedName(domain.value, keys)
    ensures r.Success? ==> r.value.domain == domain.value && r.value.keys == keys
    ensures domain.None? ==> r == Failure(NullPointer(Some("domain cannot be null")))
    ensures domain.Some? && keys == map[] ==> r == Failure(MalformedObjectName("key property list cannot be empty"))
    ensures domain.Some? && keys != map[] && !WellFormedName(domain.value, keys) ==> r == Failure(ObjectNameRejected)
  {
    if domain.None? then Failure(NullPointer(Some("domain cannot be null")))
    else if keys == map[] then Failure(MalformedObjectName("key property list cannot be empty"))
    else if !WellFormedName(domain.value, keys) then Failure(ObjectNameRejected)
    else Success(ObjectName(domain.value, keys))
  }

  /** No key of a Java map is bound to a null reference. */
  predicate NoNullValue(m: map<string, Option<string>>) {
    forall k :: k in m ==> m[k].Some?
  }

  /** The values of a map without nulls, unwrapped. */
  function Unwrapped(m: map<string, Option<string>>): (r: map<string, string>)
    requires NoNullValue(m)
    ensures r.Keys == m.Keys
    ensures forall k :: k in m ==> m[k] == Some(r[k])
  {
    map k | k in m :: m[k].value
  }

  /** A map of present values, each wrapped as a non-null reference. */
  function Wrapped(m: map<string, string>): (r: map<string, Option<string>>)
    ensures r.Keys == m.Keys && NoNullValue(r)
    ensures forall k :: k in m ==> r[k] == Some(m[k])
  {
    map k | k in m :: Some(m[k])
  }

  /**
   * `new Hashtable<>(map)`: the same bindings; a null value is a NullPointerException
   * without a message, as `Hashtable.put` throws.
   */
  function HashtableOf(m: map<string, Option<string>>): (r: Result<map<string, string>, Failure>)
    ensures r.Success? <==> NoNullValue(m)
    ensures r.Failure? ==> r.error == NullPointer(None)
    ensures r.Success? ==> r.value.Keys == m.Keys && forall k :: k in m ==> m[k] == Some(r.value[k])
  {
    if NoNullValue(m) then Success(Unwrapped(m)) else Failure(NullPointer(None))
  }

  /** Wrapping and copying into a table give back the map. */
  lemma HashtableOfWrapped(m: map<string, string>)
    ensures HashtableOf(Wrapped(m)) == Success(m)
  {
    assert Unwrapped(Wrapped(m)) == m;
  }

  /** A value holding a comma is refused, as `"a,b"` is, while the same value quoted is accepted. */
  lemma CommaValueNeedsQuotes()
    ensures ObjectNameOf(Some("d"), map["name" := "a,b"]) == Failure(ObjectNameRejected)
    ensures ObjectNameOf(Some("d"), map["name" := "\"a,b\""]) == Success(ObjectName("d", map["name" := "\"a,b\""]))
  {
    assert "a,b"[1] == ',' && "a,b"[0] != '"';
    assert !ValueText("a,b");
    assert !WellFormedName("d", map["name" := "a,b"]) by {
      assert "name" in map["name" := "a,b"];
    }
    var q := "\"a,b\"";
    assert q[1..|q| - 1] == "a,b";
    assert QuotedBody("a,b") by {
      assert "a,b"[1..] == ",b";
      assert ",b"[1..] == "b";
      assert "b"[1..] == [];
    }
  }
}
