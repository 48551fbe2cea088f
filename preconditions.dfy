/**
 * `org.softee.util.Preconditions`: fluent null and emptiness assertions.
 * A Java reference that may be null is an `Option`; a thrown exception is a
 * `Failure` result.
 */
module Preconditions {
  import opened Wrappers
  import opened JavaLang

  /** `notNull(obj, msg)`: `obj` itself, or a NullPointerException carrying `msg` when there is one. */
  function NotNullMsg<E>(obj: Option<E>, msg: Option<string>): (r: Result<E, Failure>)
    ensures obj.Some? <==> r.Success?
    ensures obj.Some? ==> r.value == obj.value
    ensures obj.None? ==> r.error == NullPointer(msg)
  {
    match obj
    case None => Failure(NullPointer(msg))
    case Some(o) => Success(o)
  }

  /** `notNull(obj)`: the one-argument overload, which passes a null message. */
  function NotNull<E>(obj: Option<E>): (r: Result<E, Failure>)
    ensures r == NotNullMsg(obj, None)
    ensures obj.None? ==> r == Failure(NullPointer(None))
  {
    NotNullMsg(obj, None)
  }

  /**
   * `notEmpty(s, msg)`: `s` itself when it holds at least one character; a null `s`
   * fails as `notNull` does, an empty one with `msg`, or with "empty" when `msg` is null.
   */
  function NotEmptyMsg(s: Option<string>, msg: Option<string>): (r: Result<string, Failure>)
    ensures r.Success? <==> s.Some? && s.value != ""
    ensures r.Success? ==> r.value == s.value
    ensures s.None? ==> r == NotNullMsg(s, msg).PropagateFailure()
    ensures s == Some("") ==> r.error == NullPointer(if msg.None? then Some("empty") else msg)
  {
    var checked :- NotNullMsg(s, msg);
    if checked == "" then
      Failure(NullPointer(if msg.None? then Some("empty") else msg))
    else
      Success(checked)
  }

  /** `notEmpty(s)`: the one-argument overload, which passes a null message. */
  function NotEmpty(s: Option<string>): (r: Result<string, Failure>)
    ensures r == NotEmptyMsg(s, None)
    ensures s == Some("") ==> r == Failure(NullPointer(Some("empty")))
    ensures s.None? ==> r == Failure(NullPointer(None))
  {
    NotEmptyMsg(s, None)
  }
}
