/**
 * `org.softee.util.Objects` as it stands in the main tree: the first non-null
 * argument, or an IllegalArgumentException when there is none.
 */
module Objects {
  import opened Wrappers
  import opened JavaLang

  /** Index of the first present element, searching in argument order. */
  function FirstPresent<E>(all: seq<Option<E>>): (r: Option<nat>)
    ensures r.None? <==> forall i :: 0 <= i < |all| ==> all[i].None?
    ensures r.Some? ==> r.value < |all| && all[r.value].Some?
    ensures r.Some? ==> forall i :: 0 <= i < r.value ==> all[i].None?
  {
    if all == [] then None
    else if all[0].Some? then Some(0)
    else match FirstPresent(all[1..])
      case None => None
      case Some(k) => Some(k + 1)
  }

  /** `firstNotNull(all...)` */
  function FirstNotNull<E>(all: seq<Option<E>>): (r: Result<E, Failure>)
    ensures r.Success? <==> exists i :: 0 <= i < |all| && all[i].Some?
    ensures r.Success? ==>
      exists k :: 0 <= k < |all| && all[k] == Some(r.value) && forall i :: 0 <= i < k ==> all[i].None?
    ensures r.Failure? ==> r.error == IllegalArgument(Some("All null arguments"), None)
  {
    match FirstPresent(all)
    case None => Failure(IllegalArgument(Some("All null arguments"), None))
    case Some(k) => Success(all[k].value)
  }

  /** `notNull(obj)`: the identity on a present value, a message-less NullPointerException otherwise. */
  function NotNull<E>(obj: Option<E>): (r: Result<E, Failure>)
    ensures r.Success? <==> obj.Some?
    ensures r.Success? ==> r.value == obj.value
    ensures r.Failure? ==> r.error == NullPointer(None)
  {
    if obj.None? then Failure(NullPointer(None)) else Success(obj.value)
  }
}
