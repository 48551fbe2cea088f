/**
 * `org.softee.util.Objects` as it stands in the trunk tree: the same search as
 * the main tree's, but an all-null argument list fails with a NullPointerException.
 */
module TrunkObjects {
  import opened Wrappers
  import opened JavaLang
  import Objects

  /** `firstNotNull(all...)` */
  function FirstNotNull<E>(all: seq<Option<E>>): (r: Result<E, Failure>)
    ensures r.Success? <==> exists i :: 0 <= i < |all| && all[i].Some?
    ensures r.Success? ==>
      exists k :: 0 <= k < |all| && all[k] == Some(r.value) && forall i :: 0 <= i < k ==> all[i].None?
    ensures r.Failure? ==> r.error == NullPointer(Some("All null arguments"))
  {
    match Objects.FirstPresent(all)
    case None => Failure(NullPointer(Some("All null arguments")))
    case Some(k) => Success(all[k].value)
  }

  /** The two variants pick the same element and differ only in the exception they throw. */
  lemma SameChoiceAsMainTree<E>(all: seq<Option<E>>)
    ensures FirstNotNull(all).Success? == Objects.FirstNotNull(all).Success?
    ensures FirstNotNull(all).Success? ==> FirstNotNull(all).value == Objects.FirstNotNull(all).value
    ensures FirstNotNull(all).Failure? ==>
      FirstNotNull(all).error == NullPointer(Some("All null arguments")) &&
      Objects.FirstNotNull(all).error == IllegalArgument(Some("All null arguments"), None)
  {
  }

  /** `notNull(obj)` */
  function NotNull<E>(obj: Option<E>): (r: Result<E, Failure>)
    ensures r.Success? <==> obj.Some?
    ensures r.Success? ==> r.value == obj.value
    ensures r.Failure? ==> r.error == NullPointer(None)
  {
    match obj
    case None => Failure(NullPointer(None))
    case Some(o) => Success(o)
  }
}
