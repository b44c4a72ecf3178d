/** Optional values and pass/fail outcomes shared by the models. */
module Wrappers {

  /** A value that may be absent: an unset variable or a callback that was not called. */
  datatype Option<+T> = None | Some(value: T)

  /** The result of a check that either passes or throws an error. */
  datatype Outcome<+E> = Pass | Fail(error: E)

  /** The calls recorded by an optional value: none, or exactly one. */
  function ToSeq<T>(o: Option<T>): (s: seq<T>)
    ensures |s| <= 1
    ensures o.None? <==> s == []
    ensures o.Some? ==> s == [o.value]
  {
    match o
    case None => []
    case Some(v) => [v]
  }
}
