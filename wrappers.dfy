/** The optional value used where the source returns `None` or an object. */
module Wrappers {

  datatype Option<+T> = None | Some(value: T)

  /** The list that Python's `[x] if x is not None else []` would give. */
  function ToSeq<T>(o: Option<T>): (s: seq<T>)
    ensures |s| <= 1
    ensures o.None? <==> s == []
    ensures o.Some? ==> s == [o.value]
  {
    if o.Some? then [o.value] else []
  }
}
