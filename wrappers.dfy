/** Small helper datatypes shared by every stage of the pipeline. */
module Wrappers {

  /** An optional value: JavaScript's `undefined` where the source uses it
      to mean "nothing here" (a failed declaration, a missing initializer). */
  datatype Option<+T> = None | Some(value: T)

  /** Turns an optional element into a sequence of zero or one elements. */
  function OptionToSeq<T>(o: Option<T>): (s: seq<T>)
    ensures o.None? ==> s == []
    ensures o.Some? ==> s == [o.value]
  {
    match o
    case None => []
    case Some(v) => [v]
  }
}
