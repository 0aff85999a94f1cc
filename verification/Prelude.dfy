/** Datatypes shared by the models. */
module Prelude {

  /** A value that the source writes as nullable or optional. */
  datatype Option<+T> = None | Some(value: T) {
    function GetOr(default: T): T {
      match this
      case Some(v) => v
      case None => default
    }
  }

  /** Python's `a or b` on optional values, and JavaScript's `a ?? b`. */
  function OrElse<T>(first: Option<T>, second: Option<T>): Option<T> {
    if first.Some? then first else second
  }

  /** No value stands twice. */
  predicate NoRepeat<T(==)>(s: seq<T>) {
    forall i, j :: 0 <= i < j < |s| ==> s[i] != s[j]
  }
}
