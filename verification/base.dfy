/** Small failure-carrying datatypes and a first-match search shared by the whole model. */
module Base {

  /** A value that may be absent: JavaScript's `undefined` / `null` for one field. */
  datatype Option<+T> = None | Some(value: T) {
    /** The value, or `default` when absent. */
    function GetOr(default: T): T {
      match this
      case Some(v) => v
      case None => default
    }
  }

  /** Either a parsed value or the reason it was refused. */
  datatype Result<+T, +E> = Success(value: T) | Failure(error: E)

  /** Index of the first element of `s` satisfying `p`, as a front-to-back scan
      (`findOne`, `findById`) meets it. */
  function FindFirst<T>(s: seq<T>, p: T -> bool): (r: Option<nat>)
    ensures r.Some? ==> r.value < |s| && p(s[r.value])
    ensures r.Some? ==> forall j :: 0 <= j < r.value ==> !p(s[j])
    ensures r.None? ==> forall j :: 0 <= j < |s| ==> !p(s[j])
  {
    if |s| == 0 then None
    else if p(s[0]) then Some(0)
    else
      match FindFirst(s[1..], p)
      case None => None
      case Some(k) => Some(k + 1)
  }
}
