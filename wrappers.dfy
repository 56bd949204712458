/** Kotlin's nullable values and the app's "rejected with a reason" outcomes. */
module Wrappers {

  /** A Kotlin `T?`: `None` stands for `null`. */
  datatype Option<+T> = None | Some(value: T) {

    /** The elvis operator `this ?: default`. */
    function GetOr(default: T): T {
      match this
      case Some(v) => v
      case None => default
    }
  }

  /** `firstOrNull()`: the head of a list, or `null` for the empty list. */
  function FirstOrNull<T>(s: seq<T>): (r: Option<T>)
    ensures r.Some? <==> |s| > 0
    ensures r.Some? ==> r.value == s[0]
  {
    if |s| == 0 then None else Some(s[0])
  }

  /** What a form handler did: sent a request, or stopped at a validation check. */
  datatype Result<+T, +E> = Success(value: T) | Failure(error: E)
}
