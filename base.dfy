/** Small value types shared by every module of the model. */
module Base {

  /** A value that may be absent; stands for C#'s nullable references. */
  datatype Option<T> = None | Some(value: T) {

    /** The carried value, or `default` when absent (C#'s `??`). */
    function GetOr(default: T): T {
      match this
      case Some(v) => v
      case None => default
    }
  }

  const MinInt32: int := -0x8000_0000
  const MaxInt32: int := 0x7fff_ffff

  /** C#'s `int`: a 32-bit signed integer. */
  type Int32 = x: int | MinInt32 <= x <= MaxInt32

  /** `k` is the position of the first element of `s` that `matches` accepts. */
  predicate IsFirst<T>(s: seq<T>, matches: T -> bool, k: int) {
    && 0 <= k < |s|
    && matches(s[k])
    && forall j :: 0 <= j < k ==> !matches(s[j])
  }

  /** Where LINQ's `FirstOrDefault(matches)` stops: the first accepted position, if any. */
  function FirstIndex<T>(s: seq<T>, matches: T -> bool): (r: Option<nat>)
    ensures r.None? <==> forall k :: 0 <= k < |s| ==> !matches(s[k])
    ensures r.Some? ==> IsFirst(s, matches, r.value)
  {
    if |s| == 0 then None
    else if matches(s[0]) then Some(0)
    else
      match FirstIndex(s[1..], matches)
      case None => None
      case Some(k) => Some(k + 1)
  }
}
