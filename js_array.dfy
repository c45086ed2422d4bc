/**
 * `Array.prototype.map` with a callback that may throw: the elements are visited in order and
 * the first exception ends the whole call.
 */
module JsArray {
  import opened Wrappers

  /** `xs.map(f)` from position `i` on, where the callback `f` may throw: the first error ends the map. */
  function MapFrom<A, B, E>(xs: seq<A>, f: (A, nat) -> Result<B, E>, i: nat): (r: Result<seq<B>, E>)
    requires i <= |xs|
    ensures r.Ok? <==> forall k :: i <= k < |xs| ==> f(xs[k], k).Ok?
    ensures r.Ok? ==> |r.value| == |xs| - i && forall k :: 0 <= k < |r.value| ==> f(xs[i + k], i + k) == Ok(r.value[k])
    decreases |xs| - i
  {
    if i == |xs| then Ok([])
    else
      match f(xs[i], i)
      case Err(e) => Err(e)
      case Ok(y) =>
        match MapFrom(xs, f, i + 1)
        case Err(e) => Err(e)
        case Ok(rest) => Ok([y] + rest)
  }

  /** A failed map reports the error of the first element, in order, whose callback threw. */
  lemma {:induction false} MapFromFirstError<A, B, E>(xs: seq<A>, f: (A, nat) -> Result<B, E>, i: nat) returns (j: nat)
    requires i <= |xs| && MapFrom(xs, f, i).Err?
    ensures i <= j < |xs| && f(xs[j], j) == Err(MapFrom(xs, f, i).error)
    ensures forall k :: i <= k < j ==> f(xs[k], k).Ok?
    decreases |xs| - i
  {
    if f(xs[i], i).Err? {
      j := i;
    } else {
      j := MapFromFirstError(xs, f, i + 1);
    }
  }
}
