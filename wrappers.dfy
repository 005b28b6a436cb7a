/** Option and Result, the two failure-compatible wrappers the model uses for
    absent values, thrown exceptions and error replies. */
module Wrappers {

  datatype Option<+T> = None | Some(value: T) {
    function GetOr(default: T): T {
      match this
      case Some(v) => v
      case None => default
    }
  }

  /** `Failure` carries whatever the JavaScript code would have thrown or
      rejected with. */
  datatype Result<+R, +E> = Success(value: R) | Failure(error: E)

  /** The present values of a sequence of options, in their original order:
      the `.filter(x => x !== null)` that follows a `.map` in the client. */
  function Somes<T>(xs: seq<Option<T>>): (r: seq<T>)
    ensures |r| <= |xs|
    ensures (forall i :: 0 <= i < |xs| ==> xs[i].None?) <==> r == []
  {
    if xs == [] then []
    else if xs[0].Some? then [xs[0].value] + Somes(xs[1..])
    else Somes(xs[1..])
  }

  /** `n` copies of `x`: the same progress message emitted once per step. */
  function Repeat<T>(x: T, n: nat): (r: seq<T>)
    ensures |r| == n && forall i :: 0 <= i < n ==> r[i] == x
  {
    if n == 0 then [] else Repeat(x, n - 1) + [x]
  }
}
