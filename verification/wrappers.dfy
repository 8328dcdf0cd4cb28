/** Option and Result, the two failure-carrying shapes the model needs. */
module Wrappers {

  /** A value that may be absent: C#'s `null`, Python's `None`. */
  datatype Option<+T> = None | Some(value: T) {

    /** The carried value, or `default` when absent (C#'s `??`). */
    function GetOr(default: T): T {
      match this
      case Some(v) => v
      case None => default
    }
  }

  /** Either a computed value or the error that was raised instead. */
  datatype Result<+R, +E> = Ok(value: R) | Err(error: E)

  /**
   * Applies `f` to each element in order and stops at the first error,
   * like a loop whose body may raise; otherwise the results in order.
   */
  function MapResults<T, U, E>(f: T -> Result<U, E>, xs: seq<T>): (r: Result<seq<U>, E>)
    ensures r.Ok? <==> forall i :: 0 <= i < |xs| ==> f(xs[i]).Ok?
    ensures r.Ok? ==> |r.value| == |xs| && forall i :: 0 <= i < |xs| ==> r.value[i] == f(xs[i]).value
  {
    if xs == [] then Ok([])
    else match f(xs[0])
      case Err(e) => Err(e)
      case Ok(y) =>
        match MapResults(f, xs[1..])
        case Err(e) =>
          var i :| 0 <= i < |xs[1..]| && f(xs[1..][i]).Err?;
          assert f(xs[i + 1]).Err?;
          Err(e)
        case Ok(ys) =>
          assert forall i :: 0 < i < |xs| ==> xs[i] == xs[1..][i - 1];
          Ok([y] + ys)
  }
}
