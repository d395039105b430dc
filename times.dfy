/**
 * The `times` helper shared by the particle factory and the renderer:
 * the sequence of length n whose i-th element is f(i).
 */
module Repeat {

  /** The n results of f on 0, 1, ..., n-1, in that order. */
  function Times<T>(n: nat, f: nat --> T): (r: seq<T>)
    requires forall i :: 0 <= i < n ==> f.requires(i)
    ensures |r| == n
    ensures forall i :: 0 <= i < n ==> r[i] == f(i)
  {
    seq(n, (i: int) requires 0 <= i < n => f(i))
  }
}
