/** Small shared vocabulary of the race model. */
module Basics {

  /** A value that JavaScript keeps as `null` or as a number. */
  datatype Option<T> = None | Some(value: T)

  /** A number as `Math.random()` returns it: in the half-open interval [0, 1). */
  predicate IsRandom(r: real) {
    0.0 <= r < 1.0
  }

  /** Every number of the sequence is a `Math.random()` result. */
  predicate AllRandom(rs: seq<real>) {
    forall k :: 0 <= k < |rs| ==> IsRandom(rs[k])
  }

  /** `Math.min` on two numbers. */
  function Min(a: real, b: real): (m: real)
    ensures m <= a && m <= b
    ensures m == a || m == b
  {
    if a <= b then a else b
  }

  /** `THREE.MathUtils.clamp(v, lo, hi)`, that is `Math.max(lo, Math.min(hi, v))`. */
  function Clamp(v: real, lo: real, hi: real): (r: real)
    requires lo <= hi
    ensures lo <= r <= hi
    ensures lo <= v <= hi ==> r == v
    ensures v < lo ==> r == lo
    ensures hi < v ==> r == hi
  {
    if hi < v then hi else if v < lo then lo else v
  }
}
