/** JavaScript value semantics the app relies on: optional values and the
    rounding functions of `Math`, over unbounded numbers. */
module Js {

  /** A value that may be absent (`undefined`, `null`, or a missing key). */
  datatype Option<+T> = None | Some(value: T)

  /** JavaScript truthiness of an optional number: absent and 0 are falsy. */
  predicate Truthy(o: Option<int>) {
    o.Some? && o.value != 0
  }

  /** `Math.round`: the nearest integer, with halves rounded toward +infinity. */
  function Round(x: real): (r: int)
    ensures x - 0.5 < r as real <= x + 0.5
  {
    (x + 0.5).Floor
  }

  /** `Math.ceil`: the least integer not below `x`. */
  function Ceil(x: real): (r: int)
    ensures x <= r as real < x + 1.0
  {
    -((-x).Floor)
  }

  /** `Math.min` on two finite numbers. */
  function Min(a: real, b: real): (r: real)
    ensures r <= a && r <= b && (r == a || r == b)
  {
    if a <= b then a else b
  }

  /** `Math.max` on two finite numbers. */
  function Max(a: real, b: real): (r: real)
    ensures r >= a && r >= b && (r == a || r == b)
  {
    if a >= b then a else b
  }

  /** Rounding is monotone. */
  lemma RoundMonotone(x: real, y: real)
    requires x <= y
    ensures Round(x) <= Round(y)
  {
  }

  /** An integer rounds to itself. */
  lemma RoundOfInt(n: int)
    ensures Round(n as real) == n
  {
  }

  /** A value between two integers rounds to a value between them. */
  lemma RoundBetween(x: real, lo: int, hi: int)
    requires lo as real <= x <= hi as real
    ensures lo <= Round(x) <= hi
  {
    RoundMonotone(lo as real, x);
    RoundMonotone(x, hi as real);
    RoundOfInt(lo);
    RoundOfInt(hi);
  }

  /** A share of a positive whole lies in [0, 1]. */
  lemma ShareAtMostOne(c: real, t: real)
    requires t > 0.0 && 0.0 <= c <= t
    ensures 0.0 <= c / t <= 1.0
  {
    assert (t - c) / t >= 0.0;
    assert c / t + (t - c) / t == t / t;
  }

  /** A share of at least the whole is at least 1. */
  lemma ShareAtLeastOne(c: real, t: real)
    requires t > 0.0 && c >= t
    ensures c / t >= 1.0
  {
    assert (c - t) / t >= 0.0;
    assert c / t - (c - t) / t == t / t;
  }
}
