/**
 * The values the scene draws from outside the program: `Math.random()` draws,
 * `Math.PI`, and the trigonometric functions. Draws are inputs constrained to
 * the range `Math.random` promises; trigonometry is an uninterpreted oracle.
 */
module Oracles {

  /** The double closest to pi, as `Math.PI` holds it. */
  const Pi: real := 3.141592653589793

  /** What `Math.random()` promises of a value it returns. */
  predicate IsUnitDraw(r: real) {
    0.0 <= r < 1.0
  }

  predicate AllUnitDraws(rs: seq<real>) {
    forall k :: 0 <= k < |rs| ==> IsUnitDraw(rs[k])
  }

  /** `Math.floor(Math.random() * n)`: a random index into a list of length n. */
  function RandomIndex(r: real, n: nat): (k: nat)
    requires IsUnitDraw(r) && n > 0
    ensures k < n
  {
    assert 0.0 <= r * n as real < n as real;
    (r * n as real).Floor
  }

  /** Every index of a non-empty list is chosen by some draw. */
  lemma EveryIndexReachable(k: nat, n: nat)
    requires k < n
    ensures IsUnitDraw(k as real / n as real)
    ensures RandomIndex(k as real / n as real, n) == k
  {
    var r := k as real / n as real;
    assert r * n as real == k as real;
    assert r < 1.0 by {
      assert r * n as real < n as real;
    }
  }

  /** `Math.sin`, `Math.cos` and `Math.acos`, left uninterpreted. */
  datatype Trig = Trig(sin: real -> real, cos: real -> real, acos: real -> real)

  /** Dividing by a positive number keeps the order of the dividends. */
  lemma DivisionIsMonotone(a: real, b: real, m: real)
    requires a <= b && m > 0.0
    ensures a / m <= b / m
    ensures a < b ==> a / m < b / m
  {
    assert (b / m - a / m) * m == b - a;
  }
}
