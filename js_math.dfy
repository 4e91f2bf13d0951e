/** Integer forms of the JavaScript arithmetic the core uses on millisecond timestamps. */
module JsMath {

  /** `Math.ceil(x / d)` for a positive integer divisor. Dafny's `/` is Euclidean
      (it floors for a positive divisor), so the ceiling is the negated floor of `-x / d`. */
  function CeilDiv(x: int, d: int): (r: int)
    requires d > 0
    ensures (r - 1) * d < x <= r * d
  {
    var q := (-x) / d;
    assert q * d <= -x < q * d + d;
    -q
  }

  /** `Math.floor(x / d)` for a positive integer divisor. */
  function FloorDiv(x: int, d: int): (r: int)
    requires d > 0
    ensures r * d <= x < r * d + d
  {
    x / d
  }

  /** `Math.pow(2, n)` for a natural exponent. */
  function Pow2(n: nat): (r: nat)
    ensures r >= 1
  {
    if n == 0 then 1 else 2 * Pow2(n - 1)
  }

  /** Doubling: each further exponent doubles the power. */
  lemma {:induction false} Pow2Monotone(m: nat, n: nat)
    requires m <= n
    ensures Pow2(m) <= Pow2(n)
  {
    if m < n {
      Pow2Monotone(m, n - 1);
    }
  }
}
