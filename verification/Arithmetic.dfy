/** Integer facts shared by the models. */
module Arithmetic {
  function Max(a: int, b: int): int { if a >= b then a else b }

  function Min(a: int, b: int): int { if a <= b then a else b }

  function Pow2(n: nat): nat { if n == 0 then 1 else 2 * Pow2(n - 1) }

  /** Multiples of `w` lie at least `w` apart. */
  lemma {:induction false} MulStep(a: int, b: int, w: int)
    requires w >= 0
    ensures a < b ==> a * w + w <= b * w
    decreases b - a
  {
    if a < b {
      MulStep(a, b - 1, w);
      assert b * w == (b - 1) * w + w;
    }
  }

  lemma DivMod(q: nat, d: nat, r: nat)
    requires r < d
    ensures (q * d + r) / d == q && (q * d + r) % d == r
  {
    var n := q * d + r;
    MulStep(n / d, q, d);
    MulStep(q, n / d, d);
  }

  /** The ceiling of `n / limit` is the least number of steps of `limit` that reach `n`. */
  lemma CeilingSteps(n: nat, limit: nat, steps: nat)
    requires limit > 0
    ensures steps * limit >= n <==> steps >= (n + limit - 1) / limit
  {
    var q := (n + limit - 1) / limit;
    assert q * limit <= n + limit - 1 < q * limit + limit;
    MulStep(q, steps, limit);
    MulStep(steps, q, limit);
  }
}
