/** The used-session mask read bit by bit; below 2^30 the 32-bit operators `<<`, `|` and `&` agree with arithmetic. */
module BitMask {

  /** `1 << n` */
  function Pow2(n: nat): (r: nat)
    ensures r > 0
  {
    if n == 0 then 1 else 2 * Pow2(n - 1)
  }

  /** `(mask & (1 << i)) !== 0` */
  predicate Has(mask: nat, i: nat) {
    if i == 0 then mask % 2 == 1 else Has(mask / 2, i - 1)
  }

  /** `mask | (1 << i)` */
  function With(mask: nat, i: nat): nat {
    if i == 0 then 2 * (mask / 2) + 1 else 2 * With(mask / 2, i - 1) + mask % 2
  }

  lemma {:induction false} WithHas(mask: nat, i: nat, j: nat)
    ensures Has(With(mask, i), j) <==> j == i || Has(mask, j)
  {
    if i != 0 && j != 0 {
      WithHas(mask / 2, i - 1, j - 1);
    }
  }

  lemma {:induction false} WithBound(mask: nat, i: nat, n: nat)
    requires i < n && mask < Pow2(n)
    ensures With(mask, i) < Pow2(n)
  {
    assert Pow2(n) == 2 * Pow2(n - 1);
    if i != 0 {
      assert mask / 2 < Pow2(n - 1);
      WithBound(mask / 2, i - 1, n - 1);
    }
  }

  lemma {:induction false} ZeroHasNone(i: nat)
    ensures !Has(0, i)
  {
    if i != 0 {
      ZeroHasNone(i - 1);
    }
  }
}
