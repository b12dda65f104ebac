/** Integer powers of two: `Math.pow(2, n)` for a natural exponent, as the
    client's two exponential backoffs compute it. */
module Numbers {

  function Pow2(n: nat): (p: int)
    ensures p >= 1
  {
    if n == 0 then 1 else 2 * Pow2(n - 1)
  }

  lemma {:induction false} Pow2Monotone(n: nat)
    ensures Pow2(n) < Pow2(n + 1)
  {
  }
}
