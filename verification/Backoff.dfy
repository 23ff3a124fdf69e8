/** The doubling that both retry delays use. */
module Backoff {
  function Pow2(n: nat): (p: nat)
    ensures p > n
  {
    if n == 0 then 1 else 2 * Pow2(n - 1)
  }
}
