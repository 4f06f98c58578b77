/** Powers of two and the integer logarithm that both containers' bounds are stated with. */
module Powers {

  function Pow2(k: nat): (p: nat)
    ensures p >= 1
    ensures p > k
  {
    if k == 0 then 1 else 2 * Pow2(k - 1)
  }

  /** floor(log2(n)), the exact integer the source computes as `(int)(log(n) / log(2))`. */
  function FloorLog2(n: nat): (k: nat)
    requires n >= 1
    ensures Pow2(k) <= n < Pow2(k + 1)
  {
    if n == 1 then 0 else 1 + FloorLog2(n / 2)
  }

  lemma {:induction false} Pow2Monotone(a: nat, b: nat)
    requires a <= b
    ensures Pow2(a) <= Pow2(b)
    ensures a < b ==> 2 * Pow2(a) <= Pow2(b)
    decreases b - a
  {
    if a < b { Pow2Monotone(a, b - 1); }
  }

  /** FloorLog2 is the largest exponent whose power fits. */
  lemma {:induction false} FloorLog2Largest(n: nat, k: nat)
    requires n >= 1 && Pow2(k) <= n
    ensures k <= FloorLog2(n)
  {
    if k > FloorLog2(n) { Pow2Monotone(FloorLog2(n) + 1, k); }
  }

  lemma {:induction false} FloorLog2OfPow2(k: nat)
    ensures FloorLog2(Pow2(k)) == k
  {
    FloorLog2Largest(Pow2(k), k);
    if FloorLog2(Pow2(k)) > k { Pow2Monotone(k, FloorLog2(Pow2(k))); }
  }

  lemma {:induction false} FloorLog2Monotone(a: nat, b: nat)
    requires 1 <= a <= b
    ensures FloorLog2(a) <= FloorLog2(b)
  {
    FloorLog2Largest(b, FloorLog2(a));
  }
}
