/** Facts about multiplication and Euclidean division used by the window arithmetic. */
module Arith {

  lemma {:induction false} MulMonotone(a: nat, b: nat, k: nat)
    requires a <= b
    ensures a * k <= b * k
    decreases b - a
  {
    if a < b {
      MulMonotone(a, b - 1, k);
      assert (b - 1) * k + k == b * k;
    }
  }

  lemma DivModParts(n: nat, k: nat)
    requires k >= 1
    ensures n == (n / k) * k + n % k && n % k < k
  {
  }

  lemma MulSucc(m: nat, x: nat)
    ensures (m + 1) * x == m * x + x
  {
  }

  lemma MulAssoc(a: nat, b: nat, c: nat)
    ensures a * (b * c) == (a * b) * c
  {
  }

  /** `n == w*k + s` with `0 <= s < k` pins down `n / k` and `n % k`. */
  lemma DivModUnique(n: nat, k: nat, w: nat, s: nat)
    requires k >= 1 && n == w * k + s && s < k
    ensures w == n / k && s == n % k
  {
    var q, r := n / k, n % k;
    assert n == q * k + r && 0 <= r < k;
    if w > q {
      MulMonotone(q + 1, w, k);
    } else if w < q {
      MulMonotone(w + 1, q, k);
    }
  }

  /** `a` windows of length `k` that fit in `n` steps are at most `n / k`. */
  lemma DivLowerBound(n: nat, k: nat, a: nat)
    requires k >= 1 && a * k <= n
    ensures a <= n / k
  {
    DivModParts(n, k);
    if a > n / k {
      MulMonotone(n / k + 1, a, k);
      MulSucc(n / k, k);
    }
  }

  /** `ceil(n / k)`: the full windows `n / k` plus one for a nonempty remainder. */
  function CeilDiv(n: nat, k: nat): nat
    requires k >= 1
  {
    n / k + if n % k == 0 then 0 else 1
  }

  /** `CeilDiv(n, k)` windows of length `k` cover `n` steps, and one fewer do not. */
  lemma CeilDivIsCeiling(n: nat, k: nat)
    requires k >= 1
    ensures n <= CeilDiv(n, k) * k
    ensures CeilDiv(n, k) > 0 ==> (CeilDiv(n, k) - 1) * k < n
  {
    var q, r := n / k, n % k;
    assert n == q * k + r;
    if r != 0 {
      assert CeilDiv(n, k) * k == q * k + k;
    }
  }
}
