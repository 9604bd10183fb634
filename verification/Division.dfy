/** Quotients and remainders of consecutive numbers. */
module Division {
  lemma MulAtLeast(k: nat, d: nat)
    requires k > 0
    ensures k * d >= d
  {
  }

  lemma QuotientAtMost(a: nat, b: nat, d: nat)
    requires d > 0 && a * d < b * d + d
    ensures a <= b
  {
    if a > b {
      MulAtLeast(a - b, d);
    }
  }

  lemma DivUnique(n: nat, d: nat, q: nat, r: nat)
    requires d > 0 && n == q * d + r && r < d
    ensures n / d == q && n % d == r
  {
    assert n == n / d * d + n % d;
    QuotientAtMost(n / d, q, d);
    QuotientAtMost(q, n / d, d);
  }

  /** Counting up by one: the remainder grows, or wraps and carries. */
  lemma DivSucc(k: nat, d: nat)
    requires d > 0
    ensures if k % d + 1 == d then (k + 1) / d == k / d + 1 && (k + 1) % d == 0
            else (k + 1) / d == k / d && (k + 1) % d == k % d + 1
  {
    var q, r := k / d, k % d;
    assert k == q * d + r;
    if r + 1 == d {
      assert (q + 1) * d == q * d + d;
      DivUnique(k + 1, d, q + 1, 0);
    } else {
      DivUnique(k + 1, d, q, r + 1);
    }
  }
}
