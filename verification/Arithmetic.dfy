/** Products, quotients and remainders of integers, as the models need them. */
module Arithmetic {
  lemma MulOrdered(a: int, b: int, n: nat)
    requires a <= b
    ensures a * n <= b * n
  {}

  lemma MulGap(a: int, b: int, n: nat)
    requires a < b
    ensures a * n + n <= b * n
  {
    MulOrdered(a + 1, b, n);
    assert (a + 1) * n == a * n + n;
  }

  lemma MulDifference(a: int, b: int, d: int)
    ensures a * d - b * d == (a - b) * d
  {}

  lemma AtLeast(e: int, d: int)
    requires e >= 1 && d > 0
    ensures e * d >= d && -e * d == -(e * d)
  {}

  /** Quotient and remainder are determined by their equation. */
  lemma DivModUnique(n: int, q: int, r: int, d: int)
    requires 0 <= r < d && n == q * d + r
    ensures n / d == q && n % d == r
  {
    var e := n / d - q;
    assert n == (n / d) * d + n % d;
    assert (n / d) * d - q * d == e * d by { MulDifference(n / d, q, d); }
    assert e * d == r - n % d;
    if e > 0 { AtLeast(e, d); } else if e < 0 { AtLeast(-e, d); }
  }

  lemma MixedRadix(q: nat, r: nat, q': nat, r': nat, n: nat)
    requires r < n && r' < n && q * n + r == q' * n + r'
    ensures q == q' && r == r'
  {
    if q < q' { MulGap(q, q', n); }
    if q' < q { MulGap(q', q, n); }
  }

  /** A number below `n * d` splits into a quotient below `n` and a remainder below `d`. */
  lemma Quotient(k: int, n: int, d: int)
    requires 0 <= k < n * d && d > 0
    ensures 0 <= k / d < n && 0 <= k % d < d && k == (k / d) * d + k % d
  {
    var q := k / d;
    MulDifference(q, n, d);
    if q > n { AtLeast(q - n, d); }
  }

  lemma Below(q: int, n: int, r: int, d: int)
    requires 0 <= q < n && 0 <= r < d
    ensures 0 <= q * d + r < n * d
  {
    assert (n - q) * d >= d by { AtLeast(n - q, d); }
    MulDifference(n, q, d);
    assert q * d >= 0;
  }
}
