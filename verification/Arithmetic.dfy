/** Facts about products and quotients that the solver is not left to find. */
module Arithmetic {
  lemma MulMono(a: int, b: int, n: nat)
    requires a <= b
    ensures a * n <= b * n
  {
  }

  /** A number is divided in one way only. */
  lemma DivModIs(v: nat, n: nat, q: nat, r: nat)
    requires n > 0 && v == q * n + r && r < n
    ensures v / n == q && v % n == r
  {
    var q', r' := v / n, v % n;
    assert v == q' * n + r';
    assert (q - q') * n == r' - r;
    if q > q' { MulMono(1, q - q', n); }
    if q < q' { MulMono(q - q', -1, n); }
  }

  lemma DivModSplit(a: nat, n: nat)
    requires n > 0
    ensures a == (a / n) * n + a % n && 0 <= a % n < n
  {
  }

  lemma MulMod(k: nat, n: nat)
    requires n > 0
    ensures (k * n) % n == 0 && (k * n) / n == k
  {
    DivModIs(k * n, n, k, 0);
  }
}
