/** Numbers as rows of bits, the least significant first. */
module BitNumbers {
  import opened Arithmetic

  type Bits = seq<bool>

  function Power(n: nat): (p: nat)
    ensures p >= 1
  {
    if n == 0 then 1 else 2 * Power(n - 1)
  }

  function Bit(b: bool): nat
  {
    if b then 1 else 0
  }

  function ToNat(b: Bits): (v: nat)
    ensures v < Power(|b|)
  {
    if b == [] then 0 else Bit(b[0]) + 2 * ToNat(b[1..])
  }

  function FromNat(v: nat, w: nat): (b: Bits)
    ensures |b| == w
  {
    if w == 0 then [] else [v % 2 == 1] + FromNat(v / 2, w - 1)
  }

  lemma {:induction false} FromTo(b: Bits)
    ensures FromNat(ToNat(b), |b|) == b
  {
    if b != [] { FromTo(b[1..]); }
  }

  lemma {:induction false} ToFrom(v: nat, w: nat)
    ensures ToNat(FromNat(v, w)) == v % Power(w)
    ensures v < Power(w) ==> ToNat(FromNat(v, w)) == v
  {
    if w > 0 {
      ToFrom(v / 2, w - 1);
      HalfMod(v, Power(w - 1));
    }
  }

  lemma HalfMod(v: nat, p: nat)
    requires p > 0
    ensures v % (2 * p) == v % 2 + 2 * ((v / 2) % p)
  {
    var h := v / 2;
    var q, r := h / p, h % p;
    assert h == q * p + r;
    assert v == q * (2 * p) + (v % 2 + 2 * r);
    DivModIs(v, 2 * p, q, v % 2 + 2 * r);
  }

  lemma ToNatInjective(a: Bits, b: Bits)
    requires |a| == |b| && ToNat(a) == ToNat(b)
    ensures a == b
  {
    FromTo(a);
    FromTo(b);
  }

  lemma {:induction false} PowerMono(a: nat, b: nat)
    requires a <= b
    ensures Power(a) <= Power(b)
  {
    if a < b { PowerMono(a, b - 1); }
  }
}
