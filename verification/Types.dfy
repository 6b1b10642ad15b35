/** The types of state components, their packed layout, and what a state means. */
module Types {
  import opened Options
  import opened Arithmetic
  import opened BitNumbers

  /** `Simple` is a component of one number, which is of the scalarset whose
      declaration its type names, if any; an array may be indexed by a scalarset;
      a record is its first field followed by the rest. */
  datatype Type =
    | Simple(width: nat, scalarset: Option<nat>)
    | Array(index: Option<nat>, count: nat, element: Type)
    | Field(first: Type, rest: Type)
    | Done

  function Width(t: Type): nat
  {
    match t
    case Simple(w, _) => w
    case Array(_, n, e) => n * Width(e)
    case Field(f, r) => Width(f) + Width(r)
    case Done => 0
  }

  /** What the bits of a component mean. */
  datatype Value = Number(n: nat) | Elements(es: seq<Value>) | Fields(first: Value, rest: Value) | Nothing

  predicate Has(t: Type, v: Value)
  {
    match t
    case Simple(w, _) => v.Number? && v.n < Power(w)
    case Array(_, n, e) => v.Elements? && |v.es| == n && forall i :: 0 <= i < n ==> Has(e, v.es[i])
    case Field(f, r) => v.Fields? && Has(f, v.first) && Has(r, v.rest)
    case Done => v.Nothing?
  }

  lemma BlockFits(i: nat, n: nat, w: nat)
    requires i < n
    ensures 0 <= i * w <= i * w + w <= n * w && (i + 1) * w == i * w + w
  {
    assert i * w + w == (i + 1) * w;
    MulMono(i + 1, n, w);
  }

  function Block(b: Bits, i: nat, n: nat, w: nat): (r: Bits)
    requires i < n && |b| == n * w
    ensures |r| == w
  {
    BlockFits(i, n, w);
    b[i * w..i * w + w]
  }

  function Decode(t: Type, b: Bits): (v: Value)
    requires |b| == Width(t)
    ensures Has(t, v)
  {
    match t
    case Simple(_, _) => Number(ToNat(b))
    case Array(_, n, e) => Elements(seq(n, i requires 0 <= i < n => Decode(e, Block(b, i, n, Width(e)))))
    case Field(f, r) => Fields(Decode(f, b[..Width(f)]), Decode(r, b[Width(f)..]))
    case Done => Nothing
  }

  lemma DecodeSays(t: Type, b: Bits)
    requires |b| == Width(t)
    ensures Has(t, Decode(t, b))
    ensures t.Simple? ==> Decode(t, b) == Number(ToNat(b))
    ensures t.Array? ==> Decode(t, b).Elements? && |Decode(t, b).es| == t.count
    ensures t.Array? ==> forall i :: 0 <= i < t.count ==> Decode(t, b).es[i] == Decode(t.element, Block(b, i, t.count, Width(t.element)))
    ensures t.Field? ==> Decode(t, b) == Fields(Decode(t.first, b[..Width(t.first)]), Decode(t.rest, b[Width(t.first)..]))
  {
    hide Block;
  }

  // Every bit of a row of blocks is in a block.
  lemma InBlock(j: nat, n: nat, w: nat) returns (i: nat)
    requires j < n * w
    ensures i < n && i * w <= j < i * w + w
  {
    i := j / w;
    assert j == i * w + j % w;
    if i >= n { MulMono(n, i, w); }
  }

  lemma BlockBit(b: Bits, i: nat, n: nat, w: nat, j: nat)
    requires i < n && |b| == n * w && i * w <= j < i * w + w
    ensures j < |b| && Block(b, i, n, w)[j - i * w] == b[j]
  {
    BlockFits(i, n, w);
  }

  lemma BlocksEqual(a: Bits, b: Bits, n: nat, w: nat)
    requires |a| == |b| == n * w && forall i :: 0 <= i < n ==> Block(a, i, n, w) == Block(b, i, n, w)
    ensures a == b
  {
    hide Block;
    forall j | 0 <= j < |a| ensures a[j] == b[j] {
      var i := InBlock(j, n, w);
      BlockBit(a, i, n, w, j);
      BlockBit(b, i, n, w, j);
    }
  }

  /** States that mean the same are the same, bit for bit. */
  lemma {:induction false} DecodeInjective(t: Type, a: Bits, b: Bits)
    requires |a| == |b| == Width(t) && Decode(t, a) == Decode(t, b)
    ensures a == b
  {
    match t {
      case Simple(_, _) => ToNatInjective(a, b);
      case Array(_, n, e) =>
        var w := Width(e);
        forall i | 0 <= i < n ensures Block(a, i, n, w) == Block(b, i, n, w) {
          assert Decode(t, a).es[i] == Decode(t, b).es[i];
          DecodeInjective(e, Block(a, i, n, w), Block(b, i, n, w));
        }
        BlocksEqual(a, b, n, w);
      case Field(f, r) =>
        DecodeInjective(f, a[..Width(f)], b[..Width(f)]);
        DecodeInjective(r, a[Width(f)..], b[Width(f)..]);
        assert a == a[..Width(f)] + a[Width(f)..] && b == b[..Width(f)] + b[Width(f)..];
      case Done =>
    }
  }

  // ----- packing a value -----

  /** How a value is packed. */
  function Encode(t: Type, v: Value): (b: Bits)
    requires Has(t, v)
    ensures |b| == Width(t)
    decreases t, 0
  {
    match t
    case Simple(w, _) => FromNat(v.n, w)
    case Array(_, _, e) => EncodeRow(e, v.es)
    case Field(f, r) => Encode(f, v.first) + Encode(r, v.rest)
    case Done => []
  }

  function EncodeRow(e: Type, es: seq<Value>): (b: Bits)
    requires forall i :: 0 <= i < |es| ==> Has(e, es[i])
    ensures |b| == |es| * Width(e)
    decreases e, |es|
  {
    var n := |es|;
    if n == 0 then []
    else
      BlockFits(n - 1, n, Width(e));
      EncodeRow(e, es[..n - 1]) + Encode(e, es[n - 1])
  }

  lemma {:induction false} RowBlock(e: Type, es: seq<Value>, i: nat)
    requires (forall j :: 0 <= j < |es| ==> Has(e, es[j])) && i < |es|
    ensures Block(EncodeRow(e, es), i, |es|, Width(e)) == Encode(e, es[i])
    decreases |es|
  {
    var n, w := |es|, Width(e);
    var front := EncodeRow(e, es[..n - 1]);
    hide Encode;
    BlockFits(i, n, w);
    BlockFits(n - 1, n, w);
    if i < n - 1 {
      RowBlock(e, es[..n - 1], i);
      BlockFits(i, n - 1, w);
      FrontSlice(front, Encode(e, es[n - 1]), i * w, i * w + w);
    } else {
      BackSlice(front, Encode(e, es[n - 1]));
    }
  }

  lemma FrontSlice(a: Bits, b: Bits, i: nat, j: nat)
    requires i <= j <= |a|
    ensures (a + b)[i..j] == a[i..j]
  {
  }

  lemma BackSlice(a: Bits, b: Bits)
    ensures (a + b)[|a|..|a| + |b|] == b
  {
  }

  /** Every value of a type has packed bits that mean it, so that, with `DecodeInjective`,
      the bits of a type are as many as it takes to tell its values apart. */
  lemma {:induction false} DecodeEncode(t: Type, v: Value)
    requires Has(t, v)
    ensures Decode(t, Encode(t, v)) == v
  {
    match t {
      case Simple(w, _) => ToFrom(v.n, w);
      case Array(_, n, e) =>
        hide Block;
        forall i | 0 <= i < n ensures Decode(t, Encode(t, v)).es[i] == v.es[i] {
          RowBlock(e, v.es, i);
          DecodeEncode(e, v.es[i]);
        }
        assert Decode(t, Encode(t, v)).es == v.es;
      case Field(f, r) =>
        var a, b := Encode(f, v.first), Encode(r, v.rest);
        assert (a + b)[..Width(f)] == a && (a + b)[Width(f)..] == b;
        DecodeEncode(f, v.first);
        DecodeEncode(r, v.rest);
      case Done =>
    }
  }
}
