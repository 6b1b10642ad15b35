/** Swapping two elements of a scalarset in a packed state, in place. */
module Swapping {
  import opened Options
  import opened Arithmetic
  import opened BitNumbers
  import opened Permutations
  import opened Types
  import opened Action
  import opened RawAccess

  predicate Narrow(t: Type)
  {
    match t
    case Simple(w, _) => w <= 64
    case Array(_, _, e) => Narrow(e)
    case Field(f, r) => Narrow(f) && Narrow(r)
    case Done => true
  }

  function HandleAt(offset: nat, width: nat): (h: Handle)
    ensures Position(h) == offset && h.width == width && h.offset < CHAR_BIT
  {
    Handle(offset / CHAR_BIT, offset % CHAR_BIT, width)
  }

  // Where bit i comes from when the len bits at a and at b change places.
  function Exchanged(i: nat, a: nat, b: nat, len: nat): nat
  {
    if a <= i < a + len then i - a + b else if b <= i < b + len then i - b + a else i
  }

  lemma ExchangeMore(i: nat, a: nat, b: nat, u: nat, v: nat)
    requires Apart(a, b, u + v)
    ensures Exchanged(Exchanged(i, a + u, b + u, v), a, b, u) == Exchanged(i, a, b, u + v)
  {
  }

  lemma ExchangeWithin(i: nat, a: nat, b: nat, len: nat, n: nat)
    requires i < n && a + len <= n && b + len <= n
    ensures Exchanged(i, a, b, len) < n
  {
  }

  /** Row e is row d with the len bits at a and at b in each other's place. */
  ghost predicate IsExchange(d: Bits, e: Bits, a: nat, b: nat, len: nat)
  {
    && |e| == |d| && a + len <= |d| && b + len <= |d|
    && forall i :: 0 <= i < |d| ==> e[i] == d[Exchanged(i, a, b, len)]
  }

  lemma ExchangeThen(d: Bits, e: Bits, f: Bits, a: nat, b: nat, u: nat, v: nat)
    requires Apart(a, b, u + v) && IsExchange(d, e, a, b, u) && IsExchange(e, f, a + u, b + u, v)
    ensures IsExchange(d, f, a, b, u + v)
  {
    hide Exchanged;
    forall i | 0 <= i < |d| ensures Exchanged(i, a, b, u + v) < |d| && f[i] == d[Exchanged(i, a, b, u + v)] {
      ExchangeWithin(i, a + u, b + u, v, |d|);
      ExchangeWithin(i, a, b, u + v, |d|);
      ExchangeMore(i, a, b, u, v);
    }
  }

  lemma ExchangeNone(d: Bits, a: nat, b: nat, len: nat)
    requires (a == b || len == 0) && a + len <= |d| && b + len <= |d|
    ensures IsExchange(d, d, a, b, len)
  {
  }

  lemma ExchangeSlices(d: Bits, e: Bits, a: nat, b: nat, w: nat)
    requires |e| == |d| && a + w <= |d| && b + w <= |d| && Apart(a, b, w)
    requires e[a..a + w] == d[b..b + w] && e[b..b + w] == d[a..a + w]
    requires forall i :: 0 <= i < |d| && !(a <= i < a + w) && !(b <= i < b + w) ==> e[i] == d[i]
    ensures IsExchange(d, e, a, b, w)
  {
    forall i | 0 <= i < |d| ensures e[i] == d[Exchanged(i, a, b, w)] {
      if a <= i < a + w { assert e[a..a + w][i - a] == d[b..b + w][i - a]; }
      else if b <= i < b + w { assert e[b..b + w][i - b] == d[a..a + w][i - b]; }
    }
  }

  predicate Apart(a: nat, b: nat, len: nat)
  {
    a == b || a + len <= b || b + len <= a
  }

  // What array d holds from bit a on.
  ghost function Slice(d: array<bool>, a: nat, len: nat): (r: Bits)
    requires a + len <= d.Length
    reads d
    ensures |r| == len
  {
    d[a..a + len]
  }

  method ReadNumber(d: array<bool>, offset: nat, w: nat) returns (v: nat)
    requires w <= 64 && d.Length % CHAR_BIT == 0 && offset + w <= d.Length
    ensures v == ToNat(Slice(d, offset, w))
  {
    v := ReadRaw(d, HandleAt(offset, w), true);
  }

  method WriteNumber(d: array<bool>, offset: nat, w: nat, v: nat)
    requires w <= 64 && d.Length % CHAR_BIT == 0 && offset + w <= d.Length && v < Power(w)
    modifies d
    ensures Slice(d, offset, w) == FromNat(v, w) && ToNat(Slice(d, offset, w)) == v
    ensures forall i :: 0 <= i < d.Length && !(offset <= i < offset + w) ==> d[i] == old(d[i])
  {
    PowerMono(w, 64);
    ToFrom(v, w);
    WriteRaw(d, HandleAt(offset, w), v, true);
  }

  // Both numbers are read before either is written.
  method ApplySwapNumber(d: array<bool>, a: nat, b: nat, w: nat)
    requires w <= 64 && d.Length % CHAR_BIT == 0
    requires a + w <= d.Length && b + w <= d.Length && Apart(a, b, w)
    modifies d
    ensures IsExchange(old(d[..]), d[..], a, b, w)
  {
    hide ToNat, FromNat, IsExchange;
    ghost var before := d[..];
    ExchangeNone(before, a, a, w);
    if a != b {
      ghost var xs, ys := Slice(d, a, w), Slice(d, b, w);
      FromTo(xs);
      FromTo(ys);
      var x := ReadNumber(d, a, w);
      var y := ReadNumber(d, b, w);
      WriteNumber(d, b, w, x);
      assert Slice(d, b, w) == xs;
      WriteNumber(d, a, w, y);
      assert Slice(d, b, w) == xs;
      ExchangeSlices(before, d[..], a, b, w);
    }
  }

  /** Exchanges two components of one type, number by number. */
  method ApplySwap(t: Type, d: array<bool>, a: nat, b: nat)
    requires Narrow(t) && d.Length % CHAR_BIT == 0
    requires a + Width(t) <= d.Length && b + Width(t) <= d.Length && Apart(a, b, Width(t))
    modifies d
    ensures IsExchange(old(d[..]), d[..], a, b, Width(t))
    decreases t, 1
  {
    hide IsExchange;
    match t {
      case Simple(w, _) => ApplySwapNumber(d, a, b, w);
      case Array(_, n, e) => ApplySwapElements(t, d, a, b);
      case Field(f, r) =>
        ghost var before := d[..];
        ApplySwap(f, d, a, b);
        ghost var between := d[..];
        ApplySwap(r, d, a + Width(f), b + Width(f));
        ExchangeThen(before, between, d[..], a, b, Width(f), Width(r));
      case Done => ExchangeNone(d[..], a, b, 0);
    }
  }

  method ApplySwapElements(t: Type, d: array<bool>, a: nat, b: nat)
    requires t.Array? && Narrow(t) && d.Length % CHAR_BIT == 0
    requires a + Width(t) <= d.Length && b + Width(t) <= d.Length && Apart(a, b, Width(t))
    modifies d
    ensures IsExchange(old(d[..]), d[..], a, b, Width(t))
    decreases t, 0
  {
    hide IsExchange, Apart;
    var e, w, u := t.element, Width(t.element), 0;
    ghost var before := d[..];
    ExchangeNone(before, a, b, 0);
    for i := 0 to t.count
      invariant u == i * w && IsExchange(before, d[..], a, b, u)
    {
      ghost var between := d[..];
      ElementFits(i, t.count, w, a, b, d.Length);
      ApplySwap(e, d, a + u, b + u);
      ExchangeThen(before, between, d[..], a, b, u, w);
      u := u + w;
    }
  }

  lemma ElementFits(i: nat, n: nat, w: nat, a: nat, b: nat, len: nat)
    requires i < n && Apart(a, b, n * w) && a + n * w <= len && b + n * w <= len
    ensures (i + 1) * w == i * w + w && Apart(a + i * w, b + i * w, w) && Apart(a, b, i * w + w)
    ensures a + i * w + w <= len && b + i * w + w <= len
  {
    BlockFits(i, n, w);
  }

  /** The permutation that swaps x and y. */
  function Transposition(n: nat, x: nat, y: nat): (p: seq<nat>)
    requires x < n && y < n
    ensures |p| == n && IsPerm(p)
  {
    Swap(Identity(n), x, y)
  }

  lemma TranspositionAt(n: nat, x: nat, y: nat, j: nat)
    requires x < n && y < n && j < n
    ensures Transposition(n, x, y)[j] == if j == x then y else if j == y then x else j
  {
  }

  lemma ActNumberSwap(n: nat, x: nat, y: nat, v: nat)
    requires x < n && y < n
    ensures ActNumber(Transposition(n, x, y), v)
            == if v == 0 then 0 else if v - 1 == x then y + 1 else if v - 1 == y then x + 1 else v
  {
    var p := Transposition(n, x, y);
    if 1 <= v <= n {
      WhereAt(p, if v - 1 == x then y else if v - 1 == y then x else v - 1);
    }
  }

  /** In a component at `offset`, swaps elements x and y of scalarset k: what they
      are in the component's new meaning, they were the other way round before. */
  method SwapChunk(t: Type, d: array<bool>, offset: nat, k: nat, n: nat, x: nat, y: nat)
    requires Narrow(t) && d.Length % CHAR_BIT == 0 && offset + Width(t) <= d.Length
    requires Sound(t, k, n) && x < n && y < n
    modifies d
    ensures Decode(t, Slice(d, offset, Width(t))) == Act(t, k, Transposition(n, x, y), Decode(t, old(Slice(d, offset, Width(t)))))
    ensures forall i :: 0 <= i < d.Length && !(offset <= i < offset + Width(t)) ==> d[i] == old(d[i])
    decreases t, 1
  {
    match t {
      case Simple(_, _) => SwapNumber(t, d, offset, k, n, x, y);
      case Array(_, _, _) => SwapArray(t, d, offset, k, n, x, y);
      case Field(f, r) => SwapRecord(t, d, offset, k, n, x, y);
      case Done =>
    }
  }

  method SwapRecord(t: Type, d: array<bool>, offset: nat, k: nat, n: nat, x: nat, y: nat)
    requires t.Field? && Narrow(t) && d.Length % CHAR_BIT == 0 && offset + Width(t) <= d.Length
    requires Sound(t, k, n) && x < n && y < n
    modifies d
    ensures Decode(t, Slice(d, offset, Width(t))) == Act(t, k, Transposition(n, x, y), Decode(t, old(Slice(d, offset, Width(t)))))
    ensures forall i :: 0 <= i < d.Length && !(offset <= i < offset + Width(t)) ==> d[i] == old(d[i])
    decreases t, 0
  {
    hide Transposition, IsPerm, Decode, Act;
    var f, r, u, v := t.first, t.rest, Width(t.first), Width(t.rest);
    ghost var before := Slice(d, offset, u + v);
    SlicePair(d, offset, u, v);
    ghost var rest := Slice(d, offset + u, v);
    SwapChunk(f, d, offset, k, n, x, y);
    assert Slice(d, offset + u, v) == rest;
    ghost var first := Slice(d, offset, u);
    SwapChunk(r, d, offset + u, k, n, x, y);
    assert Slice(d, offset, u) == first;
    SlicePair(d, offset, u, v);
    SwappedParts(t, k, Transposition(n, x, y), before, Slice(d, offset, u + v));
  }

  lemma SwappedParts(t: Type, k: nat, p: seq<nat>, before: Bits, after: Bits)
    requires t.Field? && IsPerm(p) && Sound(t, k, |p|) && |before| == |after| == Width(t)
    requires var u := Width(t.first); Decode(t.first, after[..u]) == Act(t.first, k, p, Decode(t.first, before[..u]))
    requires var u := Width(t.first); Decode(t.rest, after[u..]) == Act(t.rest, k, p, Decode(t.rest, before[u..]))
    ensures Decode(t, after) == Act(t, k, p, Decode(t, before))
  {
    hide IsPerm;
  }

  // The blocks of d from `offset` on that are still to be done, and those that are.
  ghost predicate SwappedTo(e: Type, k: nat, p: seq<nat>, moved: Bits, b: Bits, m: nat, i: nat)
    requires |b| == |moved| == m * Width(e) && IsPerm(p) && Sound(e, k, |p|)
  {
    forall j :: 0 <= j < m ==>
      if j < i then Decode(e, Block(b, j, m, Width(e))) == Act(e, k, p, Decode(e, Block(moved, j, m, Width(e))))
      else Block(b, j, m, Width(e)) == Block(moved, j, m, Width(e))
  }

  lemma SwapOneBlock(e: Type, k: nat, p: seq<nat>, moved: Bits, b: Bits, b': Bits, m: nat, i: nat)
    requires |b| == |b'| == |moved| == m * Width(e) && IsPerm(p) && Sound(e, k, |p|) && i < m
    requires SwappedTo(e, k, p, moved, b, m, i)
    requires Decode(e, Block(b', i, m, Width(e))) == Act(e, k, p, Decode(e, Block(b, i, m, Width(e))))
    requires forall j :: 0 <= j < |b| && !(i * Width(e) <= j < i * Width(e) + Width(e)) ==> b'[j] == b[j]
    ensures SwappedTo(e, k, p, moved, b', m, i + 1)
  {
    hide Block, Act, Decode, IsPerm;
    OtherBlocks(b, b', i, m, Width(e));
  }

  lemma SwappedAll(t: Type, k: nat, n: nat, x: nat, y: nat, before: Bits, moved: Bits, b: Bits)
    requires t.Array? && Sound(t, k, n) && x < n && y < n && |before| == |moved| == |b| == Width(t)
    requires SwappedTo(t.element, k, Transposition(n, x, y), moved, b, t.count, t.count)
    requires forall j :: 0 <= j < t.count ==>
               && From(t.index, k, Transposition(n, x, y), j) < t.count
               && Block(moved, j, t.count, Width(t.element)) == Block(before, From(t.index, k, Transposition(n, x, y), j), t.count, Width(t.element))
    ensures Decode(t, b) == Act(t, k, Transposition(n, x, y), Decode(t, before))
  {
    hide Block, Transposition;
    assert Decode(t, b).es == Act(t, k, Transposition(n, x, y), Decode(t, before)).es;
  }

  method SwapArray(t: Type, d: array<bool>, offset: nat, k: nat, n: nat, x: nat, y: nat)
    requires t.Array? && Narrow(t) && d.Length % CHAR_BIT == 0 && offset + Width(t) <= d.Length
    requires Sound(t, k, n) && x < n && y < n
    modifies d
    ensures Decode(t, Slice(d, offset, Width(t))) == Act(t, k, Transposition(n, x, y), Decode(t, old(Slice(d, offset, Width(t)))))
    ensures forall i :: 0 <= i < d.Length && !(offset <= i < offset + Width(t)) ==> d[i] == old(d[i])
    decreases t, 0
  {
    hide Decode, Act, Transposition, IsPerm, SwappedTo;
    var m, e, w := t.count, t.element, Width(t.element);
    ghost var p := Transposition(n, x, y);
    ghost var before := Slice(d, offset, m * w);
    SwapElements(t, d, offset, k, n, x, y);
    ghost var moved := Slice(d, offset, m * w);
    SwappedNone(e, k, p, moved, m);
    for i := 0 to m
      invariant forall j :: 0 <= j < d.Length && !(offset <= j < offset + m * w) ==> d[j] == old(d[j])
      invariant SwappedTo(e, k, p, moved, Slice(d, offset, m * w), m, i)
    {
      ghost var b := Slice(d, offset, m * w);
      BlockFits(i, m, w);
      SliceBlock(d, offset, i, m, w);
      SwapChunk(e, d, offset + i * w, k, n, x, y);
      SliceBlock(d, offset, i, m, w);
      SwapOneBlock(e, k, p, moved, b, Slice(d, offset, m * w), m, i);
    }
    SwappedAll(t, k, n, x, y, before, moved, Slice(d, offset, m * w));
  }

  lemma ExchangedElsewhere(swapped: bool, d: Bits, e: Bits, offset: nat, m: nat, w: nat, x: nat, y: nat)
    requires offset + m * w <= |d| && (if swapped then x < m && y < m && IsExchange(d, e, offset + x * w, offset + y * w, w) else e == d)
    ensures |e| == |d| && forall i :: 0 <= i < |d| && !(offset <= i < offset + m * w) ==> e[i] == d[i]
  {
    if swapped {
      BlockFits(x, m, w);
      BlockFits(y, m, w);
    }
  }

  // The elements change places if the scalarset indexes the array.
  method SwapElements(t: Type, d: array<bool>, offset: nat, k: nat, n: nat, x: nat, y: nat)
    requires t.Array? && Narrow(t) && d.Length % CHAR_BIT == 0 && offset + Width(t) <= d.Length
    requires Sound(t, k, n) && x < n && y < n
    modifies d
    ensures forall j :: 0 <= j < t.count ==>
              && From(t.index, k, Transposition(n, x, y), j) < t.count
              && Block(Slice(d, offset, Width(t)), j, t.count, Width(t.element))
                 == Block(old(Slice(d, offset, Width(t))), From(t.index, k, Transposition(n, x, y), j), t.count, Width(t.element))
    ensures forall i :: 0 <= i < d.Length && !(offset <= i < offset + Width(t)) ==> d[i] == old(d[i])
  {
    hide Transposition, Block, IsPerm, Decode, Act, IsExchange;
    var m, e, w := t.count, t.element, Width(t.element);
    ghost var all := d[..];
    if t.index == Some(k) {
      BlockFits(x, m, w);
      BlockFits(y, m, w);
      BlocksApart(x, y, w);
      ApplySwap(e, d, offset + x * w, offset + y * w);
    }
    ExchangedElsewhere(t.index == Some(k), all, d[..], offset, m, w, x, y);
    MovedBlocks(t.index, k, n, x, y, m, w, all, d[..], offset);
  }

  lemma SwappedNone(e: Type, k: nat, p: seq<nat>, moved: Bits, m: nat)
    requires |moved| == m * Width(e) && IsPerm(p) && Sound(e, k, |p|)
    ensures SwappedTo(e, k, p, moved, moved, m, 0)
  {
  }

  method SwapNumber(t: Type, d: array<bool>, offset: nat, k: nat, n: nat, x: nat, y: nat)
    requires t.Simple? && Narrow(t) && d.Length % CHAR_BIT == 0 && offset + Width(t) <= d.Length
    requires Sound(t, k, n) && x < n && y < n
    modifies d
    ensures Decode(t, Slice(d, offset, Width(t))) == Act(t, k, Transposition(n, x, y), Decode(t, old(Slice(d, offset, Width(t)))))
    ensures forall i :: 0 <= i < d.Length && !(offset <= i < offset + Width(t)) ==> d[i] == old(d[i])
  {
    hide ActNumber, Transposition, ToNat, FromNat, IsPerm;
    var w := t.width;
    ActNumberSwap(n, x, y, ToNat(Slice(d, offset, w)));
    if t.scalarset == Some(k) && x != y {
      var v := ReadNumber(d, offset, w);
      if v != 0 {
        if v - 1 == x {
          WriteNumber(d, offset, w, y + 1);
        } else if v - 1 == y {
          WriteNumber(d, offset, w, x + 1);
        }
      }
    }
  }

  lemma SlicePair(d: array<bool>, a: nat, u: nat, v: nat)
    requires a + u + v <= d.Length
    ensures Slice(d, a, u + v)[..u] == Slice(d, a, u) && Slice(d, a, u + v)[u..] == Slice(d, a + u, v)
  {
  }

  lemma SliceBlock(d: array<bool>, a: nat, i: nat, m: nat, w: nat)
    requires a + m * w <= d.Length && i < m
    ensures a + i * w + w <= d.Length && Slice(d, a + i * w, w) == Block(Slice(d, a, m * w), i, m, w)
  {
    BlockFits(i, m, w);
    SliceOfSlice(d, a, m * w, i * w, w);
  }

  lemma SliceOfSlice(d: array<bool>, a: nat, len: nat, b: nat, u: nat)
    requires a + len <= d.Length && b + u <= len
    ensures Slice(d, a, len)[b..b + u] == Slice(d, a + b, u)
  {
    var s, r := Slice(d, a, len)[b..b + u], Slice(d, a + b, u);
    forall i | 0 <= i < u ensures s[i] == r[i] {
      assert s[i] == d[a + b + i] && r[i] == d[a + b + i];
    }
  }

  lemma BlocksApart(x: nat, y: nat, w: nat)
    ensures x < y ==> x * w + w <= y * w
    ensures y < x ==> y * w + w <= x * w
  {
    if x < y { MulMono(x + 1, y, w); }
    if y < x { MulMono(y + 1, x, w); }
  }

  // Exchanging two blocks leaves every other block alone.
  lemma MovedBlocks(index: Option<nat>, k: nat, n: nat, x: nat, y: nat, m: nat, w: nat, d: Bits, d': Bits, offset: nat)
    requires x < n && y < n && (index == Some(k) ==> m == n) && |d| == |d'| && offset + m * w <= |d|
    requires index != Some(k) ==> d' == d
    requires index == Some(k) ==> IsExchange(d, d', offset + x * w, offset + y * w, w)
    ensures forall j :: 0 <= j < m ==>
              && From(index, k, Transposition(n, x, y), j) < m
              && Block(d'[offset..offset + m * w], j, m, w) == Block(d[offset..offset + m * w], From(index, k, Transposition(n, x, y), j), m, w)
  {
    hide Transposition, Block, IsExchange, IsPerm, Identity;
    forall j | 0 <= j < m
      ensures From(index, k, Transposition(n, x, y), j) < m
      ensures Block(d'[offset..offset + m * w], j, m, w) == Block(d[offset..offset + m * w], From(index, k, Transposition(n, x, y), j), m, w)
    {
      if index == Some(k) {
        TranspositionAt(n, x, y, j);
        MovedBlock(x, y, j, m, w, d, d', offset);
      }
    }
  }

  lemma MovedBlock(x: nat, y: nat, j: nat, m: nat, w: nat, d: Bits, d': Bits, offset: nat)
    requires x < m && y < m && j < m && |d| == |d'| && offset + m * w <= |d|
    requires IsExchange(d, d', offset + x * w, offset + y * w, w)
    ensures Block(d'[offset..offset + m * w], j, m, w) == Block(d[offset..offset + m * w], if j == x then y else if j == y then x else j, m, w)
  {
    hide Block, Exchanged;
    var f := if j == x then y else if j == y then x else j;
    var new_, old_ := Block(d'[offset..offset + m * w], j, m, w), Block(d[offset..offset + m * w], f, m, w);
    forall b | 0 <= b < w ensures new_[b] == old_[b] {
      BlockAt(d', offset, j, m, w, b);
      BlockAt(d, offset, f, m, w, b);
      ExchangedBlock(offset, x, y, j, w, b);
    }
  }

  lemma BlockAt(d: Bits, offset: nat, j: nat, m: nat, w: nat, b: nat)
    requires offset + m * w <= |d| && j < m && b < w
    ensures offset + j * w + b < |d| && Block(d[offset..offset + m * w], j, m, w)[b] == d[offset + j * w + b]
  {
    BlockFits(j, m, w);
  }

  lemma ExchangedBlock(offset: nat, x: nat, y: nat, j: nat, w: nat, b: nat)
    requires b < w
    ensures Exchanged(offset + j * w + b, offset + x * w, offset + y * w, w)
            == offset + (if j == x then y else if j == y then x else j) * w + b
  {
    BlocksApart(j, x, w);
    BlocksApart(j, y, w);
  }

  lemma OtherBlocks(b: Bits, b': Bits, i: nat, m: nat, w: nat)
    requires |b| == |b'| == m * w && i < m
    requires forall j :: 0 <= j < |b| && !(i * w <= j < i * w + w) ==> b'[j] == b[j]
    ensures forall j :: 0 <= j < m && j != i ==> Block(b', j, m, w) == Block(b, j, m, w)
  {
    forall j | 0 <= j < m && j != i ensures Block(b', j, m, w) == Block(b, j, m, w) {
      BlockFits(j, m, w);
      BlocksApart(i, j, w);
    }
  }
}
