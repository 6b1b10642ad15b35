/** Reading and writing a number at any bit offset of a packed state, by way of
    machine words. Memory is a row of bits, eight to a byte. */
module RawAccess {
  import opened BitNumbers

  const CHAR_BIT: nat := 8
  const WORD: nat := 8
  const DOUBLE: nat := 16

  /** `base` counts bytes from the start of the memory. */
  datatype Handle = Handle(base: nat, offset: nat, width: nat)

  function Position(h: Handle): nat
  {
    h.base * CHAR_BIT + h.offset
  }

  predicate Within(h: Handle, size: nat)
  {
    h.offset < CHAR_BIT && Position(h) + h.width <= size
  }

  function Align(h: Handle): (r: Handle)
    ensures r.base == h.base && r.offset == 0 && r.width % CHAR_BIT == 0
    ensures h.width + h.offset <= r.width < h.width + h.offset + CHAR_BIT
  {
    var width := h.width + h.offset;
    Handle(h.base, 0, if width % CHAR_BIT != 0 then width + CHAR_BIT - width % CHAR_BIT else width)
  }

  function LowSize(h: Handle, size: nat): nat
    requires h.offset < CHAR_BIT
  {
    if Align(h).width / CHAR_BIT > size then size else Align(h).width / CHAR_BIT
  }

  lemma Extents(h: Handle, size: nat)
    requires (size == WORD || size == DOUBLE) && h.offset < CHAR_BIT
    ensures var all, low := Align(h).width / CHAR_BIT, LowSize(h, size);
            && all * CHAR_BIT == Align(h).width && low <= all && low <= size
            && (low < all ==> low == size)
            && h.base * CHAR_BIT + Align(h).width < Position(h) + h.width + CHAR_BIT
            && Position(h) + h.width <= h.base * CHAR_BIT + Align(h).width
  {
  }

  // ----- words: shifting by the width of a word or more is undefined in C -----

  function ShiftLeft(x: Bits, k: nat): (r: Bits)
    requires k < |x|
    ensures |r| == |x|
  {
    seq(|x|, i requires 0 <= i < |x| => i >= k && x[i - k])
  }

  function ShiftRight(x: Bits, k: nat): (r: Bits)
    requires k < |x|
    ensures |r| == |x|
  {
    seq(|x|, i requires 0 <= i < |x| => i + k < |x| && x[i + k])
  }

  function And(x: Bits, y: Bits): (r: Bits)
    requires |x| == |y|
    ensures |r| == |x|
  {
    seq(|x|, i requires 0 <= i < |x| => x[i] && y[i])
  }

  function Or(x: Bits, y: Bits): (r: Bits)
    requires |x| == |y|
    ensures |r| == |x|
  {
    seq(|x|, i requires 0 <= i < |x| => x[i] || y[i])
  }

  function Not(x: Bits): (r: Bits)
    ensures |r| == |x|
  {
    seq(|x|, i requires 0 <= i < |x| => !x[i])
  }

  /** The word (1 << k) - 1. */
  function Ones(n: nat, k: nat): (r: Bits)
    requires k < n
    ensures |r| == n
  {
    seq(n, i => i < k)
  }

  lemma {:induction false} OnesIs(n: nat, k: nat)
    requires k < n
    ensures ToNat(Ones(n, k)) == Power(k) - 1
  {
    if k == 0 {
      Zero(Ones(n, 0));
    } else {
      assert Ones(n, k)[1..] == Ones(n - 1, k - 1);
      OnesIs(n - 1, k - 1);
    }
  }

  lemma {:induction false} Zero(b: Bits)
    requires forall i :: 0 <= i < |b| ==> !b[i]
    ensures ToNat(b) == 0
  {
    if b != [] { Zero(b[1..]); }
  }

  /** A wider word says the same number if the extra bits are clear. */
  lemma {:induction false} Extended(b: Bits, r: Bits)
    requires |b| <= |r| && r[..|b|] == b && forall i :: |b| <= i < |r| ==> !r[i]
    ensures ToNat(r) == ToNat(b)
  {
    if b == [] {
      Zero(r);
    } else {
      assert r[..|b|][0] == b[0];
      assert r[1..][..|b| - 1] == b[1..];
      Extended(b[1..], r[1..]);
    }
  }

  // ----- memory -----

  // A word of `size` bytes, the first `extent` of which are copied from byte p.
  method CopyOut(memory: array<bool>, p: nat, extent: nat, size: nat) returns (x: Bits)
    requires extent <= size && p * CHAR_BIT + extent * CHAR_BIT <= memory.Length
    ensures |x| == size * CHAR_BIT
    ensures forall i :: 0 <= i < |x| ==> x[i] == (i < extent * CHAR_BIT && memory[p * CHAR_BIT + i])
  {
    x := seq(size * CHAR_BIT, i requires 0 <= i < size * CHAR_BIT reads memory =>
               i < extent * CHAR_BIT && memory[p * CHAR_BIT + i]);
  }

  method CopyIn(memory: array<bool>, p: nat, x: Bits, extent: nat)
    requires extent * CHAR_BIT <= |x| && p * CHAR_BIT + extent * CHAR_BIT <= memory.Length
    modifies memory
    ensures forall i :: 0 <= i < memory.Length ==>
              memory[i] == if p * CHAR_BIT <= i < p * CHAR_BIT + extent * CHAR_BIT then x[i - p * CHAR_BIT] else old(memory[i])
  {
    forall i | p * CHAR_BIT <= i < p * CHAR_BIT + extent * CHAR_BIT {
      memory[i] := x[i - p * CHAR_BIT];
    }
  }

  // The read with words of `size` bytes: one word, or two when one is too short.
  method ReadWords(memory: array<bool>, h: Handle, size: nat) returns (low: Bits)
    requires size == WORD || size == DOUBLE
    requires memory.Length % CHAR_BIT == 0 && Within(h, memory.Length) && 0 < h.width <= 64
    ensures |low| == size * CHAR_BIT
    ensures forall i :: 0 <= i < |low| ==> low[i] == (i < h.width && memory[Position(h) + i])
  {
    hide Align, LowSize;
    Extents(h, size);
    var n, lowSize := size * CHAR_BIT, LowSize(h, size);
    low := CopyOut(memory, h.base, lowSize, size);
    low := ShiftRight(low, h.offset);
    var highSize := Align(h).width / CHAR_BIT - lowSize;
    if highSize != 0 {
      var high := CopyOut(memory, h.base + size, highSize, size);
      high := ShiftLeft(high, n - h.offset);
      low := Or(low, high);
    }
    assert forall i :: 0 <= i < h.width ==> low[i] == memory[Position(h) + i];
    if h.width < n {
      low := And(low, Ones(n, h.width));
    }
  }

  /** The number stored at h: the sum of its bits, whichever words are used. */
  method ReadRaw(memory: array<bool>, h: Handle, wide: bool) returns (v: nat)
    requires memory.Length % CHAR_BIT == 0 && Within(h, memory.Length) && h.width <= 64
    ensures v == ToNat(memory[Position(h)..Position(h) + h.width])
  {
    if h.width == 0 { return 0; }
    var low: Bits;
    if wide && Align(h).width > (WORD - 1) * CHAR_BIT {
      low := ReadWords(memory, h, DOUBLE);
    } else {
      low := ReadWords(memory, h, WORD);
    }
    Extended(memory[Position(h)..Position(h) + h.width], low);
    v := ToNat(low);
  }

  // What becomes of the low word: it keeps the bits on either side of the value.
  function LowWord(h: Handle, size: nat, low: Bits, v: Bits): (r: Bits)
    requires size == WORD || size == DOUBLE
    requires h.offset < CHAR_BIT && 0 < h.width <= 64 && |low| == |v| == size * CHAR_BIT
    requires forall i :: h.width <= i < |v| ==> !v[i]
    ensures |r| == |low|
    ensures forall i :: 0 <= i < LowSize(h, size) * CHAR_BIT ==>
              r[i] == if h.offset <= i < h.offset + h.width then v[i - h.offset] else low[i]
  {
    var n := size * CHAR_BIT;
    var lowSize := LowSize(h, size);
    var shifted := ShiftLeft(v, h.offset);
    var orMask := if lowSize < size then And(shifted, Ones(n, lowSize * CHAR_BIT)) else shifted;
    var below := Ones(n, h.offset);
    var andMask :=
      if h.width + h.offset < n then
        var highBits := Align(h).width - h.offset - h.width;
        Or(below, ShiftLeft(Ones(n, highBits), lowSize * CHAR_BIT - highBits))
      else below;
    Or(And(low, andMask), orMask)
  }

  // And of the high word: it keeps the bits above the value.
  function HighWord(h: Handle, size: nat, high: Bits, v: Bits): (r: Bits)
    requires size == WORD || size == DOUBLE
    requires h.offset < CHAR_BIT && 0 < h.width <= 64 && |high| == |v| == size * CHAR_BIT
    requires Align(h).width / CHAR_BIT > size
    requires forall i :: h.width <= i < |v| ==> !v[i]
    ensures |r| == |high|
    ensures forall i :: 0 <= i < |high| ==>
              r[i] == if i + size * CHAR_BIT < h.offset + h.width then v[i + size * CHAR_BIT - h.offset] else high[i]
  {
    var n := size * CHAR_BIT;
    var orMask := ShiftRight(v, n - h.offset);
    var andMask := Not(Ones(n, h.width + h.offset - n));
    Or(And(high, andMask), orMask)
  }

  method WriteLow(memory: array<bool>, h: Handle, v: Bits, size: nat)
    requires size == WORD || size == DOUBLE
    requires memory.Length % CHAR_BIT == 0 && Within(h, memory.Length) && 0 < h.width <= 64
    requires |v| == size * CHAR_BIT && forall i :: h.width <= i < |v| ==> !v[i]
    modifies memory
    ensures forall i :: 0 <= i < memory.Length ==>
              memory[i] == if Position(h) <= i < Position(h) + h.width && i < (h.base + LowSize(h, size)) * CHAR_BIT then v[i - Position(h)] else old(memory[i])
  {
    hide LowWord, Align, LowSize;
    Extents(h, size);
    var lowSize := LowSize(h, size);
    var low := CopyOut(memory, h.base, lowSize, size);
    low := LowWord(h, size, low, v);
    CopyIn(memory, h.base, low, lowSize);
  }

  method WriteHigh(memory: array<bool>, h: Handle, v: Bits, size: nat)
    requires size == WORD || size == DOUBLE
    requires memory.Length % CHAR_BIT == 0 && Within(h, memory.Length) && 0 < h.width <= 64
    requires |v| == size * CHAR_BIT && forall i :: h.width <= i < |v| ==> !v[i]
    requires Align(h).width / CHAR_BIT > size
    modifies memory
    ensures forall i :: 0 <= i < memory.Length ==>
              memory[i] == if (h.base + size) * CHAR_BIT <= i < Position(h) + h.width then v[i - Position(h)] else old(memory[i])
  {
    hide HighWord, Align, LowSize;
    Extents(h, size);
    var highSize := Align(h).width / CHAR_BIT - size;
    var high := CopyOut(memory, h.base + size, highSize, size);
    high := HighWord(h, size, high, v);
    CopyIn(memory, h.base + size, high, highSize);
  }

  // The write with words of `size` bytes.
  method WriteWords(memory: array<bool>, h: Handle, v: Bits, size: nat)
    requires size == WORD || size == DOUBLE
    requires memory.Length % CHAR_BIT == 0 && Within(h, memory.Length) && 0 < h.width <= 64
    requires |v| == size * CHAR_BIT && forall i :: h.width <= i < |v| ==> !v[i]
    modifies memory
    ensures forall i :: 0 <= i < memory.Length ==>
              memory[i] == if Position(h) <= i < Position(h) + h.width then v[i - Position(h)] else old(memory[i])
  {
    Extents(h, size);
    WriteLow(memory, h, v, size);
    var highSize := Align(h).width / CHAR_BIT - LowSize(h, size);
    if highSize != 0 {
      WriteHigh(memory, h, v, size);
    }
  }

  // The masked word holds the low bits of v and nothing beyond them.
  lemma MaskedWord(v: nat, w: nat, word: Bits, zeros: nat)
    requires 0 < w <= 64 && word == if w < 64 then And(FromNat(v, 64), Ones(64, w)) else FromNat(v, 64)
    ensures |word| == 64 && word[..w] == FromNat(v, w)
    ensures var x := word + seq(zeros, _ => false); x[..w] == FromNat(v, w) && forall i :: w <= i < |x| ==> !x[i]
  {
    LowBits(v, 64, w);
    assert word[..w] == FromNat(v, 64)[..w];
  }

  /** Sets the bits at h to those of v and changes no other, whichever words are used. */
  method WriteRaw(memory: array<bool>, h: Handle, v: nat, wide: bool)
    requires memory.Length % CHAR_BIT == 0 && Within(h, memory.Length) && h.width <= 64 && v < Power(64)
    modifies memory
    ensures memory[Position(h)..Position(h) + h.width] == FromNat(v, h.width)
    ensures forall i :: 0 <= i < memory.Length && !(Position(h) <= i < Position(h) + h.width) ==> memory[i] == old(memory[i])
  {
    hide Position, And, Ones, FromNat, Power;
    if h.width == 0 {
      NoBits(v);
      return;
    }
    var size := if wide && Align(h).width > (WORD - 1) * CHAR_BIT then DOUBLE else WORD;
    var word := FromNat(v, 64);
    if h.width < 64 { word := And(word, Ones(64, h.width)); }
    MaskedWord(v, h.width, word, size * CHAR_BIT - 64);
    word := word + seq(size * CHAR_BIT - 64, _ => false);
    WriteWords(memory, h, word, size);
    assert memory[Position(h)..Position(h) + h.width] == word[..h.width];
  }

  lemma NoBits(v: nat)
    ensures FromNat(v, 0) == []
  {
  }

  lemma {:induction false} LowBits(v: nat, n: nat, w: nat)
    requires w <= n
    ensures FromNat(v, n)[..w] == FromNat(v, w)
  {
    if w > 0 { LowBits(v / 2, n - 1, w - 1); }
  }

  // ----- whole components -----

  method MaskByte(memory: array<bool>, p: nat, mask: Bits)
    requires |mask| == CHAR_BIT && p * CHAR_BIT + CHAR_BIT <= memory.Length
    modifies memory
    ensures forall i :: 0 <= i < memory.Length ==>
              memory[i] == (old(memory[i]) && (p * CHAR_BIT <= i < p * CHAR_BIT + CHAR_BIT ==> mask[i - p * CHAR_BIT]))
  {
    forall i | p * CHAR_BIT <= i < p * CHAR_BIT + CHAR_BIT {
      memory[i] := memory[i] && mask[i - p * CHAR_BIT];
    }
  }

  /** Clears the bits of h and no other: a partial byte, whole bytes, a partial byte. */
  method HandleZero(memory: array<bool>, h: Handle)
    requires memory.Length % CHAR_BIT == 0 && Position(h) + h.width <= memory.Length
    modifies memory
    ensures forall i :: 0 <= i < memory.Length ==>
              memory[i] == (old(memory[i]) && !(Position(h) <= i < Position(h) + h.width))
  {
    hide Ones, Or, Not;
    var p := h.base + h.offset / CHAR_BIT;
    var first := h.offset % CHAR_BIT;
    var width := h.width;
    if first != 0 {
      var mask := Ones(CHAR_BIT, first);
      OnesBits(CHAR_BIT, first);
      if width < CHAR_BIT - first {
        OnesBits(CHAR_BIT, first + width);
        mask := Or(mask, Not(Ones(CHAR_BIT, first + width)));
        KeptBits(CHAR_BIT, first, first + width);
      }
      MaskByte(memory, p, mask);
      p := p + 1;
      if width < CHAR_BIT - first { return; }
      width := width - (CHAR_BIT - first);
    }
    label Middle:
    forall i | p * CHAR_BIT <= i < p * CHAR_BIT + width / CHAR_BIT * CHAR_BIT {
      memory[i] := false;
    }
    p := p + width / CHAR_BIT;
    width := width - width / CHAR_BIT * CHAR_BIT;
    if width > 0 {
      OnesBits(CHAR_BIT, width);
      NotBits(Ones(CHAR_BIT, width));
      MaskByte(memory, p, Not(Ones(CHAR_BIT, width)));
    }
  }

  lemma OnesBits(n: nat, k: nat)
    requires k < n
    ensures forall i :: 0 <= i < n ==> (Ones(n, k)[i] <==> i < k)
  {
  }

  lemma NotBits(x: Bits)
    ensures forall i :: 0 <= i < |x| ==> (Not(x)[i] <==> !x[i])
  {
  }

  lemma KeptBits(n: nat, k: nat, l: nat)
    requires k <= l < n
    ensures forall i :: 0 <= i < n ==> (Or(Ones(n, k), Not(Ones(n, l)))[i] <==> i < k || i >= l)
  {
  }

  /** Copies every bit of b to its place in a, unless b runs on into a. */
  method HandleCopy(to: array<bool>, a: Handle, from: array<bool>, b: Handle)
    requires a.width == b.width
    requires Position(a) + a.width <= to.Length && Position(b) + b.width <= from.Length
    requires to == from ==> !(Position(b) < Position(a) < Position(b) + b.width)
    modifies to
    ensures forall i :: 0 <= i < to.Length ==>
              to[i] == if Position(a) <= i < Position(a) + a.width then old(from[Position(b) + i - Position(a)]) else old(to[i])
  {
    var i := 0;
    while i < a.width
      invariant i <= a.width
      invariant forall j :: 0 <= j < to.Length ==>
                  to[j] == if Position(a) <= j < Position(a) + i then old(from[Position(b) + j - Position(a)]) else old(to[j])
    {
      var dst, dstOff := a.base + (a.offset + i) / CHAR_BIT, (a.offset + i) % CHAR_BIT;
      var src, srcOff := b.base + (b.offset + i) / CHAR_BIT, (b.offset + i) % CHAR_BIT;
      to[dst * CHAR_BIT + dstOff] := from[src * CHAR_BIT + srcOff];
      i := i + 1;
    }
  }

  /** True exactly when the bits are the same. */
  method HandleEq(x: array<bool>, a: Handle, y: array<bool>, b: Handle) returns (r: bool)
    requires a.width == b.width
    requires Position(a) + a.width <= x.Length && Position(b) + b.width <= y.Length
    ensures r <==> x[Position(a)..Position(a) + a.width] == y[Position(b)..Position(b) + b.width]
  {
    ghost var xs, ys := x[Position(a)..Position(a) + a.width], y[Position(b)..Position(b) + b.width];
    var i := 0;
    while i < a.width
      invariant i <= a.width
      invariant forall j :: 0 <= j < i ==> xs[j] == ys[j]
    {
      var xBit := x[(a.base + (a.offset + i) / CHAR_BIT) * CHAR_BIT + (a.offset + i) % CHAR_BIT];
      var yBit := y[(b.base + (b.offset + i) / CHAR_BIT) * CHAR_BIT + (b.offset + i) % CHAR_BIT];
      assert xs[i] == xBit && ys[i] == yBit;
      if xBit != yBit { return false; }
      i := i + 1;
    }
    return true;
  }
}
