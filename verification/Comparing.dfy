/** The comparison of two elements of a scalarset that the heuristic
    canonicalisation sorts by, which reads the very state being sorted. */
module Comparing {
  import opened Options
  import opened Arithmetic
  import opened BitNumbers
  import opened Permutations
  import opened Types
  import opened Action
  import opened RawAccess
  import opened Swapping

  function Sign(a: nat, b: nat): int
  {
    if a < b then -1 else if a > b then 1 else 0
  }

  // The first of two comparisons that tells a difference decides.
  function Then(c: int, d: int): int
  {
    if c != 0 then c else d
  }

  /** Compares two elements of an array indexed by the scalarset, number by number,
      leaving out what the scalarset's own order affects. */
  function CompareElements(t: Type, k: nat, a: Value, b: Value): int
    requires Has(t, a) && Has(t, b)
    decreases t, 1, 0
  {
    match t
    case Simple(_, id) => if id == Some(k) then 0 else Sign(a.n, b.n)
    case Array(index, m, e) => if index == Some(k) then 0 else CompareRows(t, k, a, b, 0)
    case Field(f, r) => Then(CompareElements(f, k, a.first, b.first), CompareElements(r, k, a.rest, b.rest))
    case Done => 0
  }

  function CompareRows(t: Type, k: nat, a: Value, b: Value, i: nat): int
    requires t.Array? && Has(t, a) && Has(t, b) && i <= t.count
    decreases t, 0, t.count - i
  {
    if i == t.count then 0 else Then(CompareElements(t.element, k, a.es[i], b.es[i]), CompareRows(t, k, a, b, i + 1))
  }

  /** Compares elements x and y: by which is named first, and by their components
      in arrays the scalarset indexes. */
  function Compare(t: Type, k: nat, n: nat, v: Value, x: nat, y: nat): int
    requires Has(t, v) && Sound(t, k, n) && x < n && y < n
    decreases t, 1, 0
  {
    match t
    case Simple(_, id) => if id == Some(k) && v.n != 0 then if v.n - 1 == x then -1 else if v.n - 1 == y then 1 else 0 else 0
    case Array(index, m, e) => if index == Some(k) then CompareElements(e, k, v.es[x], v.es[y]) else CompareFrom(t, k, n, v, x, y, 0)
    case Field(f, r) => Then(Compare(f, k, n, v.first, x, y), Compare(r, k, n, v.rest, x, y))
    case Done => 0
  }

  function CompareFrom(t: Type, k: nat, n: nat, v: Value, x: nat, y: nat, i: nat): int
    requires t.Array? && Has(t, v) && Sound(t, k, n) && x < n && y < n && i <= t.count
    decreases t, 0, t.count - i
  {
    if i == t.count then 0 else Then(Compare(t.element, k, n, v.es[i], x, y), CompareFrom(t, k, n, v, x, y, i + 1))
  }

  // ----- keys: what an element is sorted by -----

  type Key = seq<nat>

  function Lex(a: Key, b: Key): int
    requires |a| == |b|
  {
    if a == [] then 0 else Then(Sign(a[0], b[0]), Lex(a[1..], b[1..]))
  }

  lemma {:induction false} LexAppend(a: Key, b: Key, c: Key, d: Key)
    requires |a| == |b| && |c| == |d|
    ensures Lex(a + c, b + d) == Then(Lex(a, b), Lex(c, d))
  {
    if a == [] {
      assert a + c == c && b + d == d;
    } else {
      assert (a + c)[1..] == a[1..] + c && (b + d)[1..] == b[1..] + d;
      LexAppend(a[1..], b[1..], c, d);
    }
  }

  lemma {:induction false} LexOrder(a: Key, b: Key, c: Key)
    requires |a| == |b| == |c|
    ensures Lex(a, a) == 0 && Lex(a, b) == -Lex(b, a) && -1 <= Lex(a, b) <= 1
    ensures Lex(a, b) <= 0 && Lex(b, c) <= 0 ==> Lex(a, c) <= 0
    ensures Lex(a, b) == 0 ==> a == b
  {
    if a != [] { LexOrder(a[1..], b[1..], c[1..]); }
  }

  function Contents(t: Type, k: nat, a: Value): Key
    requires Has(t, a)
    decreases t, 1, 0
  {
    match t
    case Simple(_, id) => if id == Some(k) then [] else [a.n]
    case Array(index, m, e) => if index == Some(k) then [] else ContentsFrom(t, k, a, 0)
    case Field(f, r) => Contents(f, k, a.first) + Contents(r, k, a.rest)
    case Done => []
  }

  function ContentsFrom(t: Type, k: nat, a: Value, i: nat): Key
    requires t.Array? && Has(t, a) && i <= t.count
    decreases t, 0, t.count - i
  {
    if i == t.count then [] else Contents(t.element, k, a.es[i]) + ContentsFrom(t, k, a, i + 1)
  }

  function KeyOf(t: Type, k: nat, n: nat, v: Value, x: nat): Key
    requires Has(t, v) && Sound(t, k, n) && x < n
    decreases t, 1, 0
  {
    match t
    case Simple(_, id) => if id == Some(k) then [if v.n != 0 && v.n - 1 == x then 0 else 1] else []
    case Array(index, m, e) => if index == Some(k) then Contents(e, k, v.es[x]) else KeyFrom(t, k, n, v, x, 0)
    case Field(f, r) => KeyOf(f, k, n, v.first, x) + KeyOf(r, k, n, v.rest, x)
    case Done => []
  }

  function KeyFrom(t: Type, k: nat, n: nat, v: Value, x: nat, i: nat): Key
    requires t.Array? && Has(t, v) && Sound(t, k, n) && x < n && i <= t.count
    decreases t, 0, t.count - i
  {
    if i == t.count then [] else KeyOf(t.element, k, n, v.es[i], x) + KeyFrom(t, k, n, v, x, i + 1)
  }

  lemma {:induction false} CompareElementsIsLex(t: Type, k: nat, a: Value, b: Value)
    requires Has(t, a) && Has(t, b)
    ensures |Contents(t, k, a)| == |Contents(t, k, b)|
    ensures CompareElements(t, k, a, b) == Lex(Contents(t, k, a), Contents(t, k, b))
    decreases t, 1, 0
  {
    match t {
      case Simple(_, _) =>
      case Array(index, m, e) => if index != Some(k) { CompareRowsIsLex(t, k, a, b, 0); }
      case Field(f, r) =>
        CompareElementsIsLex(f, k, a.first, b.first);
        CompareElementsIsLex(r, k, a.rest, b.rest);
        LexAppend(Contents(f, k, a.first), Contents(f, k, b.first), Contents(r, k, a.rest), Contents(r, k, b.rest));
      case Done =>
    }
  }

  lemma {:induction false} CompareRowsIsLex(t: Type, k: nat, a: Value, b: Value, i: nat)
    requires t.Array? && Has(t, a) && Has(t, b) && i <= t.count
    ensures |ContentsFrom(t, k, a, i)| == |ContentsFrom(t, k, b, i)|
    ensures CompareRows(t, k, a, b, i) == Lex(ContentsFrom(t, k, a, i), ContentsFrom(t, k, b, i))
    decreases t, 0, t.count - i
  {
    if i < t.count {
      var e := t.element;
      CompareElementsIsLex(e, k, a.es[i], b.es[i]);
      CompareRowsIsLex(t, k, a, b, i + 1);
      LexAppend(Contents(e, k, a.es[i]), Contents(e, k, b.es[i]), ContentsFrom(t, k, a, i + 1), ContentsFrom(t, k, b, i + 1));
    }
  }

  /** The comparison of two elements is that of their keys, so that for any one
      state it is a total preorder. */
  lemma {:induction false} CompareIsLex(t: Type, k: nat, n: nat, v: Value, x: nat, y: nat)
    requires Has(t, v) && Sound(t, k, n) && x < n && y < n && x != y
    ensures |KeyOf(t, k, n, v, x)| == |KeyOf(t, k, n, v, y)|
    ensures Compare(t, k, n, v, x, y) == Lex(KeyOf(t, k, n, v, x), KeyOf(t, k, n, v, y))
    decreases t, 1, 0
  {
    match t {
      case Simple(_, _) =>
      case Array(index, m, e) =>
        if index == Some(k) { CompareElementsIsLex(e, k, v.es[x], v.es[y]); } else { CompareFromIsLex(t, k, n, v, x, y, 0); }
      case Field(f, r) =>
        CompareIsLex(f, k, n, v.first, x, y);
        CompareIsLex(r, k, n, v.rest, x, y);
        LexAppend(KeyOf(f, k, n, v.first, x), KeyOf(f, k, n, v.first, y), KeyOf(r, k, n, v.rest, x), KeyOf(r, k, n, v.rest, y));
      case Done =>
    }
  }

  lemma {:induction false} CompareFromIsLex(t: Type, k: nat, n: nat, v: Value, x: nat, y: nat, i: nat)
    requires t.Array? && Has(t, v) && Sound(t, k, n) && x < n && y < n && x != y && i <= t.count
    ensures |KeyFrom(t, k, n, v, x, i)| == |KeyFrom(t, k, n, v, y, i)|
    ensures CompareFrom(t, k, n, v, x, y, i) == Lex(KeyFrom(t, k, n, v, x, i), KeyFrom(t, k, n, v, y, i))
    decreases t, 0, t.count - i
  {
    if i < t.count {
      var e := t.element;
      CompareIsLex(e, k, n, v.es[i], x, y);
      CompareFromIsLex(t, k, n, v, x, y, i + 1);
      LexAppend(KeyOf(e, k, n, v.es[i], x), KeyOf(e, k, n, v.es[i], y), KeyFrom(t, k, n, v, x, i + 1), KeyFrom(t, k, n, v, y, i + 1));
    }
  }

  // ----- rearranging the scalarset rearranges the keys -----

  lemma {:induction false} ContentsAct(t: Type, k: nat, p: seq<nat>, a: Value)
    requires Has(t, a) && IsPerm(p) && Sound(t, k, |p|)
    ensures Contents(t, k, Act(t, k, p, a)) == Contents(t, k, a)
    decreases t, 1, 0
  {
    hide IsPerm, ActNumber;
    match t {
      case Simple(_, _) =>
      case Array(index, m, e) => if index != Some(k) { ContentsFromAct(t, k, p, a, 0); }
      case Field(f, r) =>
        ContentsAct(f, k, p, a.first);
        ContentsAct(r, k, p, a.rest);
      case Done =>
    }
  }

  lemma {:induction false} ContentsFromAct(t: Type, k: nat, p: seq<nat>, a: Value, i: nat)
    requires t.Array? && t.index != Some(k) && Has(t, a) && IsPerm(p) && Sound(t, k, |p|) && i <= t.count
    ensures ContentsFrom(t, k, Act(t, k, p, a), i) == ContentsFrom(t, k, a, i)
    decreases t, 0, t.count - i
  {
    hide IsPerm;
    if i < t.count {
      ContentsAct(t.element, k, p, a.es[i]);
      ContentsFromAct(t, k, p, a, i + 1);
    }
  }

  lemma ActNumberAt(p: seq<nat>, v: nat, j: nat)
    requires IsPerm(p) && j < |p|
    ensures ActNumber(p, v) == j + 1 <==> v == p[j] + 1
  {
    WhereAt(p, j);
    if 1 <= v <= |p| { Present(p, v - 1); }
  }

  /** Once p has rearranged the scalarset, the key at place j is what the key at
      place p[j] was. */
  lemma {:induction false} KeyAct(t: Type, k: nat, p: seq<nat>, v: Value, j: nat)
    requires Has(t, v) && IsPerm(p) && Sound(t, k, |p|) && j < |p|
    ensures KeyOf(t, k, |p|, Act(t, k, p, v), j) == KeyOf(t, k, |p|, v, p[j])
    decreases t, 1, 0
  {
    hide ActNumber;
    match t {
      case Simple(_, id) => ActNumberAt(p, v.n, j);
      case Array(index, m, e) =>
        if index == Some(k) { ContentsAct(e, k, p, v.es[p[j]]); } else { KeyFromAct(t, k, p, v, j, 0); }
      case Field(f, r) =>
        KeyAct(f, k, p, v.first, j);
        KeyAct(r, k, p, v.rest, j);
      case Done =>
    }
  }

  lemma {:induction false} KeyFromAct(t: Type, k: nat, p: seq<nat>, v: Value, j: nat, i: nat)
    requires t.Array? && t.index != Some(k) && Has(t, v) && IsPerm(p) && Sound(t, k, |p|) && j < |p| && i <= t.count
    ensures KeyFrom(t, k, |p|, Act(t, k, p, v), j, i) == KeyFrom(t, k, |p|, v, p[j], i)
    decreases t, 0, t.count - i
  {
    if i < t.count {
      KeyAct(t.element, k, p, v.es[i], j);
      KeyFromAct(t, k, p, v, j, i + 1);
    }
  }

  // ----- on the packed state -----

  /** The first difference decides, and the loop stops there. */
  method CompareElementsAt(t: Type, d: array<bool>, k: nat, a: nat, b: nat) returns (c: int)
    requires Narrow(t) && d.Length % CHAR_BIT == 0 && a + Width(t) <= d.Length && b + Width(t) <= d.Length
    ensures c == CompareElements(t, k, Decode(t, Slice(d, a, Width(t))), Decode(t, Slice(d, b, Width(t))))
    decreases t, 2
  {
    hide Decode, CompareRows, Has, ToNat;
    DecodeSays(t, Slice(d, a, Width(t)));
    DecodeSays(t, Slice(d, b, Width(t)));
    match t {
      case Simple(w, id) =>
        if id == Some(k) { return 0; }
        var x := ReadNumber(d, a, w);
        var y := ReadNumber(d, b, w);
        if x < y { return -1; } else if x > y { return 1; }
        return 0;
      case Array(index, m, e) =>
        if index == Some(k) { return 0; }
        c := CompareRowsAt(t, d, k, a, b);
      case Field(_, _) => c := CompareFieldsAt(t, d, k, a, b);
      case Done => return 0;
    }
  }

  method CompareFieldsAt(t: Type, d: array<bool>, k: nat, a: nat, b: nat) returns (c: int)
    requires t.Field? && Narrow(t) && d.Length % CHAR_BIT == 0 && a + Width(t) <= d.Length && b + Width(t) <= d.Length
    ensures c == CompareElements(t, k, Decode(t, Slice(d, a, Width(t))), Decode(t, Slice(d, b, Width(t))))
    decreases t, 0
  {
    hide Decode, Has, Slice;
    var f, r := t.first, t.rest;
    DecodeSays(t, Slice(d, a, Width(t)));
    DecodeSays(t, Slice(d, b, Width(t)));
    SlicePair(d, a, Width(f), Width(r));
    SlicePair(d, b, Width(f), Width(r));
    c := CompareElementsAt(f, d, k, a, b);
    if c != 0 { return; }
    c := CompareElementsAt(r, d, k, a + Width(f), b + Width(f));
  }

  method CompareRowsAt(t: Type, d: array<bool>, k: nat, a: nat, b: nat) returns (c: int)
    requires t.Array? && Narrow(t) && d.Length % CHAR_BIT == 0 && a + Width(t) <= d.Length && b + Width(t) <= d.Length
    ensures c == CompareRows(t, k, Decode(t, Slice(d, a, Width(t))), Decode(t, Slice(d, b, Width(t))), 0)
    decreases t, 1
  {
    hide CompareElements, Decode, Has, Slice;
    ghost var v, u := Decode(t, Slice(d, a, Width(t))), Decode(t, Slice(d, b, Width(t)));
    DecodeSays(t, Slice(d, a, Width(t)));
    DecodeSays(t, Slice(d, b, Width(t)));
    var i := 0;
    while i < t.count
      invariant i <= t.count && CompareRows(t, k, v, u, 0) == CompareRows(t, k, v, u, i)
    {
      c := CompareRowAt(t, d, k, a, b, i, i);
      if c != 0 { return; }
      i := i + 1;
    }
    c := 0;
  }

  // Element x of the array at a, and element y of that at b.
  method CompareRowAt(t: Type, d: array<bool>, k: nat, a: nat, b: nat, x: nat, y: nat) returns (c: int)
    requires t.Array? && Narrow(t) && d.Length % CHAR_BIT == 0 && a + Width(t) <= d.Length && b + Width(t) <= d.Length
    requires x < t.count && y < t.count
    ensures c == CompareElements(t.element, k, Decode(t, Slice(d, a, Width(t))).es[x], Decode(t, Slice(d, b, Width(t))).es[y])
    decreases t, 0
  {
    hide Block, CompareElements, Decode, Has, Slice;
    var m, e, w := t.count, t.element, Width(t.element);
    DecodeSays(t, Slice(d, a, m * w));
    DecodeSays(t, Slice(d, b, m * w));
    SliceBlock(d, a, x, m, w);
    SliceBlock(d, b, y, m, w);
    var i, j := x * w, y * w;
    c := CompareElementsAt(e, d, k, a + i, b + j);
  }

  method CompareAt(t: Type, d: array<bool>, offset: nat, k: nat, n: nat, x: nat, y: nat) returns (c: int)
    requires Narrow(t) && d.Length % CHAR_BIT == 0 && offset + Width(t) <= d.Length
    requires Sound(t, k, n) && x < n && y < n
    ensures c == Compare(t, k, n, Decode(t, Slice(d, offset, Width(t))), x, y)
    decreases t, 2
  {
    hide Decode, CompareFrom, Has;
    DecodeSays(t, Slice(d, offset, Width(t)));
    match t {
      case Simple(w, id) =>
        if id == Some(k) {
          var v := ReadNumber(d, offset, w);
          if v != 0 {
            if v - 1 == x { return -1; } else if v - 1 == y { return 1; }
          }
        }
        return 0;
      case Array(index, m, e) =>
        if index == Some(k) {
          c := CompareRowAt(t, d, k, offset, offset, x, y);
        } else {
          c := CompareFromAt(t, d, offset, k, n, x, y);
        }
      case Field(f, r) =>
        SlicePair(d, offset, Width(f), Width(r));
        c := CompareAt(f, d, offset, k, n, x, y);
        if c != 0 { return; }
        c := CompareAt(r, d, offset + Width(f), k, n, x, y);
      case Done => return 0;
    }
  }

  method CompareFromAt(t: Type, d: array<bool>, offset: nat, k: nat, n: nat, x: nat, y: nat) returns (c: int)
    requires t.Array? && Narrow(t) && d.Length % CHAR_BIT == 0 && offset + Width(t) <= d.Length
    requires Sound(t, k, n) && x < n && y < n
    ensures c == CompareFrom(t, k, n, Decode(t, Slice(d, offset, Width(t))), x, y, 0)
    decreases t, 0
  {
    hide Block, Compare, Decode, Has, Slice;
    var m, e, w := t.count, t.element, Width(t.element);
    ghost var v := Decode(t, Slice(d, offset, m * w));
    DecodeSays(t, Slice(d, offset, m * w));
    var i := 0;
    while i < m
      invariant i <= m && CompareFrom(t, k, n, v, x, y, 0) == CompareFrom(t, k, n, v, x, y, i)
    {
      SliceBlock(d, offset, i, m, w);
      c := CompareAt(e, d, offset + i * w, k, n, x, y);
      if c != 0 { return; }
      i := i + 1;
    }
    c := 0;
  }
}
