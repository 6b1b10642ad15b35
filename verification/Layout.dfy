/** The packed state as a typed store: where an access path leads, and what reading,
    writing, clearing and copying along paths do to each other. */
module Layout {
  import opened Options
  import opened Arithmetic
  import opened BitNumbers
  import opened Types
  import opened Paths
  import opened RawAccess
  import opened Swapping

  function Offset(t: Type, p: Path): nat
    requires Leads(t, p)
  {
    if p == [] then 0
    else if t.Array? then p[0].i * Width(t.element) + Offset(t.element, p[1..])
    else if p[0].i == 0 then Offset(t.first, p[1..])
    else Width(t.first) + Offset(t.rest, Later(p))
  }

  /** A component lies within the one it is part of. */
  lemma {:induction false} Inside(t: Type, p: Path)
    requires Leads(t, p)
    ensures Offset(t, p) + Width(At(t, p)) <= Width(t)
  {
    if p != [] {
      match t {
        case Array(_, n, e) =>
          Inside(e, p[1..]);
          BlockFits(p[0].i, n, Width(e));
        case Field(f, r) => if p[0].i == 0 { Inside(f, p[1..]); } else { Inside(r, Later(p)); }
        case _ =>
      }
    }
  }

  predicate Clear(a: nat, u: nat, b: nat, v: nat)
  {
    a + u <= b || b + v <= a
  }

  lemma LaterPrefix(p: Path, q: Path)
    requires p != [] && q != [] && p[0].Member? && q[0].Member? && p[0].i > 0 && q[0].i > 0
    ensures Later(p) <= Later(q) <==> p <= q
  {
    assert p == [p[0]] + p[1..] && q == [q[0]] + q[1..];
    if Later(p) <= Later(q) {
      assert Later(p)[1..] <= Later(q)[1..];
      assert Later(p)[0] == Later(q)[0];
    }
    if p <= q { assert p[1..] <= q[1..]; }
  }

  lemma TailPrefix(p: Path, q: Path)
    requires p != [] && q != [] && p[0] == q[0]
    ensures p[1..] <= q[1..] <==> p <= q
  {
    assert p == [p[0]] + p[1..] && q == [q[0]] + q[1..];
  }

  /** Components of which neither is part of the other do not overlap, in whatever
      order fields are laid out. */
  lemma {:induction false} Disjoint(t: Type, p: Path, q: Path)
    requires Leads(t, p) && Leads(t, q) && !(p <= q) && !(q <= p)
    ensures Clear(Offset(t, p), Width(At(t, p)), Offset(t, q), Width(At(t, q)))
  {
    match t {
      case Array(_, n, e) =>
        Inside(e, p[1..]);
        Inside(e, q[1..]);
        if p[0].i == q[0].i {
          TailPrefix(p, q);
          TailPrefix(q, p);
          Disjoint(e, p[1..], q[1..]);
        } else {
          BlocksApart(p[0].i, q[0].i, Width(e));
        }
      case Field(f, r) =>
        if p[0].i == 0 && q[0].i == 0 {
          TailPrefix(p, q);
          TailPrefix(q, p);
          Disjoint(f, p[1..], q[1..]);
        } else if p[0].i == 0 {
          Inside(f, p[1..]);
        } else if q[0].i == 0 {
          Inside(f, q[1..]);
        } else {
          LaterPrefix(p, q);
          LaterPrefix(q, p);
          Disjoint(r, Later(p), Later(q));
        }
      case _ =>
    }
  }

  lemma {:induction false} Continued(t: Type, p: Path, q: Path)
    requires Leads(t, p) && Leads(At(t, p), q)
    ensures Leads(t, p + q) && At(t, p + q) == At(At(t, p), q) && Offset(t, p + q) == Offset(t, p) + Offset(At(t, p), q)
  {
    if p == [] {
      assert p + q == q;
    } else {
      assert (p + q)[1..] == p[1..] + q;
      match t {
        case Array(_, _, e) => Continued(e, p[1..], q);
        case Field(f, r) =>
          if p[0].i == 0 {
            Continued(f, p[1..], q);
          } else {
            assert Later(p + q) == Later(p) + q;
            Continued(r, Later(p), q);
          }
        case _ =>
      }
    }
  }

  lemma {:induction false} Remainder(t: Type, p: Path, q: Path)
    requires Leads(t, p) && Leads(t, q) && p <= q
    ensures Leads(At(t, p), q[|p|..]) && p + q[|p|..] == q
  {
    if p != [] {
      assert p[0] == q[0] && q[1..][|p| - 1..] == q[|p|..];
      match t {
        case Array(_, _, e) =>
          TailPrefix(p, q);
          Remainder(e, p[1..], q[1..]);
        case Field(f, r) =>
          if p[0].i == 0 {
            TailPrefix(p, q);
            Remainder(f, p[1..], q[1..]);
          } else {
            LaterPrefix(p, q);
            Remainder(r, Later(p), Later(q));
            assert Later(q)[|p|..] == q[|p|..];
          }
        case _ =>
      }
    }
  }

  // ----- handles: how generated code gets to a component -----

  function Narrow(h: Handle, offset: nat, width: nat): Handle
  {
    Handle(h.base + (h.offset + offset) / CHAR_BIT, (h.offset + offset) % CHAR_BIT, width)
  }

  /** An index outside its bounds is an error. */
  function Indexed(h: Handle, width: nat, lo: int, hi: int, index: int): (r: Option<Handle>)
    ensures r.None? <==> index < lo || index > hi
  {
    if index < lo || index > hi then None else Some(Narrow(h, (index - lo) * width, width))
  }

  // The handle for a path, one field or element at a time. The index type of the
  // array entered by the k-th step starts at lows[k], wherever that is.
  function Reached(t: Type, h: Handle, p: Path, lows: seq<int>): Handle
    requires Leads(t, p) && |lows| == |p|
    decreases t, |p|
  {
    if p == [] then h
    else if t.Array? then
      Reached(t.element, Indexed(h, Width(t.element), lows[0], lows[0] + t.count - 1, lows[0] + p[0].i).value, p[1..], lows[1..])
    else MemberHandle(t, h, 0, p, lows)
  }

  // The offset of a field is found by going through those before it.
  function MemberHandle(t: Type, h: Handle, offset: nat, p: Path, lows: seq<int>): Handle
    requires Leads(t, p) && p != [] && t.Field? && |lows| == |p|
    decreases t, 0
  {
    if p[0].i == 0 then Reached(t.first, Narrow(h, offset, Width(t.first)), p[1..], lows[1..])
    else MemberHandle(t.rest, h, offset + Width(t.first), Later(p), lows)
  }

  lemma NarrowPosition(h: Handle, offset: nat, width: nat)
    ensures var g := Narrow(h, offset, width); Position(g) == Position(h) + offset && g.offset < CHAR_BIT && g.width == width
  {
  }

  /** Generated handles address exactly the bits of the path's component, whatever
      numbers the index types on the way start from. */
  lemma {:induction false} ReachedPosition(t: Type, h: Handle, p: Path, lows: seq<int>)
    requires Leads(t, p) && h.offset < CHAR_BIT && h.width == Width(t) && |lows| == |p|
    ensures var g := Reached(t, h, p, lows);
            Position(g) == Position(h) + Offset(t, p) && g.width == Width(At(t, p)) && g.offset < CHAR_BIT
    decreases t, 2
  {
    hide Narrow, Position;
    if p != [] {
      match t {
        case Array(_, _, e) =>
          assert lows[0] + p[0].i - lows[0] == p[0].i;
          NarrowPosition(h, p[0].i * Width(e), Width(e));
          ReachedPosition(e, Narrow(h, p[0].i * Width(e), Width(e)), p[1..], lows[1..]);
        case Field(_, _) => MemberPosition(t, h, 0, p, lows);
        case _ =>
      }
    }
  }

  lemma {:induction false} MemberPosition(t: Type, h: Handle, offset: nat, p: Path, lows: seq<int>)
    requires Leads(t, p) && p != [] && t.Field? && h.offset < CHAR_BIT && |lows| == |p|
    ensures var g := MemberHandle(t, h, offset, p, lows);
            Position(g) == Position(h) + offset + Offset(t, p) && g.width == Width(At(t, p)) && g.offset < CHAR_BIT
    decreases t, 1
  {
    hide Narrow, Position;
    if p[0].i == 0 {
      NarrowPosition(h, offset, Width(t.first));
      ReachedPosition(t.first, Narrow(h, offset, Width(t.first)), p[1..], lows[1..]);
    } else {
      MemberPosition(t.rest, h, offset + Width(t.first), Later(p), lows);
    }
  }

  // ----- the store -----

  /** The number at a leaf; 0 is undefined. */
  ghost function Get(t: Type, b: Bits, p: Path): nat
    requires IsLeaf(t, p) && |b| >= Width(t)
  {
    Inside(t, p);
    ToNat(b[Offset(t, p)..Offset(t, p) + Width(At(t, p))])
  }

  // The bits of a component mean what the component is.
  ghost predicate Means(t: Type, b: Bits, p: Path)
    requires Leads(t, p) && |b| == Width(t)
  {
    && Offset(t, p) + Width(At(t, p)) <= Width(t)
    && Decode(At(t, p), b[Offset(t, p)..Offset(t, p) + Width(At(t, p))]) == ValueAt(t, Decode(t, b), p)
  }

  lemma {:induction false} DecodeAt(t: Type, b: Bits, p: Path)
    requires Leads(t, p) && |b| == Width(t)
    ensures Means(t, b, p)
  {
    hide Means;
    if p == [] {
      DecodeHere(t, b);
    } else if t.Array? {
      DecodeAt(t.element, Block(b, p[0].i, t.count, Width(t.element)), p[1..]);
      DecodeElement(t, b, p);
    } else if p[0].i == 0 {
      DecodeAt(t.first, b[..Width(t.first)], p[1..]);
      DecodeFirst(t, b, p);
    } else {
      DecodeAt(t.rest, b[Width(t.first)..], Later(p));
      DecodeRest(t, b, p);
    }
  }

  lemma DecodeHere(t: Type, b: Bits)
    requires |b| == Width(t)
    ensures Means(t, b, [])
  {
    assert b[0..|b|] == b;
  }

  lemma DecodeElement(t: Type, b: Bits, p: Path)
    requires Leads(t, p) && p != [] && t.Array? && |b| == Width(t)
    requires Means(t.element, Block(b, p[0].i, t.count, Width(t.element)), p[1..])
    ensures Means(t, b, p)
  {
    hide Decode, Has;
    DecodeSays(t, b);
    Inside(t, p);
    var e, i, w := t.element, p[0].i, Width(t.element);
    BlockFits(i, t.count, w);
    SubSlice(b, i * w, w, Offset(e, p[1..]), Width(At(t, p)));
  }

  lemma DecodeFirst(t: Type, b: Bits, p: Path)
    requires Leads(t, p) && p != [] && t.Field? && p[0].i == 0 && |b| == Width(t)
    requires Means(t.first, b[..Width(t.first)], p[1..])
    ensures Means(t, b, p)
  {
    hide Decode, Has;
    DecodeSays(t, b);
    Inside(t, p);
    SubSlice(b, 0, Width(t.first), Offset(t.first, p[1..]), Width(At(t, p)));
  }

  lemma DecodeRest(t: Type, b: Bits, p: Path)
    requires Leads(t, p) && p != [] && t.Field? && p[0].i > 0 && |b| == Width(t)
    requires Means(t.rest, b[Width(t.first)..], Later(p))
    ensures Means(t, b, p)
  {
    hide Decode, Has;
    DecodeSays(t, b);
    Inside(t, p);
    assert b[Width(t.first)..Width(t.first) + Width(t.rest)] == b[Width(t.first)..];
    SubSlice(b, Width(t.first), Width(t.rest), Offset(t.rest, Later(p)), Width(At(t, p)));
  }

  lemma SubSlice(b: Bits, x: nat, w: nat, o: nat, u: nat)
    requires x + w <= |b| && o + u <= w
    ensures b[x..x + w][o..o + u] == b[x + o..x + o + u]
  {
    var l, r := b[x..x + w][o..o + u], b[x + o..x + o + u];
    forall i | 0 <= i < u ensures l[i] == r[i] {}
  }

  /** The number kept at a leaf is the one that the meaning of the state has there. */
  lemma GetIsMeant(t: Type, b: Bits, p: Path)
    requires IsLeaf(t, p) && |b| >= Width(t)
    ensures Get(t, b, p) == NumberAt(t, Decode(t, b[..Width(t)]), p)
  {
    hide Leads, At, Offset;
    GetIs(t, b, p);
    DecodeAt(t, b[..Width(t)], p);
    var o, w := Offset(t, p), Width(At(t, p));
    assert b[..Width(t)][o..o + w] == b[o..o + w];
  }

  lemma GetIs(t: Type, b: Bits, p: Path)
    requires IsLeaf(t, p) && |b| >= Width(t)
    ensures Offset(t, p) + Width(At(t, p)) <= Width(t)
    ensures Get(t, b, p) == ToNat(b[Offset(t, p)..Offset(t, p) + Width(At(t, p))])
  {
    Inside(t, p);
  }

  lemma LeavesApart(t: Type, p: Path, q: Path)
    requires IsLeaf(t, p) && Leads(t, q) && p <= q
    ensures p == q
  {
    Remainder(t, p, q);
  }

  // A leaf whose bits are untouched has the value it had.
  lemma Untouched(t: Type, b: Bits, b': Bits, p: Path, from: nat, to: nat)
    requires IsLeaf(t, p) && |b| == |b'| >= Width(t) && from <= to
    requires Clear(Offset(t, p), Width(At(t, p)), from, to - from)
    requires forall i :: 0 <= i < |b| && !(from <= i < to) ==> b'[i] == b[i]
    ensures Get(t, b', p) == Get(t, b, p)
  {
    Inside(t, p);
    var o, w := Offset(t, p), Width(At(t, p));
    assert b'[o..o + w] == b[o..o + w];
  }

  /** Only bits of component p changed: so did no leaf outside it. */
  lemma OthersKept(t: Type, b: Bits, b': Bits, p: Path, q: Path)
    requires Leads(t, p) && IsLeaf(t, q) && !(p <= q) && |b| == |b'| >= Width(t)
    requires forall i :: 0 <= i < |b| && !(Offset(t, p) <= i < Offset(t, p) + Width(At(t, p))) ==> b'[i] == b[i]
    ensures Get(t, b', q) == Get(t, b, q)
  {
    hide Leads, At, Offset;
    if q <= p { LeavesApart(t, q, p); }
    Disjoint(t, q, p);
    Untouched(t, b, b', q, Offset(t, p), Offset(t, p) + Width(At(t, p)));
  }

  // The handle of a component, in a state that starts at the first bit.
  lemma PathHandle(t: Type, p: Path, lows: seq<int>)
    requires Leads(t, p) && |lows| == |p|
    ensures var g := Reached(t, Handle(0, 0, Width(t)), p, lows);
            Position(g) == Offset(t, p) && g.width == Width(At(t, p)) && g.offset < CHAR_BIT && Position(g) + g.width <= Width(t)
  {
    Inside(t, p);
    ReachedPosition(t, Handle(0, 0, Width(t)), p, lows);
  }

  method Read(t: Type, d: array<bool>, p: Path, lows: seq<int>) returns (v: nat)
    requires Narrow64(t) && IsLeaf(t, p) && |lows| == |p| && d.Length % CHAR_BIT == 0 && d.Length >= Width(t)
    ensures v == Get(t, d[..], p)
  {
    hide Leads, At, Offset, Position, Reached;
    PathHandle(t, p, lows);
    LeafWidth(t, p);
    v := ReadRaw(d, Reached(t, Handle(0, 0, Width(t)), p, lows), true);
    assert d[..][Offset(t, p)..Offset(t, p) + Width(At(t, p))] == d[Offset(t, p)..Offset(t, p) + Width(At(t, p))];
  }

  predicate Narrow64(t: Type)
  {
    Swapping.Narrow(t)
  }

  lemma {:induction false} LeafWidth(t: Type, p: Path)
    requires Narrow64(t) && Leads(t, p)
    ensures Narrow64(At(t, p))
  {
    if p != [] {
      match t {
        case Array(_, _, e) => LeafWidth(e, p[1..]);
        case Field(f, r) => if p[0].i == 0 { LeafWidth(f, p[1..]); } else { LeafWidth(r, Later(p)); }
        case _ =>
      }
    }
  }

  /** Writing a leaf: it has the new value, and every other leaf the one it had. */
  method Write(t: Type, d: array<bool>, p: Path, lows: seq<int>, v: nat)
    requires Narrow64(t) && IsLeaf(t, p) && |lows| == |p| && d.Length % CHAR_BIT == 0 && d.Length >= Width(t)
    requires v < Power(Width(At(t, p)))
    modifies d
    ensures Get(t, d[..], p) == v
    ensures forall q :: IsLeaf(t, q) && q != p ==> Get(t, d[..], q) == old(Get(t, d[..], q))
  {
    hide Leads, At, Offset, Position, Reached, Get;
    ghost var b := d[..];
    PathHandle(t, p, lows);
    LeafWidth(t, p);
    PowerMono(Width(At(t, p)), 64);
    var h := Reached(t, Handle(0, 0, Width(t)), p, lows);
    WriteRaw(d, h, v, true);
    Written(t, d, p, v);
    forall q | IsLeaf(t, q) && q != p ensures Get(t, d[..], q) == Get(t, b, q) {
      if p <= q { LeavesApart(t, p, q); }
      OthersKept(t, b, d[..], p, q);
    }
  }

  lemma Written(t: Type, d: array<bool>, p: Path, v: nat)
    requires IsLeaf(t, p) && d.Length >= Width(t) && v < Power(Width(At(t, p)))
    requires Offset(t, p) + Width(At(t, p)) <= d.Length
    requires d[Offset(t, p)..Offset(t, p) + Width(At(t, p))] == FromNat(v, Width(At(t, p)))
    ensures Get(t, d[..], p) == v
  {
    hide Leads, At, Offset;
    var o, w := Offset(t, p), Width(At(t, p));
    ToFrom(v, w);
    assert d[..][o..o + w] == d[o..o + w];
  }

  /** Clearing a component undefines exactly the leaves in it. */
  method Undefine(t: Type, d: array<bool>, p: Path, lows: seq<int>)
    requires Leads(t, p) && |lows| == |p| && d.Length % CHAR_BIT == 0 && d.Length >= Width(t)
    modifies d
    ensures forall q :: IsLeaf(t, q) ==> Get(t, d[..], q) == if p <= q then 0 else old(Get(t, d[..], q))
  {
    hide Leads, At, Offset, Position, Reached, Get;
    ghost var b := d[..];
    PathHandle(t, p, lows);
    var h := Reached(t, Handle(0, 0, Width(t)), p, lows);
    HandleZero(d, h);
    forall q | IsLeaf(t, q) ensures Get(t, d[..], q) == if p <= q then 0 else Get(t, b, q) {
      if p <= q { Cleared(t, d[..], p, q); } else { OthersKept(t, b, d[..], p, q); }
    }
  }

  lemma Cleared(t: Type, b: Bits, p: Path, q: Path)
    requires Leads(t, p) && IsLeaf(t, q) && p <= q && |b| >= Width(t)
    requires forall i :: 0 <= i < |b| && Offset(t, p) <= i < Offset(t, p) + Width(At(t, p)) ==> !b[i]
    ensures Get(t, b, q) == 0
  {
    hide Leads, At, Offset;
    Within(t, p, q);
    Zero(b[Offset(t, q)..Offset(t, q) + Width(At(t, q))]);
  }

  // A part of a component is inside it.
  lemma Within(t: Type, p: Path, q: Path)
    requires Leads(t, p) && Leads(t, q) && p <= q
    ensures Leads(At(t, p), q[|p|..]) && At(t, q) == At(At(t, p), q[|p|..])
    ensures Offset(t, q) == Offset(t, p) + Offset(At(t, p), q[|p|..])
    ensures Offset(t, p) <= Offset(t, q) && Offset(t, q) + Width(At(t, q)) <= Offset(t, p) + Width(At(t, p)) <= Width(t)
  {
    Remainder(t, p, q);
    Continued(t, p, q[|p|..]);
    Inside(At(t, p), q[|p|..]);
    Inside(t, p);
  }

  function Size(t: Type): nat
  {
    match t
    case Simple(_, _) => 1
    case Array(_, _, e) => 1 + Size(e)
    case Field(f, r) => 1 + Size(f) + Size(r)
    case Done => 1
  }

  lemma {:induction false} PartSmaller(t: Type, p: Path)
    requires Leads(t, p) && p != []
    ensures Size(At(t, p)) < Size(t)
  {
    match t {
      case Array(_, _, e) => if p[1..] != [] { PartSmaller(e, p[1..]); }
      case Field(f, r) =>
        if p[0].i == 0 {
          if p[1..] != [] { PartSmaller(f, p[1..]); }
        } else {
          PartSmaller(r, Later(p));
        }
      case _ =>
    }
  }

  // No component is part of another of its own type.
  lemma SameTypeApart(t: Type, p: Path, q: Path)
    requires Leads(t, p) && Leads(t, q) && At(t, p) == At(t, q) && p <= q
    ensures p == q
  {
    Within(t, p, q);
    if q[|p|..] != [] { PartSmaller(At(t, p), q[|p|..]); }
    assert p + q[|p|..] == q;
  }

  /** Copying between components of one type moves every leaf to its counterpart, and
      no other leaf changes. */
  method Copy(t: Type, d: array<bool>, to: Path, lowsTo: seq<int>, from: Path, lowsFrom: seq<int>)
    requires Leads(t, to) && Leads(t, from) && At(t, to) == At(t, from) && |lowsTo| == |to| && |lowsFrom| == |from|
    requires d.Length % CHAR_BIT == 0 && d.Length >= Width(t)
    modifies d
    ensures forall r :: IsLeaf(At(t, to), r) ==>
              IsLeaf(t, to + r) && IsLeaf(t, from + r) && Get(t, d[..], to + r) == old(Get(t, d[..], from + r))
    ensures forall q :: IsLeaf(t, q) && !(to <= q) ==> Get(t, d[..], q) == old(Get(t, d[..], q))
  {
    hide Leads, At, Offset, Position, Reached, Get, IsCopy, IsLeaf;
    ghost var b := d[..];
    PathHandle(t, to, lowsTo);
    PathHandle(t, from, lowsFrom);
    SameTypesClear(t, to, from);
    CopyBits(d, Reached(t, Handle(0, 0, Width(t)), to, lowsTo), Reached(t, Handle(0, 0, Width(t)), from, lowsFrom));
    forall r | IsLeaf(At(t, to), r)
      ensures IsLeaf(t, to + r) && IsLeaf(t, from + r) && Get(t, d[..], to + r) == Get(t, b, from + r)
    {
      CopiedLeaf(t, b, d[..], to, from, r);
    }
    forall q | IsLeaf(t, q) && !(to <= q) ensures Get(t, d[..], q) == Get(t, b, q) { UncopiedLeaf(t, b, d[..], to, from, q); }
  }

  // The w bits at `to` are those that were at `from`; the others are as before.
  ghost predicate IsCopy(b: Bits, b': Bits, to: nat, from: nat, w: nat)
  {
    && |b| == |b'| && to + w <= |b| && from + w <= |b|
    && (forall i :: to <= i < to + w ==> b'[i] == b[from + i - to])
    && (forall i :: 0 <= i < |b| && !(to <= i < to + w) ==> b'[i] == b[i])
  }

  method CopyBits(d: array<bool>, g: Handle, h: Handle)
    requires g.width == h.width && Position(g) + g.width <= d.Length && Position(h) + h.width <= d.Length
    requires Position(g) == Position(h) || Clear(Position(g), g.width, Position(h), h.width)
    modifies d
    ensures IsCopy(old(d[..]), d[..], Position(g), Position(h), g.width)
  {
    hide Position;
    ghost var b := d[..];
    HandleCopy(d, g, d, h);
    forall i | Position(g) <= i < Position(g) + g.width ensures d[..][i] == b[Position(h) + i - Position(g)] {}
  }

  lemma SameTypesClear(t: Type, to: Path, from: Path)
    requires Leads(t, to) && Leads(t, from) && At(t, to) == At(t, from)
    ensures Offset(t, to) == Offset(t, from) || Clear(Offset(t, to), Width(At(t, to)), Offset(t, from), Width(At(t, from)))
  {
    hide Leads, At, Offset;
    if to <= from { SameTypeApart(t, to, from); }
    if from <= to { SameTypeApart(t, from, to); }
    if to != from { Disjoint(t, to, from); }
  }

  lemma CopiedLeaf(t: Type, b: Bits, b': Bits, to: Path, from: Path, r: Path)
    requires Leads(t, to) && Leads(t, from) && At(t, to) == At(t, from) && IsLeaf(At(t, to), r) && |b| >= Width(t)
    requires IsCopy(b, b', Offset(t, to), Offset(t, from), Width(At(t, to)))
    ensures IsLeaf(t, to + r) && IsLeaf(t, from + r) && Get(t, b', to + r) == Get(t, b, from + r)
  {
    hide Leads, At, Offset, Get, ToNat;
    Continued(t, to, r);
    Continued(t, from, r);
    Inside(At(t, to), r);
    var o, w := Offset(At(t, to), r), Width(At(At(t, to), r));
    Moved(b, b', Offset(t, from), Offset(t, to), Width(At(t, to)), o, w);
    hide IsCopy;
    GetIs(t, b', to + r);
    GetIs(t, b, from + r);
  }

  lemma UncopiedLeaf(t: Type, b: Bits, b': Bits, to: Path, from: Path, q: Path)
    requires Leads(t, to) && Leads(t, from) && IsLeaf(t, q) && !(to <= q) && |b| >= Width(t)
    requires IsCopy(b, b', Offset(t, to), Offset(t, from), Width(At(t, to)))
    ensures Get(t, b', q) == Get(t, b, q)
  {
    hide Leads, At, Offset, Get;
    OthersKept(t, b, b', to, q);
  }

  lemma Moved(b: Bits, b': Bits, from: nat, to: nat, w: nat, o: nat, u: nat)
    requires IsCopy(b, b', to, from, w) && o + u <= w
    ensures b'[to + o..to + o + u] == b[from + o..from + o + u]
  {
  }
}
