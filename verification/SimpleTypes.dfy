/** Ranges, enums and scalarsets: how many bits a value takes, how it is encoded, and
    which machine types hold it. */
module SimpleTypes {
  import opened Options
  import opened Arithmetic
  import opened BitNumbers
  import opened Permutations

  /** b bits are enough for v different values, and no fewer are. */
  predicate IsWidth(v: int, b: nat)
  {
    v <= Power(b) && (b > 0 ==> Power(b - 1) < v)
  }

  lemma WidthUnique(v: int, a: nat, b: nat)
    requires IsWidth(v, a) && IsWidth(v, b)
    ensures a == b
  {
    if a < b { PowerMono(a, b - 1); }
    if b < a { PowerMono(b, a - 1); }
  }

  lemma LeastWidth(v: int, bits: nat)
    requires IsWidth(v, bits)
    ensures forall b: nat :: IsWidth(v, b) ==> b == bits
    ensures forall b: nat :: v <= Power(b) ==> bits <= b
  {
    hide Power;
    forall b: nat | IsWidth(v, b) ensures b == bits { WidthUnique(v, b, bits); }
    forall b: nat | v <= Power(b) ensures bits <= b { if b < bits { PowerMono(b, bits - 1); } }
  }

  /** The width of v values, by shifting the largest of them down to nothing: it is
      the only number of bits that is enough and not too many, and so the least. */
  method BitWidth(v: nat) returns (bits: nat)
    ensures IsWidth(v, bits)
    ensures forall b: nat :: IsWidth(v, b) ==> b == bits
    ensures forall b: nat :: v <= Power(b) ==> bits <= b
  {
    hide Quotient, Power;
    PowerSmall();
    if v <= 1 {
      LeastWidth(v, 0);
      return 0;
    }
    var largest: nat := v - 1;
    bits := 0;
    QuotientEdges(largest, v - 1, Power(0));
    while largest != 0
      invariant Quotient(largest, Power(bits), v - 1)
      invariant bits > 0 ==> Power(bits - 1) <= v - 1
      invariant bits == 0 ==> largest > 0
      decreases largest
    {
      Halve(largest, Power(bits), v - 1);
      PowerNext(bits);
      bits := bits + 1;
      largest := largest / 2;
    }
    QuotientEdges(largest, v - 1, Power(bits));
    LeastWidth(v, bits);
  }

  predicate Quotient(q: nat, p: nat, x: nat)
  {
    q * p <= x < (q + 1) * p
  }

  lemma QuotientEdges(q: nat, x: nat, p: nat)
    ensures p == 1 && q == x ==> Quotient(q, p, x)
    ensures q == 0 && Quotient(q, p, x) ==> x < p
  {
  }

  lemma PowerSmall()
    ensures Power(0) == 1
  {
  }

  lemma PowerNext(n: nat)
    ensures Power(n + 1) == 2 * Power(n)
  {
  }

  lemma Halve(l: nat, p: nat, x: nat)
    requires l > 0 && Quotient(l, p, x)
    ensures p <= x && Quotient(l / 2, 2 * p, x)
  {
    MulMono(1, l, p);
    var h := l / 2;
    assert h * (2 * p) == (2 * h) * p && (h + 1) * (2 * p) == (2 * h + 2) * p;
    MulMono(2 * h, l, p);
    MulMono(l + 1, 2 * h + 2, p);
  }

  // ----- values between bounds, 0 standing for undefined -----

  /** The distinct values of a type from lo to hi, one of which is undefined. */
  function Count(lo: int, hi: int): int
  {
    hi - lo + 2
  }

  /** What is stored for v; a value out of range is an error. */
  function Encode(lo: int, hi: int, v: int): Option<nat>
  {
    if v < lo || v > hi then None else Some(v - lo + 1)
  }

  /** What a stored number means; reading an undefined value is an error. */
  function Decode(lo: int, hi: int, raw: nat): Option<int>
  {
    if raw == 0 then None
    else if raw - 1 + lo < lo || raw - 1 + lo > hi then None
    else Some(raw - 1 + lo)
  }

  /** Every value in range, and no other, is stored in the type's width, apart from
      undefined; what is read back is what was written; and the numbers that decode
      are those that are written. */
  lemma RangeRoundTrip(lo: int, hi: int, w: nat, v: int, raw: nat)
    requires lo <= hi && IsWidth(Count(lo, hi), w)
    ensures Encode(lo, hi, v).Some? <==> lo <= v <= hi
    ensures lo <= v <= hi ==> 0 < Encode(lo, hi, v).value < Power(w) && Decode(lo, hi, Encode(lo, hi, v).value) == Some(v)
    ensures Decode(lo, hi, raw).Some? <==> 0 < raw < Count(lo, hi)
    ensures Decode(lo, hi, raw).Some? ==> Encode(lo, hi, Decode(lo, hi, raw).value) == Some(raw)
  {
  }

  /** The simple types of a model. */
  datatype Simple = Range(min: int, max: int) | Enum(members: nat) | Scalarset(bound: int)

  predicate Valid(t: Simple)
  {
    match t
    case Range(min, max) => min <= max
    case Enum(_) => true
    case Scalarset(bound) => bound > 0
  }

  function Lower(t: Simple): int
  {
    if t.Range? then t.min else 0
  }

  function Upper(t: Simple): int
  {
    match t
    case Range(_, max) => max
    case Enum(members) => if members > 0 then members - 1 else members
    case Scalarset(bound) => bound - 1
  }

  /** How many values a type has, undefined among them. */
  function Values(t: Simple): int
  {
    match t
    case Range(min, max) => max - min + 2
    case Enum(members) => members + 1
    case Scalarset(bound) => bound + 1
  }

  /** Each type has room for what lies between its bounds, except an enum without
      members, whose bounds admit a value it has no room for. */
  lemma ValuesCounted(t: Simple)
    requires Valid(t)
    ensures Values(t) == Count(Lower(t), Upper(t)) <==> t != Enum(0)
  {
  }

  /** The greatest number a type is taken to need: its greatest value, but for enums
      and scalarsets how many values it has. */
  function Reach(t: Simple): int
  {
    match t
    case Range(_, max) => max
    case Enum(members) => members
    case Scalarset(bound) => bound
  }

  lemma ReachCovers(t: Simple)
    requires Valid(t)
    ensures Lower(t) <= Reach(t) && Upper(t) <= Reach(t)
    ensures Reach(t) <= Upper(t) + 1
  {
  }

  /** `least` and `most` are exactly the least and the greatest number that the types
      of a model need, 0 included. */
  predicate Bounds(ts: seq<Simple>, least: int, most: int)
  {
    && least <= 0 <= most
    && (forall i :: 0 <= i < |ts| ==> least <= Lower(ts[i]) && Reach(ts[i]) <= most)
    && (least == 0 || exists i :: 0 <= i < |ts| && Lower(ts[i]) == least)
    && (most == 0 || exists i :: 0 <= i < |ts| && Reach(ts[i]) == most)
  }

  lemma BoundsUnique(ts: seq<Simple>, a: int, b: int, c: int, d: int)
    requires Bounds(ts, a, b) && Bounds(ts, c, d)
    ensures a == c && b == d
  {
  }

  /** Finds the least and the greatest number in a model, 0 included. */
  class BoundsFinder {
    var min: int
    var max: int

    constructor ()
      ensures min == 0 && max == 0
    {
      min, max := 0, 0;
    }

    method Note(v: int)
      modifies this
      ensures min == (if v < old(min) then v else old(min)) && max == (if v > old(max) then v else old(max))
    {
      if v < min { min := v; }
      if v > max { max := v; }
    }

    method Visit(t: Simple)
      requires Valid(t) && min <= 0 <= max
      modifies this
      ensures min == (if Lower(t) < old(min) then Lower(t) else old(min))
      ensures max == (if Reach(t) > old(max) then Reach(t) else old(max))
    {
      match t {
        case Range(lo, hi) =>
          Note(lo);
          Note(hi);
        case Enum(members) => if members > max { max := members; }
        case Scalarset(bound) => Note(bound);
      }
    }

    /** The bounds found are exactly those of the types visited. */
    method VisitAll(ts: seq<Simple>)
      requires min == max == 0 && forall i :: 0 <= i < |ts| ==> Valid(ts[i])
      modifies this
      ensures Bounds(ts, min, max)
    {
      for i := 0 to |ts|
        invariant Bounds(ts[..i], min, max)
      {
        ghost var least, most := min, max;
        Visit(ts[i]);
        BoundsMore(ts, i, least, most, min, max);
      }
      assert ts[..|ts|] == ts;
    }
  }

  lemma BoundsMore(ts: seq<Simple>, i: nat, least: int, most: int, least': int, most': int)
    requires i < |ts| && Bounds(ts[..i], least, most)
    requires least' == if Lower(ts[i]) < least then Lower(ts[i]) else least
    requires most' == if Reach(ts[i]) > most then Reach(ts[i]) else most
    ensures Bounds(ts[..i + 1], least', most')
  {
    hide Lower, Reach;
    assert ts[..i + 1] == ts[..i] + [ts[i]] && ts[..i + 1][i] == ts[i];
    forall j | 0 <= j < i ensures ts[..i][j] == ts[..i + 1][j] {}
  }

  // ----- machine types -----

  datatype Machine = Machine(min: int, max: int)

  // From the cheapest on: unsigned and signed, 8 to 64 bits.
  const TYPES: seq<Machine> := [
    Machine(0, 0xff), Machine(-0x80, 0x7f), Machine(0, 0xffff), Machine(-0x8000, 0x7fff),
    Machine(0, 0xffff_ffff), Machine(-0x8000_0000, 0x7fff_ffff),
    Machine(0, 0xffff_ffff_ffff_ffff), Machine(-0x8000_0000_0000_0000, 0x7fff_ffff_ffff_ffff)]

  predicate HoldsAll(t: Machine, lo: int, hi: int)
  {
    t.min <= lo && hi <= t.max
  }

  /** The first type that holds all numbers of the model. */
  method ValueType(lo: int, hi: int) returns (r: Option<Machine>)
    ensures r.Some? ==>
              exists i :: 0 <= i < |TYPES| && r.value == TYPES[i] && HoldsAll(TYPES[i], lo, hi) && forall j :: 0 <= j < i ==> !HoldsAll(TYPES[j], lo, hi)
    ensures r.None? <==> forall i :: 0 <= i < |TYPES| ==> !HoldsAll(TYPES[i], lo, hi)
  {
    for i := 0 to |TYPES|
      invariant forall j :: 0 <= j < i ==> !HoldsAll(TYPES[j], lo, hi)
    {
      if HoldsAll(TYPES[i], lo, hi) { return Some(TYPES[i]); }
    }
    return None;
  }

  /** The first unsigned type for those numbers counted from 1. */
  method RawType(lo: int, hi: int) returns (r: Option<Machine>)
    requires lo <= hi
    ensures r.Some? ==> r.value.min == 0 && hi - lo + 1 <= r.value.max
    ensures r.Some? ==>
              exists i :: 0 <= i < |TYPES| && r.value == TYPES[i] && forall j :: 0 <= j < i ==> TYPES[j].min < 0 || TYPES[j].max < hi - lo + 1
    ensures r.None? <==> hi - lo + 1 > 0xffff_ffff_ffff_ffff
  {
    for i := 0 to |TYPES|
      invariant forall j :: 0 <= j < i ==> TYPES[j].min < 0 || TYPES[j].max < hi - lo + 1
    {
      if TYPES[i].min >= 0 && TYPES[i].max >= hi - lo + 1 { return Some(TYPES[i]); }
    }
    assert TYPES[6].max < hi - lo + 1;
    return None;
  }

  /** With the types chosen for a model, encoding and decoding a value of any of its
      simple types overflows at no step. */
  lemma NoOverflow(value: Machine, raw: Machine, least: int, most: int, lo: int, hi: int, v: int)
    requires HoldsAll(value, least, most) && raw.min == 0 && most - least + 1 <= raw.max
    requires least <= lo <= v <= hi <= most
    ensures raw.min <= v - lo && v - lo + 1 <= raw.max
    ensures value.min <= lo && hi <= value.max && value.min <= (v - lo + 1) - 1 + lo <= value.max
  {
  }

  /** Whether value and raw types do for every value of every simple type: each step
      of encoding it and of decoding it stays within them. */
  predicate Suits(value: Machine, raw: Machine, t: Simple, v: int)
  {
    && raw.min <= v - Lower(t) && v - Lower(t) + 1 <= raw.max
    && value.min <= Lower(t) && Upper(t) <= value.max && value.min <= (v - Lower(t) + 1) - 1 + Lower(t) <= value.max
  }

  /** The types chosen for a model suit all its values. There is a value type unless no
      type holds the least and the greatest number the model needs, and a raw type
      unless there are more numbers between these than 64 bits can count. */
  method Choose(ts: seq<Simple>) returns (value: Option<Machine>, raw: Option<Machine>)
    requires forall i :: 0 <= i < |ts| ==> Valid(ts[i])
    ensures exists least, most :: Bounds(ts, least, most)
    ensures forall least, most :: Bounds(ts, least, most) ==>
              && (value.Some? <==> exists i :: 0 <= i < |TYPES| && HoldsAll(TYPES[i], least, most))
              && (raw.Some? <==> most - least + 1 <= 0xffff_ffff_ffff_ffff)
    ensures value.Some? && raw.Some? ==>
              forall i, v :: 0 <= i < |ts| && Lower(ts[i]) <= v <= Upper(ts[i]) ==> Suits(value.value, raw.value, ts[i], v)
  {
    var finder := new BoundsFinder();
    finder.VisitAll(ts);
    value := ValueType(finder.min, finder.max);
    raw := RawType(finder.min, finder.max);
    forall least, most | Bounds(ts, least, most) ensures least == finder.min && most == finder.max {
      BoundsUnique(ts, least, most, finder.min, finder.max);
    }
    if value.Some? && raw.Some? {
      forall i, v | 0 <= i < |ts| && Lower(ts[i]) <= v <= Upper(ts[i]) ensures Suits(value.value, raw.value, ts[i], v) {
        ReachCovers(ts[i]);
        NoOverflow(value.value, raw.value, finder.min, finder.max, Lower(ts[i]), Upper(ts[i]), v);
      }
    }
  }

  /** A schedule's number is never truncated when it is stored. */
  lemma ScheduleFits(n: nat, w: nat, index: nat)
    requires IsWidth(Factorial(n), w) && index < Factorial(n)
    ensures index < Power(w) && ToNat(FromNat(index, w)) == index
  {
    ToFrom(index, w);
  }

  // ----- ordering fields -----

  predicate OneHot(w: nat)
  {
    exists k: nat :: k <= w && w == Power(k)
  }

  /** Whether a field of width a is laid out before one of width b. */
  predicate Before(a: nat, b: nat)
  {
    if a == 0 then true
    else if b == 0 then false
    else if OneHot(a) && !OneHot(b) then true
    else if !OneHot(a) && OneHot(b) then false
    else a > b
  }

  /** Neither of two fields comes before the other. */
  predicate Level(a: nat, b: nat)
  {
    !Before(a, b) && !Before(b, a)
  }

  /** Sorting needs a strict weak order: no field before one that comes before it,
      nor before itself, and both `Before` and `Level` carrying over. The comparison
      that fields are sorted by breaks the first of these if and only if both fields
      take no space, and meets the others for all fields; the fields it leaves level
      are those of the same width that take some space. */
  lemma BeforeStrict(a: nat, b: nat, c: nat)
    ensures !(Before(a, b) && Before(b, a)) <==> !(a == 0 && b == 0)
    ensures Before(a, a) <==> a == 0
    ensures Before(a, b) && Before(b, c) ==> Before(a, c)
    ensures Level(a, b) && Level(b, c) ==> Level(a, c)
    ensures Level(a, b) <==> a == b && a > 0
  {
    hide OneHot;
  }
}
