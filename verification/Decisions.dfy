/** What the comparison of two scalarset elements decides, told by the numbers at the
    leaves of the state, and what it means when it decides nothing. */
module Decisions {
  import opened Options
  import opened BitNumbers
  import opened Permutations
  import opened Types
  import Paths
  import opened Action
  import opened Swapping
  import opened Comparing

  type Path = Paths.Path

  // ----- the elements of an array that the scalarset indexes -----

  /** No array that scalarset k indexes is entered on the way along p. */
  predicate Open(t: Type, k: nat, p: Path)
    requires Paths.Leads(t, p)
  {
    if p == [] then true
    else if t.Array? then t.index != Some(k) && Open(t.element, k, p[1..])
    else if p[0].i == 0 then Open(t.first, k, p[1..])
    else Open(t.rest, k, Paths.Later(p))
  }

  /** The leaves that count in comparing elements: the others either hold values of the
      scalarset itself, or are in an array that it indexes. */
  predicate Counts(t: Type, k: nat, p: Path)
  {
    Paths.IsLeaf(t, p) && Paths.At(t, p).scalarset != Some(k) && Open(t, k, p)
  }

  ghost predicate Agree(t: Type, k: nat, a: Value, b: Value)
    requires Has(t, a) && Has(t, b)
  {
    forall p :: Counts(t, k, p) ==> Paths.NumberAt(t, a, p) == Paths.NumberAt(t, b, p)
  }

  /** Leaf p is the first of those that count at which a and b differ. */
  ghost predicate FirstDifference(t: Type, k: nat, a: Value, b: Value, p: Path)
    requires Has(t, a) && Has(t, b)
  {
    && Counts(t, k, p) && Paths.NumberAt(t, a, p) != Paths.NumberAt(t, b, p)
    && forall q :: Counts(t, k, q) && Paths.Earlier(q, p) ==> Paths.NumberAt(t, a, q) == Paths.NumberAt(t, b, q)
  }

  // ----- going down one level -----

  lemma CountsElement(t: Type, k: nat, v: Value, i: nat, q: Path)
    requires t.Array? && t.index != Some(k) && i < t.count && Counts(t.element, k, q) && Has(t, v)
    ensures var p := [Paths.Index(i)] + q;
            && p[1..] == q && Counts(t, k, p) && Paths.NumberAt(t, v, p) == Paths.NumberAt(t.element, v.es[i], q)
  {
    Paths.IntoElement(t, v, i, q);
  }

  lemma CountsFirst(t: Type, k: nat, v: Value, q: Path)
    requires t.Field? && Counts(t.first, k, q) && Has(t, v)
    ensures var p := [Paths.Member(0)] + q;
            && p[1..] == q && Counts(t, k, p) && Paths.NumberAt(t, v, p) == Paths.NumberAt(t.first, v.first, q)
  {
    Paths.IntoFirst(t, v, q);
  }

  lemma CountsRest(t: Type, k: nat, v: Value, q: Path)
    requires Paths.Proper(t) && t.Field? && Counts(t.rest, k, q) && Has(t, v)
    ensures q != [] && q[0].Member?
    ensures var p := Paths.Skip(q);
            && p[1..] == q[1..] && Counts(t, k, p) && Paths.NumberAt(t, v, p) == Paths.NumberAt(t.rest, v.rest, q)
  {
    Paths.IntoRest(t, v, q);
  }

  // ----- elements: nothing differs -----

  lemma AgreeElement(t: Type, k: nat, a: Value, b: Value, i: nat)
    requires t.Array? && t.index != Some(k) && i < t.count && Has(t, a) && Has(t, b) && Agree(t, k, a, b)
    ensures Agree(t.element, k, a.es[i], b.es[i])
  {
    hide Paths.Leads, Paths.At, Open, Paths.ValueAt;
    forall q | Counts(t.element, k, q) ensures Paths.NumberAt(t.element, a.es[i], q) == Paths.NumberAt(t.element, b.es[i], q) {
      CountsElement(t, k, a, i, q);
      CountsElement(t, k, b, i, q);
    }
  }

  lemma AgreeFields(t: Type, k: nat, a: Value, b: Value)
    requires Paths.Proper(t) && t.Field? && Has(t, a) && Has(t, b) && Agree(t, k, a, b)
    ensures Agree(t.first, k, a.first, b.first) && Agree(t.rest, k, a.rest, b.rest)
  {
    hide Paths.Leads, Paths.At, Open, Paths.ValueAt;
    forall q | Counts(t.first, k, q) ensures Paths.NumberAt(t.first, a.first, q) == Paths.NumberAt(t.first, b.first, q) {
      CountsFirst(t, k, a, q);
      CountsFirst(t, k, b, q);
    }
    forall q | Counts(t.rest, k, q) ensures Paths.NumberAt(t.rest, a.rest, q) == Paths.NumberAt(t.rest, b.rest, q) {
      CountsRest(t, k, a, q);
      CountsRest(t, k, b, q);
    }
  }

  lemma AgreeParts(t: Type, k: nat, a: Value, b: Value)
    requires Paths.Proper(t) && Has(t, a) && Has(t, b) && Agree(t, k, a, b)
    ensures t.Simple? && t.scalarset != Some(k) ==> a.n == b.n
    ensures t.Array? && t.index != Some(k) ==> forall i :: 0 <= i < t.count ==> Agree(t.element, k, a.es[i], b.es[i])
    ensures t.Field? ==> Agree(t.first, k, a.first, b.first) && Agree(t.rest, k, a.rest, b.rest)
  {
    if t.Simple? && t.scalarset != Some(k) {
      LeafHere(t, k, a);
      LeafHere(t, k, b);
    } else if t.Array? && t.index != Some(k) {
      hide Agree;
      forall i | 0 <= i < t.count ensures Agree(t.element, k, a.es[i], b.es[i]) { AgreeElement(t, k, a, b, i); }
    } else if t.Field? {
      AgreeFields(t, k, a, b);
    }
  }

  lemma LeafHere(t: Type, k: nat, v: Value)
    requires t.Simple? && t.scalarset != Some(k) && Has(t, v)
    ensures Counts(t, k, []) && Paths.NumberAt(t, v, []) == v.n
  {
  }

  lemma HasParts(t: Type, v: Value)
    requires Has(t, v)
    ensures t.Simple? ==> v.Number?
    ensures t.Array? ==> v.Elements? && |v.es| == t.count && forall i :: 0 <= i < t.count ==> Has(t.element, v.es[i])
    ensures t.Field? ==> v.Fields? && Has(t.first, v.first) && Has(t.rest, v.rest)
  {
  }

  lemma {:induction false} RowsZero(t: Type, k: nat, a: Value, b: Value, i: nat)
    requires t.Array? && Has(t, a) && Has(t, b) && i <= t.count
    ensures CompareRows(t, k, a, b, i) == 0 <==> forall j :: i <= j < t.count ==> CompareElements(t.element, k, a.es[j], b.es[j]) == 0
    decreases t.count - i
  {
    hide CompareElements, Has;
    HasParts(t, a);
    HasParts(t, b);
    if i < t.count { RowsZero(t, k, a, b, i + 1); }
  }

  // The first row that tells a difference decides.
  lemma {:induction false} RowsFirst(t: Type, k: nat, a: Value, b: Value, i: nat, j: nat)
    requires t.Array? && Has(t, a) && Has(t, b) && i <= j < t.count
    requires forall l :: i <= l < j ==> CompareElements(t.element, k, a.es[l], b.es[l]) == 0
    requires CompareElements(t.element, k, a.es[j], b.es[j]) != 0
    ensures CompareRows(t, k, a, b, i) == CompareElements(t.element, k, a.es[j], b.es[j])
    decreases j - i
  {
    hide CompareElements, Has;
    HasParts(t, a);
    HasParts(t, b);
    if i < j { RowsFirst(t, k, a, b, i + 1, j); }
  }

  /** Two elements compare equal if and only if they agree at every leaf that counts. */
  lemma {:induction false} EqualElements(t: Type, k: nat, a: Value, b: Value)
    requires Paths.Proper(t) && Has(t, a) && Has(t, b)
    ensures CompareElements(t, k, a, b) == 0 <==> Agree(t, k, a, b)
    decreases t
  {
    hide Agree, Has;
    HasParts(t, a);
    HasParts(t, b);
    match t {
      case Array(index, m, e) =>
        if index != Some(k) {
          forall i | 0 <= i < m ensures CompareElements(e, k, a.es[i], b.es[i]) == 0 <==> Agree(e, k, a.es[i], b.es[i]) {
            EqualElements(e, k, a.es[i], b.es[i]);
          }
          RowsZero(t, k, a, b, 0);
        }
      case Field(f, r) =>
        EqualElements(f, k, a.first, b.first);
        EqualElements(r, k, a.rest, b.rest);
      case _ =>
    }
    if Agree(t, k, a, b) { AgreeParts(t, k, a, b); }
    if CompareElements(t, k, a, b) == 0 { AgreeWhole(t, k, a, b); }
  }

  lemma AgreeWhole(t: Type, k: nat, a: Value, b: Value)
    requires Has(t, a) && Has(t, b)
    requires t.Simple? && t.scalarset != Some(k) ==> a.n == b.n
    requires t.Array? && t.index != Some(k) ==> forall i :: 0 <= i < t.count ==> Agree(t.element, k, a.es[i], b.es[i])
    requires t.Field? ==> Agree(t.first, k, a.first, b.first) && Agree(t.rest, k, a.rest, b.rest)
    ensures Agree(t, k, a, b)
  {
    forall p: Path | Counts(t, k, p) ensures Paths.NumberAt(t, a, p) == Paths.NumberAt(t, b, p) {
      if t.Array? {
        assert Counts(t.element, k, p[1..]);
      } else if t.Field? {
        if p[0].i == 0 { assert Counts(t.first, k, p[1..]); } else { assert Counts(t.rest, k, Paths.Later(p)); }
      }
    }
  }

  // ----- elements: the first difference -----

  lemma FirstInElement(t: Type, k: nat, a: Value, b: Value, p: Path)
    requires t.Array? && Has(t, a) && Has(t, b) && FirstDifference(t, k, a, b, p)
    ensures p != [] && p[0].i < t.count && t.index != Some(k)
    ensures FirstDifference(t.element, k, a.es[p[0].i], b.es[p[0].i], p[1..])
    ensures forall j :: 0 <= j < p[0].i ==> Agree(t.element, k, a.es[j], b.es[j])
  {
    hide Paths.Leads, Paths.At, Open, Paths.ValueAt;
    ElementOf(t, k, a, p);
    ElementOf(t, k, b, p);
    var e, i := t.element, p[0].i;
    forall q | Counts(e, k, q) && Paths.Earlier(q, p[1..]) ensures Paths.NumberAt(e, a.es[i], q) == Paths.NumberAt(e, b.es[i], q) {
      CountsElement(t, k, a, i, q);
      CountsElement(t, k, b, i, q);
      assert Paths.Earlier([Paths.Index(i)] + q, p);
    }
    forall j | 0 <= j < i ensures Agree(e, k, a.es[j], b.es[j]) {
      forall q | Counts(e, k, q) ensures Paths.NumberAt(e, a.es[j], q) == Paths.NumberAt(e, b.es[j], q) {
        CountsElement(t, k, a, j, q);
        CountsElement(t, k, b, j, q);
        assert Paths.Earlier([Paths.Index(j)] + q, p);
      }
    }
  }

  lemma ElementOf(t: Type, k: nat, v: Value, p: Path)
    requires t.Array? && Has(t, v) && Counts(t, k, p)
    ensures p != [] && p[0].i < t.count && t.index != Some(k) && Counts(t.element, k, p[1..])
    ensures Paths.NumberAt(t, v, p) == Paths.NumberAt(t.element, v.es[p[0].i], p[1..])
  {
  }

  lemma FieldOf(t: Type, k: nat, v: Value, p: Path)
    requires t.Field? && Has(t, v) && Counts(t, k, p)
    ensures p != [] && p[0].Member?
    ensures p[0].i == 0 ==> Counts(t.first, k, p[1..]) && Paths.NumberAt(t, v, p) == Paths.NumberAt(t.first, v.first, p[1..])
    ensures p[0].i > 0 ==> Counts(t.rest, k, Paths.Later(p)) && Paths.NumberAt(t, v, p) == Paths.NumberAt(t.rest, v.rest, Paths.Later(p))
  {
  }

  lemma FirstInField(t: Type, k: nat, a: Value, b: Value, p: Path)
    requires Paths.Proper(t) && t.Field? && Has(t, a) && Has(t, b) && FirstDifference(t, k, a, b, p)
    ensures p != [] && p[0].Member?
    ensures p[0].i == 0 ==> FirstDifference(t.first, k, a.first, b.first, p[1..])
    ensures p[0].i > 0 ==> Agree(t.first, k, a.first, b.first) && FirstDifference(t.rest, k, a.rest, b.rest, Paths.Later(p))
  {
    hide Paths.Leads, Paths.At, Open, Paths.ValueAt, Paths.Proper;
    FieldOf(t, k, a, p);
    FieldOf(t, k, b, p);
    if p[0].i == 0 {
      forall q | Counts(t.first, k, q) && Paths.Earlier(q, p[1..])
        ensures Paths.NumberAt(t.first, a.first, q) == Paths.NumberAt(t.first, b.first, q)
      {
        CountsFirst(t, k, a, q);
        CountsFirst(t, k, b, q);
        assert Paths.Earlier([Paths.Member(0)] + q, p);
      }
    } else {
      forall q | Counts(t.first, k, q) ensures Paths.NumberAt(t.first, a.first, q) == Paths.NumberAt(t.first, b.first, q) {
        CountsFirst(t, k, a, q);
        CountsFirst(t, k, b, q);
        assert Paths.Earlier([Paths.Member(0)] + q, p);
      }
      forall q | Counts(t.rest, k, q) && Paths.Earlier(q, Paths.Later(p))
        ensures Paths.NumberAt(t.rest, a.rest, q) == Paths.NumberAt(t.rest, b.rest, q)
      {
        CountsRest(t, k, a, q);
        CountsRest(t, k, b, q);
        SkipEarlier(q, p);
      }
    }
  }

  lemma SkipEarlier(q: Path, p: Path)
    requires q != [] && q[0].Member? && p != [] && p[0].Member? && p[0].i > 0 && Paths.Earlier(q, Paths.Later(p))
    ensures Paths.Earlier(Paths.Skip(q), p)
  {
    assert Paths.Later(p)[1..] == p[1..] && Paths.Skip(q)[1..] == q[1..];
  }

  /** Otherwise the first leaf that counts at which they differ decides: the element
      with the smaller number there is the lesser. */
  lemma {:induction false} FirstDecides(t: Type, k: nat, a: Value, b: Value, p: Path)
    requires Paths.Proper(t) && Has(t, a) && Has(t, b) && FirstDifference(t, k, a, b, p)
    ensures CompareElements(t, k, a, b) == if Paths.NumberAt(t, a, p) < Paths.NumberAt(t, b, p) then -1 else 1
    decreases t
  {
    hide Agree, FirstDifference, Has;
    HasParts(t, a);
    HasParts(t, b);
    FirstSays(t, k, a, b, p);
    match t {
      case Simple(_, _) => SimpleLeaf(t, k, a, b, p);
      case Array(_, _, e) =>
        FirstInElement(t, k, a, b, p);
        ElementOf(t, k, a, p);
        ElementOf(t, k, b, p);
        var i := p[0].i;
        FirstDecides(e, k, a.es[i], b.es[i], p[1..]);
        forall j | 0 <= j < i ensures CompareElements(e, k, a.es[j], b.es[j]) == 0 { EqualElements(e, k, a.es[j], b.es[j]); }
        RowsFirst(t, k, a, b, 0, i);
      case Field(f, r) =>
        FirstInField(t, k, a, b, p);
        FieldOf(t, k, a, p);
        FieldOf(t, k, b, p);
        if p[0].i == 0 {
          FirstDecides(f, k, a.first, b.first, p[1..]);
        } else {
          EqualElements(f, k, a.first, b.first);
          FirstDecides(r, k, a.rest, b.rest, Paths.Later(p));
        }
      case Done => NoLeaf(k, p);
    }
  }

  lemma FirstSays(t: Type, k: nat, a: Value, b: Value, p: Path)
    requires Has(t, a) && Has(t, b) && FirstDifference(t, k, a, b, p)
    ensures Counts(t, k, p) && Paths.NumberAt(t, a, p) != Paths.NumberAt(t, b, p)
  {
  }

  lemma SimpleLeaf(t: Type, k: nat, a: Value, b: Value, p: Path)
    requires t.Simple? && Has(t, a) && Has(t, b) && Counts(t, k, p)
    ensures p == [] && t.scalarset != Some(k) && Paths.NumberAt(t, a, p) == a.n && Paths.NumberAt(t, b, p) == b.n
  {
  }

  lemma NoLeaf(k: nat, p: Path)
    ensures !Counts(Done, k, p)
  {
  }

  // ----- two elements of the scalarset -----

  /** Where a state may tell two elements of scalarset k apart: at a component that
      names one of them, or at an array that they index. */
  predicate Site(t: Type, k: nat, p: Path)
  {
    && Paths.Leads(t, p) && Open(t, k, p)
    && var u := Paths.At(t, p);
       (u.Simple? && u.scalarset == Some(k)) || (u.Array? && u.index == Some(k))
  }

  lemma {:induction false} SoundAt(t: Type, k: nat, n: nat, p: Path)
    requires Paths.Leads(t, p) && Sound(t, k, n)
    ensures Sound(Paths.At(t, p), k, n)
  {
    if p != [] {
      match t {
        case Array(_, _, e) => SoundAt(e, k, n, p[1..]);
        case Field(f, r) => if p[0].i == 0 { SoundAt(f, k, n, p[1..]); } else { SoundAt(r, k, n, Paths.Later(p)); }
        case _ =>
      }
    }
  }

  /** Site p tells x and y apart: it names one of them, or what they have there does
      not agree. */
  ghost predicate Tells(t: Type, k: nat, n: nat, v: Value, x: nat, y: nat, p: Path)
    requires Has(t, v) && Sound(t, k, n) && x < n && y < n && Site(t, k, p)
  {
    SoundAt(t, k, n, p);
    var u, w := Paths.At(t, p), Paths.ValueAt(t, v, p);
    if u.Simple? then w.n == x + 1 || w.n == y + 1 else !Agree(u.element, k, w.es[x], w.es[y])
  }

  ghost predicate NoneTells(t: Type, k: nat, n: nat, v: Value, x: nat, y: nat)
    requires Has(t, v) && Sound(t, k, n) && x < n && y < n
  {
    forall p :: Site(t, k, p) ==> !Tells(t, k, n, v, x, y, p)
  }

  ghost predicate FirstTells(t: Type, k: nat, n: nat, v: Value, x: nat, y: nat, p: Path)
    requires Has(t, v) && Sound(t, k, n) && x < n && y < n
  {
    && Site(t, k, p) && Tells(t, k, n, v, x, y, p)
    && forall q :: Site(t, k, q) && Paths.Earlier(q, p) ==> !Tells(t, k, n, v, x, y, q)
  }

  lemma SiteInElement(t: Type, k: nat, n: nat, v: Value, x: nat, y: nat, i: nat, q: Path)
    requires t.Array? && t.index != Some(k) && i < t.count && Site(t.element, k, q)
    requires Has(t, v) && Sound(t, k, n) && x < n && y < n
    ensures var p := [Paths.Index(i)] + q;
            p[1..] == q && Site(t, k, p) && (Tells(t, k, n, v, x, y, p) <==> Tells(t.element, k, n, v.es[i], x, y, q))
  {
    hide Agree;
    Paths.IntoElement(t, v, i, q);
  }

  lemma SiteInFirst(t: Type, k: nat, n: nat, v: Value, x: nat, y: nat, q: Path)
    requires t.Field? && Site(t.first, k, q) && Has(t, v) && Sound(t, k, n) && x < n && y < n
    ensures var p := [Paths.Member(0)] + q;
            p[1..] == q && Site(t, k, p) && (Tells(t, k, n, v, x, y, p) <==> Tells(t.first, k, n, v.first, x, y, q))
  {
    hide Agree;
    Paths.IntoFirst(t, v, q);
  }

  lemma SiteInRest(t: Type, k: nat, n: nat, v: Value, x: nat, y: nat, q: Path)
    requires Paths.Proper(t) && t.Field? && Site(t.rest, k, q) && Has(t, v) && Sound(t, k, n) && x < n && y < n
    ensures q != [] && q[0].Member?
    ensures var p := Paths.Skip(q);
            p[1..] == q[1..] && Site(t, k, p) && (Tells(t, k, n, v, x, y, p) <==> Tells(t.rest, k, n, v.rest, x, y, q))
  {
    hide Agree;
    Paths.IntoRest(t, v, q);
  }

  // A site is here, or in a part.
  lemma SiteParts(t: Type, k: nat, n: nat, v: Value, x: nat, y: nat, p: Path)
    requires Site(t, k, p) && Has(t, v) && Sound(t, k, n) && x < n && y < n
    ensures p == [] || t.Array? || t.Field?
    ensures p != [] && t.Array? ==>
              && p[0].i < t.count && t.index != Some(k) && Site(t.element, k, p[1..])
              && (Tells(t, k, n, v, x, y, p) <==> Tells(t.element, k, n, v.es[p[0].i], x, y, p[1..]))
    ensures p != [] && t.Field? && p[0].i == 0 ==>
              Site(t.first, k, p[1..]) && (Tells(t, k, n, v, x, y, p) <==> Tells(t.first, k, n, v.first, x, y, p[1..]))
    ensures p != [] && t.Field? && p[0].i > 0 ==>
              && p[0].Member? && Site(t.rest, k, Paths.Later(p))
              && (Tells(t, k, n, v, x, y, p) <==> Tells(t.rest, k, n, v.rest, x, y, Paths.Later(p)))
  {
    hide Agree;
  }

  lemma NoneParts(t: Type, k: nat, n: nat, v: Value, x: nat, y: nat)
    requires Paths.Proper(t) && Has(t, v) && Sound(t, k, n) && x < n && y < n && NoneTells(t, k, n, v, x, y)
    ensures t.Array? && t.index != Some(k) ==> forall i :: 0 <= i < t.count ==> NoneTells(t.element, k, n, v.es[i], x, y)
    ensures t.Field? ==> NoneTells(t.first, k, n, v.first, x, y) && NoneTells(t.rest, k, n, v.rest, x, y)
  {
    hide Site, Tells;
    if t.Array? && t.index != Some(k) {
      forall i | 0 <= i < t.count ensures NoneTells(t.element, k, n, v.es[i], x, y) {
        forall q | Site(t.element, k, q) ensures !Tells(t.element, k, n, v.es[i], x, y, q) {
          SiteInElement(t, k, n, v, x, y, i, q);
        }
      }
    } else if t.Field? {
      forall q | Site(t.first, k, q) ensures !Tells(t.first, k, n, v.first, x, y, q) { SiteInFirst(t, k, n, v, x, y, q); }
      forall q | Site(t.rest, k, q) ensures !Tells(t.rest, k, n, v.rest, x, y, q) { SiteInRest(t, k, n, v, x, y, q); }
    }
  }

  lemma NoneWhole(t: Type, k: nat, n: nat, v: Value, x: nat, y: nat)
    requires Has(t, v) && Sound(t, k, n) && x < n && y < n
    requires Site(t, k, []) ==> !Tells(t, k, n, v, x, y, [])
    requires t.Array? && t.index != Some(k) ==> forall i :: 0 <= i < t.count ==> NoneTells(t.element, k, n, v.es[i], x, y)
    requires t.Field? ==> NoneTells(t.first, k, n, v.first, x, y) && NoneTells(t.rest, k, n, v.rest, x, y)
    ensures NoneTells(t, k, n, v, x, y)
  {
    hide Site, Tells;
    forall p: Path | Site(t, k, p) ensures !Tells(t, k, n, v, x, y, p) {
      if p != [] {
        SiteParts(t, k, n, v, x, y, p);
        if t.Array? {
          assert NoneTells(t.element, k, n, v.es[p[0].i], x, y);
        }
      }
    }
  }

  // What is decided at the component itself.
  lemma HereDecides(t: Type, k: nat, n: nat, v: Value, x: nat, y: nat)
    requires Paths.Proper(t) && Has(t, v) && Sound(t, k, n) && x < n && y < n
    ensures Site(t, k, []) <==> (t.Simple? && t.scalarset == Some(k)) || (t.Array? && t.index == Some(k))
    ensures Site(t, k, []) ==> (Compare(t, k, n, v, x, y) == 0 <==> !Tells(t, k, n, v, x, y, []))
  {
    if t.Array? && t.index == Some(k) { EqualElements(t.element, k, v.es[x], v.es[y]); }
  }

  lemma {:induction false} FromZero(t: Type, k: nat, n: nat, v: Value, x: nat, y: nat, i: nat)
    requires t.Array? && Has(t, v) && Sound(t, k, n) && x < n && y < n && i <= t.count
    ensures CompareFrom(t, k, n, v, x, y, i) == 0 <==> forall j :: i <= j < t.count ==> Compare(t.element, k, n, v.es[j], x, y) == 0
    decreases t.count - i
  {
    hide Compare, Has, Sound;
    PartsSound(t, k, n, v);
    if i < t.count { FromZero(t, k, n, v, x, y, i + 1); }
  }

  lemma {:induction false} FromFirst(t: Type, k: nat, n: nat, v: Value, x: nat, y: nat, i: nat, j: nat)
    requires t.Array? && Has(t, v) && Sound(t, k, n) && x < n && y < n && i <= j < t.count
    requires forall l :: i <= l < j ==> Compare(t.element, k, n, v.es[l], x, y) == 0
    requires Compare(t.element, k, n, v.es[j], x, y) != 0
    ensures CompareFrom(t, k, n, v, x, y, i) == Compare(t.element, k, n, v.es[j], x, y)
    decreases j - i
  {
    hide Compare, Has, Sound;
    PartsSound(t, k, n, v);
    if i < j { FromFirst(t, k, n, v, x, y, i + 1, j); }
  }

  lemma PartsSound(t: Type, k: nat, n: nat, v: Value)
    requires Has(t, v) && Sound(t, k, n)
    ensures t.Array? ==> Sound(t.element, k, n) && v.Elements? && |v.es| == t.count && forall i :: 0 <= i < t.count ==> Has(t.element, v.es[i])
    ensures t.Field? ==> v.Fields? && Has(t.first, v.first) && Has(t.rest, v.rest) && Sound(t.first, k, n) && Sound(t.rest, k, n)
  {
  }

  /** Two elements of a scalarset compare equal if and only if no site tells them apart. */
  lemma {:induction false} EqualCompared(t: Type, k: nat, n: nat, v: Value, x: nat, y: nat)
    requires Paths.Proper(t) && Has(t, v) && Sound(t, k, n) && x < n && y < n
    ensures Compare(t, k, n, v, x, y) == 0 <==> NoneTells(t, k, n, v, x, y)
    decreases t
  {
    hide Site, Tells, NoneTells, Has, Sound;
    PartsSound(t, k, n, v);
    HereDecides(t, k, n, v, x, y);
    match t {
      case Array(index, m, e) =>
        if index != Some(k) {
          forall i | 0 <= i < m ensures Compare(e, k, n, v.es[i], x, y) == 0 <==> NoneTells(e, k, n, v.es[i], x, y) {
            EqualCompared(e, k, n, v.es[i], x, y);
          }
          FromZero(t, k, n, v, x, y, 0);
        }
      case Field(f, r) =>
        EqualCompared(f, k, n, v.first, x, y);
        EqualCompared(r, k, n, v.rest, x, y);
      case _ =>
    }
    if NoneTells(t, k, n, v, x, y) {
      NoneParts(t, k, n, v, x, y);
      NoneSays(t, k, n, v, x, y);
    }
    if Compare(t, k, n, v, x, y) == 0 { NoneWhole(t, k, n, v, x, y); }
  }

  lemma NoneSays(t: Type, k: nat, n: nat, v: Value, x: nat, y: nat)
    requires Has(t, v) && Sound(t, k, n) && x < n && y < n && NoneTells(t, k, n, v, x, y)
    ensures Site(t, k, []) ==> !Tells(t, k, n, v, x, y, [])
  {
  }

  lemma FirstTellsInElement(t: Type, k: nat, n: nat, v: Value, x: nat, y: nat, p: Path)
    requires t.Array? && p != [] && Has(t, v) && Sound(t, k, n) && x < n && y < n && FirstTells(t, k, n, v, x, y, p)
    ensures p[0].i < t.count && t.index != Some(k)
    ensures FirstTells(t.element, k, n, v.es[p[0].i], x, y, p[1..])
    ensures forall j :: 0 <= j < p[0].i ==> NoneTells(t.element, k, n, v.es[j], x, y)
  {
    hide Site, Tells;
    SiteParts(t, k, n, v, x, y, p);
    var e, i := t.element, p[0].i;
    forall q | Site(e, k, q) && Paths.Earlier(q, p[1..]) ensures !Tells(e, k, n, v.es[i], x, y, q) {
      SiteInElement(t, k, n, v, x, y, i, q);
      assert Paths.Earlier([Paths.Index(i)] + q, p);
    }
    forall j | 0 <= j < i ensures NoneTells(e, k, n, v.es[j], x, y) {
      forall q | Site(e, k, q) ensures !Tells(e, k, n, v.es[j], x, y, q) {
        SiteInElement(t, k, n, v, x, y, j, q);
        assert Paths.Earlier([Paths.Index(j)] + q, p);
      }
    }
  }

  lemma FirstTellsInField(t: Type, k: nat, n: nat, v: Value, x: nat, y: nat, p: Path)
    requires Paths.Proper(t) && t.Field? && p != [] && p[0].Member?
    requires Has(t, v) && Sound(t, k, n) && x < n && y < n && FirstTells(t, k, n, v, x, y, p)
    ensures p[0].i == 0 ==> FirstTells(t.first, k, n, v.first, x, y, p[1..])
    ensures p[0].i > 0 ==> NoneTells(t.first, k, n, v.first, x, y) && FirstTells(t.rest, k, n, v.rest, x, y, Paths.Later(p))
  {
    hide Site, Tells, Paths.Proper;
    SiteParts(t, k, n, v, x, y, p);
    if p[0].i == 0 {
      forall q | Site(t.first, k, q) && Paths.Earlier(q, p[1..]) ensures !Tells(t.first, k, n, v.first, x, y, q) {
        SiteInFirst(t, k, n, v, x, y, q);
        assert Paths.Earlier([Paths.Member(0)] + q, p);
      }
    } else {
      forall q | Site(t.first, k, q) ensures !Tells(t.first, k, n, v.first, x, y, q) {
        SiteInFirst(t, k, n, v, x, y, q);
        assert Paths.Earlier([Paths.Member(0)] + q, p);
      }
      forall q | Site(t.rest, k, q) && Paths.Earlier(q, Paths.Later(p)) ensures !Tells(t.rest, k, n, v.rest, x, y, q) {
        SiteInRest(t, k, n, v, x, y, q);
        SkipEarlier(q, p);
      }
    }
  }

  /** Otherwise the first site that tells them apart decides: a component by naming x,
      which then comes first, or y; an array by what it has at x and at y. */
  ghost predicate DecidedAt(t: Type, k: nat, n: nat, v: Value, x: nat, y: nat, p: Path, c: int)
    requires Has(t, v) && Sound(t, k, n) && x < n && y < n && Site(t, k, p)
  {
    SoundAt(t, k, n, p);
    var u, w := Paths.At(t, p), Paths.ValueAt(t, v, p);
    if u.Simple? then c == (if w.n == x + 1 then -1 else 1)
    else c != 0 && forall q :: FirstDifference(u.element, k, w.es[x], w.es[y], q) ==>
           c == if Paths.NumberAt(u.element, w.es[x], q) < Paths.NumberAt(u.element, w.es[y], q) then -1 else 1
  }

  lemma DecidedHere(t: Type, k: nat, n: nat, v: Value, x: nat, y: nat)
    requires Paths.Proper(t) && Has(t, v) && Sound(t, k, n) && x < n && y < n
    requires Site(t, k, []) && Tells(t, k, n, v, x, y, [])
    ensures DecidedAt(t, k, n, v, x, y, [], Compare(t, k, n, v, x, y))
  {
    hide Agree;
    if t.Array? {
      var a, b := v.es[x], v.es[y];
      EqualElements(t.element, k, a, b);
      forall q | FirstDifference(t.element, k, a, b, q)
        ensures CompareElements(t.element, k, a, b) == if Paths.NumberAt(t.element, a, q) < Paths.NumberAt(t.element, b, q) then -1 else 1
      {
        FirstDecides(t.element, k, a, b, q);
      }
    }
  }

  lemma DecidedPart(t: Type, k: nat, n: nat, v: Value, x: nat, y: nat, p: Path, c: int)
    requires Has(t, v) && Sound(t, k, n) && x < n && y < n && Site(t, k, p) && p != []
    requires t.Array? ==> p[0].i < t.count && Site(t.element, k, p[1..]) && DecidedAt(t.element, k, n, v.es[p[0].i], x, y, p[1..], c)
    requires t.Field? && p[0].i == 0 ==> Site(t.first, k, p[1..]) && DecidedAt(t.first, k, n, v.first, x, y, p[1..], c)
    requires t.Field? && p[0].i > 0 ==>
               p[0].Member? && Site(t.rest, k, Paths.Later(p)) && DecidedAt(t.rest, k, n, v.rest, x, y, Paths.Later(p), c)
    ensures DecidedAt(t, k, n, v, x, y, p, c)
  {
    hide FirstDifference;
  }

  lemma {:induction false} SiteDecides(t: Type, k: nat, n: nat, v: Value, x: nat, y: nat, p: Path)
    requires Paths.Proper(t) && Has(t, v) && Sound(t, k, n) && x < n && y < n && FirstTells(t, k, n, v, x, y, p)
    ensures Compare(t, k, n, v, x, y) != 0 && Site(t, k, p) && DecidedAt(t, k, n, v, x, y, p, Compare(t, k, n, v, x, y))
    decreases t
  {
    hide Site, Tells, NoneTells, FirstTells, DecidedAt, Has, Sound;
    PartsSound(t, k, n, v);
    FirstTellsSays(t, k, n, v, x, y, p);
    SiteParts(t, k, n, v, x, y, p);
    if p == [] {
      HereDecides(t, k, n, v, x, y);
      DecidedHere(t, k, n, v, x, y);
    } else if t.Array? {
      FirstTellsInElement(t, k, n, v, x, y, p);
      var e, i := t.element, p[0].i;
      SiteDecides(e, k, n, v.es[i], x, y, p[1..]);
      forall j | 0 <= j < i ensures Compare(e, k, n, v.es[j], x, y) == 0 { EqualCompared(e, k, n, v.es[j], x, y); }
      FromFirst(t, k, n, v, x, y, 0, i);
      DecidedPart(t, k, n, v, x, y, p, Compare(t, k, n, v, x, y));
    } else {
      FirstTellsInField(t, k, n, v, x, y, p);
      if p[0].i == 0 {
        SiteDecides(t.first, k, n, v.first, x, y, p[1..]);
      } else {
        EqualCompared(t.first, k, n, v.first, x, y);
        SiteDecides(t.rest, k, n, v.rest, x, y, Paths.Later(p));
      }
      DecidedPart(t, k, n, v, x, y, p, Compare(t, k, n, v, x, y));
    }
  }

  lemma FirstTellsSays(t: Type, k: nat, n: nat, v: Value, x: nat, y: nat, p: Path)
    requires Has(t, v) && Sound(t, k, n) && x < n && y < n && FirstTells(t, k, n, v, x, y, p)
    ensures Site(t, k, p) && Tells(t, k, n, v, x, y, p)
    ensures p != [] && t.Field? ==> p[0].Member?
  {
  }

  // ----- elements that compare equal can change places -----

  /** Nothing in a component refers to scalarset k. */
  predicate NothingOf(t: Type, k: nat)
  {
    match t
    case Simple(_, id) => id != Some(k)
    case Array(index, _, e) => index != Some(k) && NothingOf(e, k)
    case Field(f, r) => NothingOf(f, k) && NothingOf(r, k)
    case Done => true
  }

  /** Arrays that scalarset k indexes hold nothing that refers to k. */
  predicate Plain(t: Type, k: nat)
  {
    match t
    case Simple(_, _) => true
    case Array(index, _, e) => if index == Some(k) then NothingOf(e, k) else Plain(e, k)
    case Field(f, r) => Plain(f, k) && Plain(r, k)
    case Done => true
  }

  lemma {:induction false} NothingEqual(t: Type, k: nat, a: Value, b: Value)
    requires NothingOf(t, k) && Has(t, a) && Has(t, b) && CompareElements(t, k, a, b) == 0
    ensures a == b
    decreases t
  {
    hide Has;
    HasParts(t, a);
    HasParts(t, b);
    match t {
      case Simple(_, _) =>
      case Array(_, m, e) =>
        RowsZero(t, k, a, b, 0);
        forall i | 0 <= i < m ensures a.es[i] == b.es[i] { NothingEqual(e, k, a.es[i], b.es[i]); }
        assert a.es == b.es;
      case Field(f, r) =>
        NothingEqual(f, k, a.first, b.first);
        NothingEqual(r, k, a.rest, b.rest);
      case Done => NothingHere(a, b);
    }
  }

  lemma NothingHere(a: Value, b: Value)
    requires Has(Done, a) && Has(Done, b)
    ensures a == b
  {
  }

  lemma {:induction false} NothingMoves(t: Type, k: nat, p: seq<nat>, a: Value)
    requires NothingOf(t, k) && IsPerm(p) && Sound(t, k, |p|) && Has(t, a)
    ensures Act(t, k, p, a) == a
    decreases t
  {
    hide IsPerm, ActNumber;
    match t {
      case Array(_, m, e) =>
        forall i | 0 <= i < m ensures Act(t, k, p, a).es[i] == a.es[i] { NothingMoves(e, k, p, a.es[i]); }
        assert Act(t, k, p, a).es == a.es;
      case Field(f, r) =>
        NothingMoves(f, k, p, a.first);
        NothingMoves(r, k, p, a.rest);
      case _ =>
    }
  }

  lemma NamesNeither(n: nat, x: nat, y: nat, v: nat)
    requires x < n && y < n && v != x + 1 && v != y + 1
    ensures ActNumber(Transposition(n, x, y), v) == v
  {
    var p := Transposition(n, x, y);
    if 1 <= v <= n {
      TranspositionAt(n, x, y, v - 1);
      WhereAt(p, v - 1);
    }
  }

  // Elements that no site tells apart change places without a trace.
  lemma {:induction false} EqualSwaps(t: Type, k: nat, n: nat, v: Value, x: nat, y: nat)
    requires Plain(t, k) && Has(t, v) && Sound(t, k, n) && x < n && y < n && Compare(t, k, n, v, x, y) == 0
    ensures Act(t, k, Transposition(n, x, y), v) == v
    decreases t
  {
    hide ActNumber, Transposition, IsPerm, Has;
    PartsSound(t, k, n, v);
    HasParts(t, v);
    var p := Transposition(n, x, y);
    match t {
      case Simple(_, id) => if id == Some(k) { NamesNeither(n, x, y, v.n); }
      case Array(index, m, e) =>
        if index == Some(k) {
          SwapsElements(t, k, n, v, x, y);
        } else {
          FromZero(t, k, n, v, x, y, 0);
          forall i | 0 <= i < m ensures Act(t, k, p, v).es[i] == v.es[i] { EqualSwaps(e, k, n, v.es[i], x, y); }
          assert Act(t, k, p, v).es == v.es;
        }
      case Field(f, r) =>
        EqualSwaps(f, k, n, v.first, x, y);
        EqualSwaps(r, k, n, v.rest, x, y);
      case Done => NothingHere(Act(t, k, p, v), v);
    }
  }

  lemma SwapsElements(t: Type, k: nat, n: nat, v: Value, x: nat, y: nat)
    requires t.Array? && t.index == Some(k) && NothingOf(t.element, k) && Has(t, v) && Sound(t, k, n) && x < n && y < n
    requires CompareElements(t.element, k, v.es[x], v.es[y]) == 0
    ensures Act(t, k, Transposition(n, x, y), v) == v
  {
    hide Transposition, IsPerm, CompareElements, NothingOf;
    var p := Transposition(n, x, y);
    NothingEqual(t.element, k, v.es[x], v.es[y]);
    forall i | 0 <= i < t.count ensures Act(t, k, p, v).es[i] == v.es[i] {
      TranspositionAt(n, x, y, i);
      NothingMoves(t.element, k, p, v.es[p[i]]);
    }
    assert Act(t, k, p, v).es == v.es;
  }

  /** Two elements compare equal exactly when exchanging them changes nothing, where no
      array that the scalarset indexes refers to the scalarset again; the comparison is
      never unequal when exchanging them changes nothing, anywhere. */
  lemma Interchange(t: Type, k: nat, n: nat, v: Value, x: nat, y: nat)
    requires Has(t, v) && Sound(t, k, n) && x < n && y < n && x != y
    ensures Act(t, k, Transposition(n, x, y), v) == v ==> Compare(t, k, n, v, x, y) == 0
    ensures Plain(t, k) && Compare(t, k, n, v, x, y) == 0 ==> Act(t, k, Transposition(n, x, y), v) == v
  {
    hide Act, Transposition, IsPerm, Compare, Has, Sound;
    var p := Transposition(n, x, y);
    if Act(t, k, p, v) == v {
      TranspositionAt(n, x, y, x);
      KeyAct(t, k, p, v, x);
      CompareIsLex(t, k, n, v, x, y);
      var key := KeyOf(t, k, n, v, x);
      LexOrder(key, key, key);
    }
    if Plain(t, k) && Compare(t, k, n, v, x, y) == 0 { EqualSwaps(t, k, n, v, x, y); }
  }
}
