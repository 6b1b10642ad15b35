/** Access paths: which component of a state is meant. */
module Paths {
  import opened Options
  import opened BitNumbers
  import opened Types

  datatype Step = Member(i: nat) | Index(i: nat)

  type Path = seq<Step>

  predicate Leads(t: Type, p: Path)
  {
    p == [] ||
    match t
    case Simple(_, _) => false
    case Array(_, n, e) => p[0].Index? && p[0].i < n && Leads(e, p[1..])
    case Field(f, r) => p[0].Member? && if p[0].i == 0 then Leads(f, p[1..]) else Leads(r, Later(p))
    case Done => false
  }

  // The same path, seen from past the first field.
  function Later(p: Path): Path
    requires p != [] && p[0].Member? && p[0].i > 0
  {
    [Member(p[0].i - 1)] + p[1..]
  }

  /** The type of the component a path leads to. */
  function At(t: Type, p: Path): Type
    requires Leads(t, p)
  {
    if p == [] then t
    else if t.Array? then At(t.element, p[1..])
    else if p[0].i == 0 then At(t.first, p[1..])
    else At(t.rest, Later(p))
  }

  predicate IsLeaf(t: Type, p: Path)
  {
    Leads(t, p) && At(t, p).Simple?
  }

  /** What that component is in a state of meaning v. */
  function ValueAt(t: Type, v: Value, p: Path): (r: Value)
    requires Leads(t, p) && Has(t, v)
    ensures Has(At(t, p), r)
  {
    if p == [] then v
    else if t.Array? then ValueAt(t.element, v.es[p[0].i], p[1..])
    else if p[0].i == 0 then ValueAt(t.first, v.first, p[1..])
    else ValueAt(t.rest, v.rest, Later(p))
  }

  /** The number at a leaf. */
  function NumberAt(t: Type, v: Value, p: Path): nat
    requires IsLeaf(t, p) && Has(t, v)
  {
    ValueAt(t, v, p).n
  }

  /** The order in which components are laid out: by the first member or index in which
      the paths differ. */
  predicate Earlier(p: Path, q: Path)
  {
    p != [] && q != [] && (p[0].i < q[0].i || (p[0].i == q[0].i && Earlier(p[1..], q[1..])))
  }

  /** Behind the first field of a record come its other fields, or nothing. */
  predicate Proper(t: Type)
  {
    match t
    case Simple(_, _) => true
    case Array(_, _, e) => Proper(e)
    case Field(f, r) => Proper(f) && Proper(r) && (r.Field? || r.Done?)
    case Done => true
  }

  // A path into the rest of a record, seen from the whole of it.
  function Skip(q: Path): Path
    requires q != [] && q[0].Member?
  {
    [Member(q[0].i + 1)] + q[1..]
  }

  // Going into an element, the first field, or the other fields.
  lemma IntoElement(t: Type, v: Value, i: nat, q: Path)
    requires t.Array? && i < t.count && Leads(t.element, q) && Has(t, v)
    ensures ([Index(i)] + q)[1..] == q && Leads(t, [Index(i)] + q)
    ensures At(t, [Index(i)] + q) == At(t.element, q) && ValueAt(t, v, [Index(i)] + q) == ValueAt(t.element, v.es[i], q)
  {
    assert ([Index(i)] + q)[1..] == q;
  }

  lemma IntoFirst(t: Type, v: Value, q: Path)
    requires t.Field? && Leads(t.first, q) && Has(t, v)
    ensures ([Member(0)] + q)[1..] == q && Leads(t, [Member(0)] + q)
    ensures At(t, [Member(0)] + q) == At(t.first, q) && ValueAt(t, v, [Member(0)] + q) == ValueAt(t.first, v.first, q)
  {
    assert ([Member(0)] + q)[1..] == q;
  }

  lemma SkipLater(q: Path)
    requires q != [] && q[0].Member?
    ensures Skip(q)[0] == Member(q[0].i + 1) && Skip(q)[1..] == q[1..] && Later(Skip(q)) == q
  {
    assert Skip(q)[1..] == q[1..];
    assert [q[0]] + q[1..] == q;
  }

  lemma IntoRest(t: Type, v: Value, q: Path)
    requires t.Field? && q != [] && q[0].Member? && Leads(t.rest, q) && Has(t, v)
    ensures Later(Skip(q)) == q && Skip(q)[1..] == q[1..] && Leads(t, Skip(q))
    ensures At(t, Skip(q)) == At(t.rest, q) && ValueAt(t, v, Skip(q)) == ValueAt(t.rest, v.rest, q)
  {
    SkipLater(q);
    hide Skip, Later;
  }
}
