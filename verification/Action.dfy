/** How a permutation of a scalarset acts on the meaning of a state. */
module Action {
  import opened Options
  import opened BitNumbers
  import opened Permutations
  import opened Types

  /** Where x is in p. */
  ghost function Where(p: seq<nat>, x: nat): (j: nat)
    requires x in p
    ensures j < |p| && p[j] == x
  {
    var j :| 0 <= j < |p| && p[j] == x;
    j
  }

  lemma Present(p: seq<nat>, x: nat)
    requires IsPerm(p) && x < |p|
    ensures x in p
  {
    SmallSet(p, |p|);
  }

  lemma WhereAt(p: seq<nat>, j: nat)
    requires IsPerm(p) && j < |p|
    ensures Where(p, p[j]) == j
  {
  }

  /** Row p after its places have been rearranged by q. */
  function Compose(p: seq<nat>, q: seq<nat>): (r: seq<nat>)
    requires IsPerm(p) && IsPerm(q) && |p| == |q|
    ensures |r| == |p| && IsPerm(r)
  {
    seq(|p|, j requires 0 <= j < |p| => p[q[j]])
  }

  lemma WhereCompose(p: seq<nat>, q: seq<nat>, x: nat)
    requires IsPerm(p) && IsPerm(q) && |p| == |q| && x < |p|
    ensures x in p && Where(p, x) in q && x in Compose(p, q)
    ensures Where(q, Where(p, x)) == Where(Compose(p, q), x)
  {
    Present(p, x);
    Present(q, Where(p, x));
    Present(Compose(p, q), x);
    WhereAt(Compose(p, q), Where(q, Where(p, x)));
  }

  ghost function Inverse(p: seq<nat>): (q: seq<nat>)
    requires IsPerm(p)
    ensures |q| == |p| && IsPerm(q)
    ensures forall j :: 0 <= j < |p| ==> q[p[j]] == j && p[q[j]] == j
  {
    assert forall x :: 0 <= x < |p| ==> x in p by { SmallSet(p, |p|); }
    seq(|p|, x requires 0 <= x < |p| => Where(p, x))
  }

  lemma InverseCompose(p: seq<nat>)
    requires IsPerm(p)
    ensures Compose(p, Inverse(p)) == Identity(|p|) && Compose(Inverse(p), p) == Identity(|p|)
  {
  }

  lemma IdentityCompose(p: seq<nat>)
    requires IsPerm(p)
    ensures Compose(p, Identity(|p|)) == p && Compose(Identity(|p|), p) == p
  {
  }

  lemma ComposeAssociative(p: seq<nat>, q: seq<nat>, r: seq<nat>)
    requires IsPerm(p) && IsPerm(q) && IsPerm(r) && |p| == |q| == |r|
    ensures Compose(Compose(p, q), r) == Compose(p, Compose(q, r))
  {
  }

  /** Components of scalarset k can hold its n values, numbered from 1, and arrays
      indexed by it have n elements. */
  predicate Sound(t: Type, k: nat, n: nat)
  {
    match t
    case Simple(w, id) => id == Some(k) ==> n < Power(w)
    case Array(i, m, e) => (i == Some(k) ==> m == n) && Sound(e, k, n)
    case Field(f, r) => Sound(f, k, n) && Sound(r, k, n)
    case Done => true
  }

  ghost function ActNumber(p: seq<nat>, x: nat): nat
    requires IsPerm(p)
  {
    if 1 <= x <= |p| then Present(p, x - 1); Where(p, x - 1) + 1 else x
  }

  // Where an array takes its element j from.
  function From(index: Option<nat>, k: nat, p: seq<nat>, j: nat): nat
  {
    if index == Some(k) && j < |p| then p[j] else j
  }

  /** Scalarset k rearranged by p: element j of an array it indexes is what element
      p[j] was, and components that named element x name its new place. A component
      that is undefined, which is 0, stays so. */
  ghost function Act(t: Type, k: nat, p: seq<nat>, v: Value): (r: Value)
    requires IsPerm(p) && Sound(t, k, |p|) && Has(t, v)
    ensures Has(t, r)
  {
    match t
    case Simple(_, id) => if id == Some(k) then Number(ActNumber(p, v.n)) else v
    case Array(i, m, e) =>
      Elements(seq(m, j requires 0 <= j < m => Act(e, k, p, v.es[From(i, k, p, j)])))
    case Field(f, r) => Fields(Act(f, k, p, v.first), Act(r, k, p, v.rest))
    case Done => Nothing
  }

  lemma ActNumberCompose(p: seq<nat>, q: seq<nat>, x: nat)
    requires IsPerm(p) && IsPerm(q) && |p| == |q|
    ensures ActNumber(q, ActNumber(p, x)) == ActNumber(Compose(p, q), x)
  {
    if 1 <= x <= |p| { WhereCompose(p, q, x - 1); }
  }

  /** Acting twice is acting once by the composition. */
  lemma {:induction false} ActCompose(t: Type, k: nat, p: seq<nat>, q: seq<nat>, v: Value)
    requires IsPerm(p) && IsPerm(q) && |p| == |q| && Sound(t, k, |p|) && Has(t, v)
    ensures Act(t, k, q, Act(t, k, p, v)) == Act(t, k, Compose(p, q), v)
    decreases t, 1
  {
    hide IsPerm, Where, ActNumber, Compose;
    match t {
      case Simple(_, id) => if id == Some(k) { ActNumberCompose(p, q, v.n); }
      case Array(i, m, e) =>
        forall j | 0 <= j < m
          ensures Act(t, k, q, Act(t, k, p, v)).es[j] == Act(t, k, Compose(p, q), v).es[j]
        {
          ActComposeElement(t, k, p, q, v, j);
        }
        assert Act(t, k, q, Act(t, k, p, v)).es == Act(t, k, Compose(p, q), v).es;
      case Field(f, r) =>
        ActCompose(f, k, p, q, v.first);
        ActCompose(r, k, p, q, v.rest);
      case Done =>
    }
  }

  lemma {:induction false} ActComposeElement(t: Type, k: nat, p: seq<nat>, q: seq<nat>, v: Value, j: nat)
    requires IsPerm(p) && IsPerm(q) && |p| == |q| && Sound(t, k, |p|) && Has(t, v)
    requires t.Array? && j < t.count
    ensures Act(t, k, q, Act(t, k, p, v)).es[j] == Act(t, k, Compose(p, q), v).es[j]
    decreases t, 0
  {
    var e := t.element;
    if t.index == Some(k) {
      ActCompose(e, k, p, q, v.es[p[q[j]]]);
    } else {
      ActCompose(e, k, p, q, v.es[j]);
    }
  }

  lemma {:induction false} ActIdentity(t: Type, k: nat, n: nat, v: Value)
    requires Sound(t, k, n) && Has(t, v)
    ensures Act(t, k, Identity(n), v) == v
  {
    match t {
      case Simple(_, id) => if id == Some(k) && 1 <= v.n <= n { WhereAt(Identity(n), v.n - 1); }
      case Array(i, m, e) =>
        forall j | 0 <= j < m ensures Act(t, k, Identity(n), v).es[j] == v.es[j] { ActIdentity(e, k, n, v.es[j]); }
        assert Act(t, k, Identity(n), v).es == v.es;
      case Field(f, r) =>
        ActIdentity(f, k, n, v.first);
        ActIdentity(r, k, n, v.rest);
      case Done =>
    }
  }

  /** Different scalarsets do not interfere. */
  lemma {:induction false} ActCommute(t: Type, k: nat, p: seq<nat>, l: nat, q: seq<nat>, v: Value)
    requires k != l && IsPerm(p) && IsPerm(q) && Sound(t, k, |p|) && Sound(t, l, |q|) && Has(t, v)
    ensures Act(t, k, p, Act(t, l, q, v)) == Act(t, l, q, Act(t, k, p, v))
    decreases t, 1
  {
    hide IsPerm, ActNumber;
    match t {
      case Simple(_, id) =>
      case Array(i, m, e) =>
        forall j | 0 <= j < m
          ensures Act(t, k, p, Act(t, l, q, v)).es[j] == Act(t, l, q, Act(t, k, p, v)).es[j]
        {
          ActCommuteElement(t, k, p, l, q, v, j);
        }
        assert Act(t, k, p, Act(t, l, q, v)).es == Act(t, l, q, Act(t, k, p, v)).es;
      case Field(f, r) =>
        ActCommute(f, k, p, l, q, v.first);
        ActCommute(r, k, p, l, q, v.rest);
      case Done =>
    }
  }

  lemma {:induction false} ActCommuteElement(t: Type, k: nat, p: seq<nat>, l: nat, q: seq<nat>, v: Value, j: nat)
    requires k != l && IsPerm(p) && IsPerm(q) && Sound(t, k, |p|) && Sound(t, l, |q|) && Has(t, v)
    requires t.Array? && j < t.count
    ensures Act(t, k, p, Act(t, l, q, v)).es[j] == Act(t, l, q, Act(t, k, p, v)).es[j]
    decreases t, 0
  {
    var e := t.element;
    var i := if t.index == Some(k) then p[j] else if t.index == Some(l) then q[j] else j;
    ActCommute(e, k, p, l, q, v.es[i]);
  }

  lemma ActInverse(t: Type, k: nat, p: seq<nat>, v: Value)
    requires IsPerm(p) && Sound(t, k, |p|) && Has(t, v)
    ensures Act(t, k, Inverse(p), Act(t, k, p, v)) == v && Act(t, k, p, Act(t, k, Inverse(p), v)) == v
  {
    hide IsPerm, Act, Compose, Inverse;
    InverseCompose(p);
    ActCompose(t, k, p, Inverse(p), v);
    ActCompose(t, k, Inverse(p), p, v);
    ActIdentity(t, k, |p|, v);
  }
}
