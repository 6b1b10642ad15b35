/** What rearranging a scalarset does to a state, told leaf by leaf. */
module Rearranging {
  import opened Options
  import opened BitNumbers
  import opened Permutations
  import opened Types
  import Paths
  import opened Action
  import opened Traces

  type Path = Paths.Path

  /** Where the component that p leads to comes from, when scalarset k is rearranged by perm. */
  function Source(t: Type, k: nat, perm: seq<nat>, p: Path): Path
    requires Paths.Leads(t, p)
  {
    if p == [] then []
    else if t.Array? then [Paths.Index(From(t.index, k, perm, p[0].i))] + Source(t.element, k, perm, p[1..])
    else if p[0].i == 0 then [p[0]] + Source(t.first, k, perm, p[1..])
    else [p[0]] + SourceRest(Source(t.rest, k, perm, Paths.Later(p)))
  }

  function SourceRest(q: Path): Path
  {
    if q == [] then [] else q[1..]
  }

  ghost predicate ActsAt(t: Type, k: nat, perm: seq<nat>, v: Value, p: Path)
    requires Paths.Leads(t, p) && IsPerm(perm) && Sound(t, k, |perm|) && Has(t, v)
  {
    var q := Source(t, k, perm, p);
    && |q| == |p| && Paths.Leads(t, q) && Paths.At(t, q) == Paths.At(t, p) && Sound(Paths.At(t, p), k, |perm|)
    && Paths.ValueAt(t, Act(t, k, perm, v), p) == Act(Paths.At(t, p), k, perm, Paths.ValueAt(t, v, q))
  }

  lemma {:induction false} ActAt(t: Type, k: nat, perm: seq<nat>, v: Value, p: Path)
    requires Paths.Leads(t, p) && IsPerm(perm) && Sound(t, k, |perm|) && Has(t, v)
    ensures ActsAt(t, k, perm, v, p)
    decreases t
  {
    hide ActsAt, IsPerm, ActNumber;
    if p == [] {
      ActHere(t, k, perm, v);
    } else if t.Array? {
      FromInside(t, k, perm, p[0].i);
      ActAt(t.element, k, perm, v.es[From(t.index, k, perm, p[0].i)], p[1..]);
      ActElement(t, k, perm, v, p);
    } else if p[0].i == 0 {
      ActAt(t.first, k, perm, v.first, p[1..]);
      ActFirst(t, k, perm, v, p);
    } else {
      ActAt(t.rest, k, perm, v.rest, Paths.Later(p));
      ActRest(t, k, perm, v, p);
    }
  }

  lemma FromInside(t: Type, k: nat, perm: seq<nat>, i: nat)
    requires t.Array? && IsPerm(perm) && Sound(t, k, |perm|) && i < t.count
    ensures From(t.index, k, perm, i) < t.count
  {
  }

  lemma ActHere(t: Type, k: nat, perm: seq<nat>, v: Value)
    requires IsPerm(perm) && Sound(t, k, |perm|) && Has(t, v)
    ensures ActsAt(t, k, perm, v, [])
  {
    hide IsPerm, ActNumber;
  }

  lemma ActElement(t: Type, k: nat, perm: seq<nat>, v: Value, p: Path)
    requires Paths.Leads(t, p) && p != [] && t.Array? && IsPerm(perm) && Sound(t, k, |perm|) && Has(t, v)
    requires var i := From(t.index, k, perm, p[0].i); i < t.count && ActsAt(t.element, k, perm, v.es[i], p[1..])
    ensures ActsAt(t, k, perm, v, p)
  {
    hide IsPerm, ActNumber;
    var i, r := From(t.index, k, perm, p[0].i), Source(t.element, k, perm, p[1..]);
    Paths.IntoElement(t, v, i, r);
  }

  lemma ActFirst(t: Type, k: nat, perm: seq<nat>, v: Value, p: Path)
    requires Paths.Leads(t, p) && p != [] && t.Field? && p[0].i == 0 && IsPerm(perm) && Sound(t, k, |perm|) && Has(t, v)
    requires ActsAt(t.first, k, perm, v.first, p[1..])
    ensures ActsAt(t, k, perm, v, p)
  {
    hide IsPerm, ActNumber;
    Paths.IntoFirst(t, v, Source(t.first, k, perm, p[1..]));
  }

  lemma ActFields(t: Type, k: nat, perm: seq<nat>, v: Value)
    requires t.Field? && IsPerm(perm) && Sound(t, k, |perm|) && Has(t, v)
    ensures var w := Act(t, k, perm, v); w.Fields? && Has(t, w) && w.rest == Act(t.rest, k, perm, v.rest)
  {
    hide IsPerm, ActNumber;
  }

  lemma SourceSkips(t: Type, k: nat, perm: seq<nat>, p: Path)
    requires Paths.Leads(t, p) && p != [] && t.Field? && p[0].i > 0
    ensures p[0].Member? && Source(t.rest, k, perm, Paths.Later(p)) != []
    ensures Source(t.rest, k, perm, Paths.Later(p))[0] == Paths.Later(p)[0]
    ensures Source(t, k, perm, p) == Paths.Skip(Source(t.rest, k, perm, Paths.Later(p)))
  {
    SourceHead(t.rest, k, perm, Paths.Later(p));
  }

  lemma ActRest(t: Type, k: nat, perm: seq<nat>, v: Value, p: Path)
    requires Paths.Leads(t, p) && p != [] && t.Field? && p[0].i > 0 && IsPerm(perm) && Sound(t, k, |perm|) && Has(t, v)
    requires ActsAt(t.rest, k, perm, v.rest, Paths.Later(p))
    ensures ActsAt(t, k, perm, v, p)
  {
    hide IsPerm, ActNumber, Act, Source;
    var r := Source(t.rest, k, perm, Paths.Later(p));
    SourceSkips(t, k, perm, p);
    ActFields(t, k, perm, v);
    Paths.IntoRest(t, v, r);
    Paths.SkipLater(r);
    hide Paths.Skip;
  }

  lemma SourceHead(t: Type, k: nat, perm: seq<nat>, p: Path)
    requires Paths.Leads(t, p) && p != [] && p[0].Member?
    ensures Source(t, k, perm, p) != [] && Source(t, k, perm, p)[0] == p[0]
  {
  }

  /** Rearranging scalarset k by perm, leaf by leaf: what is at a leaf is what was at the
      leaf that perm puts in its place, except that a component of the scalarset which
      named element perm[j] names j. */
  lemma ActLeaf(t: Type, k: nat, perm: seq<nat>, v: Value, p: Path)
    requires Paths.IsLeaf(t, p) && IsPerm(perm) && Sound(t, k, |perm|) && Has(t, v)
    ensures var q := Source(t, k, perm, p);
            && Paths.IsLeaf(t, q)
            && var old_, new_ := Paths.NumberAt(t, v, q), Paths.NumberAt(t, Act(t, k, perm, v), p);
               if Paths.At(t, p).scalarset == Some(k) && 1 <= old_ <= |perm|
               then 1 <= new_ <= |perm| && perm[new_ - 1] == old_ - 1
               else new_ == old_
  {
    hide IsPerm, Act, Source, Paths.Leads, Paths.At, Paths.ValueAt;
    ActAt(t, k, perm, v, p);
    NumberActs(Paths.At(t, p), k, perm, Paths.ValueAt(t, v, Source(t, k, perm, p)));
  }

  lemma NumberActs(t: Type, k: nat, perm: seq<nat>, v: Value)
    requires t.Simple? && IsPerm(perm) && Sound(t, k, |perm|) && Has(t, v)
    ensures var new_ := Act(t, k, perm, v).n;
            if t.scalarset == Some(k) && 1 <= v.n <= |perm| then 1 <= new_ <= |perm| && perm[new_ - 1] == v.n - 1 else new_ == v.n
  {
    hide IsPerm;
    if 1 <= v.n <= |perm| { Present(perm, v.n - 1); }
  }

  // ----- parameters of rules -----

  /** A parameter of a rule that is an element of the scalarset is mapped as a component
      that names that element is; any other parameter stays as it is. */
  lemma ArgLikeComponent(w: nat, k: nat, perm: seq<nat>, a: Arg)
    requires IsPerm(perm) && |perm| < Power(w)
    ensures a.scalarset == Some(k) && a.n < |perm| ==>
              && ActArg(k, perm, a).n < |perm| && perm[ActArg(k, perm, a).n] == a.n
              && Act(Simple(w, Some(k)), k, perm, Number(a.n + 1)) == Number(ActArg(k, perm, a).n + 1)
    ensures !(a.scalarset == Some(k) && a.n < |perm|) ==> ActArg(k, perm, a) == a
  {
    hide IsPerm;
    if a.n < |perm| { Present(perm, a.n); }
  }
}
