/** The states that differ only by rearranging scalarsets, and the schedules that
    record how a stored state was rearranged. */
module Orbits {
  import opened BitNumbers
  import opened Permutations
  import opened Types
  import opened Action
  import opened Swapping

  /** The type of the whole state, and how many elements each scalarset has. */
  datatype Model = Model(t: Type, bounds: seq<nat>)

  predicate ModelOk(m: Model)
  {
    Narrow(m.t) && forall k :: 0 <= k < |m.bounds| ==> m.bounds[k] > 0 && Sound(m.t, k, m.bounds[k])
  }

  predicate PermOf(m: Model, k: nat, p: seq<nat>)
  {
    k < |m.bounds| && IsPerm(p) && |p| == m.bounds[k]
  }

  /** w is v with scalarsets i, i + 1, .. rearranged. */
  ghost predicate Orbit(m: Model, i: nat, v: Value, w: Value)
    requires ModelOk(m) && i <= |m.bounds| && Has(m.t, v) && Has(m.t, w)
    decreases |m.bounds| - i
  {
    if i == |m.bounds| then w == v
    else exists p :: PermOf(m, i, p) && Orbit(m, i + 1, Act(m.t, i, p, v), w)
  }

  lemma OrbitIntro(m: Model, i: nat, p: seq<nat>, v: Value, w: Value)
    requires ModelOk(m) && i < |m.bounds| && Has(m.t, v) && Has(m.t, w)
    requires PermOf(m, i, p) && Orbit(m, i + 1, Act(m.t, i, p, v), w)
    ensures Orbit(m, i, v, w)
  {
  }

  lemma OrbitElim(m: Model, i: nat, v: Value, w: Value) returns (p: seq<nat>)
    requires ModelOk(m) && i < |m.bounds| && Has(m.t, v) && Has(m.t, w) && Orbit(m, i, v, w)
    ensures PermOf(m, i, p) && Orbit(m, i + 1, Act(m.t, i, p, v), w)
  {
    p :| PermOf(m, i, p) && Orbit(m, i + 1, Act(m.t, i, p, v), w);
  }

  /** Rearranging an earlier scalarset in both states changes nothing. */
  lemma {:induction false} OrbitAct(m: Model, i: nat, k: nat, p: seq<nat>, v: Value, w: Value)
    requires ModelOk(m) && k < i <= |m.bounds| && Has(m.t, v) && Has(m.t, w) && PermOf(m, k, p)
    requires Orbit(m, i, v, w)
    ensures Orbit(m, i, Act(m.t, k, p, v), Act(m.t, k, p, w))
    decreases |m.bounds| - i
  {
    hide Act, IsPerm;
    if i < |m.bounds| {
      var q := OrbitElim(m, i, v, w);
      OrbitAct(m, i + 1, k, p, Act(m.t, i, q, v), w);
      ActCommute(m.t, k, p, i, q, v);
      OrbitIntro(m, i, q, Act(m.t, k, p, v), Act(m.t, k, p, w));
    }
  }

  lemma {:induction false} OrbitReflexive(m: Model, i: nat, v: Value)
    requires ModelOk(m) && i <= |m.bounds| && Has(m.t, v)
    ensures Orbit(m, i, v, v)
    decreases |m.bounds| - i
  {
    hide Act;
    if i < |m.bounds| {
      var p := Identity(m.bounds[i]);
      ActIdentity(m.t, i, |p|, v);
      OrbitReflexive(m, i + 1, v);
      OrbitIntro(m, i, p, v, v);
    }
  }

  lemma {:induction false} OrbitTransitive(m: Model, i: nat, v: Value, w: Value, u: Value)
    requires ModelOk(m) && i <= |m.bounds| && Has(m.t, v) && Has(m.t, w) && Has(m.t, u)
    requires Orbit(m, i, v, w) && Orbit(m, i, w, u)
    ensures Orbit(m, i, v, u)
    decreases |m.bounds| - i
  {
    hide Act, IsPerm, Compose;
    if i < |m.bounds| {
      var p := OrbitElim(m, i, v, w);
      var q := OrbitElim(m, i, w, u);
      var v1 := Act(m.t, i, p, v);
      OrbitAct(m, i + 1, i, q, v1, w);
      OrbitTransitive(m, i + 1, Act(m.t, i, q, v1), Act(m.t, i, q, w), u);
      ActCompose(m.t, i, p, q, v);
      OrbitIntro(m, i, Compose(p, q), v, u);
    }
  }

  lemma {:induction false} OrbitSymmetric(m: Model, i: nat, v: Value, w: Value)
    requires ModelOk(m) && i <= |m.bounds| && Has(m.t, v) && Has(m.t, w) && Orbit(m, i, v, w)
    ensures Orbit(m, i, w, v)
    decreases |m.bounds| - i
  {
    hide Act, IsPerm, Inverse;
    if i < |m.bounds| {
      var p := OrbitElim(m, i, v, w);
      var v1 := Act(m.t, i, p, v);
      OrbitSymmetric(m, i + 1, v1, w);
      OrbitAct(m, i + 1, i, Inverse(p), w, v1);
      ActInverse(m.t, i, p, v);
      OrbitIntro(m, i, Inverse(p), w, v);
    }
  }

  // One rearrangement stays in the orbit.
  lemma OrbitOne(m: Model, i: nat, p: seq<nat>, v: Value)
    requires ModelOk(m) && i < |m.bounds| && Has(m.t, v) && PermOf(m, i, p)
    ensures Orbit(m, i, v, Act(m.t, i, p, v))
  {
    hide Act, IsPerm;
    OrbitReflexive(m, i + 1, Act(m.t, i, p, v));
    OrbitIntro(m, i, p, v, Act(m.t, i, p, v));
  }

  // An orbit over fewer scalarsets is part of one over more.
  lemma {:induction false} OrbitMore(m: Model, i: nat, j: nat, v: Value, w: Value)
    requires ModelOk(m) && i <= j <= |m.bounds| && Has(m.t, v) && Has(m.t, w) && Orbit(m, j, v, w)
    ensures Orbit(m, i, v, w)
    decreases j - i
  {
    hide Act;
    if i < j {
      OrbitMore(m, i + 1, j, v, w);
      ActIdentity(m.t, i, m.bounds[i], v);
      OrbitIntro(m, i, Identity(m.bounds[i]), v, w);
    }
  }

  // ----- schedules -----

  /** One permutation for each scalarset. */
  predicate Schedules(m: Model, ps: seq<seq<nat>>)
  {
    |ps| == |m.bounds| && forall k :: 0 <= k < |ps| ==> PermOf(m, k, ps[k])
  }

  /** The state that is stored, for schedules ps, in place of state v. */
  ghost function Stored(m: Model, i: nat, ps: seq<seq<nat>>, v: Value): (r: Value)
    requires ModelOk(m) && Schedules(m, ps) && i <= |ps| && Has(m.t, v)
    ensures Has(m.t, r)
    decreases |m.bounds| - i
  {
    if i == |ps| then v else Act(m.t, i, ps[i], Stored(m, i + 1, ps, v))
  }

  /** Rearranging a scalarset of what is stored amounts to a change of its schedule. */
  lemma {:induction false} StoredAct(m: Model, i: nat, ps: seq<seq<nat>>, v: Value, k: nat, q: seq<nat>)
    requires ModelOk(m) && Schedules(m, ps) && i <= k < |ps| && Has(m.t, v) && PermOf(m, k, q)
    ensures Schedules(m, ps[k := Compose(ps[k], q)])
    ensures Act(m.t, k, q, Stored(m, i, ps, v)) == Stored(m, i, ps[k := Compose(ps[k], q)], v)
    decreases k - i
  {
    hide Act, IsPerm, Compose;
    var qs := ps[k := Compose(ps[k], q)];
    assert Schedules(m, qs);
    if i == k {
      StoredSame(m, i + 1, ps, qs, v);
      ActCompose(m.t, k, ps[k], q, Stored(m, i + 1, ps, v));
    } else {
      StoredAct(m, i + 1, ps, v, k, q);
      ActCommute(m.t, k, q, i, ps[i], Stored(m, i + 1, ps, v));
    }
  }

  lemma {:induction false} StoredSame(m: Model, i: nat, ps: seq<seq<nat>>, qs: seq<seq<nat>>, v: Value)
    requires ModelOk(m) && Schedules(m, ps) && Schedules(m, qs) && i <= |ps| && Has(m.t, v)
    requires forall k :: i <= k < |ps| ==> qs[k] == ps[k]
    ensures Stored(m, i, qs, v) == Stored(m, i, ps, v)
    decreases |m.bounds| - i
  {
    hide Act, IsPerm;
    if i < |ps| { StoredSame(m, i + 1, ps, qs, v); }
  }

  /** What is stored is in the orbit of what it stands for. */
  lemma {:induction false} StoredOrbit(m: Model, i: nat, ps: seq<seq<nat>>, v: Value)
    requires ModelOk(m) && Schedules(m, ps) && i <= |ps| && Has(m.t, v)
    ensures Orbit(m, i, v, Stored(m, i, ps, v))
    decreases |m.bounds| - i
  {
    hide Act, IsPerm, Orbit;
    if i == |ps| {
      OrbitReflexive(m, i, v);
    } else {
      var w := Stored(m, i + 1, ps, v);
      StoredOrbit(m, i + 1, ps, v);
      OrbitMore(m, i, i + 1, v, w);
      OrbitOne(m, i, ps[i], w);
      OrbitTransitive(m, i, v, w, Act(m.t, i, ps[i], w));
    }
  }
}
