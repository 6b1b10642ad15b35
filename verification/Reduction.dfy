/** The search with canonicalisation put in: every state generated is replaced by the
    one that canonicalisation makes of it. */
module Reduction {
  import opened Options
  import opened BitNumbers
  import opened Types
  import opened Action
  import opened Orbits
  import opened Traces
  import opened SymmetricSearch
  import R = Reachability
  import E = Exploration
  import X = Exhaustive

  function PickFiring(f: R.Firing, pick: Bits -> Bits): R.Firing
  {
    if f.Fired? && f.to.Some? then f.(to := Some(pick(f.to.value))) else f
  }

  /** The system that is explored: `raw` with what it generates passed through `pick`. */
  function Reduced(raw: R.System, pick: Bits -> Bits): R.System
  {
    raw.(starts := seq(|raw.starts|, i requires 0 <= i < |raw.starts| => pick(raw.starts[i])),
         fire := (s: Bits, r: nat) => PickFiring(raw.fire(s, r), pick))
  }

  /** On packed states, `raw` starts where the model starts and fires its rules. */
  ghost predicate Implements(m: Model, rules: Rules, start: Value -> bool, raw: R.System)
  {
    && (forall s :: s in raw.starts ==> Fits(m, s) && start(Decode(m.t, s)))
    && (forall v :: Has(m.t, v) && start(v) ==> Starts(m, raw, v))
    && (forall s, x :: Fits(m, s) && R.Edge(raw, s, x) ==> Fits(m, x) && Ruled(m, rules, s, x))
    && (forall s, r, args, w :: Fits(m, s) && Has(m.t, w) && rules(Decode(m.t, s), r, args, w) ==> Fires(m, raw, s, w))
  }

  ghost predicate Starts(m: Model, raw: R.System, v: Value)
  {
    exists s :: s in raw.starts && Means(m, s, v)
  }

  ghost predicate Ruled(m: Model, rules: Rules, s: R.S, x: R.S)
    requires Fits(m, s) && Fits(m, x)
  {
    exists r, args :: rules(Decode(m.t, s), r, args, Decode(m.t, x))
  }

  ghost predicate Fires(m: Model, raw: R.System, s: R.S, w: Value)
  {
    exists x :: R.Edge(raw, s, x) && Means(m, x, w)
  }

  predicate Means(m: Model, s: R.S, v: Value)
  {
    Fits(m, s) && Decode(m.t, s) == v
  }

  /** `pick` stays within the orbit, as what canonicalisation does to a state does. */
  ghost predicate Picks(m: Model, pick: Bits -> Bits)
    requires ModelOk(m)
  {
    forall b :: Fits(m, b) ==> PicksOne(m, pick, b)
  }

  ghost predicate PicksOne(m: Model, pick: Bits -> Bits, b: Bits)
    requires ModelOk(m) && Fits(m, b)
  {
    Fits(m, pick(b)) && Orbit(m, 0, Decode(m.t, b), Decode(m.t, pick(b)))
  }

  // ----- the reduced system is one that the results about orbits are about -----

  lemma ReducedLeads(raw: R.System, pick: Bits -> Bits, s: R.S, r: nat, x: R.S)
    requires R.Leads(raw, s, r, x)
    ensures R.Leads(Reduced(raw, pick), s, r, pick(x))
  {
  }

  lemma ReducedEdge(raw: R.System, pick: Bits -> Bits, s: R.S, x: R.S)
    requires R.Edge(raw, s, x)
    ensures R.Edge(Reduced(raw, pick), s, pick(x))
  {
    var r: nat :| R.Leads(raw, s, r, x);
    ReducedLeads(raw, pick, s, r, x);
  }

  lemma EdgeReduced(raw: R.System, pick: Bits -> Bits, s: R.S, y: R.S) returns (x: R.S)
    requires R.Edge(Reduced(raw, pick), s, y)
    ensures R.Edge(raw, s, x) && y == pick(x)
  {
    var r: nat :| R.Leads(Reduced(raw, pick), s, r, y);
    assert Reduced(raw, pick).fire(s, r) == PickFiring(raw.fire(s, r), pick);
    x := raw.fire(s, r).to.value;
    assert R.Leads(raw, s, r, x);
  }

  lemma StartReduced(raw: R.System, pick: Bits -> Bits, y: R.S) returns (x: R.S)
    requires y in Reduced(raw, pick).starts
    ensures x in raw.starts && y == pick(x)
  {
    var i :| 0 <= i < |raw.starts| && Reduced(raw, pick).starts[i] == y;
    x := raw.starts[i];
  }

  lemma ReducedStart(raw: R.System, pick: Bits -> Bits, x: R.S)
    requires x in raw.starts
    ensures pick(x) in Reduced(raw, pick).starts
  {
    var i :| 0 <= i < |raw.starts| && raw.starts[i] == x;
    assert Reduced(raw, pick).starts[i] == pick(x);
  }

  lemma StartsOk(m: Model, rules: Rules, start: Value -> bool, raw: R.System, pick: Bits -> Bits)
    requires ModelOk(m) && Implements(m, rules, start, raw) && Picks(m, pick)
    ensures forall s :: s in Reduced(raw, pick).starts ==> Fits(m, s) && exists v :: StartOf(m, start, v, s)
    ensures forall v :: Has(m.t, v) && start(v) ==> exists s :: s in Reduced(raw, pick).starts && StartOf(m, start, v, s)
  {
    hide Reduced, Orbit, Has, Decode, R.Edge, Ruled, Fires;
    forall s | s in Reduced(raw, pick).starts ensures Fits(m, s) && exists v :: StartOf(m, start, v, s) {
      var x := StartReduced(raw, pick, s);
      assert PicksOne(m, pick, x);
      assert StartOf(m, start, Decode(m.t, x), s);
    }
    forall v | Has(m.t, v) && start(v) ensures exists s :: s in Reduced(raw, pick).starts && StartOf(m, start, v, s) {
      assert Starts(m, raw, v);
      var x :| x in raw.starts && Means(m, x, v);
      assert PicksOne(m, pick, x);
      ReducedStart(raw, pick, x);
      assert StartOf(m, start, v, pick(x));
    }
  }

  lemma EdgesGenuine(m: Model, rules: Rules, start: Value -> bool, raw: R.System, pick: Bits -> Bits, s: R.S, y: R.S)
    requires ModelOk(m) && Implements(m, rules, start, raw) && Picks(m, pick) && Fits(m, s) && R.Edge(Reduced(raw, pick), s, y)
    ensures Fits(m, y) && exists r, args, w :: Next(m, rules, s, r, args, w, y)
  {
    hide Reduced, Orbit, Has, Decode, R.Edge;
    hide Starts, Fires;
    var x := EdgeReduced(raw, pick, s, y);
    assert PicksOne(m, pick, x) && Ruled(m, rules, s, x);
    var r, args :| rules(Decode(m.t, s), r, args, Decode(m.t, x));
    assert Next(m, rules, s, r, args, Decode(m.t, x), y);
  }

  lemma EdgesComplete(m: Model, rules: Rules, start: Value -> bool, raw: R.System, pick: Bits -> Bits, s: R.S, r: nat, args: seq<Arg>, w: Value)
    returns (y: R.S)
    requires ModelOk(m) && Implements(m, rules, start, raw) && Picks(m, pick)
    requires Fits(m, s) && Has(m.t, w) && rules(Decode(m.t, s), r, args, w)
    ensures R.Edge(Reduced(raw, pick), s, y) && Next(m, rules, s, r, args, w, y)
  {
    hide Reduced, Orbit, Has, Decode, R.Edge;
    hide Starts, Ruled;
    assert Fires(m, raw, s, w);
    var x :| R.Edge(raw, s, x) && Means(m, x, w);
    assert PicksOne(m, pick, x);
    ReducedEdge(raw, pick, s, x);
    y := pick(x);
  }

  /** Passing everything through a choice that stays within the orbit gives a system to
      which `OrbitsComplete` and `OrbitsGenuine` apply. */
  lemma ReducedExplores(m: Model, rules: Rules, start: Value -> bool, raw: R.System, pick: Bits -> Bits)
    requires ModelOk(m) && Implements(m, rules, start, raw) && Picks(m, pick)
    ensures Explores(m, rules, start, Reduced(raw, pick))
  {
    hide Reduced, Implements, Picks, StartOf, Next, R.Edge, Has, Decode;
    var sys := Reduced(raw, pick);
    StartsOk(m, rules, start, raw, pick);
    forall s, x | Fits(m, s) && R.Edge(sys, s, x) ensures Fits(m, x) && exists r, args, w :: Next(m, rules, s, r, args, w, x) {
      EdgesGenuine(m, rules, start, raw, pick, s, x);
    }
    forall s, r, args, w | Fits(m, s) && Has(m.t, w) && rules(Decode(m.t, s), r, args, w)
      ensures exists x :: R.Edge(sys, s, x) && Next(m, rules, s, r, args, w, x)
    {
      var y := EdgesComplete(m, rules, start, raw, pick, s, r, args, w);
    }
  }

  // ----- exhaustive canonicalisation -----

  /** `pick` does what exhaustive canonicalisation does. */
  ghost predicate Canonical(m: Model, pick: Bits -> Bits)
    requires ModelOk(m)
  {
    forall b :: Fits(m, b) ==> X.IsCanonical(m, b, pick(b))
  }

  lemma CanonicalPicks(m: Model, pick: Bits -> Bits)
    requires ModelOk(m) && Canonical(m, pick)
    ensures Picks(m, pick)
  {
    hide Orbit, X.Least, Decode;
    forall b | Fits(m, b) ensures PicksOne(m, pick, b) { assert X.IsCanonical(m, b, pick(b)); }
  }

  // Every state the reduced system reaches has been through `pick`.
  lemma Picked(m: Model, rules: Rules, start: Value -> bool, raw: R.System, pick: Bits -> Bits, d: nat, s: R.S) returns (x: R.S)
    requires ModelOk(m) && Implements(m, rules, start, raw) && Picks(m, pick) && R.Within(Reduced(raw, pick), d, s)
    ensures Fits(m, x) && s == pick(x)
  {
    hide Reduced, Orbit, Has, Decode, R.Edge;
    if d == 0 {
      x := StartReduced(raw, pick, s);
    } else {
      var p :| R.Within(Reduced(raw, pick), d - 1, p) && R.Edge(Reduced(raw, pick), p, s);
      var q := Picked(m, rules, start, raw, pick, d - 1, p);
      assert PicksOne(m, pick, q);
      x := EdgeReduced(raw, pick, p, s);
    }
  }

  ghost predicate InOrbit(m: Model, v: Value, s: R.S)
    requires ModelOk(m)
  {
    Fits(m, s) && Has(m.t, v) && Orbit(m, 0, v, Decode(m.t, s))
  }

  // Some state of the orbit of v is in the set.
  ghost predicate Stands(m: Model, seen: set<R.S>, v: Value)
    requires ModelOk(m)
  {
    exists s :: s in seen && InOrbit(m, v, s)
  }

  // The model can reach some state of the orbit of s.
  ghost predicate FromModel(m: Model, rules: Rules, start: Value -> bool, s: R.S)
    requires ModelOk(m)
  {
    exists d: nat, v :: RawWithin(m, rules, start, d, v) && InOrbit(m, v, s)
  }

  lemma RawHas(m: Model, rules: Rules, start: Value -> bool, d: nat, v: Value)
    requires RawWithin(m, rules, start, d, v)
    ensures Has(m.t, v)
  {
  }

  lemma SeenPicked(m: Model, rules: Rules, start: Value -> bool, raw: R.System, pick: Bits -> Bits, c: E.Config, s: R.S) returns (x: R.S)
    requires ModelOk(m) && Implements(m, rules, start, raw) && Canonical(m, pick)
    requires Finished(Reduced(raw, pick), c) && s in c.seen
    ensures Fits(m, x) && s == pick(x)
  {
    hide Implements, Canonical, Reduced, E.Inv, R.Within, Picks;
    CanonicalPicks(m, pick);
    E.SearchComplete(Reduced(raw, pick), c);
    var d: nat :| R.Within(Reduced(raw, pick), d, s);
    x := Picked(m, rules, start, raw, pick, d, s);
  }

  lemma SeenOnce(m: Model, rules: Rules, start: Value -> bool, raw: R.System, pick: Bits -> Bits, c: E.Config, v: Value, s: R.S, s': R.S)
    requires ModelOk(m) && Implements(m, rules, start, raw) && Canonical(m, pick)
    requires Finished(Reduced(raw, pick), c) && s in c.seen && s' in c.seen
    requires Has(m.t, v) && InOrbit(m, v, s) && InOrbit(m, v, s')
    ensures s == s'
  {
    hide Implements, Reduced, Finished, Has, Decode, Orbit, X.Least;
    var x := SeenPicked(m, rules, start, raw, pick, c, s);
    var x' := SeenPicked(m, rules, start, raw, pick, c, s');
    assert X.IsCanonical(m, x, s) && X.IsCanonical(m, x', s');
    var a, a', b, b' := Decode(m.t, x), Decode(m.t, x'), Decode(m.t, s), Decode(m.t, s');
    OrbitSymmetric(m, 0, v, b);
    OrbitSymmetric(m, 0, a', b');
    OrbitTransitive(m, 0, a, b, v);
    OrbitTransitive(m, 0, a, v, b');
    OrbitTransitive(m, 0, a, b', a');
    X.CanonicalUnique(m, x, s, x', s');
  }

  /** The search with exhaustive canonicalisation: when it has finished without errors
      the seen set holds exactly one state of each orbit that the model can reach. */
  lemma OnePerOrbit(m: Model, rules: Rules, start: Value -> bool, raw: R.System, pick: Bits -> Bits, c: E.Config)
    requires ModelOk(m) && Equivariant(m, rules) && Implements(m, rules, start, raw) && Canonical(m, pick)
    requires Finished(Reduced(raw, pick), c)
    ensures forall s :: s in c.seen ==> Fits(m, s)
    ensures forall d: nat, v :: RawWithin(m, rules, start, d, v) ==> Stands(m, c.seen, v)
    ensures forall s :: s in c.seen ==> FromModel(m, rules, start, s)
    ensures forall v, s, s' :: Has(m.t, v) && s in c.seen && s' in c.seen && InOrbit(m, v, s) && InOrbit(m, v, s') ==> s == s'
  {
    hide Implements, Canonical, Reduced, Finished, Explores, Equivariant, RawWithin, Has, Decode, Orbit, Picks;
    CanonicalPicks(m, pick);
    ReducedExplores(m, rules, start, raw, pick);
    var sys := Reduced(raw, pick);
    forall d: nat, v | RawWithin(m, rules, start, d, v) ensures Stands(m, c.seen, v) {
      var s := OrbitsComplete(m, rules, start, sys, c, d, v);
      RawHas(m, rules, start, d, v);
      assert InOrbit(m, v, s);
    }
    forall s | s in c.seen ensures Fits(m, s) && FromModel(m, rules, start, s) {
      var d, v := OrbitsGenuine(m, rules, start, sys, c, s);
      RawHas(m, rules, start, d, v);
      assert InOrbit(m, v, s);
    }
    forall v, s, s' | Has(m.t, v) && s in c.seen && s' in c.seen && InOrbit(m, v, s) && InOrbit(m, v, s') ensures s == s' {
      SeenOnce(m, rules, start, raw, pick, c, v, s, s');
    }
  }
}
