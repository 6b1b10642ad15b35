/** Searching canonical states only: what the seen set says about the model. */
module SymmetricSearch {
  import opened BitNumbers
  import opened Types
  import opened Permutations
  import opened Action
  import opened Orbits
  import opened Traces
  import R = Reachability
  import E = Exploration

  /** States of one orbit have corresponding transitions. */
  lemma {:induction false} OrbitSimulates(m: Model, rules: Rules, i: nat, v: Value, v': Value, r: nat, args: seq<Arg>, w: Value)
    returns (args': seq<Arg>, w': Value)
    requires ModelOk(m) && Equivariant(m, rules) && i <= |m.bounds| && Has(m.t, v) && Has(m.t, v') && Has(m.t, w)
    requires Orbit(m, i, v, v') && rules(v, r, args, w)
    ensures Has(m.t, w') && rules(v', r, args', w') && Orbit(m, i, w, w')
    decreases |m.bounds| - i
  {
    hide Act, IsPerm, Has, ActArgs;
    if i == |m.bounds| {
      args', w' := args, w;
    } else {
      var p := OrbitElim(m, i, v, v');
      args', w' := OrbitSimulates(m, rules, i + 1, Act(m.t, i, p, v), v', r, ActArgs(i, p, args), Act(m.t, i, p, w));
      OrbitIntro(m, i, p, w, w');
    }
  }

  /** v can be reached in d steps of the model's rules. */
  ghost predicate RawWithin(m: Model, rules: Rules, start: Value -> bool, d: nat, v: Value)
  {
    Has(m.t, v) &&
    if d == 0 then start(v) else exists p, r, args :: RawWithin(m, rules, start, d - 1, p) && rules(p, r, args, v)
  }

  predicate Fits(m: Model, s: R.S)
  {
    |s| == Width(m.t)
  }

  /** The system explored fires the model's rules on stored states, and keeps, of
      each state this leads to, one from its orbit. */
  ghost predicate Explores(m: Model, rules: Rules, start: Value -> bool, sys: R.System)
    requires ModelOk(m)
  {
    && (forall s :: s in sys.starts ==> Fits(m, s) && exists v :: StartOf(m, start, v, s))
    && (forall v :: Has(m.t, v) && start(v) ==> exists s :: s in sys.starts && StartOf(m, start, v, s))
    && (forall s, x :: Fits(m, s) && R.Edge(sys, s, x) ==> Fits(m, x) && exists r, args, w :: Next(m, rules, s, r, args, w, x))
    && (forall s, r, args, w :: Fits(m, s) && Has(m.t, w) && rules(Decode(m.t, s), r, args, w)
          ==> exists x :: R.Edge(sys, s, x) && Next(m, rules, s, r, args, w, x))
  }

  ghost predicate StartOf(m: Model, start: Value -> bool, v: Value, s: R.S)
    requires ModelOk(m)
  {
    Fits(m, s) && Has(m.t, v) && start(v) && Orbit(m, 0, v, Decode(m.t, s))
  }

  ghost predicate Next(m: Model, rules: Rules, s: R.S, r: nat, args: seq<Arg>, w: Value, x: R.S)
    requires ModelOk(m)
  {
    Fits(m, s) && Fits(m, x) && Has(m.t, w) && rules(Decode(m.t, s), r, args, w) && Orbit(m, 0, w, Decode(m.t, x))
  }

  /** Whatever the model can reach is in the orbit of something the search reaches. */
  lemma {:induction false} RawCovered(m: Model, rules: Rules, start: Value -> bool, sys: R.System, d: nat, v: Value) returns (s: R.S)
    requires ModelOk(m) && Equivariant(m, rules) && Explores(m, rules, start, sys) && RawWithin(m, rules, start, d, v)
    ensures Fits(m, s) && R.Within(sys, d, s) && Orbit(m, 0, v, Decode(m.t, s))
  {
    hide Decode, Has, Orbit, Equivariant;
    if d == 0 {
      s :| s in sys.starts && StartOf(m, start, v, s);
    } else {
      var p, r, args :| RawWithin(m, rules, start, d - 1, p) && rules(p, r, args, v);
      var q := RawCovered(m, rules, start, sys, d - 1, p);
      var args', w := OrbitSimulates(m, rules, 0, p, Decode(m.t, q), r, args, v);
      s :| R.Edge(sys, q, s) && Next(m, rules, q, r, args', w, s);
      OrbitTransitive(m, 0, v, w, Decode(m.t, s));
    }
  }

  /** Whatever the search reaches is in the orbit of something the model can reach. */
  lemma {:induction false} SeenGenuine(m: Model, rules: Rules, start: Value -> bool, sys: R.System, d: nat, s: R.S) returns (v: Value)
    requires ModelOk(m) && Equivariant(m, rules) && Explores(m, rules, start, sys) && R.Within(sys, d, s)
    ensures Fits(m, s) && RawWithin(m, rules, start, d, v) && Orbit(m, 0, v, Decode(m.t, s))
  {
    hide Decode, Has, Orbit, Equivariant;
    if d == 0 {
      v :| StartOf(m, start, v, s);
    } else {
      var q :| R.Within(sys, d - 1, q) && R.Edge(sys, q, s);
      var p := SeenGenuine(m, rules, start, sys, d - 1, q);
      var r, args, w :| Next(m, rules, q, r, args, w, s);
      OrbitSymmetric(m, 0, p, Decode(m.t, q));
      var args', w' := OrbitSimulates(m, rules, 0, Decode(m.t, q), p, r, args, w);
      OrbitSymmetric(m, 0, w, w');
      OrbitTransitive(m, 0, w', w, Decode(m.t, s));
      v := w';
      assert RawWithin(m, rules, start, d, v);
    }
  }

  /** A search has finished: every thread that was started has exited, no errors. */
  ghost predicate Finished(sys: R.System, c: E.Config)
  {
    E.Inv(sys, c) && c.errors == 0 && forall t :: 0 <= t < |c.pc| ==> c.pc[t].Exited? || c.pc[t].Waiting?
  }

  /** It then holds a state from the orbit of each state the model can reach, which
      satisfies the invariants .. */
  lemma OrbitsComplete(m: Model, rules: Rules, start: Value -> bool, sys: R.System, c: E.Config, d: nat, v: Value) returns (s: R.S)
    requires ModelOk(m) && Equivariant(m, rules) && Explores(m, rules, start, sys) && Finished(sys, c)
    requires RawWithin(m, rules, start, d, v)
    ensures s in c.seen && Fits(m, s) && Orbit(m, 0, v, Decode(m.t, s)) && sys.invariants(s)
  {
    hide Decode, Has, Orbit, Equivariant, Explores, E.Inv, R.Within, R.Deadlock;
    s := RawCovered(m, rules, start, sys, d, v);
    E.SearchComplete(sys, c);
    assert R.Reachable(sys, s);
  }

  /** .. and none from any other orbit. */
  lemma OrbitsGenuine(m: Model, rules: Rules, start: Value -> bool, sys: R.System, c: E.Config, s: R.S) returns (d: nat, v: Value)
    requires ModelOk(m) && Equivariant(m, rules) && Explores(m, rules, start, sys) && Finished(sys, c)
    requires s in c.seen
    ensures Fits(m, s) && RawWithin(m, rules, start, d, v) && Orbit(m, 0, v, Decode(m.t, s))
  {
    hide Decode, Has, Orbit, Equivariant, Explores, E.Inv, R.Within, R.Deadlock;
    E.SearchComplete(sys, c);
    d :| R.Within(sys, d, s);
    v := SeenGenuine(m, rules, start, sys, d, s);
  }
}
