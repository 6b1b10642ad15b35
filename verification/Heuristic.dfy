/** Heuristic canonicalisation: each scalarset in turn is sorted. */
module Heuristic {
  import opened BitNumbers
  import opened Permutations
  import opened Types
  import opened Action
  import opened RawAccess
  import opened Swapping
  import opened Comparing
  import opened Orbits
  import opened Sorting
  import opened StateData

  lemma StandsSays(m: Model, b: Bits, xs: seq<nat>, v: Value, k: nat)
    requires StandsFor(m, b, xs, v) && k < |m.bounds|
    ensures ModelOk(m) && |b| == Width(m.t) && |b| % CHAR_BIT == 0 && |xs| == |m.bounds| && Has(m.t, v)
    ensures m.bounds[k] > 0 && Sound(m.t, k, m.bounds[k]) && xs[k] < Factorial(m.bounds[k])
    ensures PermOf(m, k, Numbered(m.bounds[k], xs[k])) && PermOf(m, k, Identity(m.bounds[k]))
    ensures Act(m.t, k, Identity(m.bounds[k]), Decode(m.t, b)) == Decode(m.t, b)
    ensures Compose(Numbered(m.bounds[k], xs[k]), Identity(m.bounds[k])) == Numbered(m.bounds[k], xs[k])
  {
    hide Numbered, Act, Decode, Has, Stored;
    ActIdentity(m.t, k, m.bounds[k], Decode(m.t, b));
    IdentityCompose(Numbered(m.bounds[k], xs[k]));
  }

  /** Sorting one scalarset of the data, and recording how. */
  method SortScalarset(m: Model, k: nat, d: array<bool>, xs: array<nat>, ghost v: Value)
    requires StandsFor(m, d[..], xs[..], v) && k < |m.bounds|
    modifies d, xs
    ensures StandsFor(m, d[..], xs[..], v)
    ensures ModelOk(m) && d.Length == Width(m.t) && SortedFrom(KeysNow(m, k, d), 0, m.bounds[k] - 1)
    ensures exists q :: PermOf(m, k, q) && Decode(m.t, d[..]) == Act(m.t, k, q, old(Decode(m.t, d[..])))
  {
    hide Numbered, Factorial, IsPerm, Act, Decode, Has, KeysNow, Stored, Sound, Identity, Compose, SortedFrom, Shuffled;
    var n := m.bounds[k];
    StandsSays(m, d[..], xs[..], v, k);
    ghost var b, before, w := d[..], xs[..], Decode(m.t, d[..]);
    ghost var s := Numbered(n, before[k]);
    var schedule := Recall(m, k, xs[k]);
    ghost var q := Sort(m, k, d, schedule, 0, n - 1, w, s, Identity(n));
    ComposeIs(m, k, s, q);
    var x := Record(m, k, schedule);
    xs[k] := x;
    StandsAfter(m, b, before, v, k, q, d[..], x);
    assert xs[..] == before[k := x];
  }

  lemma ComposeIs(m: Model, k: nat, s: seq<nat>, q: seq<nat>)
    requires PermOf(m, k, s) && PermOf(m, k, q)
    ensures PermOf(m, k, Compose(s, q))
  {
  }

  /** From v to w, scalarset k has been rearranged so that its elements are in order. */
  ghost predicate SortsScalarset(m: Model, k: nat, v: Value, w: Value)
    requires ModelOk(m) && k < |m.bounds| && Has(m.t, v) && Has(m.t, w)
  {
    && (exists q :: PermOf(m, k, q) && w == Act(m.t, k, q, v))
    && SortedFrom(KeysOf(m.t, k, m.bounds[k], w), 0, m.bounds[k] - 1)
  }

  /** The states passed through from v on when the first scalarsets have been sorted in turn. */
  ghost predicate SortedInTurn(m: Model, states: seq<Value>)
    requires ModelOk(m)
  {
    && 0 < |states| <= |m.bounds| + 1 && (forall i :: 0 <= i < |states| ==> Has(m.t, states[i]))
    && forall k :: 0 <= k < |states| - 1 ==> SortsScalarset(m, k, states[k], states[k + 1])
  }

  /** The result stands for the same state and is in the orbit of the state given. It is
      what comes of sorting each scalarset once, in order of their declaration, each in
      the state that sorting those before it left; so the last of them is sorted. */
  method Canonicalise(m: Model, d: array<bool>, xs: array<nat>, ghost v: Value) returns (ghost states: seq<Value>)
    requires StandsFor(m, d[..], xs[..], v)
    modifies d, xs
    ensures StandsFor(m, d[..], xs[..], v)
    ensures Orbit(m, 0, old(Decode(m.t, d[..])), Decode(m.t, d[..]))
    ensures SortedInTurn(m, states) && |states| == |m.bounds| + 1
    ensures states[0] == old(Decode(m.t, d[..])) && states[|m.bounds|] == Decode(m.t, d[..])
    ensures |m.bounds| > 0 ==> SortedFrom(KeysNow(m, |m.bounds| - 1, d), 0, m.bounds[|m.bounds| - 1] - 1)
  {
    hide Act, Decode, Has, Stored, SortedFrom, Orbit, IsPerm, Numbers, Sound, KeysOf;
    ghost var w := Decode(m.t, d[..]);
    OrbitReflexive(m, 0, w);
    states := [w];
    for k := 0 to |m.bounds|
      invariant StandsFor(m, d[..], xs[..], v) && Orbit(m, 0, w, Decode(m.t, d[..]))
      invariant SortedInTurn(m, states) && |states| == k + 1 && states[0] == w && states[k] == Decode(m.t, d[..])
      invariant k > 0 ==> SortedFrom(KeysNow(m, k - 1, d), 0, m.bounds[k - 1] - 1)
    {
      ghost var u := Decode(m.t, d[..]);
      SortScalarset(m, k, d, xs, v);
      ghost var q :| PermOf(m, k, q) && Decode(m.t, d[..]) == Act(m.t, k, q, u);
      OrbitOne(m, k, q, u);
      OrbitMore(m, 0, k, u, Act(m.t, k, q, u));
      OrbitTransitive(m, 0, w, u, Act(m.t, k, q, u));
      states := states + [Decode(m.t, d[..])];
    }
  }
}
