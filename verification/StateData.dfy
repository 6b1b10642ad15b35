/** A stored state: its packed data, and for each scalarset the number of the
    permutation that was chosen for it. */
module StateData {
  import opened BitNumbers
  import opened Permutations
  import opened Types
  import opened Action
  import opened RawAccess
  import opened Swapping
  import opened Comparing
  import opened Orbits

  predicate Numbers(m: Model, xs: seq<nat>)
  {
    |xs| == |m.bounds| && forall k :: 0 <= k < |xs| ==> xs[k] < Factorial(m.bounds[k])
  }

  function Chosen(m: Model, xs: seq<nat>): (ps: seq<seq<nat>>)
    requires Numbers(m, xs)
    ensures Schedules(m, ps)
  {
    seq(|xs|, k requires 0 <= k < |xs| => Numbered(m.bounds[k], xs[k]))
  }

  /** What is stored stands for the state v: it is v as the schedules rearrange it. */
  ghost predicate StandsFor(m: Model, b: Bits, xs: seq<nat>, v: Value)
  {
    && ModelOk(m) && |b| == Width(m.t) && |b| % CHAR_BIT == 0 && Numbers(m, xs) && Has(m.t, v)
    && Decode(m.t, b) == Stored(m, 0, Chosen(m, xs), v)
  }

  // Scalarset k of the data rearranged by q, and its schedule with it.
  lemma StandsAfter(m: Model, b: Bits, xs: seq<nat>, v: Value, k: nat, q: seq<nat>, b': Bits, x: nat)
    requires StandsFor(m, b, xs, v) && PermOf(m, k, q) && |b'| == |b|
    requires Decode(m.t, b') == Act(m.t, k, q, Decode(m.t, b))
    requires x < Factorial(m.bounds[k]) && Numbered(m.bounds[k], x) == Compose(Numbered(m.bounds[k], xs[k]), q)
    ensures StandsFor(m, b', xs[k := x], v)
  {
    hide Act, Decode, IsPerm, Numbered, Factorial, Has, Compose;
    StoredAct(m, 0, Chosen(m, xs), v, k, q);
    assert Chosen(m, xs[k := x]) == Chosen(m, xs)[k := Compose(Chosen(m, xs)[k], q)];
  }

  /** The number of the rearranged schedule is what gets stored. */
  method Record(m: Model, k: nat, schedule: array<nat>) returns (x: nat)
    requires PermOf(m, k, schedule[..])
    ensures x < Factorial(m.bounds[k]) && Numbered(m.bounds[k], x) == schedule[..]
  {
    hide Numbered, Factorial, IsPerm;
    var stack := new nat[schedule.Length];
    var working := new nat[schedule.Length];
    x := PermutationToIndex(schedule, stack, working);
  }

  method Recall(m: Model, k: nat, x: nat) returns (schedule: array<nat>)
    requires k < |m.bounds| && x < Factorial(m.bounds[k])
    ensures fresh(schedule) && schedule.Length == m.bounds[k]
    ensures schedule[..] == Numbered(m.bounds[k], x)
  {
    hide Numbered, Factorial, IsPerm;
    schedule := new nat[m.bounds[k]];
    var stack := new nat[m.bounds[k]];
    IndexToPermutation(x, schedule, stack);
  }
}
