/** The heuristic canonicalisation: sorting a scalarset by what its elements hold,
    in the packed state, with a comparison that reads the state being sorted. */
module Sorting {
  import opened BitNumbers
  import opened Permutations
  import opened Types
  import opened Action
  import opened RawAccess
  import opened Swapping
  import opened Comparing
  import opened Orbits

  type Keys = seq<Key>

  predicate Even(ks: Keys)
  {
    forall i, j :: 0 <= i < |ks| && 0 <= j < |ks| ==> |ks[i]| == |ks[j]|
  }

  predicate AtMost(a: Key, b: Key)
  {
    |a| == |b| && Lex(a, b) <= 0
  }

  lemma AtMostOrder(a: Key, b: Key, c: Key)
    requires |a| == |b| == |c|
    ensures AtMost(a, a) && (AtMost(a, b) || AtMost(b, a))
    ensures AtMost(a, b) && AtMost(b, c) ==> AtMost(a, c)
    ensures Lex(a, b) < 0 <==> !AtMost(b, a)
  {
    LexOrder(a, b, c);
    LexOrder(b, a, c);
  }

  /** The keys of all elements of scalarset k. */
  function KeysOf(t: Type, k: nat, n: nat, v: Value): (ks: Keys)
    requires Has(t, v) && Sound(t, k, n)
    ensures |ks| == n && Even(ks)
  {
    var ks := seq(n, x requires 0 <= x < n => KeyOf(t, k, n, v, x));
    assert Even(ks) by {
      forall i, j | 0 <= i < n && 0 <= j < n ensures |ks[i]| == |ks[j]| {
        if i != j { CompareIsLex(t, k, n, v, i, j); }
      }
    }
    ks
  }

  function Exchange(ks: Keys, i: nat, j: nat): Keys
    requires i < |ks| && j < |ks|
  {
    ks[i := ks[j]][j := ks[i]]
  }

  predicate FoundIn(x: Key, ks: Keys, lo: int, hi: int)
  {
    exists j :: 0 <= j < |ks| && lo <= j <= hi && ks[j] == x
  }

  /** Places lo to hi hold keys that were there before, and the others are as before. */
  predicate Shuffled(ks: Keys, ks': Keys, lo: int, hi: int)
  {
    && |ks'| == |ks|
    && (forall i :: 0 <= i < |ks| && !(lo <= i <= hi) ==> ks'[i] == ks[i])
    && (forall i :: 0 <= i < |ks| && lo <= i <= hi ==> FoundIn(ks'[i], ks, lo, hi))
  }

  lemma ShuffledThen(ks: Keys, ls: Keys, ms: Keys, lo: int, hi: int, lo': int, hi': int)
    requires Shuffled(ks, ls, lo, hi) && Shuffled(ls, ms, lo', hi') && lo <= lo' && hi' <= hi
    ensures Shuffled(ks, ms, lo, hi)
  {
    forall i | 0 <= i < |ks| && lo <= i <= hi ensures FoundIn(ms[i], ks, lo, hi) {
      var l := i;
      if lo' <= i <= hi' { l :| 0 <= l < |ls| && lo' <= l <= hi' && ls[l] == ms[i]; }
      assert FoundIn(ls[l], ks, lo, hi);
    }
  }

  predicate SortedFrom(ks: Keys, lo: int, hi: int)
  {
    forall i, j :: lo <= i < j <= hi && 0 <= i && j < |ks| ==> AtMost(ks[i], ks[j])
  }

  // Up to i no key is above p; from j on none is below it.
  predicate Split(ks: Keys, lo: int, hi: int, i: int, j: int, p: Key)
  {
    && (forall l :: 0 <= l < |ks| && lo <= l <= i ==> AtMost(ks[l], p))
    && (forall l :: 0 <= l < |ks| && j <= l <= hi ==> AtMost(p, ks[l]))
  }

  /** A state being sorted: the array, and the permutation applied to it so far. */
  ghost predicate Reached(m: Model, k: nat, d: array<bool>, v: Value, q: seq<nat>)
    reads d
  {
    && ModelOk(m) && d.Length == Width(m.t) && d.Length % CHAR_BIT == 0 && Has(m.t, v) && PermOf(m, k, q)
    && Decode(m.t, d[..]) == Act(m.t, k, q, v)
  }

  ghost function KeysNow(m: Model, k: nat, d: array<bool>): (ks: Keys)
    requires ModelOk(m) && d.Length == Width(m.t) && k < |m.bounds|
    reads d
    ensures |ks| == m.bounds[k] && Even(ks)
  {
    KeysOf(m.t, k, m.bounds[k], Decode(m.t, d[..]))
  }

  method CompareNow(m: Model, k: nat, d: array<bool>, x: nat, y: nat) returns (c: int)
    requires ModelOk(m) && d.Length == Width(m.t) && d.Length % CHAR_BIT == 0
    requires k < |m.bounds| && x < m.bounds[k] && y < m.bounds[k]
    ensures var ks := KeysNow(m, k, d); c == Lex(ks[x], ks[y])
  {
    hide Decode, Compare, KeyOf, Lex;
    ghost var v := Decode(m.t, d[..]);
    assert Slice(d, 0, d.Length) == d[..];
    LexOrder(KeyOf(m.t, k, m.bounds[k], v, x), KeyOf(m.t, k, m.bounds[k], v, x), KeyOf(m.t, k, m.bounds[k], v, x));
    if x == y { return 0; }
    CompareIsLex(m.t, k, m.bounds[k], v, x, y);
    c := CompareAt(m.t, d, 0, k, m.bounds[k], x, y);
  }

  // Swapping two elements exchanges their keys.
  lemma KeysSwapped(t: Type, k: nat, n: nat, v: Value, x: nat, y: nat)
    requires Has(t, v) && Sound(t, k, n) && x < n && y < n
    ensures KeysOf(t, k, n, Act(t, k, Transposition(n, x, y), v)) == Exchange(KeysOf(t, k, n, v), x, y)
  {
    hide KeyOf, Act, Transposition;
    var p := Transposition(n, x, y);
    forall j | 0 <= j < n
      ensures KeysOf(t, k, n, Act(t, k, p, v))[j] == Exchange(KeysOf(t, k, n, v), x, y)[j]
    {
      TranspositionAt(n, x, y, j);
      KeyAct(t, k, p, v, j);
    }
  }

  /** The swap of two elements, in the state and in the schedule. */
  method SwapNow(m: Model, k: nat, d: array<bool>, schedule: array<nat>, x: nat, y: nat, ghost v: Value, ghost s: seq<nat>, ghost q: seq<nat>)
    returns (ghost q': seq<nat>)
    requires Reached(m, k, d, v, q) && x < m.bounds[k] && y < m.bounds[k]
    requires PermOf(m, k, s) && schedule.Length == m.bounds[k] && schedule[..] == Compose(s, q)
    modifies d, schedule
    ensures Reached(m, k, d, v, q') && schedule[..] == Compose(s, q')
    ensures KeysNow(m, k, d) == Exchange(old(KeysNow(m, k, d)), x, y)
  {
    hide Decode, Act, KeysOf, Has, IsPerm, Sound, Transposition, Identity;
    var n := m.bounds[k];
    ghost var w := Decode(m.t, d[..]);
    ghost var p := Transposition(n, x, y);
    q' := Compose(q, p);
    assert Slice(d, 0, d.Length) == d[..];
    SwapChunk(m.t, d, 0, k, n, x, y);
    assert Slice(d, 0, d.Length) == d[..];
    KeysSwapped(m.t, k, n, w, x, y);
    ActCompose(m.t, k, q, p, v);
    ComposeAssociative(s, q, p);
    ComposeSwap(Compose(s, q), x, y);
    schedule[x], schedule[y] := schedule[y], schedule[x];
    assert schedule[..] == Compose(Compose(s, q), p);
  }

  lemma ComposeSwap(s: seq<nat>, x: nat, y: nat)
    requires IsPerm(s) && x < |s| && y < |s|
    ensures Compose(s, Transposition(|s|, x, y)) == s[x := s[y]][y := s[x]]
  {
  }

  // ----- the two scans of a partition round -----

  // Before a round: whatever is at most place i or at least place j is on its side,
  // and something stops both scans.
  predicate Ready(ks: Keys, lo: nat, hi: nat, i: int, j: int, pivot: nat)
  {
    && lo < hi < |ks| && lo - 1 <= i < j <= hi + 1 && lo <= pivot <= hi && Even(ks)
    && Split(ks, lo, hi, i, j, ks[pivot])
    && (if i == lo - 1 then j == hi + 1 && pivot == lo else j <= hi)
  }

  // After the scans: neither place is on the wrong side of the pivot.
  predicate Scanned(ks: Keys, lo: nat, hi: nat, i: int, j: int, i': nat, j': nat, pivot: nat)
  {
    && lo <= pivot <= hi < |ks|
    && i < i' <= hi && lo <= j' < j && i' <= j' + 1 && lo <= i' && j' < hi + 1
    && AtMost(ks[pivot], ks[i']) && AtMost(ks[j'], ks[pivot])
    && Split(ks, lo, hi, i' - 1, j' + 1, ks[pivot])
    && (i == lo - 1 ==> i' == lo) && (i' >= j' ==> j' < hi)
  }

  method Scan(m: Model, k: nat, d: array<bool>, lo: nat, hi: nat, i0: int, j0: int, pivot: nat) returns (i: nat, j: nat)
    requires ModelOk(m) && d.Length == Width(m.t) && d.Length % CHAR_BIT == 0 && k < |m.bounds|
    requires Ready(KeysNow(m, k, d), lo, hi, i0, j0, pivot)
    ensures Scanned(KeysNow(m, k, d), lo, hi, i0, j0, i, j, pivot)
  {
    hide KeysNow, Lex, AtMost, Sound, Has;
    ghost var ks := KeysNow(m, k, d);
    ghost var p := ks[pivot];
    i := i0 + 1;
    forall l | 0 <= l < |ks|
      ensures AtMost(p, p) && (AtMost(p, ks[l]) || AtMost(ks[l], p))
      ensures (Lex(ks[l], p) < 0 <==> !AtMost(p, ks[l])) && (Lex(ks[l], p) > 0 <==> !AtMost(ks[l], p))
    {
      KeyOrder(ks[l], p);
    }
    assert lo <= i <= hi;
    var c := CompareNow(m, k, d, i, pivot);
    while c < 0
      invariant i0 < i <= hi && lo <= i && c == Lex(ks[i], p)
      invariant Split(ks, lo, hi, i - 1, j0, p)
      invariant i0 == lo - 1 ==> i == lo
      invariant i <= j0
      decreases hi - i
    {
      i := i + 1;
      assert lo <= i <= hi;
      c := CompareNow(m, k, d, i, pivot);
    }
    j := j0 - 1;
    assert lo <= j <= hi;
    c := CompareNow(m, k, d, j, pivot);
    while c > 0
      invariant lo <= j < j0 && j <= hi && c == Lex(ks[j], p) && i <= j + 1
      invariant Split(ks, lo, hi, i - 1, j + 1, p)
      decreases j
    {
      j := j - 1;
      assert lo <= j <= hi;
      c := CompareNow(m, k, d, j, pivot);
    }
  }

  lemma KeyOrder(a: Key, p: Key)
    requires |a| == |p|
    ensures AtMost(p, p) && (Lex(a, p) < 0 <==> !AtMost(p, a)) && (Lex(a, p) > 0 <==> !AtMost(a, p)) && (AtMost(p, a) || AtMost(a, p))
  {
    AtMostOrder(a, p, p);
    AtMostOrder(p, a, a);
    LexOrder(a, p, p);
  }

  // After the swap that ends a round, the pivot's key is still the pivot's.
  lemma NextRound(ks: Keys, lo: nat, hi: nat, i: int, j: int, i': nat, j': nat, pivot: nat)
    requires Ready(ks, lo, hi, i, j, pivot) && Scanned(ks, lo, hi, i, j, i', j', pivot) && i' < j'
    ensures var pivot' := if i' == pivot then j' else if j' == pivot then i' else pivot;
            Ready(Exchange(ks, i', j'), lo, hi, i', j', pivot') && Shuffled(ks, Exchange(ks, i', j'), lo, hi)
  {
    hide AtMost;
    var ls := Exchange(ks, i', j');
    assert ls[i'] == ks[j'] && ls[j'] == ks[i'];
    forall l | 0 <= l < |ks| && lo <= l <= hi ensures FoundIn(ls[l], ks, lo, hi) {
      assert ls[l] == ks[if l == i' then j' else if l == j' then i' else l];
    }
  }

  /** Hoare's partition: nothing up to place j is above any key after it. */
  method Partition(m: Model, k: nat, d: array<bool>, schedule: array<nat>, lo: nat, hi: nat, ghost v: Value, ghost s: seq<nat>, ghost q: seq<nat>)
    returns (j: nat, ghost q': seq<nat>, ghost p: Key)
    requires Reached(m, k, d, v, q) && lo < hi < m.bounds[k]
    requires PermOf(m, k, s) && schedule.Length == m.bounds[k] && schedule[..] == Compose(s, q)
    modifies d, schedule
    ensures Reached(m, k, d, v, q') && schedule[..] == Compose(s, q')
    ensures lo <= j < hi && Shuffled(old(KeysNow(m, k, d)), KeysNow(m, k, d), lo, hi)
    ensures Split(KeysNow(m, k, d), lo, hi, j, j + 1, p)
  {
    hide KeysNow, Shuffled, Reached, PermOf, IsPerm, AtMost, Even;
    var pivot := lo;
    var i := lo - 1;
    var jj := hi + 1;
    q' := q;
    ReachedSays(m, k, d, v, q);
    PermSays(m, k, s);
    ghost var ks := KeysNow(m, k, d);
    StartRound(ks, lo, hi);
    SameShuffled(ks, lo, hi);
    while true
      invariant Reached(m, k, d, v, q') && IsPerm(q') && |q'| == |s| && schedule[..] == Compose(s, q')
      invariant Shuffled(ks, KeysNow(m, k, d), lo, hi)
      invariant Ready(KeysNow(m, k, d), lo, hi, i, jj, pivot)
      decreases jj - i
    {
      ghost var now := KeysNow(m, k, d);
      var i', j' := Scan(m, k, d, lo, hi, i, jj, pivot);
      if i' >= j' {
        p := now[pivot];
        return j', q', p;
      }
      NextRound(now, lo, hi, i, jj, i', j', pivot);
      q' := SwapNow(m, k, d, schedule, i', j', v, s, q');
      ReachedSays(m, k, d, v, q');
      ShuffledThen(ks, now, KeysNow(m, k, d), lo, hi, lo, hi);
      if i' == pivot { pivot := j'; } else if j' == pivot { pivot := i'; }
      i, jj := i', j';
    }
  }

  lemma StartRound(ks: Keys, lo: nat, hi: nat)
    requires Even(ks) && lo < hi < |ks|
    ensures Ready(ks, lo, hi, lo - 1, hi + 1, lo)
  {
  }

  lemma SameShuffled(ks: Keys, lo: int, hi: int)
    ensures Shuffled(ks, ks, lo, hi)
  {
  }

  lemma ReachedSays(m: Model, k: nat, d: array<bool>, v: Value, q: seq<nat>)
    requires Reached(m, k, d, v, q)
    ensures ModelOk(m) && PermOf(m, k, q) && IsPerm(q) && |q| == m.bounds[k] && d.Length == Width(m.t) && d.Length % CHAR_BIT == 0
  {
  }

  lemma PermSays(m: Model, k: nat, p: seq<nat>)
    requires PermOf(m, k, p)
    ensures k < |m.bounds| && IsPerm(p) && |p| == m.bounds[k]
  {
  }

  // Sorting either side leaves the split as it was.
  lemma SplitShuffled(ks: Keys, ls: Keys, lo: int, hi: int, j: int, p: Key, lo': int, hi': int)
    requires Split(ks, lo, hi, j, j + 1, p) && Shuffled(ks, ls, lo', hi') && lo <= lo' && hi' <= hi && (hi' <= j || j < lo')
    ensures Split(ls, lo, hi, j, j + 1, p)
  {
    hide AtMost;
    forall l | 0 <= l < |ls| && lo <= l <= hi ensures if l <= j then AtMost(ls[l], p) else AtMost(p, ls[l]) {
      if lo' <= l <= hi' {
        var i :| 0 <= i < |ks| && lo' <= i <= hi' && ls[l] == ks[i];
        assert if i <= j then AtMost(ks[i], p) else AtMost(p, ks[i]);
      } else {
        assert ls[l] == ks[l];
      }
    }
  }

  lemma SortedSides(ks: Keys, lo: int, hi: int, j: int, p: Key)
    requires Split(ks, lo, hi, j, j + 1, p) && SortedFrom(ks, lo, j) && SortedFrom(ks, j + 1, hi)
    ensures SortedFrom(ks, lo, hi)
  {
    forall a, b | lo <= a < b <= hi && 0 <= a && b < |ks| ensures AtMost(ks[a], ks[b]) {
      if a <= j < b {
        assert AtMost(ks[a], p) && AtMost(p, ks[b]);
        AtMostOrder(ks[a], p, ks[b]);
      }
    }
  }

  /** Sorting places lo to hi terminates, stays in bounds, leaves each key at most
      those after it, and rearranges the state and the schedule alike. */
  method Sort(m: Model, k: nat, d: array<bool>, schedule: array<nat>, lo: nat, hi: nat, ghost v: Value, ghost s: seq<nat>, ghost q: seq<nat>)
    returns (ghost q': seq<nat>)
    requires Reached(m, k, d, v, q) && lo <= hi < m.bounds[k]
    requires PermOf(m, k, s) && schedule.Length == m.bounds[k] && schedule[..] == Compose(s, q)
    modifies d, schedule
    ensures Reached(m, k, d, v, q') && schedule[..] == Compose(s, q')
    ensures Shuffled(old(KeysNow(m, k, d)), KeysNow(m, k, d), lo, hi) && SortedFrom(KeysNow(m, k, d), lo, hi)
    decreases hi + 1 - lo
  {
    hide KeysNow, Shuffled, Reached, PermOf, IsPerm, AtMost, Even, Split;
    ReachedSays(m, k, d, v, q);
    PermSays(m, k, s);
    ghost var ks := KeysNow(m, k, d);
    SameShuffled(ks, lo, hi);
    if lo >= hi { return q; }
    var j: nat;
    ghost var p: Key;
    j, q', p := Partition(m, k, d, schedule, lo, hi, v, s, q);
    ghost var ls := KeysNow(m, k, d);
    q' := Sort(m, k, d, schedule, lo, j, v, s, q');
    ghost var ms := KeysNow(m, k, d);
    ShuffledThen(ks, ls, ms, lo, hi, lo, j);
    SplitShuffled(ls, ms, lo, hi, j, p, lo, j);
    q' := Sort(m, k, d, schedule, j + 1, hi, v, s, q');
    ghost var ns := KeysNow(m, k, d);
    ShuffledThen(ks, ms, ns, lo, hi, j + 1, hi);
    SplitShuffled(ms, ns, lo, hi, j, p, j + 1, hi);
    StillSorted(ms, ns, lo, j, j + 1, hi);
    SortedSides(ns, lo, hi, j, p);
  }

  lemma StillSorted(ks: Keys, ls: Keys, lo: int, j: int, lo': int, hi': int)
    requires SortedFrom(ks, lo, j) && Shuffled(ks, ls, lo', hi') && j < lo'
    ensures SortedFrom(ls, lo, j)
  {
    hide AtMost;
    forall a, b | lo <= a < b <= j && 0 <= a && b < |ls| ensures AtMost(ls[a], ls[b]) {
      assert ls[a] == ks[a] && ls[b] == ks[b];
    }
  }

  /** What being sorted means for the comparison itself. */
  lemma SortedMeansCompared(t: Type, k: nat, n: nat, v: Value, i: nat, j: nat)
    requires Has(t, v) && Sound(t, k, n) && i < j < n && SortedFrom(KeysOf(t, k, n, v), 0, n - 1)
    ensures Compare(t, k, n, v, i, j) <= 0
  {
    hide KeyOf, Compare, Lex, Has;
    CompareIsLex(t, k, n, v, i, j);
    assert AtMost(KeysOf(t, k, n, v)[i], KeysOf(t, k, n, v)[j]);
  }
}
