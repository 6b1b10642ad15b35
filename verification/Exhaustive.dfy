/** Exhaustive canonicalisation: nested loops of Heap's algorithm, one for each
    scalarset, that keep the least arrangement they come across. */
module Exhaustive {
  import opened BitNumbers
  import opened Permutations
  import opened Types
  import opened Action
  import opened RawAccess
  import opened Swapping
  import opened Comparing
  import opened Orbits
  import opened StateData
  import opened Heuristic

  // ----- the order of states: byte by byte -----

  function BytesOf(b: Bits): (k: Key)
    requires |b| % CHAR_BIT == 0
    ensures |k| == |b| / CHAR_BIT
  {
    seq(|b| / CHAR_BIT, i requires 0 <= i < |b| / CHAR_BIT => ToNat(b[i * CHAR_BIT..i * CHAR_BIT + CHAR_BIT]))
  }

  function Memcmp(a: Bits, b: Bits): int
    requires |a| == |b| && |a| % CHAR_BIT == 0
  {
    Lex(BytesOf(a), BytesOf(b))
  }

  lemma BytesInjective(a: Bits, b: Bits)
    requires |a| == |b| && |a| % CHAR_BIT == 0 && BytesOf(a) == BytesOf(b)
    ensures a == b
  {
    hide ToNat;
    forall i | 0 <= i < |a| ensures a[i] == b[i] {
      var j := i / CHAR_BIT;
      assert BytesOf(a)[j] == BytesOf(b)[j];
      var x, y := a[j * CHAR_BIT..j * CHAR_BIT + CHAR_BIT], b[j * CHAR_BIT..j * CHAR_BIT + CHAR_BIT];
      ToNatInjective(x, y);
      assert x[i % CHAR_BIT] == a[i] && y[i % CHAR_BIT] == b[i];
    }
  }

  predicate NoGreater(a: Bits, b: Bits)
  {
    |a| == |b| && |a| % CHAR_BIT == 0 && Memcmp(a, b) <= 0
  }

  lemma MemcmpOrder(a: Bits, b: Bits, c: Bits)
    requires |a| == |b| == |c| && |a| % CHAR_BIT == 0
    ensures NoGreater(a, a) && (NoGreater(a, b) <==> Memcmp(b, a) >= 0) && (NoGreater(a, b) || NoGreater(b, a))
    ensures NoGreater(a, b) && NoGreater(b, c) ==> NoGreater(a, c)
    ensures NoGreater(a, b) && NoGreater(b, a) ==> a == b
  {
    LexOrder(BytesOf(a), BytesOf(b), BytesOf(c));
    LexOrder(BytesOf(b), BytesOf(a), BytesOf(c));
    if BytesOf(a) == BytesOf(b) { BytesInjective(a, b); }
  }

  lemma {:induction false} LexFirst(a: Key, b: Key, i: nat)
    requires |a| == |b| && i < |a| && a[..i] == b[..i] && a[i] < b[i]
    ensures Lex(a, b) == -1 && Lex(b, a) == 1
  {
    if i > 0 {
      assert a[0] == a[..i][0] == b[..i][0] == b[0];
      assert a[1..][..i - 1] == a[..i][1..] == b[..i][1..] == b[1..][..i - 1];
      LexFirst(a[1..], b[1..], i - 1);
    }
  }

  /** Which of two states comes first: the first byte in which they differ decides,
      and the state with the smaller number there is the lesser. */
  lemma FirstByte(a: Bits, b: Bits, i: nat)
    requires |a| == |b| && |a| % CHAR_BIT == 0 && CHAR_BIT * i + CHAR_BIT <= |a|
    requires a[..CHAR_BIT * i] == b[..CHAR_BIT * i]
    requires ToNat(a[CHAR_BIT * i..CHAR_BIT * i + CHAR_BIT]) < ToNat(b[CHAR_BIT * i..CHAR_BIT * i + CHAR_BIT])
    ensures Memcmp(a, b) < 0 && Memcmp(b, a) > 0
  {
    hide ToNat;
    var x, y := BytesOf(a), BytesOf(b);
    forall j | 0 <= j < i ensures x[j] == y[j] {
      var l := j * CHAR_BIT;
      assert a[l..l + CHAR_BIT] == a[..CHAR_BIT * i][l..l + CHAR_BIT];
      assert b[l..l + CHAR_BIT] == b[..CHAR_BIT * i][l..l + CHAR_BIT];
    }
    assert x[..i] == y[..i];
    LexFirst(x, y, i);
  }

  // ----- the least state of an orbit -----

  /** No state in v's orbit, over scalarsets i and up, comes before s. */
  ghost predicate Least(m: Model, i: nat, s: Bits, v: Value)
    requires ModelOk(m) && i <= |m.bounds| && Has(m.t, v)
  {
    forall b: Bits :: |b| == Width(m.t) && Orbit(m, i, v, Decode(m.t, b)) ==> NoGreater(s, b)
  }

  lemma LeastOf(m: Model, i: nat, s: Bits, v: Value, b: Bits)
    requires ModelOk(m) && i <= |m.bounds| && Has(m.t, v) && Least(m, i, s, v)
    requires |b| == Width(m.t) && Orbit(m, i, v, Decode(m.t, b))
    ensures NoGreater(s, b)
  {
  }

  lemma LeastBetter(m: Model, i: nat, s: Bits, s': Bits, v: Value)
    requires ModelOk(m) && i <= |m.bounds| && Has(m.t, v) && Least(m, i, s, v) && NoGreater(s', s)
    ensures Least(m, i, s', v)
  {
    hide Orbit, Decode, Memcmp, Has;
    forall b: Bits | |b| == Width(m.t) && Orbit(m, i, v, Decode(m.t, b)) ensures NoGreater(s', b) {
      assert NoGreater(s, b);
      MemcmpOrder(s', s, b);
    }
  }

  // States of one orbit have the same least state.
  lemma LeastMoves(m: Model, i: nat, s: Bits, v: Value, w: Value)
    requires ModelOk(m) && i <= |m.bounds| && Has(m.t, v) && Has(m.t, w) && Orbit(m, i, w, v) && Least(m, i, s, v)
    ensures Least(m, i, s, w)
  {
    hide Orbit, Decode, NoGreater, Has;
    OrbitSymmetric(m, i, w, v);
    forall b: Bits | |b| == Width(m.t) && Orbit(m, i, w, Decode(m.t, b)) ensures NoGreater(s, b) {
      OrbitTransitive(m, i, v, w, Decode(m.t, b));
    }
  }

  lemma LeastItself(m: Model, s: Bits, c: Bits)
    requires ModelOk(m) && |c| == Width(m.t) && NoGreater(s, c)
    ensures Least(m, |m.bounds|, s, Decode(m.t, c))
  {
    hide Decode, NoGreater, Has;
    forall b: Bits | |b| == Width(m.t) && Orbit(m, |m.bounds|, Decode(m.t, c), Decode(m.t, b)) ensures NoGreater(s, b) {
      DecodeInjective(m.t, b, c);
    }
  }

  /** If no arrangement of scalarset i leads to a lesser state, there is none. */
  lemma LeastOverall(m: Model, i: nat, s: Bits, v: Value)
    requires ModelOk(m) && i < |m.bounds| && Has(m.t, v)
    requires forall x :: 0 <= x < Factorial(m.bounds[i]) ==> Least(m, i + 1, s, Act(m.t, i, Numbered(m.bounds[i], x), v))
    ensures Least(m, i, s, v)
  {
    hide Act, Decode, NoGreater, Has, Numbered, Factorial, IsPerm;
    forall b: Bits | |b| == Width(m.t) && Orbit(m, i, v, Decode(m.t, b)) ensures NoGreater(s, b) {
      var p := OrbitElim(m, i, v, Decode(m.t, b));
      var x := NumberedAll(p);
      LeastOf(m, i + 1, s, Act(m.t, i, p, v), b);
    }
  }

  // ----- the loops -----

  /** What one stretch of the search does, over scalarsets i and up: the candidate
      stays in its orbit, and of that orbit and what was best, s is now the least. */
  ghost predicate Searched(m: Model, i: nat, s0: Bits, c0: Bits, s: Bits, c: Bits)
    requires ModelOk(m) && i <= |m.bounds|
  {
    && |s0| == |c0| == |s| == |c| == Width(m.t) && |s| % CHAR_BIT == 0
    && Orbit(m, i, Decode(m.t, c0), Decode(m.t, c))
    && Least(m, i, s, Decode(m.t, c0)) && NoGreater(s, s0)
    && (s == s0 || Orbit(m, i, Decode(m.t, c0), Decode(m.t, s)))
  }

  // Replaces the best by the candidate if that comes first.
  method Improve(m: Model, s: array<bool>, sx: array<nat>, c: array<bool>, cx: array<nat>, ghost v: Value)
    requires s != c && sx != cx && StandsFor(m, s[..], sx[..], v) && StandsFor(m, c[..], cx[..], v)
    modifies s, sx
    ensures StandsFor(m, s[..], sx[..], v) && NoGreater(s[..], c[..]) && NoGreater(s[..], old(s[..]))
    ensures s[..] == old(s[..]) || s[..] == c[..]
  {
    hide Memcmp, Decode, Stored, Numbers, Has, StandsFor;
    ghost var cb, cn := c[..], cx[..];
    StandsSize(m, s[..], sx[..], v);
    StandsSize(m, c[..], cx[..], v);
    MemcmpOrder(s[..], c[..], c[..]);
    MemcmpOrder(c[..], s[..], s[..]);
    if Memcmp(c[..], s[..]) < 0 {
      forall i | 0 <= i < s.Length { s[i] := c[i]; }
      forall i | 0 <= i < sx.Length { sx[i] := cx[i]; }
      assert s[..] == cb && sx[..] == cn && c[..] == cb;
      MemcmpOrder(cb, cb, cb);
    }
  }

  lemma StandsSize(m: Model, b: Bits, xs: seq<nat>, v: Value)
    requires StandsFor(m, b, xs, v)
    ensures ModelOk(m) && |b| == Width(m.t) && |b| % CHAR_BIT == 0 && |xs| == |m.bounds|
  {
  }

  // One swap of Heap's algorithm, applied to the candidate and to its schedule.
  method SwapCandidate(m: Model, i: nat, c: array<bool>, cx: array<nat>, schedule: array<nat>, x: nat, y: nat, ghost v: Value)
    requires StandsFor(m, c[..], cx[..], v) && i < |m.bounds| && x < m.bounds[i] && y < m.bounds[i]
    requires schedule != cx && schedule[..] == Numbered(m.bounds[i], cx[i])
    modifies c, cx, schedule
    ensures StandsFor(m, c[..], cx[..], v) && cx[i] < Factorial(m.bounds[i]) && schedule[..] == Numbered(m.bounds[i], cx[i])
    ensures Decode(m.t, c[..]) == Act(m.t, i, Transposition(m.bounds[i], x, y), old(Decode(m.t, c[..])))
    ensures forall k :: 0 <= k < cx.Length && k != i ==> cx[k] == old(cx[k])
  {
    hide Numbered, Factorial, IsPerm, Act, Decode, Has, Stored, Sound, Identity, Compose, Numbers, Transposition;
    var n := m.bounds[i];
    StandsSays(m, c[..], cx[..], v, i);
    ghost var b, before, p := c[..], cx[..], Transposition(n, x, y);
    ghost var s := Numbered(n, before[i]);
    assert Slice(c, 0, c.Length) == c[..];
    SwapChunk(m.t, c, 0, i, n, x, y);
    assert Slice(c, 0, c.Length) == c[..];
    ComposeSwapped(s, x, y);
    schedule[x], schedule[y] := schedule[y], schedule[x];
    assert schedule[..] == Compose(s, p);
    PermFromSwap(m, i, s, x, y);
    var index := Record(m, i, schedule);
    cx[i] := index;
    StandsAfter(m, b, before, v, i, p, c[..], index);
    assert cx[..] == before[i := index];
  }

  lemma ComposeSwapped(s: seq<nat>, x: nat, y: nat)
    requires IsPerm(s) && x < |s| && y < |s|
    ensures Compose(s, Transposition(|s|, x, y)) == s[x := s[y]][y := s[x]] == Swap(s, x, y)
  {
  }

  lemma PermFromSwap(m: Model, i: nat, s: seq<nat>, x: nat, y: nat)
    requires PermOf(m, i, s) && x < |s| && y < |s|
    ensures PermOf(m, i, Transposition(|s|, x, y)) && PermOf(m, i, Compose(s, Transposition(|s|, x, y)))
  {
  }

  // ----- the loop over one scalarset: what it has covered -----

  /** So far, with the digits ds: the candidate is an arrangement of the row they
      give, and no arrangement seen up to then comes before s. */
  ghost predicate Covered(m: Model, i: nat, ds: seq<nat>, v: Value, s: Bits, c: Bits)
    requires ModelOk(m) && i < |m.bounds| && |ds| == m.bounds[i] && IsDigits(|ds|, ds) && Has(m.t, v) && |c| == Width(m.t)
  {
    && Orbit(m, i + 1, Act(m.t, i, Numbered(|ds|, Rank(|ds|, ds)), v), Decode(m.t, c))
    && forall x :: 0 <= x <= Rank(|ds|, ds) ==> Least(m, i + 1, s, Act(m.t, i, Numbered(|ds|, x), v))
  }

  // Raising a digit is one more swap.
  lemma NextNumber(n: nat, stack: seq<nat>, ds: seq<nat>, i: nat)
    requires |ds| == n && Looking(stack, ds, i) && i < n && stack[i] < i
    ensures var es, x := Incremented(ds, i), if i % 2 == 0 then 0 else stack[i];
            && |es| == n && IsDigits(n, es) && IsDigits(n, ds) && Looking(stack[i := stack[i] + 1], es, 0)
            && x < n && Rank(n, es) == Rank(n, ds) + 1
            && Numbered(n, Rank(n, es)) == Compose(Numbered(n, Rank(n, ds)), Transposition(n, x, i))
  {
    hide At, Rank, Numbered, Incremented, Transposition;
    var row := At(n, Identity(n), ds);
    NumberedAt(n, ds);
    RaiseDigit(n, stack, row, ds, i);
    NumberedAt(n, Incremented(ds, i));
    ComposeSwapped(row, if i % 2 == 0 then 0 else stack[i], i);
  }

  // Before the loop nothing has been swapped.
  lemma CoveredStart(m: Model, i: nat, ds: seq<nat>, s0: Bits, c0: Bits, s: Bits, c: Bits)
    requires ModelOk(m) && i < |m.bounds| && |ds| == m.bounds[i] && forall j :: 0 <= j < |ds| ==> ds[j] == 0
    requires Searched(m, i + 1, s0, c0, s, c)
    ensures Looking(ds, ds, 0) && IsDigits(|ds|, ds) && Covered(m, i, ds, Decode(m.t, c), s, c)
  {
    hide Act, Decode, Has, NoGreater, Orbit, Numbered, Looking, Identity, At, Rank, Least;
    var v := Decode(m.t, c);
    LookingEdges(|ds|, ds, ds);
    NumberedAt(|ds|, ds);
    ActIdentity(m.t, i, |ds|, v);
    OrbitReflexive(m, i + 1, v);
    OrbitSymmetric(m, i + 1, Decode(m.t, c0), v);
    LeastMoves(m, i + 1, s, Decode(m.t, c0), v);
  }

  // A swap of the candidate, and a search of the scalarsets below, cover one more.
  lemma CoveredStep(m: Model, i: nat, ds: seq<nat>, es: seq<nat>, q: seq<nat>, v: Value, s: Bits, c: Bits, b: Bits, s': Bits, c': Bits)
    requires ModelOk(m) && i < |m.bounds| && |ds| == |es| == m.bounds[i] && IsDigits(|ds|, ds) && IsDigits(|es|, es)
    requires Has(m.t, v) && |c| == |b| == Width(m.t) && PermOf(m, i, q)
    requires Covered(m, i, ds, v, s, c) && Searched(m, i + 1, s, b, s', c')
    requires Rank(|es|, es) == Rank(|ds|, ds) + 1
    requires Numbered(|ds|, Rank(|es|, es)) == Compose(Numbered(|ds|, Rank(|ds|, ds)), q)
    requires Decode(m.t, b) == Act(m.t, i, q, Decode(m.t, c))
    ensures Covered(m, i, es, v, s', c')
  {
    hide Act, Decode, Has, NoGreater, Orbit, Numbered, Rank, Least, Compose, IsPerm, Factorial, Sound, Searched;
    var row := Numbered(|ds|, Rank(|ds|, ds));
    SearchedStep(m, i, row, q, v, s, c, b, s', c');
    forall x | 0 <= x <= Rank(|es|, es) ensures Least(m, i + 1, s', Act(m.t, i, Numbered(|es|, x), v)) {
      if x <= Rank(|ds|, ds) { LeastBetter(m, i + 1, s, s', Act(m.t, i, Numbered(|ds|, x), v)); }
    }
  }

  // The search that follows a swap is one of the arrangement the swap completes.
  lemma SearchedStep(m: Model, i: nat, row: seq<nat>, q: seq<nat>, v: Value, s: Bits, c: Bits, b: Bits, s': Bits, c': Bits)
    requires ModelOk(m) && i < |m.bounds| && Has(m.t, v) && |c| == |b| == Width(m.t) && PermOf(m, i, row) && PermOf(m, i, q)
    requires Orbit(m, i + 1, Act(m.t, i, row, v), Decode(m.t, c)) && Searched(m, i + 1, s, b, s', c')
    requires Decode(m.t, b) == Act(m.t, i, q, Decode(m.t, c))
    ensures |c'| == Width(m.t) && NoGreater(s', s)
    ensures Orbit(m, i + 1, Act(m.t, i, Compose(row, q), v), Decode(m.t, c'))
    ensures Least(m, i + 1, s', Act(m.t, i, Compose(row, q), v))
  {
    hide Act, Decode, Has, NoGreater, Orbit, Least, Compose, IsPerm, Sound;
    var w, w' := Act(m.t, i, row, v), Act(m.t, i, Compose(row, q), v);
    ActCompose(m.t, i, row, q, v);
    OrbitAct(m, i + 1, i, q, w, Decode(m.t, c));
    OrbitTransitive(m, i + 1, w', Decode(m.t, b), Decode(m.t, c'));
    LeastMoves(m, i + 1, s', Decode(m.t, b), w');
  }

  // When all digits are full, all arrangements have been covered.
  lemma CoveredAll(m: Model, i: nat, stack: seq<nat>, ds: seq<nat>, v: Value, s: Bits, c: Bits)
    requires ModelOk(m) && i < |m.bounds| && |stack| == |ds| == m.bounds[i] && IsDigits(|ds|, ds) && Looking(stack, ds, |ds|)
    requires Has(m.t, v) && |c| == Width(m.t) && Covered(m, i, ds, v, s, c)
    ensures Least(m, i, s, v)
  {
    hide Act, Decode, Has, Orbit, Numbered, Rank, Least, IsPerm, Factorial, Sound, Looking;
    LookingEdges(|ds|, stack, ds);
    LeastOverall(m, i, s, v);
  }

  // ----- where the search has been -----

  ghost predicate Along(m: Model, i: nat, s0: Bits, c0: Bits, s: Bits, c: Bits)
    requires ModelOk(m) && i <= |m.bounds|
  {
    && |s0| == |c0| == |s| == |c| == Width(m.t) && |s| % CHAR_BIT == 0
    && Orbit(m, i, Decode(m.t, c0), Decode(m.t, c)) && NoGreater(s, s0)
    && (s == s0 || Orbit(m, i, Decode(m.t, c0), Decode(m.t, s)))
  }

  lemma AlongStart(m: Model, i: nat, s0: Bits, c0: Bits, s: Bits, c: Bits)
    requires ModelOk(m) && i < |m.bounds| && Searched(m, i + 1, s0, c0, s, c)
    ensures Along(m, i, s0, c0, s, c)
  {
    hide Decode, NoGreater, Orbit, Least;
    OrbitMore(m, i, i + 1, Decode(m.t, c0), Decode(m.t, c));
    if s != s0 { OrbitMore(m, i, i + 1, Decode(m.t, c0), Decode(m.t, s)); }
  }

  lemma AlongStep(m: Model, i: nat, q: seq<nat>, s0: Bits, c0: Bits, s: Bits, c: Bits, b: Bits, s': Bits, c': Bits)
    requires ModelOk(m) && i < |m.bounds| && Along(m, i, s0, c0, s, c) && PermOf(m, i, q) && |b| == Width(m.t)
    requires Decode(m.t, b) == Act(m.t, i, q, Decode(m.t, c)) && Searched(m, i + 1, s, b, s', c')
    ensures Along(m, i, s0, c0, s', c')
  {
    hide Act, Decode, Memcmp, Orbit, Least, IsPerm;
    var v0, v, w := Decode(m.t, c0), Decode(m.t, c), Decode(m.t, b);
    OrbitOne(m, i, q, v);
    OrbitTransitive(m, i, v0, v, w);
    OrbitMore(m, i, i + 1, w, Decode(m.t, c'));
    OrbitTransitive(m, i, v0, w, Decode(m.t, c'));
    MemcmpOrder(s', s, s0);
    if s' != s {
      OrbitMore(m, i, i + 1, w, Decode(m.t, s'));
      OrbitTransitive(m, i, v0, w, Decode(m.t, s'));
    }
  }

  lemma SearchedAll(m: Model, i: nat, v: Value, s0: Bits, c0: Bits, s: Bits, c: Bits)
    requires ModelOk(m) && i < |m.bounds| && Along(m, i, s0, c0, s, c) && Has(m.t, v)
    requires Orbit(m, i, Decode(m.t, c0), v) && Least(m, i, s, v)
    ensures Searched(m, i, s0, c0, s, c)
  {
    hide Decode, Orbit, Least, NoGreater;
    LeastMoves(m, i, s, v, Decode(m.t, c0));
  }

  // Taking the candidate if it is better ends a search below the last scalarset,
  // and does no harm after any other.
  lemma SearchedNone(m: Model, s0: Bits, c: Bits, s: Bits)
    requires ModelOk(m) && |s0| == |c| == Width(m.t) && |c| % CHAR_BIT == 0
    requires NoGreater(s, c) && NoGreater(s, s0) && (s == s0 || s == c)
    ensures Searched(m, |m.bounds|, s0, c, s, c)
  {
    hide Decode, Memcmp;
    LeastItself(m, s, c);
  }

  lemma SearchedImproved(m: Model, i: nat, s0: Bits, c0: Bits, s: Bits, c: Bits, s': Bits)
    requires ModelOk(m) && i <= |m.bounds| && Searched(m, i, s0, c0, s, c)
    requires NoGreater(s', s) && (s' == s || s' == c)
    ensures Searched(m, i, s0, c0, s', c)
  {
    hide Decode, Memcmp, Orbit, Least;
    LeastBetter(m, i, s, s', Decode(m.t, c0));
    MemcmpOrder(s', s, s0);
  }

  /** The search over scalarsets i and up: whatever s was, it is now that or the
      least state of the candidate's orbit, whichever comes first. */
  method Loop(m: Model, i: nat, s: array<bool>, sx: array<nat>, c: array<bool>, cx: array<nat>, ghost v: Value)
    requires i < |m.bounds| && s != c && sx != cx
    requires StandsFor(m, s[..], sx[..], v) && StandsFor(m, c[..], cx[..], v)
    modifies s, sx, c, cx
    ensures StandsFor(m, s[..], sx[..], v) && StandsFor(m, c[..], cx[..], v)
    ensures Searched(m, i, old(s[..]), old(c[..]), s[..], c[..])
    ensures forall k :: 0 <= k < i && k < cx.Length ==> cx[k] == old(cx[k])
    decreases |m.bounds| - i, 1
  {
    hide StandsFor, Searched, Along, Covered, Looking, IsDigits, Decode, Orbit, Least, Numbered, Factorial, Rank, Incremented;
    ghost var s0, c0 := s[..], c[..];
    Before(m, i, s, sx, c, cx, v);
    StandsSays(m, c[..], cx[..], v, i);
    var n := m.bounds[i];
    var stack := new nat[n](_ => 0);
    var schedule := Recall(m, i, cx[i]);
    ghost var base, ds := Decode(m.t, c[..]), stack[..];
    CoveredStart(m, i, ds, s0, c0, s[..], c[..]);
    AlongStart(m, i, s0, c0, s[..], c[..]);
    assert Orbit(m, i, Decode(m.t, c0), base) by { AlongSays(m, i, s0, c0, s[..], c[..]); }
    var j := 0;
    while j < n
      invariant j <= n == |ds| && IsDigits(n, ds) && Looking(stack[..], ds, j)
      invariant StandsFor(m, s[..], sx[..], v) && StandsFor(m, c[..], cx[..], v) && i < cx.Length
      invariant cx[i] < Factorial(n) && schedule[..] == Numbered(n, cx[i])
      invariant forall k :: 0 <= k < i ==> cx[k] == old(cx[k])
      invariant Covered(m, i, ds, base, s[..], c[..]) && Along(m, i, s0, c0, s[..], c[..])
      decreases Factorial(n) - Rank(n, ds), n - j
    {
      ghost var digits := stack[..];
      if stack[j] < j {
        ghost var s1, c1 := s[..], c[..];
        var x := if j % 2 == 0 then 0 else stack[j];
        NextNumber(n, digits, ds, j);
        SwapCandidate(m, i, c, cx, schedule, x, j, v);
        ghost var b := c[..];
        Visit(m, i + 1, s, sx, c, cx, v);
        CoveredStep(m, i, ds, Incremented(ds, j), Transposition(n, x, j), base, s1, c1, b, s[..], c[..]);
        AlongStep(m, i, Transposition(n, x, j), s0, c0, s1, c1, b, s[..], c[..]);
        ds := Incremented(ds, j);
        stack[j] := stack[j] + 1;
        assert stack[..] == digits[j := digits[j] + 1];
        j := 0;
      } else {
        ClearDigit(digits, ds, j);
        stack[j] := 0;
        assert stack[..] == digits[j := 0];
        j := j + 1;
      }
    }
    CoveredAll(m, i, stack[..], ds, base, s[..], c[..]);
    SearchedAll(m, i, base, s0, c0, s[..], c[..]);
  }

  lemma AlongSays(m: Model, i: nat, s0: Bits, c0: Bits, s: Bits, c: Bits)
    requires ModelOk(m) && i <= |m.bounds| && Along(m, i, s0, c0, s, c)
    ensures Orbit(m, i, Decode(m.t, c0), Decode(m.t, c))
  {
  }

  // What comes before the loop over scalarset i.
  method Before(m: Model, i: nat, s: array<bool>, sx: array<nat>, c: array<bool>, cx: array<nat>, ghost v: Value)
    requires i < |m.bounds| && s != c && sx != cx
    requires StandsFor(m, s[..], sx[..], v) && StandsFor(m, c[..], cx[..], v)
    modifies s, sx, c, cx
    ensures StandsFor(m, s[..], sx[..], v) && StandsFor(m, c[..], cx[..], v)
    ensures Searched(m, i + 1, old(s[..]), old(c[..]), s[..], c[..])
    ensures forall k :: 0 <= k <= i && k < cx.Length ==> cx[k] == old(cx[k])
    decreases |m.bounds| - i, 0
  {
    hide StandsFor, Searched, Decode;
    ghost var s0, c0 := s[..], c[..];
    StandsSize(m, s0, sx[..], v);
    StandsSize(m, c0, cx[..], v);
    if i + 1 < |m.bounds| {
      Loop(m, i + 1, s, sx, c, cx, v);
      ghost var s1 := s[..];
      Improve(m, s, sx, c, cx, v);
      SearchedImproved(m, i + 1, s0, c0, s1, c[..], s[..]);
    } else {
      Improve(m, s, sx, c, cx, v);
      SearchedNone(m, s0, c0, s[..]);
    }
  }

  // What comes after each swap of scalarset i - 1.
  method Visit(m: Model, i: nat, s: array<bool>, sx: array<nat>, c: array<bool>, cx: array<nat>, ghost v: Value)
    requires i <= |m.bounds| && s != c && sx != cx
    requires StandsFor(m, s[..], sx[..], v) && StandsFor(m, c[..], cx[..], v)
    modifies s, sx, c, cx
    ensures StandsFor(m, s[..], sx[..], v) && StandsFor(m, c[..], cx[..], v)
    ensures Searched(m, i, old(s[..]), old(c[..]), s[..], c[..])
    ensures forall k :: 0 <= k < i && k < cx.Length ==> cx[k] == old(cx[k])
    decreases |m.bounds| - i, 2
  {
    hide StandsFor, Searched, Decode;
    ghost var s0, c0 := s[..], c[..];
    StandsSize(m, s0, sx[..], v);
    StandsSize(m, c0, cx[..], v);
    if i < |m.bounds| {
      Loop(m, i, s, sx, c, cx, v);
    } else {
      Improve(m, s, sx, c, cx, v);
      SearchedNone(m, s0, c0, s[..]);
    }
  }

  /** The result stands for the same state, and is the least in its orbit. */
  method Canonicalise(m: Model, s: array<bool>, sx: array<nat>, ghost v: Value)
    requires StandsFor(m, s[..], sx[..], v)
    modifies s, sx
    ensures StandsFor(m, s[..], sx[..], v)
    ensures IsCanonical(m, old(s[..]), s[..])
  {
    hide StandsFor, Searched, Decode;
    ghost var s0, x0 := s[..], sx[..];
    StandsSize(m, s0, x0, v);
    if |m.bounds| > 0 {
      var c := new bool[s.Length];
      forall i | 0 <= i < s.Length { c[i] := s[i]; }
      var cx := new nat[sx.Length];
      forall i | 0 <= i < sx.Length { cx[i] := sx[i]; }
      assert s[..] == s0 && sx[..] == x0 && c[..] == s0 && cx[..] == x0;
      Loop(m, 0, s, sx, c, cx, v);
      CanonicalFound(m, s0, s[..], c[..]);
    } else {
      MemcmpOrder(s0, s0, s0);
      CanonicalOnly(m, s0);
    }
  }

  /** Of all states in the orbit of s0, s is the least. */
  ghost predicate IsCanonical(m: Model, s0: Bits, s: Bits)
    requires ModelOk(m)
  {
    && |s0| == |s| == Width(m.t) && |s| % CHAR_BIT == 0
    && Orbit(m, 0, Decode(m.t, s0), Decode(m.t, s)) && Least(m, 0, s, Decode(m.t, s0))
  }

  lemma CanonicalFound(m: Model, s0: Bits, s: Bits, c: Bits)
    requires ModelOk(m) && Searched(m, 0, s0, s0, s, c)
    ensures IsCanonical(m, s0, s)
  {
    hide Decode;
    OrbitReflexive(m, 0, Decode(m.t, s0));
  }

  lemma CanonicalOnly(m: Model, s: Bits)
    requires ModelOk(m) && |m.bounds| == 0 && |s| == Width(m.t) && |s| % CHAR_BIT == 0 && NoGreater(s, s)
    ensures IsCanonical(m, s, s)
  {
    LeastItself(m, s, s);
  }

  /** Two states that differ only by a rearrangement of scalarsets become identical,
      and states that become identical differ by no more than that. */
  lemma CanonicalUnique(m: Model, a0: Bits, a: Bits, b0: Bits, b: Bits)
    requires ModelOk(m) && IsCanonical(m, a0, a) && IsCanonical(m, b0, b)
    ensures a == b <==> Orbit(m, 0, Decode(m.t, a0), Decode(m.t, b0))
  {
    hide Decode, Memcmp, Orbit;
    var va, vb := Decode(m.t, a0), Decode(m.t, b0);
    OrbitSymmetric(m, 0, vb, Decode(m.t, b));
    if a == b {
      OrbitTransitive(m, 0, va, Decode(m.t, a), vb);
    }
    if Orbit(m, 0, va, vb) {
      OrbitSymmetric(m, 0, va, vb);
      OrbitTransitive(m, 0, va, vb, Decode(m.t, b));
      OrbitTransitive(m, 0, vb, va, Decode(m.t, a));
      MemcmpOrder(a, b, a);
    }
  }
}
