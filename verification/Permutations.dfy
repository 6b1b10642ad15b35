/** Heap's algorithm as a numbering of the permutations: from a number to its
    permutation and back. */
module Permutations {
  import opened Arithmetic

  /** A permutation lists 0 .. n-1, each once. */
  predicate IsPerm(p: seq<nat>)
  {
    && (forall i :: 0 <= i < |p| ==> p[i] < |p|)
    && Distinct(p)
  }

  predicate Distinct(p: seq<nat>)
  {
    forall i, j :: 0 <= i < j < |p| ==> p[i] != p[j]
  }

  function Identity(n: nat): (p: seq<nat>)
    ensures |p| == n && IsPerm(p)
  {
    seq(n, i => i)
  }

  function Swap(a: seq<nat>, i: nat, j: nat): (b: seq<nat>)
    requires i < |a| && j < |a|
    ensures |b| == |a| && multiset(b) == multiset(a)
    ensures forall k :: 0 <= k < |a| ==> b[k] == a[if k == i then j else if k == j then i else k]
  {
    a[i := a[j]][j := a[i]]
  }

  // ----- what the algorithm does, level by level -----

  /** Permuting the first k places goes through k blocks, in each of which the last
      of them keeps what it has. The swap before block d + 1 is of places d or 0. */
  function Other(k: nat, d: nat): nat
  {
    if (k - 1) % 2 == 0 then 0 else d
  }

  lemma Tails(a: seq<nat>, b: seq<nat>, k: nat)
    requires 1 <= k <= |a| == |b| && b[k - 1..] == a[k - 1..]
    ensures b[k..] == a[k..]
  {
    assert b[k..] == b[k - 1..][1..] && a[k..] == a[k - 1..][1..];
  }

  lemma SwapTail(a: seq<nat>, i: nat, j: nat, k: nat)
    requires i < k && j < k <= |a|
    ensures Swap(a, i, j)[k..] == a[k..]
  {
  }

  /** The row at the start of block d, and after the last block, when all of the
      first k places of row a are permuted. */
  function BlockStart(k: nat, a: seq<nat>, d: nat): (b: seq<nat>)
    requires 1 <= k <= |a| && d < k
    ensures |b| == |a|
    decreases k, 0, d
  {
    if d == 0 then a else Swap(End(k - 1, BlockStart(k, a, d - 1)), Other(k, d - 1), k - 1)
  }

  function End(k: nat, a: seq<nat>): (b: seq<nat>)
    requires k <= |a|
    ensures |b| == |a|
    decreases k, 1, 0
  {
    if k <= 1 then a else End(k - 1, BlockStart(k, a, k - 1))
  }

  /** The row for given digits: digit i, at most i, tells the block at level i + 1. */
  function At(k: nat, a: seq<nat>, ds: seq<nat>): (b: seq<nat>)
    requires k <= |a| && IsDigits(k, ds)
    ensures |b| == |a|
  {
    if k == 0 then a else At(k - 1, BlockStart(k, a, ds[k - 1]), ds)
  }

  lemma AtUnfolds(k: nat, a: seq<nat>, ds: seq<nat>)
    requires k <= |a| && IsDigits(k, ds)
    ensures At(k, a, ds) == if k == 0 then a else At(k - 1, BlockStart(k, a, ds[k - 1]), ds)
  {
  }

  lemma EndUnfolds(k: nat, a: seq<nat>)
    requires k <= |a|
    ensures End(k, a) == if k <= 1 then a else End(k - 1, BlockStart(k, a, k - 1))
  {
  }

  lemma BlockUnfolds(k: nat, a: seq<nat>, d: nat)
    requires 1 <= k <= |a| && 0 < d < k
    ensures BlockStart(k, a, d) == Swap(End(k - 1, BlockStart(k, a, d - 1)), Other(k, d - 1), k - 1)
  {
    hide End;
  }

  /** Row b is row a with its first k places rearranged. */
  predicate Rearranges(a: seq<nat>, b: seq<nat>, k: nat)
  {
    |b| == |a| && k <= |a| && multiset(b) == multiset(a) && b[k..] == a[k..]
  }

  lemma RearrangesMore(a: seq<nat>, b: seq<nat>, c: seq<nat>, k: nat)
    requires 1 <= k && Rearranges(a, b, k) && Rearranges(b, c, k - 1)
    ensures Rearranges(a, c, k)
  {
    Tails(b, c, k);
  }

  lemma {:induction false} BlockRearranges(k: nat, a: seq<nat>, d: nat)
    requires 1 <= k <= |a| && d < k
    ensures Rearranges(a, BlockStart(k, a, d), k)
    decreases k, 0, d
  {
    hide BlockStart, End, Swap;
    if d == 0 {
      BlockZero(k, a);
    } else {
      var b := BlockStart(k, a, d - 1);
      BlockRearranges(k, a, d - 1);
      EndRearranges(k - 1, b);
      RearrangesMore(a, b, End(k - 1, b), k);
      SwapTail(End(k - 1, b), Other(k, d - 1), k - 1, k);
      BlockUnfolds(k, a, d);
    }
  }

  lemma {:induction false} EndRearranges(k: nat, a: seq<nat>)
    requires k <= |a|
    ensures Rearranges(a, End(k, a), k)
    decreases k, 1, 0
  {
    hide BlockStart, End;
    EndUnfolds(k, a);
    if k > 1 {
      var b := BlockStart(k, a, k - 1);
      BlockRearranges(k, a, k - 1);
      EndRearranges(k - 1, b);
      RearrangesMore(a, b, End(k - 1, b), k);
    }
  }

  lemma {:induction false} AtRearranges(k: nat, a: seq<nat>, ds: seq<nat>)
    requires k <= |a| && IsDigits(k, ds)
    ensures Rearranges(a, At(k, a, ds), k)
  {
    hide BlockStart, At;
    AtUnfolds(k, a, ds);
    if k > 0 {
      var b := BlockStart(k, a, ds[k - 1]);
      BlockRearranges(k, a, ds[k - 1]);
      AtRearranges(k - 1, b, ds);
      RearrangesMore(a, b, At(k - 1, b, ds), k);
    }
  }

  predicate IsDigits(k: nat, ds: seq<nat>)
  {
    k <= |ds| && forall i :: 0 <= i < k ==> ds[i] <= i
  }

  // ----- closed forms -----

  /** Where the entry at place j comes from once k places have been permuted. */
  function EndFrom(k: nat, j: nat): nat
  {
    if k <= 1 || j >= k then j
    else if k % 2 == 1 || k == 2 then if j == 0 then k - 1 else if j == k - 1 then 0 else j
    else if j == 0 then k - 3
    else if j == 1 then k - 2
    else if j <= k - 3 then j - 1
    else if j == k - 2 then k - 1
    else 0
  }

  // From block to block an odd number of places rotate along the cycle
  // m, m-3, m-4, .., 1, m-2, m-1, 0 where m is the last place; `Step` and `Pos`
  // are the place at a position of the cycle and the position of a place.
  function Step(m: nat, t: nat): nat
    requires t <= m
  {
    if m == 2 then 2 - t else if t == 0 then m else if t + 3 <= m then m - 2 - t else if t < m then t else 0
  }

  function Pos(m: nat, j: nat): nat
    requires j <= m
  {
    if m == 2 then 2 - j else if j == m then 0 else if j == 0 then m else if j + 3 <= m then m - 2 - j else j
  }

  /** Where the entry at place j comes from at the start of block d. */
  function BlockFrom(k: nat, d: nat, j: nat): nat
    requires d < k
  {
    if k == 1 || j >= k || d == 0 then j
    else if k % 2 == 1 then
      var t := Pos(k - 1, j) + d;
      Step(k - 1, if t < k then t else if t - k < k then t - k else 0)
    else if k == 2 then 1 - j
    else if d == 1 then if j == 0 then k - 1 else if j == k - 2 then 0 else if j == k - 1 then k - 2 else j
    else if d == k - 1 then if j == 0 then k - 1 else if j == 1 then k - 2 else if j < k - 1 then j - 1 else 0
    else if j == 0 then if d % 2 == 0 then 0 else k - 1
    else if j == k - 2 then if d % 2 == 0 then k - 1 else 0
    else if j == 1 then k - 2
    else if j == k - 1 then d - 1
    else if j < d then j - 1 else j
  }

  function SwapFrom(x: nat, y: nat, j: nat): nat
  {
    if j == x then y else if j == y then x else j
  }

  lemma BlockFromStep(k: nat, d: nat, j: nat)
    requires 2 <= k && 1 <= d < k && j < k
    ensures BlockFrom(k, d, j) == BlockFrom(k, d - 1, EndFrom(k - 1, SwapFrom(Other(k, d - 1), k - 1, j)))
  {
  }

  lemma EndFromStep(k: nat, j: nat)
    requires 2 <= k && j < k
    ensures EndFrom(k, j) == BlockFrom(k, k - 1, EndFrom(k - 1, j))
  {
  }

  lemma FromEdges(k: nat, j: nat)
    ensures k > 0 ==> BlockFrom(k, 0, j) == j
    ensures k <= 1 || k <= j ==> EndFrom(k, j) == j
  {
  }

  // Both closed forms hold at the next level down, in all places but the first k.
  lemma {:induction false} BlockForm(k: nat, a: seq<nat>, d: nat, j: nat)
    requires 1 <= k <= |a| && d < k && j < k
    ensures BlockFrom(k, d, j) < k && BlockStart(k, a, d)[j] == a[BlockFrom(k, d, j)]
    decreases k, 0, d
  {
    hide BlockFrom, EndFrom, End;
    FromEdges(k, j);
    if d > 0 {
      var x := Other(k, d - 1);
      var i := SwapFrom(x, k - 1, j);
      EndFormBeyond(k - 1, BlockStart(k, a, d - 1), i);
      BlockFromStep(k, d, j);
      BlockForm(k, a, d - 1, EndFrom(k - 1, i));
    }
  }

  lemma {:induction false} EndFormBeyond(k: nat, a: seq<nat>, j: nat)
    requires k < |a| && j <= k
    ensures EndFrom(k, j) <= k && End(k, a)[j] == a[EndFrom(k, j)]
    decreases k, 2, 0
  {
    hide BlockFrom, EndFrom, BlockStart;
    FromEdges(k, j);
    EndRearranges(k, a);
    if j < k { EndForm(k, a, j); } else { assert End(k, a)[k] == End(k, a)[k..][0] == a[k..][0]; }
  }

  lemma {:induction false} EndForm(k: nat, a: seq<nat>, j: nat)
    requires 1 <= k <= |a| && j < k
    ensures EndFrom(k, j) < k && End(k, a)[j] == a[EndFrom(k, j)]
    decreases k, 1, 0
  {
    hide BlockFrom, EndFrom, BlockStart;
    FromEdges(k, j);
    if k > 1 {
      EndFormBeyond(k - 1, BlockStart(k, a, k - 1), j);
      EndFromStep(k, j);
      BlockForm(k, a, k - 1, EndFrom(k - 1, j));
    }
  }

  // ----- the last place: every entry, each in one block -----

  function BlockWith(k: nat, i: nat): (d: nat)
    requires i < k
    ensures d < k
  {
    if k % 2 == 1 then if k == 1 then 0 else Pos(k - 1, i)
    else if i == k - 1 then 0 else if i == k - 2 then 1 else if i == 0 then k - 1 else i + 1
  }

  lemma LastOnce(k: nat, i: nat, d: nat)
    requires i < k && d < k
    ensures BlockFrom(k, BlockWith(k, i), k - 1) == i
    ensures BlockFrom(k, d, k - 1) < k && BlockWith(k, BlockFrom(k, d, k - 1)) == d
  {
  }

  lemma LastOf(k: nat, a: seq<nat>, ds: seq<nat>)
    requires 1 <= k <= |a| && IsDigits(k, ds)
    ensures BlockFrom(k, ds[k - 1], k - 1) < k
    ensures At(k, a, ds)[k - 1] == BlockStart(k, a, ds[k - 1])[k - 1] == a[BlockFrom(k, ds[k - 1], k - 1)]
  {
    hide BlockFrom, BlockStart;
    var b := BlockStart(k, a, ds[k - 1]);
    BlockForm(k, a, ds[k - 1], k - 1);
    AtRearranges(k - 1, b, ds);
    assert At(k - 1, b, ds)[k - 1] == At(k - 1, b, ds)[k - 1..][0] == b[k - 1..][0];
  }

  lemma {:induction false} DistinctCount(a: seq<nat>)
    ensures Distinct(a) <==> forall x :: multiset(a)[x] <= 1
  {
    if a != [] {
      var n := |a| - 1;
      DistinctCount(a[..n]);
      assert a == a[..n] + [a[n]];
      assert multiset(a) == multiset(a[..n]) + multiset{a[n]};
      if Distinct(a) {
        forall x ensures multiset(a)[x] <= 1 {
          assert a[n] !in a[..n];
        }
      } else if Distinct(a[..n]) {
        assert a[n] in a[..n];
        assert multiset(a)[a[n]] >= 2;
      } else {
        var x :| multiset(a[..n])[x] > 1;
        assert multiset(a)[x] > 1;
      }
    }
  }

  lemma DistinctSame(a: seq<nat>, b: seq<nat>)
    requires Distinct(a) && multiset(a) == multiset(b)
    ensures Distinct(b)
  {
    DistinctCount(a);
    DistinctCount(b);
  }

  /** Different digits give different rows. */
  lemma {:induction false} AtOnce(k: nat, a: seq<nat>, ds: seq<nat>, es: seq<nat>, i: nat)
    requires k <= |a| && Distinct(a) && IsDigits(k, ds) && IsDigits(k, es) && At(k, a, ds) == At(k, a, es) && i < k
    ensures ds[i] == es[i]
  {
    hide BlockFrom, BlockStart, BlockWith;
    LastOf(k, a, ds);
    LastOf(k, a, es);
    LastOnce(k, 0, ds[k - 1]);
    LastOnce(k, 0, es[k - 1]);
    if i < k - 1 {
      var b := BlockStart(k, a, ds[k - 1]);
      BlockRearranges(k, a, ds[k - 1]);
      DistinctSame(a, b);
      AtOnce(k - 1, b, ds, es, i);
    }
  }

  lemma {:induction false} AtPrefix(k: nat, a: seq<nat>, ds: seq<nat>, es: seq<nat>)
    requires k <= |a| && IsDigits(k, ds) && IsDigits(k, es) && forall i :: 0 <= i < k ==> ds[i] == es[i]
    ensures At(k, a, ds) == At(k, a, es)
  {
    hide BlockStart, At;
    AtUnfolds(k, a, ds);
    AtUnfolds(k, a, es);
    if k > 0 { AtPrefix(k - 1, BlockStart(k, a, ds[k - 1]), ds, es); }
  }

  /** Every rearrangement of the first k places is the row for some digits. */
  lemma {:induction false} AtAll(k: nat, a: seq<nat>, p: seq<nat>) returns (ds: seq<nat>)
    requires k <= |a| == |p| && multiset(p) == multiset(a) && p[k..] == a[k..]
    ensures |ds| == k && IsDigits(k, ds) && At(k, a, ds) == p
  {
    hide BlockFrom, BlockStart, BlockWith;
    if k == 0 {
      ds := [];
      assert p == p[0..] == a[0..] == a;
    } else {
      var i := FromFront(k, a, p);
      var d := BlockWith(k, i);
      var b := BlockStart(k, a, d);
      BlockForm(k, a, d, k - 1);
      LastOnce(k, i, d);
      BlockRearranges(k, a, d);
      assert p[k - 1..] == [p[k - 1]] + p[k..];
      assert b[k - 1..] == [b[k - 1]] + b[k..];
      var es := AtAll(k - 1, b, p);
      ds := es + [d];
      AtPrefix(k - 1, b, es, ds);
    }
  }

  lemma Halves(a: seq<nat>, k: nat)
    requires k <= |a|
    ensures multiset(a) == multiset(a[..k]) + multiset(a[k..])
  {
    assert a == a[..k] + a[k..];
  }

  lemma SameRest(x: multiset<nat>, y: multiset<nat>, z: multiset<nat>)
    requires x + z == y + z
    ensures x == y
  {
    assert x == (x + z) - z && y == (y + z) - z;
  }

  lemma FromFront(k: nat, a: seq<nat>, p: seq<nat>) returns (i: nat)
    requires 1 <= k <= |a| == |p| && multiset(p) == multiset(a) && p[k..] == a[k..]
    ensures i < k && a[i] == p[k - 1]
  {
    Halves(a, k);
    Halves(p, k);
    SameRest(multiset(a[..k]), multiset(p[..k]), multiset(a[k..]));
    assert p[..k][k - 1] in multiset(p[..k]);
    i :| 0 <= i < k && a[..k][i] == p[k - 1];
  }

  // ----- one step of the loop -----

  function Incremented(ds: seq<nat>, i: nat): seq<nat>
    requires i < |ds|
  {
    seq(|ds|, j requires 0 <= j < |ds| => if j < i then 0 else if j == i then ds[i] + 1 else ds[j])
  }

  lemma {:induction false} AtZeros(k: nat, a: seq<nat>, ds: seq<nat>)
    requires k <= |a| && IsDigits(k, ds) && forall i :: 0 <= i < k ==> ds[i] == 0
    ensures At(k, a, ds) == a
  {
    hide BlockStart, At;
    AtUnfolds(k, a, ds);
    if k > 0 {
      BlockZero(k, a);
      AtZeros(k - 1, a, ds);
    }
  }

  lemma {:induction false} AtFull(k: nat, a: seq<nat>, ds: seq<nat>)
    requires k <= |a| && IsDigits(k, ds) && forall i :: 0 <= i < k ==> ds[i] == i
    ensures At(k, a, ds) == End(k, a)
  {
    hide BlockStart, End, At;
    AtUnfolds(k, a, ds);
    EndUnfolds(k, a);
    if k > 0 {
      if k == 1 { BlockZero(1, a); }
      AtFull(k - 1, BlockStart(k, a, ds[k - 1]), ds);
      EndUnfolds(k - 1, BlockStart(k, a, ds[k - 1]));
    }
  }

  lemma BlockZero(k: nat, a: seq<nat>)
    requires 1 <= k <= |a|
    ensures BlockStart(k, a, 0) == a
  {
  }

  lemma IncrementedIs(ds: seq<nat>, i: nat)
    requires i < |ds|
    ensures var es := Incremented(ds, i);
            |es| == |ds| && es[i] == ds[i] + 1 && (forall j :: 0 <= j < i ==> es[j] == 0) && (forall j :: i < j < |ds| ==> es[j] == ds[j])
  {
  }

  lemma AtNextTop(k: nat, a: seq<nat>, ds: seq<nat>, es: seq<nat>)
    requires 0 < k <= |a| && IsDigits(k, ds) && IsDigits(k, es) && es[k - 1] == ds[k - 1] + 1
    requires forall j :: 0 <= j < k - 1 ==> ds[j] == j && es[j] == 0
    ensures At(k, a, es) == Swap(At(k, a, ds), Other(k, ds[k - 1]), k - 1)
  {
    hide Swap, End, BlockStart, At;
    AtUnfolds(k, a, ds);
    AtUnfolds(k, a, es);
    AtFull(k - 1, BlockStart(k, a, ds[k - 1]), ds);
    AtZeros(k - 1, BlockStart(k, a, es[k - 1]), es);
    BlockUnfolds(k, a, es[k - 1]);
  }

  /** Counting up swaps two places: the one whose digit rises, and its partner. */
  lemma {:induction false} AtNext(k: nat, a: seq<nat>, ds: seq<nat>, i: nat)
    requires k <= |a| && IsDigits(k, ds) && i < k && ds[i] < i && forall j :: 0 <= j < i ==> ds[j] == j
    ensures IsDigits(k, Incremented(ds, i))
    ensures At(k, a, Incremented(ds, i)) == Swap(At(k, a, ds), Other(i + 1, ds[i]), i)
  {
    hide Swap, End, BlockStart, At, Incremented;
    var es := Incremented(ds, i);
    IncrementedIs(ds, i);
    if i == k - 1 {
      AtNextTop(k, a, ds, es);
    } else {
      AtUnfolds(k, a, ds);
      AtUnfolds(k, a, es);
      AtNext(k - 1, BlockStart(k, a, ds[k - 1]), ds, i);
    }
  }

  // ----- numbers -----

  function Factorial(n: nat): (f: nat)
    ensures f >= 1
  {
    if n == 0 then 1 else n * Factorial(n - 1)
  }

  /** The number whose digits, in factorial base, are the first k of ds. */
  function Rank(k: nat, ds: seq<nat>): (v: nat)
    requires IsDigits(k, ds)
    ensures v < Factorial(k)
  {
    if k == 0 then 0 else
      assert ds[k - 1] * Factorial(k - 1) <= (k - 1) * Factorial(k - 1) by { MulMono(ds[k - 1], k - 1, Factorial(k - 1)); }
      ds[k - 1] * Factorial(k - 1) + Rank(k - 1, ds)
  }

  lemma TopDigit(k: nat, v: nat)
    requires k > 0 && v < Factorial(k)
    ensures v / Factorial(k - 1) < k && v % Factorial(k - 1) < Factorial(k - 1)
  {
    var q, f := v / Factorial(k - 1), Factorial(k - 1);
    assert v == q * f + v % f;
    if q >= k { MulMono(k, q, f); }
  }

  // The leading digit, and what the others come to.
  function Top(k: nat, v: nat): (d: nat)
    requires k > 0 && v < Factorial(k)
    ensures d < k
  {
    TopDigit(k, v);
    v / Factorial(k - 1)
  }

  function BelowTop(k: nat, v: nat): (r: nat)
    requires k > 0 && v < Factorial(k)
    ensures r < Factorial(k - 1)
  {
    TopDigit(k, v);
    v % Factorial(k - 1)
  }

  function Appended(k: nat, ds: seq<nat>, d: nat): (es: seq<nat>)
    requires k > 0 && |ds| == k - 1 && IsDigits(k - 1, ds) && d < k
    ensures |es| == k && IsDigits(k, es) && es[..k - 1] == ds && es[k - 1] == d
  {
    ds + [d]
  }

  function DigitsOf(k: nat, v: nat): (ds: seq<nat>)
    requires v < Factorial(k)
    ensures |ds| == k && IsDigits(k, ds)
  {
    if k == 0 then [] else
      Appended(k, DigitsOf(k - 1, BelowTop(k, v)), Top(k, v))
  }

  lemma {:induction false} RankOfDigits(k: nat, v: nat, ds: seq<nat>)
    requires v < Factorial(k) && k <= |ds| && ds[..k] == DigitsOf(k, v)
    ensures IsDigits(k, ds) && Rank(k, ds) == v
  {
    assert forall i :: 0 <= i < k ==> ds[i] == ds[..k][i];
    if k > 0 {
      assert ds[..k - 1] == ds[..k][..k - 1] == DigitsOf(k - 1, BelowTop(k, v));
      DivModSplit(v, Factorial(k - 1));
      RankOfDigits(k - 1, BelowTop(k, v), ds);
    }
  }

  lemma {:induction false} DigitsOfRank(k: nat, ds: seq<nat>)
    requires IsDigits(k, ds)
    ensures DigitsOf(k, Rank(k, ds)) == ds[..k]
  {
    if k > 0 {
      DigitsOfRank(k - 1, ds);
      DivModIs(Rank(k, ds), Factorial(k - 1), ds[k - 1], Rank(k - 1, ds));
      assert ds[..k] == ds[..k - 1] + [ds[k - 1]];
    }
  }

  lemma FactorialNext(k: nat)
    ensures if k == 0 then Factorial(k) == 1 else Factorial(k) == (k - 1) * Factorial(k - 1) + Factorial(k - 1)
  {
  }

  lemma {:induction false} RankEdges(k: nat, ds: seq<nat>)
    requires IsDigits(k, ds)
    ensures (forall i :: 0 <= i < k ==> ds[i] == 0) ==> Rank(k, ds) == 0
    ensures (forall i :: 0 <= i < k ==> ds[i] == i) ==> Rank(k, ds) == Factorial(k) - 1
  {
    hide Factorial;
    FactorialNext(k);
    if k > 0 { RankEdges(k - 1, ds); }
  }

  lemma {:induction false} RankNext(k: nat, ds: seq<nat>, i: nat)
    requires IsDigits(k, ds) && i < k && ds[i] < i && forall j :: 0 <= j < i ==> ds[j] == j
    ensures IsDigits(k, Incremented(ds, i)) && Rank(k, Incremented(ds, i)) == Rank(k, ds) + 1
  {
    var es := Incremented(ds, i);
    if i == k - 1 {
      RankEdges(i, ds);
      RankEdges(i, es);
      assert (ds[i] + 1) * Factorial(i) == ds[i] * Factorial(i) + Factorial(i);
    } else {
      RankNext(k - 1, ds, i);
    }
  }

  // ----- the numbering -----

  /** The v-th permutation of n places. */
  function Numbered(n: nat, v: nat): (p: seq<nat>)
    requires v < Factorial(n)
    ensures |p| == n && IsPerm(p)
  {
    AtRearranges(n, Identity(n), DigitsOf(n, v));
    Rearranged(At(n, Identity(n), DigitsOf(n, v)));
    At(n, Identity(n), DigitsOf(n, v))
  }

  lemma Rearranged(p: seq<nat>)
    requires multiset(p) == multiset(Identity(|p|))
    ensures IsPerm(p)
  {
    DistinctSame(Identity(|p|), p);
    forall i | 0 <= i < |p| ensures p[i] < |p| {
      assert p[i] in multiset(p);
      assert p[i] in Identity(|p|);
    }
  }

  lemma {:induction false} Complete(p: seq<nat>)
    requires IsPerm(p)
    ensures multiset(p) == multiset(Identity(|p|))
  {
    var id := Identity(|p|);
    DistinctCount(p);
    DistinctCount(id);
    SmallSet(p, |p|);
    SmallSet(id, |p|);
    forall x ensures multiset(p)[x] == multiset(id)[x] {
      assert x in p <==> x in multiset(p);
      assert x in id <==> x in multiset(id);
    }
  }

  // n distinct numbers below n are all of them.
  lemma {:induction false} SmallSet(p: seq<nat>, n: nat)
    requires |p| == n && Distinct(p) && forall i :: 0 <= i < n ==> p[i] < n
    ensures forall x :: 0 <= x < n <==> x in p
  {
    if n > 0 {
      if n - 1 in p {
        var i :| 0 <= i < n && p[i] == n - 1;
        var q := p[..i] + p[i + 1..];
        SmallSet(q, n - 1);
        assert forall x :: x in q ==> x in p;
      } else {
        var q := p[..n - 1];
        assert forall i :: 0 <= i < n - 1 ==> q[i] < n - 1;
        TooMany(p, n - 1);
      }
    }
  }

  lemma {:induction false} TooMany(p: seq<nat>, n: nat)
    requires |p| > n && Distinct(p) && forall i :: 0 <= i < |p| ==> p[i] < n
    ensures false
  {
    if n - 1 in p {
      var i :| 0 <= i < |p| && p[i] == n - 1;
      TooMany(p[..i] + p[i + 1..], n - 1);
    } else {
      assert p[0] < n;
      TooMany(p[..|p| - 1], n - 1);
    }
  }

  /** Different numbers number different permutations. */
  lemma NumberedOnce(n: nat, v: nat, w: nat)
    requires v < Factorial(n) && w < Factorial(n) && Numbered(n, v) == Numbered(n, w)
    ensures v == w
  {
    hide At;
    var ds, es := DigitsOf(n, v), DigitsOf(n, w);
    forall i | 0 <= i < n ensures ds[i] == es[i] { AtOnce(n, Identity(n), ds, es, i); }
    assert ds == es;
    RankOfDigits(n, v, ds);
    RankOfDigits(n, w, es);
  }

  /** Every permutation has a number. */
  lemma NumberedAll(p: seq<nat>) returns (v: nat)
    requires IsPerm(p)
    ensures v < Factorial(|p|) && Numbered(|p|, v) == p
  {
    hide At;
    var n := |p|;
    Complete(p);
    assert p[n..] == Identity(n)[n..];
    var ds := AtAll(n, Identity(n), p);
    v := Rank(n, ds);
    DigitsOfRank(n, ds);
    assert ds[..n] == ds;
  }

  // The row for digits is the permutation numbered by their value.
  lemma NumberedAt(n: nat, ds: seq<nat>)
    requires |ds| == n && IsDigits(n, ds)
    ensures Numbered(n, Rank(n, ds)) == At(n, Identity(n), ds)
  {
    DigitsOfRank(n, ds);
    assert ds[..n] == ds;
  }

  // ----- the two loops -----

  // The digits while the loop looks for the one to raise: those below i, which
  // have been cleared, count as full.
  ghost predicate Looking(stack: seq<nat>, ds: seq<nat>, i: nat)
  {
    && |ds| == |stack| && IsDigits(|ds|, ds) && i <= |ds|
    && (forall j :: 0 <= j < i ==> stack[j] == 0 && ds[j] == j)
    && (forall j :: i <= j < |ds| ==> stack[j] == ds[j])
  }

  lemma LookingEdges(n: nat, stack: seq<nat>, ds: seq<nat>)
    requires |stack| == n
    ensures (forall j :: 0 <= j < n ==> stack[j] == 0) ==> IsDigits(n, stack) && Looking(stack, stack, 0)
    ensures (forall j :: 0 <= j < n ==> stack[j] == 0) ==> Rank(n, stack) == 0 && At(n, Identity(n), stack) == Identity(n)
    ensures Looking(stack, ds, n) ==> Rank(n, ds) == Factorial(n) - 1
  {
    hide At, Rank, Identity;
    if forall j :: 0 <= j < n ==> stack[j] == 0 {
      AtZeros(n, Identity(n), stack);
      RankEdges(n, stack);
    }
    if Looking(stack, ds, n) { RankEdges(n, ds); }
  }

  lemma ClearDigit(stack: seq<nat>, ds: seq<nat>, i: nat)
    requires Looking(stack, ds, i) && i < |stack| && stack[i] >= i
    ensures Looking(stack[i := 0], ds, i + 1)
  {
  }

  lemma RaiseDigit(n: nat, stack: seq<nat>, row: seq<nat>, ds: seq<nat>, i: nat)
    requires |ds| == n && Looking(stack, ds, i) && i < n && stack[i] < i && row == At(n, Identity(n), ds)
    ensures var es, x := Incremented(ds, i), if i % 2 == 0 then 0 else stack[i];
            && |es| == n && IsDigits(n, es) && Looking(stack[i := stack[i] + 1], es, 0)
            && Rank(n, es) == Rank(n, ds) + 1
            && At(n, Identity(n), es) == row[x := row[i]][i := row[x]]
  {
    hide At, Rank;
    RankNext(n, ds, i);
    AtNext(n, Identity(n), ds, i);
  }

  lemma CountingIs(a: seq<nat>)
    requires forall i :: 0 <= i < |a| ==> a[i] == i
    ensures a == Identity(|a|)
  {
  }

  // Clears the digits and lays out the first row.
  method Begin(row: array<nat>, stack: array<nat>)
    requires row != stack && row.Length == stack.Length
    modifies row, stack
    ensures row[..] == Identity(row.Length) && forall j :: 0 <= j < stack.Length ==> stack[j] == 0
  {
    var count := row.Length;
    for i := 0 to count
      invariant forall j :: 0 <= j < i ==> stack[j] == 0
    {
      stack[i] := 0;
    }
    for i := 0 to count
      invariant forall j :: 0 <= j < i ==> row[j] == j
      invariant forall j :: 0 <= j < count ==> stack[j] == 0
    {
      row[i] := i;
    }
    CountingIs(row[..]);
  }

  // Swaps the two places that the rise of digit i swaps.
  method NextRow(row: array<nat>, stack: array<nat>, i: nat, ghost ds: seq<nat>)
    requires row != stack && row.Length == stack.Length == |ds|
    requires Looking(stack[..], ds, i) && i < row.Length && stack[i] < i && row[..] == At(|ds|, Identity(|ds|), ds)
    modifies row
    ensures var es, digits := Incremented(ds, i), stack[..];
            && |es| == |ds| && IsDigits(|ds|, es) && Looking(digits[i := digits[i] + 1], es, 0)
            && Rank(|ds|, es) == Rank(|ds|, ds) + 1
            && row[..] == At(|ds|, Identity(|ds|), es)
  {
    hide At, Rank, Factorial, Incremented, Identity, Looking;
    ghost var before := row[..];
    RaiseDigit(|ds|, stack[..], before, ds, i);
    var x := if i % 2 == 0 then 0 else stack[i];
    row[x], row[i] := row[i], row[x];
    assert row[..] == before[x := before[i]][i := before[x]];
  }

  /** The permutation with a given number; the closing assertion is not reached. */
  method IndexToPermutation(index: nat, permutation: array<nat>, stack: array<nat>)
    requires permutation != stack && permutation.Length == stack.Length && index < Factorial(permutation.Length)
    modifies permutation, stack
    ensures permutation[..] == Numbered(permutation.Length, index)
  {
    hide At, Rank, Factorial, Numbered, Incremented, Identity, Looking, IsDigits;
    var count := permutation.Length;
    var ind := 0;
    Begin(permutation, stack);
    ghost var ds := stack[..];
    LookingEdges(count, ds, ds);
    NumberedAt(count, ds);
    if ind == index { return; }
    var i := 0;
    while i < count
      invariant i <= count == |ds| && IsDigits(count, ds) && Looking(stack[..], ds, i)
      invariant permutation[..] == At(count, Identity(count), ds)
      invariant ind == Rank(count, ds) < index
      decreases index - ind, count - i
    {
      ghost var digits := stack[..];
      if stack[i] < i {
        ind := ind + 1;
        NextRow(permutation, stack, i, ds);
        ds := Incremented(ds, i);
        NumberedAt(count, ds);
        if ind == index { return; }
        stack[i] := stack[i] + 1;
        assert stack[..] == digits[i := digits[i] + 1];
        i := 0;
      } else {
        ClearDigit(digits, ds, i);
        stack[i] := 0;
        assert stack[..] == digits[i := 0];
        i := i + 1;
      }
    }
    LookingEdges(count, stack[..], ds);
    assert false;
  }

  /** The number of a given permutation; the closing assertion is not reached. */
  method PermutationToIndex(permutation: array<nat>, stack: array<nat>, working: array<nat>) returns (index: nat)
    requires permutation != stack && permutation != working && stack != working
    requires permutation.Length == stack.Length == working.Length && IsPerm(permutation[..])
    modifies stack, working
    ensures index < Factorial(permutation.Length) && Numbered(permutation.Length, index) == permutation[..]
  {
    hide At, Rank, Factorial, Numbered, IsPerm, Incremented, Identity, Looking, IsDigits;
    var count := permutation.Length;
    ghost var goal := NumberedAll(permutation[..]);
    index := 0;
    Begin(working, stack);
    ghost var ds := stack[..];
    LookingEdges(count, ds, ds);
    NumberedAt(count, ds);
    if permutation[..] == working[..] { return; }
    var i := 0;
    while i < count
      invariant i <= count == |ds| && IsDigits(count, ds) && Looking(stack[..], ds, i)
      invariant working[..] == At(count, Identity(count), ds)
      invariant index == Rank(count, ds) < goal
      decreases goal - index, count - i
    {
      ghost var digits := stack[..];
      if stack[i] < i {
        index := index + 1;
        NextRow(working, stack, i, ds);
        ds := Incremented(ds, i);
        NumberedAt(count, ds);
        if permutation[..] == working[..] { return; }
        stack[i] := stack[i] + 1;
        assert stack[..] == digits[i := digits[i] + 1];
        i := 0;
      } else {
        ClearDigit(digits, ds, i);
        stack[i] := 0;
        assert stack[..] == digits[i := 0];
        i := i + 1;
      }
    }
    LookingEdges(count, stack[..], ds);
    assert false;
  }
}
