/** Liveness properties: which seen states can reach one that satisfies each of them. */
module Liveness {
  import opened Options

  /** The explored graph. States are numbered as the scan of the seen set meets them;
      a state at the depth bound is not expanded, so it has no successors here. */
  datatype Graph = Graph(
    properties: nat,
    holds: (nat, nat) -> bool,
    successors: seq<seq<nat>>,
    previous: seq<Option<nat>>,
    depth: seq<nat>)

  predicate GraphOk(g: Graph)
  {
    && |g.previous| == |g.successors| == |g.depth|
    && (forall s, i :: 0 <= s < |g.successors| && 0 <= i < |g.successors[s]| ==> g.successors[s][i] < |g.successors|)
    && (forall s :: 0 <= s < |g.previous| && g.previous[s].Some? ==>
          var p := g.previous[s].value; p < |g.previous| && g.depth[p] < g.depth[s] && s in g.successors[p])
  }

  /** From s a state that satisfies property k is d steps away, along some path. */
  ghost predicate Ahead(g: Graph, d: nat, s: nat, k: nat)
    requires GraphOk(g) && s < |g.successors|
  {
    if d == 0 then g.holds(s, k)
    else exists i :: 0 <= i < |g.successors[s]| && Ahead(g, d - 1, g.successors[s][i], k)
  }

  ghost predicate Eventually(g: Graph, s: nat, k: nat)
    requires GraphOk(g) && s < |g.successors|
  {
    exists d: nat :: Ahead(g, d, s, k)
  }

  lemma EventuallyBack(g: Graph, s: nat, i: nat, k: nat)
    requires GraphOk(g) && s < |g.successors| && i < |g.successors[s]| && Eventually(g, g.successors[s][i], k)
    ensures Eventually(g, s, k)
  {
    var d: nat :| Ahead(g, d, g.successors[s][i], k);
    assert Ahead(g, d + 1, s, k);
  }

  /** a is s, or is on the way back from it. */
  predicate Ancestor(g: Graph, a: nat, s: nat)
    requires GraphOk(g) && s < |g.previous|
    decreases g.depth[s]
  {
    a == s || (g.previous[s].Some? && Ancestor(g, a, g.previous[s].value))
  }

  lemma {:induction false} AncestorEventually(g: Graph, a: nat, s: nat, k: nat)
    requires GraphOk(g) && s < |g.previous| && Ancestor(g, a, s) && Eventually(g, s, k)
    ensures a < |g.previous| && Eventually(g, a, k)
    decreases g.depth[s]
  {
    hide Eventually;
    if a != s {
      var p := g.previous[s].value;
      var i :| 0 <= i < |g.successors[p]| && g.successors[p][i] == s;
      EventuallyBack(g, p, i, k);
      AncestorEventually(g, a, p, k);
    }
  }

  lemma {:induction false} AncestorDepth(g: Graph, a: nat, s: nat)
    requires GraphOk(g) && s < |g.previous| && Ancestor(g, a, s)
    ensures a < |g.previous| && (a != s ==> g.depth[a] < g.depth[s])
    decreases g.depth[s]
  {
    if a != s { AncestorDepth(g, a, g.previous[s].value); }
  }

  type Bits = array2<bool>

  predicate Sized(g: Graph, live: Bits)
  {
    GraphOk(g) && live.Length0 == |g.successors| && live.Length1 == g.properties
  }

  /** A bit that is set is set all the way back. */
  predicate Closed(g: Graph, live: Bits)
    requires Sized(g, live)
    reads live
  {
    forall s, k :: 0 <= s < live.Length0 && 0 <= k < live.Length1 && live[s, k] && g.previous[s].Some? ==> live[g.previous[s].value, k]
  }

  /** No bit is set without reason .. */
  ghost predicate Sound(g: Graph, live: Bits)
    requires Sized(g, live)
    reads live
  {
    forall s, k :: 0 <= s < live.Length0 && 0 <= k < live.Length1 && live[s, k] ==> Eventually(g, s, k)
  }

  /** .. and those of the properties a state has are. */
  predicate Based(g: Graph, live: Bits)
    requires Sized(g, live)
    reads live
  {
    forall s, k :: 0 <= s < live.Length0 && 0 <= k < live.Length1 && g.holds(s, k) ==> live[s, k]
  }

  // Closedness, as far as the way back from s is concerned.
  predicate ClosedBehind(g: Graph, live: Bits, s: nat, k: nat)
    requires Sized(g, live) && s < live.Length0 && k < live.Length1
    reads live
  {
    forall a {:trigger Ancestor(g, a, s)} :: 0 <= a < live.Length0 && Ancestor(g, a, s) && live[a, k] && g.previous[a].Some?
      ==> live[g.previous[a].value, k]
  }

  lemma {:induction false} AllBehind(g: Graph, live: Bits, s: nat, k: nat, a: nat)
    requires Sized(g, live) && s < live.Length0 && k < live.Length1 && ClosedBehind(g, live, s, k) && live[s, k] && Ancestor(g, a, s)
    ensures a < live.Length0 && live[a, k]
    decreases g.depth[s]
  {
    if a != s {
      var p := g.previous[s].value;
      assert Ancestor(g, s, s);
      forall b | 0 <= b < live.Length0 && Ancestor(g, b, p) ensures Ancestor(g, b, s) {}
      AllBehind(g, live, p, k, a);
    }
  }

  /** Sets a property's bit in a state and in those it was reached from, stopping as
      soon as one has it: the early stop misses none of them. */
  method Mark(g: Graph, live: Bits, s: nat, k: nat)
    requires Sized(g, live) && s < live.Length0 && k < live.Length1 && ClosedBehind(g, live, s, k)
    modifies live
    ensures forall a, j :: 0 <= a < live.Length0 && 0 <= j < live.Length1 ==> live[a, j] == (old(live[a, j]) || (j == k && Ancestor(g, a, s)))
    decreases g.depth[s]
  {
    var was := live[s, k];
    if was {
      forall a | 0 <= a < live.Length0 && Ancestor(g, a, s) ensures live[a, k] { AllBehind(g, live, s, k, a); }
    }
    live[s, k] := true;
    if !was && g.previous[s].Some? {
      var p := g.previous[s].value;
      forall a | 0 <= a < live.Length0 && Ancestor(g, a, p)
        ensures Ancestor(g, a, s) && a != s
      {
        AncestorDepth(g, a, p);
      }
      Mark(g, live, p, k);
    }
  }

  lemma {:induction false} AncestorBack(g: Graph, a: nat, s: nat)
    requires GraphOk(g) && s < |g.previous| && Ancestor(g, a, s) && a < |g.previous| && g.previous[a].Some?
    ensures Ancestor(g, g.previous[a].value, s)
    decreases g.depth[s]
  {
    if a != s { AncestorBack(g, a, g.previous[s].value); }
    else { assert Ancestor(g, g.previous[a].value, g.previous[a].value); }
  }

  method MarkReached(g: Graph, live: Bits, s: nat, k: nat)
    requires Sized(g, live) && s < live.Length0 && k < live.Length1
    requires Closed(g, live) && Sound(g, live) && Eventually(g, s, k)
    modifies live
    ensures Closed(g, live) && Sound(g, live) && (old(Based(g, live)) ==> Based(g, live)) && live[s, k]
    ensures forall a, j :: 0 <= a < live.Length0 && 0 <= j < live.Length1 && old(live[a, j]) ==> live[a, j]
  {
    hide Eventually;
    assert Ancestor(g, s, s);
    Mark(g, live, s, k);
    forall a, j | 0 <= a < live.Length0 && 0 <= j < live.Length1 && live[a, j] && g.previous[a].Some?
      ensures live[g.previous[a].value, j]
    {
      if j == k && Ancestor(g, a, s) { AncestorBack(g, a, s); }
    }
    forall a, j | 0 <= a < live.Length0 && 0 <= j < live.Length1 && live[a, j] ensures Eventually(g, a, j) {
      if j == k && Ancestor(g, a, s) { AncestorEventually(g, a, s, k); }
    }
  }

  /** The check of a newly seen state: its properties are marked. */
  method Check(g: Graph, live: Bits, s: nat)
    requires Sized(g, live) && s < live.Length0 && Closed(g, live) && Sound(g, live)
    modifies live
    ensures Closed(g, live) && Sound(g, live)
    ensures forall a, k :: 0 <= a < live.Length0 && 0 <= k < live.Length1 ==> (old(live[a, k]) || (a == s && g.holds(s, k)) ==> live[a, k])
  {
    hide Eventually;
    for k := 0 to g.properties
      invariant Closed(g, live) && Sound(g, live)
      invariant forall a, j :: 0 <= a < live.Length0 && 0 <= j < live.Length1 && old(live[a, j]) ==> live[a, j]
      invariant forall j :: 0 <= j < k && g.holds(s, j) ==> live[s, j]
    {
      if g.holds(s, k) {
        NowAhead(g, s, k);
        MarkReached(g, live, s, k);
      }
    }
  }

  lemma NowAhead(g: Graph, s: nat, k: nat)
    requires GraphOk(g) && s < |g.successors| && g.holds(s, k)
    ensures Eventually(g, s, k)
  {
    assert Ahead(g, 0, s, k);
  }

  // The bits that are not set.
  ghost function Unset(live: Bits): set<(nat, nat)>
    reads live
  {
    set s: nat, k: nat | s < live.Length0 && k < live.Length1 && !live[s, k] :: (s, k)
  }

  // Along every edge of state s, nothing is left to learn.
  predicate Learnt(g: Graph, live: Bits, s: nat)
    requires Sized(g, live) && s < live.Length0
    reads live
  {
    forall i, k :: 0 <= i < |g.successors[s]| && 0 <= k < live.Length1 && live[g.successors[s][i], k] ==> live[s, k]
  }

  /** Marks in s what its successor t has; says how much that was. */
  method Learn(g: Graph, live: Bits, s: nat, i: nat) returns (learned: nat)
    requires Sized(g, live) && s < live.Length0 && i < |g.successors[s]|
    requires Closed(g, live) && Sound(g, live) && Based(g, live)
    modifies live
    ensures Closed(g, live) && Sound(g, live) && Based(g, live)
    ensures Unset(live) <= old(Unset(live))
    ensures learned > 0 ==> Unset(live) != old(Unset(live))
    ensures learned == 0 ==> forall a, k :: 0 <= a < live.Length0 && 0 <= k < live.Length1 ==> live[a, k] == old(live[a, k])
    ensures learned == 0 ==> forall k :: 0 <= k < live.Length1 && live[g.successors[s][i], k] ==> live[s, k]
    ensures learned == 0 ==> forall a :: 0 <= a < live.Length0 && old(Learnt(g, live, a)) ==> Learnt(g, live, a)
  {
    hide Eventually;
    var t := g.successors[s][i];
    learned := 0;
    for k := 0 to g.properties
      invariant Closed(g, live) && Sound(g, live) && Based(g, live)
      invariant forall a, j :: 0 <= a < live.Length0 && 0 <= j < live.Length1 && old(live[a, j]) ==> live[a, j]
      invariant learned > 0 ==> Unset(live) != old(Unset(live))
      invariant learned == 0 ==> forall a, j :: 0 <= a < live.Length0 && 0 <= j < live.Length1 ==> live[a, j] == old(live[a, j])
      invariant learned == 0 ==> forall j :: 0 <= j < k && live[t, j] ==> live[s, j]
    {
      if !live[s, k] && live[t, k] {
        EventuallyBack(g, s, i, k);
        assert (s, k) in old(Unset(live)) by { assert !old(live[s, k]); }
        MarkReached(g, live, s, k);
        assert (s, k) !in Unset(live);
        learned := learned + 1;
      }
    }
  }

  lemma {:induction false} AllLearnt(g: Graph, live: Bits, d: nat, s: nat, k: nat)
    requires Sized(g, live) && Based(g, live) && forall a :: 0 <= a < live.Length0 ==> Learnt(g, live, a)
    requires s < live.Length0 && k < live.Length1 && Ahead(g, d, s, k)
    ensures live[s, k]
  {
    if d > 0 {
      var i :| 0 <= i < |g.successors[s]| && Ahead(g, d - 1, g.successors[s][i], k);
      AllLearnt(g, live, d - 1, g.successors[s][i], k);
      assert Learnt(g, live, s);
    }
  }

  // One scan over all seen states.
  method Scan(g: Graph, live: Bits) returns (progress: bool)
    requires Sized(g, live) && Closed(g, live) && Sound(g, live) && Based(g, live)
    modifies live
    ensures Closed(g, live) && Sound(g, live) && Based(g, live)
    ensures Unset(live) <= old(Unset(live)) && (progress ==> Unset(live) != old(Unset(live)))
    ensures !progress ==> forall s :: 0 <= s < live.Length0 ==> Learnt(g, live, s)
  {
    hide Eventually;
    progress := false;
    for s := 0 to live.Length0
      invariant Closed(g, live) && Sound(g, live) && Based(g, live)
      invariant Unset(live) <= old(Unset(live)) && (progress ==> Unset(live) != old(Unset(live)))
      invariant !progress ==> forall a :: 0 <= a < s ==> Learnt(g, live, a)
    {
      for i := 0 to |g.successors[s]|
        invariant Closed(g, live) && Sound(g, live) && Based(g, live)
        invariant Unset(live) <= old(Unset(live)) && (progress ==> Unset(live) != old(Unset(live)))
        invariant !progress ==> forall a :: 0 <= a < s ==> Learnt(g, live, a)
        invariant !progress ==> forall j, k :: 0 <= j < i && 0 <= k < live.Length1 && live[g.successors[s][j], k] ==> live[s, k]
      {
        var learned := Learn(g, live, s, i);
        if learned > 0 { progress := true; }
      }
    }
  }

  /** Scans until nothing is learnt. Afterwards the bit of property k in state s is
      set if and only if a state that satisfies k can be reached from s. */
  method CheckFinal(g: Graph, live: Bits)
    requires Sized(g, live) && Closed(g, live) && Sound(g, live) && Based(g, live)
    modifies live
    ensures forall s, k :: 0 <= s < live.Length0 && 0 <= k < live.Length1 ==> (live[s, k] <==> Eventually(g, s, k))
  {
    var progress := true;
    while progress
      invariant Closed(g, live) && Sound(g, live) && Based(g, live)
      invariant !progress ==> forall s :: 0 <= s < live.Length0 ==> Learnt(g, live, s)
      decreases Unset(live), progress
    {
      progress := Scan(g, live);
    }
    forall s, k | 0 <= s < live.Length0 && 0 <= k < live.Length1 && Eventually(g, s, k) ensures live[s, k] {
      var d: nat :| Ahead(g, d, s, k);
      AllLearnt(g, live, d, s, k);
    }
  }

  /** What is then reported: the properties that some seen state cannot reach. */
  method Summarise(g: Graph, live: Bits) returns (missed: seq<bool>)
    requires Sized(g, live) && forall s, k :: 0 <= s < live.Length0 && 0 <= k < live.Length1 ==> (live[s, k] <==> Eventually(g, s, k))
    ensures |missed| == g.properties
    ensures forall k :: 0 <= k < |missed| ==> (missed[k] <==> exists s :: 0 <= s < |g.successors| && !Eventually(g, s, k))
  {
    hide Eventually;
    missed := seq(g.properties, _ => false);
    for s := 0 to live.Length0
      invariant |missed| == g.properties
      invariant forall k :: 0 <= k < |missed| ==> (missed[k] <==> exists a :: 0 <= a < s && !Eventually(g, a, k))
    {
      ghost var before := missed;
      for k := 0 to g.properties
        invariant |missed| == g.properties
        invariant forall j :: 0 <= j < |missed| ==> missed[j] == (before[j] || (j < k && !live[s, j]))
      {
        if !missed[k] && !live[s, k] { missed := missed[k := true]; }
      }
      forall k | 0 <= k < |missed| ensures missed[k] <==> exists a :: 0 <= a < s + 1 && !Eventually(g, a, k) {
        if missed[k] && !before[k] { assert !Eventually(g, s, k); }
      }
    }
  }
}
