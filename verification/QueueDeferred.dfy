/** How many nodes a thread may have put off releasing. The runtime keeps room for one
    less than there are threads and asserts that this is enough. It is not always:
    here is a run with more, exactly when the room runs out, and why. */
module QueueDeferred {
  import opened Options
  import opened QueueMachine
  import opened QueueInvariant
  import opened QueueSafety
  import opened QueueFifo

  /** What thread t has deferred fits into one place less than there are threads. While
      it goes through the list, the node it is releasing now is at the end. */
  predicate Fits(c: Config, t: nat)
    requires Sized(c) && t < |c.pc|
  {
    var n, l := |c.pc|, |c.deferred[t]|;
    if c.pc[t].Scan? then c.pc[t].i <= l <= n && (l == n ==> c.pc[t].i < n) else l < n
  }

  /** The other places are taken, and the node at the end is found protected as well. */
  predicate Outgrows(c: Config, t: nat)
    requires Sized(c) && t < |c.pc|
  {
    var n, d := |c.pc|, c.deferred[t];
    && c.pc[t].Scan? && |d| == n && c.pc[t].i == n - 1
    && c.pc[t].j < n && c.hazarded[c.pc[t].j] == Some(d[n - 1])
  }

  /** A step makes the list of a thread outgrow its room if and only if it is that
      thread's, finds the last node protected, and all other places are taken. */
  lemma OutgrowsExactly(cap: nat, c: Config, t: nat, ch: Choice, c': Config, u: nat)
    requires Inv(cap, c) && Enabled(c, t, ch) && Step(cap, c, t, ch) == Next(c') && u < |c.pc|
    requires Fits(c, u)
    ensures Sized(c') && |c'.pc| == |c.pc|
    ensures Fits(c', u) <==> !(u == t && Outgrows(c, t))
  {
    hide NodesOk, QueueOk, ScanSafe, DeferredOk, EnqStep, DeqStep, Fits, Outgrows;
    assert ThreadOk(cap, c, t);
    hide ThreadOk;
    StepOnlyThread(cap, c, t, ch, c');
    if u != t {
      SameFits(c, c', u);
    } else if !ch.Run? {
      CallFits(cap, c, t, ch, c');
    } else if Enqueuing(c.pc[t]) {
      EnqFits(cap, c, t, ch.addr, c');
    } else if c.pc[t].Scan? {
      ScanFits(cap, c, t, c');
    } else {
      DeqFits(cap, c, t, c');
    }
  }

  lemma SameFits(c: Config, c': Config, u: nat)
    requires Sized(c) && Sized(c') && |c'.pc| == |c.pc| && u < |c.pc|
    requires c'.pc[u] == c.pc[u] && c'.deferred[u] == c.deferred[u]
    ensures Fits(c', u) == Fits(c, u)
  {
  }

  lemma CallFits(cap: nat, c: Config, t: nat, ch: Choice, c': Config)
    requires Sized(c) && Enabled(c, t, ch) && !ch.Run? && Step(cap, c, t, ch) == Next(c') && Fits(c, t)
    ensures Sized(c') && |c'.pc| == |c.pc| && Fits(c', t) && !Outgrows(c, t)
  {
  }

  lemma EnqFits(cap: nat, c: Config, t: nat, a: Addr, c': Config)
    requires Sized(c) && t < |c.pc| && Enqueuing(c.pc[t]) && EnqStep(cap, c, t, a) == Next(c') && OnlyThread(c, c', t) && Fits(c, t)
    ensures Fits(c', t) && !Outgrows(c, t)
  {
    hide SetCell, Allocate, Install, Append, OnlyThread;
    EnqKeepsDeferred(cap, c, t, a, c');
  }

  lemma EnqKeepsDeferred(cap: nat, c: Config, t: nat, a: Addr, c': Config)
    requires Sized(c) && t < |c.pc| && EnqStep(cap, c, t, a) == Next(c')
    ensures t < |c'.pc| == |c.pc| && c'.deferred == c.deferred && !c'.pc[t].Scan?
  {
    if c.pc[t].EnqWrite? || c.pc[t].EnqChain? || c.pc[t].EnqSwing? || c.pc[t].EnqUndo? {
      PastTailKeepsDeferred(cap, c, t, a, c');
    } else {
      OtherEnqKeepsDeferred(cap, c, t, a, c');
    }
  }

  lemma PastTailKeepsDeferred(cap: nat, c: Config, t: nat, a: Addr, c': Config)
    requires Sized(c) && t < |c.pc| && EnqStep(cap, c, t, a) == Next(c')
    requires c.pc[t].EnqWrite? || c.pc[t].EnqChain? || c.pc[t].EnqSwing? || c.pc[t].EnqUndo?
    ensures t < |c'.pc| == |c.pc| && c'.deferred == c.deferred && !c'.pc[t].Scan?
  {
    hide SetCell, Allocate, Install, Append;
  }

  lemma OtherEnqKeepsDeferred(cap: nat, c: Config, t: nat, a: Addr, c': Config)
    requires Sized(c) && t < |c.pc| && EnqStep(cap, c, t, a) == Next(c')
    requires !c.pc[t].EnqWrite? && !c.pc[t].EnqChain? && !c.pc[t].EnqSwing? && !c.pc[t].EnqUndo?
    ensures t < |c'.pc| == |c.pc| && c'.deferred == c.deferred && !c'.pc[t].Scan?
  {
    hide SetCell, Allocate, Install, Append;
  }

  lemma DeqFits(cap: nat, c: Config, t: nat, c': Config)
    requires Sized(c) && t < |c.pc| && !Enqueuing(c.pc[t]) && !c.pc[t].Scan? && DeqStep(cap, c, t) == Next(c')
    requires OnlyThread(c, c', t) && Fits(c, t)
    ensures Fits(c', t) && !Outgrows(c, t)
  {
    hide OnlyThread;
    if c.pc[t].DeqUnhook? || c.pc[t].DeqGot? { PassFits(cap, c, t, c'); } else { DeqKeepsDeferred(cap, c, t, c'); }
  }

  lemma PassFits(cap: nat, c: Config, t: nat, c': Config)
    requires Sized(c) && t < |c.pc| && (c.pc[t].DeqUnhook? || c.pc[t].DeqGot?) && DeqStep(cap, c, t) == Next(c') && Fits(c, t)
    ensures Sized(c') && |c'.pc| == |c.pc| && Fits(c', t)
  {
  }

  lemma DeqKeepsDeferred(cap: nat, c: Config, t: nat, c': Config)
    requires Sized(c) && t < |c.pc| && DeqStep(cap, c, t) == Next(c')
    requires !c.pc[t].Scan? && !c.pc[t].DeqUnhook? && !c.pc[t].DeqGot?
    ensures t < |c'.pc| == |c.pc| && c'.deferred == c.deferred && !c'.pc[t].Scan?
  {
    hide Remove, Hop;
  }

  lemma ScanFits(cap: nat, c: Config, t: nat, c': Config)
    requires Sized(c) && t < |c.pc| && c.pc[t].Scan? && DeqStep(cap, c, t) == Next(c') && Fits(c, t)
    ensures Sized(c') && |c'.pc| == |c.pc|
    ensures Fits(c', t) <==> !Outgrows(c, t)
  {
  }

  lemma StartFits(c: Config, t: nat)
    requires Initial(c) && t < |c.pc|
    ensures Fits(c, t)
  {
  }

  // ----- why: a thread moved its hazard pointer during the pass -----

  function Below(n: nat): (s: set<nat>)
    ensures |s| == n && forall x: nat :: x in s <==> x < n
  {
    if n == 0 then {} else Below(n - 1) + {n - 1}
  }

  lemma {:induction false} Pigeonhole(us: seq<nat>, s: set<nat>) returns (i: nat, k: nat)
    requires (forall x :: 0 <= x < |us| ==> us[x] in s) && |us| > |s|
    ensures i < k < |us| && us[i] == us[k]
  {
    var l := |us| - 1;
    if us[l] in us[..l] {
      i :| 0 <= i < l && us[..l][i] == us[l];
      k := l;
    } else {
      i, k := Pigeonhole(us[..l], s - {us[l]});
    }
  }

  /** Thread u protected node a at some moment from configuration b to configuration m. */
  predicate Held(cs: seq<Config>, u: nat, a: Addr, b: nat, m: nat)
    requires m < |cs|
  {
    exists k :: b <= k <= m && HazardIs(cs[k], u, a)
  }

  predicate HazardIs(c: Config, u: nat, a: Addr)
  {
    u < |c.hazarded| && c.hazarded[u] == Some(a)
  }

  /** Thread t has been going through its list from configuration b to configuration m. */
  predicate InPass(cs: seq<Config>, t: nat, b: nat, m: nat)
    requires b <= m < |cs|
  {
    && (forall k :: b <= k <= m ==> t < |cs[k].pc| && cs[k].pc[t].Scan?)
    && cs[b].pc[t].i == 0
  }

  /** For each node passed over, a thread that was seen to protect it. */
  predicate Witnesses(cs: seq<Config>, t: nat, b: nat, m: nat, us: seq<nat>)
    requires m < |cs| && t < |cs[m].pc| && cs[m].pc[t].Scan?
  {
    && Sized(cs[m]) && |us| == cs[m].pc[t].i <= |cs[m].deferred[t]|
    && forall x :: 0 <= x < |us| ==> us[x] < |cs[m].pc| && us[x] != t && Held(cs, us[x], cs[m].deferred[t][x], b, m)
  }

  // What a step of a pass that goes on does to the list.
  lemma ScanOn(cap: nat, c: Config, t: nat, c': Config)
    requires Sized(c) && t < |c.pc| && c.pc[t].Scan? && c.pc[t].i <= |c.deferred[t]| && DeqStep(cap, c, t) == Next(c')
    requires t < |c'.pc| && c'.pc[t].Scan?
    ensures Sized(c') && |c'.pc| == |c.pc| && c.pc[t].i < |c.deferred[t]|
    ensures c'.pc[t].i <= |c'.deferred[t]| && c'.deferred[t][..c.pc[t].i] == c.deferred[t][..c.pc[t].i]
    ensures c'.pc[t].i == c.pc[t].i || (
              && c'.pc[t].i == c.pc[t].i + 1 && c'.deferred[t] == c.deferred[t]
              && c.pc[t].j < |c.pc| && c.pc[t].j != t && HazardIs(c, c.pc[t].j, c.deferred[t][c.pc[t].i]))
  {
  }

  lemma {:induction false} PassWitnesses(cap: nat, cs: seq<Config>, es: seq<Event>, t: nat, b: nat, m: nat) returns (us: seq<nat>)
    requires IsRun(cap, cs, es) && cap > 0 && b <= m < |cs| && InPass(cs, t, b, m)
    ensures Witnesses(cs, t, b, m, us)
    decreases m
  {
    hide Inv, Step, Initial;
    RunSized(cap, cs, es, m);
    if m == b {
      us := [];
    } else {
      us := PassWitnesses(cap, cs, es, t, b, m - 1);
      RunSized(cap, cs, es, m - 1);
      assert Takes(cap, cs[m - 1], es[m - 1], cs[m]);
      us := WitnessStep(cap, cs, es, t, b, m, us);
    }
  }

  lemma WitnessStep(cap: nat, cs: seq<Config>, es: seq<Event>, t: nat, b: nat, m: nat, us: seq<nat>) returns (us': seq<nat>)
    requires b < m < |cs| && m <= |es| && Takes(cap, cs[m - 1], es[m - 1], cs[m])
    requires t < |cs[m - 1].pc| && cs[m - 1].pc[t].Scan? && t < |cs[m].pc| && cs[m].pc[t].Scan?
    requires Witnesses(cs, t, b, m - 1, us)
    ensures Witnesses(cs, t, b, m, us')
  {
    hide Step, Held;
    var c, c', e := cs[m - 1], cs[m], es[m - 1];
    us' := us;
    if e.t != t {
      StepOnlyThread(cap, c, e.t, e.ch, c');
    } else {
      StepIsScan(cap, c, t, e.ch, c');
      ScanOn(cap, c, t, c');
      if c'.pc[t].i == c.pc[t].i + 1 {
        us' := us + [c.pc[t].j];
        HeldNow(cs, c.pc[t].j, c.deferred[t][c.pc[t].i], b, m);
      }
    }
    forall x | 0 <= x < |us| ensures Held(cs, us[x], c'.deferred[t][x], b, m) {
      assert c'.deferred[t][x] == c.deferred[t][x] by {
        if e.t == t { assert c'.deferred[t][..c.pc[t].i][x] == c.deferred[t][..c.pc[t].i][x]; }
      }
      HeldLonger(cs, us[x], c.deferred[t][x], b, m);
    }
  }

  lemma StepIsScan(cap: nat, c: Config, t: nat, ch: Choice, c': Config)
    requires Sized(c) && Enabled(c, t, ch) && c.pc[t].Scan? && Step(cap, c, t, ch) == Next(c')
    ensures DeqStep(cap, c, t) == Next(c')
  {
  }

  lemma HeldNow(cs: seq<Config>, u: nat, a: Addr, b: nat, m: nat)
    requires b < m < |cs| && HazardIs(cs[m - 1], u, a)
    ensures Held(cs, u, a, b, m)
  {
  }

  lemma HeldLonger(cs: seq<Config>, u: nat, a: Addr, b: nat, m: nat)
    requires b < m < |cs| && Held(cs, u, a, b, m - 1)
    ensures Held(cs, u, a, b, m)
  {
  }

  /** If the room runs out, some thread protected two of the deferred nodes during the
      one pass, first one and then the other: having each thread protect one node at a
      time is not enough for one place less than there are threads. As long as no
      thread does that while another goes through its list, there is room. */
  lemma OutgrowsMeansMoved(cap: nat, cs: seq<Config>, es: seq<Event>, t: nat, b: nat, m: nat) returns (u: nat, x: nat, y: nat)
    requires IsRun(cap, cs, es) && cap > 0 && b <= m < |cs| && InPass(cs, t, b, m)
    requires Sized(cs[m]) && Outgrows(cs[m], t)
    ensures u < |cs[m].pc| && u != t && x < y < |cs[m].deferred[t]| && cs[m].deferred[t][x] != cs[m].deferred[t][y]
    ensures Held(cs, u, cs[m].deferred[t][x], b, m) && Held(cs, u, cs[m].deferred[t][y], b, m)
  {
    hide Initial, Takes, Held;
    var us := PassWitnesses(cap, cs, es, t, b, m);
    RunSafe(cap, cs, es, m);
    var c, n := cs[m], |cs[m].pc|;
    var j, d := c.pc[t].j, c.deferred[t];
    assert ThreadOk(cap, c, t);
    hide Inv;
    assert Held(cs, j, d[n - 1], b, m) by { HeldAt(cs, j, d[n - 1], b, m); }
    var all := us + [j];
    var s := Below(n);
    forall k | 0 <= k < |all| ensures all[k] in s - {t} { if k < n - 1 { assert us[k] < n; } }
    x, y := Pigeonhole(all, s - {t});
    u := all[x];
    assert y < n - 1 ==> us[y] == u;
  }

  lemma HeldAt(cs: seq<Config>, u: nat, a: Addr, b: nat, m: nat)
    requires b <= m < |cs| && HazardIs(cs[m], u, a)
    ensures Held(cs, u, a, b, m)
  {
  }
}
