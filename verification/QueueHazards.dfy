/** What hazard pointers buy: consequences of the queue invariant about nodes. */
module QueueHazards {
  import opened Options
  import opened QueueMachine
  import opened QueueInvariant
  import opened QueueSafety
  import opened QueueFifo

  /** At most one thread has an unconfirmed write in a node, just past its
      confirmed slots, and nobody else stores there until it is confirmed or undone. */
  lemma OneSpeculator(cap: nat, c: Config, t: nat, u: nat, a: Addr)
    requires Inv(cap, c) && t < |c.pc| && u < |c.pc|
    requires SpecOf(c.pc[t]) == SpecOf(c.pc[u]) == Some(a)
    ensures t == u && a in c.nodes && c.nodes[a].spec == Some(t)
    ensures var e := c.pc[t].e; e.tail == At(a, c.nodes[a].done - 1)
  {
    hide NodesOk, QueueOk, ScanSafe, DeferredOk;
    assert ThreadOk(cap, c, t);
    assert ThreadOk(cap, c, u);
  }

  /** Every pass that is testing node a has yet to reach thread u. */
  predicate Ahead(c: Config, u: nat, a: Addr)
    requires Sized(c)
  {
    forall v :: 0 <= v < |c.pc| && Scanning(c, v) == Some(a) ==> c.pc[v].j <= u
  }

  // A pass does not get past a thread whose hazard pointer names the node tested.
  lemma AheadStep(cap: nat, c: Config, t: nat, ch: Choice, c': Config, u: nat, a: Addr)
    requires Inv(cap, c) && Enabled(c, t, ch) && Step(cap, c, t, ch) == Next(c')
    requires u < |c.pc| && c.hazarded[u] == Some(a) && Ahead(c, u, a)
    ensures Sized(c') && Ahead(c', u, a)
  {
    hide NodesOk, QueueOk, ScanSafe, ThreadOk;
    StepOnlyThread(cap, c, t, ch, c');
    forall v | 0 <= v < |c'.pc| && Scanning(c', v) == Some(a) ensures c'.pc[v].j <= u {
      if v != t { assert Scanning(c, v) == Some(a); } else { AheadScan(cap, c, t, ch, c', u, a); }
    }
  }

  lemma AheadScan(cap: nat, c: Config, t: nat, ch: Choice, c': Config, u: nat, a: Addr)
    requires Sized(c) && Enabled(c, t, ch) && Step(cap, c, t, ch) == Next(c') && OnlyThread(c, c', t)
    requires u < |c.pc| && c.hazarded[u] == Some(a) && Ahead(c, u, a)
    requires Scanning(c', t) == Some(a)
    ensures c'.pc[t].j <= u
  {
    if c.pc[t].Scan? { AheadInPass(cap, c, t, c', u, a); } else { PassBegins(cap, c, t, ch, c'); }
  }

  lemma PassBegins(cap: nat, c: Config, t: nat, ch: Choice, c': Config)
    requires Sized(c) && Enabled(c, t, ch) && Step(cap, c, t, ch) == Next(c') && OnlyThread(c, c', t)
    requires !c.pc[t].Scan? && c'.pc[t].Scan?
    ensures c'.pc[t].j == 0
  {
    hide OnlyThread, EnqStep, DeqStep;
    if ch.Run? {
      if Enqueuing(c.pc[t]) { EnqStays(cap, c, t, ch.addr, c'); }
      else if !c.pc[t].DeqUnhook? && !c.pc[t].DeqGot? { DeqStays(cap, c, t, c'); }
      else { PassFirst(cap, c, t, c'); }
    }
  }

  lemma PassFirst(cap: nat, c: Config, t: nat, c': Config)
    requires Sized(c) && t < |c.pc| && (c.pc[t].DeqUnhook? || c.pc[t].DeqGot?) && DeqStep(cap, c, t) == Next(c')
    ensures t < |c'.pc| && (c'.pc[t].Scan? ==> c'.pc[t].j == 0)
  {
  }

  lemma DeqStays(cap: nat, c: Config, t: nat, c': Config)
    requires Sized(c) && t < |c.pc| && DeqStep(cap, c, t) == Next(c')
    requires !c.pc[t].Scan? && !c.pc[t].DeqUnhook? && !c.pc[t].DeqGot?
    ensures t < |c'.pc| && !c'.pc[t].Scan?
  {
    hide Remove, Hop;
  }

  lemma EnqStays(cap: nat, c: Config, t: nat, a: Addr, c': Config)
    requires Sized(c) && t < |c.pc| && EnqStep(cap, c, t, a) == Next(c')
    ensures t < |c'.pc| && !c'.pc[t].Scan?
  {
    hide SetCell, Allocate, Install, Append;
  }

  lemma AheadInPass(cap: nat, c: Config, t: nat, c': Config, u: nat, a: Addr)
    requires Sized(c) && t < |c.pc| && c.pc[t].Scan? && DeqStep(cap, c, t) == Next(c')
    requires u < |c.pc| && c.hazarded[u] == Some(a) && Ahead(c, u, a)
    requires Scanning(c', t) == Some(a)
    ensures c'.pc[t].j <= u
  {
  }

  // Only an unpublished node, or one that a pass found unprotected, is released.
  lemma ReleasedBy(cap: nat, c: Config, t: nat, ch: Choice, c': Config, a: Addr)
    requires Inv(cap, c) && Enabled(c, t, ch) && Step(cap, c, t, ch) == Next(c')
    requires a in c.nodes && a !in c'.nodes
    ensures c.nodes[a].status.Private? || (Scanning(c, t) == Some(a) && c.pc[t].j >= |c.pc|)
  {
    hide NodesOk, QueueOk, ScanSafe, DeferredOk, EnqStep, DeqStep;
    if ch.Run? {
      if Enqueuing(c.pc[t]) {
        FreedBy(cap, c, t, ch.addr, c', a);
        assert ThreadOk(cap, c, t);
      } else {
        ReclaimedBy(cap, c, t, c', a);
      }
    }
  }

  lemma FreedBy(cap: nat, c: Config, t: nat, addr: Addr, c': Config, a: Addr)
    requires Sized(c) && t < |c.pc| && EnqStep(cap, c, t, addr) == Next(c') && a in c.nodes && a !in c'.nodes
    ensures c.pc[t].EnqFree? && c.pc[t].m == a
  {
  }

  lemma ReclaimedBy(cap: nat, c: Config, t: nat, c': Config, a: Addr)
    requires Sized(c) && t < |c.pc| && DeqStep(cap, c, t) == Next(c') && a in c.nodes && a !in c'.nodes
    ensures Scanning(c, t) == Some(a) && c.pc[t].j >= |c.pc|
  {
  }

  /** How a node's status may change while it stays allocated: out of a queue, but
      never back into one. */
  predicate Onward(s: Status, s': Status)
  {
    match s
    case Private(_) => true
    case Live(k) => s' == s || s'.Retired?
    case Retired(_) => s' == s
  }

  lemma StatusStep(cap: nat, c: Config, t: nat, ch: Choice, c': Config, a: Addr)
    requires Inv(cap, c) && Enabled(c, t, ch) && Step(cap, c, t, ch) == Next(c')
    requires a in c.nodes && a in c'.nodes
    ensures Onward(c.nodes[a].status, c'.nodes[a].status)
  {
    assert ThreadOk(cap, c, t);
    hide NodesOk, ScanSafe, QueueOk, DeferredOk, EnqStep, DeqStep;
    if ch.Run? {
      if Enqueuing(c.pc[t]) { EnqStatus(cap, c, t, ch.addr, c', a); } else { DeqStatus(cap, c, t, c', a); }
    }
  }

  lemma EnqStatus(cap: nat, c: Config, t: nat, addr: Addr, c': Config, a: Addr)
    requires Sized(c) && t < |c.pc| && ThreadOk(cap, c, t) && addr !in c.nodes && EnqStep(cap, c, t, addr) == Next(c')
    requires a in c.nodes && a in c'.nodes
    ensures Onward(c.nodes[a].status, c'.nodes[a].status)
  {
    hide DeferredOk, FreshCells;
  }

  lemma DeqStatus(cap: nat, c: Config, t: nat, c': Config, a: Addr)
    requires Inv(cap, c) && t < |c.pc| && DeqStep(cap, c, t) == Next(c')
    requires a in c.nodes && a in c'.nodes
    ensures Onward(c.nodes[a].status, c'.nodes[a].status)
  {
    if c.pc[t].DeqAct? || c.pc[t].DeqHop? { assert ThreadOk(cap, c, t) && QueueOk(cap, c, c.pc[t].k); }
    hide NodesOk, ScanSafe, QueueOk, ThreadOk;
  }

  lemma HazardStep(cap: nat, c: Config, t: nat, ch: Choice, c': Config, u: nat, a: Addr)
    requires Inv(cap, c) && Enabled(c, t, ch) && Step(cap, c, t, ch) == Next(c')
    requires u < |c.pc| && c.hazarded[u] == Some(a) && Ahead(c, u, a)
    requires a in c.nodes && !c.nodes[a].status.Private?
    ensures Sized(c') && Ahead(c', u, a)
    ensures a in c'.nodes && Onward(c.nodes[a].status, c'.nodes[a].status)
  {
    hide Inv, Step;
    AheadStep(cap, c, t, ch, c', u, a);
    if a !in c'.nodes { ReleasedBy(cap, c, t, ch, c', a); }
    StatusStep(cap, c, t, ch, c', a);
  }

  /** Thread u has node a in its hazard pointer from configuration i to configuration j. */
  predicate Protects(cs: seq<Config>, i: nat, j: nat, u: nat, a: Addr)
    requires i <= j < |cs|
  {
    forall m :: i <= m <= j ==> u < |cs[m].hazarded| && cs[m].hazarded[u] == Some(a)
  }

  // From its validation on, while the hazard pointer stays set, the node stays.
  lemma {:induction false} HazardRun(cap: nat, cs: seq<Config>, es: seq<Event>, i: nat, j: nat, u: nat, a: Addr)
    requires IsRun(cap, cs, es) && cap > 0 && i <= j < |cs|
    requires u < |cs[i].pc| && GuardOf(cs[i].pc[u]) == Some(a) && Protects(cs, i, j, u, a)
    ensures Sized(cs[j]) && u < |cs[j].pc| && Ahead(cs[j], u, a) && a in cs[j].nodes && a in cs[i].nodes
    ensures !cs[j].nodes[a].status.Private? && Onward(cs[i].nodes[a].status, cs[j].nodes[a].status)
    decreases j
  {
    hide Initial, Step, GuardOf;
    if i == j {
      RunSafe(cap, cs, es, i);
      GuardAllocated(cap, cs[i], u, a);
      forall v | 0 <= v < |cs[i].pc| && Scanning(cs[i], v) == Some(a) ensures cs[i].pc[v].j <= u {
        assert Meets(cs[i], u, v);
      }
    } else {
      hide Inv;
      HazardRun(cap, cs, es, i, j - 1, u, a);
      RunSafe(cap, cs, es, j - 1);
      assert Takes(cap, cs[j - 1], es[j - 1], cs[j]);
      HazardStep(cap, cs[j - 1], es[j - 1].t, es[j - 1].ch, cs[j], u, a);
    }
  }

  /** From the validation of a hazard pointer until it is dropped, whatever its own
      thread and the others do meanwhile, the node it names is not released, and so
      its address does not come back into use. */
  lemma GuardHolds(cap: nat, cs: seq<Config>, es: seq<Event>, i: nat, j: nat, u: nat, a: Addr)
    requires IsRun(cap, cs, es) && cap > 0 && i <= j < |cs|
    requires u < |cs[i].pc| && GuardOf(cs[i].pc[u]) == Some(a) && Protects(cs, i, j, u, a)
    ensures forall m :: i <= m <= j ==> a in cs[m].nodes && !cs[m].nodes[a].status.Private?
  {
    forall m | i <= m <= j ensures a in cs[m].nodes && !cs[m].nodes[a].status.Private? {
      HazardRun(cap, cs, es, i, m, u, a);
    }
  }

  lemma GuardAllocated(cap: nat, c: Config, t: nat, a: Addr)
    requires Inv(cap, c) && t < |c.pc| && GuardOf(c.pc[t]) == Some(a)
    ensures a in c.nodes && !c.nodes[a].status.Private? && c.hazarded[t] == Some(a)
  {
    hide NodesOk, QueueOk, ScanSafe, DeferredOk;
    assert ThreadOk(cap, c, t);
  }

  /** What is seen at a swap of the end pair that succeeds: the end nodes are those of
      the queue now, an enqueuer's write is still past the tail, and the node to which
      a dequeue moves the head is the second of several. (That none of this changed
      hands since the pair was validated is `QueueReuse.NoReuse`.) */
  lemma SwapMeansSame(cap: nat, c: Config, t: nat)
    requires Inv(cap, c) && t < |c.pc| && (c.pc[t].EnqSwing? || c.pc[t].DeqAct? || c.pc[t].DeqHop?)
    requires c.pc[t].k < |c.ends| && c.ends[c.pc[t].k] == c.pc[t].e
    ensures var pc := c.pc[t];
            && c.chain[pc.k] != []
            && pc.e.head.At? && c.chain[pc.k][0] == pc.e.head.node
            && pc.e.tail.At? && c.chain[pc.k][|c.chain[pc.k]| - 1] == pc.e.tail.node
            && (forall a :: a in c.chain[pc.k] ==> a in c.nodes && c.nodes[a].status == Live(pc.k))
            && (pc.EnqSwing? && pc.added.None? ==> CellAt(c, Succ(pc.e.tail)) && c.nodes[pc.e.tail.node].cells[pc.e.tail.slot + 1] == Elem(pc.x))
            && (pc.EnqSwing? && pc.added.Some? ==> CellAt(c, Succ(pc.e.tail)) && c.nodes[pc.e.tail.node].cells[pc.e.tail.slot + 1] == Link(pc.added.value))
            && (pc.DeqHop? ==> |c.chain[pc.k]| > 1 && c.chain[pc.k][1] == pc.m)
  {
    assert ThreadOk(cap, c, t) && QueueOk(cap, c, c.pc[t].k);
    hide NodesOk, QueueOk, ScanSafe, DeferredOk;
  }

  /** No node is forgotten: once every call has returned, what is allocated is in a
      queue or waits in some thread's list of nodes to release. */
  lemma NoneForgotten(cap: nat, c: Config, a: Addr)
    requires Inv(cap, c) && a in c.nodes && forall t :: 0 <= t < |c.pc| ==> c.pc[t].Idle?
    ensures exists t :: 0 <= t < |c.pc| && (a in c.chain[t] || a in c.deferred[t])
  {
    hide QueueOk, ScanSafe, ThreadOk;
    assert NodeOk(cap, c.nodes[a]) && Owned(c, a);
  }
}
