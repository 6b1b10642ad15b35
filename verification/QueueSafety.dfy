/** Every step keeps the invariant, so no reachable step is a `Fault`: nothing is
    used after release, released twice, or caught by an assertion. */
module QueueSafety {
  import opened Options
  import opened QueueMachine
  import opened QueueInvariant

  // A node whose status and pending write are untouched keeps its owner.
  lemma OwnedFrame(c: Config, c': Config, t: nat, a: Addr)
    requires Sized(c) && t < |c.pc| && OnlyThread(c, c', t)
    requires a in c.nodes && Owned(c, a) && a in c'.nodes
    requires c'.nodes[a].status == c.nodes[a].status && c'.nodes[a].spec == c.nodes[a].spec
    requires PrivateOf(c.pc[t]) == Some(a) ==> PrivateOf(c'.pc[t]) == Some(a)
    requires SpecOf(c.pc[t]) == Some(a) ==> SpecOf(c'.pc[t]) == Some(a)
    requires PendingOf(c.pc[t]) == Some(a) || a in c.deferred[t]
             ==> PendingOf(c'.pc[t]) == Some(a) || a in c'.deferred[t]
    requires forall k :: 0 <= k < |c.pc| && c.nodes[a].status == Live(k) && a in c.chain[k] ==> a in c'.chain[k]
    ensures Owned(c', a)
  {
  }

  // A queue whose ends and chain are untouched, and whose nodes keep what they
  // have confirmed, is as it was.
  predicate Confirmed(m: Node, m': Node)
  {
    && m'.status == m.status && m'.done == m.done && |m'.cells| == |m.cells|
    && forall i :: 0 <= i < m.done && i < |m.cells| ==> m'.cells[i] == m.cells[i]
  }

  lemma QueueFrame(cap: nat, c: Config, c': Config, k: nat)
    requires Sized(c) && Sized(c') && |c'.pc| == |c.pc| && k < |c.pc| && QueueOk(cap, c, k)
    requires c'.ends[k] == c.ends[k] && c'.chain[k] == c.chain[k]
    requires forall a :: a in c.nodes && c.nodes[a].status == Live(k) ==> a in c'.nodes && Confirmed(c.nodes[a], c'.nodes[a])
    ensures QueueOk(cap, c', k)
  {
    var ch := c.chain[k];
    forall i | 0 <= i < |ch| ensures ch[i] in c'.nodes && Confirmed(c.nodes[ch[i]], c'.nodes[ch[i]]) {
      assert ch[i] in c.nodes && c.nodes[ch[i]].status == Live(k);
    }
  }

  lemma QuietQueues(cap: nat, c: Config, c': Config)
    requires Inv(cap, c) && Sized(c') && |c'.pc| == |c.pc| && c'.ends == c.ends && c'.chain == c.chain
    requires forall a :: a in c.nodes && c.nodes[a].status.Live? ==> a in c'.nodes && Confirmed(c.nodes[a], c'.nodes[a])
    ensures forall k :: 0 <= k < |c.pc| ==> QueueOk(cap, c', k)
  {
    forall k | 0 <= k < |c.pc| ensures QueueOk(cap, c', k) { QueueFrame(cap, c, c', k); }
  }

  // The scan condition only has to be looked at for the thread that stepped.
  lemma ScanFrame(c: Config, c': Config, t: nat)
    requires Sized(c) && t < |c.pc| && OnlyThread(c, c', t) && ScanSafe(c)
    requires forall u :: 0 <= u < |c.pc| && Meets(c', t, u) ==> c'.pc[u].j <= t
    requires forall u :: 0 <= u < |c.pc| && Meets(c', u, t) ==> c'.pc[t].j <= u
    ensures ScanSafe(c')
  {
    forall u, v | 0 <= u < |c'.pc| && 0 <= v < |c'.pc| && Meets(c', u, v) ensures c'.pc[v].j <= u {
      if u != t && v != t { assert Meets(c, u, v); }
    }
  }

  // A thread that guards nothing new, or a node still in a queue, is met by no
  // scanner that it was not already ahead of.
  lemma GuardFrame(cap: nat, c: Config, c': Config, t: nat)
    requires Sized(c) && t < |c.pc| && OnlyThread(c, c', t) && ScanSafe(c)
    requires !c'.pc[t].Scan?
    requires forall u :: 0 <= u < |c.pc| && u != t ==> ThreadOk(cap, c', u)
    requires
      || GuardOf(c'.pc[t]).None?
      || GuardOf(c'.pc[t]) == GuardOf(c.pc[t])
      || (GuardOf(c'.pc[t]).value in c'.nodes && c'.nodes[GuardOf(c'.pc[t]).value].status.Live?)
    ensures ScanSafe(c')
  {
    forall u | 0 <= u < |c.pc| && Meets(c', t, u) ensures c'.pc[u].j <= t {
      assert u != t ==> ThreadOk(cap, c', u);
      assert GuardOf(c'.pc[t]) == GuardOf(c.pc[t]) ==> Meets(c, t, u);
    }
    ScanFrame(c, c', t);
  }

  lemma OthersOk(cap: nat, c: Config, c': Config, t: nat)
    requires Inv(cap, c) && t < |c.pc| && OnlyThread(c, c', t) && Evolves(c, c', t)
    ensures forall u :: 0 <= u < |c.pc| && u != t ==> ThreadOk(cap, c', u)
  {
    forall u | 0 <= u < |c.pc| && u != t ensures ThreadOk(cap, c', u) {
      assert ThreadOk(cap, c, u);
      OtherThread(cap, c, c', t, u);
    }
  }

  lemma Rebuild(cap: nat, c: Config, c': Config, t: nat)
    requires Inv(cap, c) && t < |c.pc| && OnlyThread(c, c', t) && Evolves(c, c', t)
    requires NodesOk(cap, c') && ThreadOk(cap, c', t)
    requires forall k :: 0 <= k < |c.pc| ==> QueueOk(cap, c', k)
    requires !c'.pc[t].Scan?
    requires
      || GuardOf(c'.pc[t]).None?
      || GuardOf(c'.pc[t]) == GuardOf(c.pc[t])
      || (GuardOf(c'.pc[t]).value in c'.nodes && c'.nodes[GuardOf(c'.pc[t]).value].status.Live?)
    ensures Inv(cap, c')
  {
    OthersOk(cap, c, c', t);
    GuardFrame(cap, c, c', t);
  }

  // Steps that touch no node, end pair or deferred list.
  lemma LocalStep(cap: nat, c: Config, c': Config, t: nat)
    requires Inv(cap, c) && t < |c.pc| && OnlyThread(c, c', t)
    requires c'.nodes == c.nodes && c'.ends == c.ends && c'.chain == c.chain && c'.deferred == c.deferred
    requires c'.hazarded[t] == HazardOf(c'.pc[t])
    requires LocalOk(cap, |c.pc|, c.nodes, c.deferred[t], t, c'.pc[t])
    requires PrivateOf(c'.pc[t]) == PrivateOf(c.pc[t])
    requires SpecOf(c'.pc[t]) == SpecOf(c.pc[t])
    requires PendingOf(c'.pc[t]) == PendingOf(c.pc[t])
    requires forall u :: 0 <= u < |c.pc| && Meets(c', u, t) ==> c'.pc[t].j <= u
    requires
      || GuardOf(c'.pc[t]).None?
      || GuardOf(c'.pc[t]) == GuardOf(c.pc[t])
      || (GuardOf(c'.pc[t]).value in c'.nodes && c'.nodes[GuardOf(c'.pc[t]).value].status.Live?)
    ensures Inv(cap, c')
  {
    forall u | 0 <= u < |c.pc| ensures ThreadOk(cap, c', u) {
      assert ThreadOk(cap, c, u) && ThreadOk(cap, c, t);
    }
    forall a | a in c'.nodes ensures NodeOk(cap, c'.nodes[a]) && Owned(c', a) {
      OwnedFrame(c, c', t, a);
    }
    forall k | 0 <= k < |c.pc| ensures QueueOk(cap, c', k) { assert QueueOk(cap, c, k); }
    forall u | 0 <= u < |c.pc| && Meets(c', t, u) ensures c'.pc[u].j <= t {
      if u != t {
        assert ThreadOk(cap, c', u);
        assert GuardOf(c'.pc[t]) == GuardOf(c.pc[t]) ==> Meets(c, t, u);
      }
    }
    ScanFrame(c, c', t);
  }

  // ----- steps that change one node -----

  lemma AllocNodes(cap: nat, c: Config, t: nat, a: Addr, x: Item, pc: PC)
    requires Inv(cap, c) && t < |c.pc| && a !in c.nodes
    requires PrivateOf(c.pc[t]).None? && SpecOf(c.pc[t]).None? && PendingOf(c.pc[t]).None?
    requires PrivateOf(pc) == Some(a) && SpecOf(pc).None? && PendingOf(pc).None?
    ensures NodesOk(cap, Goto(Allocate(cap, c, t, a, x), t, pc))
  {
    hide ScanSafe, QueueOk, ThreadOk, PendingOf;
    var c' := Goto(Allocate(cap, c, t, a, x), t, pc);
    forall b | b in c'.nodes ensures NodeOk(cap, c'.nodes[b]) && Owned(c', b) {
      if b != a { OwnedFrame(c, c', t, b); }
    }
  }

  // A node is allocated; so far only thread t knows of it.
  lemma AllocStep(cap: nat, c: Config, t: nat, a: Addr, x: Item, pc: PC)
    requires Inv(cap, c) && t < |c.pc| && a !in c.nodes
    requires PrivateOf(c.pc[t]).None? && SpecOf(c.pc[t]).None? && PendingOf(c.pc[t]).None?
    requires PrivateOf(pc) == Some(a) && SpecOf(pc).None? && PendingOf(pc).None?
    requires HazardOf(pc) == HazardOf(c.pc[t]) && !pc.Scan?
    requires GuardOf(pc) == GuardOf(c.pc[t])
    requires LocalOk(cap, |c.pc|, Allocate(cap, c, t, a, x).nodes, c.deferred[t], t, pc)
    ensures Inv(cap, Goto(Allocate(cap, c, t, a, x), t, pc))
  {
    assert ThreadOk(cap, c, t);
    hide ScanSafe, QueueOk, NodesOk, LocalOk, PrivateOf, SpecOf, PendingOf, FreshCells;
    var c' := Goto(Allocate(cap, c, t, a, x), t, pc);
    assert ThreadOk(cap, c', t);
    hide Inv, ThreadOk;
    AllocNodes(cap, c, t, a, x, pc);
    QuietQueues(cap, c, c');
    Rebuild(cap, c, c', t);
  }

  // The unpublished node of thread t is released again.
  lemma FreeStep(cap: nat, c: Config, t: nat)
    requires Inv(cap, c) && t < |c.pc| && c.pc[t].EnqFree?
    ensures EnqStep(cap, c, t, 0).Next? && Inv(cap, EnqStep(cap, c, t, 0).c)
  {
    hide ScanSafe, QueueOk, NodeOk, Owned, Speculative;
    assert ThreadOk(cap, c, t);
    var m := c.pc[t].m;
    var c' := EnqStep(cap, c, t, 0).c;
    forall b | b in c'.nodes ensures NodeOk(cap, c'.nodes[b]) && Owned(c', b) {
      OwnedFrame(c, c', t, b);
    }
    QuietQueues(cap, c, c');
    Rebuild(cap, c, c', t);
  }

  // Slot `done` of node n, past the tail, is written or blanked by thread t.
  predicate PastTail(c: Config, c': Config, t: nat, n: Addr)
    requires Sized(c) && t < |c.pc| && OnlyThread(c, c', t)
  {
    && n in c.nodes && n in c'.nodes && c'.nodes == c.nodes[n := c'.nodes[n]]
    && c'.chain == c.chain && c'.deferred == c.deferred && c'.ends == c.ends
    && Confirmed(c.nodes[n], c'.nodes[n]) && !c.nodes[n].status.Private?
    && (if c.nodes[n].spec.None?
        then c'.nodes[n].spec == Some(t) && SpecOf(c'.pc[t]) == Some(n) && SpecOf(c.pc[t]).None?
        else c.nodes[n].spec == Some(t) && c'.nodes[n].spec.None? && SpecOf(c'.pc[t]).None?)
    && PrivateOf(c'.pc[t]) == PrivateOf(c.pc[t])
    && PendingOf(c'.pc[t]).None? && PendingOf(c.pc[t]).None?
    && !c'.pc[t].Scan?
    && (GuardOf(c'.pc[t]).None? || GuardOf(c'.pc[t]) == GuardOf(c.pc[t]))
  }

  lemma PastTailOwned(c: Config, c': Config, t: nat, n: Addr, b: Addr)
    requires Sized(c) && t < |c.pc| && OnlyThread(c, c', t) && PastTail(c, c', t, n)
    requires b in c.nodes && Owned(c, n) && Owned(c, b)
    ensures Owned(c', b)
  {
  }

  lemma PastTailNodes(cap: nat, c: Config, c': Config, t: nat, n: Addr)
    requires Inv(cap, c) && t < |c.pc| && OnlyThread(c, c', t) && PastTail(c, c', t, n)
    requires NodeOk(cap, c'.nodes[n])
    ensures NodesOk(cap, c')
  {
    hide ScanSafe, QueueOk, ThreadOk;
    forall b | b in c'.nodes ensures NodeOk(cap, c'.nodes[b]) && Owned(c', b) {
      assert NodeOk(cap, c.nodes[b]) && Owned(c, b) && Owned(c, n);
      hide Owned;
      PastTailOwned(c, c', t, n, b);
    }
  }

  lemma PastTailEvolves(cap: nat, c: Config, c': Config, t: nat, n: Addr)
    requires Inv(cap, c) && t < |c.pc| && OnlyThread(c, c', t) && PastTail(c, c', t, n)
    ensures Evolves(c, c', t)
  {
    hide ScanSafe, QueueOk, ThreadOk, Owned, NodeOk;
  }

  lemma PastTailStep(cap: nat, c: Config, c': Config, t: nat, n: Addr)
    requires Inv(cap, c) && t < |c.pc| && OnlyThread(c, c', t) && PastTail(c, c', t, n)
    requires NodeOk(cap, c'.nodes[n]) && ThreadOk(cap, c', t)
    ensures Inv(cap, c')
  {
    hide ScanSafe;
    PastTailNodes(cap, c, c', t, n);
    PastTailEvolves(cap, c, c', t, n);
    hide NodesOk, ScanSafe;
    QuietQueues(cap, c, c');
    Rebuild(cap, c, c', t);
  }

  function Speculated(c: Config, t: nat, added: Option<Addr>): Config
    requires t < |c.pc| && (c.pc[t].EnqWrite? || c.pc[t].EnqChain?) && CellAt(c, Succ(c.pc[t].e.tail))
  {
    var pc := c.pc[t];
    var cell := if added.Some? then Link(added.value) else Elem(pc.x);
    Goto(SetCell(c, Succ(pc.e.tail), cell, Some(t)), t, EnqSwing(pc.x, pc.k, pc.e, added))
  }

  lemma SpeculateLocal(cap: nat, c: Config, t: nat, added: Option<Addr>)
    requires Sized(c) && t < |c.pc| && ThreadOk(cap, c, t)
    requires c.pc[t].EnqWrite? || c.pc[t].EnqChain?
    requires added == (if c.pc[t].EnqChain? then Some(c.pc[t].m) else None)
    requires c.pc[t].EnqWrite? ==> c.pc[t].e.tail.slot + 1 < cap
    requires var h := Succ(c.pc[t].e.tail); CellAt(c, h) && c.nodes[h.node].cells[h.slot].Empty? && NodeOk(cap, c.nodes[h.node])
    ensures var c' := Speculated(c, t, added);
            var n := c.pc[t].e.tail.node;
            OnlyThread(c, c', t) && PastTail(c, c', t, n) && NodeOk(cap, c'.nodes[n]) && ThreadOk(cap, c', t)
  {
    hide FreshCells;
    assert c.nodes[c.pc[t].e.tail.node].done == c.pc[t].e.tail.slot + 1;
  }

  // The unconfirmed write past the tail succeeds, in whatever the node that was
  // the tail when it was validated has become.
  lemma SpeculateStep(cap: nat, c: Config, t: nat, added: Option<Addr>)
    requires Inv(cap, c) && t < |c.pc|
    requires c.pc[t].EnqWrite? || c.pc[t].EnqChain?
    requires added == (if c.pc[t].EnqChain? then Some(c.pc[t].m) else None)
    requires c.pc[t].EnqWrite? ==> c.pc[t].e.tail.At? && c.pc[t].e.tail.slot + 1 < cap
    requires var h := Succ(c.pc[t].e.tail); CellAt(c, h) && c.nodes[h.node].cells[h.slot].Empty?
    ensures Inv(cap, Speculated(c, t, added))
  {
    var n := c.pc[t].e.tail.node;
    assert ThreadOk(cap, c, t) && NodeOk(cap, c.nodes[n]);
    hide NodesOk, QueueOk, ScanSafe, ThreadOk, NodeOk, PastTail;
    SpeculateLocal(cap, c, t, added);
    PastTailStep(cap, c, Speculated(c, t, added), t, n);
  }

  lemma UndoLocal(cap: nat, c: Config, t: nat)
    requires Sized(c) && t < |c.pc| && ThreadOk(cap, c, t) && c.pc[t].EnqUndo?
    requires c.pc[t].e.tail.node in c.nodes && NodeOk(cap, c.nodes[c.pc[t].e.tail.node])
    ensures EnqStep(cap, c, t, 0).Next?
    ensures var c', n := EnqStep(cap, c, t, 0).c, c.pc[t].e.tail.node;
            OnlyThread(c, c', t) && PastTail(c, c', t, n) && NodeOk(cap, c'.nodes[n]) && ThreadOk(cap, c', t)
  {
    hide FreshCells;
  }

  // The unconfirmed write is undone: nobody has touched it.
  lemma UndoStep(cap: nat, c: Config, t: nat)
    requires Inv(cap, c) && t < |c.pc| && c.pc[t].EnqUndo?
    ensures EnqStep(cap, c, t, 0).Next? && Inv(cap, EnqStep(cap, c, t, 0).c)
  {
    assert ThreadOk(cap, c, t);
    var n := c.pc[t].e.tail.node;
    assert NodeOk(cap, c.nodes[n]);
    hide NodesOk, QueueOk, ScanSafe, ThreadOk, NodeOk, PastTail;
    UndoLocal(cap, c, t);
    PastTailStep(cap, c, EnqStep(cap, c, t, 0).c, t, n);
  }

  // ----- successful swaps of the end pair -----

  // The queues other than k, none of whose nodes changed.
  lemma OtherQueues(cap: nat, c: Config, c': Config, k: nat)
    requires Inv(cap, c) && Sized(c') && |c'.pc| == |c.pc| && k < |c.pc|
    requires forall j :: 0 <= j < |c.pc| && j != k ==> c'.ends[j] == c.ends[j] && c'.chain[j] == c.chain[j]
    requires forall a :: a in c.nodes && c.nodes[a].status.Live? && c.nodes[a].status.queue != k
               ==> a in c'.nodes && c'.nodes[a] == c.nodes[a]
    requires QueueOk(cap, c', k)
    ensures forall j :: 0 <= j < |c.pc| ==> QueueOk(cap, c', j)
  {
    forall j | 0 <= j < |c.pc| && j != k ensures QueueOk(cap, c', j) { QueueFrame(cap, c, c', j); }
  }

  lemma InstallQueue(cap: nat, c: Config, t: nat)
    requires Sized(c) && cap > 0 && t < |c.pc| && c.pc[t].EnqInstall? && c.pc[t].k < |c.pc|
    requires ThreadOk(cap, c, t) && QueueOk(cap, c, c.pc[t].k) && c.ends[c.pc[t].k] == c.pc[t].e
    ensures EnqStep(cap, c, t, 0) == Next(Goto(Install(c, c.pc[t].k, c.pc[t].m), t, EnqDone))
    ensures QueueOk(cap, Goto(Install(c, c.pc[t].k, c.pc[t].m), t, EnqDone), c.pc[t].k)
    ensures ThreadOk(cap, Goto(Install(c, c.pc[t].k, c.pc[t].m), t, EnqDone), t)
    ensures c.chain[c.pc[t].k] == []
  {
  }

  lemma InstallNodes(cap: nat, c: Config, t: nat)
    requires Inv(cap, c) && t < |c.pc| && c.pc[t].EnqInstall? && c.pc[t].k < |c.pc|
    requires New(cap, c.nodes, c.pc[t].m, c.pc[t].x, t) && c.chain[c.pc[t].k] == []
    ensures var c' := Goto(Install(c, c.pc[t].k, c.pc[t].m), t, EnqDone); NodesOk(cap, c')
  {
    hide ScanSafe, ThreadOk, QueueOk, FreshCells;
    var k, m := c.pc[t].k, c.pc[t].m;
    var c' := Goto(Install(c, k, m), t, EnqDone);
    forall b | b in c'.nodes ensures NodeOk(cap, c'.nodes[b]) && Owned(c', b) {
      assert NodeOk(cap, c.nodes[b]) && Owned(c, b);
      if b != m { OwnedFrame(c, c', t, b); }
    }
  }

  lemma InstallEvolves(cap: nat, c: Config, t: nat)
    requires Inv(cap, c) && t < |c.pc| && c.pc[t].EnqInstall? && c.pc[t].k < |c.pc|
    requires New(cap, c.nodes, c.pc[t].m, c.pc[t].x, t)
    ensures Evolves(c, Goto(Install(c, c.pc[t].k, c.pc[t].m), t, EnqDone), t)
  {
    hide ScanSafe, ThreadOk, QueueOk, NodesOk, FreshCells;
  }

  // The swap of an empty queue for the one new node succeeds.
  lemma InstallStep(cap: nat, c: Config, t: nat)
    requires Inv(cap, c) && t < |c.pc| && c.pc[t].EnqInstall? && c.pc[t].k < |c.pc|
    requires c.ends[c.pc[t].k] == c.pc[t].e
    ensures EnqStep(cap, c, t, 0).Next? && Inv(cap, EnqStep(cap, c, t, 0).c)
  {
    assert ThreadOk(cap, c, t) && QueueOk(cap, c, c.pc[t].k);
    hide ScanSafe, QueueOk, NodesOk, DeferredOk;
    InstallQueue(cap, c, t);
    InstallNodes(cap, c, t);
    InstallEvolves(cap, c, t);
    hide ThreadOk;
    var c' := Goto(Install(c, c.pc[t].k, c.pc[t].m), t, EnqDone);
    OtherQueues(cap, c, c', c.pc[t].k);
    Rebuild(cap, c, c', t);
  }

  // The write of thread t in slot `done` of node n, the tail of queue k, is
  // confirmed; when it chained a new node, that node becomes the tail.
  predicate Confirms(cap: nat, c: Config, c': Config, t: nat, k: nat, n: Addr, added: Option<Addr>)
    requires Sized(c) && t < |c.pc| && k < |c.pc| && OnlyThread(c, c', t)
  {
    && n in c.nodes && c.nodes[n].spec == Some(t) && c.nodes[n].status == Live(k) && added != Some(n)
    && (added.Some? ==> added.value in c.nodes && c.nodes[added.value].status == Private(t) && c.nodes[added.value].spec.None?)
    && c'.nodes.Keys == c.nodes.Keys
    && (forall b :: b in c.nodes ==>
          c'.nodes[b] == if b == n then c.nodes[n].(done := c.nodes[n].done + 1, spec := None)
                         else if added == Some(b) then c.nodes[b].(status := Live(k)) else c.nodes[b])
    && c'.deferred == c.deferred
    && c'.chain == c.chain[k := if added.Some? then c.chain[k] + [added.value] else c.chain[k]]
    && PrivateOf(c.pc[t]) == added && PrivateOf(c'.pc[t]).None?
    && SpecOf(c.pc[t]) == Some(n) && SpecOf(c'.pc[t]).None?
    && PendingOf(c.pc[t]).None? && PendingOf(c'.pc[t]).None?
    && GuardOf(c'.pc[t]).None? && !c'.pc[t].Scan?
  }

  lemma ConfirmsOwned(cap: nat, c: Config, c': Config, t: nat, k: nat, n: Addr, added: Option<Addr>, b: Addr)
    requires Sized(c) && t < |c.pc| && k < |c.pc| && OnlyThread(c, c', t) && Confirms(cap, c, c', t, k, n, added)
    requires b in c.nodes && Owned(c, b) && NodeOk(cap, c.nodes[b]) && NodeOk(cap, c'.nodes[n])
    ensures b in c'.nodes && Owned(c', b) && NodeOk(cap, c'.nodes[b])
  {
    if b != n && added != Some(b) { hide NodeOk; OwnedFrame(c, c', t, b); }
  }

  lemma ConfirmsNodes(cap: nat, c: Config, c': Config, t: nat, k: nat, n: Addr, added: Option<Addr>)
    requires Inv(cap, c) && t < |c.pc| && k < |c.pc| && OnlyThread(c, c', t) && Confirms(cap, c, c', t, k, n, added)
    requires NodeOk(cap, c'.nodes[n])
    ensures NodesOk(cap, c')
  {
    hide ScanSafe, QueueOk, ThreadOk, Owned, NodeOk;
    forall b | b in c'.nodes ensures NodeOk(cap, c'.nodes[b]) && Owned(c', b) {
      ConfirmsOwned(cap, c, c', t, k, n, added, b);
    }
  }

  lemma ConfirmsEvolve(cap: nat, c: Config, c': Config, t: nat, k: nat, n: Addr, added: Option<Addr>)
    requires Inv(cap, c) && t < |c.pc| && k < |c.pc| && OnlyThread(c, c', t) && Confirms(cap, c, c', t, k, n, added)
    ensures Evolves(c, c', t)
  {
    hide ScanSafe, QueueOk, ThreadOk, Owned;
  }

  lemma ConfirmsStep(cap: nat, c: Config, c': Config, t: nat, k: nat, n: Addr, added: Option<Addr>)
    requires Inv(cap, c) && t < |c.pc| && k < |c.pc| && OnlyThread(c, c', t) && Confirms(cap, c, c', t, k, n, added)
    requires NodeOk(cap, c'.nodes[n]) && QueueOk(cap, c', k) && ThreadOk(cap, c', t)
    requires c'.ends == c.ends[k := c'.ends[k]]
    ensures Inv(cap, c')
  {
    hide NodesOk, ScanSafe, NodeOk;
    ConfirmsNodes(cap, c, c', t, k, n, added);
    ConfirmsEvolve(cap, c, c', t, k, n, added);
    OtherQueues(cap, c, c', k);
    Rebuild(cap, c, c', t);
  }

  // Appending within the tail node, or a one-slot node behind it.
  lemma AppendQueue(cap: nat, c: Config, c': Config, t: nat, k: nat, n: Addr, added: Option<Addr>)
    requires Sized(c) && cap > 0 && t < |c.pc| && k < |c.pc| && OnlyThread(c, c', t) && Confirms(cap, c, c', t, k, n, added)
    requires c.chain[k] != [] && QueueOk(cap, c, k) && c.ends[k].tail.At? && c.ends[k].tail.node == n
    requires NodeOk(cap, c'.nodes[n])
    requires added.None? ==> c.nodes[n].done < cap && c'.ends[k] == Ends(c.ends[k].head, At(n, c.nodes[n].done))
    requires added.Some? ==> c.nodes[n].done == cap && c'.ends[k] == Ends(c.ends[k].head, At(added.value, 0))
    requires added.Some? ==> c.nodes[added.value].done == 1 && c.nodes[n].cells[cap] == Link(added.value)
    ensures QueueOk(cap, c', k)
  {
    var ch, ch' := c.chain[k], c'.chain[k];
    forall i | 0 <= i < |ch'| ensures ch'[i] in c'.nodes && c'.nodes[ch'[i]].status == Live(k) {
      if i < |ch| { assert ch[i] in c.nodes; }
    }
    forall i | 0 <= i < |ch'| - 1
      ensures c'.nodes[ch'[i]].done == cap + 1 && |c'.nodes[ch'[i]].cells| == cap + 1 && c'.nodes[ch'[i]].cells[cap] == Link(ch'[i + 1])
    {
      if i < |ch| - 1 { assert c.nodes[ch[i]].done == cap + 1 && ch[i] != n; }
    }
  }

  lemma AppendLocal(cap: nat, c: Config, t: nat)
    requires Inv(cap, c) && t < |c.pc| && c.pc[t].EnqSwing? && c.pc[t].k < |c.pc|
    requires CellAt(c, Succ(c.pc[t].e.tail))
    ensures var pc := c.pc[t];
            var n, c' := pc.e.tail.node, Goto(Append(c, pc.k, pc.e, pc.added), t, EnqFinish(pc.e.tail.node));
            n in c'.nodes && NodeOk(cap, c'.nodes[n]) && ThreadOk(cap, c', t)
  {
    hide ScanSafe, QueueOk, Owned, FreshCells, EndsOk;
    assert ThreadOk(cap, c, t);
    var pc := c.pc[t];
    var n := pc.e.tail.node;
    assert NodeOk(cap, c.nodes[n]);
    var d, c' := c.deferred[t], Goto(Append(c, pc.k, pc.e, pc.added), t, EnqFinish(n));
    forall i | 0 <= i < |d| ensures d[i] in c'.nodes && c'.nodes[d[i]].status == Retired(t) {
      assert d[i] in c.nodes && c.nodes[d[i]].status == Retired(t);
    }
  }

  lemma AppendConfirms(cap: nat, c: Config, t: nat)
    requires Sized(c) && t < |c.pc| && c.pc[t].EnqSwing? && c.pc[t].k < |c.pc|
    requires ThreadOk(cap, c, t) && QueueOk(cap, c, c.pc[t].k)
    requires c.ends[c.pc[t].k] == c.pc[t].e && CellAt(c, Succ(c.pc[t].e.tail))
    ensures var pc := c.pc[t];
            var n, c' := pc.e.tail.node, Goto(Append(c, pc.k, pc.e, pc.added), t, EnqFinish(pc.e.tail.node));
            OnlyThread(c, c', t) && Confirms(cap, c, c', t, pc.k, n, pc.added) && c'.ends == c.ends[pc.k := c'.ends[pc.k]]
  {
    hide ScanSafe;
  }

  lemma AppendStep(cap: nat, c: Config, t: nat)
    requires Inv(cap, c) && t < |c.pc| && c.pc[t].EnqSwing? && c.pc[t].k < |c.pc|
    requires c.ends[c.pc[t].k] == c.pc[t].e && CellAt(c, Succ(c.pc[t].e.tail))
    ensures var pc := c.pc[t]; Inv(cap, Goto(Append(c, pc.k, pc.e, pc.added), t, EnqFinish(pc.e.tail.node)))
  {
    var pc := c.pc[t];
    var k, n := pc.k, pc.e.tail.node;
    var c' := Goto(Append(c, k, pc.e, pc.added), t, EnqFinish(n));
    assert ThreadOk(cap, c, t) && QueueOk(cap, c, k);
    hide ScanSafe, NodesOk, ThreadOk, QueueOk, Confirms, Append, OnlyThread, NodeOk;
    AppendConfirms(cap, c, t);
    AppendLocal(cap, c, t);
    AppendSwung(cap, c, t);
    ConfirmsStep(cap, c, c', t, k, n, pc.added);
  }

  lemma AppendSwung(cap: nat, c: Config, t: nat)
    requires Sized(c) && cap > 0 && t < |c.pc| && c.pc[t].EnqSwing? && c.pc[t].k < |c.pc| && CellAt(c, Succ(c.pc[t].e.tail))
    requires ThreadOk(cap, c, t) && QueueOk(cap, c, c.pc[t].k) && c.ends[c.pc[t].k] == c.pc[t].e
    requires var c', n := Goto(Append(c, c.pc[t].k, c.pc[t].e, c.pc[t].added), t, EnqFinish(c.pc[t].e.tail.node)), c.pc[t].e.tail.node;
             n in c'.nodes && NodeOk(cap, c'.nodes[n]) && Confirms(cap, c, c', t, c.pc[t].k, n, c.pc[t].added)
    ensures QueueOk(cap, Goto(Append(c, c.pc[t].k, c.pc[t].e, c.pc[t].added), t, EnqFinish(c.pc[t].e.tail.node)), c.pc[t].k)
  {
    hide DeferredOk;
    var pc := c.pc[t];
    AppendQueue(cap, c, Goto(Append(c, pc.k, pc.e, pc.added), t, EnqFinish(pc.e.tail.node)), t, pc.k, pc.e.tail.node, pc.added);
  }

  // Node n leaves queue k: thread t is to release it.
  predicate Unlinks(c: Config, c': Config, t: nat, k: nat, n: Addr)
    requires Sized(c) && t < |c.pc| && k < |c.pc| && OnlyThread(c, c', t)
  {
    && n in c.nodes && c.nodes[n].status == Live(k)
    && c'.nodes == c.nodes[n := c.nodes[n].(status := Retired(t))]
    && c'.deferred == c.deferred
    && c.chain[k] != [] && c.chain[k][0] == n && c'.chain == c.chain[k := c.chain[k][1..]]
    && PrivateOf(c.pc[t]).None? && PrivateOf(c'.pc[t]).None?
    && SpecOf(c.pc[t]).None? && SpecOf(c'.pc[t]).None?
    && PendingOf(c.pc[t]).None? && PendingOf(c'.pc[t]) == Some(n)
    && (GuardOf(c'.pc[t]).None? || GuardOf(c'.pc[t]) == GuardOf(c.pc[t])) && !c'.pc[t].Scan?
  }

  lemma UnlinksNodes(cap: nat, c: Config, c': Config, t: nat, k: nat, n: Addr)
    requires Inv(cap, c) && t < |c.pc| && k < |c.pc| && OnlyThread(c, c', t) && Unlinks(c, c', t, k, n)
    ensures NodesOk(cap, c')
  {
    hide ScanSafe, QueueOk, ThreadOk;
    forall b | b in c'.nodes ensures NodeOk(cap, c'.nodes[b]) && Owned(c', b) {
      assert NodeOk(cap, c.nodes[b]) && Owned(c, b);
      if b != n { hide NodeOk; OwnedFrame(c, c', t, b); }
    }
  }

  lemma UnlinksEvolves(cap: nat, c: Config, c': Config, t: nat, k: nat, n: Addr)
    requires Inv(cap, c) && t < |c.pc| && k < |c.pc| && OnlyThread(c, c', t) && Unlinks(c, c', t, k, n)
    ensures Evolves(c, c', t)
  {
    hide ScanSafe, QueueOk, ThreadOk, NodesOk;
  }

  lemma UnlinksStep(cap: nat, c: Config, c': Config, t: nat, k: nat, n: Addr)
    requires Inv(cap, c) && t < |c.pc| && k < |c.pc| && OnlyThread(c, c', t) && Unlinks(c, c', t, k, n)
    requires QueueOk(cap, c', k) && ThreadOk(cap, c', t)
    requires c'.ends == c.ends[k := c'.ends[k]]
    ensures Inv(cap, c')
  {
    UnlinksNodes(cap, c, c', t, k, n);
    UnlinksEvolves(cap, c, c', t, k, n);
    hide NodesOk, ScanSafe;
    OtherQueues(cap, c, c', k);
    Rebuild(cap, c, c', t);
  }

  // A node just removed is not among those removed before.
  lemma RetiredNow(nodes: map<Addr, Node>, nodes': map<Addr, Node>, d: seq<Addr>, n: Addr, t: nat)
    requires DeferredOk(nodes, d, t) && n in nodes && nodes[n].status.Live?
    requires nodes' == nodes[n := nodes[n].(status := Retired(t))]
    ensures RetiredBy(nodes', d, n, t) && DeferredOk(nodes', d, t)
  {
  }

  // The head moves on within its node.
  lemma AdvanceStep(cap: nat, c: Config, c': Config, t: nat, k: nat)
    requires Inv(cap, c) && t < |c.pc| && k < |c.pc| && OnlyThread(c, c', t)
    requires c'.nodes == c.nodes && c'.chain == c.chain && c'.deferred == c.deferred
    requires c'.ends == c.ends[k := c'.ends[k]] && c.ends[k].head.At?
    requires c'.ends[k] == Ends(Succ(c.ends[k].head), c.ends[k].tail) && c.ends[k].head.slot < cap
    requires c.ends[k].head != c.ends[k].tail
    requires ThreadOk(cap, c', t)
    requires PrivateOf(c'.pc[t]) == PrivateOf(c.pc[t]) && SpecOf(c'.pc[t]) == SpecOf(c.pc[t])
    requires PendingOf(c'.pc[t]) == PendingOf(c.pc[t])
    requires GuardOf(c'.pc[t]) == GuardOf(c.pc[t]) && !c'.pc[t].Scan?
    ensures Inv(cap, c')
  {
    hide NodeOk, Owned, ChainOk, Speculative, PendingOf;
    forall a | a in c'.nodes ensures NodeOk(cap, c'.nodes[a]) && Owned(c', a) { OwnedFrame(c, c', t, a); }
    assert QueueOk(cap, c, k);
    assert QueueOk(cap, c', k);
    OtherQueues(cap, c, c', k);
    Rebuild(cap, c, c', t);
  }

  // The only element is taken: its node leaves the queue with it.
  lemma RemoveLast(cap: nat, c: Config, t: nat)
    requires Inv(cap, c) && t < |c.pc| && c.pc[t].DeqAct? && c.pc[t].k < |c.pc|
    requires var e := c.pc[t].e; c.ends[c.pc[t].k] == e && e.head.At? && e.head == e.tail && CellAt(c, e.head)
    requires c.nodes[c.pc[t].e.head.node].cells[c.pc[t].e.head.slot].Elem?
    ensures var e, k := c.pc[t].e, c.pc[t].k;
            Inv(cap, Goto(Remove(c, t, k, e), t, DeqTake(e, c.nodes[e.head.node].cells[e.head.slot].item)))
  {
    hide ScanSafe, NodesOk, New;
    assert ThreadOk(cap, c, t);
    var e, k := c.pc[t].e, c.pc[t].k;
    var n := e.head.node;
    assert QueueOk(cap, c, k);
    var c' := Goto(Remove(c, t, k, e), t, DeqTake(e, c.nodes[n].cells[e.head.slot].item));
    assert |c.chain[k]| == 1 && c.chain[k][1..] == [];
    assert n !in c.deferred[t];
    assert Unlinks(c, c', t, k, n);
    assert QueueOk(cap, c', k);
    assert ThreadOk(cap, c', t);
    UnlinksStep(cap, c, c', t, k, n);
  }

  lemma RemoveStep(cap: nat, c: Config, t: nat)
    requires Inv(cap, c) && t < |c.pc| && c.pc[t].DeqAct? && c.pc[t].k < |c.pc|
    requires var e := c.pc[t].e; c.ends[c.pc[t].k] == e && e.head.At? && (e.head == e.tail || e.head.slot < cap)
    ensures DeqStep(cap, c, t).Next? && Inv(cap, DeqStep(cap, c, t).c)
  {
    hide ScanSafe;
    assert ThreadOk(cap, c, t);
    var e, k := c.pc[t].e, c.pc[t].k;
    var n := e.head.node;
    assert QueueOk(cap, c, k) && NodeOk(cap, c.nodes[n]);
    var x := c.nodes[n].cells[e.head.slot].item;
    var c' := Goto(Remove(c, t, k, e), t, DeqTake(e, x));
    if e.head == e.tail {
      RemoveLast(cap, c, t);
    } else {
      AdvanceStep(cap, c, c', t, k);
    }
  }

  lemma HopQueue(cap: nat, c: Config, c': Config, t: nat, k: nat, e: Ends, m: Addr)
    requires Sized(c) && k < |c.pc| && QueueOk(cap, c, k) && c.ends[k] == e
    requires e.head.At? && e.head.slot == cap && e.tail.slot < cap
    requires e.head.node in c.nodes && |c.nodes[e.head.node].cells| == cap + 1 && c.nodes[e.head.node].cells[cap] == Link(m)
    requires Sized(c') && |c'.pc| == |c.pc| && c'.ends[k] == Ends(At(m, 0), e.tail)
    requires |c.chain[k]| > 0 && c'.chain[k] == c.chain[k][1..]
    requires c'.nodes == c.nodes[e.head.node := c.nodes[e.head.node].(status := Retired(t))]
    ensures |c.chain[k]| > 1 && c.chain[k][1] == m && QueueOk(cap, c', k)
  {
    var ch := c.chain[k];
    assert ChainOk(cap, c'.nodes, k, ch[1..]);
  }

  lemma HopLocal(cap: nat, c: Config, t: nat)
    requires Sized(c) && t < |c.pc| && c.pc[t].DeqHop? && ThreadOk(cap, c, t)
    requires c.ends[c.pc[t].k] == c.pc[t].e && CellAt(c, c.pc[t].e.head)
    requires QueueOk(cap, c, c.pc[t].k)
    ensures var pc := c.pc[t];
            var c' := Goto(Hop(c, t, pc.k, pc.e, pc.m), t, DeqUnhook(pc.k, pc.a, Ends(At(pc.m, 0), pc.e.tail), pc.e.head.node));
            ThreadOk(cap, c', t) && Unlinks(c, c', t, pc.k, pc.e.head.node)
  {
    var pc := c.pc[t];
    var c' := Hop(c, t, pc.k, pc.e, pc.m);
    RetiredNow(c.nodes, c'.nodes, c.deferred[t], pc.e.head.node, t);
  }

  lemma HopStep(cap: nat, c: Config, t: nat)
    requires Inv(cap, c) && t < |c.pc| && c.pc[t].DeqHop? && c.pc[t].k < |c.pc|
    requires c.ends[c.pc[t].k] == c.pc[t].e && CellAt(c, c.pc[t].e.head)
    ensures var pc := c.pc[t];
            Inv(cap, Goto(Hop(c, t, pc.k, pc.e, pc.m), t, DeqUnhook(pc.k, pc.a, Ends(At(pc.m, 0), pc.e.tail), pc.e.head.node)))
  {
    hide ScanSafe, NodesOk, ChainOk;
    assert ThreadOk(cap, c, t);
    var e, k, m := c.pc[t].e, c.pc[t].k, c.pc[t].m;
    var n := e.head.node;
    assert QueueOk(cap, c, k);
    var c' := Goto(Hop(c, t, k, e, m), t, DeqUnhook(k, c.pc[t].a, Ends(At(m, 0), e.tail), n));
    HopQueue(cap, c, c', t, k, e, m);
    HopLocal(cap, c, t);
    UnlinksStep(cap, c, c', t, k, n);
  }

  // ----- reclamation -----

  lemma ReclaimNodes(cap: nat, c: Config, c': Config, t: nat, p: Addr)
    requires Inv(cap, c) && t < |c.pc| && OnlyThread(c, c', t)
    requires c'.nodes == c.nodes && c'.chain == c.chain
    requires PendingOf(c.pc[t]) == Some(p) && c'.deferred[t] == c.deferred[t] + [p]
    requires PrivateOf(c.pc[t]).None? && SpecOf(c.pc[t]).None?
    ensures NodesOk(cap, c')
  {
    forall b | b in c'.nodes ensures NodeOk(cap, c'.nodes[b]) && Owned(c', b) { OwnedFrame(c, c', t, b); }
  }

  lemma ReclaimLocal(cap: nat, c: Config, t: nat)
    requires Sized(c) && t < |c.pc| && ThreadOk(cap, c, t)
    requires PendingOf(c.pc[t]).Some? && (c.pc[t].DeqUnhook? || c.pc[t].DeqGot?)
    ensures DeqStep(cap, c, t).Next?
    ensures var c' := DeqStep(cap, c, t).c;
            && OnlyThread(c, c', t) && ThreadOk(cap, c', t) && c'.pc[t].Scan? && c'.pc[t].j == 0
            && c'.nodes == c.nodes && c'.ends == c.ends && c'.chain == c.chain
            && c'.deferred[t] == c.deferred[t] + [PendingOf(c.pc[t]).value]
  {
    hide Loaded, SpecOf, PrivateOf, Guarded;
  }

  // The node a thread has removed joins those it is to release.
  lemma ReclaimStep(cap: nat, c: Config, t: nat)
    requires Inv(cap, c) && t < |c.pc|
    requires c.pc[t].DeqUnhook? || (c.pc[t].DeqGot? && c.pc[t].e.head == c.pc[t].e.tail)
    ensures DeqStep(cap, c, t).Next? && Inv(cap, DeqStep(cap, c, t).c)
  {
    assert ThreadOk(cap, c, t);
    hide ThreadOk, QueueOk, NodesOk, ScanSafe;
    ReclaimLocal(cap, c, t);
    var c' := DeqStep(cap, c, t).c;
    hide DeqStep;
    ReclaimNodes(cap, c, c', t, PendingOf(c.pc[t]).value);
    QuietQueues(cap, c, c');
    OthersOk(cap, c, c', t);
    ReclaimScan(cap, c, c', t);
  }

  // A new pass starts before the first thread.
  lemma ReclaimScan(cap: nat, c: Config, c': Config, t: nat)
    requires Inv(cap, c) && t < |c.pc| && OnlyThread(c, c', t)
    requires c'.pc[t].Scan? && c'.pc[t].j == 0
    ensures ScanSafe(c')
  {
    hide NodesOk, QueueOk, ThreadOk, Scanning;
    ScanFrame(c, c', t);
  }

  lemma ReleaseDeferred(nodes: map<Addr, Node>, d: seq<Addr>, i: nat, t: nat)
    requires DeferredOk(nodes, d, t) && i < |d|
    ensures DeferredOk(nodes - {d[i]}, d[..i] + d[i + 1..], t)
  {
  }

  lemma ReleaseNodes(cap: nat, c: Config, c': Config, t: nat, i: nat)
    requires Inv(cap, c) && t < |c.pc| && OnlyThread(c, c', t) && c'.chain == c.chain
    requires i < |c.deferred[t]| && c'.nodes == c.nodes - {c.deferred[t][i]}
    requires c'.deferred[t] == c.deferred[t][..i] + c.deferred[t][i + 1..]
    requires PrivateOf(c.pc[t]).None? && SpecOf(c.pc[t]).None? && PendingOf(c.pc[t]).None?
    ensures NodesOk(cap, c')
  {
    hide ScanSafe, DeferredOk;
    var d, d' := c.deferred[t], c'.deferred[t];
    forall b | b in c'.nodes ensures NodeOk(cap, c'.nodes[b]) && Owned(c', b) {
      if b in d {
        var x :| 0 <= x < |d| && d[x] == b;
        assert d'[if x < i then x else x - 1] == b;
      }
      OwnedFrame(c, c', t, b);
    }
  }

  // A pass that reached the end found no thread guarding the node.
  lemma Unguarded(c: Config, t: nat)
    requires Sized(c) && ScanSafe(c) && t < |c.pc| && c.pc[t].Scan?
    requires c.pc[t].i < |c.deferred[t]| && c.pc[t].j >= |c.pc|
    ensures forall u :: 0 <= u < |c.pc| ==> GuardOf(c.pc[u]) != Some(c.deferred[t][c.pc[t].i])
  {
    forall u | 0 <= u < |c.pc| ensures GuardOf(c.pc[u]) != Some(c.deferred[t][c.pc[t].i]) {
      assert !Meets(c, u, t);
    }
  }

  // What a release does, short of the scan condition.
  lemma ReleaseLocal(cap: nat, c: Config, t: nat)
    requires Sized(c) && ScanSafe(c) && t < |c.pc| && c.pc[t].Scan? && ThreadOk(cap, c, t)
    requires c.pc[t].i < |c.deferred[t]| && c.pc[t].j >= |c.pc|
    ensures DeqStep(cap, c, t).Next?
    ensures var c' := DeqStep(cap, c, t).c; OnlyThread(c, c', t) && ThreadOk(cap, c', t) && Evolves(c, c', t)
  {
    Unguarded(c, t);
    ReleaseDeferred(c.nodes, c.deferred[t], c.pc[t].i, t);
  }

  // A deferred node is released after a pass that found it unprotected.
  lemma ReleaseStep(cap: nat, c: Config, t: nat)
    requires Inv(cap, c) && t < |c.pc| && c.pc[t].Scan?
    requires c.pc[t].i < |c.deferred[t]| && c.pc[t].j >= |c.pc|
    ensures DeqStep(cap, c, t).Next? && Inv(cap, DeqStep(cap, c, t).c)
  {
    assert ThreadOk(cap, c, t);
    ReleaseLocal(cap, c, t);
    var c' := DeqStep(cap, c, t).c;
    ReleaseNodes(cap, c, c', t, c.pc[t].i);
    QuietQueues(cap, c, c');
    OthersOk(cap, c, c', t);
    ScanFrame(c, c', t);
  }

  // ----- every step -----

  // Validated: the end pair is as it was loaded, so its nodes are in the queue.
  lemma Validated(cap: nat, c: Config, k: nat, e: Ends)
    requires Inv(cap, c) && k < |c.pc| && c.ends[k] == e && e.head.At?
    ensures Guarded(c.nodes, e.head) && Guarded(c.nodes, e.tail)
    ensures c.nodes[e.head.node].status.Live? && c.nodes[e.tail.node].status.Live?
  {
    assert QueueOk(cap, c, k);
    var ch := c.chain[k];
    assert NodeOk(cap, c.nodes[ch[0]]) && NodeOk(cap, c.nodes[ch[|ch| - 1]]);
    if |ch| > 1 { assert c.nodes[ch[0]].done == cap + 1; }
  }

  lemma EnqStepSafe(cap: nat, c: Config, t: nat, a: Addr)
    requires Inv(cap, c) && Enabled(c, t, Run(a)) && Enqueuing(c.pc[t])
    ensures EnqStep(cap, c, t, a).Next? && Inv(cap, EnqStep(cap, c, t, a).c)
  {
    match c.pc[t] {
      case EnqStart(_, _, _) => EnqStartSafe(cap, c, t, a);
      case EnqInstall(_, _, _, _) => EnqInstallSafe(cap, c, t);
      case EnqWrite(_, _, _) => EnqWriteSafe(cap, c, t, a);
      case EnqChain(_, _, _, _) => EnqChainSafe(cap, c, t);
      case EnqSwing(_, _, _, _) => EnqSwingSafe(cap, c, t);
      case EnqUndo(_, _, _, _, _) => UndoStep(cap, c, t);
      case EnqFree(_, _, _, _, _) => FreeStep(cap, c, t);
      case EnqCheck(_, _, _) => EnqCheckSafe(cap, c, t);
      case _ => EnqLocalSafe(cap, c, t);
    }
  }

  lemma EnqStartSafe(cap: nat, c: Config, t: nat, a: Addr)
    requires Inv(cap, c) && Enabled(c, t, Run(a)) && c.pc[t].EnqStart?
    ensures EnqStep(cap, c, t, a).Next? && Inv(cap, EnqStep(cap, c, t, a).c)
  {
    assert ThreadOk(cap, c, t);
    var x, k, e := c.pc[t].x, c.pc[t].k, c.pc[t].e;
    if e.tail.Null? { AllocStep(cap, c, t, a, x, EnqInstall(x, k, e, a)); }
    else { LocalStep(cap, c, EnqStep(cap, c, t, a).c, t); }
  }

  lemma EnqInstallSafe(cap: nat, c: Config, t: nat)
    requires Inv(cap, c) && t < |c.pc| && c.pc[t].EnqInstall?
    ensures EnqStep(cap, c, t, 0).Next? && Inv(cap, EnqStep(cap, c, t, 0).c)
  {
    assert ThreadOk(cap, c, t);
    var k, e := c.pc[t].k, c.pc[t].e;
    if c.ends[k] == e { InstallStep(cap, c, t); }
    else { assert QueueOk(cap, c, k); LocalStep(cap, c, EnqStep(cap, c, t, 0).c, t); }
  }

  lemma EnqLocalSafe(cap: nat, c: Config, t: nat)
    requires Inv(cap, c) && t < |c.pc|
    requires c.pc[t].EnqRead? || c.pc[t].EnqDrop? || c.pc[t].EnqFinish? || c.pc[t].EnqDone?
    ensures EnqStep(cap, c, t, 0).Next? && Inv(cap, EnqStep(cap, c, t, 0).c)
  {
    assert ThreadOk(cap, c, t);
    if c.pc[t].EnqRead? { assert QueueOk(cap, c, c.pc[t].k); }
    LocalStep(cap, c, EnqStep(cap, c, t, 0).c, t);
  }

  lemma EnqCheckSafe(cap: nat, c: Config, t: nat)
    requires Inv(cap, c) && t < |c.pc| && c.pc[t].EnqCheck?
    ensures EnqStep(cap, c, t, 0).Next? && Inv(cap, EnqStep(cap, c, t, 0).c)
  {
    hide ScanSafe;
    assert ThreadOk(cap, c, t);
    var k, e := c.pc[t].k, c.pc[t].e;
    assert QueueOk(cap, c, k);
    if c.ends[k] == e { Validated(cap, c, k, e); }
    LocalStep(cap, c, EnqStep(cap, c, t, 0).c, t);
  }

  lemma EnqWriteSafe(cap: nat, c: Config, t: nat, a: Addr)
    requires Inv(cap, c) && Enabled(c, t, Run(a)) && c.pc[t].EnqWrite?
    ensures EnqStep(cap, c, t, a).Next? && Inv(cap, EnqStep(cap, c, t, a).c)
  {
    hide ScanSafe;
    assert ThreadOk(cap, c, t);
    var x, k, e := c.pc[t].x, c.pc[t].k, c.pc[t].e;
    assert NodeOk(cap, c.nodes[e.tail.node]);
    if e.tail.slot + 1 < cap {
      if c.nodes[e.tail.node].cells[e.tail.slot + 1].Empty? { SpeculateStep(cap, c, t, None); }
      else { LocalStep(cap, c, EnqStep(cap, c, t, a).c, t); }
    } else {
      AllocStep(cap, c, t, a, x, EnqChain(x, k, e, a));
    }
  }

  lemma EnqChainSafe(cap: nat, c: Config, t: nat)
    requires Inv(cap, c) && t < |c.pc| && c.pc[t].EnqChain?
    ensures EnqStep(cap, c, t, 0).Next? && Inv(cap, EnqStep(cap, c, t, 0).c)
  {
    hide ScanSafe, DeferredOk;
    assert ThreadOk(cap, c, t);
    var e, m := c.pc[t].e, c.pc[t].m;
    assert NodeOk(cap, c.nodes[e.tail.node]);
    if c.nodes[e.tail.node].cells[e.tail.slot + 1].Empty? { SpeculateStep(cap, c, t, Some(m)); }
    else { LocalStep(cap, c, EnqStep(cap, c, t, 0).c, t); }
  }

  lemma EnqSwingSafe(cap: nat, c: Config, t: nat)
    requires Inv(cap, c) && t < |c.pc| && c.pc[t].EnqSwing?
    ensures EnqStep(cap, c, t, 0).Next? && Inv(cap, EnqStep(cap, c, t, 0).c)
  {
    hide ScanSafe, DeferredOk;
    assert ThreadOk(cap, c, t);
    var k, e := c.pc[t].k, c.pc[t].e;
    assert NodeOk(cap, c.nodes[e.tail.node]);
    if c.ends[k] == e { AppendStep(cap, c, t); }
    else { assert QueueOk(cap, c, k); LocalStep(cap, c, EnqStep(cap, c, t, 0).c, t); }
  }

  lemma DeqStepSafe(cap: nat, c: Config, t: nat)
    requires Inv(cap, c) && t < |c.pc| && !c.pc[t].Idle? && !Enqueuing(c.pc[t])
    ensures DeqStep(cap, c, t).Next? && Inv(cap, DeqStep(cap, c, t).c)
  {
    match c.pc[t] {
      case DeqCheck(_, _, _) => DeqCheckSafe(cap, c, t);
      case DeqAct(_, _, _) => DeqActSafe(cap, c, t);
      case DeqHop(_, _, _, _) => DeqHopSafe(cap, c, t);
      case DeqUnhook(_, _, _, _) => ReclaimStep(cap, c, t);
      case DeqGot(e, _) => if e.head == e.tail { ReclaimStep(cap, c, t); } else { DeqGotSafe(cap, c, t); }
      case Scan(i, j, _) =>
        if i >= |c.deferred[t]| { ScanEndSafe(cap, c, t); }
        else if j < |c.pc| { ScanMoveSafe(cap, c, t); }
        else { ReleaseStep(cap, c, t); }
      case DeqStart(_, _, _) => DeqStartSafe(cap, c, t);
      case DeqTake(_, _) => DeqTakeSafe(cap, c, t);
      case DeqRead(_, _) => DeqReadSafe(cap, c, t);
      case _ => DeqDropSafe(cap, c, t);
    }
  }

  lemma DeqHopSafe(cap: nat, c: Config, t: nat)
    requires Inv(cap, c) && t < |c.pc| && c.pc[t].DeqHop?
    ensures DeqStep(cap, c, t).Next? && Inv(cap, DeqStep(cap, c, t).c)
  {
    hide DeferredOk;
    assert ThreadOk(cap, c, t);
    var k, e := c.pc[t].k, c.pc[t].e;
    assert NodeOk(cap, c.nodes[e.head.node]);
    if c.ends[k] == e { HopStep(cap, c, t); }
    else { assert QueueOk(cap, c, k); LocalStep(cap, c, DeqStep(cap, c, t).c, t); }
  }

  lemma DeqStartSafe(cap: nat, c: Config, t: nat)
    requires Inv(cap, c) && t < |c.pc| && c.pc[t].DeqStart?
    ensures DeqStep(cap, c, t).Next? && Inv(cap, DeqStep(cap, c, t).c)
  {
    hide ScanSafe;
    assert ThreadOk(cap, c, t);
    LocalStep(cap, c, DeqStep(cap, c, t).c, t);
  }

  lemma DeqTakeSafe(cap: nat, c: Config, t: nat)
    requires Inv(cap, c) && t < |c.pc| && c.pc[t].DeqTake?
    ensures DeqStep(cap, c, t).Next? && Inv(cap, DeqStep(cap, c, t).c)
  {
    hide ScanSafe;
    assert ThreadOk(cap, c, t);
    LocalStep(cap, c, DeqStep(cap, c, t).c, t);
  }

  lemma DeqGotSafe(cap: nat, c: Config, t: nat)
    requires Inv(cap, c) && t < |c.pc| && c.pc[t].DeqGot? && c.pc[t].e.head != c.pc[t].e.tail
    ensures DeqStep(cap, c, t).Next? && Inv(cap, DeqStep(cap, c, t).c)
  {
    hide ScanSafe;
    assert ThreadOk(cap, c, t);
    LocalStep(cap, c, DeqStep(cap, c, t).c, t);
  }

  lemma DeqReadSafe(cap: nat, c: Config, t: nat)
    requires Inv(cap, c) && t < |c.pc| && c.pc[t].DeqRead?
    ensures DeqStep(cap, c, t).Next? && Inv(cap, DeqStep(cap, c, t).c)
  {
    hide ScanSafe;
    assert ThreadOk(cap, c, t);
    assert QueueOk(cap, c, c.pc[t].k);
    LocalStep(cap, c, DeqStep(cap, c, t).c, t);
  }

  lemma DeqDropSafe(cap: nat, c: Config, t: nat)
    requires Inv(cap, c) && t < |c.pc| && (c.pc[t].DeqDrop? || c.pc[t].DeqDone?)
    ensures DeqStep(cap, c, t).Next? && Inv(cap, DeqStep(cap, c, t).c)
  {
    hide ScanSafe;
    assert ThreadOk(cap, c, t);
    LocalStep(cap, c, DeqStep(cap, c, t).c, t);
  }

  lemma DeqCheckSafe(cap: nat, c: Config, t: nat)
    requires Inv(cap, c) && t < |c.pc| && c.pc[t].DeqCheck?
    ensures DeqStep(cap, c, t).Next? && Inv(cap, DeqStep(cap, c, t).c)
  {
    hide ScanSafe;
    assert ThreadOk(cap, c, t);
    var k, e := c.pc[t].k, c.pc[t].e;
    assert QueueOk(cap, c, k);
    if c.ends[k] == e { Validated(cap, c, k, e); }
    LocalStep(cap, c, DeqStep(cap, c, t).c, t);
  }

  lemma DeqActSafe(cap: nat, c: Config, t: nat)
    requires Inv(cap, c) && t < |c.pc| && c.pc[t].DeqAct?
    ensures DeqStep(cap, c, t).Next? && Inv(cap, DeqStep(cap, c, t).c)
  {
    assert ThreadOk(cap, c, t);
    var k, e := c.pc[t].k, c.pc[t].e;
    hide NodesOk, QueueOk, ScanSafe, DeferredOk;
    if e.head != e.tail && e.head.slot >= cap { DeqActAtEnd(cap, c, t); }
    else if c.ends[k] == e { RemoveStep(cap, c, t); }
    else { DeqActFails(cap, c, t); }
  }

  // The head has come to the chained pointer of its node.
  lemma DeqActAtEnd(cap: nat, c: Config, t: nat)
    requires Inv(cap, c) && t < |c.pc| && c.pc[t].DeqAct? && c.pc[t].e.head.At?
    requires c.pc[t].e.head != c.pc[t].e.tail && c.pc[t].e.head.slot >= cap
    ensures DeqStep(cap, c, t).Next? && Inv(cap, DeqStep(cap, c, t).c)
  {
    assert ThreadOk(cap, c, t) && NodeOk(cap, c.nodes[c.pc[t].e.head.node]);
    hide ScanSafe, DeferredOk, NodesOk, QueueOk, Owned;
    LocalStep(cap, c, DeqStep(cap, c, t).c, t);
  }

  // The swap of the head fails: the end pair seen instead is the next to be tried.
  lemma DeqActFails(cap: nat, c: Config, t: nat)
    requires Inv(cap, c) && t < |c.pc| && c.pc[t].DeqAct? && c.pc[t].k < |c.pc| && c.ends[c.pc[t].k] != c.pc[t].e
    requires var e := c.pc[t].e; e.head.At? && (e.head == e.tail || e.head.slot < cap)
    ensures DeqStep(cap, c, t).Next? && Inv(cap, DeqStep(cap, c, t).c)
  {
    assert ThreadOk(cap, c, t) && QueueOk(cap, c, c.pc[t].k) && NodeOk(cap, c.nodes[c.pc[t].e.head.node]);
    hide ScanSafe, DeferredOk, NodesOk, QueueOk, Owned, ChainOk;
    LocalStep(cap, c, DeqStep(cap, c, t).c, t);
  }

  // The pass is over.
  lemma ScanEndSafe(cap: nat, c: Config, t: nat)
    requires Inv(cap, c) && t < |c.pc| && c.pc[t].Scan? && c.pc[t].i >= |c.deferred[t]|
    ensures DeqStep(cap, c, t).Next? && Inv(cap, DeqStep(cap, c, t).c)
  {
    hide ScanSafe, DeferredOk;
    assert ThreadOk(cap, c, t);
    LocalStep(cap, c, DeqStep(cap, c, t).c, t);
  }

  // The pass looks at one thread's hazard pointer.
  lemma ScanMoveSafe(cap: nat, c: Config, t: nat)
    requires Inv(cap, c) && t < |c.pc| && c.pc[t].Scan? && c.pc[t].i < |c.deferred[t]| && c.pc[t].j < |c.pc|
    ensures DeqStep(cap, c, t).Next? && Inv(cap, DeqStep(cap, c, t).c)
  {
    hide DeferredOk, QueueOk, NodesOk;
    assert ThreadOk(cap, c, t);
    var c' := DeqStep(cap, c, t).c;
    forall u | 0 <= u < |c.pc| && Meets(c', u, t) ensures c'.pc[t].j <= u {
      if c'.pc[t].i == c.pc[t].i {
        assert ThreadOk(cap, c, u);
        assert Meets(c, u, t);
      }
    }
    hide ScanSafe, GuardOf;
    LocalStep(cap, c, c', t);
  }

  /** No step faults, and every step keeps the invariant. */
  lemma StepSafe(cap: nat, c: Config, t: nat, ch: Choice)
    requires Inv(cap, c) && Enabled(c, t, ch)
    ensures Step(cap, c, t, ch).Next? && Inv(cap, Step(cap, c, t, ch).c)
  {
    assert t < |c.pc| && ThreadOk(cap, c, t);
    match ch {
      case Enqueue(x, k) => LocalStep(cap, c, Step(cap, c, t, ch).c, t);
      case Dequeue(k) => LocalStep(cap, c, Step(cap, c, t, ch).c, t);
      case Run(a) =>
        if Enqueuing(c.pc[t]) { EnqStepSafe(cap, c, t, a); } else { DeqStepSafe(cap, c, t); }
    }
  }

  lemma InitialSafe(cap: nat, c: Config)
    requires Initial(c) && cap > 0
    ensures Inv(cap, c)
  {
  }
}
