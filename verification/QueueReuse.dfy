/** Node addresses come back into use, yet a compare-and-swap of an end pair is
    never fooled by one: if it succeeds, the queue's ends and nodes have not changed
    at any moment since the thread validated the pair. */
module QueueReuse {
  import opened Options
  import opened QueueMachine
  import opened QueueInvariant
  import opened QueueSafety
  import opened QueueFifo
  import opened QueueHazards

  // ----- how the nodes of a queue change -----

  /** Nodes join a queue at its back and leave it at its front. */
  predicate ChainMoves(q: seq<Addr>, q': seq<Addr>)
  {
    q <= q' || (q != [] && q' == q[1..])
  }

  predicate Distinct(q: seq<Addr>)
  {
    forall i, j :: 0 <= i < j < |q| ==> q[i] != q[j]
  }

  /** With the same nodes, the ends can only have moved on. */
  predicate EndsMove(e: Ends, e': Ends)
  {
    && e.head.At? && e.tail.At? && e'.head.At? && e'.tail.At?
    && e.head.slot <= e'.head.slot && e.tail.slot <= e'.tail.slot
  }

  predicate QueueMoves(q: seq<Addr>, e: Ends, q': seq<Addr>, e': Ends)
  {
    ChainMoves(q, q') && (q' == q != [] ==> EndsMove(e, e'))
  }

  lemma QueueChange(cap: nat, c: Config, t: nat, ch: Choice, c': Config, k: nat)
    requires Inv(cap, c) && Enabled(c, t, ch) && Step(cap, c, t, ch) == Next(c') && k < |c.pc|
    ensures k < |c'.chain| && k < |c'.ends| && QueueMoves(c.chain[k], c.ends[k], c'.chain[k], c'.ends[k])
  {
    hide NodesOk, QueueOk, ThreadOk, ScanSafe;
    assert QueueOk(cap, c, k);
    if ch.Run? && Enqueuing(c.pc[t]) { EnqChange(cap, c, t, ch.addr, c', k); }
    else if ch.Run? { DeqChange(cap, c, t, c', k); }
    else { SameEnds(cap, c, k); }
  }

  // A queue no step concerns.
  lemma SameEnds(cap: nat, c: Config, k: nat)
    requires Sized(c) && k < |c.pc| && QueueOk(cap, c, k)
    ensures QueueMoves(c.chain[k], c.ends[k], c.chain[k], c.ends[k])
  {
    hide ChainOk;
  }

  lemma EnqChange(cap: nat, c: Config, t: nat, a: Addr, c': Config, k: nat)
    requires Inv(cap, c) && t < |c.pc| && EnqStep(cap, c, t, a) == Next(c') && k < |c.pc|
    ensures k < |c'.chain| && k < |c'.ends| && QueueMoves(c.chain[k], c.ends[k], c'.chain[k], c'.ends[k])
  {
    hide NodesOk, ScanSafe, ChainOk, ThreadOk, FreshCells;
    assert QueueOk(cap, c, k);
    if c.pc[t].EnqInstall? || c.pc[t].EnqSwing? { EnqSwapChange(cap, c, t, a, c', k); }
    else { SameEnds(cap, c, k); }
  }

  lemma EnqSwapChange(cap: nat, c: Config, t: nat, a: Addr, c': Config, k: nat)
    requires Inv(cap, c) && t < |c.pc| && EnqStep(cap, c, t, a) == Next(c') && k < |c.pc|
    requires c.pc[t].EnqInstall? || c.pc[t].EnqSwing?
    ensures k < |c'.chain| && k < |c'.ends| && QueueMoves(c.chain[k], c.ends[k], c'.chain[k], c'.ends[k])
  {
    hide NodesOk, ScanSafe, ChainOk, DeferredOk, FreshCells;
    assert QueueOk(cap, c, k) && ThreadOk(cap, c, t);
  }

  lemma DeqChange(cap: nat, c: Config, t: nat, c': Config, k: nat)
    requires Inv(cap, c) && t < |c.pc| && DeqStep(cap, c, t) == Next(c') && k < |c.pc|
    ensures k < |c'.chain| && k < |c'.ends| && QueueMoves(c.chain[k], c.ends[k], c'.chain[k], c'.ends[k])
  {
    hide NodesOk, ScanSafe, DeferredOk, ThreadOk;
    assert QueueOk(cap, c, k);
  }

  predicate InQueue(c: Config, k: nat, a: Addr)
  {
    k < |c.chain| && a in c.chain[k] && a in c.nodes && c.nodes[a].status == Live(k)
  }

  // ----- sequences of such changes -----

  predicate Movements(qs: seq<seq<Addr>>, x: Addr)
  {
    && (forall i :: 0 <= i < |qs| ==> Distinct(qs[i]) && x in qs[i])
    && (forall i :: 0 <= i < |qs| - 1 ==> ChainMoves(qs[i], qs[i + 1]))
  }

  // While its first element stays, a chain only grows.
  lemma {:induction false} FrontStays(qs: seq<seq<Addr>>, i: nat, j: nat, x: Addr)
    requires Movements(qs, x) && i <= j < |qs| && qs[i][0] == x
    ensures qs[i] <= qs[j]
    decreases j
  {
    if i < j {
      FrontStays(qs, i, j - 1, x);
      var q, q' := qs[j - 1], qs[j];
      assert ChainMoves(q, q');
    }
  }

  predicate IsSuffix(q': seq<Addr>, q: seq<Addr>)
  {
    |q'| <= |q| && q' == q[|q| - |q'|..]
  }

  lemma SuffixOfSuffix(q: seq<Addr>, q': seq<Addr>, q'': seq<Addr>)
    requires IsSuffix(q', q) && IsSuffix(q'', q')
    ensures IsSuffix(q'', q)
  {
  }

  lemma BackStep(q: seq<Addr>, q': seq<Addr>, x: Addr)
    requires ChainMoves(q, q') && Distinct(q') && x in q && q' != [] && q'[|q'| - 1] == x
    ensures IsSuffix(q', q) && q[|q| - 1] == x
  {
    if q <= q' {
      var n :| 0 <= n < |q| && q[n] == x;
      assert q'[n] == x && n == |q'| - 1;
    }
  }

  // A chain in whose last place an element is found at the end only shrank.
  lemma {:induction false} BackStays(qs: seq<seq<Addr>>, i: nat, j: nat, x: Addr)
    requires Movements(qs, x) && i <= j < |qs| && qs[j][|qs[j]| - 1] == x
    ensures IsSuffix(qs[j], qs[i])
    decreases j
  {
    if i < j {
      hide ChainMoves, IsSuffix, Distinct;
      assert ChainMoves(qs[j - 1], qs[j]);
      BackStep(qs[j - 1], qs[j], x);
      BackStays(qs, i, j - 1, x);
      SuffixOfSuffix(qs[i], qs[j - 1], qs[j]);
    } else {
      assert qs[j] == qs[j][0..];
    }
  }

  // With the same first and last element before and after, nothing happened.
  lemma Unmoved(qs: seq<seq<Addr>>, m: nat, x: Addr)
    requires Movements(qs, x) && m < |qs|
    requires var n := |qs| - 1;
             && qs[0][0] == qs[n][0] && qs[0][|qs[0]| - 1] == qs[n][|qs[n]| - 1]
             && (x == qs[0][0] || x == qs[n][|qs[n]| - 1])
    ensures qs[m] == qs[0]
  {
    var n := |qs| - 1;
    var h, t := qs[0][0], qs[n][|qs[n]| - 1];
    if x == h {
      FrontStays(qs, 0, n, x);
      assert qs[n][|qs[0]| - 1] == t;
      FrontStays(qs, 0, m, x);
      FrontStays(qs, m, n, x);
    } else {
      BackStays(qs, 0, n, x);
      assert qs[0][|qs[0]| - |qs[n]|] == h;
      BackStays(qs, m, n, x);
      BackStays(qs, 0, m, x);
    }
  }

  // ----- whole runs -----

  /** What a thread compares the end pair of queue k with when it next tries to swap
      it: the pair e, validated by an enqueue or by a dequeue. */
  predicate Minds(pc: PC, enqueue: bool, k: nat, e: Ends)
  {
    if enqueue then (pc.EnqWrite? || pc.EnqChain? || pc.EnqSwing?) && pc.k == k && pc.e == e
    else (pc.DeqAct? || pc.DeqHop?) && pc.k == k && pc.e == e
  }

  /** From configuration i, where u validates e, to configuration j, u keeps it in mind. */
  predicate Stretch(cs: seq<Config>, es: seq<Event>, i: nat, j: nat, u: nat, enqueue: bool, k: nat, e: Ends)
    requires i < j < |es| < |cs|
  {
    && es[i].t == u && u < |cs[i].pc|
    && (if enqueue then cs[i].pc[u].EnqCheck? else cs[i].pc[u].DeqCheck?)
    && forall m :: i < m <= j ==> u < |cs[m].pc| && Minds(cs[m].pc[u], enqueue, k, e)
  }

  function Kept(enqueue: bool, e: Ends): Option<Addr>
  {
    NodeOf(if enqueue then e.tail else e.head)
  }

  // The end pair was e when it was validated.
  lemma ValidatedThen(cap: nat, c: Config, t: nat, ch: Choice, c': Config, enqueue: bool, k: nat, e: Ends)
    requires Inv(cap, c) && Enabled(c, t, ch) && Step(cap, c, t, ch) == Next(c')
    requires if enqueue then c.pc[t].EnqCheck? else c.pc[t].DeqCheck?
    requires t < |c'.pc| && Minds(c'.pc[t], enqueue, k, e)
    ensures k < |c.pc| && c.ends[k] == e && e.head.At? && e.tail.At? && c'.nodes == c.nodes
  {
    hide NodesOk, QueueOk, ScanSafe, DeferredOk;
    assert ThreadOk(cap, c, t);
  }

  lemma MindsHazard(cap: nat, c: Config, u: nat, enqueue: bool, k: nat, e: Ends)
    requires Inv(cap, c) && u < |c.pc| && Minds(c.pc[u], enqueue, k, e)
    ensures GuardOf(c.pc[u]) == Kept(enqueue, e) && c.hazarded[u] == Kept(enqueue, e)
  {
    hide NodesOk, QueueOk, ScanSafe, LocalOk;
    assert ThreadOk(cap, c, u);
  }

  lemma StretchProtects(cap: nat, cs: seq<Config>, es: seq<Event>, i: nat, j: nat, u: nat, enqueue: bool, k: nat, e: Ends, m: nat)
    requires IsRun(cap, cs, es) && cap > 0 && i < m <= j < |es| && Stretch(cs, es, i, j, u, enqueue, k, e)
    requires Kept(enqueue, e).Some?
    ensures u < |cs[m].pc| && GuardOf(cs[m].pc[u]) == Kept(enqueue, e) && Protects(cs, m, j, u, Kept(enqueue, e).value)
  {
    hide Initial, Takes, Inv, Kept, GuardOf;
    forall n | m <= n <= j ensures u < |cs[n].pc| && |cs[n].hazarded| == |cs[n].pc|
      && GuardOf(cs[n].pc[u]) == cs[n].hazarded[u] == Kept(enqueue, e)
    {
      RunSafe(cap, cs, es, n);
      RunSized(cap, cs, es, n);
      MindsHazard(cap, cs[n], u, enqueue, k, e);
    }
  }

  // The ends of a queue that is not empty are in it.
  lemma EndsInQueue(cap: nat, c: Config, k: nat, e: Ends)
    requires Inv(cap, c) && k < |c.pc| && c.ends[k] == e && e.head.At?
    ensures e.tail.At? && c.chain[k] != []
    ensures e.head.node == c.chain[k][0] && e.tail.node == c.chain[k][|c.chain[k]| - 1]
    ensures InQueue(c, k, e.head.node) && InQueue(c, k, e.tail.node)
  {
    hide NodesOk, ScanSafe, ThreadOk;
    assert QueueOk(cap, c, k);
  }

  lemma ChainDistinct(cap: nat, c: Config, k: nat)
    requires Inv(cap, c) && k < |c.pc|
    ensures Distinct(c.chain[k])
    ensures forall a :: a in c.nodes && c.nodes[a].status == Live(k) ==> a in c.chain[k]
  {
    hide NodeOk, ScanSafe, ThreadOk;
    assert QueueOk(cap, c, k);
    forall a | a in c.nodes && c.nodes[a].status == Live(k) ensures a in c.chain[k] { assert Owned(c, a); }
  }

  // The protected end never left the queue: it was in it before and is in it after.
  lemma KeptLive(cap: nat, cs: seq<Config>, es: seq<Event>, i: nat, j: nat, u: nat, enqueue: bool, k: nat, e: Ends, m: nat)
    requires IsRun(cap, cs, es) && cap > 0 && i < m <= j < |es| && Stretch(cs, es, i, j, u, enqueue, k, e)
    requires k < |cs[j].ends| && cs[j].ends[k] == e && e.head.At?
    ensures Kept(enqueue, e).Some? && InQueue(cs[m], k, Kept(enqueue, e).value)
  {
    hide Initial, Takes, Inv, GuardOf;
    RunSafe(cap, cs, es, j);
    RunSized(cap, cs, es, j);
    EndsInQueue(cap, cs[j], k, e);
    var a := Kept(enqueue, e).value;
    StretchProtects(cap, cs, es, i, j, u, enqueue, k, e, m);
    HazardRun(cap, cs, es, m, j, u, a);
    RunSafe(cap, cs, es, m);
    RunSized(cap, cs, es, m);
    GuardAllocated(cap, cs[m], u, a);
    ChainDistinct(cap, cs[m], k);
  }

  // While its nodes stay the same, the ends of a queue only move on.
  lemma {:induction false} EndsMoveOn(cap: nat, cs: seq<Config>, es: seq<Event>, i: nat, j: nat, k: nat, q: seq<Addr>)
    requires IsRun(cap, cs, es) && cap > 0 && i <= j < |cs| && q != []
    requires forall m :: i <= m <= j ==> k < |cs[m].chain| && cs[m].chain[k] == q
    ensures k < |cs[i].ends| && k < |cs[j].ends| && EndsMove(cs[i].ends[k], cs[j].ends[k])
    decreases j
  {
    hide Initial, Step, Inv;
    RunSafe(cap, cs, es, i);
    RunSized(cap, cs, es, i);
    if i == j {
      EndsOf(cap, cs[i], k);
    } else {
      EndsMoveOn(cap, cs, es, i, j - 1, k, q);
      RunSafe(cap, cs, es, j - 1);
      assert Takes(cap, cs[j - 1], es[j - 1], cs[j]);
      QueueChange(cap, cs[j - 1], es[j - 1].t, es[j - 1].ch, cs[j], k);
    }
  }

  lemma EndsOf(cap: nat, c: Config, k: nat)
    requires Inv(cap, c) && k < |c.pc| && c.chain[k] != []
    ensures c.ends[k].head.At? && c.ends[k].tail.At?
    ensures c.ends[k].head.node == c.chain[k][0] && c.ends[k].tail.node == c.chain[k][|c.chain[k]| - 1]
  {
    hide NodesOk, ScanSafe, ThreadOk, ChainOk;
    assert QueueOk(cap, c, k);
  }

  predicate Has(c: Config, k: nat, e: Ends)
  {
    k < |c.ends| && k < |c.chain| && c.ends[k] == e
  }

  ghost function Chains(cs: seq<Config>, i: nat, j: nat, k: nat): (qs: seq<seq<Addr>>)
    requires i <= j < |cs|
  {
    seq(j - i + 1, m requires 0 <= m <= j - i => if k < |cs[i + m].chain| then cs[i + m].chain[k] else [])
  }

  lemma StretchMovements(cap: nat, cs: seq<Config>, es: seq<Event>, i: nat, j: nat, u: nat, enqueue: bool, k: nat, e: Ends)
    requires IsRun(cap, cs, es) && cap > 0 && i < j < |es| && Stretch(cs, es, i, j, u, enqueue, k, e)
    requires Has(cs[i], k, e) && Has(cs[j], k, e) && e.head.At?
    ensures Kept(enqueue, e).Some? && Movements(Chains(cs, i, j, k), Kept(enqueue, e).value)
  {
    hide Initial, Takes, Inv, Stretch, Kept, Distinct, ChainMoves;
    StretchChain(cap, cs, es, i, j, u, enqueue, k, e, j);
    var qs, x := Chains(cs, i, j, k), Kept(enqueue, e).value;
    forall d | 0 <= d < |qs| ensures Distinct(qs[d]) && x in qs[d] {
      StretchChain(cap, cs, es, i, j, u, enqueue, k, e, i + d);
    }
    forall d | 0 <= d < |qs| - 1 ensures ChainMoves(qs[d], qs[d + 1]) {
      StretchChain(cap, cs, es, i, j, u, enqueue, k, e, i + d);
    }
  }

  lemma StretchChain(cap: nat, cs: seq<Config>, es: seq<Event>, i: nat, j: nat, u: nat, enqueue: bool, k: nat, e: Ends, n: nat)
    requires IsRun(cap, cs, es) && cap > 0 && i < j < |es| && i <= n <= j && Stretch(cs, es, i, j, u, enqueue, k, e)
    requires Has(cs[i], k, e) && Has(cs[j], k, e) && e.head.At?
    ensures k < |cs[n].chain| && Distinct(cs[n].chain[k])
    ensures Kept(enqueue, e).Some? && Kept(enqueue, e).value in cs[n].chain[k]
    ensures k < |cs[n + 1].chain| && ChainMoves(cs[n].chain[k], cs[n + 1].chain[k])
  {
    hide Initial, Step, Inv;
    RunSafe(cap, cs, es, n);
    RunSized(cap, cs, es, n);
    RunSized(cap, cs, es, i);
    ChainDistinct(cap, cs[n], k);
    assert Takes(cap, cs[n], es[n], cs[n + 1]);
    QueueChange(cap, cs[n], es[n].t, es[n].ch, cs[n + 1], k);
    if n == i { EndsInQueue(cap, cs[i], k, e); } else { KeptLive(cap, cs, es, i, j, u, enqueue, k, e, n); }
  }

  // The nodes of the queue are the same throughout.
  lemma SameChain(cap: nat, cs: seq<Config>, es: seq<Event>, i: nat, j: nat, u: nat, enqueue: bool, k: nat, e: Ends, m: nat)
    requires IsRun(cap, cs, es) && cap > 0 && i < j < |es| && i <= m <= j && Stretch(cs, es, i, j, u, enqueue, k, e)
    requires Has(cs[i], k, e) && Has(cs[j], k, e) && e.head.At?
    ensures k < |cs[m].chain| && cs[m].chain[k] == cs[i].chain[k]
  {
    hide Initial, Takes, Inv, Stretch, Movements;
    RunSafe(cap, cs, es, i);
    RunSafe(cap, cs, es, j);
    RunSized(cap, cs, es, i);
    RunSized(cap, cs, es, j);
    RunSized(cap, cs, es, m);
    EndsInQueue(cap, cs[i], k, e);
    EndsInQueue(cap, cs[j], k, e);
    StretchMovements(cap, cs, es, i, j, u, enqueue, k, e);
    Unmoved(Chains(cs, i, j, k), m - i, Kept(enqueue, e).value);
  }

  /** If, after u validated the end pair e of queue k, the pair is e at a later moment
      at which u still has it in mind (as when its swap succeeds), then the queue has
      been the same at every moment between: its end pair was e, its nodes were those
      it had, and both end nodes were in it. Neither end left the queue, was released,
      or came back at the address of a released node, and this holds for the end that
      no hazard pointer protects as well as for the one it does. */
  lemma NoReuse(cap: nat, cs: seq<Config>, es: seq<Event>, i: nat, j: nat, u: nat, enqueue: bool, k: nat, e: Ends)
    requires IsRun(cap, cs, es) && cap > 0 && i < j < |es| && Stretch(cs, es, i, j, u, enqueue, k, e)
    requires k < |cs[j].ends| && cs[j].ends[k] == e
    ensures k < |cs[i].chain| && e.head.At? && e.tail.At?
    ensures forall m :: i <= m <= j ==>
              && Has(cs[m], k, e) && cs[m].chain[k] == cs[i].chain[k]
              && InQueue(cs[m], k, e.head.node) && InQueue(cs[m], k, e.tail.node)
  {
    hide Initial, Step, Inv;
    RunSafe(cap, cs, es, i);
    RunSized(cap, cs, es, i);
    RunSized(cap, cs, es, j);
    assert Takes(cap, cs[i], es[i], cs[i + 1]);
    ValidatedThen(cap, cs[i], u, es[i].ch, cs[i + 1], enqueue, k, e);
    forall m | i <= m <= j ensures k < |cs[m].chain| && cs[m].chain[k] == cs[i].chain[k] {
      SameChain(cap, cs, es, i, j, u, enqueue, k, e, m);
    }
    EndsInQueue(cap, cs[i], k, e);
    var q := cs[i].chain[k];
    forall m | i <= m <= j
      ensures k < |cs[m].ends| && cs[m].ends[k] == e && InQueue(cs[m], k, e.head.node) && InQueue(cs[m], k, e.tail.node)
    {
      EndsMoveOn(cap, cs, es, i, m, k, q);
      EndsMoveOn(cap, cs, es, m, j, k, q);
      RunSafe(cap, cs, es, m);
      RunSized(cap, cs, es, m);
      EndsOf(cap, cs[m], k);
      EndsInQueue(cap, cs[m], k, e);
    }
  }
}
