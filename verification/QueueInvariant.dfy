/** What every reachable configuration of the queue machine satisfies, and the
    proof that no step from such a configuration is a `Fault`. */
module QueueInvariant {
  import opened Options
  import opened QueueMachine

  function NodeOf(h: Handle): Option<Addr>
  {
    match h case Null => None case At(n, _) => Some(n)
  }

  /** The node a thread's hazard pointer names. */
  function HazardOf(pc: PC): Option<Addr>
  {
    match pc
    case EnqCheck(_, _, e) => NodeOf(e.tail)
    case EnqWrite(_, _, e) => NodeOf(e.tail)
    case EnqChain(_, _, e, _) => NodeOf(e.tail)
    case EnqSwing(_, _, e, _) => NodeOf(e.tail)
    case EnqUndo(_, _, e, _, _) => NodeOf(e.tail)
    case EnqFree(_, _, _, _, g) => g
    case EnqDrop(_, _, _, g) => Some(g)
    case EnqFinish(g) => Some(g)
    case DeqCheck(_, _, e) => NodeOf(e.head)
    case DeqAct(_, _, e) => NodeOf(e.head)
    case DeqHop(_, _, e, _) => NodeOf(e.head)
    case DeqDrop(_, _, _, g) => Some(g)
    case DeqUnhook(_, _, _, p) => Some(p)
    case DeqTake(e, _) => NodeOf(e.head)
    case DeqGot(e, _) => NodeOf(e.head)
    case _ => None
  }

  /** The node a thread has protected and then seen to be still in its queue, for
      as long as the thread may go on to dereference it. */
  function GuardOf(pc: PC): Option<Addr>
  {
    match pc
    case EnqWrite(_, _, e) => NodeOf(e.tail)
    case EnqChain(_, _, e, _) => NodeOf(e.tail)
    case EnqSwing(_, _, e, _) => NodeOf(e.tail)
    case EnqUndo(_, _, e, _, _) => NodeOf(e.tail)
    case DeqAct(_, _, e) => NodeOf(e.head)
    case DeqHop(_, _, e, _) => NodeOf(e.head)
    case DeqTake(e, _) => NodeOf(e.head)
    case _ => None
  }

  /** The node that only this thread knows of. */
  function PrivateOf(pc: PC): Option<Addr>
  {
    match pc
    case EnqInstall(_, _, _, m) => Some(m)
    case EnqChain(_, _, _, m) => Some(m)
    case EnqSwing(_, _, _, added) => added
    case EnqUndo(_, _, _, added, _) => added
    case EnqFree(_, _, _, m, _) => Some(m)
    case _ => None
  }

  /** The tail node in which this thread has an unconfirmed write. */
  function SpecOf(pc: PC): Option<Addr>
  {
    match pc
    case EnqSwing(_, _, e, _) => NodeOf(e.tail)
    case EnqUndo(_, _, e, _, _) => NodeOf(e.tail)
    case _ => None
  }

  /** The node this thread removed and has yet to hand to the reclaimer. */
  function PendingOf(pc: PC): Option<Addr>
  {
    match pc
    case DeqUnhook(_, _, _, p) => Some(p)
    case DeqTake(e, _) => if e.head == e.tail then NodeOf(e.head) else None
    case DeqGot(e, _) => if e.head == e.tail then NodeOf(e.head) else None
    case _ => None
  }

  /** The node whose protection thread u is testing, hazard pointer by hazard pointer. */
  function Scanning(c: Config, u: nat): Option<Addr>
  {
    if u < |c.pc| && u < |c.deferred| && c.pc[u].Scan? && c.pc[u].i < |c.deferred[u]|
    then Some(c.deferred[u][c.pc[u].i]) else None
  }

  /** The confirmed slots are filled, the next may hold one unconfirmed write,
      and everything beyond is empty. */
  predicate NodeOk(cap: nat, m: Node)
  {
    && |m.cells| == cap + 1 && 1 <= m.done <= cap + 1
    && (forall i :: 0 <= i < m.done && i < cap ==> m.cells[i].Elem?)
    && (m.done == cap + 1 ==> m.cells[cap].Link?)
    && (forall i :: m.done < i <= cap ==> m.cells[i].Empty?)
    && (m.done <= cap ==> (m.cells[m.done].Empty? <==> m.spec.None?))
    && (m.spec.Some? ==> m.done <= cap)
  }

  /** Each allocated node has exactly one place that will see to its release. */
  predicate Owned(c: Config, a: Addr)
    requires Sized(c) && a in c.nodes
  {
    var m := c.nodes[a];
    && (match m.status
        case Private(t) => t < |c.pc| && PrivateOf(c.pc[t]) == Some(a)
        case Live(k) => k < |c.pc| && a in c.chain[k]
        case Retired(t) => t < |c.pc| && (a in c.deferred[t] || PendingOf(c.pc[t]) == Some(a)))
    && (m.spec.Some? ==> m.spec.value < |c.pc| && SpecOf(c.pc[m.spec.value]) == Some(a))
  }

  predicate EndsOk(cap: nat, e: Ends)
  {
    && (e.head.Null? <==> e.tail.Null?)
    && (e.head.At? ==> e.tail.slot < cap && e.head.slot <= cap)
  }

  predicate ChainOk(cap: nat, nodes: map<Addr, Node>, k: nat, ch: seq<Addr>)
  {
    && (forall i :: 0 <= i < |ch| ==> ch[i] in nodes && nodes[ch[i]].status == Live(k))
    && (forall i, j :: 0 <= i < j < |ch| ==> ch[i] != ch[j])
    && (forall i :: 0 <= i < |ch| - 1 ==>
          && nodes[ch[i]].done == cap + 1 && |nodes[ch[i]].cells| == cap + 1
          && nodes[ch[i]].cells[cap] == Link(ch[i + 1]))
  }

  /** From head to tail a queue is a chain of distinct nodes, each full but the last. */
  predicate QueueOk(cap: nat, c: Config, k: nat)
    requires Sized(c) && k < |c.pc|
  {
    var e, ch := c.ends[k], c.chain[k];
    && EndsOk(cap, e) && ChainOk(cap, c.nodes, k, ch)
    && (ch == [] <==> e.head.Null?)
    && (ch != [] ==>
          && e.head.node == ch[0] && e.tail.node == ch[|ch| - 1]
          && c.nodes[e.tail.node].done == e.tail.slot + 1
          && (|ch| == 1 ==> e.head.slot <= e.tail.slot))
  }

  // A node that thread t allocated, stored x into, and has not published.
  predicate New(cap: nat, nodes: map<Addr, Node>, m: Addr, x: Item, t: nat)
  {
    m in nodes && nodes[m] == FreshNode(cap, x, t)
  }

  predicate Guarded(nodes: map<Addr, Node>, h: Handle)
  {
    h.At? && h.node in nodes && h.slot < nodes[h.node].done && !nodes[h.node].status.Private?
  }

  predicate RetiredBy(nodes: map<Addr, Node>, d: seq<Addr>, p: Addr, t: nat)
  {
    p in nodes && nodes[p].status == Retired(t) && p !in d
  }

  predicate Speculative(cap: nat, nodes: map<Addr, Node>, e: Ends, x: Item, added: Option<Addr>, t: nat)
  {
    && Guarded(nodes, e.tail)
    && var m := nodes[e.tail.node];
       && m.done == e.tail.slot + 1 <= cap && m.done < |m.cells| && m.spec == Some(t)
       && match added
          case None => e.tail.slot + 1 < cap && m.cells[m.done] == Elem(x)
          case Some(a) => e.tail.slot + 1 == cap && m.cells[m.done] == Link(a) && New(cap, nodes, a, x, t)
  }

  predicate LocalOk(cap: nat, n: nat, nodes: map<Addr, Node>, d: seq<Addr>, t: nat, pc: PC)
  {
    match pc
    case Idle => true
    case EnqRead(_, k) => k < n
    case EnqStart(_, k, e) => k < n && EndsOk(cap, e)
    case EnqInstall(x, k, e, m) => k < n && e.head.Null? && e.tail.Null? && New(cap, nodes, m, x, t)
    case EnqCheck(_, k, e) => k < n && EndsOk(cap, e) && e.tail.At?
    case EnqWrite(_, k, e) => k < n && EndsOk(cap, e) && Guarded(nodes, e.tail)
    case EnqChain(x, k, e, m) =>
      k < n && EndsOk(cap, e) && Guarded(nodes, e.tail) && e.tail.slot + 1 == cap && New(cap, nodes, m, x, t)
    case EnqSwing(x, k, e, added) => k < n && EndsOk(cap, e) && Speculative(cap, nodes, e, x, added, t)
    case EnqUndo(x, k, e, added, now) =>
      k < n && EndsOk(cap, e) && EndsOk(cap, now) && Speculative(cap, nodes, e, x, added, t)
    case EnqFree(_, k, now, m, _) => k < n && EndsOk(cap, now) && m in nodes && nodes[m].status == Private(t) && nodes[m].spec.None?
    case EnqDrop(_, k, now, _) => k < n && EndsOk(cap, now)
    case EnqFinish(_) => true
    case EnqDone => true
    case DeqRead(k, a) => k < n && a < n
    case DeqStart(k, a, e) => k < n && a < n && EndsOk(cap, e) && e.head.At?
    case DeqCheck(k, a, e) => k < n && a < n && EndsOk(cap, e) && e.head.At?
    case DeqAct(k, a, e) => k < n && a < n && EndsOk(cap, e) && Guarded(nodes, e.head)
    case DeqHop(k, a, e, m) =>
      && k < n && a < n && EndsOk(cap, e) && Guarded(nodes, e.head)
      && e.head.slot == cap && |nodes[e.head.node].cells| == cap + 1 && nodes[e.head.node].cells[cap] == Link(m)
    case DeqDrop(k, a, now, _) => k < n && a < n && EndsOk(cap, now)
    case DeqUnhook(k, a, now, p) => k < n && a < n && EndsOk(cap, now) && RetiredBy(nodes, d, p, t)
    case DeqTake(e, x) =>
      && EndsOk(cap, e) && Guarded(nodes, e.head)
      && e.head.slot < |nodes[e.head.node].cells| && nodes[e.head.node].cells[e.head.slot] == Elem(x)
      && (e.head == e.tail ==> RetiredBy(nodes, d, e.head.node, t))
    case DeqGot(e, _) => e.head.At? && (e.head == e.tail ==> RetiredBy(nodes, d, e.head.node, t))
    case Scan(i, j, th) =>
      && i <= |d| && j <= n
      && (th.Resume? ==> th.k < n && th.a < n && EndsOk(cap, th.e))
    case DeqDone(_) => true
  }

  predicate DeferredOk(nodes: map<Addr, Node>, d: seq<Addr>, t: nat)
  {
    && (forall i :: 0 <= i < |d| ==> d[i] in nodes && nodes[d[i]].status == Retired(t))
    && (forall i, j :: 0 <= i < j < |d| ==> d[i] != d[j])
  }

  predicate ThreadOk(cap: nat, c: Config, t: nat)
    requires Sized(c) && t < |c.pc|
  {
    && c.hazarded[t] == HazardOf(c.pc[t])
    && LocalOk(cap, |c.pc|, c.nodes, c.deferred[t], t, c.pc[t])
    && DeferredOk(c.nodes, c.deferred[t], t)
  }

  // Thread u is testing the very node that thread t guards.
  predicate Meets(c: Config, t: nat, u: nat)
    requires Sized(c) && t < |c.pc| && u < |c.pc|
    ensures Meets(c, t, u) ==> c.pc[u].Scan?
  {
    GuardOf(c.pc[t]).Some? && Scanning(c, u) == GuardOf(c.pc[t])
  }

  /** A pass over the hazard pointers has not yet reached the thread that guards
      the node being tested, so it will still find that node in use. */
  predicate ScanSafe(c: Config)
    requires Sized(c)
  {
    forall t, u :: 0 <= t < |c.pc| && 0 <= u < |c.pc| && Meets(c, t, u) ==> c.pc[u].j <= t
  }

  predicate NodesOk(cap: nat, c: Config)
    requires Sized(c)
  {
    forall a :: a in c.nodes ==> NodeOk(cap, c.nodes[a]) && Owned(c, a)
  }

  predicate Inv(cap: nat, c: Config)
  {
    && Sized(c) && |c.pc| > 0 && cap > 0
    && NodesOk(cap, c)
    && (forall k :: 0 <= k < |c.pc| ==> QueueOk(cap, c, k))
    && (forall t :: 0 <= t < |c.pc| ==> ThreadOk(cap, c, t))
    && ScanSafe(c)
  }

  /** What a step of thread t may do to a node another thread relies on. */
  predicate NodeLe(m: Node, m': Node, t: nat)
  {
    && |m.cells| == |m'.cells| && m.done <= m'.done
    && (forall i :: 0 <= i < m.done && i < |m.cells| ==> m'.cells[i] == m.cells[i])
    && (match m.status
        case Private(u) => u == t || m' == m
        case Live(k) => m'.status == m.status || m'.status == Retired(t)
        case Retired(u) => m'.status == m.status)
    && (m.spec.Some? && m.spec.value != t ==>
          && m'.spec == m.spec && m'.done == m.done
          && (m.done < |m.cells| ==> m'.cells[m.done] == m.cells[m.done]))
  }

  /** How the nodes may change in a step of thread t. */
  predicate Evolves(c: Config, c': Config, t: nat)
    requires Sized(c)
  {
    forall a :: a in c.nodes ==>
      || (a in c'.nodes && NodeLe(c.nodes[a], c'.nodes[a], t))
      || (c.nodes[a].status == Private(t) && a !in c'.nodes)
      || (c.nodes[a].status == Retired(t) && forall u :: 0 <= u < |c.pc| && u != t ==> GuardOf(c.pc[u]) != Some(a))
  }

  // Everything thread-indexed is as it was, except at t.
  predicate OnlyThread(c: Config, c': Config, t: nat)
    requires Sized(c) && t < |c.pc|
  {
    && Sized(c') && |c'.pc| == |c.pc|
    && c'.pc == c.pc[t := c'.pc[t]]
    && c'.hazarded == c.hazarded[t := c'.hazarded[t]]
    && c'.deferred == c.deferred[t := c'.deferred[t]]
  }

  // The facts a thread's program point rests on survive another thread's step.
  lemma LocalStable(cap: nat, n: nat, nodes: map<Addr, Node>, nodes': map<Addr, Node>, d: seq<Addr>, t: nat, u: nat, pc: PC)
    requires LocalOk(cap, n, nodes, d, u, pc) && u != t
    requires forall a :: (PrivateOf(pc) == Some(a) || GuardOf(pc) == Some(a) || PendingOf(pc) == Some(a)) && a in nodes
               ==> a in nodes' && NodeLe(nodes[a], nodes'[a], t)
    ensures LocalOk(cap, n, nodes', d, u, pc)
  {
    match pc {
      case EnqSwing(x, k, e, added) => SpeculativeStable(cap, nodes, nodes', e, x, added, t, u);
      case EnqUndo(x, k, e, added, now) => SpeculativeStable(cap, nodes, nodes', e, x, added, t, u);
      case EnqInstall(x, k, e, m) => assert m in nodes';
      case EnqWrite(x, k, e) => assert GuardOf(pc) == Some(e.tail.node);
      case EnqChain(x, k, e, m) => assert GuardOf(pc) == Some(e.tail.node) && PrivateOf(pc) == Some(m);
      case EnqFree(_, _, _, m, _) => assert PrivateOf(pc) == Some(m);
      case DeqAct(_, _, e) => assert GuardOf(pc) == Some(e.head.node);
      case DeqHop(_, _, e, _) => assert GuardOf(pc) == Some(e.head.node);
      case DeqUnhook(_, _, _, p) => assert PendingOf(pc) == Some(p);
      case DeqTake(e, _) => assert GuardOf(pc) == Some(e.head.node);
      case DeqGot(e, _) => assert e.head == e.tail ==> PendingOf(pc) == Some(e.head.node);
      case _ =>
    }
  }

  lemma SpeculativeStable(cap: nat, nodes: map<Addr, Node>, nodes': map<Addr, Node>, e: Ends, x: Item, added: Option<Addr>, t: nat, u: nat)
    requires Speculative(cap, nodes, e, x, added, u) && u != t
    requires e.tail.node in nodes' && NodeLe(nodes[e.tail.node], nodes'[e.tail.node], t)
    requires added.Some? ==> added.value in nodes' && NodeLe(nodes[added.value], nodes'[added.value], t)
    ensures Speculative(cap, nodes', e, x, added, u)
  {
  }

  lemma OtherThread(cap: nat, c: Config, c': Config, t: nat, u: nat)
    requires Sized(c) && t < |c.pc| && u < |c.pc| && u != t && ThreadOk(cap, c, u)
    requires OnlyThread(c, c', t) && Evolves(c, c', t)
    ensures ThreadOk(cap, c', u)
  {
    var pc, d := c.pc[u], c.deferred[u];
    forall a | (PrivateOf(pc) == Some(a) || GuardOf(pc) == Some(a) || PendingOf(pc) == Some(a)) && a in c.nodes
      ensures a in c'.nodes && NodeLe(c.nodes[a], c'.nodes[a], t)
    {
      OwnerCases(cap, |c.pc|, c.nodes, d, u, pc, a);
    }
    LocalStable(cap, |c.pc|, c.nodes, c'.nodes, d, t, u, pc);
  }

  // The nodes a program point refers to are not another thread's to release.
  lemma OwnerCases(cap: nat, n: nat, nodes: map<Addr, Node>, d: seq<Addr>, u: nat, pc: PC, a: Addr)
    requires LocalOk(cap, n, nodes, d, u, pc) && a in nodes
    ensures PrivateOf(pc) == Some(a) ==> nodes[a].status == Private(u)
    ensures GuardOf(pc) == Some(a) ==> !nodes[a].status.Private?
    ensures PendingOf(pc) == Some(a) ==> nodes[a].status == Retired(u)
  {
  }
}
