/** The queue machine refines first-in first-out queues: each of its steps is,
    seen through `Abstract`, one atomic queue operation or nothing at all. The
    operation of a call happens at the swap of the end pair that succeeds. */
module QueueFifo {
  import opened Options
  import opened QueueMachine
  import opened QueueInvariant
  import opened QueueSafety

  /** A thread between operations, in one that has yet to take effect, or in one
      that has. `Taking(k, a)` has found `a` queues empty and looks at `k` next. */
  datatype Call =
    | Outside
    | Putting(x: Item, k: nat)
    | Put
    | Taking(k: nat, a: nat)
    | Taken(r: Option<Item>)

  datatype Fifo = Fifo(queues: seq<seq<Item>>, calls: seq<Call>)

  function SkipEmpty(n: nat, k: nat, a: nat): Call
  {
    if a + 1 < n then Taking(if k + 1 < n then k + 1 else 0, a + 1) else Taken(None)
  }

  function Become(f: Fifo, t: nat, call: Call): Fifo
    requires t < |f.calls|
  {
    f.(calls := f.calls[t := call])
  }

  predicate Begins(n: nat, call: Call)
  {
    (call.Putting? && call.k < n) || (call.Taking? && call.k < n && call.a == 0)
  }

  /** The steps of the specification. */
  predicate FifoStep(f: Fifo, f': Fifo, t: nat)
  {
    && t < |f.calls| == |f.queues|
    && var n := |f.calls|;
       match f.calls[t]
       case Outside =>
         f' == f || (|f'.calls| == n && Begins(n, f'.calls[t]) && f' == Become(f, t, f'.calls[t]))
       case Putting(x, k) =>
         f' == f || (k < n && f' == Become(f.(queues := f.queues[k := f.queues[k] + [x]]), t, Put))
       case Taking(k, a) =>
         || f' == f
         || (k < n && f.queues[k] == [] && f' == Become(f, t, SkipEmpty(n, k, a)))
         || (k < n && f.queues[k] != []
             && f' == Become(f.(queues := f.queues[k := f.queues[k][1..]]), t, Taken(Some(f.queues[k][0]))))
       case Put => f' == f || f' == Become(f, t, Outside)
       case Taken(_) => f' == f || f' == Become(f, t, Outside)
  }

  // ----- the abstraction -----

  function Items(cells: seq<Cell>, lo: nat, hi: nat): seq<Item>
    decreases hi - lo
  {
    if lo < hi && lo < |cells| && cells[lo].Elem? then [cells[lo].item] + Items(cells, lo + 1, hi) else []
  }

  function CellsOf(nodes: map<Addr, Node>, a: Addr): seq<Cell>
  {
    if a in nodes then nodes[a].cells else []
  }

  /** The states in the slots from `hi` of the first node to `ti` of the last. */
  function Flat(cap: nat, nodes: map<Addr, Node>, ch: seq<Addr>, hi: nat, ti: nat): seq<Item>
  {
    if ch == [] then []
    else if |ch| == 1 then Items(CellsOf(nodes, ch[0]), hi, ti + 1)
    else Items(CellsOf(nodes, ch[0]), hi, cap) + Flat(cap, nodes, ch[1..], 0, ti)
  }

  function Content(cap: nat, c: Config, k: nat): seq<Item>
    requires k < |c.ends| && k < |c.chain|
  {
    if c.ends[k].head.At? && c.ends[k].tail.At?
    then Flat(cap, c.nodes, c.chain[k], c.ends[k].head.slot, c.ends[k].tail.slot) else []
  }

  function CallLoaded(n: nat, k: nat, a: nat, e: Ends): Call
  {
    if e.head.At? then Taking(k, a) else SkipEmpty(n, k, a)
  }

  function CallOf(n: nat, pc: PC): Call
  {
    match pc
    case Idle => Outside
    case EnqFinish(_) => Put
    case EnqDone => Put
    case DeqRead(k, a) => Taking(k, a)
    case DeqStart(k, a, _) => Taking(k, a)
    case DeqCheck(k, a, _) => Taking(k, a)
    case DeqAct(k, a, _) => Taking(k, a)
    case DeqHop(k, a, _, _) => Taking(k, a)
    case DeqDrop(k, a, now, _) => CallLoaded(n, k, a, now)
    case DeqUnhook(k, a, now, _) => CallLoaded(n, k, a, now)
    case DeqTake(_, x) => Taken(Some(x))
    case DeqGot(_, x) => Taken(Some(x))
    case Scan(_, _, th) =>
      (match th case Resume(k, a, e) => CallLoaded(n, k, a, e) case Return(x) => Taken(Some(x)))
    case DeqDone(r) => Taken(r)
    case _ => Putting(pc.x, pc.k)
  }

  function Abstract(cap: nat, c: Config): Fifo
    requires Sized(c)
  {
    Fifo(seq(|c.pc|, k requires 0 <= k < |c.pc| => Content(cap, c, k)),
         seq(|c.pc|, t requires 0 <= t < |c.pc| => CallOf(|c.pc|, c.pc[t])))
  }

  // ----- how contents change -----

  lemma {:induction false} ItemsFrame(cells: seq<Cell>, cells': seq<Cell>, lo: nat, hi: nat)
    requires |cells| == |cells'| && forall i :: lo <= i < hi && i < |cells| ==> cells'[i] == cells[i]
    ensures Items(cells', lo, hi) == Items(cells, lo, hi)
    decreases hi - lo
  {
    if lo < hi && lo < |cells| { ItemsFrame(cells, cells', lo + 1, hi); }
  }

  predicate AllElem(cells: seq<Cell>, n: nat)
  {
    n <= |cells| && forall i :: 0 <= i < n ==> cells[i].Elem?
  }

  lemma {:induction false} ItemsSnoc(cells: seq<Cell>, lo: nat, hi: nat)
    requires lo <= hi && AllElem(cells, hi + 1)
    ensures Items(cells, lo, hi + 1) == Items(cells, lo, hi) + [cells[hi].item]
    decreases hi - lo
  {
    if lo < hi { ItemsSnoc(cells, lo + 1, hi); }
  }

  predicate SameBelow(cells: seq<Cell>, cells': seq<Cell>, n: nat)
    requires |cells| == |cells'|
  {
    forall j :: 0 <= j < n && j < |cells| ==> cells'[j] == cells[j]
  }

  // The cells a queue's contents are read from.
  predicate SameRead(cap: nat, nodes: map<Addr, Node>, nodes': map<Addr, Node>, ch: seq<Addr>, ti: nat)
  {
    forall i :: 0 <= i < |ch| ==>
      && ch[i] in nodes && ch[i] in nodes' && |nodes[ch[i]].cells| == |nodes'[ch[i]].cells|
      && SameBelow(nodes[ch[i]].cells, nodes'[ch[i]].cells, if i == |ch| - 1 then ti + 1 else cap)
  }

  lemma {:induction false} FlatFrame(cap: nat, nodes: map<Addr, Node>, nodes': map<Addr, Node>, ch: seq<Addr>, hi: nat, ti: nat)
    requires SameRead(cap, nodes, nodes', ch, ti)
    ensures Flat(cap, nodes', ch, hi, ti) == Flat(cap, nodes, ch, hi, ti)
    decreases |ch|
  {
    if |ch| == 1 {
      ItemsFrame(nodes[ch[0]].cells, nodes'[ch[0]].cells, hi, ti + 1);
    } else if |ch| > 1 {
      ItemsFrame(nodes[ch[0]].cells, nodes'[ch[0]].cells, hi, cap);
      assert SameRead(cap, nodes, nodes', ch[1..], ti) by {
        forall i | 0 <= i < |ch[1..]| ensures ch[1..][i] == ch[i + 1] {}
      }
      FlatFrame(cap, nodes, nodes', ch[1..], 0, ti);
    }
  }

  lemma {:induction false} FlatSlot(cap: nat, nodes: map<Addr, Node>, ch: seq<Addr>, hi: nat, ti: nat)
    requires ch != [] && ch[|ch| - 1] in nodes && AllElem(nodes[ch[|ch| - 1]].cells, ti + 2)
    requires |ch| == 1 ==> hi <= ti
    ensures Flat(cap, nodes, ch, hi, ti + 1) == Flat(cap, nodes, ch, hi, ti) + [nodes[ch[|ch| - 1]].cells[ti + 1].item]
    decreases |ch|
  {
    if |ch| == 1 {
      ItemsSnoc(nodes[ch[0]].cells, hi, ti + 1);
    } else {
      FlatSlot(cap, nodes, ch[1..], 0, ti);
    }
  }

  lemma {:induction false} FlatNode(cap: nat, nodes: map<Addr, Node>, ch: seq<Addr>, m: Addr, hi: nat, x: Item)
    requires ch != [] && cap > 0 && m in nodes && |nodes[m].cells| > 0 && nodes[m].cells[0] == Elem(x)
    ensures Flat(cap, nodes, ch + [m], hi, 0) == Flat(cap, nodes, ch, hi, cap - 1) + [x]
    decreases |ch|
  {
    assert (ch + [m])[1..] == ch[1..] + [m];
    if |ch| == 1 {
      assert ch[1..] + [m] == [m];
      assert Flat(cap, nodes, [m], 0, 0) == Items(nodes[m].cells, 0, 1) == [x];
    } else {
      FlatNode(cap, nodes, ch[1..], m, 0, x);
      hide Items;
      var first := Items(CellsOf(nodes, ch[0]), hi, cap);
      assert first + (Flat(cap, nodes, ch[1..], 0, cap - 1) + [x]) == (first + Flat(cap, nodes, ch[1..], 0, cap - 1)) + [x];
    }
  }

  lemma ContentFrame(cap: nat, c: Config, c': Config, k: nat)
    requires Sized(c) && Sized(c') && |c'.pc| == |c.pc| && k < |c.pc| && QueueOk(cap, c, k)
    requires c'.ends[k] == c.ends[k] && c'.chain[k] == c.chain[k]
    requires forall a :: a in c.nodes && c.nodes[a].status == Live(k) ==> a in c'.nodes && Confirmed(c.nodes[a], c'.nodes[a])
    ensures Content(cap, c', k) == Content(cap, c, k)
  {
    var ch := c.chain[k];
    if c.ends[k].head.At? {
      forall i | 0 <= i < |ch| ensures Confirmed(c.nodes[ch[i]], c'.nodes[ch[i]]) && ch[i] in c'.nodes {
        assert ch[i] in c.nodes && c.nodes[ch[i]].status == Live(k);
      }
      FlatFrame(cap, c.nodes, c'.nodes, ch, c.ends[k].head.slot, c.ends[k].tail.slot);
    }
  }

  // A queue is empty exactly when its end pair is.
  lemma EmptyContent(cap: nat, c: Config, k: nat)
    requires Inv(cap, c) && k < |c.pc|
    ensures Content(cap, c, k) == [] <==> c.ends[k].head.Null?
  {
    assert QueueOk(cap, c, k);
    if c.ends[k].head.At? {
      var ch, hi := c.chain[k], c.ends[k].head.slot;
      assert NodeOk(cap, c.nodes[ch[0]]);
      if |ch| > 1 && hi == cap {
        assert NodeOk(cap, c.nodes[ch[1]]);
        assert c.nodes[ch[1]].cells[0].Elem? && ch[1..][0] == ch[1];
        assert Flat(cap, c.nodes, ch[1..], 0, c.ends[k].tail.slot) != [];
      } else {
        assert c.nodes[ch[0]].cells[hi].Elem?;
      }
    }
  }

  // ----- simulation -----

  // A step that leaves all contents alone is seen only through its thread's call.
  lemma QuietStep(cap: nat, c: Config, c': Config, t: nat)
    requires Sized(c) && t < |c.pc| && OnlyThread(c, c', t)
    requires forall k :: 0 <= k < |c.pc| ==> Content(cap, c', k) == Content(cap, c, k)
    ensures Abstract(cap, c') == Become(Abstract(cap, c), t, CallOf(|c.pc|, c'.pc[t]))
  {
  }

  // A step that changes the contents of queue k to q.
  lemma QueueStep(cap: nat, c: Config, c': Config, t: nat, k: nat, q: seq<Item>)
    requires Sized(c) && t < |c.pc| && k < |c.pc| && OnlyThread(c, c', t)
    requires forall j :: 0 <= j < |c.pc| && j != k ==> Content(cap, c', j) == Content(cap, c, j)
    requires Content(cap, c', k) == q
    ensures var f := Abstract(cap, c);
            Abstract(cap, c') == Become(f.(queues := f.queues[k := q]), t, CallOf(|c.pc|, c'.pc[t]))
  {
  }

  // A put into queue k, and a take from it, seen as steps of the specification.
  lemma PutStep(cap: nat, c: Config, c': Config, t: nat, k: nat, x: Item)
    requires Sized(c) && t < |c.pc| && k < |c.pc| && OnlyThread(c, c', t)
    requires CallOf(|c.pc|, c.pc[t]) == Putting(x, k) && CallOf(|c.pc|, c'.pc[t]) == Put
    requires forall j :: 0 <= j < |c.pc| && j != k ==> Content(cap, c', j) == Content(cap, c, j)
    requires Content(cap, c', k) == Content(cap, c, k) + [x]
    ensures FifoStep(Abstract(cap, c), Abstract(cap, c'), t)
  {
    hide Content, CallOf;
    QueueStep(cap, c, c', t, k, Content(cap, c, k) + [x]);
  }

  lemma TakeStep(cap: nat, c: Config, c': Config, t: nat, k: nat, a: nat)
    requires Sized(c) && t < |c.pc| && k < |c.pc| && OnlyThread(c, c', t)
    requires Content(cap, c, k) != []
    requires CallOf(|c.pc|, c.pc[t]) == Taking(k, a) && CallOf(|c.pc|, c'.pc[t]) == Taken(Some(Content(cap, c, k)[0]))
    requires forall j :: 0 <= j < |c.pc| && j != k ==> Content(cap, c', j) == Content(cap, c, j)
    requires Content(cap, c', k) == Content(cap, c, k)[1..]
    ensures FifoStep(Abstract(cap, c), Abstract(cap, c'), t)
  {
    hide Content, CallOf;
    QueueStep(cap, c, c', t, k, Content(cap, c, k)[1..]);
  }

  lemma QuietContents(cap: nat, c: Config, c': Config)
    requires Inv(cap, c) && Sized(c') && |c'.pc| == |c.pc| && c'.ends == c.ends && c'.chain == c.chain
    requires forall a :: a in c.nodes && c.nodes[a].status.Live? ==> a in c'.nodes && Confirmed(c.nodes[a], c'.nodes[a])
    ensures forall k :: 0 <= k < |c.pc| ==> Content(cap, c', k) == Content(cap, c, k)
  {
    forall k | 0 <= k < |c.pc| ensures Content(cap, c', k) == Content(cap, c, k) { ContentFrame(cap, c, c', k); }
  }

  lemma OtherContents(cap: nat, c: Config, c': Config, k: nat)
    requires Inv(cap, c) && Sized(c') && |c'.pc| == |c.pc| && k < |c.pc|
    requires forall j :: 0 <= j < |c.pc| && j != k ==> c'.ends[j] == c.ends[j] && c'.chain[j] == c.chain[j]
    requires forall a :: a in c.nodes && c.nodes[a].status.Live? && c.nodes[a].status.queue != k
               ==> a in c'.nodes && c'.nodes[a] == c.nodes[a]
    ensures forall j :: 0 <= j < |c.pc| && j != k ==> Content(cap, c', j) == Content(cap, c, j)
  {
    forall j | 0 <= j < |c.pc| && j != k ensures Content(cap, c', j) == Content(cap, c, j) {
      assert QueueOk(cap, c, j);
      ContentFrame(cap, c, c', j);
    }
  }

  lemma LocalSim(cap: nat, c: Config, c': Config, t: nat)
    requires Inv(cap, c) && t < |c.pc| && OnlyThread(c, c', t)
    requires c'.nodes == c.nodes && c'.ends == c.ends && c'.chain == c.chain
    ensures Abstract(cap, c') == Become(Abstract(cap, c), t, CallOf(|c.pc|, c'.pc[t]))
  {
    QuietContents(cap, c, c');
    QuietStep(cap, c, c', t);
  }

  // An end pair loaded from queue k: the queue was empty then if the pair is.
  lemma LoadSim(cap: nat, c: Config, c': Config, t: nat, k: nat, a: nat)
    requires Inv(cap, c) && t < |c.pc| && k < |c.pc| && a < |c.pc| && OnlyThread(c, c', t)
    requires c'.nodes == c.nodes && c'.ends == c.ends && c'.chain == c.chain
    requires CallOf(|c.pc|, c.pc[t]) == Taking(k, a)
    requires CallOf(|c.pc|, c'.pc[t]) == CallLoaded(|c.pc|, k, a, c.ends[k])
    ensures FifoStep(Abstract(cap, c), Abstract(cap, c'), t)
  {
    LocalSim(cap, c, c', t);
    EmptyContent(cap, c, k);
  }

  // A step that changes nothing in any queue and does not move the call on.
  lemma StutterSim(cap: nat, c: Config, c': Config, t: nat)
    requires Inv(cap, c) && t < |c.pc| && OnlyThread(c, c', t)
    requires c'.ends == c.ends && c'.chain == c.chain
    requires forall a :: a in c.nodes && c.nodes[a].status.Live? ==> a in c'.nodes && Confirmed(c.nodes[a], c'.nodes[a])
    requires CallOf(|c.pc|, c'.pc[t]) == CallOf(|c.pc|, c.pc[t])
    ensures Abstract(cap, c') == Abstract(cap, c)
  {
    QuietContents(cap, c, c');
    QuietStep(cap, c, c', t);
  }

  lemma InstallSim(cap: nat, c: Config, t: nat)
    requires Inv(cap, c) && t < |c.pc| && c.pc[t].EnqInstall? && c.pc[t].k < |c.pc|
    requires c.ends[c.pc[t].k] == c.pc[t].e
    ensures FifoStep(Abstract(cap, c), Abstract(cap, Goto(Install(c, c.pc[t].k, c.pc[t].m), t, EnqDone)), t)
  {
    assert ThreadOk(cap, c, t);
    var x, k, m := c.pc[t].x, c.pc[t].k, c.pc[t].m;
    var c' := Goto(Install(c, k, m), t, EnqDone);
    OtherContents(cap, c, c', k);
    assert Items(c'.nodes[m].cells, 0, 1) == [x] + Items(c'.nodes[m].cells, 1, 1);
    EmptyContent(cap, c, k);
    PutStep(cap, c, c', t, k, x);
  }

  function Appended(c: Config, t: nat): Config
    requires Sized(c) && t < |c.pc| && c.pc[t].EnqSwing? && c.pc[t].k < |c.ends| && CellAt(c, Succ(c.pc[t].e.tail))
  {
    var pc := c.pc[t];
    Goto(Append(c, pc.k, pc.e, pc.added), t, EnqFinish(pc.e.tail.node))
  }

  // The slots that were part of the contents read as before.
  lemma AppendReads(cap: nat, c: Config, t: nat)
    requires Sized(c) && t < |c.pc| && c.pc[t].EnqSwing? && c.pc[t].k < |c.pc| && CellAt(c, Succ(c.pc[t].e.tail))
    requires ChainOk(cap, c.nodes, c.pc[t].k, c.chain[c.pc[t].k])
    requires c.pc[t].added.Some? ==> c.pc[t].added.value != c.pc[t].e.tail.node
    ensures SameRead(cap, c.nodes, Appended(c, t).nodes, c.chain[c.pc[t].k], c.pc[t].e.tail.slot)
  {
    var ch, c' := c.chain[c.pc[t].k], Appended(c, t);
    forall i | 0 <= i < |ch| ensures ch[i] in c'.nodes && c'.nodes[ch[i]].cells == c.nodes[ch[i]].cells {
      assert ch[i] in c.nodes;
    }
  }

  // The state joins those in the tail node, or is the first in a node behind it.
  lemma AppendSlotContent(cap: nat, c: Config, t: nat)
    requires Sized(c) && cap > 0 && t < |c.pc| && c.pc[t].EnqSwing? && c.pc[t].added.None? && ThreadOk(cap, c, t)
    requires c.ends[c.pc[t].k] == c.pc[t].e && CellAt(c, Succ(c.pc[t].e.tail))
    requires QueueOk(cap, c, c.pc[t].k) && NodeOk(cap, c.nodes[c.pc[t].e.tail.node])
    ensures Content(cap, Appended(c, t), c.pc[t].k) == Content(cap, c, c.pc[t].k) + [c.pc[t].x]
  {
    hide DeferredOk, ChainOk;
    var pc, c' := c.pc[t], Appended(c, t);
    var ch, hi, ti := c.chain[pc.k], pc.e.head.slot, pc.e.tail.slot;
    AppendReads(cap, c, t);
    FlatFrame(cap, c.nodes, c'.nodes, ch, hi, ti);
    hide SameRead;
    FlatSlot(cap, c'.nodes, ch, hi, ti);
  }

  lemma AppendNodeContent(cap: nat, c: Config, t: nat)
    requires Sized(c) && cap > 0 && t < |c.pc| && c.pc[t].EnqSwing? && c.pc[t].added.Some? && ThreadOk(cap, c, t)
    requires c.ends[c.pc[t].k] == c.pc[t].e && CellAt(c, Succ(c.pc[t].e.tail))
    requires QueueOk(cap, c, c.pc[t].k) && NodeOk(cap, c.nodes[c.pc[t].e.tail.node])
    ensures Content(cap, Appended(c, t), c.pc[t].k) == Content(cap, c, c.pc[t].k) + [c.pc[t].x]
  {
    hide DeferredOk, ChainOk;
    var pc, c' := c.pc[t], Appended(c, t);
    var ch, hi, ti := c.chain[pc.k], pc.e.head.slot, pc.e.tail.slot;
    AppendReads(cap, c, t);
    FlatFrame(cap, c.nodes, c'.nodes, ch, hi, ti);
    hide SameRead;
    FlatNode(cap, c'.nodes, ch, pc.added.value, hi, pc.x);
  }

  lemma AppendContent(cap: nat, c: Config, t: nat)
    requires Inv(cap, c) && t < |c.pc| && c.pc[t].EnqSwing? && c.pc[t].k < |c.pc|
    requires c.ends[c.pc[t].k] == c.pc[t].e && CellAt(c, Succ(c.pc[t].e.tail))
    ensures Content(cap, Appended(c, t), c.pc[t].k) == Content(cap, c, c.pc[t].k) + [c.pc[t].x]
  {
    hide ScanSafe, DeferredOk, Content, Appended;
    assert ThreadOk(cap, c, t) && QueueOk(cap, c, c.pc[t].k) && NodeOk(cap, c.nodes[c.pc[t].e.tail.node]);
    hide ThreadOk, QueueOk, NodesOk, NodeOk;
    if c.pc[t].added.None? { AppendSlotContent(cap, c, t); } else { AppendNodeContent(cap, c, t); }
  }

  lemma AppendOthers(cap: nat, c: Config, t: nat)
    requires Inv(cap, c) && t < |c.pc| && c.pc[t].EnqSwing? && c.pc[t].k < |c.pc|
    requires c.ends[c.pc[t].k] == c.pc[t].e && CellAt(c, Succ(c.pc[t].e.tail))
    ensures forall j :: 0 <= j < |c.pc| && j != c.pc[t].k ==> Content(cap, Appended(c, t), j) == Content(cap, c, j)
  {
    hide DeferredOk, ScanSafe, NodesOk, Content;
    var pc := c.pc[t];
    assert ThreadOk(cap, c, t) && QueueOk(cap, c, pc.k);
    assert c.nodes[pc.e.tail.node].status == Live(pc.k);
    OtherContents(cap, c, Appended(c, t), pc.k);
  }

  lemma AppendSim(cap: nat, c: Config, t: nat)
    requires Inv(cap, c) && t < |c.pc| && c.pc[t].EnqSwing? && c.pc[t].k < |c.pc|
    requires c.ends[c.pc[t].k] == c.pc[t].e && CellAt(c, Succ(c.pc[t].e.tail))
    ensures FifoStep(Abstract(cap, c), Abstract(cap, Appended(c, t)), t)
  {
    hide NodesOk, QueueOk, ScanSafe, LocalOk, Content, Append, Abstract, FifoStep;
    AppendContent(cap, c, t);
    AppendOthers(cap, c, t);
    PutStep(cap, c, Appended(c, t), t, c.pc[t].k, c.pc[t].x);
  }

  // Reading off the first state of a chain.
  lemma FlatHead(cap: nat, nodes: map<Addr, Node>, ch: seq<Addr>, hi: nat, ti: nat)
    requires ch != [] && ch[0] in nodes && hi < cap && (|ch| == 1 ==> hi <= ti)
    requires hi < |nodes[ch[0]].cells| && nodes[ch[0]].cells[hi].Elem?
    ensures Flat(cap, nodes, ch, hi, ti) == [nodes[ch[0]].cells[hi].item] + Flat(cap, nodes, ch, hi + 1, ti)
  {
  }

  lemma RemoveContent(cap: nat, c: Config, t: nat, k: nat, e: Ends)
    requires Sized(c) && cap > 0 && t < |c.pc| && k < |c.pc| && c.ends[k] == e && CellAt(c, e.head)
    requires QueueOk(cap, c, k) && NodeOk(cap, c.nodes[e.head.node])
    requires e.head == e.tail || e.head.slot < cap
    ensures var q := Content(cap, c, k);
            && c.nodes[e.head.node].cells[e.head.slot].Elem?
            && q != [] && q[0] == c.nodes[e.head.node].cells[e.head.slot].item
            && Content(cap, Remove(c, t, k, e), k) == q[1..]
  {
    var ch := c.chain[k];
    assert e.head.slot < c.nodes[ch[0]].done;
    FlatHead(cap, c.nodes, ch, e.head.slot, e.tail.slot);
    if e.head == e.tail { assert Flat(cap, c.nodes, ch, e.head.slot + 1, e.tail.slot) == []; }
  }

  lemma RemoveSim(cap: nat, c: Config, t: nat)
    requires Inv(cap, c) && t < |c.pc| && c.pc[t].DeqAct? && c.pc[t].k < |c.pc|
    requires c.ends[c.pc[t].k] == c.pc[t].e && CellAt(c, c.pc[t].e.head)
    requires c.pc[t].e.head == c.pc[t].e.tail || c.pc[t].e.head.slot < cap
    requires c.nodes[c.pc[t].e.head.node].cells[c.pc[t].e.head.slot].Elem?
    ensures var e := c.pc[t].e;
            var x := c.nodes[e.head.node].cells[e.head.slot].item;
            FifoStep(Abstract(cap, c), Abstract(cap, Goto(Remove(c, t, c.pc[t].k, e), t, DeqTake(e, x))), t)
  {
    hide ScanSafe, DeferredOk, NodeOk, Owned, LocalOk;
    var e, k := c.pc[t].e, c.pc[t].k;
    var x := c.nodes[e.head.node].cells[e.head.slot].item;
    var c' := Goto(Remove(c, t, k, e), t, DeqTake(e, x));
    assert QueueOk(cap, c, k);
    RemoveContent(cap, c, t, k, e);
    OtherContents(cap, c, c', k);
    hide QueueOk, NodesOk;
    TakeStep(cap, c, c', t, k, c.pc[t].a);
  }

  lemma HopContent(cap: nat, c: Config, c': Config, t: nat, k: nat, e: Ends, m: Addr)
    requires Sized(c) && k < |c.pc| && QueueOk(cap, c, k) && c.ends[k] == e
    requires e.head.At? && e.head.slot == cap && e.tail.slot < cap
    requires e.head.node in c.nodes && |c.nodes[e.head.node].cells| == cap + 1 && c.nodes[e.head.node].cells[cap] == Link(m)
    requires Sized(c') && |c'.pc| == |c.pc| && c'.ends[k] == Ends(At(m, 0), e.tail)
    requires |c.chain[k]| > 0 && c'.chain[k] == c.chain[k][1..]
    requires c'.nodes == c.nodes[e.head.node := c.nodes[e.head.node].(status := Retired(t))]
    ensures Content(cap, c', k) == Content(cap, c, k)
  {
    HopQueue(cap, c, c', t, k, e, m);
    var ch := c.chain[k];
    assert SameRead(cap, c.nodes, c'.nodes, ch, e.tail.slot) by {
      forall i | 0 <= i < |ch| ensures ch[i] in c'.nodes && c'.nodes[ch[i]].cells == c.nodes[ch[i]].cells {
        assert ch[i] in c.nodes;
      }
    }
    FlatFrame(cap, c.nodes, c'.nodes, ch, cap, e.tail.slot);
  }

  function Hopped(c: Config, t: nat): Config
    requires Sized(c) && t < |c.pc| && c.pc[t].DeqHop? && c.pc[t].k < |c.ends| && CellAt(c, c.pc[t].e.head)
  {
    var pc := c.pc[t];
    Goto(Hop(c, t, pc.k, pc.e, pc.m), t, DeqUnhook(pc.k, pc.a, Ends(At(pc.m, 0), pc.e.tail), pc.e.head.node))
  }

  lemma HopLocalSim(cap: nat, c: Config, t: nat)
    requires Sized(c) && t < |c.pc| && c.pc[t].DeqHop? && c.pc[t].k < |c.pc| && CellAt(c, c.pc[t].e.head)
    requires ThreadOk(cap, c, t) && QueueOk(cap, c, c.pc[t].k) && c.ends[c.pc[t].k] == c.pc[t].e
    ensures c.nodes[c.pc[t].e.head.node].status == Live(c.pc[t].k)
    ensures Content(cap, Hopped(c, t), c.pc[t].k) == Content(cap, c, c.pc[t].k)
  {
    HopContent(cap, c, Hopped(c, t), t, c.pc[t].k, c.pc[t].e, c.pc[t].m);
  }

  // Moving the head to the chained node leaves the contents as they were.
  lemma HopSim(cap: nat, c: Config, t: nat)
    requires Inv(cap, c) && t < |c.pc| && c.pc[t].DeqHop? && c.pc[t].k < |c.pc|
    requires c.ends[c.pc[t].k] == c.pc[t].e && CellAt(c, c.pc[t].e.head)
    ensures Abstract(cap, Hopped(c, t)) == Abstract(cap, c)
  {
    hide NodesOk, ScanSafe, Content;
    var k := c.pc[t].k;
    assert ThreadOk(cap, c, t) && QueueOk(cap, c, k);
    hide ThreadOk, QueueOk;
    HopLocalSim(cap, c, t);
    OtherContents(cap, c, Hopped(c, t), k);
    hide Inv;
    QuietStep(cap, c, Hopped(c, t), t);
  }

  lemma EnqSim(cap: nat, c: Config, t: nat, a: Addr, c': Config)
    requires Inv(cap, c) && Enabled(c, t, Run(a)) && Enqueuing(c.pc[t])
    requires EnqStep(cap, c, t, a) == Next(c') && OnlyThread(c, c', t)
    ensures FifoStep(Abstract(cap, c), Abstract(cap, c'), t)
  {
    hide ScanSafe;
    match c.pc[t] {
      case EnqInstall(_, _, _, _) => EnqSwapSim(cap, c, t, a, c');
      case EnqSwing(_, _, _, _) => EnqSwapSim(cap, c, t, a, c');
      case EnqStart(_, _, _) => AllocSim(cap, c, t, a, c');
      case EnqWrite(_, _, _) => PastTailSim(cap, c, t, a, c');
      case EnqChain(_, _, _, _) => PastTailSim(cap, c, t, a, c');
      case EnqUndo(_, _, _, _, _) => PastTailSim(cap, c, t, a, c');
      case EnqFree(_, _, _, _, _) => AllocSim(cap, c, t, a, c');
      case _ => LocalSim(cap, c, c', t);
    }
  }

  // The two swaps of the end pair that make an enqueue take effect.
  lemma EnqSwapSim(cap: nat, c: Config, t: nat, a: Addr, c': Config)
    requires Inv(cap, c) && Enabled(c, t, Run(a)) && (c.pc[t].EnqInstall? || c.pc[t].EnqSwing?)
    requires EnqStep(cap, c, t, a) == Next(c') && OnlyThread(c, c', t)
    ensures FifoStep(Abstract(cap, c), Abstract(cap, c'), t)
  {
    hide ScanSafe;
    assert ThreadOk(cap, c, t);
    if c.ends[c.pc[t].k] != c.pc[t].e { LocalSim(cap, c, c', t); }
    else if c.pc[t].EnqInstall? { InstallSim(cap, c, t); }
    else { AppendSim(cap, c, t); }
  }

  // Allocating or releasing an unpublished node, or protecting the tail.
  lemma AllocSim(cap: nat, c: Config, t: nat, a: Addr, c': Config)
    requires Inv(cap, c) && Enabled(c, t, Run(a)) && (c.pc[t].EnqStart? || c.pc[t].EnqFree?)
    requires EnqStep(cap, c, t, a) == Next(c') && OnlyThread(c, c', t)
    ensures Abstract(cap, c') == Abstract(cap, c)
  {
    hide NodesOk, QueueOk, ScanSafe, Abstract, GuardOf, SpecOf, PrivateOf, Scanning;
    assert ThreadOk(cap, c, t);
    StutterSim(cap, c, c', t);
  }

  // Writes past the tail are not part of any queue's contents.
  lemma PastTailSim(cap: nat, c: Config, t: nat, a: Addr, c': Config)
    requires Inv(cap, c) && Enabled(c, t, Run(a)) && (c.pc[t].EnqWrite? || c.pc[t].EnqChain? || c.pc[t].EnqUndo?)
    requires EnqStep(cap, c, t, a) == Next(c') && OnlyThread(c, c', t)
    ensures Abstract(cap, c') == Abstract(cap, c)
  {
    hide QueueOk, ScanSafe, NodesOk, Abstract, LocalOk;
    if c.pc[t].EnqUndo? { UndoQuiet(cap, c, t, a, c'); } else { WriteQuiet(cap, c, t, a, c'); }
    StutterSim(cap, c, c', t);
  }

  predicate Quiet(c: Config, c': Config)
  {
    && c'.ends == c.ends && c'.chain == c.chain
    && forall a :: a in c.nodes && c.nodes[a].status.Live? ==> a in c'.nodes && Confirmed(c.nodes[a], c'.nodes[a])
  }

  lemma WriteQuiet(cap: nat, c: Config, t: nat, a: Addr, c': Config)
    requires Inv(cap, c) && Enabled(c, t, Run(a)) && (c.pc[t].EnqWrite? || c.pc[t].EnqChain?)
    requires EnqStep(cap, c, t, a) == Next(c')
    ensures Quiet(c, c')
  {
    assert ThreadOk(cap, c, t);
    assert NodeOk(cap, c.nodes[c.pc[t].e.tail.node]);
    hide NodesOk, QueueOk, ScanSafe, DeferredOk, FreshCells;
  }

  lemma UndoQuiet(cap: nat, c: Config, t: nat, a: Addr, c': Config)
    requires Inv(cap, c) && Enabled(c, t, Run(a)) && c.pc[t].EnqUndo?
    requires EnqStep(cap, c, t, a) == Next(c')
    ensures Quiet(c, c')
  {
    assert ThreadOk(cap, c, t);
    assert NodeOk(cap, c.nodes[c.pc[t].e.tail.node]);
    hide NodesOk, QueueOk, ScanSafe, DeferredOk, FreshCells;
  }

  lemma DeqSim(cap: nat, c: Config, t: nat, c': Config)
    requires Inv(cap, c) && t < |c.pc| && !c.pc[t].Idle? && !Enqueuing(c.pc[t])
    requires DeqStep(cap, c, t) == Next(c') && OnlyThread(c, c', t)
    ensures FifoStep(Abstract(cap, c), Abstract(cap, c'), t)
  {
    match c.pc[t] {
      case DeqRead(_, _) => DeqLoadSim(cap, c, t, c');
      case DeqCheck(_, _, _) => DeqLoadSim(cap, c, t, c');
      case DeqAct(_, _, _) => DeqActSim(cap, c, t, c');
      case DeqHop(_, _, _, _) => DeqHopSim(cap, c, t, c');
      case DeqUnhook(_, _, _, _) => ReclaimSim(cap, c, t, c');
      case DeqGot(_, _) => ReclaimSim(cap, c, t, c');
      case Scan(_, _, _) => ReclaimSim(cap, c, t, c');
      case DeqStart(_, _, _) => DeqQuietSim(cap, c, t, c');
      case DeqDrop(_, _, _, _) => DeqQuietSim(cap, c, t, c');
      case _ => DeqEndSim(cap, c, t, c');
    }
  }

  // Protecting the head, and giving up after a failed swap, do not move the call on.
  lemma DeqQuietSim(cap: nat, c: Config, t: nat, c': Config)
    requires Inv(cap, c) && t < |c.pc| && (c.pc[t].DeqStart? || c.pc[t].DeqDrop?)
    requires DeqStep(cap, c, t) == Next(c') && OnlyThread(c, c', t)
    ensures Abstract(cap, c') == Abstract(cap, c)
  {
    assert ThreadOk(cap, c, t);
    hide NodesOk, QueueOk, ScanSafe, DeferredOk, Abstract;
    StutterSim(cap, c, c', t);
  }

  // The state taken is loaded from the slot; then the call returns.
  lemma DeqEndSim(cap: nat, c: Config, t: nat, c': Config)
    requires Inv(cap, c) && t < |c.pc| && (c.pc[t].DeqTake? || c.pc[t].DeqDone?)
    requires DeqStep(cap, c, t) == Next(c') && OnlyThread(c, c', t)
    ensures FifoStep(Abstract(cap, c), Abstract(cap, c'), t)
  {
    assert ThreadOk(cap, c, t);
    hide NodesOk, QueueOk, ScanSafe, DeferredOk, LocalOk;
    LocalSim(cap, c, c', t);
  }

  lemma DeqHopSim(cap: nat, c: Config, t: nat, c': Config)
    requires Inv(cap, c) && t < |c.pc| && c.pc[t].DeqHop?
    requires DeqStep(cap, c, t) == Next(c') && OnlyThread(c, c', t)
    ensures FifoStep(Abstract(cap, c), Abstract(cap, c'), t)
  {
    assert ThreadOk(cap, c, t);
    var k, e := c.pc[t].k, c.pc[t].e;
    if c.ends[k] == e { HopSim(cap, c, t); } else { LoadSim(cap, c, c', t, k, c.pc[t].a); }
  }

  lemma DeqLoadSim(cap: nat, c: Config, t: nat, c': Config)
    requires Inv(cap, c) && t < |c.pc| && (c.pc[t].DeqRead? || c.pc[t].DeqCheck?)
    requires DeqStep(cap, c, t) == Next(c') && OnlyThread(c, c', t)
    ensures FifoStep(Abstract(cap, c), Abstract(cap, c'), t)
  {
    assert ThreadOk(cap, c, t);
    var k, a := c.pc[t].k, c.pc[t].a;
    if c.pc[t].DeqCheck? && c.ends[k] == c.pc[t].e { LocalSim(cap, c, c', t); }
    else { LoadSim(cap, c, c', t, k, a); }
  }

  // Handing nodes to the reclaimer, and releasing them.
  lemma ReclaimSim(cap: nat, c: Config, t: nat, c': Config)
    requires Inv(cap, c) && t < |c.pc| && (c.pc[t].DeqUnhook? || c.pc[t].DeqGot? || c.pc[t].Scan?)
    requires DeqStep(cap, c, t) == Next(c') && OnlyThread(c, c', t)
    ensures Abstract(cap, c') == Abstract(cap, c)
  {
    hide NodesOk, QueueOk, ScanSafe, Abstract, GuardOf, SpecOf, PrivateOf, Scanning;
    assert ThreadOk(cap, c, t);
    StutterSim(cap, c, c', t);
  }

  lemma DeqActSim(cap: nat, c: Config, t: nat, c': Config)
    requires Inv(cap, c) && t < |c.pc| && c.pc[t].DeqAct?
    requires DeqStep(cap, c, t) == Next(c') && OnlyThread(c, c', t)
    ensures FifoStep(Abstract(cap, c), Abstract(cap, c'), t)
  {
    assert ThreadOk(cap, c, t);
    var k, e := c.pc[t].k, c.pc[t].e;
    if e.head == e.tail || e.head.slot < cap {
      if c.ends[k] == e { RemoveSim(cap, c, t); } else { LoadSim(cap, c, c', t, k, c.pc[t].a); }
    } else {
      LocalSim(cap, c, c', t);
    }
  }

  /** Every step of the machine is a step of the specification. */
  lemma StepSim(cap: nat, c: Config, t: nat, ch: Choice, c': Config)
    requires Inv(cap, c) && Enabled(c, t, ch) && Step(cap, c, t, ch) == Next(c')
    ensures Sized(c') && FifoStep(Abstract(cap, c), Abstract(cap, c'), t)
  {
    StepOnlyThread(cap, c, t, ch, c');
    match ch {
      case Run(a) => if Enqueuing(c.pc[t]) { EnqSim(cap, c, t, a, c'); } else { DeqSim(cap, c, t, c'); }
      case Enqueue(_, _) => LocalSim(cap, c, c', t);
      case Dequeue(_) => LocalSim(cap, c, c', t);
    }
  }

  lemma StepOnlyThread(cap: nat, c: Config, t: nat, ch: Choice, c': Config)
    requires Sized(c) && Enabled(c, t, ch) && Step(cap, c, t, ch) == Next(c')
    ensures OnlyThread(c, c', t)
  {
    if ch.Run? {
      if Enqueuing(c.pc[t]) { EnqOnlyThread(cap, c, t, ch.addr, c'); } else { DeqOnlyThread(cap, c, t, c'); }
    }
  }

  lemma EnqOnlyThread(cap: nat, c: Config, t: nat, a: Addr, c': Config)
    requires Sized(c) && t < |c.pc| && EnqStep(cap, c, t, a) == Next(c')
    ensures OnlyThread(c, c', t)
  {
    hide OnlyThread;
    match c.pc[t] {
      case EnqRead(_, _) => EnqFirstOnlyThread(cap, c, t, a, c');
      case EnqStart(_, _, _) => EnqFirstOnlyThread(cap, c, t, a, c');
      case EnqInstall(_, _, _, _) => EnqFirstOnlyThread(cap, c, t, a, c');
      case EnqCheck(_, _, _) => EnqFirstOnlyThread(cap, c, t, a, c');
      case EnqWrite(_, _, _) => EnqWriteOnlyThread(cap, c, t, a, c');
      case EnqChain(_, _, _, _) => EnqWriteOnlyThread(cap, c, t, a, c');
      case EnqSwing(_, _, _, _) => EnqWriteOnlyThread(cap, c, t, a, c');
      case _ => EnqLastOnlyThread(cap, c, t, a, c');
    }
  }

  lemma EnqFirstOnlyThread(cap: nat, c: Config, t: nat, a: Addr, c': Config)
    requires Sized(c) && t < |c.pc| && EnqStep(cap, c, t, a) == Next(c')
    requires c.pc[t].EnqRead? || c.pc[t].EnqStart? || c.pc[t].EnqInstall? || c.pc[t].EnqCheck?
    ensures OnlyThread(c, c', t)
  {
    hide Allocate, Install;
  }

  lemma EnqWriteOnlyThread(cap: nat, c: Config, t: nat, a: Addr, c': Config)
    requires Sized(c) && t < |c.pc| && EnqStep(cap, c, t, a) == Next(c')
    requires c.pc[t].EnqWrite? || c.pc[t].EnqChain? || c.pc[t].EnqSwing?
    ensures OnlyThread(c, c', t)
  {
    hide SetCell, Allocate, Append;
  }

  lemma EnqLastOnlyThread(cap: nat, c: Config, t: nat, a: Addr, c': Config)
    requires Sized(c) && t < |c.pc| && EnqStep(cap, c, t, a) == Next(c')
    requires c.pc[t].EnqUndo? || c.pc[t].EnqFree? || c.pc[t].EnqDrop? || c.pc[t].EnqFinish? || c.pc[t].EnqDone?
    ensures OnlyThread(c, c', t)
  {
    hide SetCell;
  }

  lemma DeqOnlyThread(cap: nat, c: Config, t: nat, c': Config)
    requires Sized(c) && t < |c.pc| && DeqStep(cap, c, t) == Next(c')
    ensures OnlyThread(c, c', t)
  {
    hide OnlyThread;
    if c.pc[t].DeqRead? || c.pc[t].DeqStart? || c.pc[t].DeqCheck? || c.pc[t].DeqAct? || c.pc[t].DeqHop? {
      DeqFirstOnlyThread(cap, c, t, c');
    } else {
      DeqLastOnlyThread(cap, c, t, c');
    }
  }

  lemma DeqFirstOnlyThread(cap: nat, c: Config, t: nat, c': Config)
    requires Sized(c) && t < |c.pc| && DeqStep(cap, c, t) == Next(c')
    requires c.pc[t].DeqRead? || c.pc[t].DeqStart? || c.pc[t].DeqCheck? || c.pc[t].DeqAct? || c.pc[t].DeqHop?
    ensures OnlyThread(c, c', t)
  {
    hide Remove, Hop, Loaded;
  }

  lemma DeqLastOnlyThread(cap: nat, c: Config, t: nat, c': Config)
    requires Sized(c) && t < |c.pc| && DeqStep(cap, c, t) == Next(c')
    requires !c.pc[t].DeqRead? && !c.pc[t].DeqStart? && !c.pc[t].DeqCheck? && !c.pc[t].DeqAct? && !c.pc[t].DeqHop?
    ensures OnlyThread(c, c', t)
  {
    hide Loaded;
  }

  // ----- whole runs -----

  datatype Event = Event(t: nat, ch: Choice)

  /** `cs` is what the machine passes through when the events `es` happen from
      empty queues, whichever threads they schedule. */
  predicate IsRun(cap: nat, cs: seq<Config>, es: seq<Event>)
  {
    && |cs| == |es| + 1 && Initial(cs[0])
    && forall i :: 0 <= i < |es| ==> Takes(cap, cs[i], es[i], cs[i + 1])
  }

  predicate Takes(cap: nat, c: Config, e: Event, c': Config)
  {
    Sized(c) && Enabled(c, e.t, e.ch) && Step(cap, c, e.t, e.ch) == Next(c')
  }

  /** Whatever the schedule: the invariant holds throughout, and nothing that can
      happen next is a fault. */
  lemma {:induction false} RunSafe(cap: nat, cs: seq<Config>, es: seq<Event>, i: nat)
    requires IsRun(cap, cs, es) && cap > 0 && i < |cs|
    ensures Inv(cap, cs[i])
    ensures forall t, ch :: Enabled(cs[i], t, ch) ==> Step(cap, cs[i], t, ch) != Fault
  {
    if i == 0 {
      InitialSafe(cap, cs[0]);
    } else {
      RunSafe(cap, cs, es, i - 1);
      assert Takes(cap, cs[i - 1], es[i - 1], cs[i]);
      StepSafe(cap, cs[i - 1], es[i - 1].t, es[i - 1].ch);
    }
    forall t, ch | Enabled(cs[i], t, ch) ensures Step(cap, cs[i], t, ch) != Fault {
      StepSafe(cap, cs[i], t, ch);
    }
  }

  /** What a step of the specification puts into queue k, and takes from it. */
  function PutInto(f: Fifo, f': Fifo, t: nat, k: nat): seq<Item>
  {
    if t < |f.calls| && t < |f'.calls| && f.calls[t].Putting? && f.calls[t].k == k && f'.calls[t].Put?
    then [f.calls[t].x] else []
  }

  function TakenFrom(f: Fifo, f': Fifo, t: nat, k: nat): seq<Item>
  {
    if t < |f.calls| && t < |f'.calls| && f.calls[t].Taking? && f.calls[t].k == k
       && f'.calls[t].Taken? && f'.calls[t].r.Some?
    then [f'.calls[t].r.value] else []
  }

  /** The states put into queue k over a run seen through the abstraction, in the
      order their calls took effect; and likewise those taken out. */
  function AllPut(fs: seq<Fifo>, es: seq<Event>, k: nat): seq<Item>
    requires |fs| == |es| + 1
    decreases |es|
  {
    var n := |es|;
    if n == 0 then []
    else AllPut(fs[..n], es[..n - 1], k) + PutInto(fs[n - 1], fs[n], es[n - 1].t, k)
  }

  function AllTaken(fs: seq<Fifo>, es: seq<Event>, k: nat): seq<Item>
    requires |fs| == |es| + 1
    decreases |es|
  {
    var n := |es|;
    if n == 0 then []
    else AllTaken(fs[..n], es[..n - 1], k) + TakenFrom(fs[n - 1], fs[n], es[n - 1].t, k)
  }

  predicate IsFifoRun(fs: seq<Fifo>, es: seq<Event>)
  {
    && |fs| == |es| + 1
    && forall i :: 0 <= i < |es| ==> FifoStep(fs[i], fs[i + 1], es[i].t)
  }

  lemma StepBalance(f: Fifo, f': Fifo, t: nat, k: nat)
    requires FifoStep(f, f', t) && k < |f.queues|
    ensures |f'.queues| == |f.queues| && |f'.calls| == |f.calls|
    ensures f.queues[k] + PutInto(f, f', t, k) == TakenFrom(f, f', t, k) + f'.queues[k]
  {
  }

  lemma Balanced(q: seq<Item>, puts: seq<Item>, takens: seq<Item>, q1: seq<Item>, put: seq<Item>, taken: seq<Item>, q2: seq<Item>)
    requires q + puts == takens + q1 && q1 + put == taken + q2
    ensures q + (puts + put) == (takens + taken) + q2
  {
    calc {
      q + (puts + put);
      (q + puts) + put;
      (takens + q1) + put;
      takens + (q1 + put);
      takens + (taken + q2);
      (takens + taken) + q2;
    }
  }

  // What was in queue k, with what was put in, is what was taken out and what is left.
  lemma {:induction false} RunBalance(fs: seq<Fifo>, es: seq<Event>, k: nat)
    requires IsFifoRun(fs, es) && k < |fs[0].queues|
    ensures k < |fs[|es|].queues| == |fs[0].queues|
    ensures fs[0].queues[k] + AllPut(fs, es, k) == AllTaken(fs, es, k) + fs[|es|].queues[k]
    decreases |es|
  {
    hide FifoStep, PutInto, TakenFrom;
    var n := |es|;
    if n > 0 {
      RunBalance(fs[..n], es[..n - 1], k);
      StepBalance(fs[n - 1], fs[n], es[n - 1].t, k);
      var put, taken := PutInto(fs[n - 1], fs[n], es[n - 1].t, k), TakenFrom(fs[n - 1], fs[n], es[n - 1].t, k);
      var puts, takens := AllPut(fs[..n], es[..n - 1], k), AllTaken(fs[..n], es[..n - 1], k);
      Balanced(fs[0].queues[k], puts, takens, fs[n - 1].queues[k], put, taken, fs[n].queues[k]);
    }
  }

  // A run keeps its number of threads.
  lemma {:induction false} RunSized(cap: nat, cs: seq<Config>, es: seq<Event>, i: nat)
    requires IsRun(cap, cs, es) && i < |cs|
    ensures Sized(cs[i]) && |cs[i].pc| == |cs[0].pc|
  {
    if i > 0 {
      RunSized(cap, cs, es, i - 1);
      assert Takes(cap, cs[i - 1], es[i - 1], cs[i]);
      StepOnlyThread(cap, cs[i - 1], es[i - 1].t, es[i - 1].ch, cs[i]);
    }
  }

  ghost function Abstracts(cap: nat, cs: seq<Config>, es: seq<Event>): seq<Fifo>
    requires IsRun(cap, cs, es)
  {
    seq(|cs|, i requires 0 <= i < |cs| => RunSized(cap, cs, es, i); Abstract(cap, cs[i]))
  }

  /** Nothing is lost, repeated or overtaken: over every run, the states put into a
      queue are those taken from it, in order, followed by its contents. */
  lemma RunIsFifo(cap: nat, cs: seq<Config>, es: seq<Event>, k: nat)
    requires IsRun(cap, cs, es) && cap > 0 && k < |cs[0].pc|
    ensures var fs := Abstracts(cap, cs, es);
            && IsFifoRun(fs, es) && Sized(cs[|es|]) && k < |cs[|es|].pc|
            && AllPut(fs, es, k) == AllTaken(fs, es, k) + Content(cap, cs[|es|], k)
  {
    var fs := Abstracts(cap, cs, es);
    RunSized(cap, cs, es, |es|);
    forall i | 0 <= i < |es| ensures FifoStep(fs[i], fs[i + 1], es[i].t) {
      assert Takes(cap, cs[i], es[i], cs[i + 1]);
      RunSafe(cap, cs, es, i);
      StepSim(cap, cs[i], es[i].t, es[i].ch, cs[i + 1]);
    }
    RunBalance(fs, es, k);
    assert cs[0].ends[k] == EMPTY;
    assert fs[0].queues[k] == [];
  }
}
