/** The pending-state queues as a machine whose steps are the atomic operations
    of the runtime: each step is one load, store, compare-and-swap, allocation
    or release, with the thread-local computation around it folded in.

    A step that the runtime must never take (touching a released node, releasing
    a node twice, or failing one of its assertions) is a `Fault`. */
module QueueMachine {
  import opened Options

  type Item(==,!new)
  type Addr = nat

  /** A position in the linked list: slot `cap` of a node is its chained
      pointer, the slots below it hold states. */
  datatype Handle = Null | At(node: Addr, slot: nat)

  datatype Ends = Ends(head: Handle, tail: Handle)

  datatype Cell = Empty | Elem(item: Item) | Link(next: Addr)

  /** Who may release a node. This, like `done` and `spec`, is bookkeeping that
      no step of the machine ever branches on. */
  datatype Status = Private(owner: nat) | Live(queue: nat) | Retired(reclaimer: nat)

  /** `done` counts the slots of the node the tail has moved past; `spec` names
      the thread with an unconfirmed write in slot `done`. */
  datatype Node = Node(cells: seq<Cell>, done: nat, status: Status, spec: Option<nat>)

  /** What a thread does once its reclamation pass is over. */
  datatype Then = Resume(k: nat, a: nat, e: Ends) | Return(item: Item)

  datatype PC =
    | Idle
    | EnqRead(x: Item, k: nat)
    | EnqStart(x: Item, k: nat, e: Ends)
    | EnqInstall(x: Item, k: nat, e: Ends, m: Addr)
    | EnqCheck(x: Item, k: nat, e: Ends)
    | EnqWrite(x: Item, k: nat, e: Ends)
    | EnqChain(x: Item, k: nat, e: Ends, m: Addr)
    | EnqSwing(x: Item, k: nat, e: Ends, added: Option<Addr>)
    | EnqUndo(x: Item, k: nat, e: Ends, added: Option<Addr>, now: Ends)
    | EnqFree(x: Item, k: nat, now: Ends, m: Addr, kept: Option<Addr>)
    | EnqDrop(x: Item, k: nat, now: Ends, guarded: Addr)
    | EnqFinish(guarded: Addr)
    | EnqDone
    | DeqRead(k: nat, a: nat)
    | DeqStart(k: nat, a: nat, e: Ends)
    | DeqCheck(k: nat, a: nat, e: Ends)
    | DeqAct(k: nat, a: nat, e: Ends)
    | DeqHop(k: nat, a: nat, e: Ends, m: Addr)
    | DeqDrop(k: nat, a: nat, now: Ends, guarded: Addr)
    | DeqUnhook(k: nat, a: nat, now: Ends, p: Addr)
    | DeqTake(e: Ends, popped: Item)
    | DeqGot(e: Ends, got: Item)
    | Scan(i: nat, j: nat, then_: Then)
    | DeqDone(r: Option<Item>)

  /** `chain[k]` lists the nodes of queue `k` from head to tail; like the
      bookkeeping in `Node` it is never read by a step. */
  datatype Config = Config(
    nodes: map<Addr, Node>,
    ends: seq<Ends>,
    chain: seq<seq<Addr>>,
    hazarded: seq<Option<Addr>>,
    deferred: seq<seq<Addr>>,
    pc: seq<PC>)

  datatype Outcome = Fault | Next(c: Config)

  /** The nondeterminism of a step: which operation an idle thread begins, and
      which unused address an allocation returns. Addresses come back into use. */
  datatype Choice = Enqueue(x: Item, k: nat) | Dequeue(k: nat) | Run(addr: Addr)

  const EMPTY := Ends(Null, Null)

  predicate Enabled(c: Config, t: nat, ch: Choice)
  {
    && t < |c.pc|
    && match ch
       case Enqueue(_, k) => c.pc[t].Idle? && k < |c.ends|
       case Dequeue(k) => c.pc[t].Idle? && k < |c.ends|
       case Run(a) => !c.pc[t].Idle? && a !in c.nodes
  }

  // The slots of a newly allocated node whose first slot has been stored.
  function FreshCells(cap: nat, x: Item): seq<Cell>
  {
    seq(cap + 1, i => if i == 0 then Elem(x) else Empty)
  }

  function FreshNode(cap: nat, x: Item, t: nat): Node
  {
    Node(FreshCells(cap, x), 1, Private(t), None)
  }

  function Goto(c: Config, t: nat, pc: PC): Config
    requires t < |c.pc|
  {
    c.(pc := c.pc[t := pc])
  }

  /** Moving on after an end pair has been loaded by a dequeuing thread: an empty
      queue sends it to the next one, or back to its caller after the last. */
  function Loaded(n: nat, k: nat, a: nat, e: Ends): PC
  {
    if e.head.At? then DeqStart(k, a, e)
    else if a + 1 < n then DeqRead(if k + 1 < n then k + 1 else 0, a + 1)
    else DeqDone(None)
  }

  /** An end pair whose first or second half is null while the other is not. */
  predicate Lopsided(e: Ends)
  {
    e.head.At? != e.tail.At?
  }

  /** A handle to a slot that holds states: not to a node's chained pointer. */
  predicate IsStateSlot(cap: nat, h: Handle)
  {
    h.At? ==> h.slot < cap
  }

  predicate CellAt(c: Config, h: Handle)
  {
    h.At? && h.node in c.nodes && h.slot < |c.nodes[h.node].cells|
  }

  function SetCell(c: Config, h: Handle, cell: Cell, spec: Option<nat>): (r: Config)
    requires CellAt(c, h)
    ensures SameThreads(c, r)
  {
    var n := c.nodes[h.node];
    c.(nodes := c.nodes[h.node := n.(cells := n.cells[h.slot := cell], spec := spec)])
  }

  /** A change to the shared structure alone: no thread moves on. */
  predicate SameThreads(c: Config, c': Config)
  {
    c'.pc == c.pc && c'.hazarded == c.hazarded && c'.deferred == c.deferred && |c'.ends| == |c.ends| && |c'.chain| == |c.chain|
  }

  function Succ(h: Handle): Handle
  {
    match h case Null => Null case At(n, s) => At(n, s + 1)
  }

  /** The new end pair a dequeue tries to store when it can proceed directly. */
  function Popped(e: Ends): Ends
  {
    if e.head == e.tail then EMPTY else Ends(Succ(e.head), e.tail)
  }

  function Allocate(cap: nat, c: Config, t: nat, a: Addr, x: Item): (r: Config)
    ensures SameThreads(c, r)
  {
    c.(nodes := c.nodes[a := FreshNode(cap, x, t)])
  }

  function Hazard(c: Config, t: nat, h: Option<Addr>): Config
    requires t < |c.hazarded|
  {
    c.(hazarded := c.hazarded[t := h])
  }

  /** Begin a reclamation pass with `p` queued behind the nodes whose release
      was put off by earlier passes. */
  function Reclaim(c: Config, t: nat, p: Addr, then_: Then): Config
    requires t < |c.deferred| && t < |c.pc|
  {
    Goto(c.(deferred := c.deferred[t := c.deferred[t] + [p]]), t, Scan(0, 0, then_))
  }

  predicate Sized(c: Config)
  {
    |c.ends| == |c.chain| == |c.hazarded| == |c.deferred| == |c.pc|
  }

  function EnqStep(cap: nat, c: Config, t: nat, a: Addr): Outcome
    requires Sized(c) && t < |c.pc|
  {
    match c.pc[t]
    case EnqRead(x, k) =>
      if k >= |c.ends| then Fault else Next(Goto(c, t, EnqStart(x, k, c.ends[k])))
    case EnqStart(x, k, e) =>
      if !IsStateSlot(cap, e.tail) || (e.tail.Null? && Lopsided(e)) then Fault
      else if e.tail.Null? then Next(Goto(Allocate(cap, c, t, a, x), t, EnqInstall(x, k, e, a)))
      else if c.hazarded[t].Some? then Fault
      else Next(Goto(Hazard(c, t, Some(e.tail.node)), t, EnqCheck(x, k, e)))
    case EnqInstall(x, k, e, m) =>
      if k >= |c.ends| then Fault
      else if c.ends[k] == e then Next(Goto(Install(c, k, m), t, EnqDone))
      else Next(Goto(c, t, EnqFree(x, k, c.ends[k], m, None)))
    case EnqCheck(x, k, e) =>
      if k >= |c.ends| || e.tail.Null? then Fault
      else if c.ends[k] == e then Next(Goto(c, t, EnqWrite(x, k, e)))
      else Next(Goto(c, t, EnqDrop(x, k, c.ends[k], e.tail.node)))
    case EnqWrite(x, k, e) =>
      if e.tail.Null? || !CellAt(c, Succ(e.tail)) then Fault
      else if e.tail.slot + 1 < cap then
        if c.nodes[e.tail.node].cells[e.tail.slot + 1].Empty?
        then Next(Goto(SetCell(c, Succ(e.tail), Elem(x), Some(t)), t, EnqSwing(x, k, e, None)))
        else Next(Goto(c, t, EnqDrop(x, k, e, e.tail.node)))
      else Next(Goto(Allocate(cap, c, t, a, x), t, EnqChain(x, k, e, a)))
    case EnqChain(x, k, e, m) =>
      if e.tail.Null? || !CellAt(c, Succ(e.tail)) then Fault
      else if c.nodes[e.tail.node].cells[e.tail.slot + 1].Empty?
      then Next(Goto(SetCell(c, Succ(e.tail), Link(m), Some(t)), t, EnqSwing(x, k, e, Some(m))))
      else Next(Goto(c, t, EnqFree(x, k, e, m, Some(e.tail.node))))
    case EnqSwing(x, k, e, added) =>
      if k >= |c.ends| || !CellAt(c, Succ(e.tail)) then Fault
      else if c.ends[k] == e then Next(Goto(Append(c, k, e, added), t, EnqFinish(e.tail.node)))
      else Next(Goto(c, t, EnqUndo(x, k, e, added, c.ends[k])))
    case EnqUndo(x, k, e, added, now) =>
      // the "raced with another store" assertions, then the store of NULL
      if !CellAt(c, Succ(e.tail)) then Fault
      else if c.nodes[e.tail.node].cells[e.tail.slot + 1]
              != (if added.Some? then Link(added.value) else Elem(x)) then Fault
      else
        var c1 := SetCell(c, Succ(e.tail), Empty, None);
        if added.Some? then Next(Goto(c1, t, EnqFree(x, k, now, added.value, Some(e.tail.node))))
        else Next(Goto(c1, t, EnqDrop(x, k, now, e.tail.node)))
    case EnqFree(x, k, now, m, g) =>
      if m !in c.nodes then Fault
      else
        var c1 := c.(nodes := c.nodes - {m});
        Next(Goto(c1, t, if g.Some? then EnqDrop(x, k, now, g.value) else EnqStart(x, k, now)))
    case EnqDrop(x, k, now, g) =>
      if c.hazarded[t] != Some(g) then Fault
      else Next(Goto(Hazard(c, t, None), t, EnqStart(x, k, now)))
    case EnqFinish(g) =>
      if c.hazarded[t] != Some(g) then Fault
      else Next(Goto(Hazard(c, t, None), t, EnqDone))
    case EnqDone => Next(Goto(c, t, Idle))
    case _ => Fault
  }

  // The successful swap of an empty queue for one holding just node m.
  function Install(c: Config, k: nat, m: Addr): (r: Config)
    requires k < |c.ends| == |c.chain|
    ensures SameThreads(c, r)
  {
    c.(ends := c.ends[k := Ends(At(m, 0), At(m, 0))],
       chain := c.chain[k := [m]],
       nodes := if m in c.nodes then c.nodes[m := c.nodes[m].(status := Live(k))] else c.nodes)
  }

  // The successful swap that confirms a speculative write past the tail.
  function Append(c: Config, k: nat, e: Ends, added: Option<Addr>): (r: Config)
    requires k < |c.ends| == |c.chain| && CellAt(c, Succ(e.tail))
    ensures SameThreads(c, r)
  {
    var n := c.nodes[e.tail.node];
    var nodes := c.nodes[e.tail.node := n.(done := n.done + 1, spec := None)];
    match added
    case None =>
      c.(ends := c.ends[k := Ends(e.head, Succ(e.tail))], nodes := nodes)
    case Some(m) =>
      c.(ends := c.ends[k := Ends(e.head, At(m, 0))],
         chain := c.chain[k := c.chain[k] + [m]],
         nodes := if m in nodes then nodes[m := nodes[m].(status := Live(k))] else nodes)
  }

  // The successful swap that removes the head element.
  function Remove(c: Config, t: nat, k: nat, e: Ends): (r: Config)
    requires k < |c.ends| == |c.chain| && CellAt(c, e.head)
    ensures SameThreads(c, r)
  {
    var c1 := c.(ends := c.ends[k := Popped(e)]);
    if e.head == e.tail
    then c1.(chain := c.chain[k := []],
             nodes := c.nodes[e.head.node := c.nodes[e.head.node].(status := Retired(t))])
    else c1
  }

  // The successful swap that moves the head to the next node.
  function Hop(c: Config, t: nat, k: nat, e: Ends, m: Addr): (r: Config)
    requires k < |c.ends| == |c.chain| && CellAt(c, e.head)
    ensures SameThreads(c, r)
  {
    c.(ends := c.ends[k := Ends(At(m, 0), e.tail)],
       chain := c.chain[k := if |c.chain[k]| > 0 then c.chain[k][1..] else []],
       nodes := c.nodes[e.head.node := c.nodes[e.head.node].(status := Retired(t))])
  }

  function DeqStep(cap: nat, c: Config, t: nat): Outcome
    requires Sized(c) && t < |c.pc|
  {
    var n := |c.pc|;
    match c.pc[t]
    case DeqRead(k, a) =>
      if k >= n || (c.ends[k].head.Null? && Lopsided(c.ends[k])) then Fault
      else Next(Goto(c, t, Loaded(n, k, a, c.ends[k])))
    case DeqStart(k, a, e) =>
      if c.hazarded[t].Some? || e.head.Null? then Fault
      else Next(Goto(Hazard(c, t, Some(e.head.node)), t, DeqCheck(k, a, e)))
    case DeqCheck(k, a, e) =>
      if k >= n || e.head.Null? then Fault
      else if c.ends[k] == e then
        if !IsStateSlot(cap, e.tail) then Fault else Next(Goto(c, t, DeqAct(k, a, e)))
      else Next(Goto(c, t, DeqDrop(k, a, c.ends[k], e.head.node)))
    case DeqAct(k, a, e) =>
      if k >= n || !CellAt(c, e.head) then Fault
      else
        var cell := c.nodes[e.head.node].cells[e.head.slot];
        if e.head == e.tail || e.head.slot < cap then
          if c.ends[k] != e then Next(Goto(c, t, DeqDrop(k, a, c.ends[k], e.head.node)))
          else if !cell.Elem? then Fault
          else Next(Goto(Remove(c, t, k, e), t, DeqTake(e, cell.item)))
        else if !cell.Link? then Fault
        else Next(Goto(c, t, DeqHop(k, a, e, cell.next)))
    case DeqHop(k, a, e, m) =>
      if k >= n || !CellAt(c, e.head) then Fault
      else if c.ends[k] == e
      then Next(Goto(Hop(c, t, k, e, m), t, DeqUnhook(k, a, Ends(At(m, 0), e.tail), e.head.node)))
      else Next(Goto(c, t, DeqDrop(k, a, c.ends[k], e.head.node)))
    case DeqDrop(k, a, now, g) =>
      if c.hazarded[t] != Some(g) || (now.head.Null? && Lopsided(now)) then Fault
      else Next(Goto(Hazard(c, t, None), t, Loaded(n, k, a, now)))
    case DeqUnhook(k, a, now, p) =>
      if c.hazarded[t] != Some(p) then Fault
      else Next(Reclaim(Hazard(c, t, None), t, p, Resume(k, a, now)))
    case DeqTake(e, _) =>
      // the state is loaded here; the value noted at the swap is not consulted
      if !CellAt(c, e.head) || !c.nodes[e.head.node].cells[e.head.slot].Elem? then Fault
      else Next(Goto(c, t, DeqGot(e, c.nodes[e.head.node].cells[e.head.slot].item)))
    case DeqGot(e, x) =>
      if e.head.Null? || c.hazarded[t] != Some(e.head.node) then Fault
      else
        var c1 := Hazard(c, t, None);
        if e.head == e.tail then Next(Reclaim(c1, t, e.head.node, Return(x)))
        else Next(Goto(c1, t, DeqDone(Some(x))))
    case Scan(i, j, th) =>
      if c.hazarded[t].Some? then Fault
      else if i >= |c.deferred[t]| then
        if th.Resume? && th.e.head.Null? && Lopsided(th.e) then Fault
        else Next(Goto(c, t, match th case Resume(k, a, e) => Loaded(n, k, a, e)
                                 case Return(x) => DeqDone(Some(x))))
      else if j >= n then Release(c, t, i, th)
      else if c.hazarded[j] == Some(c.deferred[t][i]) then Next(Goto(c, t, Scan(i + 1, 0, th)))
      else Next(Goto(c, t, Scan(i, j + 1, th)))
    case DeqDone(_) => Next(Goto(c, t, Idle))
    case _ => Fault
  }

  // Release the i-th deferred node: no thread was seen to protect it.
  function Release(c: Config, t: nat, i: nat, th: Then): Outcome
    requires Sized(c) && t < |c.pc| && i < |c.deferred[t]|
  {
    var d := c.deferred[t];
    if d[i] !in c.nodes then Fault
    else Next(Goto(c.(nodes := c.nodes - {d[i]}, deferred := c.deferred[t := d[..i] + d[i + 1..]]),
                   t, Scan(i, 0, th)))
  }

  function Step(cap: nat, c: Config, t: nat, ch: Choice): Outcome
    requires Sized(c) && Enabled(c, t, ch)
  {
    match ch
    case Enqueue(x, k) => Next(Goto(c, t, EnqRead(x, k)))
    case Dequeue(k) => Next(Goto(c, t, DeqRead(k, 0)))
    case Run(a) =>
      var pc := c.pc[t];
      if Enqueuing(pc) then EnqStep(cap, c, t, a) else DeqStep(cap, c, t)
  }

  predicate Enqueuing(pc: PC)
  {
    pc.EnqRead? || pc.EnqStart? || pc.EnqInstall? || pc.EnqCheck? || pc.EnqWrite?
    || pc.EnqChain? || pc.EnqSwing? || pc.EnqUndo? || pc.EnqFree? || pc.EnqDrop?
    || pc.EnqFinish? || pc.EnqDone?
  }

  /** Every queue empty and every thread idle. */
  predicate Initial(c: Config)
  {
    && Sized(c) && |c.pc| > 0 && c.nodes == map[]
    && forall t :: 0 <= t < |c.pc| ==>
         && c.ends[t] == EMPTY && c.chain[t] == [] && c.hazarded[t] == None
         && c.deferred[t] == [] && c.pc[t] == Idle
  }
}
