/** What a thread needs of the others to finish a call. A dequeue needs nothing: run on
    its own, from any point, it ends. An enqueue ends as well unless another thread has
    an unconfirmed write past the tail; then it goes round for ever until that thread
    moves on. So the queues are lock-free as long as no two threads put states into the
    same one. */
module QueueProgress {
  import opened Options
  import opened QueueMachine
  import opened QueueInvariant
  import opened QueueSafety
  import opened QueueFifo

  // ----- a bound on the steps to come -----

  function Times(a: nat, b: nat): nat
  {
    a * b
  }

  lemma TimesMore(a: nat, b: nat)
    ensures Times(a + 1, b) == Times(a, b) + b
  {
  }

  lemma TimesMono(a: nat, b: nat, c: nat)
    requires a <= b
    ensures Times(a, c) <= Times(b, c)
  {
    assert b * c == a * c + (b - a) * c;
  }

  /** Going through a list of l nodes from its first, with n hazard pointers to look at. */
  function Pass(n: nat, l: nat): nat
  {
    Times(l, n + 1) + 1
  }

  // The same from node i and hazard pointer j on.
  function PassFrom(n: nat, l: nat, i: nat, j: nat): nat
  {
    if i < l && j <= n + 1 then Times(l - i - 1, n + 1) + (n + 1 - j) + 1 else 1
  }

  /** A pair that is what the ends of queue k are now. */
  predicate Current(c: Config, k: nat, e: Ends)
  {
    k < |c.ends| && c.ends[k] == e
  }

  // A dequeue will have to move on to the next node first.
  predicate AtEnd(cap: nat, e: Ends)
  {
    e.head.At? && e.head != e.tail && e.head.slot >= cap
  }

  /** From a current pair that need not be moved on; then from any current pair; then
      from an attempt with the ends still to be loaded, a queues having been found empty. */
  function TakeNow(n: nat, l: nat): nat
  {
    Pass(n, l + 1) + 7
  }

  function TakeSoon(n: nat, l: nat): nat
  {
    Pass(n, l + 1) + TakeNow(n, l + 1) + 6
  }

  function Attempt(n: nat, l: nat, a: nat): nat
  {
    TakeSoon(n, l) + 2 * (if a < n then n - a else 0)
  }

  /** With the pair e about to be used, and later steps to get there. */
  function From(cap: nat, c: Config, l: nat, k: nat, a: nat, e: Ends): nat
  {
    var n := |c.pc|;
    if !Current(c, k, e) then Attempt(n, l, a) + 3
    else if e.head.At? && !AtEnd(cap, e) then TakeNow(n, l)
    else Attempt(n, l, a)
  }

  function RankDeq(cap: nat, c: Config, l: nat, pc: PC): nat
  {
    var n := |c.pc|;
    match pc
    case DeqRead(_, a) => Attempt(n, l, a) + 1
    case DeqStart(k, a, e) => From(cap, c, l, k, a, e)
    case DeqCheck(k, a, e) => From(cap, c, l, k, a, e) - 1
    case DeqAct(k, a, e) => if Current(c, k, e) then From(cap, c, l, k, a, e) - 2 else Attempt(n, l, a) + 3
    case DeqHop(k, a, e, _) => if Current(c, k, e) then TakeSoon(n, l) - 3 else Attempt(n, l, a) + 2
    case DeqDrop(k, a, now, _) => From(cap, c, l, k, a, now) + 1
    case DeqUnhook(k, a, now, _) => Pass(n, l + 1) + From(cap, c, l + 1, k, a, now) + 1
    case DeqTake(_, _) => Pass(n, l + 1) + 3
    case DeqGot(_, _) => Pass(n, l + 1) + 2
    case Scan(i, j, th) =>
      PassFrom(n, l, i, j) + (match th case Resume(k, a, e) => From(cap, c, l, k, a, e) case Return(_) => 1)
    case DeqDone(_) => 1
    case _ => 0
  }

  function RankEnq(c: Config, pc: PC): nat
  {
    match pc
    case EnqRead(_, _) => 11
    case EnqStart(_, k, e) => if Current(c, k, e) then 10 else 30
    case EnqCheck(_, k, e) => if Current(c, k, e) then 9 else 29
    case EnqInstall(_, k, e, _) => if Current(c, k, e) then 8 else 29
    case EnqWrite(_, k, e) => if Current(c, k, e) then 8 else 40
    case EnqChain(_, k, e, _) => if Current(c, k, e) then 7 else 39
    case EnqSwing(_, k, e, _) => if Current(c, k, e) then 6 else 38
    case EnqUndo(_, k, _, _, now) => if Current(c, k, now) then 17 else 37
    case EnqFree(_, k, now, _, _) => if Current(c, k, now) then 16 else 36
    case EnqDrop(_, k, now, _) => if Current(c, k, now) then 15 else 35
    case EnqFinish(_) => 2
    case EnqDone => 1
    case _ => 0
  }

  /** How many steps thread t, on its own, takes at most to come to the end of its call. */
  function Rank(cap: nat, c: Config, t: nat): nat
    requires Sized(c) && t < |c.pc|
  {
    if Enqueuing(c.pc[t]) then RankEnq(c, c.pc[t]) else RankDeq(cap, c, |c.deferred[t]|, c.pc[t])
  }

  /** No other thread has an unconfirmed write past the tail of queue k. */
  predicate Unblocked(c: Config, t: nat, k: nat)
  {
    k < |c.ends| && c.ends[k].tail.At? && c.ends[k].tail.node in c.nodes ==>
      c.nodes[c.ends[k].tail.node].spec.None? || c.nodes[c.ends[k].tail.node].spec == Some(t)
  }

  // The queue an enqueue is about.
  predicate Free(c: Config, t: nat)
    requires t < |c.pc|
  {
    match c.pc[t]
    case EnqFinish(_) => true
    case EnqDone => true
    case _ => Enqueuing(c.pc[t]) ==> Unblocked(c, t, c.pc[t].k)
  }

  // ----- enqueueing -----

  // Where nobody else is writing, the slot past the tail is empty for a thread that
  // has not written there yet.
  lemma FreeSlot(cap: nat, c: Config, t: nat, k: nat)
    requires Inv(cap, c) && t < |c.pc| && k < |c.pc| && Unblocked(c, t, k) && SpecOf(c.pc[t]).None? && c.ends[k].tail.At?
    ensures CellAt(c, Succ(c.ends[k].tail)) && c.nodes[c.ends[k].tail.node].cells[c.ends[k].tail.slot + 1].Empty?
  {
    hide ScanSafe, ThreadOk, ChainOk;
    assert QueueOk(cap, c, k);
    var ch := c.chain[k];
    assert c.ends[k].tail.node in c.nodes by { assert ChainOk(cap, c.nodes, k, ch); ChainIn(cap, c.nodes, k, ch); }
    assert NodeOk(cap, c.nodes[c.ends[k].tail.node]) && Owned(c, c.ends[k].tail.node);
  }

  lemma ChainIn(cap: nat, nodes: map<Addr, Node>, k: nat, ch: seq<Addr>)
    requires ChainOk(cap, nodes, k, ch) && ch != []
    ensures ch[|ch| - 1] in nodes
  {
  }

  lemma EnqRanks(cap: nat, c: Config, t: nat, a: Addr, c': Config)
    requires Inv(cap, c) && t < |c.pc| && Enqueuing(c.pc[t]) && EnqStep(cap, c, t, a) == Next(c') && Free(c, t)
    ensures t < |c'.pc| && (c'.pc[t].Idle? || Enqueuing(c'.pc[t]))
    ensures c'.pc[t].Idle? || RankEnq(c', c'.pc[t]) < RankEnq(c, c.pc[t])
  {
    hide NodesOk, QueueOk, ScanSafe, DeferredOk, Unblocked;
    assert ThreadOk(cap, c, t);
    hide ThreadOk;
    match c.pc[t] {
      case EnqWrite(_, _, _) => EnqWriteRanks(cap, c, t, a, c');
      case EnqChain(_, _, _, _) => EnqWriteRanks(cap, c, t, a, c');
      case EnqSwing(_, _, _, _) => EnqLateRanks(cap, c, t, a, c');
      case EnqUndo(_, _, _, _, _) => EnqLateRanks(cap, c, t, a, c');
      case EnqFree(_, _, _, _, _) => EnqLateRanks(cap, c, t, a, c');
      case _ => EnqEarlyRanks(cap, c, t, a, c');
    }
  }

  lemma EnqWriteRanks(cap: nat, c: Config, t: nat, a: Addr, c': Config)
    requires Inv(cap, c) && t < |c.pc| && (c.pc[t].EnqWrite? || c.pc[t].EnqChain?) && EnqStep(cap, c, t, a) == Next(c') && Free(c, t)
    requires c.pc[t].k < |c.pc|
    ensures t < |c'.pc| && Enqueuing(c'.pc[t]) && RankEnq(c', c'.pc[t]) < RankEnq(c, c.pc[t])
  {
    hide Unblocked, Allocate, SetCell;
    if Current(c, c.pc[t].k, c.pc[t].e) && c.pc[t].e.tail.At? { FreeSlot(cap, c, t, c.pc[t].k); }
    hide Inv;
    WriteEnds(cap, c, t, a, c');
  }

  lemma WriteEnds(cap: nat, c: Config, t: nat, a: Addr, c': Config)
    requires Sized(c) && t < |c.pc| && (c.pc[t].EnqWrite? || c.pc[t].EnqChain?) && EnqStep(cap, c, t, a) == Next(c')
    ensures c'.ends == c.ends
  {
  }

  lemma EnqLateRanks(cap: nat, c: Config, t: nat, a: Addr, c': Config)
    requires Sized(c) && t < |c.pc| && (c.pc[t].EnqSwing? || c.pc[t].EnqUndo? || c.pc[t].EnqFree?)
    requires EnqStep(cap, c, t, a) == Next(c')
    ensures t < |c'.pc| && Enqueuing(c'.pc[t]) && RankEnq(c', c'.pc[t]) < RankEnq(c, c.pc[t])
  {
  }

  lemma EnqEarlyRanks(cap: nat, c: Config, t: nat, a: Addr, c': Config)
    requires Sized(c) && t < |c.pc| && Enqueuing(c.pc[t]) && EnqStep(cap, c, t, a) == Next(c')
    requires c.pc[t].EnqRead? || c.pc[t].EnqStart? || c.pc[t].EnqInstall? || c.pc[t].EnqCheck? || c.pc[t].EnqDrop? || c.pc[t].EnqFinish? || c.pc[t].EnqDone?
    ensures t < |c'.pc| && (c'.pc[t].Idle? || (Enqueuing(c'.pc[t]) && RankEnq(c', c'.pc[t]) < RankEnq(c, c.pc[t])))
  {
    hide FreshCells;
  }

  // ----- dequeueing -----

  lemma PassSteps(n: nat, l: nat, i: nat, j: nat)
    requires i < l && j <= n
    ensures j < n ==> PassFrom(n, l, i, j + 1) < PassFrom(n, l, i, j)
    ensures PassFrom(n, l, i + 1, 0) < PassFrom(n, l, i, j)
    ensures PassFrom(n, l - 1, i, 0) < PassFrom(n, l, i, j)
  {
    if i + 1 < l { TimesMore(l - i - 2, n + 1); }
  }

  lemma PassStart(n: nat, l: nat)
    ensures PassFrom(n, l, 0, 0) <= Pass(n, l)
  {
    if l > 0 { TimesMore(l - 1, n + 1); }
  }

  // With fewer nodes on the list there is less to do.
  lemma FromMono(cap: nat, c: Config, c': Config, l: nat, l': nat, k: nat, a: nat, e: Ends)
    requires l' <= l && c'.ends == c.ends && |c'.pc| == |c.pc|
    ensures From(cap, c', l', k, a, e) <= From(cap, c, l, k, a, e)
  {
    var n := |c.pc|;
    TimesMono(l' + 1, l + 1, n + 1);
    TimesMono(l' + 2, l + 2, n + 1);
  }

  lemma SoonAfterNow(n: nat, l: nat)
    ensures TakeNow(n, l) + 6 < TakeSoon(n, l)
  {
    hide Times;
    TimesMono(l + 1, l + 2, n + 1);
  }

  // A pair loaded is taken up, or the next queue is tried.
  lemma LoadedRanks(cap: nat, c: Config, l: nat, k: nat, a: nat, e: Ends)
    requires a < |c.pc|
    ensures RankDeq(cap, c, l, Loaded(|c.pc|, k, a, e)) <= From(cap, c, l, k, a, e)
  {
    hide Times, Pass, TakeSoon, TakeNow;
    SoonPositive(|c.pc|, l);
  }

  lemma SoonPositive(n: nat, l: nat)
    ensures TakeSoon(n, l) >= 6 && TakeNow(n, l) >= 7
  {
  }

  lemma DeqRanks(cap: nat, c: Config, t: nat, c': Config)
    requires Inv(cap, c) && t < |c.pc| && !c.pc[t].Idle? && !Enqueuing(c.pc[t]) && DeqStep(cap, c, t) == Next(c')
    ensures Sized(c') && t < |c'.pc| == |c.pc| && (c'.pc[t].Idle? || !Enqueuing(c'.pc[t]))
    ensures c'.pc[t].Idle? || RankDeq(cap, c', |c'.deferred[t]|, c'.pc[t]) < RankDeq(cap, c, |c.deferred[t]|, c.pc[t])
  {
    hide NodesOk, QueueOk, ScanSafe, DeferredOk;
    assert ThreadOk(cap, c, t);
    hide ThreadOk;
    match c.pc[t] {
      case Scan(_, _, _) => ScanRanks(cap, c, t, c');
      case DeqRead(_, _) => DeqEarlyRanks(cap, c, t, c');
      case DeqStart(_, _, _) => DeqEarlyRanks(cap, c, t, c');
      case DeqCheck(_, _, _) => DeqEarlyRanks(cap, c, t, c');
      case DeqDrop(_, _, _, _) => DeqEarlyRanks(cap, c, t, c');
      case DeqAct(_, _, _) => DeqActRanks(cap, c, t, c');
      case DeqHop(_, _, _, _) => DeqHopRanks(cap, c, t, c');
      case _ => DeqLateRanks(cap, c, t, c');
    }
  }

  lemma ScanRanks(cap: nat, c: Config, t: nat, c': Config)
    requires Sized(c) && t < |c.pc| && c.pc[t].Scan? && DeqStep(cap, c, t) == Next(c')
    requires LocalOk(cap, |c.pc|, c.nodes, c.deferred[t], t, c.pc[t])
    ensures Sized(c') && t < |c'.pc| == |c.pc| && !Enqueuing(c'.pc[t])
    ensures RankDeq(cap, c', |c'.deferred[t]|, c'.pc[t]) < RankDeq(cap, c, |c.deferred[t]|, c.pc[t])
  {
    hide Times, From, Attempt, Loaded;
    var i, j, th, l, l' := c.pc[t].i, c.pc[t].j, c.pc[t].then_, |c.deferred[t]|, |c'.deferred[t]|;
    if i < l { PassSteps(|c.pc|, l, i, j); }
    if th.Resume? {
      FromMono(cap, c, c', l, l', th.k, th.a, th.e);
      LoadedRanks(cap, c', l', th.k, th.a, th.e);
      LoadedIsDeq(|c.pc|, th.k, th.a, th.e);
    }
  }

  lemma LoadedIsDeq(n: nat, k: nat, a: nat, e: Ends)
    ensures !Enqueuing(Loaded(n, k, a, e)) && !Loaded(n, k, a, e).Idle? && !Loaded(n, k, a, e).Scan?
  {
  }

  lemma DeqEarlyRanks(cap: nat, c: Config, t: nat, c': Config)
    requires Sized(c) && t < |c.pc| && DeqStep(cap, c, t) == Next(c')
    requires c.pc[t].DeqRead? || c.pc[t].DeqStart? || c.pc[t].DeqCheck? || c.pc[t].DeqDrop?
    requires LocalOk(cap, |c.pc|, c.nodes, c.deferred[t], t, c.pc[t])
    ensures Sized(c') && t < |c'.pc| == |c.pc| && !Enqueuing(c'.pc[t])
    ensures RankDeq(cap, c', |c'.deferred[t]|, c'.pc[t]) < RankDeq(cap, c, |c.deferred[t]|, c.pc[t])
  {
    hide Times, Pass, TakeSoon, TakeNow, Loaded;
    var n, l, pc := |c.pc|, |c.deferred[t]|, c.pc[t];
    SoonAfterNow(n, l);
    SoonPositive(n, l);
    if pc.DeqRead? {
      LoadedRanks(cap, c', l, pc.k, pc.a, c.ends[pc.k]);
      LoadedIsDeq(n, pc.k, pc.a, c.ends[pc.k]);
    } else if pc.DeqDrop? {
      LoadedRanks(cap, c', l, pc.k, pc.a, pc.now);
      LoadedIsDeq(n, pc.k, pc.a, pc.now);
    }
  }

  lemma DeqActRanks(cap: nat, c: Config, t: nat, c': Config)
    requires Sized(c) && t < |c.pc| && DeqStep(cap, c, t) == Next(c') && c.pc[t].DeqAct?
    ensures Sized(c') && t < |c'.pc| == |c.pc| && !Enqueuing(c'.pc[t])
    ensures RankDeq(cap, c', |c'.deferred[t]|, c'.pc[t]) < RankDeq(cap, c, |c.deferred[t]|, c.pc[t])
  {
    hide Times, Pass, TakeSoon;
    SoonAfterNow(|c.pc|, |c.deferred[t]|);
    SoonPositive(|c.pc|, |c.deferred[t]|);
  }

  lemma DeqHopRanks(cap: nat, c: Config, t: nat, c': Config)
    requires Sized(c) && cap > 0 && t < |c.pc| && DeqStep(cap, c, t) == Next(c') && c.pc[t].DeqHop?
    ensures Sized(c') && t < |c'.pc| == |c.pc| && !Enqueuing(c'.pc[t])
    ensures RankDeq(cap, c', |c'.deferred[t]|, c'.pc[t]) < RankDeq(cap, c, |c.deferred[t]|, c.pc[t])
  {
    hide Times, Pass, TakeNow;
    SoonAfterNow(|c.pc|, |c.deferred[t]|);
    SoonPositive(|c.pc|, |c.deferred[t]|);
  }

  lemma DeqLateRanks(cap: nat, c: Config, t: nat, c': Config)
    requires Sized(c) && t < |c.pc| && DeqStep(cap, c, t) == Next(c')
    requires c.pc[t].DeqUnhook? || c.pc[t].DeqTake? || c.pc[t].DeqGot? || c.pc[t].DeqDone?
    ensures Sized(c') && t < |c'.pc| == |c.pc| && !Enqueuing(c'.pc[t])
    ensures c'.pc[t].Idle? || RankDeq(cap, c', |c'.deferred[t]|, c'.pc[t]) < RankDeq(cap, c, |c.deferred[t]|, c.pc[t])
  {
    hide Times, Pass, PassFrom, From;
    var l := |c.deferred[t]|;
    PassStart(|c.pc|, l + 1);
    PassPositive(|c.pc|, l + 1);
    if c.pc[t].DeqUnhook? { FromMono(cap, c, c', l + 1, l + 1, c.pc[t].k, c.pc[t].a, c.pc[t].now); }
  }

  lemma PassPositive(n: nat, l: nat)
    ensures Pass(n, l) >= 1
  {
  }

  // ----- running alone -----

  lemma StaysFree(cap: nat, c: Config, t: nat, a: Addr, c': Config)
    requires Inv(cap, c) && t < |c.pc| && Enqueuing(c.pc[t]) && a !in c.nodes && EnqStep(cap, c, t, a) == Next(c') && Free(c, t)
    ensures t < |c'.pc| && Free(c', t)
  {
    hide NodesOk, QueueOk, ScanSafe, ThreadOk, FreshCells;
    if c.pc[t].EnqWrite? || c.pc[t].EnqChain? || c.pc[t].EnqUndo? { StaysFreeWriting(cap, c, t, a, c'); }
    else { StaysFreeOther(cap, c, t, a, c'); }
  }

  lemma StaysFreeWriting(cap: nat, c: Config, t: nat, a: Addr, c': Config)
    requires Sized(c) && t < |c.pc| && (c.pc[t].EnqWrite? || c.pc[t].EnqChain? || c.pc[t].EnqUndo?)
    requires a !in c.nodes && EnqStep(cap, c, t, a) == Next(c') && Free(c, t)
    ensures t < |c'.pc| && Free(c', t)
  {
    hide FreshCells;
  }

  lemma StaysFreeOther(cap: nat, c: Config, t: nat, a: Addr, c': Config)
    requires Sized(c) && t < |c.pc| && Enqueuing(c.pc[t]) && !c.pc[t].EnqWrite? && !c.pc[t].EnqChain? && !c.pc[t].EnqUndo?
    requires a !in c.nodes && EnqStep(cap, c, t, a) == Next(c') && Free(c, t)
    ensures t < |c'.pc| && Free(c', t)
  {
    hide FreshCells;
  }

  /** Each step a thread makes by itself brings it nearer the end of its call. */
  lemma SoloStep(cap: nat, c: Config, t: nat, a: Addr)
    requires Inv(cap, c) && Enabled(c, t, Run(a)) && Free(c, t)
    ensures Step(cap, c, t, Run(a)).Next?
    ensures var c' := Step(cap, c, t, Run(a)).c;
            Inv(cap, c') && t < |c'.pc| && Free(c', t) && Rank(cap, c', t) < Rank(cap, c, t)
  {
    hide RankEnq, RankDeq, Unblocked, EnqStep, DeqStep;
    StepSafe(cap, c, t, Run(a));
    var c' := Step(cap, c, t, Run(a)).c;
    assert Sized(c) && Sized(c');
    if Enqueuing(c.pc[t]) {
      EnqRanks(cap, c, t, a, c');
      StaysFree(cap, c, t, a, c');
    } else {
      DeqRanks(cap, c, t, c');
    }
    hide Inv;
    if c'.pc[t].Idle? { LastRank(cap, c, t, a, c'); }
  }

  lemma LastRank(cap: nat, c: Config, t: nat, a: Addr, c': Config)
    requires Sized(c) && Enabled(c, t, Run(a)) && Step(cap, c, t, Run(a)) == Next(c') && t < |c'.pc| && c'.pc[t].Idle?
    ensures Sized(c') && Rank(cap, c', t) < Rank(cap, c, t)
  {
    hide SetCell, Allocate, Install, Append, Remove, Hop, Times;
    StepOnlyThread(cap, c, t, Run(a), c');
    if Enqueuing(c.pc[t]) { EnqReturns(cap, c, t, a, c'); } else { DeqReturns(cap, c, t, c'); }
  }

  lemma EnqReturns(cap: nat, c: Config, t: nat, a: Addr, c': Config)
    requires Sized(c) && t < |c.pc| && Enqueuing(c.pc[t]) && EnqStep(cap, c, t, a) == Next(c') && t < |c'.pc| && c'.pc[t].Idle?
    ensures c.pc[t].EnqDone?
  {
    hide SetCell, Allocate, Install, Append;
  }

  lemma DeqReturns(cap: nat, c: Config, t: nat, c': Config)
    requires Sized(c) && t < |c.pc| && DeqStep(cap, c, t) == Next(c') && t < |c'.pc| && c'.pc[t].Idle?
    ensures c.pc[t].DeqDone?
  {
    hide Remove, Hop;
  }

  /** A thread that alone makes steps, from any moment of any run, has come to the end
      of its call after at most `Rank` of them: a dequeuing thread always, an enqueuing
      one if no other has an unconfirmed write past the tail of the queue it is to fill. */
  lemma {:induction false} SoloEnds(cap: nat, cs: seq<Config>, es: seq<Event>, t: nat, i: nat, j: nat)
    requires IsRun(cap, cs, es) && cap > 0 && i <= j <= |es| && t < |cs[i].pc| && Free(cs[i], t)
    requires forall m :: i <= m < j ==> es[m].t == t && es[m].ch.Run?
    ensures Sized(cs[i]) && Sized(cs[j]) && t < |cs[j].pc| && Free(cs[j], t)
    ensures Rank(cap, cs[j], t) + (j - i) <= Rank(cap, cs[i], t)
    decreases j
  {
    hide Inv, Step, Rank, Free, Initial;
    RunSized(cap, cs, es, i);
    RunSized(cap, cs, es, j);
    if i < j {
      SoloEnds(cap, cs, es, t, i, j - 1);
      RunSafe(cap, cs, es, j - 1);
      assert Takes(cap, cs[j - 1], es[j - 1], cs[j]);
      SoloStep(cap, cs[j - 1], t, es[j - 1].ch.addr);
    }
  }

  // ----- being blocked -----

  // Somebody else's write is in the slot that thread t is to fill.
  lemma TakenSlot(cap: nat, c: Config, t: nat, k: nat)
    requires Inv(cap, c) && t < |c.pc| && k < |c.pc| && !Unblocked(c, t, k)
    ensures c.ends[k].tail.At? && CellAt(c, Succ(c.ends[k].tail)) && !c.nodes[c.ends[k].tail.node].cells[c.ends[k].tail.slot + 1].Empty?
  {
    hide ScanSafe, ThreadOk;
    assert QueueOk(cap, c, k);
    assert NodeOk(cap, c.nodes[c.ends[k].tail.node]);
  }

  predicate Steps(cap: nat, c: Config, t: nat, a: Addr, c': Config)
  {
    Sized(c) && Enabled(c, t, Run(a)) && Step(cap, c, t, Run(a)) == Next(c')
  }

  /** Blocked in this way, an enqueuing thread comes back to the very configuration it
      was in: by itself it never ends, however many steps it makes. */
  lemma BlockedCycles(cap: nat, c: Config, t: nat, a: Addr, b: Addr) returns (cs: seq<Config>)
    requires Inv(cap, c) && t < |c.pc| && c.pc[t].EnqWrite? && c.pc[t].k < |c.pc| && Current(c, c.pc[t].k, c.pc[t].e)
    requires !Unblocked(c, t, c.pc[t].k) && a !in c.nodes && b !in c.nodes && a != b
    ensures |cs| > 1 && cs[0] == c && cs[|cs| - 1] == c
    ensures forall i :: 0 <= i < |cs| - 1 ==> Steps(cap, cs[i], t, if i == 0 then a else b, cs[i + 1])
  {
    hide NodesOk, QueueOk, ScanSafe, DeferredOk, Unblocked;
    assert ThreadOk(cap, c, t);
    TakenSlot(cap, c, t, c.pc[t].k);
    hide Inv, ThreadOk;
    var x, k, e := c.pc[t].x, c.pc[t].k, c.pc[t].e;
    var g := e.tail.node;
    var dropping := Goto(c, t, EnqDrop(x, k, e, g));
    var starting := Goto(Hazard(c, t, None), t, EnqStart(x, k, e));
    var checking := Goto(c, t, EnqCheck(x, k, e));
    assert c.hazarded[t := None][t := Some(g)] == c.hazarded;
    assert c.pc[t := EnqDrop(x, k, e, g)][t := EnqStart(x, k, e)] == starting.pc;
    if e.tail.slot + 1 < cap {
      cs := [c, dropping, starting, checking, c];
      InNodeCycle(cap, c, t, a, b, dropping, starting, checking);
    } else {
      var chaining := Goto(Allocate(cap, c, t, a, x), t, EnqChain(x, k, e, a));
      var freeing := Goto(Allocate(cap, c, t, a, x), t, EnqFree(x, k, e, a, Some(g)));
      cs := [c, chaining, freeing, dropping, starting, checking, c];
      PastNodeCycle(cap, c, t, a, b, chaining, freeing, dropping);
      InNodeRest(cap, c, t, b, dropping, starting, checking);
    }
  }

  predicate AtWrite(cap: nat, c: Config, t: nat)
  {
    && Sized(c) && t < |c.pc| && c.pc[t].EnqWrite? && c.pc[t].k < |c.pc| && c.ends[c.pc[t].k] == c.pc[t].e
    && EndsOk(cap, c.pc[t].e) && c.pc[t].e.tail.At? && c.hazarded[t] == Some(c.pc[t].e.tail.node)
    && CellAt(c, Succ(c.pc[t].e.tail)) && !c.nodes[c.pc[t].e.tail.node].cells[c.pc[t].e.tail.slot + 1].Empty?
  }

  lemma InNodeRest(cap: nat, c: Config, t: nat, b: Addr, dropping: Config, starting: Config, checking: Config)
    requires AtWrite(cap, c, t) && b !in c.nodes
    requires var pc := c.pc[t];
             && dropping == Goto(c, t, EnqDrop(pc.x, pc.k, pc.e, pc.e.tail.node))
             && starting == Goto(Hazard(c, t, None), t, EnqStart(pc.x, pc.k, pc.e))
             && checking == Goto(c, t, EnqCheck(pc.x, pc.k, pc.e))
    ensures Steps(cap, dropping, t, b, starting) && Steps(cap, starting, t, b, checking) && Steps(cap, checking, t, b, c)
  {
    var pc := c.pc[t];
    assert c.pc[t := dropping.pc[t]][t := starting.pc[t]] == starting.pc;
    assert starting.pc[t := checking.pc[t]] == checking.pc && checking.pc[t := pc] == c.pc;
    assert starting.hazarded[t := Some(pc.e.tail.node)] == c.hazarded;
  }

  lemma InNodeCycle(cap: nat, c: Config, t: nat, a: Addr, b: Addr, dropping: Config, starting: Config, checking: Config)
    requires AtWrite(cap, c, t) && a !in c.nodes && b !in c.nodes && c.pc[t].e.tail.slot + 1 < cap
    requires var pc := c.pc[t];
             && dropping == Goto(c, t, EnqDrop(pc.x, pc.k, pc.e, pc.e.tail.node))
             && starting == Goto(Hazard(c, t, None), t, EnqStart(pc.x, pc.k, pc.e))
             && checking == Goto(c, t, EnqCheck(pc.x, pc.k, pc.e))
    ensures Steps(cap, c, t, a, dropping)
    ensures Steps(cap, dropping, t, b, starting) && Steps(cap, starting, t, b, checking) && Steps(cap, checking, t, b, c)
  {
    InNodeRest(cap, c, t, b, dropping, starting, checking);
  }

  // The node is full: a new one is made, cannot be chained, and is released again.
  lemma PastNodeCycle(cap: nat, c: Config, t: nat, a: Addr, b: Addr, chaining: Config, freeing: Config, dropping: Config)
    requires AtWrite(cap, c, t) && a !in c.nodes && b !in c.nodes && a != b && c.pc[t].e.tail.slot + 1 >= cap
    requires var pc := c.pc[t];
             && chaining == Goto(Allocate(cap, c, t, a, pc.x), t, EnqChain(pc.x, pc.k, pc.e, a))
             && freeing == Goto(Allocate(cap, c, t, a, pc.x), t, EnqFree(pc.x, pc.k, pc.e, a, Some(pc.e.tail.node)))
             && dropping == Goto(c, t, EnqDrop(pc.x, pc.k, pc.e, pc.e.tail.node))
    ensures Steps(cap, c, t, a, chaining) && Steps(cap, chaining, t, b, freeing) && Steps(cap, freeing, t, b, dropping)
  {
    hide FreshCells;
    assert chaining.pc[t := freeing.pc[t]] == freeing.pc && freeing.pc[t := dropping.pc[t]] == dropping.pc;
    assert freeing.nodes - {a} == c.nodes;
  }
}
