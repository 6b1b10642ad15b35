/** How the generated program uses its queues: the first thread fills all of them while
    it is alone, and from then on each thread puts states into its own. So nobody else
    is ever putting a state where a thread is about to, and all its calls end without
    the help of others. */
module QueueOwn {
  import opened Options
  import opened QueueMachine
  import opened QueueInvariant
  import opened QueueSafety
  import opened QueueFifo
  import opened QueueHazards
  import opened QueueReuse
  import opened QueueProgress

  // ----- where threads write -----

  predicate Writing(pc: PC)
  {
    pc.EnqWrite? || pc.EnqChain? || pc.EnqSwing? || pc.EnqUndo?
  }

  /** The node thread u writes into is in no other queue than the one it is to fill. */
  predicate Tied(c: Config, u: nat)
  {
    u < |c.pc| && Writing(c.pc[u]) ==>
      && c.pc[u].e.tail.At? && c.pc[u].e.tail.node in c.nodes
      && var s := c.nodes[c.pc[u].e.tail.node].status; s.Live? ==> s.queue == c.pc[u].k
  }

  // A thread that writes has just validated the tail, or was writing there before.
  predicate CameToWrite(c: Config, t: nat, c': Config)
    requires t < |c.pc| && t < |c'.pc| && Writing(c'.pc[t])
  {
    var pc, pc' := c.pc[t], c'.pc[t];
    || (pc.EnqCheck? && pc'.e == pc.e && pc'.k == pc.k && pc.k < |c.ends| && c.ends[pc.k] == pc.e && pc.e.tail.At? && c'.nodes == c.nodes)
    || (Writing(pc) && pc'.e == pc.e && pc'.k == pc.k)
  }

  lemma EnqComes(cap: nat, c: Config, t: nat, a: Addr, c': Config)
    requires Sized(c) && t < |c.pc| && EnqStep(cap, c, t, a) == Next(c') && t < |c'.pc| && Writing(c'.pc[t])
    ensures CameToWrite(c, t, c')
  {
    hide EnqStep, CameToWrite;
    if c.pc[t].EnqCheck? {
      CheckComes(cap, c, t, a, c');
    } else if c.pc[t].EnqWrite? || c.pc[t].EnqChain? {
      WriteComes(cap, c, t, a, c');
    } else if c.pc[t].EnqSwing? {
      SwingComes(cap, c, t, a, c');
    } else {
      NobodyElseComes(cap, c, t, a, c');
    }
  }

  lemma CheckComes(cap: nat, c: Config, t: nat, a: Addr, c': Config)
    requires Sized(c) && t < |c.pc| && c.pc[t].EnqCheck? && EnqStep(cap, c, t, a) == Next(c') && t < |c'.pc| && Writing(c'.pc[t])
    ensures CameToWrite(c, t, c')
  {
  }

  lemma WriteComes(cap: nat, c: Config, t: nat, a: Addr, c': Config)
    requires Sized(c) && t < |c.pc| && (c.pc[t].EnqWrite? || c.pc[t].EnqChain?)
    requires EnqStep(cap, c, t, a) == Next(c') && t < |c'.pc| && Writing(c'.pc[t])
    ensures CameToWrite(c, t, c')
  {
    hide SetCell, Allocate;
  }

  lemma SwingComes(cap: nat, c: Config, t: nat, a: Addr, c': Config)
    requires Sized(c) && t < |c.pc| && c.pc[t].EnqSwing? && EnqStep(cap, c, t, a) == Next(c') && t < |c'.pc| && Writing(c'.pc[t])
    ensures CameToWrite(c, t, c')
  {
    hide Append;
  }

  lemma NobodyElseComes(cap: nat, c: Config, t: nat, a: Addr, c': Config)
    requires Sized(c) && t < |c.pc| && !c.pc[t].EnqCheck? && !c.pc[t].EnqWrite? && !c.pc[t].EnqChain? && !c.pc[t].EnqSwing?
    requires EnqStep(cap, c, t, a) == Next(c') && t < |c'.pc|
    ensures !Writing(c'.pc[t])
  {
    hide SetCell, Allocate, Install;
  }

  lemma DeqWritesNot(cap: nat, c: Config, t: nat, c': Config)
    requires Inv(cap, c) && t < |c.pc| && !c.pc[t].Idle? && !Enqueuing(c.pc[t]) && DeqStep(cap, c, t) == Next(c')
    ensures t < |c'.pc| && !Writing(c'.pc[t]) && Into(c'.pc[t]).None?
  {
    hide Inv, DeqStep, RankDeq;
    DeqRanks(cap, c, t, c');
  }

  lemma StaysTied(cap: nat, c: Config, t: nat, ch: Choice, c': Config, u: nat)
    requires Inv(cap, c) && Inv(cap, c') && Enabled(c, t, ch) && Step(cap, c, t, ch) == Next(c')
    requires u < |c.pc| && u < |c'.pc| && Writing(c.pc[u]) && Writing(c'.pc[u]) && Tied(c, u)
    requires c'.pc[u].e == c.pc[u].e && c'.pc[u].k == c.pc[u].k
    ensures Tied(c', u)
  {
    hide Inv, Step;
    var a := c.pc[u].e.tail.node;
    GuardAllocated(cap, c, u, a);
    GuardAllocated(cap, c', u, a);
    StatusStep(cap, c, t, ch, c', a);
  }

  lemma TiedStep(cap: nat, c: Config, t: nat, ch: Choice, c': Config, u: nat)
    requires Inv(cap, c) && Inv(cap, c') && Enabled(c, t, ch) && Step(cap, c, t, ch) == Next(c') && Tied(c, u)
    ensures Tied(c', u)
  {
    hide NodesOk, QueueOk, ThreadOk, ScanSafe, Tied, EnqStep, DeqStep;
    StepOnlyThread(cap, c, t, ch, c');
    if u < |c'.pc| && Writing(c'.pc[u]) {
      if u != t {
        StaysTied(cap, c, t, ch, c', u);
      } else {
        if Enqueuing(c.pc[t]) { EnqComes(cap, c, t, ch.addr, c'); } else { DeqWritesNot(cap, c, t, c'); }
        if Writing(c.pc[t]) { StaysTied(cap, c, t, ch, c', u); } else { ValidatedTied(cap, c, t, c'); }
      }
    } else {
      assert Tied(c', u) by { NotWriting(c', u); }
    }
  }

  lemma NotWriting(c: Config, u: nat)
    requires !(u < |c.pc| && Writing(c.pc[u]))
    ensures Tied(c, u)
  {
  }

  lemma ValidatedTied(cap: nat, c: Config, t: nat, c': Config)
    requires Inv(cap, c) && t < |c.pc| && t < |c'.pc| && Writing(c'.pc[t]) && CameToWrite(c, t, c') && !Writing(c.pc[t])
    ensures Tied(c', t)
  {
    var k := c.pc[t].k;
    assert QueueOk(cap, c, k);
    hide NodesOk, ScanSafe, ThreadOk;
    assert Sized(c);
    hide Inv;
    var ch := c.chain[k];
    assert ChainOk(cap, c.nodes, k, ch) && ch != [];
  }

  // ----- nobody else puts anything there -----

  /** The queue a thread is in the middle of putting a state into. */
  function Into(pc: PC): Option<nat>
  {
    match pc
    case EnqFinish(_) => None
    case EnqDone => None
    case _ => if Enqueuing(pc) then Some(pc.k) else None
  }

  predicate Sole(c: Config, t: nat)
    requires t < |c.pc|
  {
    Into(c.pc[t]).Some? ==> forall u :: 0 <= u < |c.pc| && u != t ==> Into(c.pc[u]) != Into(c.pc[t])
  }

  /** If no other thread is putting a state into the same queue, none has an unconfirmed
      write past its tail. */
  lemma SoleIsFree(cap: nat, c: Config, t: nat)
    requires Inv(cap, c) && t < |c.pc| && Sole(c, t) && forall u :: 0 <= u < |c.pc| ==> Tied(c, u)
    ensures Free(c, t)
  {
    hide ScanSafe, NodeOk;
    if Into(c.pc[t]).Some? {
      assert ThreadOk(cap, c, t);
      var k := c.pc[t].k;
      assert QueueOk(cap, c, k);
      hide ThreadOk;
      if c.ends[k].tail.At? && c.ends[k].tail.node in c.nodes {
        var a := c.ends[k].tail.node;
        assert Owned(c, a);
        assert ChainOk(cap, c.nodes, k, c.chain[k]);
        var s := c.nodes[a].spec;
        if s.Some? && s.value != t {
          assert Tied(c, s.value) && SpecOf(c.pc[s.value]) == Some(a);
        }
      }
    }
  }

  // ----- whole runs -----

  /** Up to event l only the first thread does anything, and it is then between calls;
      from then on each thread puts states into the queue with its own number. */
  predicate AsGenerated(cs: seq<Config>, es: seq<Event>, l: nat)
    requires |cs| == |es| + 1 && l <= |es|
  {
    && (forall i :: 0 <= i < l ==> es[i].t == 0)
    && (l < |es| ==> |cs[l].pc| > 0 && cs[l].pc[0].Idle?)
    && (forall i :: l <= i < |es| && es[i].ch.Enqueue? ==> es[i].ch.k == es[i].t)
  }

  lemma {:induction false} RunTied(cap: nat, cs: seq<Config>, es: seq<Event>, n: nat, u: nat)
    requires IsRun(cap, cs, es) && cap > 0 && n <= |es|
    ensures Tied(cs[n], u)
  {
    hide Inv, Step, Tied;
    if n == 0 {
      StartsTied(cs[0], u);
    } else {
      RunTied(cap, cs, es, n - 1, u);
      RunSafe(cap, cs, es, n - 1);
      RunSafe(cap, cs, es, n);
      assert Takes(cap, cs[n - 1], es[n - 1], cs[n]);
      TiedStep(cap, cs[n - 1], es[n - 1].t, es[n - 1].ch, cs[n], u);
    }
  }

  lemma StartsTied(c: Config, u: nat)
    requires Initial(c)
    ensures Tied(c, u)
  {
  }

  // What a step does to the queue its thread is putting a state into.
  lemma IntoStep(cap: nat, c: Config, t: nat, ch: Choice, c': Config)
    requires Inv(cap, c) && Enabled(c, t, ch) && Step(cap, c, t, ch) == Next(c')
    ensures t < |c'.pc|
    ensures Into(c'.pc[t]) == (if ch.Enqueue? then Some(ch.k) else Into(c.pc[t])) || Into(c'.pc[t]).None?
  {
    hide NodesOk, QueueOk, ThreadOk, ScanSafe, EnqStep, DeqStep;
    StepOnlyThread(cap, c, t, ch, c');
    if ch.Run? {
      if Enqueuing(c.pc[t]) { EnqInto(cap, c, t, ch.addr, c'); } else { DeqWritesNot(cap, c, t, c'); }
    }
  }

  lemma EnqInto(cap: nat, c: Config, t: nat, a: Addr, c': Config)
    requires Sized(c) && t < |c.pc| && Enqueuing(c.pc[t]) && EnqStep(cap, c, t, a) == Next(c') && t < |c'.pc|
    ensures Into(c'.pc[t]) == Into(c.pc[t]) || Into(c'.pc[t]).None?
  {
    hide SetCell, Allocate, Install, Append;
  }

  // Before event l all other threads are idle; later on each keeps to its own queue.
  lemma {:induction false} RunInto(cap: nat, cs: seq<Config>, es: seq<Event>, l: nat, n: nat, u: nat)
    requires IsRun(cap, cs, es) && cap > 0 && l <= |es| && AsGenerated(cs, es, l) && n <= |es| && u < |cs[n].pc|
    ensures n <= l && u != 0 ==> cs[n].pc[u].Idle?
    ensures n >= l && l < |es| ==> Into(cs[n].pc[u]).None? || Into(cs[n].pc[u]) == Some(u)
  {
    hide Inv, Step;
    if n > 0 {
      var e := es[n - 1];
      assert Takes(cap, cs[n - 1], e, cs[n]);
      StepOnlyThread(cap, cs[n - 1], e.t, e.ch, cs[n]);
      RunInto(cap, cs, es, l, n - 1, u);
      if e.t == u { RunSafe(cap, cs, es, n - 1); IntoStep(cap, cs[n - 1], u, e.ch, cs[n]); }
    }
  }

  lemma RunSole(cap: nat, cs: seq<Config>, es: seq<Event>, l: nat, n: nat, t: nat)
    requires IsRun(cap, cs, es) && cap > 0 && l <= |es| && AsGenerated(cs, es, l) && n <= |es| && t < |cs[n].pc|
    ensures Sole(cs[n], t)
  {
    hide Initial, Takes, AsGenerated;
    RunInto(cap, cs, es, l, n, t);
    forall u | 0 <= u < |cs[n].pc| && u != t && Into(cs[n].pc[t]).Some? ensures Into(cs[n].pc[u]) != Into(cs[n].pc[t]) {
      RunInto(cap, cs, es, l, n, u);
    }
  }

  /** With the queues used as the generated program uses them, no call ever depends on
      another thread: at any moment of any run, a thread that alone makes steps from
      there on comes to the end of its call after at most `Rank` of them. */
  lemma OwnCallsEnd(cap: nat, cs: seq<Config>, es: seq<Event>, l: nat, t: nat, i: nat, j: nat)
    requires IsRun(cap, cs, es) && cap > 0 && l <= |es| && AsGenerated(cs, es, l)
    requires i <= j <= |es| && t < |cs[i].pc| && forall m :: i <= m < j ==> es[m].t == t && es[m].ch.Run?
    ensures Sized(cs[i]) && Sized(cs[j]) && t < |cs[j].pc|
    ensures Rank(cap, cs[j], t) + (j - i) <= Rank(cap, cs[i], t)
  {
    hide Initial, Takes, Inv, AsGenerated, Sole, Tied, Free, Rank;
    RunSafe(cap, cs, es, i);
    RunSole(cap, cs, es, l, i, t);
    forall u | 0 <= u < |cs[i].pc| ensures Tied(cs[i], u) { RunTied(cap, cs, es, i, u); }
    SoleIsFree(cap, cs[i], t);
    SoloEnds(cap, cs, es, t, i, j);
  }
}
