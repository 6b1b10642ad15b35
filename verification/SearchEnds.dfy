/** The parallel search comes to an end under every schedule, and then its verdict is
    right. */
module SearchEnds {
  import opened Options
  import opened Reachability
  import opened Exploration

  // ----- how much there is left to do at most -----

  /** A state in a queue stands for the steps of trying every rule instance on it, and
      of going round the queues afterwards. */
  function PerItem(sys: System, n: nat): nat
  {
    sys.rules + n + 2
  }

  function PerThread(sys: System, n: nat, pc: PC): nat
  {
    match pc
    case Waiting => 0
    case Seeking(_, a) => if a <= n then n - a + 1 else 1
    case Trying(_, _, r, _) => (if r < sys.rules then sys.rules - r else 0) + n + 2
    case Queueing(_, r, _, _) => (if r + 1 < sys.rules then sys.rules - r - 1 else 0) + n + 3 + PerItem(sys, n)
    case Exited => 0
  }

  function Threads(sys: System, n: nat, pcs: seq<PC>): nat
  {
    if pcs == [] then 0 else Threads(sys, n, pcs[..|pcs| - 1]) + PerThread(sys, n, pcs[|pcs| - 1])
  }

  function Items(queues: seq<seq<S>>): nat
  {
    if queues == [] then 0 else Items(queues[..|queues| - 1]) + |queues[|queues| - 1]|
  }

  function Times(a: nat, b: nat): nat
  {
    a * b
  }

  /** A bound on the steps to come: threads under way, states queued, states of the
      universe not seen yet, and threads not started. */
  ghost function Potential(sys: System, universe: set<S>, c: Config): nat
  {
    var n := |c.pc|;
    Threads(sys, n, c.pc)
    + Times(Items(c.queues), PerItem(sys, n))
    + Times(|universe - c.seen|, PerItem(sys, n) + 1)
    + if c.launched then 0 else Times(n, n + 1)
  }

  lemma TimesLess(a: nat, b: nat)
    requires a > 0
    ensures Times(a, b) == Times(a - 1, b) + b
  {
    assert a * b == (a - 1) * b + b;
  }

  lemma {:induction false} ThreadsUpdate(sys: System, n: nat, pcs: seq<PC>, t: nat, p: PC)
    requires t < |pcs|
    ensures Threads(sys, n, pcs[t := p]) + PerThread(sys, n, pcs[t]) == Threads(sys, n, pcs) + PerThread(sys, n, p)
  {
    hide PerThread;
    var l := |pcs| - 1;
    if t == l {
      assert pcs[t := p][..l] == pcs[..l];
    } else {
      ThreadsUpdate(sys, n, pcs[..l], t, p);
      assert pcs[t := p][..l] == pcs[..l][t := p];
    }
  }

  lemma {:induction false} ItemsUpdate(queues: seq<seq<S>>, k: nat, q: seq<S>)
    requires k < |queues|
    ensures Items(queues[k := q]) + |queues[k]| == Items(queues) + |q|
  {
    var l := |queues| - 1;
    if k == l {
      assert queues[k := q][..l] == queues[..l];
    } else {
      ItemsUpdate(queues[..l], k, q);
      assert queues[k := q][..l] == queues[..l][k := q];
    }
  }

  // ----- every step uses some of it up -----

  lemma StepUses(sys: System, limit: nat, universe: set<S>, c: Config, t: nat)
    requires Shape(sys, c) && Enabled(c, t) && DeadOk(sys, c.pc[t])
    requires Step(sys, limit, c, t).seen <= universe
    ensures Potential(sys, universe, Step(sys, limit, c, t)) < Potential(sys, universe, c)
  {
    hide Potential, DeadOk, Progress, Times, Threads, Items, PerThread;
    match c.pc[t] {
      case Seeking(_, _) => SeekUses(sys, limit, universe, c, t);
      case Trying(_, _, _, _) => TryUses(sys, limit, universe, c, t);
      case Queueing(_, _, _, _) => QueueUses(sys, limit, universe, c, t);
    }
  }

  lemma SeekUses(sys: System, limit: nat, universe: set<S>, c: Config, t: nat)
    requires Enabled(c, t) && c.pc[t].Seeking?
    ensures Potential(sys, universe, Step(sys, limit, c, t)) < Potential(sys, universe, c)
  {
    hide Threads, Items, Times;
    var c', n := Step(sys, limit, c, t), |c.pc|;
    ThreadsUpdate(sys, n, c.pc, t, c'.pc[t]);
    if c'.pc[t].Trying? {
      var k := Wrap(n, c.pc[t].q, c.pc[t].a);
      ItemsUpdate(c.queues, k, c.queues[k][1..]);
      TimesLess(Items(c.queues), PerItem(sys, n));
    }
  }

  lemma NewSeen(universe: set<S>, seen: set<S>, x: S)
    requires x in universe && x !in seen
    ensures |universe - seen| == |universe - (seen + {x})| + 1
  {
    assert universe - (seen + {x}) == (universe - seen) - {x};
  }

  lemma TryIs(sys: System, limit: nat, c: Config, t: nat)
    requires Enabled(c, t) && c.pc[t].Trying?
    ensures var c', pc := Step(sys, limit, c, t), c.pc[t];
            && c'.queues == c.queues && c'.launched == c.launched && c'.pc == c.pc[t := c'.pc[t]]
            && (c'.pc[t].Queueing? ==>
                  pc.r < sys.rules && c'.pc[t].r == pc.r && c'.pc[t].n !in c.seen && c'.seen == c.seen + {c'.pc[t].n})
            && (!c'.pc[t].Queueing? ==> c'.seen == c.seen && PerThread(sys, |c.pc|, c'.pc[t]) < PerThread(sys, |c.pc|, pc))
  {
    hide Progress;
  }

  lemma TryUses(sys: System, limit: nat, universe: set<S>, c: Config, t: nat)
    requires Enabled(c, t) && c.pc[t].Trying?
    requires Step(sys, limit, c, t).seen <= universe
    ensures Potential(sys, universe, Step(sys, limit, c, t)) < Potential(sys, universe, c)
  {
    hide Threads, Items, Times, Step;
    var c', n := Step(sys, limit, c, t), |c.pc|;
    TryIs(sys, limit, c, t);
    ThreadsUpdate(sys, n, c.pc, t, c'.pc[t]);
    if c'.pc[t].Queueing? {
      NewSeen(universe, c.seen, c'.pc[t].n);
      TimesLess(|universe - c.seen|, PerItem(sys, n) + 1);
    }
  }

  lemma QueueUses(sys: System, limit: nat, universe: set<S>, c: Config, t: nat)
    requires Enabled(c, t) && c.pc[t].Queueing? && DeadOk(sys, c.pc[t])
    ensures Potential(sys, universe, Step(sys, limit, c, t)) < Potential(sys, universe, c)
  {
    hide Threads, Items, Times, Progress;
    var c', n := Step(sys, limit, c, t), |c.pc|;
    ThreadsUpdate(sys, n, c.pc, t, c'.pc[t]);
    ItemsUpdate(c.queues, t, c.queues[t] + [c.pc[t].n]);
    TimesLess(Items(c'.queues), PerItem(sys, n));
  }

  lemma {:induction false} ThreadsStart(sys: System, n: nat, pcs: seq<PC>, qcs: seq<PC>)
    requires |pcs| == |qcs|
    requires forall t :: 0 <= t < |pcs| ==> qcs[t] == pcs[t] || (qcs[t].Seeking? && qcs[t].a == 0)
    ensures Threads(sys, n, qcs) <= Threads(sys, n, pcs) + Times(|pcs|, n + 1)
  {
    if pcs != [] {
      ThreadsStart(sys, n, pcs[..|pcs| - 1], qcs[..|pcs| - 1]);
      hide Times;
      TimesLess(|pcs|, n + 1);
    }
  }

  lemma LaunchUses(sys: System, universe: set<S>, c: Config)
    requires CanLaunch(c)
    ensures Potential(sys, universe, Launch(c)) < Potential(sys, universe, c)
  {
    hide PerThread, Items;
    var c', n := Launch(c), |c.pc|;
    var others, others' := c.pc[1..], c'.pc[1..];
    SplitFirst(sys, n, c.pc);
    SplitFirst(sys, n, c'.pc);
    ThreadsStart(sys, n, others, others');
    hide Threads, Times;
    TimesLess(n, n + 1);
  }

  lemma {:induction false} SplitFirst(sys: System, n: nat, pcs: seq<PC>)
    requires pcs != []
    ensures Threads(sys, n, pcs) == PerThread(sys, n, pcs[0]) + Threads(sys, n, pcs[1..])
  {
    hide PerThread;
    var l := |pcs| - 1;
    if l > 0 {
      SplitFirst(sys, n, pcs[..l]);
      assert pcs[..l][1..] == pcs[1..][..l - 1];
    } else {
      assert pcs[..0] == [] && pcs[1..] == [];
    }
  }

  // ----- whole runs -----

  /** Under every schedule the search makes at most as many steps as this: none goes on
      for ever. */
  lemma {:induction false} RunEnds(sys: System, limit: nat, n: nat, cs: seq<Config>, es: seq<Event>, universe: set<S>, i: nat)
    requires IsRun(sys, limit, n, cs, es) && i <= |es|
    requires forall s :: Reachable(sys, s) ==> s in universe
    ensures Potential(sys, universe, cs[i]) + i <= Potential(sys, universe, Initial(sys, n))
  {
    hide Potential, Reachable, Step, Launch, Enabled, CanLaunch, Initial;
    if i > 0 {
      RunEnds(sys, limit, n, cs, es, universe, i - 1);
      RunInv(sys, limit, n, cs, es, i - 1);
      RunInv(sys, limit, n, cs, es, i);
      assert Takes(sys, limit, cs[i - 1], es[i - 1], cs[i]);
      hide Shape, Complete, Working, EmptyOk;
      match es[i - 1] {
        case Thread(t) => EnabledDead(sys, cs[i - 1], t); StepUses(sys, limit, universe, cs[i - 1], t);
        case Start => LaunchUses(sys, universe, cs[i - 1]);
      }
    }
  }

  lemma EnabledDead(sys: System, c: Config, t: nat)
    requires Justified(sys, c) && Enabled(c, t)
    ensures t < |c.pc| && DeadOk(sys, c.pc[t])
  {
  }

  /** And when no thread can make a step any more, the search has gone through: it
      reports an error if and only if there is something wrong with the model. */
  lemma StuckIsVerdict(sys: System, limit: nat, n: nat, cs: seq<Config>, es: seq<Event>)
    requires IsRun(sys, limit, n, cs, es)
    requires forall t :: 0 <= t < |cs[|es|].pc| ==> !Enabled(cs[|es|], t)
    ensures cs[|es|].errors == 0 <==> !Faulty(sys)
  {
    hide Faulty, Initial;
    var c := cs[|es|];
    RunInv(sys, limit, n, cs, es, |es|);
    forall t | 0 <= t < |c.pc| ensures c.pc[t].Exited? || c.pc[t].Waiting? { assert !Enabled(c, t); }
    Verdict(sys, c);
  }
}
