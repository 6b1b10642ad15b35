/** What the calls of the queues do is what was asked of them: a state goes into the
    queue named, once; a dequeue goes round the queues from the one named, and comes
    back with nothing only if it has found each of them empty. */
module QueueCalls {
  import opened Options
  import opened QueueMachine
  import opened QueueInvariant
  import opened QueueSafety
  import opened QueueFifo

  /** The queue b places after queue k, going round. */
  function Round(n: nat, k: nat, b: nat): nat
  {
    if k + b < n then k + b else k + b - n
  }

  // ----- single steps -----

  /** How a call moves on when its thread takes a step. */
  predicate Proceeds(n: nat, call: Call, call': Call)
  {
    || call' == call
    || (call.Putting? && call'.Put?)
    || (call.Taking? && call' == SkipEmpty(n, call.k, call.a))
    || (call.Taking? && call'.Taken? && call'.r.Some?)
    || ((call.Put? || call.Taken?) && call'.Outside?)
  }

  /** A thread told to put x into queue k sets out to do that, and one told to take a
      state sets out at the queue named; a call that is under way moves on; and no
      call of another thread changes. */
  lemma CallStep(cap: nat, c: Config, t: nat, ch: Choice, c': Config, u: nat)
    requires Inv(cap, c) && Enabled(c, t, ch) && Step(cap, c, t, ch) == Next(c') && u < |c.pc|
    ensures Sized(c') && |c'.pc| == |c.pc|
    ensures u != t ==> CallOf(|c.pc|, c'.pc[u]) == CallOf(|c.pc|, c.pc[u])
    ensures ch.Enqueue? ==> CallOf(|c.pc|, c'.pc[t]) == Putting(ch.x, ch.k)
    ensures ch.Dequeue? ==> CallOf(|c.pc|, c'.pc[t]) == Taking(ch.k, 0)
    ensures ch.Run? ==> Proceeds(|c.pc|, CallOf(|c.pc|, c.pc[t]), CallOf(|c.pc|, c'.pc[t]))
  {
    hide EnqStep, DeqStep, Content;
    assert Sized(c);
    hide Inv;
    StepOnlyThread(cap, c, t, ch, c');
    StepSim(cap, c, t, ch, c');
    var f, f' := Abstract(cap, c), Abstract(cap, c');
    assert f.calls[t] == CallOf(|c.pc|, c.pc[t]) && f'.calls[t] == CallOf(|c.pc|, c'.pc[t]);
    if ch.Run? { NotOutside(|c.pc|, c.pc[t]); }
  }

  lemma NotOutside(n: nat, pc: PC)
    requires !pc.Idle?
    ensures !CallOf(n, pc).Outside?
  {
  }

  // ----- whole runs -----

  /** What thread t was last asked to do by the first n events, and how many of the
      events had happened when it was. */
  function Asked(es: seq<Event>, t: nat, n: nat): Option<Choice>
    requires n <= |es|
  {
    if n == 0 then None
    else if es[n - 1].t == t && !es[n - 1].ch.Run? then Some(es[n - 1].ch)
    else Asked(es, t, n - 1)
  }

  function Since(es: seq<Event>, t: nat, n: nat): (b: nat)
    requires n <= |es|
    ensures b <= n
  {
    if n == 0 then 0
    else if es[n - 1].t == t && !es[n - 1].ch.Run? then n
    else Since(es, t, n - 1)
  }

  function CallAt(cs: seq<Config>, t: nat, n: nat): Call
    requires n < |cs|
  {
    if t < |cs[n].pc| then CallOf(|cs[n].pc|, cs[n].pc[t]) else Outside
  }

  predicate TakesEffect(cs: seq<Config>, t: nat, i: nat)
    requires i + 1 < |cs|
  {
    || (CallAt(cs, t, i).Putting? && CallAt(cs, t, i + 1).Put?)
    || (CallAt(cs, t, i).Taking? && CallAt(cs, t, i + 1).Taken?)
  }

  /** How often the present, or last, call of thread t has taken effect by the first n events. */
  function Effects(cs: seq<Config>, es: seq<Event>, t: nat, n: nat): nat
    requires n <= |es| < |cs|
  {
    if n == 0 then 0
    else if es[n - 1].t == t && !es[n - 1].ch.Run? then 0
    else Effects(cs, es, t, n - 1) + if TakesEffect(cs, t, n - 1) then 1 else 0
  }

  /** A call under way is the one last asked for, as far along as it can be without
      having taken effect; one that has taken effect has done so once. */
  predicate CallOk(n: nat, call: Call, asked: Option<Choice>, effects: nat)
  {
    match call
    case Outside => asked.None? || effects == 1
    case Putting(x, k) => asked == Some(Enqueue(x, k)) && effects == 0
    case Put => asked.Some? && asked.value.Enqueue? && effects == 1
    case Taking(k, a) =>
      asked.Some? && asked.value.Dequeue? && asked.value.k < n && a < n && k == Round(n, asked.value.k, a) && effects == 0
    case Taken(_) => asked.Some? && asked.value.Dequeue? && asked.value.k < n && effects == 1
  }

  /** Queue k was found empty at some moment from configuration b to configuration n. */
  predicate FoundEmpty(cap: nat, cs: seq<Config>, k: nat, b: nat, n: nat)
    requires n < |cs|
  {
    exists m :: b <= m <= n && EmptyAt(cap, cs[m], k)
  }

  predicate EmptyAt(cap: nat, c: Config, k: nat)
  {
    k < |c.ends| && k < |c.chain| && Content(cap, c, k) == []
  }

  // How many queues, going round from the one named, a dequeue has found empty.
  function Tried(n: nat, call: Call): nat
  {
    match call
    case Taking(_, a) => a
    case Taken(r) => if r.None? then n else 0
    case _ => 0
  }

  predicate TriedEmpty(cap: nat, cs: seq<Config>, es: seq<Event>, t: nat, n: nat)
    requires n <= |es| < |cs|
  {
    Asked(es, t, n).Some? && Asked(es, t, n).value.Dequeue? ==>
      forall b :: 0 <= b < Tried(|cs[n].pc|, CallAt(cs, t, n)) ==>
        FoundEmpty(cap, cs, Round(|cs[n].pc|, Asked(es, t, n).value.k, b), Since(es, t, n), n)
  }

  lemma NextRound(n: nat, k: nat, a: nat)
    requires k < n && a + 1 < n
    ensures Round(n, k, a) < n
    ensures Round(n, k, a + 1) == if Round(n, k, a) + 1 < n then Round(n, k, a) + 1 else 0
  {
  }

  // Going round n queues from any of them comes to each.
  lemma RoundAll(n: nat, k: nat, j: nat) returns (b: nat)
    requires k < n && j < n
    ensures b < n && Round(n, k, b) == j
  {
    b := if j >= k then j - k else j + n - k;
  }

  lemma CallOkStep(n: nat, call: Call, call': Call, asked: Option<Choice>, effects: nat)
    requires CallOk(n, call, asked, effects) && !call.Outside? && Proceeds(n, call, call')
    ensures CallOk(n, call', asked,
              effects + if (call.Putting? && call'.Put?) || (call.Taking? && call'.Taken?) then 1 else 0)
  {
    if call.Taking? && call.a + 1 < n { NextRound(n, asked.value.k, call.a); }
  }

  /** Over every run: each call is the one asked for, and takes effect exactly once
      before it returns. */
  lemma {:induction false} RunCalls(cap: nat, cs: seq<Config>, es: seq<Event>, t: nat, n: nat)
    requires IsRun(cap, cs, es) && cap > 0 && n <= |es| && t < |cs[0].pc|
    ensures t < |cs[n].pc| == |cs[0].pc|
    ensures CallOk(|cs[n].pc|, CallAt(cs, t, n), Asked(es, t, n), Effects(cs, es, t, n))
  {
    hide Inv, Step, CallOk, CallOf, Proceeds;
    if n == 0 {
      assert CallAt(cs, t, 0) == Outside by { StartsOutside(cs[0], t); }
      assert CallOk(|cs[0].pc|, Outside, None, 0) by { NothingAsked(|cs[0].pc|); }
    } else {
      RunCalls(cap, cs, es, t, n - 1);
      RunSafe(cap, cs, es, n - 1);
      var e := es[n - 1];
      assert Takes(cap, cs[n - 1], e, cs[n]);
      CallStep(cap, cs[n - 1], e.t, e.ch, cs[n], t);
      if e.t != t {
        NoEffect(CallAt(cs, t, n));
      } else if e.ch.Run? {
        NotOutside(|cs[n - 1].pc|, cs[n - 1].pc[t]);
        CallOkStep(|cs[n].pc|, CallAt(cs, t, n - 1), CallAt(cs, t, n), Asked(es, t, n - 1), Effects(cs, es, t, n - 1));
      } else {
        BeginsOk(|cs[n].pc|, e.ch, CallAt(cs, t, n));
      }
    }
  }

  lemma StartsOutside(c: Config, t: nat)
    requires Initial(c) && t < |c.pc|
    ensures CallOf(|c.pc|, c.pc[t]) == Outside
  {
  }

  lemma NothingAsked(n: nat)
    ensures CallOk(n, Outside, None, 0)
  {
  }

  lemma NoEffect(call: Call)
    ensures !(call.Putting? && call.Put?) && !(call.Taking? && call.Taken?)
  {
  }

  lemma BeginsOk(n: nat, ch: Choice, call: Call)
    requires (ch.Enqueue? && ch.k < n && call == Putting(ch.x, ch.k)) || (ch.Dequeue? && ch.k < n && call == Taking(ch.k, 0))
    ensures CallOk(n, call, Some(ch), 0)
  {
  }

  /** Over every run, the queues a dequeue has passed over were each empty at some
      moment since it was asked for. */
  lemma {:induction false} RunTried(cap: nat, cs: seq<Config>, es: seq<Event>, t: nat, n: nat)
    requires IsRun(cap, cs, es) && cap > 0 && n <= |es| && t < |cs[0].pc|
    ensures TriedEmpty(cap, cs, es, t, n)
  {
    hide Inv, Step, CallOf, Content;
    RunCalls(cap, cs, es, t, n);
    if n > 0 {
      RunTried(cap, cs, es, t, n - 1);
      RunCalls(cap, cs, es, t, n - 1);
      RunSafe(cap, cs, es, n - 1);
      assert Takes(cap, cs[n - 1], es[n - 1], cs[n]);
      CallStep(cap, cs[n - 1], es[n - 1].t, es[n - 1].ch, cs[n], t);
      if Asked(es, t, n).Some? && Asked(es, t, n).value.Dequeue? && !(es[n - 1].t == t && !es[n - 1].ch.Run?) {
        TriedStep(cap, cs, es, t, n);
      }
    }
  }

  lemma TriedStep(cap: nat, cs: seq<Config>, es: seq<Event>, t: nat, n: nat)
    requires 0 < n <= |es| < |cs| && Takes(cap, cs[n - 1], es[n - 1], cs[n]) && Inv(cap, cs[n - 1])
    requires t < |cs[n].pc| == |cs[n - 1].pc|
    requires Asked(es, t, n).Some? && Asked(es, t, n).value.Dequeue? && !(es[n - 1].t == t && !es[n - 1].ch.Run?)
    requires CallOk(|cs[n - 1].pc|, CallAt(cs, t, n - 1), Asked(es, t, n - 1), Effects(cs, es, t, n - 1))
    requires es[n - 1].t != t ==> CallAt(cs, t, n) == CallAt(cs, t, n - 1)
    requires es[n - 1].t == t ==> Proceeds(|cs[n].pc|, CallAt(cs, t, n - 1), CallAt(cs, t, n))
    requires TriedEmpty(cap, cs, es, t, n - 1)
    ensures TriedEmpty(cap, cs, es, t, n)
  {
    hide Inv, Step, CallOf, Content;
    var N, k0, from := |cs[n].pc|, Asked(es, t, n).value.k, Since(es, t, n);
    var call, call' := CallAt(cs, t, n - 1), CallAt(cs, t, n);
    forall b | 0 <= b < Tried(N, call') ensures FoundEmpty(cap, cs, Round(N, k0, b), from, n) {
      if b < Tried(N, call) {
        var m :| from <= m <= n - 1 && EmptyAt(cap, cs[m], Round(N, k0, b));
        assert from <= m <= n && EmptyAt(cap, cs[m], Round(N, k0, b));
      } else {
        SkippedEmpty(cap, cs[n - 1], t, es[n - 1].ch, cs[n]);
        assert EmptyAt(cap, cs[n - 1], Round(N, k0, b));
      }
    }
  }

  // A dequeue that moves on without a state has found its queue empty.
  lemma SkippedEmpty(cap: nat, c: Config, t: nat, ch: Choice, c': Config)
    requires Inv(cap, c) && Enabled(c, t, ch) && Step(cap, c, t, ch) == Next(c')
    requires CallOf(|c.pc|, c.pc[t]).Taking? && t < |c'.pc| == |c.pc|
    requires Tried(|c.pc|, CallOf(|c.pc|, c'.pc[t])) > CallOf(|c.pc|, c.pc[t]).a
    requires CallOf(|c.pc|, c.pc[t]).a < |c.pc|
    ensures EmptyAt(cap, c, CallOf(|c.pc|, c.pc[t]).k)
  {
    hide Step, CallOf, Content;
    assert Sized(c);
    hide Inv;
    StepSim(cap, c, t, ch, c');
    var f, f' := Abstract(cap, c), Abstract(cap, c');
    assert f.calls[t] == CallOf(|c.pc|, c.pc[t]) && f'.calls[t] == CallOf(|c.pc|, c'.pc[t]);
  }

  // ----- what a call does when it takes effect -----

  // No queue but k changes; none at all if k is no queue.
  predicate OthersKept(cap: nat, c: Config, c': Config, k: nat)
  {
    && |c'.pc| == |c.pc| && Sized(c) && Sized(c')
    && forall j :: 0 <= j < |c.pc| && j != k ==> Content(cap, c', j) == Content(cap, c, j)
  }

  /** Over every run, an enqueue takes effect by putting the state its thread was last
      asked to put at the back of the queue it was asked to put it into. */
  lemma PutAsAsked(cap: nat, cs: seq<Config>, es: seq<Event>, i: nat)
    requires IsRun(cap, cs, es) && cap > 0 && i < |es| && es[i].t < |cs[0].pc|
    requires CallAt(cs, es[i].t, i).Putting? && CallAt(cs, es[i].t, i + 1).Put?
    ensures var a := Asked(es, es[i].t, i);
            && a.Some? && a.value.Enqueue? && a.value.k < |cs[i].pc| && OthersKept(cap, cs[i], cs[i + 1], a.value.k)
            && Content(cap, cs[i + 1], a.value.k) == Content(cap, cs[i], a.value.k) + [a.value.x]
  {
    hide Inv, Step, CallOf, Content;
    var t := es[i].t;
    RunCalls(cap, cs, es, t, i);
    RunSized(cap, cs, es, i);
    RunSized(cap, cs, es, i + 1);
    RunSafe(cap, cs, es, i);
    assert Takes(cap, cs[i], es[i], cs[i + 1]);
    StepSim(cap, cs[i], t, es[i].ch, cs[i + 1]);
    EffectIs(cap, cs[i], cs[i + 1], t);
  }

  // A step of the specification, seen in the contents of the queues.
  lemma EffectIs(cap: nat, c: Config, c': Config, t: nat)
    requires Sized(c) && Sized(c') && |c'.pc| == |c.pc| && t < |c.pc| && FifoStep(Abstract(cap, c), Abstract(cap, c'), t)
    ensures var call, call' := CallOf(|c.pc|, c.pc[t]), CallOf(|c.pc|, c'.pc[t]);
            && (call.Putting? && call'.Put? ==>
                  call.k < |c.pc| && OthersKept(cap, c, c', call.k) && Content(cap, c', call.k) == Content(cap, c, call.k) + [call.x])
            && (call.Taking? && call'.Taken? && call'.r.Some? ==>
                  call.k < |c.pc| && OthersKept(cap, c, c', call.k) && Content(cap, c, call.k) == [call'.r.value] + Content(cap, c', call.k))
            && (call.Taking? && call'.Taken? && call'.r.None? ==> OthersKept(cap, c, c', |c.pc|))
  {
    hide Content, CallOf;
    var f, f' := Abstract(cap, c), Abstract(cap, c');
    assert f.calls[t] == CallOf(|c.pc|, c.pc[t]) && f'.calls[t] == CallOf(|c.pc|, c'.pc[t]);
    assert |f'.queues| == |c.pc| && |f.queues| == |c.pc|;
    forall j | 0 <= j < |c.pc| ensures f.queues[j] == Content(cap, c, j) && f'.queues[j] == Content(cap, c', j) {}
  }

  /** Over every run, a dequeue takes effect either by taking the state at the front of
      a queue, having found those before it empty, going round from the queue it was
      asked to begin at; or, with nothing, having found every queue empty since it was
      asked. */
  lemma TakeAsAsked(cap: nat, cs: seq<Config>, es: seq<Event>, i: nat)
    requires IsRun(cap, cs, es) && cap > 0 && i < |es| && es[i].t < |cs[0].pc|
    requires CallAt(cs, es[i].t, i).Taking? && CallAt(cs, es[i].t, i + 1).Taken?
    ensures var a, r, k, b := Asked(es, es[i].t, i), CallAt(cs, es[i].t, i + 1).r, CallAt(cs, es[i].t, i).k, CallAt(cs, es[i].t, i).a;
            && a.Some? && a.value.Dequeue? && b < |cs[i].pc| && k == Round(|cs[i].pc|, a.value.k, b) && k < |cs[i].pc|
            && (forall j :: 0 <= j < b ==> FoundEmpty(cap, cs, Round(|cs[i].pc|, a.value.k, j), Since(es, es[i].t, i), i))
            && (r.Some? ==> OthersKept(cap, cs[i], cs[i + 1], k) && Content(cap, cs[i], k) == [r.value] + Content(cap, cs[i + 1], k))
            && (r.None? ==> OthersKept(cap, cs[i], cs[i + 1], |cs[i].pc|)
                            && forall j :: 0 <= j < |cs[i].pc| ==> FoundEmpty(cap, cs, j, Since(es, es[i].t, i), i))
  {
    hide Inv, Step, CallOf, Content;
    var t, n := es[i].t, |cs[i].pc|;
    RunCalls(cap, cs, es, t, i);
    RunTried(cap, cs, es, t, i);
    RunSized(cap, cs, es, i);
    RunSized(cap, cs, es, i + 1);
    RunSafe(cap, cs, es, i);
    assert Takes(cap, cs[i], es[i], cs[i + 1]);
    StepSim(cap, cs[i], t, es[i].ch, cs[i + 1]);
    EffectIs(cap, cs[i], cs[i + 1], t);
    var k0, from := Asked(es, t, i).value.k, Since(es, t, i);
    if CallAt(cs, t, i + 1).r.None? {
      SkippedEmpty(cap, cs[i], t, es[i].ch, cs[i + 1]);
      CallStep(cap, cs[i], t, es[i].ch, cs[i + 1], t);
      forall j | 0 <= j < n ensures FoundEmpty(cap, cs, j, from, i) {
        var b := RoundAll(n, k0, j);
        if b == CallAt(cs, t, i).a { assert EmptyAt(cap, cs[i], j); }
      }
    }
  }
}
