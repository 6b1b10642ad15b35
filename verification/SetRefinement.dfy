/** The seen-set machine refines a mathematical set with an atomic insert. */
module SetRefinement {
  import opened Options
  import opened SetMachine
  import opened SetTotals
  import opened SetInvariant
  import opened SetSafety

  /** A thread outside any insertion, in one that has yet to take effect, in one
      that has with the answer `r`, or done for good. */
  datatype Call = Outside | Underway(s: State) | Answered(r: bool) | Finished

  datatype Abs = Abs(elems: set<State>, calls: seq<Call>)

  function Become(a: Abs, t: nat, call: Call): Abs
    requires t < |a.calls|
  {
    a.(calls := a.calls[t := call])
  }

  /** The steps of the specification: an insertion answers true if and only if it
      is the one that adds its state. */
  predicate SetStep(a: Abs, a': Abs, t: nat)
  {
    && t < |a.calls|
    && match a.calls[t]
       case Outside =>
         || a' == a || a' == Become(a, t, Finished)
         || (|a'.calls| == |a.calls| && a'.calls[t].Underway? && a' == Become(a, t, a'.calls[t]))
       case Underway(s) =>
         || a' == a
         || (s !in a.elems && a' == Become(a.(elems := a.elems + {s}), t, Answered(true)))
         || (s in a.elems && a' == Become(a, t, Answered(false)))
       case Answered(_) => a' == a || a' == Become(a, t, Outside)
       case Finished => a' == a
  }

  function CallOf(pc: PC): Call
  {
    match pc
    case Dormant => Outside
    case Spawned => Outside
    case Idle => Outside
    case Count => Answered(true)
    case Done(r) => Answered(r)
    case Leave => Finished
    case OptOut => Finished
    case Gone => Finished
    case _ => Underway(pc.s)
  }

  ghost function Elements(tab: Table): set<State>
  {
    set s | s in Holds(tab)
  }

  ghost function Abstract(c: Config): Abs
  {
    Abs(Elements(c.content), seq(|c.pc|, t requires 0 <= t < |c.pc| => CallOf(c.pc[t])))
  }

  // A step seen only through thread t's call.
  lemma SameElements(c: Config, c': Config, t: nat)
    requires t < |c.pc| == |c'.pc| && Holds(c'.content) == Holds(c.content)
    requires forall u :: 0 <= u < |c.pc| && u != t ==> CallOf(c'.pc[u]) == CallOf(c.pc[u])
    ensures Abstract(c') == Become(Abstract(c), t, CallOf(c'.pc[t]))
  {
  }

  lemma ProbeSim(env: Env, c: Config, t: nat, c': Config)
    requires Inv(env, c) && t < |c.pc| && (c.pc[t].Probe? || c.pc[t].Claim?) && InsertStep(env, c, t) == Next(c')
    ensures SetStep(Abstract(c), Abstract(c'), t)
  {
    hide Home, Holds, Carried, Total, Placed, Unique, ProbeOk, SetStep, Abstract;
    assert ThreadOk(env, c, t);
    var s, k := c.pc[t].s, c.pc[t].k;
    var i := Wrap(|c.content|, Home(env, |c.content|, s), k);
    if c.pc[t].Claim? && Old(c)[i].Empty? { ClaimSim(env, c, t, i, c'); } else { SeekSim(env, c, t, c'); }
  }

  // The successful claim is the atomic insertion of a new state.
  lemma ClaimSim(env: Env, c: Config, t: nat, i: nat, c': Config)
    requires Inv(env, c) && t < |c.pc| && c.pc[t].Claim? && c.pc[t].k < |c.content| && InsertStep(env, c, t) == Next(c')
    requires i == Wrap(|c.content|, Home(env, |c.content|, c.pc[t].s), c.pc[t].k) && Old(c)[i].Empty?
    ensures SetStep(Abstract(c), Abstract(c'), t)
  {
    hide Home, Holds, Carried, Total, Placed, Unique, ProbeOk, ContentOk, MigrationOk, ChunksOk, CountsOk;
    assert ThreadOk(env, c, t);
    StoreStep(env, c, t, i, c');
    hide ThreadsOk;
    assert Elements(c'.content) == Elements(c.content) + {c.pc[t].s};
    assert Abstract(c') == Become(Abstract(c).(elems := Elements(c'.content)), t, Answered(true));
  }

  // Any other look at a slot adds nothing, and answers false only on finding the state.
  lemma SeekSim(env: Env, c: Config, t: nat, c': Config)
    requires Inv(env, c) && t < |c.pc| && (c.pc[t].Probe? || c.pc[t].Claim?) && InsertStep(env, c, t) == Next(c')
    requires var i := Wrap(|c.content|, Home(env, |c.content|, c.pc[t].s), c.pc[t].k);
             c.pc[t].k < |c.content| && c.pc[t].Claim? ==> i < |c.content| && !Old(c)[i].Empty?
    ensures SetStep(Abstract(c), Abstract(c'), t)
  {
    hide Home, Holds, Carried, Total, Placed, Unique, ProbeOk;
    assert ThreadOk(env, c, t);
    hide ThreadsOk, MigrationOk, ChunksOk, CountsOk;
    var s, k := c.pc[t].s, c.pc[t].k;
    if k < |c.content| {
      var i := Wrap(|c.content|, Home(env, |c.content|, s), k);
      if Old(c)[i].Full? { HoldsAt(c.content, i); }
    }
    SameElements(c, c', t);
  }

  // A step that leaves the table of elements alone, and only moves thread t.
  predicate Quiet(c: Config, c': Config, t: nat)
    requires t < |c.pc|
  {
    && c'.content == c.content && |c'.pc| == |c.pc|
    && (forall u :: 0 <= u < |c.pc| && u != t ==> c'.pc[u] == c.pc[u])
    && (CallOf(c'.pc[t]) == CallOf(c.pc[t]) || (CallOf(c.pc[t]).Answered? && CallOf(c'.pc[t]).Outside?))
  }

  lemma QuietSim(c: Config, c': Config, t: nat)
    requires t < |c.pc| && Quiet(c, c', t)
    ensures SetStep(Abstract(c), Abstract(c'), t)
  {
    hide Elements, CallOf;
    SameElements(c, c', t);
    assert Abstract(c).calls[t] == CallOf(c.pc[t]);
    if CallOf(c'.pc[t]) == CallOf(c.pc[t]) {
      assert Abstract(c').calls == Abstract(c).calls;
    }
  }

  lemma InsertQuiet(env: Env, c: Config, t: nat, c': Config)
    requires Sized(c) && t < |c.pc| && Inserting(c.pc[t]) && !c.pc[t].Probe? && !c.pc[t].Claim?
    requires InsertStep(env, c, t) == Next(c')
    ensures Quiet(c, c', t)
  {
  }

  lemma ExpandQuiet(c: Config, t: nat, a: nat, c': Config)
    requires Sized(c) && t < |c.pc| && ExpandStep(c, t, a) == Next(c')
    ensures Quiet(c, c', t)
  {
  }

  lemma MigrateQuiet(env: Env, c: Config, t: nat, c': Config)
    requires Sized(c) && t < |c.pc| && MigrateStep(env, c, t) == Next(c')
    ensures Quiet(c, c', t)
  {
    hide Home;
  }

  lemma MeetQuiet(c: Config, t: nat, c': Config)
    requires Sized(c) && t < |c.pc| && MeetStep(c, t) == Next(c') && !Leads(c, t)
    ensures Quiet(c, c', t)
  {
    hide Update;
  }

  lemma OtherQuiet(env: Env, c: Config, t: nat, a: nat, c': Config)
    requires Sized(c) && Enabled(c, t, Run(a)) && Step(env, c, t, Run(a)) == Next(c')
    requires !c.pc[t].Probe? && !c.pc[t].Claim? && !Leads(c, t)
    ensures Quiet(c, c', t)
  {
    hide InsertStep, ExpandStep, MigrateStep, MeetStep, Quiet;
    if Inserting(c.pc[t]) { InsertQuiet(env, c, t, c'); }
    else if Expanding(c.pc[t]) { ExpandQuiet(c, t, a, c'); }
    else if Migrating(c.pc[t]) { MigrateQuiet(env, c, t, c'); }
    else { MeetQuiet(c, t, c'); }
  }

  lemma LeadSim(env: Env, c: Config, t: nat, c': Config)
    requires Inv(env, c) && t < |c.pc| && Leads(c, t) && !LeadsAgain(c, t) && MeetStep(c, t) == Next(c')
    ensures SetStep(Abstract(c), Abstract(c'), t)
  {
    hide Home, Holds, Carried, Total, Placed, Unique, ProbeOk;
    LeadSafe(env, c, t);
    SameElements(c, c', t);
  }

  // A call, or the launch of the other threads.
  lemma CallSim(env: Env, c: Config, t: nat, ch: Choice, c': Config)
    requires Sized(c) && Enabled(c, t, ch) && !ch.Run? && Step(env, c, t, ch) == Next(c')
    ensures SetStep(Abstract(c), Abstract(c'), t)
  {
    hide Elements;
    SameElements(c, c', t);
    assert Abstract(c).calls[t] == CallOf(c.pc[t]);
    if ch.Launch? { assert Abstract(c').calls == Abstract(c).calls; }
  }

  /** Every step of the machine is a step of the specification. */
  lemma StepSim(env: Env, c: Config, t: nat, ch: Choice, c': Config)
    requires Inv(env, c) && Enabled(c, t, ch) && Step(env, c, t, ch) == Next(c')
    ensures SetStep(Abstract(c), Abstract(c'), t)
  {
    hide TablesOk, ContentOk, MigrationOk, ChunksOk, CountsOk, ThreadsOk, SetStep, Abstract, Quiet;
    hide InsertStep, ExpandStep, MigrateStep, MeetStep;
    if ch.Run? {
      if c.pc[t].Probe? || c.pc[t].Claim? {
        ProbeSim(env, c, t, c');
      } else if Leads(c, t) {
        StepSafe(env, c, t, ch);
        LeadSim(env, c, t, c');
      } else {
        OtherQuiet(env, c, t, ch.a, c');
        QuietSim(c, c', t);
      }
    } else {
      CallSim(env, c, t, ch, c');
    }
  }

  // ----- whole runs -----

  datatype Event = Event(t: nat, ch: Choice)

  predicate Takes(env: Env, c: Config, e: Event, c': Config)
  {
    Sized(c) && Enabled(c, e.t, e.ch) && Step(env, c, e.t, e.ch) == Next(c')
  }

  /** What the machine passes through when the events `es` happen, whichever
      threads they schedule, up to a fault if there is one. */
  predicate IsRun(env: Env, cs: seq<Config>, es: seq<Event>)
  {
    && |cs| == |es| + 1 && Initial(env, cs[0])
    && forall i :: 0 <= i < |es| ==> Takes(env, cs[i], es[i], cs[i + 1])
  }

  /** Whatever the schedule: the invariant holds throughout, and what can go wrong
      next is only a thread leading a rendezvous again. */
  lemma {:induction false} RunSafe(env: Env, cs: seq<Config>, es: seq<Event>, i: nat)
    requires IsRun(env, cs, es) && i < |cs|
    ensures Inv(env, cs[i])
    ensures forall t, ch :: Enabled(cs[i], t, ch) ==> (Step(env, cs[i], t, ch).Fault? <==> ch.Run? && LeadsAgain(cs[i], t))
  {
    if i == 0 {
      InitialSafe(env, cs[0]);
    } else {
      RunSafe(env, cs, es, i - 1);
      assert Takes(env, cs[i - 1], es[i - 1], cs[i]);
      StepSafe(env, cs[i - 1], es[i - 1].t, es[i - 1].ch);
    }
    forall t, ch | Enabled(cs[i], t, ch)
      ensures Step(env, cs[i], t, ch).Fault? <==> ch.Run? && LeadsAgain(cs[i], t)
    {
      StepSafe(env, cs[i], t, ch);
    }
  }

  /** How often, in the first n steps, an insertion of s took effect with answer true. */
  function Wins(cs: seq<Config>, es: seq<Event>, s: State, n: nat): nat
    requires n < |cs| && n <= |es|
  {
    if n == 0 then 0
    else
      var c, c', t := cs[n - 1], cs[n], es[n - 1].t;
      Wins(cs, es, s, n - 1)
      + if t < |c.pc| && t < |c'.pc| && CallOf(c.pc[t]) == Underway(s) && CallOf(c'.pc[t]) == Answered(true) then 1 else 0
  }

  /** Over every run, exactly one insertion of each state that is in the set was
      answered true, and none of any other state. */
  lemma {:induction false} RunWinsOnce(env: Env, cs: seq<Config>, es: seq<Event>, s: State, n: nat)
    requires IsRun(env, cs, es) && n <= |es|
    ensures Wins(cs, es, s, n) == if s in Elements(cs[n].content) then 1 else 0
  {
    hide Inv, Step, SetStep, Abstract, CallOf;
    if n == 0 {
      InitialSafe(env, cs[0]);
    } else {
      RunWinsOnce(env, cs, es, s, n - 1);
      RunSafe(env, cs, es, n - 1);
      assert Takes(env, cs[n - 1], es[n - 1], cs[n]);
      StepSim(env, cs[n - 1], es[n - 1].t, es[n - 1].ch, cs[n]);
      WinsStep(cs[n - 1], es[n - 1].t, cs[n], s);
    }
  }

  lemma WinsStep(c: Config, t: nat, c': Config, s: State)
    requires SetStep(Abstract(c), Abstract(c'), t)
    ensures t < |c.pc| == |c'.pc|
    ensures CallOf(c.pc[t]) == Underway(s) && CallOf(c'.pc[t]) == Answered(true)
            ==> s !in Elements(c.content) && s in Elements(c'.content)
    ensures !(CallOf(c.pc[t]) == Underway(s) && CallOf(c'.pc[t]) == Answered(true))
            ==> (s in Elements(c'.content) <==> s in Elements(c.content))
  {
    var a, a' := Abstract(c), Abstract(c');
    assert a.calls[t] == CallOf(c.pc[t]);
    assert a'.calls[t] == CallOf(c'.pc[t]);
  }

  /** An insertion that is answered false is one of a state already in the set. */
  lemma FalseMeansPresent(env: Env, c: Config, t: nat, ch: Choice, c': Config)
    requires Inv(env, c) && Enabled(c, t, ch) && Step(env, c, t, ch) == Next(c')
    requires t < |c'.pc| && CallOf(c.pc[t]).Underway? && CallOf(c'.pc[t]) == Answered(false)
    ensures CallOf(c.pc[t]).s in Elements(c.content) && Elements(c'.content) == Elements(c.content)
  {
    hide Inv, Holds;
    StepSim(env, c, t, ch, c');
    var a, a' := Abstract(c), Abstract(c');
    assert a.calls[t] == CallOf(c.pc[t]) && a'.calls[t] == CallOf(c'.pc[t]);
  }

  // ----- what threads were asked to insert -----

  /** A thread that is told to insert s sets out to insert s, and nothing else changes. */
  lemma InsertBegins(env: Env, c: Config, t: nat, s: State, c': Config)
    requires Sized(c) && Enabled(c, t, Insert(s)) && Step(env, c, t, Insert(s)) == Next(c')
    ensures Abstract(c') == Become(Abstract(c), t, Underway(s))
  {
    hide Elements;
    SameElements(c, c', t);
  }

  /** The state that t was last told to insert, by the first n events. */
  function Asked(es: seq<Event>, t: nat, n: nat): Option<State>
    requires n <= |es|
  {
    if n == 0 then None
    else if es[n - 1].t == t && es[n - 1].ch.Insert? then Some(es[n - 1].ch.s)
    else Asked(es, t, n - 1)
  }

  // One step of one thread, and what the other threads are at.
  lemma StepCalls(env: Env, c: Config, t: nat, ch: Choice, c': Config, u: nat)
    requires Inv(env, c) && Enabled(c, t, ch) && Step(env, c, t, ch) == Next(c') && u < |c.pc|
    ensures u < |c'.pc|
    ensures u != t ==> CallOf(c'.pc[u]) == CallOf(c.pc[u])
    ensures u == t && ch.Insert? ==> CallOf(c'.pc[u]) == Underway(ch.s)
    ensures u == t && !ch.Insert? && CallOf(c'.pc[u]).Underway? ==> CallOf(c'.pc[u]) == CallOf(c.pc[u])
  {
    hide Step, CallOf, Elements;
    assert Sized(c);
    hide Inv;
    StepSim(env, c, t, ch, c');
    var a, a' := Abstract(c), Abstract(c');
    assert |a'.calls| == |a.calls|;
    assert a.calls[u] == CallOf(c.pc[u]) && a'.calls[u] == CallOf(c'.pc[u]);
    assert a.calls[t] == CallOf(c.pc[t]) && a'.calls[t] == CallOf(c'.pc[t]);
    if ch.Insert? { InsertIs(env, c, t, ch, c'); }
    else if CallOf(c.pc[t]).Outside? { OutsideStays(env, c, t, ch, c'); }
  }

  lemma InsertIs(env: Env, c: Config, t: nat, ch: Choice, c': Config)
    requires Sized(c) && Enabled(c, t, ch) && ch.Insert? && Step(env, c, t, ch) == Next(c')
    ensures CallOf(c'.pc[t]) == Underway(ch.s)
  {
  }

  // Nobody sets out to insert anything without being told.
  lemma OutsideStays(env: Env, c: Config, t: nat, ch: Choice, c': Config)
    requires Enabled(c, t, ch) && !ch.Insert? && CallOf(c.pc[t]).Outside?
    requires Sized(c) && Step(env, c, t, ch) == Next(c') && t < |c'.pc|
    ensures !CallOf(c'.pc[t]).Underway?
  {
    hide InsertStep, ExpandStep, MigrateStep;
  }

  /** Over every run, what a thread is inserting is what it was last told to insert. */
  lemma {:induction false} RunAsked(env: Env, cs: seq<Config>, es: seq<Event>, t: nat, n: nat)
    requires IsRun(env, cs, es) && n <= |es| && t < |cs[0].pc|
    ensures t < |cs[n].pc| && (CallOf(cs[n].pc[t]).Underway? ==> Asked(es, t, n) == Some(CallOf(cs[n].pc[t]).s))
  {
    hide Inv, Step, CallOf;
    if n == 0 {
      StartsOutside(env, cs[0], t);
    } else {
      RunAsked(env, cs, es, t, n - 1);
      RunSafe(env, cs, es, n - 1);
      assert Takes(env, cs[n - 1], es[n - 1], cs[n]);
      StepCalls(env, cs[n - 1], es[n - 1].t, es[n - 1].ch, cs[n], t);
    }
  }

  lemma StartsOutside(env: Env, c: Config, t: nat)
    requires Initial(env, c) && t < |c.pc|
    ensures CallOf(c.pc[t]).Outside?
  {
  }

  /** Over every run, an insertion is answered true if and only if the state that its
      thread was told to insert was not in the set, and then it is. */
  lemma RunAnswers(env: Env, cs: seq<Config>, es: seq<Event>, i: nat)
    requires IsRun(env, cs, es) && i < |es|
    requires var t := es[i].t;
             t < |cs[0].pc| && t < |cs[i].pc| && t < |cs[i + 1].pc| && CallOf(cs[i].pc[t]).Underway? && CallOf(cs[i + 1].pc[t]).Answered?
    ensures var s := Asked(es, es[i].t, i);
            && s.Some? && (CallOf(cs[i + 1].pc[es[i].t]).r <==> s.value !in Elements(cs[i].content))
            && Elements(cs[i + 1].content) == Elements(cs[i].content) + {s.value}
  {
    hide Inv, Step, CallOf, Elements;
    var t := es[i].t;
    RunAsked(env, cs, es, t, i);
    RunSafe(env, cs, es, i);
    assert Takes(env, cs[i], es[i], cs[i + 1]);
    StepSim(env, cs[i], t, es[i].ch, cs[i + 1]);
    var a, a' := Abstract(cs[i]), Abstract(cs[i + 1]);
    assert a.calls[t] == CallOf(cs[i].pc[t]) && a'.calls[t] == CallOf(cs[i + 1].pc[t]);
  }
}
