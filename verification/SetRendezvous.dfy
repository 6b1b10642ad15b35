/** The barrier at the end of a migration: what its counters count, that nobody is
    left waiting at it, and that the table is replaced once each time. */
module SetRendezvous {
  import opened Options
  import opened SetMachine
  import opened SetTotals
  import opened SetInvariant
  import opened SetSafety
  import opened SetRefinement

  function Waits(pc: PC): nat
  {
    if pc.Wait? then 1 else 0
  }

  lemma {:induction false} TotalSplit(pcs: seq<PC>)
    ensures Total(pcs, OptedIn) == Total(pcs, Active) + Total(pcs, Waits)
  {
    if pcs != [] { TotalSplit(pcs[..|pcs| - 1]); }
  }

  /** The tokens left are those of the threads taking part that are not waiting. */
  lemma PendingIs(env: Env, c: Config)
    requires Inv(env, c)
    ensures c.running == c.pending + Total(c.pc, Waits)
  {
    hide Holds, Carried, Total, TablesOk, ContentOk, MigrationOk, ChunksOk, ThreadsOk;
    TotalSplit(c.pc);
  }

  /** While a thread waits, the token of some thread that does not is outstanding. */
  predicate NotStranded(c: Config)
  {
    (exists t :: 0 <= t < |c.pc| && c.pc[t].Wait?) ==> c.pending > 0
  }

  lemma {:induction false} SomeActive(pcs: seq<PC>) returns (u: nat)
    requires Total(pcs, Active) > 0
    ensures u < |pcs| && Active(pcs[u]) == 1
  {
    var n := |pcs| - 1;
    if Active(pcs[n]) == 1 { u := n; } else { u := SomeActive(pcs[..n]); }
  }

  /** A thread that waits is never alone: another has yet to arrive, or to opt out. */
  lemma WaitsForSomeone(env: Env, c: Config, t: nat) returns (u: nat)
    requires Inv(env, c) && NotStranded(c) && t < |c.pc| && c.pc[t].Wait?
    ensures u < |c.pc| && u != t && Active(c.pc[u]) == 1
  {
    hide Holds, Carried, Total, TablesOk, ContentOk, MigrationOk, ChunksOk, ThreadsOk;
    u := SomeActive(c.pc);
  }

  // Steps that leave the barrier alone.
  predicate Apart(c: Config, c': Config)
  {
    c'.pending == c.pending && |c'.pc| == |c.pc| && forall t :: 0 <= t < |c.pc| && c'.pc[t].Wait? ==> c.pc[t].Wait?
  }

  lemma OtherApart(env: Env, c: Config, t: nat, a: nat, c': Config)
    requires Sized(c) && t < |c.pc| && !c.pc[t].Arrive? && !c.pc[t].OptOut? && !c.pc[t].Wait?
    requires Enabled(c, t, Run(a)) && Step(env, c, t, Run(a)) == Next(c')
    ensures Apart(c, c')
  {
    hide InsertStep, ExpandStep, MigrateStep, MeetStep;
    if Inserting(c.pc[t]) { InsertApart(env, c, t, c'); }
    else if Expanding(c.pc[t]) { ExpandApart(c, t, a, c'); }
    else if Migrating(c.pc[t]) { MigrateApart(env, c, t, c'); }
    else { MeetApart(c, t, c'); }
  }

  lemma InsertApart(env: Env, c: Config, t: nat, c': Config)
    requires Sized(c) && t < |c.pc| && InsertStep(env, c, t) == Next(c')
    ensures Apart(c, c')
  {
    hide Home;
  }

  lemma ExpandApart(c: Config, t: nat, a: nat, c': Config)
    requires Sized(c) && t < |c.pc| && ExpandStep(c, t, a) == Next(c')
    ensures Apart(c, c')
  {
  }

  lemma MigrateApart(env: Env, c: Config, t: nat, c': Config)
    requires Sized(c) && t < |c.pc| && MigrateStep(env, c, t) == Next(c')
    ensures Apart(c, c')
  {
    hide Home;
  }

  lemma MeetApart(c: Config, t: nat, c': Config)
    requires Sized(c) && t < |c.pc| && !c.pc[t].Arrive? && !c.pc[t].OptOut? && MeetStep(c, t) == Next(c')
    ensures Apart(c, c')
  {
    hide Depart;
  }

  // After the leader's departure nobody waits.
  lemma DepartWakes(c: Config, mine: nat, c': Config)
    requires Depart(c, mine) == Next(c')
    ensures forall t :: 0 <= t < |c'.pc| ==> !c'.pc[t].Wait?
  {
  }

  lemma BarrierStep(env: Env, c: Config, t: nat, c': Config)
    requires Inv(env, c) && t < |c.pc| && (c.pc[t].Arrive? || c.pc[t].OptOut?) && MeetStep(c, t) == Next(c')
    ensures NotStranded(c')
  {
    hide Holds, Carried, Total, TablesOk, ContentOk, MigrationOk, ChunksOk, ThreadsOk, Depart;
    var c1 := c.(pending := c.pending - 1);
    if c.pc[t].Arrive? && c1.pending == 0 {
      DepartWakes(Goto(c1, t, Woken(c.pc[t].s, c.pc[t].n)), c.local[t], c');
    } else if c.pc[t].OptOut? && c1.pending == 0 && c.running > 1 {
      DepartWakes(c1, c.local[t], c');
    } else if c.pc[t].OptOut? && c1.pending == 0 {
      AloneOptedIn(c, t);
    }
  }

  lemma AloneOptedIn(c: Config, t: nat)
    requires CountsOk(c) && t < |c.pc| && c.running == 1 && OptedIn(c.pc[t]) == 1
    ensures forall u :: 0 <= u < |c.pc| && u != t ==> !c.pc[u].Wait?
  {
    hide Holds, Total;
    TotalBounds(c.pc, OptedIn, t);
    forall u | 0 <= u < |c.pc| && u != t ensures !c.pc[u].Wait? {
      assert OptedIn(c.pc[t]) + OptedIn(c.pc[u]) <= Total(c.pc, OptedIn);
    }
  }

  /** Neither arriving nor opting out strands a thread that waits. */
  lemma StepNotStranded(env: Env, c: Config, t: nat, ch: Choice, c': Config)
    requires Inv(env, c) && NotStranded(c) && Enabled(c, t, ch) && Step(env, c, t, ch) == Next(c')
    ensures NotStranded(c')
  {
    hide TablesOk, ContentOk, MigrationOk, ChunksOk, CountsOk, ThreadsOk, InsertStep, ExpandStep, MigrateStep, MeetStep;
    if ch.Run? {
      if c.pc[t].Arrive? || c.pc[t].OptOut? { BarrierStep(env, c, t, c'); }
      else if c.pc[t].Wait? { WaitBlocks(c, t); }
      else { OtherApart(env, c, t, ch.a, c'); }
    }
  }

  lemma WaitBlocks(c: Config, t: nat)
    requires Sized(c) && t < |c.pc| && c.pc[t].Wait?
    ensures MeetStep(c, t) == Blocked
  {
  }

  /** So in no run is a thread left at the barrier with nobody to come. */
  lemma {:induction false} RunNotStranded(env: Env, cs: seq<Config>, es: seq<Event>, i: nat)
    requires IsRun(env, cs, es) && i < |cs|
    ensures NotStranded(cs[i])
  {
    hide Inv, Step, NotStranded;
    if i == 0 {
      StartNotStranded(env, cs[0]);
    } else {
      RunSafe(env, cs, es, i - 1);
      RunNotStranded(env, cs, es, i - 1);
      assert Takes(env, cs[i - 1], es[i - 1], cs[i]);
      StepNotStranded(env, cs[i - 1], es[i - 1].t, es[i - 1].ch, cs[i]);
    }
  }

  lemma StartNotStranded(env: Env, c: Config)
    requires Initial(env, c)
    ensures NotStranded(c)
  {
  }

  // ----- the action runs once each round -----

  /** The event is the step of a leader: it executes the action, gives the tokens
      back and wakes those who wait. */
  predicate Acts(c: Config, e: Event)
  {
    Sized(c) && e.ch.Run? && e.t < |c.pc| && Leads(c, e.t)
  }

  // A step that is not: whoever waits goes on waiting, no token comes back, and the
  // current table stays the current one.
  predicate Calm(c: Config, c': Config, t: nat)
    requires t < |c.pc|
  {
    && |c'.pc| == |c.pc| && (forall u :: 0 <= u < |c.pc| && c.pc[u].Wait? ==> c'.pc[u] == c.pc[u])
    && c'.pending <= c.pending && c'.global.ptr == c.global.ptr
    && (if c.pc[t].Publish? then c'.next.ptr.Some? else c'.next.ptr == c.next.ptr)
  }

  lemma InsertCalm(env: Env, c: Config, t: nat, c': Config)
    requires Sized(c) && t < |c.pc| && InsertStep(env, c, t) == Next(c')
    ensures Calm(c, c', t)
  {
    hide Home, Store, Found;
    assert Inserting(c.pc[t]);
    if c.pc[t].Claim? { StoreCalm(env, c, t, c'); }
  }

  lemma StoreCalm(env: Env, c: Config, t: nat, c': Config)
    requires Sized(c) && t < |c.pc| && c.pc[t].Claim? && InsertStep(env, c, t) == Next(c')
    ensures Calm(c, c', t)
  {
    hide Home, Found;
  }

  lemma ExpandCalm(c: Config, t: nat, a: nat, c': Config)
    requires Sized(c) && t < |c.pc| && ExpandStep(c, t, a) == Next(c')
    ensures Calm(c, c', t)
  {
    hide Blank;
  }

  lemma MigrateCalm(env: Env, c: Config, t: nat, c': Config)
    requires Sized(c) && t < |c.pc| && MigrateStep(env, c, t) == Next(c')
    ensures Calm(c, c', t)
  {
    hide Home;
  }

  lemma MeetCalm(c: Config, t: nat, c': Config)
    requires Sized(c) && t < |c.pc| && MeetStep(c, t) == Next(c') && !Leads(c, t)
    ensures Calm(c, c', t)
  {
    hide Depart;
  }

  lemma CalmStep(env: Env, c: Config, e: Event, c': Config)
    requires Takes(env, c, e, c') && !Acts(c, e) && !e.ch.Launch?
    ensures Calm(c, c', e.t)
  {
    hide InsertStep, ExpandStep, MigrateStep, MeetStep;
    if e.ch.Run? {
      hide Calm;
      if Inserting(c.pc[e.t]) { InsertCalm(env, c, e.t, c'); }
      else if Expanding(c.pc[e.t]) { ExpandCalm(c, e.t, e.ch.a, c'); }
      else if Migrating(c.pc[e.t]) { MigrateCalm(env, c, e.t, c'); }
      else { MeetCalm(c, e.t, c'); }
    }
  }

  // What the leader's step does, and who waits for it.
  lemma ActStep(env: Env, c: Config, e: Event, c': Config)
    requires Inv(env, c) && Takes(env, c, e, c') && Acts(c, e)
    ensures c.next.ptr.Some? && Shifted(c, c', e.t)
    ensures forall u :: 0 <= u < |c.pc| && u != e.t ==> c.pc[u].Wait? || c.pc[u].Gone? || c.pc[u].Dormant?
  {
    hide TablesOk, ContentOk, MigrationOk, ChunksOk, CountsOk, ThreadsOk, Shifted, MeetStep;
    StepSafe(env, c, e.t, e.ch);
    LeadSafe(env, c, e.t);
    OthersWait(c, e.t);
  }

  /** The tokens come back, once the secondary threads run, only at a leader's step,
      and then all of them do. */
  lemma TokensReset(env: Env, c: Config, e: Event, c': Config)
    requires Inv(env, c) && Takes(env, c, e, c') && !e.ch.Launch?
    ensures Acts(c, e) ==> c'.pending == c'.running
    ensures c'.pending > c.pending ==> Acts(c, e)
  {
    hide Inv, Step, Leads;
    if Acts(c, e) { ActStep(env, c, e, c'); } else { CalmStep(env, c, e, c'); }
  }

  // One step of a thread's wait.
  lemma WaitStep(env: Env, c: Config, e: Event, c': Config, t: nat)
    requires Inv(env, c) && Takes(env, c, e, c') && t < |c.pc| && c.pc[t].Wait?
    ensures |c'.pc| == |c.pc| && (c'.pc[t].Wait? <==> !Acts(c, e))
    ensures Acts(c, e) ==> t != e.t && c'.global.ptr == Some(c.pc[t].n) && c'.pc[t] == Woken(c.pc[t].s, c.pc[t].n)
  {
    hide Leads, Step;
    if Acts(c, e) {
      ActStep(env, c, e, c');
      assert ThreadOk(env, c, t);
      hide Inv;
      ActorMoves(c, e);
    } else if e.ch.Launch? {
      LaunchFinds(c, e.t, t);
    } else {
      hide Inv;
      CalmStep(env, c, e, c');
    }
  }

  lemma ActorMoves(c: Config, e: Event)
    requires Acts(c, e)
    ensures !c.pc[e.t].Wait?
  {
  }

  lemma LaunchFinds(c: Config, u: nat, t: nat)
    requires Enabled(c, u, Launch) && t < |c.pc|
    ensures !c.pc[t].Wait?
  {
  }

  /** While a thread waits nobody executes the action; the step at which it stops
      waiting is a leader's, taken when all others have arrived or left, and by then
      the table it was waiting for is the current one. So in each round exactly one
      thread executes the action, exactly once. */
  lemma OncePerRound(env: Env, cs: seq<Config>, es: seq<Event>, t: nat, a: nat, b: nat)
    requires IsRun(env, cs, es) && a < b < |cs|
    requires forall m :: a <= m < b ==> t < |cs[m].pc| && cs[m].pc[t].Wait?
    ensures forall m :: a <= m < b - 1 ==> !Acts(cs[m], es[m])
    ensures t < |cs[b].pc| && (Acts(cs[b - 1], es[b - 1]) <==> !cs[b].pc[t].Wait?)
    ensures !cs[b].pc[t].Wait? ==> cs[b].global.ptr == Some(cs[b - 1].pc[t].n) && cs[b].pc[t].Woken?
  {
    hide Inv, Initial, Step, Acts;
    forall m | a <= m < b - 1 ensures !Acts(cs[m], es[m]) { WaitRun(env, cs, es, t, m); }
    WaitRun(env, cs, es, t, b - 1);
  }

  lemma WaitRun(env: Env, cs: seq<Config>, es: seq<Event>, t: nat, m: nat)
    requires IsRun(env, cs, es) && m < |es| && t < |cs[m].pc| && cs[m].pc[t].Wait?
    ensures t < |cs[m + 1].pc| && (Acts(cs[m], es[m]) <==> !cs[m + 1].pc[t].Wait?)
    ensures Acts(cs[m], es[m]) ==> cs[m + 1].global.ptr == Some(cs[m].pc[t].n) && cs[m + 1].pc[t].Woken?
  {
    hide Inv, Initial, Step, Acts;
    RunSafe(env, cs, es, m);
    assert Takes(env, cs[m], es[m], cs[m + 1]);
    WaitStep(env, cs[m], es[m], cs[m + 1], t);
  }

  /** How many of the first n events execute the action, and publish a new table. */
  function Actions(cs: seq<Config>, es: seq<Event>, n: nat): nat
    requires n <= |es| && n < |cs|
  {
    if n == 0 then 0
    else Actions(cs, es, n - 1) + if Acts(cs[n - 1], es[n - 1]) then 1 else 0
  }

  function Published(cs: seq<Config>, es: seq<Event>, n: nat): nat
    requires n <= |es| && n < |cs|
  {
    if n == 0 then 0
    else Published(cs, es, n - 1) + if es[n - 1].t < |cs[n - 1].pc| && cs[n - 1].pc[es[n - 1].t].Publish? then 1 else 0
  }

  function Outstanding(c: Config): nat
  {
    if c.next.ptr.Some? then 1 else 0
  }

  lemma OutstandingStep(env: Env, c: Config, e: Event, c': Config)
    requires Inv(env, c) && Takes(env, c, e, c')
    ensures Outstanding(c') + (if Acts(c, e) then 1 else 0) == Outstanding(c) + (if c.pc[e.t].Publish? then 1 else 0)
  {
    hide TablesOk, ContentOk, MigrationOk, ChunksOk, CountsOk, Step;
    assert ThreadOk(env, c, e.t);
    if Acts(c, e) { ActStep(env, c, e, c'); }
    else if !e.ch.Launch? { CalmStep(env, c, e, c'); }
    else { LaunchKeeps(env, c, e, c'); }
  }

  lemma LaunchKeeps(env: Env, c: Config, e: Event, c': Config)
    requires Takes(env, c, e, c') && e.ch.Launch?
    ensures c'.next == c.next && !c.pc[e.t].Publish?
  {
  }

  /** Over every run each new table that was published has been put in place exactly
      once, but for the one, if any, that is being filled. */
  lemma {:induction false} RunActsOnce(env: Env, cs: seq<Config>, es: seq<Event>, n: nat)
    requires IsRun(env, cs, es) && n <= |es|
    ensures Actions(cs, es, n) + Outstanding(cs[n]) == Published(cs, es, n)
  {
    hide Inv, Step, Acts;
    if n > 0 {
      RunActsOnce(env, cs, es, n - 1);
      RunSafe(env, cs, es, n - 1);
      assert Takes(env, cs[n - 1], es[n - 1], cs[n]);
      OutstandingStep(env, cs[n - 1], es[n - 1], cs[n]);
    }
  }
}
