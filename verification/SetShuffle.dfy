/** The walk of a state into the new table ends, however many threads move states
    into that table at once and however they are scheduled. */
module SetShuffle {
  import opened Options
  import opened SetMachine
  import opened SetTotals
  import opened SetInvariant
  import opened SetSafety
  import opened SetRefinement
  import opened SetTable

  // ----- what the other threads do to the table being filled -----

  // A step during which thread t stays where it is and no filled slot of table n empties.
  predicate Bystander(c: Config, c': Config, t: nat, n: nat)
  {
    && t < |c.pc| == |c'.pc| && c'.pc[t] == c.pc[t] && |c'.content| == |c.content|
    && n in c.tables && n in c'.tables && Grows(c.tables[n], c'.tables[n])
  }

  lemma OthersGrow(env: Env, c: Config, u: nat, ch: Choice, c': Config, t: nat)
    requires Inv(env, c) && Enabled(c, u, ch) && Step(env, c, u, ch) == Next(c')
    requires t < |c.pc| && t != u && c.pc[t].Carry?
    ensures Bystander(c, c', t, c.pc[t].n)
  {
    hide Holds, Carried, Total, Unique, ProbeOk, Placed, Home, ContentOk, MigrationOk, ChunksOk, CountsOk, Bystander;
    hide InsertStep, ExpandStep, MigrateStep, MeetStep;
    assert ThreadOk(env, c, t) && ThreadOk(env, c, u);
    hide ThreadsOk;
    match ch {
      case Run(a) =>
        if Inserting(c.pc[u]) { InsertGrows(env, c, u, c', t); }
        else if Expanding(c.pc[u]) { ExpandGrows(c, u, a, c', t); }
        else if Migrating(c.pc[u]) { MigrateGrows(env, c, u, c', t); }
        else { MeetGrows(env, c, u, c', t); }
      case _ => CallGrows(env, c, u, ch, c', t);
    }
  }

  lemma CallGrows(env: Env, c: Config, u: nat, ch: Choice, c': Config, t: nat)
    requires Sized(c) && Enabled(c, u, ch) && !ch.Run? && Step(env, c, u, ch) == Next(c')
    requires t < |c.pc| && t != u && c.pc[t].Carry? && c.pc[t].n in c.tables
    ensures Bystander(c, c', t, c.pc[t].n)
  {
  }

  lemma InsertGrows(env: Env, c: Config, u: nat, c': Config, t: nat)
    requires Sized(c) && u < |c.pc| && InsertStep(env, c, u) == Next(c')
    requires t < |c.pc| && t != u && c.pc[t].Carry? && c.pc[t].n in c.tables && c.pc[t].n != c.local[u]
    ensures Bystander(c, c', t, c.pc[t].n)
  {
    hide Home, SlotOf;
  }

  lemma ExpandGrows(c: Config, u: nat, a: nat, c': Config, t: nat)
    requires Sized(c) && u < |c.pc| && a !in c.tables && ExpandStep(c, u, a) == Next(c')
    requires t < |c.pc| && t != u && c.pc[t].Carry? && c.pc[t].n in c.tables
    ensures Bystander(c, c', t, c.pc[t].n)
  {
    hide Blank;
  }

  lemma MigrateGrows(env: Env, c: Config, u: nat, c': Config, t: nat)
    requires Sized(c) && u < |c.pc| && MigrateStep(env, c, u) == Next(c')
    requires t < |c.pc| && t != u && c.pc[t].Carry? && c.pc[t].n in c.tables && c.pc[t].n != c.local[u]
    requires c.pc[u].Carry? ==> c.pc[u].j < |c.tables[c.pc[t].n]| && Placed(env, c.tables[c.pc[t].n], c.pc[u].x, c.pc[u].j)
    ensures Bystander(c, c', t, c.pc[t].n)
  {
    hide Home, PathFull;
  }

  // Nobody leads a rendezvous while thread t is still moving states.
  lemma MeetGrows(env: Env, c: Config, u: nat, c': Config, t: nat)
    requires Inv(env, c) && u < |c.pc| && MeetStep(c, u) == Next(c')
    requires t < |c.pc| && t != u && c.pc[t].Carry? && c.pc[t].n in c.tables
    ensures Bystander(c, c', t, c.pc[t].n)
  {
    hide Home, Holds, Carried, Total, Unique, ProbeOk, TablesOk, ContentOk, MigrationOk, ChunksOk, ThreadsOk, Depart;
    if c.pending == 1 && Active(c.pc[u]) == 1 { OthersWait(c, u); }
    hide CountsOk;
  }

  // ----- a walk -----

  lemma {:induction false} FullRun(tab: Table, j: nat, w: nat)
    requires j < |tab| && w <= |tab| && forall d :: 0 <= d < w ==> tab[Wrap(|tab|, j, d)].Full?
    ensures |Holds(tab)| >= w
    decreases w
  {
    hide Holds;
    if w > 0 {
      var i := Wrap(|tab|, j, w - 1);
      var tab' := tab[i := Empty];
      forall d | 0 <= d < w - 1 ensures tab'[Wrap(|tab|, j, d)].Full? { assert tab[Wrap(|tab|, j, d)].Full?; }
      FullRun(tab', j, w - 1);
      HoldsUpdate(tab, i, Empty);
      assert tab[i].Full?;
      assert |Holds(tab)| == |Holds(tab) + StatesOf(Empty)| == |Holds(tab') + StatesOf(tab[i])| == |Holds(tab')| + 1;
    }
  }

  lemma {:induction false} CarriedOne(pcs: seq<PC>, t: nat)
    requires t < |pcs| && pcs[t].Carry? && pcs[t].x.Full?
    ensures |Carried(pcs)| >= 1
  {
    if t < |pcs| - 1 { CarriedOne(pcs[..|pcs| - 1], t); }
  }

  /** Thread t, walking through table n, has passed w slots since it was at slot j:
      all of them are filled. */
  predicate Walked(c: Config, t: nat, n: nat, j: nat, w: nat)
  {
    && t < |c.pc| && c.pc[t].Carry? && c.pc[t].n == n && n in c.tables
    && var tab := c.tables[n];
       && j < |tab| && w < |c.content| <= |tab| && c.pc[t].j == Wrap(|tab|, j, w)
       && forall d :: 0 <= d < w ==> tab[Wrap(|tab|, j, d)].Full?
  }

  // The slots passed hold some of the states, and the thread holds another.
  lemma WalkBound(env: Env, c: Config, t: nat, j: nat, w: nat)
    requires Inv(env, c) && t < |c.pc| && c.pc[t].Carry? && c.pc[t].n in c.tables
    requires var tab := c.tables[c.pc[t].n];
             j < |tab| && w <= |tab| && forall d :: 0 <= d < w ==> tab[Wrap(|tab|, j, d)].Full?
    ensures w < |c.content| <= |c.tables[c.pc[t].n]|
  {
    hide Holds, Carried, Total, Unique, ProbeOk, PathFull, Home, ChunksOk, CountsOk;
    assert ThreadOk(env, c, t);
    hide ThreadsOk;
    var tab := c.tables[c.pc[t].n];
    FullRun(tab, j, w);
    CarriedOne(c.pc, t);
    HoldsSize(c.content);
    assert |Holds(Old(c)) + Holds(tab) + Carried(c.pc)| == |Holds(Old(c))| + |Holds(tab)| + |Carried(c.pc)|;
  }

  // One exchange of its own: the slot it leaves is filled.
  lemma WalkOn(env: Env, c: Config, c': Config, t: nat, n: nat, j: nat, w: nat)
    requires Inv(env, c) && Inv(env, c') && Walked(c, t, n, j, w) && MigrateStep(env, c, t) == Next(c')
    requires t < |c'.pc| && c'.pc[t].Carry?
    ensures Walked(c', t, n, j, w + 1) && |c'.content| == |c.content|
  {
    hide Holds, Carried, Total, Unique, ProbeOk, PathFull, Home, ContentOk, MigrationOk, ChunksOk, CountsOk, TablesOk;
    assert ThreadOk(env, c, t);
    hide ThreadsOk;
    var tab, tab' := c.tables[n], c'.tables[n];
    assert tab' == tab[c.pc[t].j := c.pc[t].x];
    forall d | 0 <= d < w + 1 ensures tab'[Wrap(|tab|, j, d)].Full? {
      if d < w { assert tab[Wrap(|tab|, j, d)].Full?; }
    }
    WalkBound(env, c', t, j, w + 1);
  }

  lemma WalkStays(c: Config, c': Config, t: nat, n: nat, j: nat, w: nat)
    requires Walked(c, t, n, j, w) && Bystander(c, c', t, n)
    ensures Walked(c', t, n, j, w)
  {
    var tab, tab' := c.tables[n], c'.tables[n];
    forall d | 0 <= d < w ensures tab'[Wrap(|tab|, j, d)].Full? { assert tab[Wrap(|tab|, j, d)].Full?; }
  }

  lemma WalkStep(env: Env, c: Config, e: Event, c': Config, t: nat, n: nat, j: nat, w: nat)
    requires Inv(env, c) && Inv(env, c') && Takes(env, c, e, c') && Walked(c, t, n, j, w)
    requires t < |c'.pc| && c'.pc[t].Carry?
    ensures Walked(c', t, n, j, if e.t == t then w + 1 else w) && |c'.content| == |c.content|
  {
    hide Inv, MigrateStep;
    if e.t == t { WalkOn(env, c, c', t, n, j, w); } else { OthersGrow(env, c, e.t, e.ch, c', t); WalkStays(c, c', t, n, j, w); }
  }

  // ----- whole runs -----

  /** How many of the events from a up to b are steps of thread t. */
  function OwnSteps(es: seq<Event>, t: nat, a: nat, b: nat): nat
    requires a <= b <= |es|
    decreases b
  {
    if a == b then 0 else OwnSteps(es, t, a, b - 1) + if es[b - 1].t == t then 1 else 0
  }

  // From where it was at a, thread t has walked one slot for each of its own steps.
  lemma {:induction false} WalkRun(env: Env, cs: seq<Config>, es: seq<Event>, t: nat, a: nat, b: nat)
    requires IsRun(env, cs, es) && a <= b < |cs|
    requires forall m :: a <= m <= b ==> t < |cs[m].pc| && cs[m].pc[t].Carry?
    ensures Walked(cs[b], t, cs[a].pc[t].n, cs[a].pc[t].j, OwnSteps(es, t, a, b))
    ensures |cs[b].content| == |cs[a].content|
    decreases b
  {
    hide Initial, Step, Inv;
    RunSafe(env, cs, es, b);
    if a == b {
      WalkStarts(env, cs[a], t);
    } else {
      WalkRun(env, cs, es, t, a, b - 1);
      RunSafe(env, cs, es, b - 1);
      assert Takes(env, cs[b - 1], es[b - 1], cs[b]);
      WalkStep(env, cs[b - 1], es[b - 1], cs[b], t, cs[a].pc[t].n, cs[a].pc[t].j, OwnSteps(es, t, a, b - 1));
    }
  }

  lemma WalkStarts(env: Env, c: Config, t: nat)
    requires Inv(env, c) && t < |c.pc| && c.pc[t].Carry?
    ensures Walked(c, t, c.pc[t].n, c.pc[t].j, 0)
  {
    hide Holds, Carried, Total, Unique, ProbeOk, Placed, Home, ContentOk, MigrationOk, ChunksOk, CountsOk;
    assert ThreadOk(env, c, t);
  }

  /** Every walk ends: over any run, a thread that has been moving one slot's state,
      and those it displaced, since configuration a has made fewer steps of its own
      than the old table has slots, which are half as many as the new table has. So
      however the other migrators exchange states in the table meanwhile, the exchange
      that finds an empty slot is at the latest the one that makes up that number. */
  lemma ShuffleEnds(env: Env, cs: seq<Config>, es: seq<Event>, t: nat, a: nat, b: nat)
    requires IsRun(env, cs, es) && a <= b < |cs|
    requires forall m :: a <= m <= b ==> t < |cs[m].pc| && cs[m].pc[t].Carry?
    ensures OwnSteps(es, t, a, b) < |cs[a].content|
    ensures cs[a].pc[t].n in cs[a].tables && |cs[a].tables[cs[a].pc[t].n]| == 2 * |cs[a].content|
  {
    hide Initial, Takes, Inv;
    WalkRun(env, cs, es, t, a, b);
    RunSafe(env, cs, es, a);
    NewTwice(env, cs[a], t);
  }

  lemma NewTwice(env: Env, c: Config, t: nat)
    requires Inv(env, c) && t < |c.pc| && c.pc[t].Carry?
    ensures c.pc[t].n in c.tables && |c.tables[c.pc[t].n]| == 2 * |c.content|
  {
    hide Holds, Carried, Total, Unique, ProbeOk, Placed, Home, ContentOk, MigrationOk, ChunksOk, CountsOk;
    assert ThreadOk(env, c, t);
  }
}
