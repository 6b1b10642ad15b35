/** When a thread sets about making the table larger. */
module SetGrowth {
  import opened Options
  import opened Arithmetic
  import opened SetMachine
  import opened SetTotals
  import opened SetInvariant
  import opened SetSafety
  import opened SetTable

  lemma QuotientAtLeast(a: nat, b: nat, q: nat)
    requires b > 0
    ensures a / b >= q <==> a >= q * b
  {
    var d, m := a / b, a % b;
    assert a == d * b + m;
    if d >= q { MulMono(q, d, b); } else { MulMono(d + 1, q, b); }
  }

  /** At the start of an insertion: if and only if the states counted make up the
      threshold share of the slots, and there are at least as many states as counted. */
  lemma GrowsWhenLoaded(env: Env, c: Config, t: nat, c': Config)
    requires Inv(env, c) && t < |c.pc| && c.pc[t].Start? && InsertStep(env, c, t) == Next(c')
    ensures t < |c'.pc| && (Expanding(c'.pc[t]) <==> c.count * 100 >= env.threshold * |c.content|)
    ensures c.count <= |Holds(c.content)| <= |c.content|
  {
    hide Holds, Carried, Total, Unique, ProbeOk, Home, ContentOk, MigrationOk, ChunksOk;
    assert ThreadOk(env, c, t);
    hide ThreadsOk;
    QuotientAtLeast(c.count * 100, |c.content|, env.threshold);
    HoldsSize(c.content);
  }

  /** While looking for a slot: only if every slot of the table is taken by another
      state, or when it comes upon a table that is being emptied already. */
  lemma GrowsWhenFull(env: Env, c: Config, t: nat, c': Config)
    requires Inv(env, c) && t < |c.pc| && (c.pc[t].Probe? || c.pc[t].Claim?) && InsertStep(env, c, t) == Next(c')
    requires t < |c'.pc| && Expanding(c'.pc[t])
    ensures c.next.ptr.Some? || (|Holds(c.content)| == |c.content| && c.pc[t].s !in Holds(c.content))
  {
    hide Holds, Carried, Total, Unique, ProbeOk, Home, Placed, PathFull, ChunksOk, CountsOk;
    assert ThreadOk(env, c, t);
    hide ThreadsOk;
    var s, k := c.pc[t].s, c.pc[t].k;
    if k >= |c.content| {
      AllPassed(env, c.content, s);
      NowhereElse(env, c.content, s);
    } else if c.next.ptr.None? {
      NoTombstone(env, c.content, Wrap(|c.content|, Home(env, |c.content|, s), k));
    }
  }

  lemma AllPassed(env: Env, tab: Table, s: State)
    requires |tab| > 0 && Passed(env, tab, s, |tab|)
    ensures |Holds(tab)| == |tab|
  {
    hide Holds, Home;
    var h := Home(env, |tab|, s);
    forall p | 0 <= p < |tab| ensures tab[p].Full? {
      WrapDist(|tab|, h, p);
      assert tab[Wrap(|tab|, h, Dist(|tab|, h, p))].Full?;
    }
    HoldsSize(tab);
  }

  lemma NoTombstone(env: Env, tab: Table, i: nat)
    requires ProbeOk(env, tab) && i < |tab|
    ensures !tab[i].Tombstone?
  {
    hide PathFull, Home;
    assert tab[i].Empty? || Placed(env, tab, tab[i], i);
  }
}
