/** Looking for a slot comes to an end, whatever the other threads do meanwhile. */
module SetProbing {
  import opened Options
  import opened SetMachine
  import opened SetTotals
  import opened SetInvariant
  import opened SetSafety
  import opened SetRefinement
  import opened SetShuffle

  predicate Looking(pc: PC)
  {
    pc.Start? || pc.Probe? || pc.Claim?
  }

  /** How many steps of its own a thread takes at most before it has its answer, or sets
      about moving to a larger table: two for each slot it has not passed. */
  function Left(size: nat, pc: PC): nat
  {
    match pc
    case Start(_) => 2 * size + 3
    case Probe(_, k) => if k <= size then 2 * (size - k) + 2 else 1
    case Claim(_, k) => if k <= size then 2 * (size - k) + 1 else 1
    case _ => 0
  }

  lemma OwnStep(env: Env, c: Config, t: nat, c': Config)
    requires Inv(env, c) && t < |c.pc| && Looking(c.pc[t]) && InsertStep(env, c, t) == Next(c')
    ensures t < |c'.pc| && |c'.content| == |c.content|
    ensures Left(|c.content|, c'.pc[t]) < Left(|c.content|, c.pc[t])
  {
    hide Holds, Carried, Total, Unique, ProbeOk, Home, ContentOk, MigrationOk, ChunksOk, CountsOk, Passed;
    assert ThreadOk(env, c, t);
    hide ThreadsOk;
  }

  // The other threads leave it alone, and do not change the size of the table.
  predicate LeftAlone(c: Config, c': Config, t: nat)
  {
    t < |c.pc| == |c'.pc| && c'.pc[t] == c.pc[t] && |c'.content| == |c.content|
  }

  lemma OtherStep(env: Env, c: Config, u: nat, ch: Choice, c': Config, t: nat)
    requires Inv(env, c) && Enabled(c, u, ch) && Step(env, c, u, ch) == Next(c')
    requires t < |c.pc| && t != u && Looking(c.pc[t])
    ensures LeftAlone(c, c', t)
  {
    hide Holds, Carried, Total, Unique, ProbeOk, Home, TablesOk, ContentOk, MigrationOk, ChunksOk, ThreadsOk, LeftAlone;
    hide InsertStep, ExpandStep, MigrateStep, MeetStep;
    match ch {
      case Run(a) =>
        if Inserting(c.pc[u]) { InsertAside(env, c, u, c', t); }
        else if Expanding(c.pc[u]) { ExpandAside(c, u, a, c', t); }
        else if Migrating(c.pc[u]) { MigrateAside(env, c, u, c', t); }
        else { MeetAside(env, c, u, c', t); }
      case _ => CallAside(env, c, u, ch, c', t);
    }
  }

  lemma CallAside(env: Env, c: Config, u: nat, ch: Choice, c': Config, t: nat)
    requires Sized(c) && Enabled(c, u, ch) && !ch.Run? && Step(env, c, u, ch) == Next(c') && t < |c.pc| && t != u && Looking(c.pc[t])
    ensures LeftAlone(c, c', t)
  {
  }

  lemma InsertAside(env: Env, c: Config, u: nat, c': Config, t: nat)
    requires Sized(c) && u < |c.pc| && InsertStep(env, c, u) == Next(c') && t < |c.pc| && t != u
    ensures LeftAlone(c, c', t)
  {
    hide Home, SlotOf;
  }

  lemma ExpandAside(c: Config, u: nat, a: nat, c': Config, t: nat)
    requires Sized(c) && u < |c.pc| && ExpandStep(c, u, a) == Next(c') && t < |c.pc| && t != u
    ensures LeftAlone(c, c', t)
  {
    hide Blank;
  }

  lemma MigrateAside(env: Env, c: Config, u: nat, c': Config, t: nat)
    requires Sized(c) && u < |c.pc| && MigrateStep(env, c, u) == Next(c') && t < |c.pc| && t != u
    ensures LeftAlone(c, c', t)
  {
    hide Home;
  }

  // Nobody leads a rendezvous meanwhile.
  lemma MeetAside(env: Env, c: Config, u: nat, c': Config, t: nat)
    requires Sized(c) && CountsOk(c) && u < |c.pc| && MeetStep(c, u) == Next(c') && t < |c.pc| && t != u && Looking(c.pc[t])
    ensures LeftAlone(c, c', t)
  {
    hide Holds, Total, Depart;
    if c.pending == 1 && Active(c.pc[u]) == 1 { OthersWait(c, u); }
    hide CountsOk;
  }

  /** Over any run, a thread that has been looking for a slot since configuration a has
      made no more steps of its own than two for each slot of the table and three, no
      matter what the other threads store meanwhile: it then has its answer, or the
      table has to grow. */
  lemma {:induction false} LookingEnds(env: Env, cs: seq<Config>, es: seq<Event>, t: nat, a: nat, b: nat)
    requires IsRun(env, cs, es) && a <= b < |cs|
    requires forall m :: a <= m <= b ==> t < |cs[m].pc| && Looking(cs[m].pc[t])
    ensures |cs[b].content| == |cs[a].content|
    ensures OwnSteps(es, t, a, b) + Left(|cs[b].content|, cs[b].pc[t]) <= Left(|cs[a].content|, cs[a].pc[t]) <= 2 * |cs[a].content| + 3
    decreases b
  {
    hide Initial, Step, Inv;
    if a < b {
      LookingEnds(env, cs, es, t, a, b - 1);
      RunSafe(env, cs, es, b - 1);
      assert Takes(env, cs[b - 1], es[b - 1], cs[b]);
      if es[b - 1].t == t {
        StepIsInsert(env, cs[b - 1], t, es[b - 1].ch, cs[b]);
        OwnStep(env, cs[b - 1], t, cs[b]);
      } else {
        OtherStep(env, cs[b - 1], es[b - 1].t, es[b - 1].ch, cs[b], t);
      }
    }
  }

  lemma StepIsInsert(env: Env, c: Config, t: nat, ch: Choice, c': Config)
    requires Sized(c) && Enabled(c, t, ch) && Looking(c.pc[t]) && Step(env, c, t, ch) == Next(c')
    ensures InsertStep(env, c, t) == Next(c')
  {
  }
}
