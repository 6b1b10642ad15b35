/** Marking liveness while threads explore: several walk back from their states at
    once, each setting a bit with one atomic step and stopping where it was set. */
module SharedMarks {
  import opened Options
  import opened Liveness

  /** A thread may be about to mark property k in state s. */
  datatype PC = Resting | Marking(s: nat, k: nat)

  datatype Config = Config(live: set<(nat, nat)>, pc: seq<PC>)

  predicate InGraph(g: Graph, s: nat, k: nat)
  {
    s < |g.previous| && k < g.properties
  }

  /** A thread starts where a property holds. */
  predicate CanBegin(g: Graph, c: Config, t: nat, s: nat, k: nat)
  {
    GraphOk(g) && t < |c.pc| && c.pc[t].Resting? && InGraph(g, s, k) && g.holds(s, k)
  }

  function Begin(g: Graph, c: Config, t: nat, s: nat, k: nat): Config
    requires CanBegin(g, c, t, s, k)
  {
    c.(pc := c.pc[t := Marking(s, k)])
  }

  predicate CanGo(g: Graph, c: Config, t: nat)
  {
    GraphOk(g) && t < |c.pc| && c.pc[t].Marking? && InGraph(g, c.pc[t].s, c.pc[t].k)
  }

  /** Sets the bit, and moves on only if it was not set. */
  function Go(g: Graph, c: Config, t: nat): Config
    requires CanGo(g, c, t)
  {
    var s, k := c.pc[t].s, c.pc[t].k;
    var previous := g.previous[s];
    var next := if (s, k) !in c.live && previous.Some? then Marking(previous.value, k) else Resting;
    Config(c.live + {(s, k)}, c.pc[t := next])
  }

  predicate Underway(c: Config, s: nat, k: nat)
  {
    exists t :: 0 <= t < |c.pc| && c.pc[t] == Marking(s, k)
  }

  // A bit is set further back, or a thread is on its way there.
  predicate Followed(g: Graph, c: Config, s: nat, k: nat)
    requires InGraph(g, s, k)
  {
    g.previous[s].Some? ==> (g.previous[s].value, k) in c.live || Underway(c, g.previous[s].value, k)
  }

  /** What every configuration satisfies. */
  ghost predicate Inv(g: Graph, c: Config)
  {
    && GraphOk(g)
    && (forall s: nat, k: nat :: (s, k) in c.live ==> InGraph(g, s, k) && Eventually(g, s, k) && Followed(g, c, s, k))
    && (forall t :: 0 <= t < |c.pc| && c.pc[t].Marking? ==> InGraph(g, c.pc[t].s, c.pc[t].k) && Eventually(g, c.pc[t].s, c.pc[t].k))
  }

  lemma BeginInv(g: Graph, c: Config, t: nat, s: nat, k: nat)
    requires Inv(g, c) && CanBegin(g, c, t, s, k)
    ensures Inv(g, Begin(g, c, t, s, k))
  {
    hide Eventually;
    NowAhead(g, s, k);
    var c' := Begin(g, c, t, s, k);
    forall a: nat, j: nat | (a, j) in c'.live ensures Followed(g, c', a, j) {
      assert Followed(g, c, a, j);
      if g.previous[a].Some? && Underway(c, g.previous[a].value, j) {
        var u :| 0 <= u < |c.pc| && c.pc[u] == Marking(g.previous[a].value, j);
        assert c'.pc[u] == c.pc[u];
      }
    }
  }

  lemma BackEventually(g: Graph, s: nat, k: nat)
    requires GraphOk(g) && s < |g.previous| && Eventually(g, s, k) && g.previous[s].Some?
    ensures g.previous[s].value < |g.previous| && Eventually(g, g.previous[s].value, k)
  {
    hide Eventually;
    var p := g.previous[s].value;
    var i :| 0 <= i < |g.successors[p]| && g.successors[p][i] == s;
    EventuallyBack(g, p, i, k);
  }

  /** A thread's step keeps the invariant, whatever bits others have set meanwhile. */
  lemma GoInv(g: Graph, c: Config, t: nat)
    requires Inv(g, c) && CanGo(g, c, t)
    ensures Inv(g, Go(g, c, t))
  {
    hide Eventually;
    var s, k := c.pc[t].s, c.pc[t].k;
    var c' := Go(g, c, t);
    if g.previous[s].Some? { BackEventually(g, s, k); }
    forall a: nat, j: nat | (a, j) in c'.live ensures InGraph(g, a, j) && Eventually(g, a, j) && Followed(g, c', a, j) {
      if (a, j) in c.live { FollowedAfter(g, c, t, a, j); }
      else if g.previous[s].Some? { assert c'.pc[t] == Marking(g.previous[s].value, k); }
    }
  }

  lemma FollowedAfter(g: Graph, c: Config, t: nat, a: nat, j: nat)
    requires CanGo(g, c, t) && InGraph(g, a, j) && Followed(g, c, a, j)
    ensures Followed(g, Go(g, c, t), a, j)
  {
    var c' := Go(g, c, t);
    if g.previous[a].Some? && (g.previous[a].value, j) !in c.live {
      var u :| 0 <= u < |c.pc| && c.pc[u] == Marking(g.previous[a].value, j);
      if u != t { assert c'.pc[u] == c.pc[u]; }
    }
  }

  // ----- whole runs -----

  datatype Event = Start(t: nat, s: nat, k: nat) | Run(t: nat)

  predicate Takes(g: Graph, c: Config, e: Event, c': Config)
  {
    match e
    case Start(t, s, k) => CanBegin(g, c, t, s, k) && c' == Begin(g, c, t, s, k)
    case Run(t) => CanGo(g, c, t) && c' == Go(g, c, t)
  }

  predicate IsRun(g: Graph, cs: seq<Config>, es: seq<Event>)
  {
    && GraphOk(g) && |cs| == |es| + 1 && cs[0].live == {} && (forall t :: 0 <= t < |cs[0].pc| ==> cs[0].pc[t].Resting?)
    && forall i :: 0 <= i < |es| ==> Takes(g, cs[i], es[i], cs[i + 1])
  }

  lemma {:induction false} RunInv(g: Graph, cs: seq<Config>, es: seq<Event>, i: nat)
    requires IsRun(g, cs, es) && i < |cs|
    ensures Inv(g, cs[i])
  {
    hide Eventually, Followed;
    if i > 0 {
      RunInv(g, cs, es, i - 1);
      assert Takes(g, cs[i - 1], es[i - 1], cs[i]);
      match es[i - 1] {
        case Start(t, s, k) => BeginInv(g, cs[i - 1], t, s, k);
        case Run(t) => GoInv(g, cs[i - 1], t);
      }
    }
  }

  // A mark that was begun is set, or still underway.
  lemma {:induction false} BegunIsSet(g: Graph, cs: seq<Config>, es: seq<Event>, j: nat, i: nat)
    requires IsRun(g, cs, es) && j < i < |cs| && es[j].Start?
    ensures (es[j].s, es[j].k) in cs[i].live || Underway(cs[i], es[j].s, es[j].k)
    decreases i
  {
    var s, k := es[j].s, es[j].k;
    assert Takes(g, cs[i - 1], es[i - 1], cs[i]);
    if i == j + 1 {
      assert cs[i].pc[es[j].t] == Marking(s, k);
    } else {
      BegunIsSet(g, cs, es, j, i - 1);
      if (s, k) !in cs[i].live {
        var u :| 0 <= u < |cs[i - 1].pc| && cs[i - 1].pc[u] == Marking(s, k);
        assert cs[i].pc[u] == cs[i - 1].pc[u];
      }
    }
  }

  /** Once no thread is marking, whatever was begun is set, every bit is set all the
      way back, and none without reason: the early stops lost nothing. */
  lemma RunClosed(g: Graph, cs: seq<Config>, es: seq<Event>)
    requires IsRun(g, cs, es) && forall t :: 0 <= t < |cs[|es|].pc| ==> cs[|es|].pc[t].Resting?
    ensures var live := cs[|es|].live;
            && (forall j :: 0 <= j < |es| && es[j].Start? ==> (es[j].s, es[j].k) in live)
            && (forall s: nat, k: nat :: (s, k) in live ==> InGraph(g, s, k) && Eventually(g, s, k))
            && (forall s: nat, k: nat :: (s, k) in live && InGraph(g, s, k) && g.previous[s].Some? ==> (g.previous[s].value, k) in live)
  {
    hide Eventually;
    RunInv(g, cs, es, |es|);
    forall j | 0 <= j < |es| && es[j].Start? ensures (es[j].s, es[j].k) in cs[|es|].live {
      BegunIsSet(g, cs, es, j, |es|);
    }
  }
}
