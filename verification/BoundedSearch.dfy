/** The search as one thread carries it out, with a bound on its depth, and the back
    pointers from which counterexamples are made. */
module BoundedSearch {
  import opened Options
  import opened Reachability

  // States that violate an invariant are reported, and not kept.
  ghost predicate Kept(sys: System, s: S, x: S)
  {
    Edge(sys, s, x) && sys.invariants(x)
  }

  /** x is d steps from a start state, by way of states that are kept. */
  ghost predicate KeptWithin(sys: System, d: nat, x: S)
  {
    if d == 0 then x in sys.starts && sys.invariants(x) else exists p :: KeptWithin(sys, d - 1, p) && Kept(sys, p, x)
  }

  /** What a seen state carries: how many steps led to it, and from where. */
  datatype Info = Info(depth: nat, previous: Option<S>)

  type Seen = map<S, Info>

  // Whether a state at depth d is explored further; a bound of 0 is none.
  predicate Explored(bound: nat, d: nat)
  {
    bound == 0 || d < bound
  }

  ghost predicate InfoOk(sys: System, bound: nat, seen: Seen, s: S)
    requires s in seen
  {
    && KeptWithin(sys, seen[s].depth, s) && (forall e: nat :: e < seen[s].depth ==> !KeptWithin(sys, e, s))
    && (bound > 0 ==> seen[s].depth <= bound)
    && match seen[s].previous
       case None => seen[s].depth == 0
       case Some(p) => p in seen && seen[s].depth == seen[p].depth + 1 && Kept(sys, p, s)
  }

  ghost predicate Traced(sys: System, bound: nat, seen: Seen)
  {
    forall s :: s in seen ==> InfoOk(sys, bound, seen, s)
  }

  /** What is still to be explored, in order of depth, two depths at most. */
  predicate Ordered(bound: nat, seen: Seen, work: seq<S>)
  {
    && (forall i :: 0 <= i < |work| ==> work[i] in seen && Explored(bound, seen[work[i]].depth))
    && (forall i, j :: 0 <= i < j < |work| ==> seen[work[i]].depth <= seen[work[j]].depth <= seen[work[i]].depth + 1)
  }

  ghost predicate Settled(sys: System, seen: Seen, s: S)
  {
    forall x :: Kept(sys, s, x) ==> x in seen
  }

  /** Every other state that was to be explored has its successors seen. */
  ghost predicate Done(sys: System, bound: nat, seen: Seen, work: seq<S>)
  {
    forall s :: s in seen && Explored(bound, seen[s].depth) && s !in work ==> Settled(sys, seen, s)
  }

  ghost predicate Started(sys: System, seen: Seen)
  {
    forall s :: s in sys.starts && sys.invariants(s) ==> s in seen
  }

  ghost predicate Inv(sys: System, bound: nat, seen: Seen, work: seq<S>)
  {
    Traced(sys, bound, seen) && Ordered(bound, seen, work) && Done(sys, bound, seen, work) && Started(sys, seen)
  }

  /** If every state nearer than D is settled, all states up to distance D are seen. */
  lemma {:induction false} Layers(sys: System, bound: nat, seen: Seen, D: nat, d: nat, x: S)
    requires Traced(sys, bound, seen) && Started(sys, seen) && d <= D && KeptWithin(sys, d, x)
    requires forall s :: s in seen && seen[s].depth < D ==> Settled(sys, seen, s)
    ensures x in seen
  {
    if d > 0 {
      var p :| KeptWithin(sys, d - 1, p) && Kept(sys, p, x);
      Layers(sys, bound, seen, D, d - 1, p);
      assert InfoOk(sys, bound, seen, p);
      assert Settled(sys, seen, p);
    }
  }

  lemma FrontIsNearest(bound: nat, seen: Seen, work: seq<S>, s: S)
    requires Ordered(bound, seen, work) && s in work
    ensures work[0] in seen && s in seen && seen[work[0]].depth <= seen[s].depth
  {
    var i :| 0 <= i < |work| && work[i] == s;
    if i > 0 { assert seen[work[0]].depth <= seen[work[i]].depth; }
  }

  // A state first met while exploring the front of the work is one step further out.
  lemma NewIsNearest(sys: System, bound: nat, seen: Seen, work: seq<S>, x: S)
    requires Inv(sys, bound, seen, work) && work != [] && x !in seen && Kept(sys, work[0], x)
    ensures var D := seen[work[0]].depth; KeptWithin(sys, D + 1, x) && forall e: nat :: e < D + 1 ==> !KeptWithin(sys, e, x)
  {
    hide Settled;
    var D := seen[work[0]].depth;
    assert InfoOk(sys, bound, seen, work[0]);
    forall s | s in seen && seen[s].depth < D ensures Settled(sys, seen, s) {
      if s in work { FrontIsNearest(bound, seen, work, s); }
    }
    forall e: nat | e < D + 1 ensures !KeptWithin(sys, e, x) {
      if KeptWithin(sys, e, x) { Layers(sys, bound, seen, D, e, x); }
    }
  }

  lemma InsertInv(sys: System, bound: nat, seen: Seen, work: seq<S>, x: S)
    requires Inv(sys, bound, seen, work) && work != [] && x !in seen && Kept(sys, work[0], x)
    ensures var D := seen[work[0]].depth;
            var seen' := seen[x := Info(D + 1, Some(work[0]))];
            Inv(sys, bound, seen', if Explored(bound, D + 1) then work + [x] else work)
  {
    hide Traced, Ordered, Done, KeptWithin, Kept, Explored;
    FrontInfo(sys, bound, seen, work);
    InsertTraced(sys, bound, seen, work, x);
    InsertDone(sys, bound, seen, work, x, Info(seen[work[0]].depth + 1, Some(work[0])));
    OrderedMore(bound, seen, work, x, Info(seen[work[0]].depth + 1, Some(work[0])));
  }

  lemma InsertTraced(sys: System, bound: nat, seen: Seen, work: seq<S>, x: S)
    requires Inv(sys, bound, seen, work) && work != [] && x !in seen && Kept(sys, work[0], x)
    ensures Traced(sys, bound, seen[x := Info(seen[work[0]].depth + 1, Some(work[0]))])
  {
    hide KeptWithin, Kept;
    NewIsNearest(sys, bound, seen, work, x);
    var seen' := seen[x := Info(seen[work[0]].depth + 1, Some(work[0]))];
    forall s | s in seen' ensures InfoOk(sys, bound, seen', s) {
      if s != x { assert InfoOk(sys, bound, seen, s); }
    }
  }

  lemma InsertDone(sys: System, bound: nat, seen: Seen, work: seq<S>, x: S, info: Info)
    requires Done(sys, bound, seen, work) && x !in seen
    ensures Done(sys, bound, seen[x := info], if Explored(bound, info.depth) then work + [x] else work)
  {
    hide Kept, Explored;
    var seen' := seen[x := info];
    var work' := if Explored(bound, info.depth) then work + [x] else work;
    if Explored(bound, info.depth) { assert work'[|work|] == x; }
    forall s | s in seen' && Explored(bound, seen'[s].depth) && s !in work' ensures Settled(sys, seen', s) {
      assert s !in work;
      assert Settled(sys, seen, s);
    }
  }

  lemma OrderedMore(bound: nat, seen: Seen, work: seq<S>, x: S, info: Info)
    requires Ordered(bound, seen, work) && work != [] && x !in seen && info.depth == seen[work[0]].depth + 1
    ensures Ordered(bound, seen[x := info], if Explored(bound, info.depth) then work + [x] else work)
  {
    var seen' := seen[x := info];
    var work' := if Explored(bound, info.depth) then work + [x] else work;
    forall i, j | 0 <= i < j < |work'| ensures seen'[work'[i]].depth <= seen'[work'[j]].depth <= seen'[work'[i]].depth + 1 {
      if j == |work| && i > 0 { assert seen[work[0]].depth <= seen[work[i]].depth <= seen[work[0]].depth + 1; }
    }
  }

  lemma StartInv(sys: System, bound: nat, seen: Seen, work: seq<S>, x: S)
    requires Traced(sys, bound, seen) && x !in seen && x in sys.starts && sys.invariants(x)
    requires forall s :: s in seen <==> s in work
    requires forall s :: s in seen ==> seen[s].depth == 0
    ensures Traced(sys, bound, seen[x := Info(0, None)])
  {
    hide Kept;
    var seen' := seen[x := Info(0, None)];
    assert KeptWithin(sys, 0, x);
    forall s | s in seen' ensures InfoOk(sys, bound, seen', s) {
      if s != x { assert InfoOk(sys, bound, seen, s); }
    }
  }

  lemma DequeueInv(sys: System, bound: nat, seen: Seen, work: seq<S>)
    requires Inv(sys, bound, seen, work) && work != [] && Settled(sys, seen, work[0])
    ensures Inv(sys, bound, seen, work[1..])
  {
    hide Settled, InfoOk;
    forall s | s in seen && Explored(bound, seen[s].depth) && s !in work[1..] ensures Settled(sys, seen, s) {
      if s in work { assert work == [work[0]] + work[1..]; assert s == work[0]; }
    }
  }

  ghost predicate ClosedIn(sys: System, universe: set<S>)
  {
    forall s, x :: s in universe && Kept(sys, s, x) ==> x in universe
  }

  // ----- what there is to report -----

  /** Nothing is wrong with s itself: every successor satisfies the invariants, and it
      is no deadlock. */
  ghost predicate Clean(sys: System, s: S)
  {
    !Violates(sys, s, sys.rules) && !Deadlock(sys, s)
  }

  // One of the first n rule instances leads from s to a state that violates the invariants.
  ghost predicate Violates(sys: System, s: S, n: nat)
  {
    exists r: nat, x :: r < n && Leads(sys, s, r, x) && !sys.invariants(x)
  }

  ghost predicate StartsClean(sys: System)
  {
    forall s :: s in sys.starts ==> sys.invariants(s)
  }

  /** What a search with this bound is to find: the start states and all successors of
      states within the bound satisfy the invariants, and no such state is a deadlock. */
  ghost predicate CleanWithin(sys: System, bound: nat)
  {
    StartsClean(sys) && forall d: nat, s :: KeptWithin(sys, d, s) && Explored(bound, d) ==> Clean(sys, s)
  }

  ghost predicate Unclean(sys: System, bound: nat, seen: Seen, s: S)
  {
    s in seen && Explored(bound, seen[s].depth) && !Clean(sys, s)
  }

  /** The errors counted so far: none if all is well with the states that are done, and
      some only if something is wrong. */
  ghost predicate Tally(sys: System, bound: nat, seen: Seen, work: seq<S>, errors: nat)
  {
    if errors == 0 then StartsClean(sys) && forall s :: Unclean(sys, bound, seen, s) ==> s in work
    else !StartsClean(sys) || exists s :: Unclean(sys, bound, seen, s)
  }

  lemma CleanMeans(sys: System, s: S)
    ensures !Clean(sys, s) <==> Deadlock(sys, s) || exists x :: Edge(sys, s, x) && !sys.invariants(x)
  {
    EdgeViolates(sys, s);
  }

  lemma EdgeViolates(sys: System, s: S)
    ensures Violates(sys, s, sys.rules) <==> exists x :: Edge(sys, s, x) && !sys.invariants(x)
  {
    if Violates(sys, s, sys.rules) {
      var r: nat, x :| r < sys.rules && Leads(sys, s, r, x) && !sys.invariants(x);
      assert Edge(sys, s, x);
    }
    if exists x :: Edge(sys, s, x) && !sys.invariants(x) {
      var x :| Edge(sys, s, x) && !sys.invariants(x);
      var r: nat :| Leads(sys, s, r, x);
    }
  }

  // What was seen keeps its information; what is new is still to be explored.
  predicate Adds(seen: Seen, seen': Seen, bound: nat, work: seq<S>, work': seq<S>)
  {
    && (forall x :: x in seen ==> x in seen' && seen'[x] == seen[x])
    && (forall x :: x in seen' && x !in seen && Explored(bound, seen'[x].depth) ==> x in work')
    && (forall x :: x in work ==> x in work')
  }

  // Insertions do not change what was wrong before; s is done now.
  lemma TallyAfter(sys: System, bound: nat, seen: Seen, seen': Seen, work: seq<S>, work': seq<S>, s: S, errors: nat, errors': nat)
    requires Tally(sys, bound, seen, [s] + work, errors) && s in seen && Explored(bound, seen[s].depth)
    requires Adds(seen, seen', bound, work, work')
    requires errors <= errors' && (errors' > errors <==> !Clean(sys, s))
    ensures Tally(sys, bound, seen', work', errors')
  {
    hide Clean, Explored, StartsClean;
    if errors' == 0 {
      forall x | Unclean(sys, bound, seen', x) ensures x in work' {
        if x in seen { assert Unclean(sys, bound, seen, x); assert x in [s] + work; }
      }
    } else if errors == 0 {
      assert Unclean(sys, bound, seen', s);
    } else if StartsClean(sys) {
      var x :| Unclean(sys, bound, seen, x);
      assert Unclean(sys, bound, seen', x);
    }
  }

  lemma ExploredIsSeen(sys: System, bound: nat, seen: Seen, d: nat, s: S)
    requires Inv(sys, bound, seen, []) && KeptWithin(sys, d, s) && Explored(bound, d)
    ensures s in seen && Explored(bound, seen[s].depth)
  {
    hide Kept;
    assert (bound > 0 ==> d <= bound) && KeptWithin(sys, d, s);
    SeenExactly(sys, bound, seen, s);
    assert InfoOk(sys, bound, seen, s);
  }

  lemma SeenIsExplored(sys: System, bound: nat, seen: Seen, s: S)
    requires Traced(sys, bound, seen) && s in seen
    ensures KeptWithin(sys, seen[s].depth, s)
  {
    assert InfoOk(sys, bound, seen, s);
  }

  /** A search that has come to its end counted no error if and only if there is none
      within its bound. */
  lemma TallyIsVerdict(sys: System, bound: nat, seen: Seen, errors: nat)
    requires Inv(sys, bound, seen, []) && Tally(sys, bound, seen, [], errors)
    ensures errors == 0 <==> CleanWithin(sys, bound)
  {
    hide Clean, Kept, KeptWithin, Traced, Explored, Ordered, Done;
    if errors == 0 {
      forall d: nat, s | KeptWithin(sys, d, s) && Explored(bound, d) ensures Clean(sys, s) {
        ExploredIsSeen(sys, bound, seen, d, s);
        assert !Unclean(sys, bound, seen, s);
      }
    } else if StartsClean(sys) {
      var s :| Unclean(sys, bound, seen, s);
      SeenIsExplored(sys, bound, seen, s);
    }
  }

  class Search {
    const sys: System
    const bound: nat
    var seen: Seen
    var queue: seq<S>
    var errors: nat

    constructor (sys: System, bound: nat)
      ensures this.sys == sys && this.bound == bound && seen == map[] && queue == [] && errors == 0
    {
      this.sys, this.bound := sys, bound;
      seen, queue, errors := map[], [], 0;
    }

    /** Stores the start states, each once. */
    method Init()
      requires seen == map[] && queue == [] && errors == 0
      modifies this
      ensures Inv(sys, bound, seen, queue)
      ensures (errors == 0 <==> StartsClean(sys)) && Tally(sys, bound, seen, queue, errors)
    {
      hide InfoOk, Settled, Clean;
      for i := 0 to |sys.starts|
        invariant Traced(sys, bound, seen)
        invariant forall s :: s in seen <==> s in sys.starts[..i] && sys.invariants(s)
        invariant forall s :: s in seen <==> s in queue
        invariant forall s :: s in seen ==> seen[s].depth == 0
        invariant errors == 0 <==> forall s :: s in sys.starts[..i] ==> sys.invariants(s)
      {
        var s := sys.starts[i];
        assert sys.starts[..i + 1] == sys.starts[..i] + [s];
        if !sys.invariants(s) {
          errors := errors + 1;
        } else if s !in seen {
          StartInv(sys, bound, seen, queue, s);
          seen, queue := seen[s := Info(0, None)], queue + [s];
        }
      }
      assert sys.starts[..|sys.starts|] == sys.starts;
    }

    // A rule led from s, at the front, to x: either an error, or known, or new.
    method Meet(s: S, x: S)
      requires Inv(sys, bound, seen, [s] + queue) && Edge(sys, s, x)
      modifies this
      ensures Inv(sys, bound, seen, [s] + queue) && errors == old(errors) + if sys.invariants(x) then 0 else 1
      ensures Adds(old(seen), seen, bound, old(queue), queue)
      ensures seen.Keys == if sys.invariants(x) then old(seen.Keys) + {x} else old(seen.Keys)
      ensures seen.Keys == old(seen.Keys) ==> queue == old(queue)
    {
      hide InfoOk, KeptWithin, Explored, Inv, Settled, Edge;
      if !sys.invariants(x) {
        errors := errors + 1;
      } else if x !in seen {
        ghost var work := [s] + queue;
        FrontInfo(sys, bound, seen, work);
        InsertInv(sys, bound, seen, work, x);
        var d := seen[s].depth + 1;
        seen := seen[x := Info(d, Some(s))];
        if Explored(bound, d) {
          queue := queue + [x];
          assert [s] + queue == work + [x];
        }
      }
    }

    /** Tries every rule on the state that was taken off the front of the queue. Errors
        are counted if and only if a successor violates the invariants, or the state is
        a deadlock. */
    method Expand(s: S, ghost universe: set<S>)
      requires Inv(sys, bound, seen, [s] + queue) && seen.Keys <= universe
      requires ClosedIn(sys, universe) && s in universe
      modifies this
      ensures Inv(sys, bound, seen, [s] + queue) && Settled(sys, seen, s)
      ensures old(seen.Keys) <= seen.Keys <= universe && Adds(old(seen), seen, bound, old(queue), queue)
      ensures errors >= old(errors)
      ensures errors > old(errors) <==> Deadlock(sys, s) || exists x :: Edge(sys, s, x) && !sys.invariants(x)
      ensures seen.Keys == old(seen.Keys) ==> queue == old(queue)
    {
      hide InfoOk, KeptWithin, Explored, Inv, Progress, Violates;
      ghost var first, before, work, count := seen, seen.Keys, queue, errors;
      var dead := true;
      NoneYet(sys, s);
      for r := 0 to sys.rules
        invariant Inv(sys, bound, seen, [s] + queue) && before <= seen.Keys <= universe
        invariant Adds(first, seen, bound, work, queue)
        invariant errors >= count && (errors > count <==> Violates(sys, s, r))
        invariant dead <==> forall i: nat :: i < r ==> !Progress(sys, s, i)
        invariant forall i: nat, x :: i < r && Leads(sys, s, i, x) && sys.invariants(x) ==> x in seen
        invariant seen.Keys == before ==> queue == work
      {
        var f := sys.fire(s, r);
        OneMore(sys, s, r);
        if f.Fired? {
          if sys.detection != Stuttering || f.moved { dead := false; }
          if f.to.Some? {
            assert Leads(sys, s, r, f.to.value);
            assert sys.invariants(f.to.value) ==> Kept(sys, s, f.to.value);
            label before_meet:
            Meet(s, f.to.value);
            AddsMore(first, old@before_meet(seen), seen, bound, work, old@before_meet(queue), queue);
          }
        }
      }
      EdgeViolates(sys, s);
      if sys.detection != Off && dead { errors := errors + 1; }
    }

    /** The whole search. The states it can meet are in some finite set. */
    method Explore(ghost universe: set<S>)
      requires Inv(sys, bound, seen, queue) && seen.Keys <= universe
      requires ClosedIn(sys, universe) && Tally(sys, bound, seen, queue, errors)
      modifies this
      ensures Inv(sys, bound, seen, []) && queue == []
      ensures errors == 0 <==> CleanWithin(sys, bound)
    {
      hide InfoOk, KeptWithin, Explored, Inv, Settled, Kept, ClosedIn, Tally, CleanWithin, Adds, Clean, Deadlock, Edge;
      while queue != []
        invariant Inv(sys, bound, seen, queue) && seen.Keys <= universe && Tally(sys, bound, seen, queue, errors)
        decreases |universe - seen.Keys|, |queue|
      {
        var s := queue[0];
        assert queue == [s] + queue[1..];
        FrontInfo(sys, bound, seen, queue);
        queue := queue[1..];
        ghost var before, work, count := seen, queue, errors;
        Expand(s, universe);
        CleanMeans(sys, s);
        TallyAfter(sys, bound, before, seen, work, queue, s, count, errors);
        Shrinks(universe, before.Keys, seen.Keys);
        DequeueInv(sys, bound, seen, [s] + queue);
        assert ([s] + queue)[1..] == queue;
      }
      TallyIsVerdict(sys, bound, seen, errors);
    }
  }

  lemma AddsMore(seen: Seen, seen': Seen, seen'': Seen, bound: nat, work: seq<S>, work': seq<S>, work'': seq<S>)
    requires Adds(seen, seen', bound, work, work') && Adds(seen', seen'', bound, work', work'')
    ensures Adds(seen, seen'', bound, work, work'')
  {
    hide Explored;
  }

  lemma NoneYet(sys: System, s: S)
    ensures !Violates(sys, s, 0)
  {
  }

  // What trying instance r adds to what has been established by those before it.
  lemma OneMore(sys: System, s: S, r: nat)
    requires r < sys.rules
    ensures var f := sys.fire(s, r);
            && (Violates(sys, s, r + 1) <==> Violates(sys, s, r) || (f.Fired? && f.to.Some? && !sys.invariants(f.to.value)))
            && (Progress(sys, s, r) <==> f.Fired? && (sys.detection != Stuttering || f.moved))
  {
    var f := sys.fire(s, r);
    if Violates(sys, s, r) {
      var i: nat, x :| i < r && Leads(sys, s, i, x) && !sys.invariants(x);
      assert i < r + 1 && Leads(sys, s, i, x);
    }
    if f.Fired? && f.to.Some? && !sys.invariants(f.to.value) { assert Leads(sys, s, r, f.to.value); }
  }

  lemma FrontInfo(sys: System, bound: nat, seen: Seen, work: seq<S>)
    requires Inv(sys, bound, seen, work) && work != []
    ensures work[0] in seen && Explored(bound, seen[work[0]].depth)
  {
  }

  lemma Shrinks(universe: set<S>, a: set<S>, b: set<S>)
    requires a <= b <= universe
    ensures |universe - b| <= |universe - a|
    ensures |universe - b| == |universe - a| ==> a == b
  {
    assert universe - a == (universe - b) + (b - a);
    assert |universe - a| == |universe - b| + |b - a|;
    if a != b { assert b - a != {}; }
  }

  /** What a finished search has seen: with a bound, exactly the states within that
      many steps; without one, exactly the reachable ones. */
  lemma SeenExactly(sys: System, bound: nat, seen: Seen, x: S)
    requires Inv(sys, bound, seen, [])
    ensures x in seen <==> exists d: nat :: (bound > 0 ==> d <= bound) && KeptWithin(sys, d, x)
  {
    if x in seen {
      assert InfoOk(sys, bound, seen, x);
      assert KeptWithin(sys, seen[x].depth, x);
    }
    forall d: nat | (bound > 0 ==> d <= bound) && KeptWithin(sys, d, x) ensures x in seen {
      Layers(sys, bound, seen, d, d, x);
    }
  }

  // ----- counterexamples -----

  /** The states on the way to s, following the back pointers. */
  ghost function Chain(sys: System, bound: nat, seen: Seen, s: S): seq<S>
    requires Traced(sys, bound, seen) && s in seen
    decreases seen[s].depth
  {
    assert InfoOk(sys, bound, seen, s);
    match seen[s].previous
    case None => [s]
    case Some(p) => Chain(sys, bound, seen, p) + [s]
  }

  ghost predicate IsPath(sys: System, path: seq<S>)
  {
    && path != [] && path[0] in sys.starts && sys.invariants(path[0])
    && forall i :: 0 <= i < |path| - 1 ==> Kept(sys, path[i], path[i + 1])
  }

  lemma {:induction false} PathWithin(sys: System, path: seq<S>)
    requires IsPath(sys, path)
    ensures KeptWithin(sys, |path| - 1, path[|path| - 1])
  {
    var n := |path| - 1;
    if n > 0 {
      assert IsPath(sys, path[..n]);
      PathWithin(sys, path[..n]);
      assert Kept(sys, path[n - 1], path[n]);
    }
  }

  lemma {:induction false} ChainIsPath(sys: System, bound: nat, seen: Seen, s: S)
    requires Traced(sys, bound, seen) && s in seen
    ensures var c := Chain(sys, bound, seen, s);
            IsPath(sys, c) && c[|c| - 1] == s && |c| == seen[s].depth + 1
    decreases seen[s].depth
  {
    assert InfoOk(sys, bound, seen, s);
    match seen[s].previous {
      case None => assert KeptWithin(sys, 0, s);
      case Some(p) => ChainIsPath(sys, bound, seen, p);
    }
  }

  /** The counterexample for any seen state is a path to it, and none is shorter. */
  lemma ChainIsShortest(sys: System, bound: nat, seen: Seen, s: S, path: seq<S>)
    requires Traced(sys, bound, seen) && s in seen && IsPath(sys, path) && path[|path| - 1] == s
    ensures IsPath(sys, Chain(sys, bound, seen, s)) && |Chain(sys, bound, seen, s)| <= |path|
  {
    ChainIsPath(sys, bound, seen, s);
    PathWithin(sys, path);
    assert InfoOk(sys, bound, seen, s);
  }
}
