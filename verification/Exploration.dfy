/** The parallel search: threads that take states from queues, fire every rule on
    them, and queue the states nobody has seen before. Insertion into the seen set
    and the queue operations are atomic here; that they behave so is what the
    modules about the set and the queues show. */
module Exploration {
  import opened Options
  import opened Reachability

  /** A thread not started; looking for work, with `a` queues since `q` found empty;
      about to fire instance r on s, which it took from queue q, `dead` if nothing
      fired so far; about to queue n, which r led to; done. */
  datatype PC =
    | Waiting
    | Seeking(q: nat, a: nat)
    | Trying(q: nat, s: S, r: nat, dead: bool)
    | Queueing(s: S, r: nat, dead: bool, n: S)
    | Exited

  /** `launched` says whether the secondary threads have been started; `errors`
      counts the violations found. */
  datatype Config = Config(seen: set<S>, queues: seq<seq<S>>, pc: seq<PC>, launched: bool, errors: nat)

  function Wrap(n: nat, i: nat, d: nat): nat
  {
    if i + d < n then i + d else i + d - n
  }

  function Goto(c: Config, t: nat, pc: PC): Config
    requires t < |c.pc|
  {
    c.(pc := c.pc[t := pc])
  }

  predicate PcOk(n: nat, pc: PC)
  {
    match pc
    case Seeking(q, a) => q < n && a <= n
    case Trying(q, _, _, _) => q < n
    case _ => true
  }

  predicate Enabled(c: Config, t: nat)
  {
    && |c.queues| == |c.pc| && t < |c.pc| && PcOk(|c.pc|, c.pc[t])
    && !c.pc[t].Waiting? && !c.pc[t].Exited?
  }

  // The next state has been computed: it may be ruled out, in error, old, or new.
  function Found(sys: System, c: Config, t: nat, dead: bool, to: Option<S>): Config
    requires t < |c.pc| && c.pc[t].Trying?
  {
    var pc := c.pc[t];
    var next := Trying(pc.q, pc.s, pc.r + 1, dead);
    match to
    case None => Goto(c, t, next)
    case Some(x) =>
      if !sys.invariants(x) then Goto(c.(errors := c.errors + 1), t, next)
      else if x in c.seen then Goto(c, t, next)
      else Goto(c.(seen := c.seen + {x}), t, Queueing(c.pc[t].s, c.pc[t].r, dead, x))
  }

  /** One step of thread t. `limit` is how many errors end the search. A thread that
      has found every queue empty exits; one that has tried every rule instance looks
      for more work where it last had dealings with a queue. */
  function Step(sys: System, limit: nat, c: Config, t: nat): Config
    requires Enabled(c, t)
  {
    match c.pc[t]
    case Seeking(q, a) =>
      var k := Wrap(|c.pc|, q, a);
      if a == 0 && c.errors >= limit then Goto(c, t, Exited)
      else if a == |c.pc| then Goto(c, t, Exited)
      else if c.queues[k] == [] then Goto(c, t, Seeking(q, a + 1))
      else Goto(c.(queues := c.queues[k := c.queues[k][1..]]), t, Trying(k, c.queues[k][0], 0, true))
    case Trying(q, s, r, dead) =>
      if r >= sys.rules then
        Goto(if sys.detection != Off && dead then c.(errors := c.errors + 1) else c, t, Seeking(q, 0))
      else if sys.fire(s, r).Disabled? then Goto(c, t, Trying(q, s, r + 1, dead))
      else Found(sys, c, t, dead && !Progress(sys, s, r), sys.fire(s, r).to)
    case Queueing(s, r, dead, n) => Goto(c.(queues := c.queues[t := c.queues[t] + [n]]), t, Trying(t, s, r + 1, dead))
    case _ => c
  }

  /** The first thread starts the others while it is in the middle of a state. */
  predicate CanLaunch(c: Config)
  {
    |c.pc| > 1 && !c.launched && c.pc[0].Trying?
  }

  function Launch(c: Config): Config
    requires CanLaunch(c)
  {
    c.(launched := true, pc := seq(|c.pc|, t requires 0 <= t < |c.pc| => if t == 0 then c.pc[0] else Seeking(t, 0)))
  }

  // Only the first thread runs.
  function Unstarted(n: nat): (pcs: seq<PC>)
    ensures |pcs| == n
  {
    seq(n, t => if t == 0 then Seeking(0, 0) else Waiting)
  }

  /** Storing the start states, the first i of which are done, in the queues in turn. */
  function Stored(sys: System, n: nat, i: nat): (Config, nat)
    requires n > 0 && i <= |sys.starts|
    ensures Stored(sys, n, i).1 < n && |Stored(sys, n, i).0.queues| == n && Stored(sys, n, i).0.pc == Unstarted(n) && !Stored(sys, n, i).0.launched
  {
    if i == 0 then
      (Config({}, seq(n, _ => []), Unstarted(n), false, 0), 0)
    else
      var (c, q) := Stored(sys, n, i - 1);
      var s := sys.starts[i - 1];
      if !sys.invariants(s) then (c.(errors := c.errors + 1), q)
      else if s in c.seen then (c, q)
      else (c.(seen := c.seen + {s}, queues := c.queues[q := c.queues[q] + [s]]), (q + 1) % n)
  }

  function Initial(sys: System, n: nat): Config
    requires n > 0
  {
    Stored(sys, n, |sys.starts|).0
  }

  // ----- what every configuration satisfies -----

  ghost predicate Settled(sys: System, seen: set<S>, s: S)
  {
    (forall x :: Edge(sys, s, x) ==> x in seen) && !Deadlock(sys, s)
  }

  /** What thread t, working on s, has established by trying the instances below r. */
  ghost predicate Tried(sys: System, seen: set<S>, s: S, r: nat, dead: bool)
  {
    && (forall i: nat, x :: i < r && Leads(sys, s, i, x) ==> x in seen)
    && (sys.detection != Off && !dead ==> exists i: nat :: i < r && i < sys.rules && Progress(sys, s, i))
  }

  ghost predicate HeldBy(sys: System, seen: set<S>, pc: PC, s: S)
  {
    match pc
    case Trying(_, x, r, dead) => x == s
    case Queueing(x, r, dead, n) => x == s || n == s
    case _ => false
  }

  predicate Known(seen: set<S>, pc: PC)
  {
    match pc
    case Trying(_, s, _, _) => s in seen
    case Queueing(s, _, _, n) => s in seen && n in seen
    case _ => true
  }

  ghost predicate WorkOk(sys: System, seen: set<S>, pc: PC)
  {
    match pc
    case Trying(_, s, r, dead) => Tried(sys, seen, s, r, dead)
    case Queueing(s, r, dead, n) => Tried(sys, seen, s, r + 1, dead)
    case _ => true
  }

  predicate Queued(c: Config, s: S)
  {
    exists k :: 0 <= k < |c.queues| && s in c.queues[k]
  }

  ghost predicate Held(sys: System, c: Config, s: S)
  {
    exists t :: 0 <= t < |c.pc| && HeldBy(sys, c.seen, c.pc[t], s)
  }

  /** Nobody has forgotten s: all is known about it, or it waits in a queue, or some
      thread has it in hand. */
  ghost predicate Accounted(sys: System, c: Config, s: S)
  {
    Settled(sys, c.seen, s) || Queued(c, s) || Held(sys, c, s)
  }

  predicate Passed(n: nat, pc: PC, u: nat)
  {
    pc.Exited? || (pc.Seeking? && exists b :: 0 <= b < pc.a && Wrap(n, pc.q, b) == u)
  }

  /** A queue that its owner has passed over stays empty. Before the launch the first
      thread owns them all; after it each thread owns the queue it fills. */
  predicate EmptyOk(c: Config)
  {
    |c.queues| == |c.pc| &&
    if c.launched then forall t :: 0 <= t < |c.pc| ==> !c.pc[t].Waiting? && (Passed(|c.pc|, c.pc[t], t) ==> c.queues[t] == [])
    else
      && |c.pc| > 0 && !c.pc[0].Waiting? && (forall t :: 1 <= t < |c.pc| ==> c.pc[t].Waiting?)
      && forall u :: 0 <= u < |c.pc| && Passed(|c.pc|, c.pc[0], u) ==> c.queues[u] == []
  }

  predicate Shape(sys: System, c: Config)
  {
    && |c.queues| == |c.pc| && |c.pc| > 0
    && (forall t :: 0 <= t < |c.pc| ==> PcOk(|c.pc|, c.pc[t]) && Known(c.seen, c.pc[t]))
    && (forall k, s :: 0 <= k < |c.queues| && s in c.queues[k] ==> s in c.seen)
  }

  ghost predicate Sound(sys: System, c: Config)
  {
    forall s :: s in c.seen ==> Reachable(sys, s) && sys.invariants(s)
  }

  ghost predicate Complete(sys: System, c: Config)
  {
    && (forall s :: s in sys.starts ==> s in c.seen)
    && (forall s :: s in c.seen ==> Accounted(sys, c, s))
  }

  ghost predicate Working(sys: System, c: Config)
  {
    forall t :: 0 <= t < |c.pc| ==> WorkOk(sys, c.seen, c.pc[t])
  }

  /** `dead` says of a thread at work whether no instance it has tried was progress. */
  ghost predicate DeadOk(sys: System, pc: PC)
  {
    match pc
    case Trying(_, s, r, dead) => dead <==> forall i: nat :: i < r && i < sys.rules ==> !Progress(sys, s, i)
    case Queueing(s, r, dead, _) => r < sys.rules && (dead <==> forall i: nat :: i <= r && i < sys.rules ==> !Progress(sys, s, i))
    case _ => true
  }

  /** Something is wrong with the model: a state that can be reached violates the
      invariants, or is a deadlock. */
  ghost predicate Faulty(sys: System)
  {
    exists s :: Reachable(sys, s) && Wrong(sys, s)
  }

  ghost predicate Wrong(sys: System, s: S)
  {
    !sys.invariants(s) || Deadlock(sys, s)
  }

  /** Errors are counted with reason. */
  ghost predicate Justified(sys: System, c: Config)
  {
    && (forall t :: 0 <= t < |c.pc| ==> DeadOk(sys, c.pc[t]))
    && (c.errors > 0 ==> Faulty(sys))
  }

  ghost predicate Inv(sys: System, c: Config)
  {
    && Shape(sys, c) && Sound(sys, c) && Justified(sys, c)
    && (c.errors == 0 ==> Complete(sys, c) && Working(sys, c) && EmptyOk(c))
  }

  // ----- steps -----

  lemma Grown(sys: System, seen: set<S>, seen': set<S>, s: S)
    requires seen <= seen'
    ensures Settled(sys, seen, s) ==> Settled(sys, seen', s)
    ensures forall r: nat, dead :: Tried(sys, seen, s, r, dead) ==> Tried(sys, seen', s, r, dead)
  {
  }

  lemma StepShape(sys: System, limit: nat, c: Config, t: nat)
    requires Shape(sys, c) && Enabled(c, t)
    ensures Shape(sys, Step(sys, limit, c, t))
    ensures c.errors <= Step(sys, limit, c, t).errors && c.seen <= Step(sys, limit, c, t).seen
    ensures Step(sys, limit, c, t).launched == c.launched
  {
    var c' := Step(sys, limit, c, t);
    forall k, s | 0 <= k < |c'.queues| && s in c'.queues[k] ensures s in c'.seen {
      assert s in c.queues[k] || (c.pc[t].Queueing? && s == c.pc[t].n);
    }
  }

  lemma StepSound(sys: System, limit: nat, c: Config, t: nat)
    requires Shape(sys, c) && Sound(sys, c) && Enabled(c, t)
    ensures Sound(sys, Step(sys, limit, c, t))
  {
    hide Reachable;
    var pc := c.pc[t];
    if pc.Trying? && pc.r < sys.rules && sys.fire(pc.s, pc.r).Fired? && sys.fire(pc.s, pc.r).to.Some? {
      assert Leads(sys, pc.s, pc.r, sys.fire(pc.s, pc.r).to.value);
      ReachStep(sys, pc.s, sys.fire(pc.s, pc.r).to.value);
    }
  }

  // One more rule instance has been tried.
  lemma TriedMore(sys: System, seen: set<S>, s: S, r: nat, dead: bool)
    requires Tried(sys, seen, s, r, dead) && r < sys.rules
    requires forall x :: Leads(sys, s, r, x) ==> x in seen
    ensures Tried(sys, seen, s, r + 1, dead && !Progress(sys, s, r))
  {
    if sys.detection != Off && (!dead || Progress(sys, s, r)) {
      if dead { assert r < r + 1 && r < sys.rules && Progress(sys, s, r); }
      else {
        var i: nat :| i < r && i < sys.rules && Progress(sys, s, i);
        assert i < r + 1;
      }
    }
  }

  lemma TriedAll(sys: System, seen: set<S>, s: S, r: nat, dead: bool)
    requires Tried(sys, seen, s, r, dead) && r >= sys.rules && !(sys.detection != Off && dead)
    ensures Settled(sys, seen, s)
  {
    forall x | Edge(sys, s, x) ensures x in seen {
      var i: nat :| Leads(sys, s, i, x);
      assert i < r;
    }
  }

  lemma StepWorking(sys: System, limit: nat, c: Config, t: nat)
    requires Shape(sys, c) && Working(sys, c) && Enabled(c, t) && Step(sys, limit, c, t).errors == 0
    ensures Working(sys, Step(sys, limit, c, t))
  {
    hide Tried, Progress;
    var c' := Step(sys, limit, c, t);
    StepShape(sys, limit, c, t);
    forall u | 0 <= u < |c'.pc| ensures WorkOk(sys, c'.seen, c'.pc[u]) {
      assert WorkOk(sys, c.seen, c.pc[u]);
      if c.pc[u].Trying? || c.pc[u].Queueing? { Grown(sys, c.seen, c'.seen, c.pc[u].s); }
      if u == t { WorkAdvances(sys, limit, c, t); }
    }
  }

  lemma WorkAdvances(sys: System, limit: nat, c: Config, t: nat)
    requires Shape(sys, c) && Enabled(c, t) && WorkOk(sys, c.seen, c.pc[t]) && Step(sys, limit, c, t).errors == 0
    ensures WorkOk(sys, Step(sys, limit, c, t).seen, Step(sys, limit, c, t).pc[t])
  {
    hide Progress;
    var c', pc := Step(sys, limit, c, t), c.pc[t];
    if pc.Trying? && pc.r < sys.rules {
      Grown(sys, c.seen, c'.seen, pc.s);
      assert forall x :: Leads(sys, pc.s, pc.r, x) ==> x in c'.seen;
      TriedMore(sys, c'.seen, pc.s, pc.r, pc.dead);
      DisabledNoProgress(sys, pc.s, pc.r);
    }
  }

  lemma DisabledNoProgress(sys: System, s: S, r: nat)
    ensures sys.fire(s, r).Disabled? ==> !Progress(sys, s, r)
  {
  }

  // What a step does to the places where a state may be accounted for.
  lemma StepAccounts(sys: System, limit: nat, c: Config, t: nat, s: S)
    requires Shape(sys, c) && Working(sys, c) && Enabled(c, t) && Step(sys, limit, c, t).errors == 0
    requires s in c.seen && Accounted(sys, c, s)
    ensures Accounted(sys, Step(sys, limit, c, t), s)
  {
    hide Settled, Tried, Progress;
    var c' := Step(sys, limit, c, t);
    StepShape(sys, limit, c, t);
    Grown(sys, c.seen, c'.seen, s);
    if !Settled(sys, c.seen, s) {
      if Queued(c, s) {
        var k :| 0 <= k < |c.queues| && s in c.queues[k];
        QueuedAfter(sys, limit, c, t, s, k);
      } else {
        var u :| 0 <= u < |c.pc| && HeldBy(sys, c.seen, c.pc[u], s);
        if u != t { assert HeldBy(sys, c'.seen, c'.pc[u], s); } else { HeldAfter(sys, limit, c, t, s); }
      }
    }
  }

  lemma QueuedAfter(sys: System, limit: nat, c: Config, t: nat, s: S, k: nat)
    requires Shape(sys, c) && Enabled(c, t) && k < |c.queues| && s in c.queues[k]
    ensures Queued(Step(sys, limit, c, t), s) || Held(sys, Step(sys, limit, c, t), s)
  {
    hide Progress;
    var c' := Step(sys, limit, c, t);
    if s in c'.queues[k] {
      assert Queued(c', s);
    } else {
      assert s == c.queues[k][0] by { assert c.queues[k] == [c.queues[k][0]] + c.queues[k][1..]; }
      assert HeldBy(sys, c'.seen, c'.pc[t], s);
    }
  }

  lemma HeldAfter(sys: System, limit: nat, c: Config, t: nat, s: S)
    requires Shape(sys, c) && Enabled(c, t) && HeldBy(sys, c.seen, c.pc[t], s) && Step(sys, limit, c, t).errors == 0
    requires WorkOk(sys, c.seen, c.pc[t])
    ensures Accounted(sys, Step(sys, limit, c, t), s)
  {
    hide Settled, Progress, Tried;
    var c', pc := Step(sys, limit, c, t), c.pc[t];
    if pc.Trying? && pc.r >= sys.rules {
      TriedAll(sys, c.seen, s, pc.r, pc.dead);
    } else if pc.Queueing? && s == pc.n {
      assert s in c'.queues[t];
    } else {
      assert HeldBy(sys, c'.seen, c'.pc[t], s);
    }
  }

  lemma StepComplete(sys: System, limit: nat, c: Config, t: nat)
    requires Shape(sys, c) && Working(sys, c) && Complete(sys, c) && Enabled(c, t) && Step(sys, limit, c, t).errors == 0
    ensures Complete(sys, Step(sys, limit, c, t))
  {
    hide Accounted;
    var c' := Step(sys, limit, c, t);
    StepShape(sys, limit, c, t);
    forall s | s in c'.seen ensures Accounted(sys, c', s) {
      if s in c.seen { StepAccounts(sys, limit, c, t, s); }
      else { NewAccounted(sys, limit, c, t, s); }
    }
  }

  lemma NewAccounted(sys: System, limit: nat, c: Config, t: nat, s: S)
    requires Shape(sys, c) && Enabled(c, t) && s in Step(sys, limit, c, t).seen && s !in c.seen
    ensures Accounted(sys, Step(sys, limit, c, t), s)
  {
    var c' := Step(sys, limit, c, t);
    assert HeldBy(sys, c'.seen, c'.pc[t], s);
  }

  // A search that has gone round all queues has passed each of them.
  lemma AroundAll(n: nat, q: nat, u: nat) returns (b: nat)
    requires q < n && u < n
    ensures b < n && Wrap(n, q, b) == u
  {
    b := if u >= q then u - q else u + n - q;
  }

  lemma StepEmpty(sys: System, limit: nat, c: Config, t: nat)
    requires Shape(sys, c) && EmptyOk(c) && Enabled(c, t) && limit > 0 && c.errors == 0
    ensures EmptyOk(Step(sys, limit, c, t))
  {
    hide Progress, Passed;
    var c' := Step(sys, limit, c, t);
    StepShape(sys, limit, c, t);
    var n := |c.pc|;
    assert !c.launched ==> t == 0;
    forall u, v | 0 <= u < n && 0 <= v < n && Passed(n, c'.pc[u], v) && (c.launched ==> u == v) && (!c.launched ==> u == 0)
      ensures c'.queues[v] == []
    {
      PassedAfter(sys, limit, c, t, u, v);
    }
  }

  lemma PassedAfter(sys: System, limit: nat, c: Config, t: nat, u: nat, v: nat)
    requires Shape(sys, c) && Enabled(c, t) && limit > 0 && c.errors == 0 && u < |c.pc| && v < |c.pc|
    requires Passed(|c.pc|, Step(sys, limit, c, t).pc[u], v)
    requires Passed(|c.pc|, c.pc[u], v) ==> c.queues[v] == []
    requires u == v || t == u
    ensures Step(sys, limit, c, t).queues[v] == []
  {
    hide Progress;
    var c', pc := Step(sys, limit, c, t), c.pc[t];
    if u == t && pc.Seeking? {
      if pc.a == |c.pc| {
        var b := AroundAll(|c.pc|, pc.q, v);
        assert Passed(|c.pc|, pc, v);
      } else if c'.pc[t].Seeking? {
        var b :| 0 <= b < c'.pc[t].a && Wrap(|c.pc|, pc.q, b) == v;
        if b < pc.a { assert Passed(|c.pc|, pc, v); }
      }
    }
  }

  // ----- what is counted as an error -----

  /** What thread t is about to find wrong: a rule instance leads from its state to one
      that violates the invariants, or all instances have been tried and its state is
      a deadlock. */
  ghost predicate Finds(sys: System, c: Config, t: nat)
    requires t < |c.pc|
  {
    var pc := c.pc[t];
    && pc.Trying?
    && ((exists x :: Leads(sys, pc.s, pc.r, x) && !sys.invariants(x)) || (pc.r >= sys.rules && Deadlock(sys, pc.s)))
  }

  /** A step counts an error, and just one, if and only if its thread finds something wrong. */
  lemma StepCounts(sys: System, limit: nat, c: Config, t: nat)
    requires Enabled(c, t) && DeadOk(sys, c.pc[t])
    ensures Step(sys, limit, c, t).errors == c.errors + if Finds(sys, c, t) then 1 else 0
  {
    hide Progress;
    var pc := c.pc[t];
    if pc.Trying? && pc.r < sys.rules {
      var f := sys.fire(pc.s, pc.r);
      if f.Fired? && f.to.Some? { assert Leads(sys, pc.s, pc.r, f.to.value); }
    }
  }

  lemma DeadAdvances(sys: System, limit: nat, c: Config, t: nat)
    requires Enabled(c, t) && DeadOk(sys, c.pc[t])
    ensures DeadOk(sys, Step(sys, limit, c, t).pc[t])
  {
    hide Progress;
    var pc := c.pc[t];
    if pc.Trying? && pc.r < sys.rules { DisabledNoProgress(sys, pc.s, pc.r); }
  }

  lemma FoundFaulty(sys: System, c: Config, t: nat)
    requires Shape(sys, c) && Sound(sys, c) && t < |c.pc| && Finds(sys, c, t)
    ensures Faulty(sys)
  {
    hide Reachable, Deadlock;
    var s, r := c.pc[t].s, c.pc[t].r;
    assert Reachable(sys, s);
    if r >= sys.rules && Deadlock(sys, s) {
      assert Wrong(sys, s);
    } else {
      var x :| Leads(sys, s, r, x) && !sys.invariants(x);
      ReachStep(sys, s, x);
      assert Wrong(sys, x);
    }
  }

  lemma StepJustified(sys: System, limit: nat, c: Config, t: nat)
    requires Shape(sys, c) && Sound(sys, c) && Justified(sys, c) && Enabled(c, t)
    ensures Justified(sys, Step(sys, limit, c, t))
  {
    hide Shape, Sound, DeadOk, Faulty, Finds;
    var c' := Step(sys, limit, c, t);
    DeadAdvances(sys, limit, c, t);
    StepCounts(sys, limit, c, t);
    if Finds(sys, c, t) { FoundFaulty(sys, c, t); }
  }

  /** Every step keeps the invariant. */
  lemma StepInv(sys: System, limit: nat, c: Config, t: nat)
    requires Inv(sys, c) && Enabled(c, t) && limit > 0
    ensures Inv(sys, Step(sys, limit, c, t))
  {
    hide Shape, Sound, Justified, Complete, Working, EmptyOk;
    StepShape(sys, limit, c, t);
    StepSound(sys, limit, c, t);
    StepJustified(sys, limit, c, t);
    if Step(sys, limit, c, t).errors == 0 {
      StepComplete(sys, limit, c, t);
      StepWorking(sys, limit, c, t);
      StepEmpty(sys, limit, c, t);
    }
  }

  lemma LaunchInv(sys: System, c: Config)
    requires Inv(sys, c) && CanLaunch(c)
    ensures Inv(sys, Launch(c))
  {
    hide Settled, Tried;
    var c' := Launch(c);
    if c.errors == 0 {
      forall s | s in c.seen ensures Accounted(sys, c', s) {
        assert Accounted(sys, c, s);
        if Queued(c, s) { assert Queued(c', s); }
        else if Held(sys, c, s) {
          var t :| 0 <= t < |c.pc| && HeldBy(sys, c.seen, c.pc[t], s);
          assert HeldBy(sys, c'.seen, c'.pc[t], s);
        }
      }
    }
  }

  lemma {:induction false} StoredInv(sys: System, n: nat, i: nat)
    requires n > 0 && i <= |sys.starts|
    ensures var c := Stored(sys, n, i).0;
            && Shape(sys, c) && Sound(sys, c)
            && (forall s :: s in c.seen ==> Queued(c, s))
            && (c.errors == 0 ==> forall j :: 0 <= j < i ==> sys.starts[j] in c.seen)
            && (c.errors > 0 <==> exists j :: 0 <= j < i && !sys.invariants(sys.starts[j]))
  {
    hide Reachable, Tried;
    if i > 0 {
      StoredInv(sys, n, i - 1);
      var (b, q) := Stored(sys, n, i - 1);
      var c := Stored(sys, n, i).0;
      var s := sys.starts[i - 1];
      ReachStart(sys, s);
      forall x | x in c.seen ensures Queued(c, x) {
        if x in b.seen {
          assert Queued(b, x);
          var k :| 0 <= k < |b.queues| && x in b.queues[k];
          assert x in c.queues[k];
        } else {
          assert x in c.queues[q];
        }
      }
    }
  }

  lemma UnstartedOk(sys: System, c: Config)
    requires |c.queues| == |c.pc| > 0 && c.pc == Unstarted(|c.pc|) && !c.launched
    ensures EmptyOk(c) && Working(sys, c) && forall t :: 0 <= t < |c.pc| ==> DeadOk(sys, c.pc[t])
  {
  }

  lemma StartFaulty(sys: System, j: nat)
    requires j < |sys.starts| && !sys.invariants(sys.starts[j])
    ensures Faulty(sys)
  {
    ReachStart(sys, sys.starts[j]);
    assert Wrong(sys, sys.starts[j]);
  }

  lemma InitialInv(sys: System, n: nat)
    requires n > 0
    ensures Inv(sys, Initial(sys, n))
  {
    hide Settled, Tried, Shape, Sound, EmptyOk, Working, Stored, Queued, DeadOk, Faulty;
    StoredInv(sys, n, |sys.starts|);
    UnstartedOk(sys, Initial(sys, n));
    if Initial(sys, n).errors > 0 {
      var j :| 0 <= j < |sys.starts| && !sys.invariants(sys.starts[j]);
      StartFaulty(sys, j);
    }
  }

  /** When every thread that was started has exited and nothing was found to be in
      error, all queues are empty, the seen states are exactly the reachable ones,
      all of them satisfy the invariants, and none is a deadlock. */
  lemma SearchComplete(sys: System, c: Config)
    requires Inv(sys, c) && c.errors == 0
    requires forall t :: 0 <= t < |c.pc| ==> c.pc[t].Exited? || c.pc[t].Waiting?
    ensures forall k :: 0 <= k < |c.queues| ==> c.queues[k] == []
    ensures forall s :: s in c.seen <==> Reachable(sys, s)
    ensures forall s :: Reachable(sys, s) ==> sys.invariants(s) && !Deadlock(sys, s)
  {
    hide Deadlock;
    forall k | 0 <= k < |c.queues| ensures c.queues[k] == [] {
      assert Passed(|c.pc|, c.pc[if c.launched then k else 0], k);
    }
    forall s | s in c.seen ensures Settled(sys, c.seen, s) { assert Accounted(sys, c, s); }
    forall s | Reachable(sys, s) ensures s in c.seen {
      var d: nat :| Within(sys, d, s);
      ClosedHasAll(sys, c.seen, d, s);
    }
  }

  /** The verdict of a search that has come to its end is right: no error was counted if
      and only if every state that can be reached satisfies the invariants and none is
      a deadlock. And an error counted earlier is never a false alarm. */
  lemma Verdict(sys: System, c: Config)
    requires Inv(sys, c)
    ensures c.errors > 0 ==> Faulty(sys)
    ensures (forall t :: 0 <= t < |c.pc| ==> c.pc[t].Exited? || c.pc[t].Waiting?) ==> (c.errors == 0 <==> !Faulty(sys))
  {
    hide Deadlock, Reachable;
    if c.errors == 0 && (forall t :: 0 <= t < |c.pc| ==> c.pc[t].Exited? || c.pc[t].Waiting?) { SearchComplete(sys, c); }
  }

  // ----- whole runs -----

  /** A step of a thread, or the launch. */
  datatype Event = Thread(t: nat) | Start

  predicate Takes(sys: System, limit: nat, c: Config, e: Event, c': Config)
  {
    match e
    case Thread(t) => Enabled(c, t) && c' == Step(sys, limit, c, t)
    case Start => CanLaunch(c) && c' == Launch(c)
  }

  predicate IsRun(sys: System, limit: nat, n: nat, cs: seq<Config>, es: seq<Event>)
  {
    && n > 0 && limit > 0 && |cs| == |es| + 1 && cs[0] == Initial(sys, n)
    && forall i :: 0 <= i < |es| ==> Takes(sys, limit, cs[i], es[i], cs[i + 1])
  }

  /** Whatever the number of threads and however their steps interleave. */
  lemma {:induction false} RunInv(sys: System, limit: nat, n: nat, cs: seq<Config>, es: seq<Event>, i: nat)
    requires IsRun(sys, limit, n, cs, es) && i < |cs|
    ensures Inv(sys, cs[i])
  {
    hide Inv, Step, Launch, Enabled, Initial;
    if i == 0 {
      InitialInv(sys, n);
    } else {
      RunInv(sys, limit, n, cs, es, i - 1);
      assert Takes(sys, limit, cs[i - 1], es[i - 1], cs[i]);
      match es[i - 1] {
        case Thread(t) => StepInv(sys, limit, cs[i - 1], t);
        case Start => LaunchInv(sys, cs[i - 1]);
      }
    }
  }
}
