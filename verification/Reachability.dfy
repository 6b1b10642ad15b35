/** The state graph that is explored. */
module Reachability {
  import opened Options
  import opened BitNumbers

  /** A state is known by its packed data. */
  type S = Bits

  /** What firing an instance of a rule comes to: its guard is false; or it led to a
      state, which `moved` says is not the one it was fired from, and whose canonical
      form, unless an assumption rules it out, is `to`. */
  datatype Firing = Disabled | Fired(moved: bool, to: Option<S>)

  datatype Detection = Off | Stuck | Stuttering

  /** The canonical start states that satisfy the assumptions, the rule instances,
      the invariants, and which states count as deadlocks. */
  datatype System = System(
    starts: seq<S>,
    rules: nat,
    fire: (S, nat) -> Firing,
    invariants: S -> bool,
    detection: Detection)

  predicate Leads(sys: System, s: S, r: nat, x: S)
  {
    r < sys.rules && sys.fire(s, r).Fired? && sys.fire(s, r).to == Some(x)
  }

  ghost predicate Edge(sys: System, s: S, x: S)
  {
    exists r: nat :: Leads(sys, s, r, x)
  }

  /** s is d steps from a start state, along some path. */
  ghost predicate Within(sys: System, d: nat, s: S)
  {
    if d == 0 then s in sys.starts else exists p :: Within(sys, d - 1, p) && Edge(sys, p, s)
  }

  ghost predicate Reachable(sys: System, s: S)
  {
    exists d: nat :: Within(sys, d, s)
  }

  lemma ReachStart(sys: System, s: S)
    requires s in sys.starts
    ensures Reachable(sys, s)
  {
    assert Within(sys, 0, s);
  }

  lemma ReachStep(sys: System, s: S, x: S)
    requires Reachable(sys, s) && Edge(sys, s, x)
    ensures Reachable(sys, x)
  {
    var d: nat :| Within(sys, d, s);
    assert Within(sys, d + 1, x);
  }

  /** A set that has the start states and every successor of its own states has
      every reachable state. */
  lemma {:induction false} ClosedHasAll(sys: System, seen: set<S>, d: nat, s: S)
    requires forall x :: x in sys.starts ==> x in seen
    requires forall p, x :: p in seen && Edge(sys, p, x) ==> x in seen
    requires Within(sys, d, s)
    ensures s in seen
  {
    if d > 0 {
      var p :| Within(sys, d - 1, p) && Edge(sys, p, s);
      ClosedHasAll(sys, seen, d - 1, p);
    }
  }

  /** A rule instance that shows s is no deadlock. */
  predicate Progress(sys: System, s: S, r: nat)
  {
    sys.fire(s, r).Fired? && (sys.detection != Stuttering || sys.fire(s, r).moved)
  }

  ghost predicate Deadlock(sys: System, s: S)
  {
    sys.detection != Off && forall r: nat :: r < sys.rules ==> !Progress(sys, s, r)
  }

  /** What counts as a deadlock under each kind of detection: that no rule instance can
      be fired, or that none fired leads away from the state. */
  lemma DeadlockMeans(sys: System, s: S)
    ensures Deadlock(sys, s) <==>
              match sys.detection
              case Off => false
              case Stuck => forall r: nat :: r < sys.rules ==> sys.fire(s, r).Disabled?
              case Stuttering => forall r: nat :: r < sys.rules ==> sys.fire(s, r).Disabled? || !sys.fire(s, r).moved
  {
    if sys.detection != Off {
      forall r: nat | r < sys.rules
        ensures Progress(sys, s, r) <==> !sys.fire(s, r).Disabled? && (sys.detection == Stuck || sys.fire(s, r).moved)
      {
      }
    }
  }
}
