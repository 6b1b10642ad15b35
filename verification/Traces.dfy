/** Counterexample traces under symmetry reduction: undoing each stored state's own
    rearrangement gives states the model really passes through. */
module Traces {
  import opened Options
  import opened BitNumbers
  import opened Permutations
  import opened Types
  import opened Action
  import opened Orbits
  import opened StateData

  /** A rule parameter: its value, and the scalarset it ranges over, if any. */
  datatype Arg = Arg(n: nat, scalarset: Option<nat>)

  /** A rule of the model, by number, relates states for given parameters. */
  type Rules = (Value, nat, seq<Arg>, Value) -> bool

  ghost function ActArg(k: nat, p: seq<nat>, a: Arg): Arg
    requires IsPerm(p)
  {
    if a.scalarset == Some(k) && a.n < |p| then Present(p, a.n); a.(n := Where(p, a.n)) else a
  }

  ghost function ActArgs(k: nat, p: seq<nat>, args: seq<Arg>): seq<Arg>
    requires IsPerm(p)
  {
    seq(|args|, i requires 0 <= i < |args| => ActArg(k, p, args[i]))
  }

  /** The rules do not tell the elements of a scalarset apart. */
  ghost predicate Equivariant(m: Model, rules: Rules)
    requires ModelOk(m)
  {
    forall k, p, v, r, args, w {:trigger rules(v, r, args, w), Act(m.t, k, p, v)} ::
      PermOf(m, k, p) && Has(m.t, v) && Has(m.t, w) && rules(v, r, args, w)
      ==> rules(Act(m.t, k, p, v), r, ActArgs(k, p, args), Act(m.t, k, p, w))
  }

  // ----- undoing a stored state's schedules -----

  ghost function Unstored(m: Model, i: nat, ps: seq<seq<nat>>, v: Value): (r: Value)
    requires ModelOk(m) && Schedules(m, ps) && i <= |ps| && Has(m.t, v)
    ensures Has(m.t, r)
    decreases |m.bounds| - i
  {
    if i == |ps| then v else Unstored(m, i + 1, ps, Act(m.t, i, Inverse(ps[i]), v))
  }

  lemma {:induction false} StoredUnstored(m: Model, i: nat, ps: seq<seq<nat>>, v: Value)
    requires ModelOk(m) && Schedules(m, ps) && i <= |ps| && Has(m.t, v)
    ensures Unstored(m, i, ps, Stored(m, i, ps, v)) == v && Stored(m, i, ps, Unstored(m, i, ps, v)) == v
    decreases |m.bounds| - i
  {
    hide Act, IsPerm, Inverse, Has;
    if i < |ps| {
      ActInverse(m.t, i, ps[i], Stored(m, i + 1, ps, v));
      StoredUnstored(m, i + 1, ps, v);
      ActInverse(m.t, i, ps[i], v);
      StoredUnstored(m, i + 1, ps, Act(m.t, i, Inverse(ps[i]), v));
    }
  }

  ghost function UnstoredArgs(m: Model, i: nat, ps: seq<seq<nat>>, args: seq<Arg>): seq<Arg>
    requires Schedules(m, ps) && i <= |ps|
    decreases |ps| - i
  {
    if i == |ps| then args else UnstoredArgs(m, i + 1, ps, ActArgs(i, Inverse(ps[i]), args))
  }

  lemma {:induction false} RuleUnstored(m: Model, rules: Rules, i: nat, ps: seq<seq<nat>>, v: Value, r: nat, args: seq<Arg>, w: Value)
    requires ModelOk(m) && Equivariant(m, rules) && Schedules(m, ps) && i <= |ps| && Has(m.t, v) && Has(m.t, w)
    requires rules(v, r, args, w)
    ensures rules(Unstored(m, i, ps, v), r, UnstoredArgs(m, i, ps, args), Unstored(m, i, ps, w))
    decreases |m.bounds| - i
  {
    hide Act, IsPerm, Has, ActArgs;
    if i < |ps| {
      var p := Inverse(ps[i]);
      assert PermOf(m, i, p);
      RuleUnstored(m, rules, i + 1, ps, Act(m.t, i, p, v), r, ActArgs(i, p, args), Act(m.t, i, p, w));
    }
  }

  /** How a trace prints a parameter: mapped through the schedule that the state the
      rule was fired from has for its scalarset. */
  function Printed(m: Model, ps: seq<seq<nat>>, a: Arg): Arg
    requires Schedules(m, ps)
  {
    if a.scalarset.Some? && a.scalarset.value < |ps| && a.n < |ps[a.scalarset.value]|
    then a.(n := ps[a.scalarset.value][a.n]) else a
  }

  lemma {:induction false} UnstoredArgsPrint(m: Model, i: nat, ps: seq<seq<nat>>, args: seq<Arg>)
    requires Schedules(m, ps) && i <= |ps|
    ensures |UnstoredArgs(m, i, ps, args)| == |args|
    ensures forall j :: 0 <= j < |args| ==>
              UnstoredArgs(m, i, ps, args)[j] == if args[j].scalarset.Some? && args[j].scalarset.value >= i then Printed(m, ps, args[j]) else args[j]
    decreases |ps| - i
  {
    if i < |ps| {
      var mapped := ActArgs(i, Inverse(ps[i]), args);
      UnstoredArgsPrint(m, i + 1, ps, mapped);
      forall j | 0 <= j < |args|
        ensures mapped[j] == if args[j].scalarset == Some(i) then Printed(m, ps, args[j]) else args[j]
      {
        ActArgPrints(i, ps[i], args[j]);
      }
    }
  }

  lemma ActArgPrints(k: nat, p: seq<nat>, a: Arg)
    requires IsPerm(p)
    ensures ActArg(k, Inverse(p), a) == if a.scalarset == Some(k) && a.n < |p| then a.(n := p[a.n]) else a
  {
    if a.scalarset == Some(k) && a.n < |p| {
      WhereAt(Inverse(p), p[a.n]);
    }
  }

  // ----- traces -----

  datatype Entry = Entry(data: Bits, numbers: seq<nat>)

  predicate EntryOk(m: Model, e: Entry)
  {
    ModelOk(m) && |e.data| == Width(m.t) && |e.data| % 8 == 0 && Numbers(m, e.numbers)
  }

  /** The state as it is printed: what the stored one stands for. */
  ghost function View(m: Model, e: Entry): (v: Value)
    requires EntryOk(m, e)
    ensures Has(m.t, v)
  {
    Unstored(m, 0, Chosen(m, e.numbers), Decode(m.t, e.data))
  }

  lemma ViewStands(m: Model, e: Entry, v: Value)
    requires EntryOk(m, e) && Has(m.t, v)
    ensures StandsFor(m, e.data, e.numbers, v) <==> v == View(m, e)
  {
    hide Decode, Has, Chosen;
    StoredUnstored(m, 0, Chosen(m, e.numbers), v);
    StoredUnstored(m, 0, Chosen(m, e.numbers), Decode(m.t, e.data));
  }

  /** A new state is a copy of an old one, schedules and all, that a rule was applied
      to; storing it may rearrange it in any way that leaves what it stands for. */
  ghost predicate Follows(m: Model, rules: Rules, e: Entry, r: nat, args: seq<Arg>, e': Entry)
    requires EntryOk(m, e) && EntryOk(m, e')
  {
    exists b: Bits ::
      && |b| == Width(m.t) && rules(Decode(m.t, e.data), r, args, Decode(m.t, b))
      && StandsFor(m, e'.data, e'.numbers, View(m, Entry(b, e.numbers)))
  }

  /** In the trace as printed, every transition is one of the model: the printed
      rule, with the printed parameters, leads from one printed state to the next. */
  lemma PrintedStep(m: Model, rules: Rules, e: Entry, r: nat, args: seq<Arg>, e': Entry)
    requires EntryOk(m, e) && EntryOk(m, e') && Equivariant(m, rules) && Follows(m, rules, e, r, args, e')
    ensures rules(View(m, e), r, seq(|args|, j requires 0 <= j < |args| => Printed(m, Chosen(m, e.numbers), args[j])), View(m, e'))
  {
    hide Decode, Has, Chosen, Printed, IsPerm, Equivariant, StandsFor;
    var b: Bits :|
      && |b| == Width(m.t) && rules(Decode(m.t, e.data), r, args, Decode(m.t, b))
      && StandsFor(m, e'.data, e'.numbers, View(m, Entry(b, e.numbers)));
    var ps := Chosen(m, e.numbers);
    RuleUnstored(m, rules, 0, ps, Decode(m.t, e.data), r, args, Decode(m.t, b));
    UnstoredArgsPrint(m, 0, ps, args);
    var printed := seq(|args|, j requires 0 <= j < |args| => Printed(m, ps, args[j]));
    UnscheduledPrints(m, ps, args);
    assert UnstoredArgs(m, 0, ps, args) == printed;
    ViewStands(m, e', View(m, Entry(b, e.numbers)));
  }

  lemma UnscheduledPrints(m: Model, ps: seq<seq<nat>>, args: seq<Arg>)
    requires Schedules(m, ps)
    ensures forall j :: 0 <= j < |args| && args[j].scalarset.None? ==> Printed(m, ps, args[j]) == args[j]
  {
  }

  /** A whole stored trace: a start state, stored under schedules, and what followed. */
  ghost predicate IsTrace(m: Model, rules: Rules, start: Value -> bool, es: seq<Entry>, rs: seq<nat>, args: seq<seq<Arg>>)
  {
    && |es| == |rs| + 1 && |args| == |rs|
    && (forall i :: 0 <= i < |es| ==> EntryOk(m, es[i]))
    && start(View(m, es[0]))
    && forall i :: 0 <= i < |rs| ==> Follows(m, rules, es[i], rs[i], args[i], es[i + 1])
  }

  /** The states as printed are a run of the model from a start state. */
  lemma TraceIsRun(m: Model, rules: Rules, start: Value -> bool, es: seq<Entry>, rs: seq<nat>, args: seq<seq<Arg>>, i: nat)
    requires IsTrace(m, rules, start, es, rs, args) && i < |rs| && Equivariant(m, rules)
    ensures start(View(m, es[0]))
    ensures var printed := seq(|args[i]|, j requires 0 <= j < |args[i]| => Printed(m, Chosen(m, es[i].numbers), args[i][j]));
            rules(View(m, es[i]), rs[i], printed, View(m, es[i + 1]))
  {
    hide View, Follows, Printed, Chosen;
    PrintedStep(m, rules, es[i], rs[i], args[i], es[i + 1]);
  }
}
