/** A run in which a thread that is opting out leads two rendezvous, and the second
    time releases a table that was released already. */
module SetRetry {
  import opened Options
  import opened SetMachine
  import opened SetInvariant
  import opened SetSafety
  import opened SetRefinement

  /** Some run of the machine that begins in c passes through c'. */
  ghost predicate Reaches(env: Env, c: Config, c': Config)
  {
    exists cs, es :: IsRun(env, cs, es) && cs[0] == c && cs[|es|] == c'
  }

  lemma Go(env: Env, c0: Config, c: Config, t: nat, ch: Choice) returns (c': Config)
    requires Reaches(env, c0, c) && Sized(c) && Enabled(c, t, ch) && Step(env, c, t, ch).Next?
    ensures Reaches(env, c0, c') && c' == Step(env, c, t, ch).c
  {
    hide Step, Enabled, Initial;
    c' := Step(env, c, t, ch).c;
    var cs, es :| IsRun(env, cs, es) && cs[0] == c0 && cs[|es|] == c;
    var cs', es' := cs + [c'], es + [Event(t, ch)];
    forall i | 0 <= i < |es'| ensures Takes(env, cs'[i], es'[i], cs'[i + 1]) {
      if i < |es| { assert Takes(env, cs[i], es[i], cs[i + 1]); }
    }
    assert IsRun(env, cs', es');
  }

  const ENV := Env(_ => 0, _ => 0, 1, 65)

  /** One table of one slot, and two threads. */
  function Begin(): Config
  {
    Config(map[0 := [Empty]], Ref(Some(0), 1), Ref(None, 0), 0, false, 1, 1, 0, [0, 0], [Idle, Dormant], [Empty])
  }

  // Thread 0 is opting out, and nothing is being migrated.
  function Quiet(l: nat, tab: Table, pc: PC): Config
  {
    Config(map[l := tab], Ref(Some(l), 1), Ref(None, 0), 0, false, 2, 2, |tab|, [0, l], [OptOut, pc], tab)
  }

  // Thread 0 is opting out, and thread 1 waits for it.
  function Waiting(l: nat, tab: Table, old_: Table, new_: Table, s: State): Config
  {
    Config(map[l := old_, l + 1 := new_], Ref(Some(l), 0), Ref(Some(l + 1), 1), |tab| + 1, false, 2, 1, |tab|,
           [0, l], [OptOut, Wait(s, l + 1)], tab)
  }

  lemma BeginReached()
    ensures Reaches(ENV, Begin(), Begin())
  {
    assert Initial(ENV, Begin());
    assert IsRun(ENV, [Begin()], []);
  }

  // Both threads run, and thread 0 is done exploring.
  lemma Launches() returns (c: Config)
    ensures Reaches(ENV, Begin(), c) && c == Quiet(0, [Empty], Idle).(count := 0)
  {
    hide Reaches, InsertStep, ExpandStep, MigrateStep, Depart;
    BeginReached();
    c := Begin();
    c := Go(ENV, Begin(), c, 0, Launch);
    assert c.pc == [Idle, Spawned];
    c := Go(ENV, Begin(), c, 1, Run(9));
    c := Go(ENV, Begin(), c, 0, Exit);
    c := Go(ENV, Begin(), c, 0, Run(9));
    assert c.pc == [OptOut, Idle] && c.local == [0, 0];
  }

  // Thread 1 inserts its first state.
  lemma InsertsFirst(a: State) returns (c: Config)
    ensures Reaches(ENV, Begin(), c) && c == Quiet(0, [Full(0, a)], Idle)
  {
    hide Reaches, ExpandStep, MigrateStep, MeetStep;
    c := Launches();
    c := Go(ENV, Begin(), c, 1, Insert(a));
    c := Go(ENV, Begin(), c, 1, Run(9));
    c := Go(ENV, Begin(), c, 1, Run(9));
    c := Go(ENV, Begin(), c, 1, Run(9));
    c := Go(ENV, Begin(), c, 1, Run(9));
    c := Go(ENV, Begin(), c, 1, Run(9));
    assert c.tables[0] == [Full(0, a)];
    assert c.tables == map[0 := [Full(0, a)]] && c.content == [Full(0, a)];
    assert c.pc == [OptOut, Idle] && c.local == [0, 0];
  }

  // Thread 1 finds the table full.
  lemma Locks(a: State, b: State) returns (c: Config)
    ensures Reaches(ENV, Begin(), c) && c == Quiet(0, [Full(0, a)], Lock(b))
  {
    hide Reaches, MigrateStep, MeetStep;
    c := InsertsFirst(a);
    c := Go(ENV, Begin(), c, 1, Insert(b));
    c := Go(ENV, Begin(), c, 1, Run(9));
    c := Go(ENV, Begin(), c, 1, Run(9));
    assert c.pc == [OptOut, Lock(b)];
  }

  // It publishes a new one.
  lemma Publishes(a: State, b: State) returns (c: Config)
    ensures Reaches(ENV, Begin(), c)
    ensures c == Quiet(0, [Full(0, a)], Unlock(b)).(tables := map[0 := [Full(0, a)], 1 := [Empty, Empty]], next := Ref(Some(1), 0), mutex := true)
  {
    hide Reaches, InsertStep, MigrateStep, MeetStep;
    c := Locks(a, b);
    c := Go(ENV, Begin(), c, 1, Run(9));
    c := Go(ENV, Begin(), c, 1, Run(9));
    c := Go(ENV, Begin(), c, 1, Run(1));
    assert c.tables[1] == [Empty, Empty] && c.tables == map[0 := [Full(0, a)], 1 := [Empty, Empty]];
    assert c.pc == [OptOut, Unlock(b)];
  }

  // It takes on the only chunk, and the state in it.
  lemma TakesOn(a: State, b: State) returns (c: Config)
    ensures Reaches(ENV, Begin(), c)
    ensures c == Quiet(0, [Full(0, a)], Carry(b, 1, 0, 1, Full(0, a), 0)).(
                   tables := map[0 := [Tombstone], 1 := [Empty, Empty]], next := Ref(Some(1), 1), migration := 1)
  {
    hide Reaches, InsertStep, MeetStep;
    c := Publishes(a, b);
    c := Go(ENV, Begin(), c, 1, Run(9));
    c := Go(ENV, Begin(), c, 1, Run(9));
    c := Go(ENV, Begin(), c, 1, Run(9));
    c := Go(ENV, Begin(), c, 1, Run(9));
    assert c.tables[0] == [Tombstone] && c.tables == map[0 := [Tombstone], 1 := [Empty, Empty]];
    assert c.pc == [OptOut, Carry(b, 1, 0, 1, Full(0, a), 0)];
  }

  // It puts that state into the new table.
  lemma Stores(a: State, b: State) returns (c: Config)
    ensures Reaches(ENV, Begin(), c)
    ensures c == Quiet(0, [Full(0, a)], Grab(b, 1)).(
                   tables := map[0 := [Tombstone], 1 := [Full(0, a), Empty]], next := Ref(Some(1), 1), migration := 1)
  {
    hide Reaches, InsertStep, ExpandStep, MeetStep;
    c := TakesOn(a, b);
    c := Go(ENV, Begin(), c, 1, Run(9));
    assert c.tables[1] == [Full(0, a), Empty];
    assert c.tables == map[0 := [Tombstone], 1 := [Full(0, a), Empty]];
    assert c.pc == [OptOut, Grab(b, 1)];
  }

  // There is nothing left to migrate: thread 1 waits.
  lemma WaitsFirst(a: State, b: State) returns (c: Config)
    ensures Reaches(ENV, Begin(), c) && c == Waiting(0, [Full(0, a)], [Tombstone], [Full(0, a), Empty], b)
  {
    hide Reaches, InsertStep, ExpandStep, Depart;
    c := Stores(a, b);
    c := Go(ENV, Begin(), c, 1, Run(9));
    c := Go(ENV, Begin(), c, 1, Run(9));
    c := Go(ENV, Begin(), c, 1, Run(9));
    assert c.pc == [OptOut, Wait(b, 1)];
  }

  // Thread 0 leads, and tries to opt out again.
  lemma Led(a: State, b: State) returns (c: Config)
    ensures Reaches(ENV, Begin(), c)
    ensures c == Quiet(1, [Full(0, a), Empty], Woken(b, 1)).(count := 1, local := [0, 0])
  {
    hide Reaches, InsertStep, ExpandStep, MigrateStep;
    c := WaitsFirst(a, b);
    c := Go(ENV, Begin(), c, 0, Run(9));
    assert c.tables == map[1 := [Full(0, a), Empty]];
    assert c.pc == [OptOut, Woken(b, 1)];
  }

  // Thread 1 looks for a slot.
  lemma Probes(a: State, b: State) returns (c: Config)
    requires a != b
    ensures Reaches(ENV, Begin(), c) && c == Quiet(1, [Full(0, a), Empty], Claim(b, 1)).(count := 1)
  {
    hide Reaches, ExpandStep, MigrateStep, Depart;
    c := Led(a, b);
    c := Go(ENV, Begin(), c, 1, Run(9));
    c := Go(ENV, Begin(), c, 1, Run(9));
    c := Go(ENV, Begin(), c, 1, Run(9));
    c := Go(ENV, Begin(), c, 1, Run(9));
    assert c.pc == [OptOut, Claim(b, 1)] && c.local == [0, 1];
  }

  // It finishes inserting.
  lemma InsertsSecond(a: State, b: State) returns (c: Config)
    requires a != b
    ensures Reaches(ENV, Begin(), c) && c == Quiet(1, [Full(0, a), Full(0, b)], Idle)
  {
    hide Reaches, ExpandStep, MigrateStep, Depart, MeetStep;
    c := Probes(a, b);
    c := Go(ENV, Begin(), c, 1, Run(9));
    c := Go(ENV, Begin(), c, 1, Run(9));
    c := Go(ENV, Begin(), c, 1, Run(9));
    assert c.tables[1] == [Full(0, a), Full(0, b)];
    assert c.tables == map[1 := [Full(0, a), Full(0, b)]] && c.content == [Full(0, a), Full(0, b)];
    assert c.pc == [OptOut, Idle] && c.local == [0, 1];
  }

  // Thread 1 finds the table full and starts migrating.
  lemma ExpandsAgain(a: State, b: State, x: State) returns (c: Config)
    requires a != b
    ensures Reaches(ENV, Begin(), c)
    ensures c == Quiet(1, [Full(0, a), Full(0, b)], Grab(x, 2)).(tables := map[1 := [Full(0, a), Full(0, b)], 2 := Blank(4)], next := Ref(Some(2), 1))
  {
    hide Reaches;
    c := InsertsSecond(a, b);
    c := Go(ENV, Begin(), c, 1, Insert(x));
    c := Go(ENV, Begin(), c, 1, Run(9));
    c := Go(ENV, Begin(), c, 1, Run(9));
    c := Go(ENV, Begin(), c, 1, Run(9));
    c := Go(ENV, Begin(), c, 1, Run(9));
    c := Go(ENV, Begin(), c, 1, Run(2));
    c := Go(ENV, Begin(), c, 1, Run(9));
    c := Go(ENV, Begin(), c, 1, Run(9));
    assert c.tables == map[1 := [Full(0, a), Full(0, b)], 2 := Blank(4)];
    assert c.pc == [OptOut, Grab(x, 2)] && c.local == [0, 1];
  }

  // It migrates the first of two states.
  lemma Settles(a: State, b: State, x: State) returns (c: Config)
    requires a != b
    ensures Reaches(ENV, Begin(), c)
    ensures c == Quiet(1, [Full(0, a), Full(0, b)], Grab(x, 2)).(
                   tables := map[1 := [Tombstone, Full(0, b)], 2 := [Full(0, a), Empty, Empty, Empty]],
                   next := Ref(Some(2), 1), migration := 1)
  {
    hide Reaches, InsertStep, ExpandStep, MeetStep;
    c := ExpandsAgain(a, b, x);
    assert Blank(4) == [Empty, Empty, Empty, Empty];
    c := Go(ENV, Begin(), c, 1, Run(9));
    c := Go(ENV, Begin(), c, 1, Run(9));
    c := Go(ENV, Begin(), c, 1, Run(9));
    assert c.tables[1] == [Tombstone, Full(0, b)] && c.tables[2] == [Full(0, a), Empty, Empty, Empty];
    assert c.tables == map[1 := [Tombstone, Full(0, b)], 2 := [Full(0, a), Empty, Empty, Empty]];
    assert c.pc == [OptOut, Grab(x, 2)];
  }

  // It takes the second, which has the same home.
  lemma TakesSecond(a: State, b: State, x: State) returns (c: Config)
    requires a != b
    ensures Reaches(ENV, Begin(), c)
    ensures c == Quiet(1, [Full(0, a), Full(0, b)], Carry(x, 2, 1, 2, Full(0, b), 0)).(
                   tables := map[1 := [Tombstone, Tombstone], 2 := [Full(0, a), Empty, Empty, Empty]],
                   next := Ref(Some(2), 1), migration := 2)
  {
    hide Reaches, InsertStep, ExpandStep, MeetStep;
    c := Settles(a, b, x);
    c := Go(ENV, Begin(), c, 1, Run(9));
    c := Go(ENV, Begin(), c, 1, Run(9));
    assert c.tables[1] == [Tombstone, Tombstone];
    assert c.tables == map[1 := [Tombstone, Tombstone], 2 := [Full(0, a), Empty, Empty, Empty]];
    assert c.pc == [OptOut, Carry(x, 2, 1, 2, Full(0, b), 0)];
  }

  // The second displaces the first.
  lemma Displaces(a: State, b: State, x: State) returns (c: Config)
    requires a != b
    ensures Reaches(ENV, Begin(), c)
    ensures c == Quiet(1, [Full(0, a), Full(0, b)], Grab(x, 2)).(
                   tables := map[1 := [Tombstone, Tombstone], 2 := [Full(0, b), Full(0, a), Empty, Empty]],
                   next := Ref(Some(2), 1), migration := 2)
  {
    hide Reaches, InsertStep, ExpandStep, MeetStep;
    c := TakesSecond(a, b, x);
    c := Go(ENV, Begin(), c, 1, Run(9));
    c := Go(ENV, Begin(), c, 1, Run(9));
    assert c.tables[2] == [Full(0, b), Full(0, a), Empty, Empty];
    assert c.tables == map[1 := [Tombstone, Tombstone], 2 := [Full(0, b), Full(0, a), Empty, Empty]];
    assert c.pc == [OptOut, Grab(x, 2)];
  }

  // Again there is nothing left to migrate.
  lemma WaitsAgain(a: State, b: State, x: State) returns (c: Config)
    requires a != b
    ensures Reaches(ENV, Begin(), c)
    ensures c == Waiting(1, [Full(0, a), Full(0, b)], [Tombstone, Tombstone], [Full(0, b), Full(0, a), Empty, Empty], x)
  {
    hide Reaches, InsertStep, ExpandStep, Depart;
    c := Displaces(a, b, x);
    c := Go(ENV, Begin(), c, 1, Run(9));
    c := Go(ENV, Begin(), c, 1, Run(9));
    c := Go(ENV, Begin(), c, 1, Run(9));
    assert c.pc == [OptOut, Wait(x, 2)];
  }

  /** The set's memory is not always managed correctly: there is a run after which
      thread 0, about to lead a rendezvous for the second time, would release the
      table that it already released the first time. */
  lemma LeadsTwice(a: State, b: State, x: State) returns (c: Config)
    requires a != b
    ensures Reaches(ENV, Begin(), c) && Sized(c) && Enabled(c, 0, Run(9)) && Step(ENV, c, 0, Run(9)) == Fault
    ensures LeadsAgain(c, 0)
  {
    hide Reaches;
    c := WaitsAgain(a, b, x);
  }
}
