/** A run of two threads, whatever the capacity of nodes, after which one of them has put
    off releasing two nodes, where the runtime has room for one and asserts that this is
    enough. */
module QueueOutgrown {
  import opened Options
  import opened QueueMachine
  import opened QueueFifo
  import opened QueueDeferred

  /** Some run begins in c and passes through c'. */
  ghost predicate Reaches(cap: nat, c: Config, c': Config)
  {
    exists cs, es :: IsRun(cap, cs, es) && cs[0] == c && cs[|es|] == c'
  }

  lemma Go(cap: nat, c0: Config, c: Config, t: nat, ch: Choice) returns (c': Config)
    requires Reaches(cap, c0, c) && Sized(c) && Enabled(c, t, ch) && Step(cap, c, t, ch).Next?
    ensures Reaches(cap, c0, c') && c' == Step(cap, c, t, ch).c
  {
    hide Step, Enabled, Initial;
    c' := Step(cap, c, t, ch).c;
    var cs, es :| IsRun(cap, cs, es) && cs[0] == c0 && cs[|es|] == c;
    var cs', es' := cs + [c'], es + [Event(t, ch)];
    forall i | 0 <= i < |es'| ensures Takes(cap, cs'[i], es'[i], cs'[i + 1]) {
      if i < |es| { assert Takes(cap, cs[i], es[i], cs[i + 1]); }
    }
    assert IsRun(cap, cs', es');
  }

  function Begin(): Config
  {
    Config(map[], [EMPTY, EMPTY], [[], []], [None, None], [[], []], [Idle, Idle])
  }

  /** Node a with one state in it, in queue 0 or removed by thread 0. */
  function Holding(cap: nat, x: Item, s: Status): Node
  {
    Node(FreshCells(cap, x), 1, s, None)
  }

  function Both(a: Addr): Ends
  {
    Ends(At(a, 0), At(a, 0))
  }

  // Queue 0 holds just x, in node 1.
  function OneIn(cap: nat, x: Item): Config
  {
    Config(map[1 := Holding(cap, x, Live(0))], [Both(1), EMPTY], [[1], []], [None, None], [[], []], [Idle, Idle])
  }

  // Thread 1 has protected node 1, which thread 0 has removed.
  function OneOut(cap: nat, x: Item): Config
  {
    Config(map[1 := Holding(cap, x, Retired(0))], [EMPTY, EMPTY], [[], []], [None, Some(1)], [[1], []], [Idle, DeqCheck(0, 0, Both(1))])
  }

  // Then y, in node 2, has been put into queue 0.
  function TwoIn(cap: nat, x: Item, y: Item, pc: PC): Config
  {
    Config(map[1 := Holding(cap, x, Retired(0)), 2 := Holding(cap, y, Live(0))], [Both(2), EMPTY], [[2], []], [None, Some(1)], [[1], []], [Idle, pc])
  }

  // And removed: thread 0 has both nodes on its list.
  function TwoOut(cap: nat, x: Item, y: Item, h: Addr, pc0: PC, pc1: PC): Config
  {
    Config(map[1 := Holding(cap, x, Retired(0)), 2 := Holding(cap, y, Retired(0))], [EMPTY, EMPTY], [[], []], [None, Some(h)], [[1, 2], []], [pc0, pc1])
  }

  lemma BeginReached(cap: nat)
    ensures Reaches(cap, Begin(), Begin())
  {
    assert Initial(Begin());
    assert IsRun(cap, [Begin()], []);
  }

  lemma Puts(cap: nat, x: Item) returns (c: Config)
    requires cap > 0
    ensures Reaches(cap, Begin(), c) && c == OneIn(cap, x)
  {
    hide Reaches, DeqStep;
    BeginReached(cap);
    c := Begin();
    c := Go(cap, Begin(), c, 0, Enqueue(x, 0));
    c := Go(cap, Begin(), c, 0, Run(9));
    c := Go(cap, Begin(), c, 0, Run(1));
    c := Go(cap, Begin(), c, 0, Run(9));
    c := Go(cap, Begin(), c, 0, Run(9));
    assert c.pc == [Idle, Idle];
  }

  // Thread 1 begins to dequeue: it has loaded the ends, and protects the head.
  lemma Protects(cap: nat, x: Item) returns (c: Config)
    requires cap > 0
    ensures Reaches(cap, Begin(), c)
    ensures c == OneIn(cap, x).(hazarded := [None, Some(1)], pc := [Idle, DeqCheck(0, 0, Both(1))])
  {
    hide Reaches, EnqStep;
    c := Puts(cap, x);
    c := Go(cap, Begin(), c, 1, Dequeue(0));
    c := Go(cap, Begin(), c, 1, Run(9));
    c := Go(cap, Begin(), c, 1, Run(9));
    assert c.pc == [Idle, DeqCheck(0, 0, Both(1))] && c.hazarded == [None, Some(1)];
  }

  // Thread 0 takes x and removes node 1 ..
  lemma Removes(cap: nat, x: Item) returns (c: Config)
    requires cap > 0
    ensures Reaches(cap, Begin(), c)
    ensures c == OneOut(cap, x).(hazarded := [Some(1), Some(1)], deferred := [[], []], pc := [DeqTake(Both(1), x), DeqCheck(0, 0, Both(1))])
  {
    hide Reaches, EnqStep;
    c := Protects(cap, x);
    c := Go(cap, Begin(), c, 0, Dequeue(0));
    c := Go(cap, Begin(), c, 0, Run(9));
    c := Go(cap, Begin(), c, 0, Run(9));
    c := Go(cap, Begin(), c, 0, Run(9));
    c := Go(cap, Begin(), c, 0, Run(9));
    assert c.pc == [DeqTake(Both(1), x), DeqCheck(0, 0, Both(1))] && c.hazarded == [Some(1), Some(1)];
    assert c.nodes == map[1 := Holding(cap, x, Retired(0))];
  }

  // .. and goes through its list, which has just that node on it ..
  lemma Reclaims(cap: nat, x: Item) returns (c: Config)
    requires cap > 0
    ensures Reaches(cap, Begin(), c)
    ensures c == OneOut(cap, x).(pc := [Scan(0, 0, Return(x)), DeqCheck(0, 0, Both(1))])
  {
    hide Reaches, EnqStep;
    c := Removes(cap, x);
    c := Go(cap, Begin(), c, 0, Run(9));
    c := Go(cap, Begin(), c, 0, Run(9));
    assert [] + [1] == [1];
    assert c.deferred == [[1], []] && c.hazarded == [None, Some(1)];
    assert c.pc == [Scan(0, 0, Return(x)), DeqCheck(0, 0, Both(1))];
  }

  // .. finds it protected, and puts off releasing it.
  lemma PutsOff(cap: nat, x: Item) returns (c: Config)
    requires cap > 0
    ensures Reaches(cap, Begin(), c) && c == OneOut(cap, x)
  {
    hide Reaches, EnqStep;
    c := Reclaims(cap, x);
    c := Go(cap, Begin(), c, 0, Run(9));
    c := Go(cap, Begin(), c, 0, Run(9));
    c := Go(cap, Begin(), c, 0, Run(9));
    c := Go(cap, Begin(), c, 0, Run(9));
    assert c.pc == [Idle, DeqCheck(0, 0, Both(1))];
  }

  // Thread 0 puts y into the queue again, in a new node.
  lemma PutsAgain(cap: nat, x: Item, y: Item) returns (c: Config)
    requires cap > 0
    ensures Reaches(cap, Begin(), c) && c == TwoIn(cap, x, y, DeqCheck(0, 0, Both(1)))
  {
    hide Reaches, DeqStep;
    c := PutsOff(cap, x);
    c := Go(cap, Begin(), c, 0, Enqueue(y, 0));
    c := Go(cap, Begin(), c, 0, Run(9));
    c := Go(cap, Begin(), c, 0, Run(2));
    c := Go(cap, Begin(), c, 0, Run(9));
    c := Go(cap, Begin(), c, 0, Run(9));
    assert c.nodes == map[1 := Holding(cap, x, Retired(0)), 2 := Holding(cap, y, Live(0))];
    assert c.pc == [Idle, DeqCheck(0, 0, Both(1))];
  }

  // Thread 1 finds that the ends have changed: it is going to drop its protection and
  // to start again from the ends it has just seen.
  lemma SeesChange(cap: nat, x: Item, y: Item) returns (c: Config)
    requires cap > 0
    ensures Reaches(cap, Begin(), c) && c == TwoIn(cap, x, y, DeqDrop(0, 0, Both(2), 1))
  {
    hide Reaches, EnqStep;
    c := PutsAgain(cap, x, y);
    c := Go(cap, Begin(), c, 1, Run(9));
    assert c.pc == [Idle, DeqDrop(0, 0, Both(2), 1)];
  }

  // Thread 0 takes y and removes node 2 as well ..
  lemma RemovesAgain(cap: nat, x: Item, y: Item) returns (c: Config)
    requires cap > 0
    ensures Reaches(cap, Begin(), c)
    ensures c == TwoOut(cap, x, y, 1, DeqTake(Both(2), y), DeqDrop(0, 0, Both(2), 1)).(hazarded := [Some(2), Some(1)], deferred := [[1], []])
  {
    hide Reaches, EnqStep;
    c := SeesChange(cap, x, y);
    c := Go(cap, Begin(), c, 0, Dequeue(0));
    c := Go(cap, Begin(), c, 0, Run(9));
    c := Go(cap, Begin(), c, 0, Run(9));
    c := Go(cap, Begin(), c, 0, Run(9));
    c := Go(cap, Begin(), c, 0, Run(9));
    assert c.pc == [DeqTake(Both(2), y), DeqDrop(0, 0, Both(2), 1)] && c.hazarded == [Some(2), Some(1)];
    assert c.nodes == map[1 := Holding(cap, x, Retired(0)), 2 := Holding(cap, y, Retired(0))];
  }

  lemma ReclaimsAgain(cap: nat, x: Item, y: Item) returns (c: Config)
    requires cap > 0
    ensures Reaches(cap, Begin(), c) && c == TwoOut(cap, x, y, 1, Scan(0, 0, Return(y)), DeqDrop(0, 0, Both(2), 1))
  {
    hide Reaches, EnqStep;
    c := RemovesAgain(cap, x, y);
    c := Go(cap, Begin(), c, 0, Run(9));
    c := Go(cap, Begin(), c, 0, Run(9));
    assert [1] + [2] == [1, 2];
    assert c.deferred == [[1, 2], []] && c.hazarded == [None, Some(1)];
    assert c.pc == [Scan(0, 0, Return(y)), DeqDrop(0, 0, Both(2), 1)];
  }

  // .. and, going through its list, finds node 1 still protected.
  lemma FindsFirst(cap: nat, x: Item, y: Item) returns (c: Config)
    requires cap > 0
    ensures Reaches(cap, Begin(), c) && c == TwoOut(cap, x, y, 1, Scan(1, 0, Return(y)), DeqDrop(0, 0, Both(2), 1))
  {
    hide Reaches, EnqStep;
    c := ReclaimsAgain(cap, x, y);
    c := Go(cap, Begin(), c, 0, Run(9));
    c := Go(cap, Begin(), c, 0, Run(9));
    assert c.pc == [Scan(1, 0, Return(y)), DeqDrop(0, 0, Both(2), 1)];
  }

  // Meanwhile thread 1 protects node 2 in place of node 1.
  lemma Moves(cap: nat, x: Item, y: Item) returns (c: Config)
    requires cap > 0
    ensures Reaches(cap, Begin(), c) && c == TwoOut(cap, x, y, 2, Scan(1, 0, Return(y)), DeqCheck(0, 0, Both(2)))
  {
    hide Reaches, EnqStep;
    c := FindsFirst(cap, x, y);
    c := Go(cap, Begin(), c, 1, Run(9));
    c := Go(cap, Begin(), c, 1, Run(9));
    assert c.pc == [Scan(1, 0, Return(y)), DeqCheck(0, 0, Both(2))] && c.hazarded == [None, Some(2)];
  }

  /** So thread 0 finds node 2 protected too, and the only place taken. */
  lemma RunsOutOfRoom(cap: nat, x: Item, y: Item) returns (c: Config)
    requires cap > 0
    ensures Reaches(cap, Begin(), c) && Sized(c) && |c.pc| == 2 && Outgrows(c, 0)
  {
    hide Reaches, EnqStep;
    c := Moves(cap, x, y);
    c := Go(cap, Begin(), c, 0, Run(9));
    assert c.pc == [Scan(1, 1, Return(y)), DeqCheck(0, 0, Both(2))];
  }
}
