/** Two threads putting states into one queue: one of them can keep the other going
    round. (In the generated program no two threads do this: see `QueueOwn`.) */
module QueueBlocked {
  import opened Options
  import opened QueueMachine
  import opened QueueInvariant
  import opened QueueFifo
  import opened QueueProgress
  import opened QueueOutgrown

  // Thread 1 has validated the ends of queue 0 and is about to put y behind x ..
  lemma Writes(cap: nat, x: Item, y: Item) returns (c: Config)
    requires cap > 0
    ensures Reaches(cap, Begin(), c)
    ensures c == OneIn(cap, x).(hazarded := [None, Some(1)], pc := [Idle, EnqWrite(y, 0, Both(1))])
  {
    hide Reaches, DeqStep;
    c := Puts(cap, x);
    c := Go(cap, Begin(), c, 1, Enqueue(y, 0));
    c := Go(cap, Begin(), c, 1, Run(9));
    c := Go(cap, Begin(), c, 1, Run(9));
    c := Go(cap, Begin(), c, 1, Run(9));
    assert c.pc == [Idle, EnqWrite(y, 0, Both(1))] && c.hazarded == [None, Some(1)];
  }

  // .. and so is thread 0, with z.
  lemma BothWrite(cap: nat, x: Item, y: Item, z: Item) returns (c: Config)
    requires cap > 0
    ensures Reaches(cap, Begin(), c)
    ensures c == OneIn(cap, x).(hazarded := [Some(1), Some(1)], pc := [EnqWrite(z, 0, Both(1)), EnqWrite(y, 0, Both(1))])
  {
    hide Reaches, DeqStep;
    c := Writes(cap, x, y);
    c := Go(cap, Begin(), c, 0, Enqueue(z, 0));
    c := Go(cap, Begin(), c, 0, Run(9));
    c := Go(cap, Begin(), c, 0, Run(9));
    c := Go(cap, Begin(), c, 0, Run(9));
    assert c.pc == [EnqWrite(z, 0, Both(1)), EnqWrite(y, 0, Both(1))] && c.hazarded == [Some(1), Some(1)];
  }

  /** What `QueueProgress.BlockedCycles` speaks of does occur: thread 1 writes past the
      tail, and before it confirms this, thread 0 can do nothing but go round. */
  lemma BlockedOccurs(cap: nat, x: Item, y: Item, z: Item) returns (c: Config)
    requires cap > 0
    ensures Reaches(cap, Begin(), c) && |c.pc| == 2
    ensures c.pc[0].EnqWrite? && c.pc[0].k < |c.pc| && Current(c, c.pc[0].k, c.pc[0].e) && !Unblocked(c, 0, c.pc[0].k)
  {
    hide Reaches, DeqStep;
    c := BothWrite(cap, x, y, z);
    c := Go(cap, Begin(), c, 1, Run(2));
    if cap == 1 { c := Go(cap, Begin(), c, 1, Run(9)); }
  }
}
