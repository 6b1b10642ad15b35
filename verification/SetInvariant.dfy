/** What every configuration of the seen-set machine satisfies. */
module SetInvariant {
  import opened Options
  import opened SetMachine
  import opened SetTotals

  // ----- linear probing -----

  /** How far slot p is past slot h, wrapping around. */
  function Dist(size: nat, h: nat, p: nat): nat
    requires h < size && p < size
  {
    if p >= h then p - h else p + size - h
  }

  predicate PathFull(tab: Table, h: nat, k: nat)
    requires h < |tab| && k <= |tab|
  {
    forall d :: 0 <= d < k ==> tab[Wrap(|tab|, h, d)].Full?
  }

  /** A search for the state in x, when x is at slot p, gets there: x carries the
      bits of its own hash and no slot on the way is empty. */
  predicate Placed(env: Env, tab: Table, x: Slot, p: nat)
    requires p < |tab|
  {
    && x.Full? && x == SlotOf(env, x.s)
    && PathFull(tab, Home(env, |tab|, x.s), Dist(|tab|, Home(env, |tab|, x.s), p))
  }

  predicate ProbeOk(env: Env, tab: Table)
  {
    forall p :: 0 <= p < |tab| ==> tab[p].Empty? || Placed(env, tab, tab[p], p)
  }

  ghost predicate Unique(tab: Table)
  {
    forall s :: Holds(tab)[s] <= 1
  }

  // ----- threads -----

  function HoldsGlobal(pc: PC): nat
  {
    if pc.Dormant? || pc.Spawned? || pc.Arrive? || pc.Wait? || pc.OptOut? || pc.Gone? then 0 else 1
  }

  function HoldsNext(pc: PC): nat
  {
    if pc.Grab? || pc.Take? || pc.Carry? || pc.Put? || pc.Arrive? || pc.Wait? then 1 else 0
  }

  function OptedIn(pc: PC): nat
  {
    if pc.Dormant? || pc.Gone? then 0 else 1
  }

  function Active(pc: PC): nat
  {
    if pc.Dormant? || pc.Gone? || pc.Wait? then 0 else 1
  }

  function HasMutex(pc: PC): nat
  {
    if pc.Check? || pc.Publish? || pc.Unlock? then 1 else 0
  }

  function Uncounted(pc: PC): nat
  {
    if pc.Count? then 1 else 0
  }

  /** The slots of the old table a thread has taken on and not yet emptied. */
  predicate InRange(pc: PC, q: nat)
  {
    (pc.Take? && pc.i <= q < pc.end) || (pc.Carry? && pc.i < q < pc.end)
  }

  // The slots at distance less than k held other states when s was sought there.
  predicate Passed(env: Env, content: Table, s: State, k: nat)
    requires |content| > 0 && k <= |content|
  {
    forall d :: 0 <= d < k ==>
      var x := content[Wrap(|content|, Home(env, |content|, s), d)]; x.Full? && x.s != s
  }

  predicate ThreadOk(env: Env, c: Config, t: nat)
    requires Sized(c) && t < |c.pc|
  {
    var pc := c.pc[t];
    && (HoldsGlobal(pc) == 1 && !pc.Woken? ==> c.global.ptr == Some(c.local[t]))
    && (pc.Arrive? || pc.Wait? ==> c.global.ptr == Some(c.local[t]))
    && (HoldsNext(pc) == 1 ==> c.next.ptr == Some(pc.n))
    && (pc.Unlock? || pc.Enter? ==> c.next.ptr.Some?)
    && (pc.Publish? ==> c.next.ptr.None?)
    && (pc.Woken? ==> c.global.ptr == Some(pc.n))
    && (pc.Put? || pc.Arrive? || pc.Wait? ==> c.migration * env.chunk >= |c.content|)
    && (pc.Probe? ==> |c.content| > 0 && pc.k <= |c.content| && Passed(env, c.content, pc.s, pc.k))
    && (pc.Claim? ==> pc.k < |c.content| && Passed(env, c.content, pc.s, pc.k))
    && (pc.Take? || pc.Carry? ==> pc.i < pc.end <= |c.content| && pc.end <= c.migration * env.chunk)
    && (pc.Carry? ==> pc.n in c.tables && pc.j < |c.tables[pc.n]| && Placed(env, c.tables[pc.n], pc.x, pc.j))
  }

  predicate ThreadsOk(env: Env, c: Config)
    requires Sized(c)
  {
    forall t :: 0 <= t < |c.pc| ==> ThreadOk(env, c, t)
  }

  // ----- tables -----

  predicate TablesOk(env: Env, c: Config)
  {
    && c.global.ptr.Some? && c.global.ptr.value in c.tables
    && |c.content| == |c.tables[c.global.ptr.value]| && EnvOk(env, |c.content|)
    && (match c.next.ptr
        case None => c.next.count == 0 && c.migration == 0 && c.tables.Keys == {c.global.ptr.value}
        case Some(m) => m != c.global.ptr.value && c.tables.Keys == {c.global.ptr.value, m} && |c.tables[m]| == 2 * |c.content|)
  }

  function Old(c: Config): Table
    requires c.global.ptr.Some? && c.global.ptr.value in c.tables
  {
    c.tables[c.global.ptr.value]
  }

  /** Without tombstones the current table is a probe table with no state twice. */
  ghost predicate ContentOk(env: Env, c: Config)
    requires TablesOk(env, c)
  {
    && ProbeOk(env, c.content) && Unique(c.content)
    && (forall i :: 0 <= i < |c.content| ==> Old(c)[i] == c.content[i] || Old(c)[i].Tombstone?)
  }

  /** Every state is in the old table, in the new one, or in some thread's hands. */
  predicate MigrationOk(env: Env, c: Config)
    requires TablesOk(env, c)
  {
    match c.next.ptr
    case None => Old(c) == c.content
    case Some(m) =>
      && ProbeOk(env, c.tables[m])
      && Holds(Old(c)) + Holds(c.tables[m]) + Carried(c.pc) == Holds(c.content)
  }

  predicate Claimed(pcs: seq<PC>, q: nat)
  {
    exists t :: 0 <= t < |pcs| && InRange(pcs[t], q)
  }

  /** A slot has been emptied exactly when its chunk was handed out and the thread
      that got it is past it; no two threads share a slot. */
  ghost predicate ChunksOk(env: Env, c: Config)
    requires TablesOk(env, c)
  {
    && (forall q :: 0 <= q < |c.content| ==>
          (Old(c)[q].Tombstone? <==> q < c.migration * env.chunk && !Claimed(c.pc, q)))
    && (forall t, u, q :: 0 <= t < |c.pc| && 0 <= u < |c.pc| && InRange(c.pc[t], q) && InRange(c.pc[u], q) ==> t == u)
  }

  /** The counters count what their names say. */
  predicate CountsOk(c: Config)
  {
    && c.global.count == Total(c.pc, HoldsGlobal)
    && c.next.count == Total(c.pc, HoldsNext)
    && c.running == Total(c.pc, OptedIn)
    && c.pending == Total(c.pc, Active)
    && (if c.mutex then 1 else 0) == Total(c.pc, HasMutex)
    && c.count + Total(c.pc, Uncounted) == |Holds(c.content)|
  }

  ghost predicate Inv(env: Env, c: Config)
  {
    && Sized(c) && |c.pc| > 0
    && TablesOk(env, c) && ContentOk(env, c) && MigrationOk(env, c) && ChunksOk(env, c)
    && CountsOk(c) && ThreadsOk(env, c)
  }
}
