/** The loops of the seen set when one thread runs them alone: the search of the
    final liveness scan, and the migration of one chunk into the new table. */
module SetTable {
  import opened Options
  import opened SetMachine
  import opened SetTotals
  import opened SetInvariant
  import opened SetSafety

  lemma {:induction false} HoldsSize(tab: Table)
    ensures |Holds(tab)| <= |tab|
    ensures (forall i :: 0 <= i < |tab| ==> tab[i].Full?) ==> |Holds(tab)| == |tab|
  {
    if tab != [] { HoldsSize(tab[..|tab| - 1]); }
  }

  /** A probe table with fewer states than slots has an empty slot. */
  lemma EmptySlot(env: Env, tab: Table) returns (e: nat)
    requires ProbeOk(env, tab) && |Holds(tab)| < |tab|
    ensures e < |tab| && tab[e].Empty?
  {
    hide Holds, Home, PathFull;
    HoldsSize(tab);
    e :| 0 <= e < |tab| && !tab[e].Full?;
    assert tab[e].Empty?;
  }

  /** However many threads migrate at once, the table they fill keeps an empty slot. */
  lemma RoomToMigrate(env: Env, c: Config) returns (e: nat)
    requires Inv(env, c) && c.next.ptr.Some?
    ensures e < |c.tables[c.next.ptr.value]| && c.tables[c.next.ptr.value][e].Empty?
  {
    hide Holds, Carried, Total, Unique, ProbeOk, Home;
    var new_ := c.tables[c.next.ptr.value];
    HoldsSize(c.content);
    assert |Holds(Old(c)) + Holds(new_) + Carried(c.pc)| == |Holds(Old(c))| + |Holds(new_)| + |Carried(c.pc)|;
    e := EmptySlot(env, new_);
  }

  /** The search finds a slot with the state if there is one. */
  method Find(env: Env, bucket: array<Slot>, s: State) returns (r: Option<nat>)
    requires bucket.Length > 0 && ProbeOk(env, bucket[..])
    ensures r.None? <==> s !in Holds(bucket[..])
    ensures r.Some? ==> r.value < bucket.Length && bucket[r.value].Full? && bucket[r.value].s == s
  {
    hide Home, Holds;
    ghost var tab := bucket[..];
    var index := Home(env, bucket.Length, s);
    var attempts := 0;
    while attempts < bucket.Length
      invariant attempts <= bucket.Length && Passed(env, tab, s, attempts)
    {
      var i := Wrap(bucket.Length, index, attempts);
      var slot := bucket[i];
      assert slot == tab[i];
      if slot.Empty? {
        NotThere(env, tab, s, attempts);
        return None;
      }
      assert Placed(env, tab, slot, i);
      if slot.tag == env.bits(env.hash(s)) && slot.s == s {
        HoldsAt(tab, i);
        return Some(i);
      }
      PassedOne(env, tab, s, attempts);
      attempts := attempts + 1;
    }
    NowhereElse(env, tab, s);
    return None;
  }

  // A search that passes every slot of a full table has seen every state in it.
  lemma NowhereElse(env: Env, tab: Table, s: State)
    requires |tab| > 0 && Passed(env, tab, s, |tab|)
    ensures s !in Holds(tab)
  {
    hide Home, Holds;
    var h := Home(env, |tab|, s);
    forall p | 0 <= p < |tab| && tab[p].Full? ensures tab[p].s != s {
      WrapDist(|tab|, h, p);
      assert tab[Wrap(|tab|, h, Dist(|tab|, h, p))].s != s;
    }
    if s in Holds(tab) { var p := HoldsWhere(tab, s); }
  }

  /** Rehashing one slot: its state goes in, each displaced state moves one along,
      and the loop stops at the first empty slot. */
  method Rehash(env: Env, bucket: array<Slot>, x: Slot)
    requires x.Full? && x == SlotOf(env, x.s)
    requires ProbeOk(env, bucket[..]) && |Holds(bucket[..])| < bucket.Length
    modifies bucket
    ensures ProbeOk(env, bucket[..]) && Holds(bucket[..]) == old(Holds(bucket[..])) + multiset{x.s}
  {
    hide Home, Holds, ProbeOk, Placed;
    ghost var e := EmptySlot(env, bucket[..]);
    HomePlaced(env, bucket[..], x);
    var s := x;
    var j: nat := Home(env, bucket.Length, x.s);
    ghost var before := Holds(bucket[..]);
    while !s.Empty?
      invariant j < bucket.Length && ProbeOk(env, bucket[..])
      invariant s.Empty? || (s.Full? && bucket[e].Empty? && Placed(env, bucket[..], s, j))
      invariant Holds(bucket[..]) + StatesOf(s) == before + multiset{x.s}
      decreases if s.Empty? then -1 else Dist(bucket.Length, j, e)
    {
      ghost var tab := bucket[..];
      ExchangeOk(env, tab, s, j);
      HoldsUpdate(tab, j, s);
      var y := bucket[j];
      bucket[j] := s;
      assert bucket[..] == tab[j := s];
      s, j := y, Wrap(bucket.Length, j, 1);
    }
  }

  /** Migrating a chunk alone: exactly its slots become tombstones, and their states
      go to the new table. */
  method MigrateChunk(env: Env, bucket: array<Slot>, next: array<Slot>, start: nat, end: nat)
    requires bucket != next && start <= end <= bucket.Length
    requires forall i :: 0 <= i < bucket.Length ==> !bucket[i].Tombstone? || i < start || i >= end
    requires forall i :: 0 <= i < bucket.Length && bucket[i].Full? ==> bucket[i] == SlotOf(env, bucket[i].s)
    requires ProbeOk(env, next[..]) && |Holds(bucket[..])| + |Holds(next[..])| < next.Length
    modifies bucket, next
    ensures ProbeOk(env, next[..])
    ensures Holds(bucket[..]) + Holds(next[..]) == old(Holds(bucket[..]) + Holds(next[..]))
    ensures forall i :: 0 <= i < bucket.Length ==> bucket[i] == if start <= i < end then Tombstone else old(bucket[i])
  {
    hide Home, Holds, ProbeOk, Placed, SlotOf;
    for i := start to end
      invariant ProbeOk(env, next[..])
      invariant Holds(bucket[..]) + Holds(next[..]) == old(Holds(bucket[..]) + Holds(next[..]))
      invariant forall k :: 0 <= k < bucket.Length ==> bucket[k] == if start <= k < i then Tombstone else old(bucket[k])
    {
      ghost var tab, new_ := bucket[..], next[..];
      var s := bucket[i];
      HoldsUpdate(tab, i, Tombstone);
      bucket[i] := Tombstone;
      assert bucket[..] == tab[i := Tombstone];
      assert next[..] == new_;
      assert Holds(bucket[..]) + StatesOf(s) == Holds(tab);
      if !s.Empty? {
        RoomForOne(tab, i, new_);
        Rehash(env, next, s);
        assert bucket[..] == tab[i := Tombstone];
        Moved(Holds(tab), Holds(bucket[..]), Holds(new_), Holds(next[..]), multiset{s.s});
      }
    }
  }

  lemma RoomForOne(tab: Table, i: nat, new_: Table)
    requires i < |tab| && tab[i].Full?
    ensures |Holds(new_)| < |Holds(tab) + Holds(new_)|
  {
    hide Holds;
    HoldsAt(tab, i);
    assert |Holds(tab)| >= 1;
  }

  lemma Moved(a: multiset<State>, a': multiset<State>, b: multiset<State>, b': multiset<State>, x: multiset<State>)
    requires a' + x == a && b' == b + x
    ensures a' + b' == a + b
  {
  }
}
