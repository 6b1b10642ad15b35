/** Every step keeps the invariant, and a step is a `Fault` in exactly one case. */
module SetSafety {
  import opened Options
  import opened SetMachine
  import opened SetTotals
  import opened SetInvariant
  import opened Arithmetic

  // ----- frames -----

  // Only thread t moved.
  predicate OnlyThread(c: Config, c': Config, t: nat)
    requires Sized(c) && t < |c.pc|
  {
    && Sized(c') && |c'.pc| == |c.pc|
    && c'.pc == c.pc[t := c'.pc[t]] && c'.local == c.local[t := c'.local[t]]
  }

  lemma CountsStep(c: Config, c': Config, t: nat)
    requires Sized(c) && t < |c.pc| && OnlyThread(c, c', t) && CountsOk(c)
    requires var p, p' := c.pc[t], c'.pc[t];
             && c'.global.count + HoldsGlobal(p) == c.global.count + HoldsGlobal(p')
             && c'.next.count + HoldsNext(p) == c.next.count + HoldsNext(p')
             && c'.running + OptedIn(p) == c.running + OptedIn(p')
             && c'.pending + Active(p) == c.pending + Active(p')
             && (if c'.mutex then 1 else 0) + HasMutex(p) == (if c.mutex then 1 else 0) + HasMutex(p')
             && c'.count + Uncounted(p') + |Holds(c.content)| == c.count + Uncounted(p) + |Holds(c'.content)|
    ensures CountsOk(c')
  {
    TotalUpdate(c.pc, HoldsGlobal, t, c'.pc[t]);
    TotalUpdate(c.pc, HoldsNext, t, c'.pc[t]);
    TotalUpdate(c.pc, OptedIn, t, c'.pc[t]);
    TotalUpdate(c.pc, Active, t, c'.pc[t]);
    TotalUpdate(c.pc, HasMutex, t, c'.pc[t]);
    TotalUpdate(c.pc, Uncounted, t, c'.pc[t]);
  }

  // Filled slots stay filled.
  predicate Grows(tab: Table, tab': Table)
  {
    |tab'| == |tab| && forall i :: 0 <= i < |tab| && tab[i].Full? ==> tab'[i].Full?
  }

  lemma PlacedGrows(env: Env, tab: Table, tab': Table, x: Slot, p: nat)
    requires Grows(tab, tab') && p < |tab| && Placed(env, tab, x, p)
    ensures Placed(env, tab', x, p)
  {
    var h := Home(env, |tab|, x.s);
    forall d | 0 <= d < Dist(|tab|, h, p) ensures tab'[Wrap(|tab|, h, d)].Full? {
      assert tab[Wrap(|tab|, h, d)].Full?;
    }
  }

  // What the other threads may find changed under them.
  predicate Tolerable(c: Config, c': Config, t: nat)
    requires Sized(c) && t < |c.pc| && OnlyThread(c, c', t)
  {
    && c'.global.ptr == c.global.ptr
    && (c'.next.ptr == c.next.ptr || (c.next.ptr.None? && forall u :: 0 <= u < |c.pc| && u != t ==> !c.pc[u].Publish?))
    && c'.migration >= c.migration
    && |c'.content| == |c.content|
    && (forall i :: 0 <= i < |c.content| && c.content[i].Full? ==> c'.content[i] == c.content[i])
    && (c.next.ptr.Some? && c.next.ptr.value in c.tables ==>
          c.next.ptr.value in c'.tables && Grows(c.tables[c.next.ptr.value], c'.tables[c.next.ptr.value]))
  }

  lemma OtherOk(env: Env, c: Config, c': Config, t: nat, u: nat)
    requires Sized(c) && t < |c.pc| && u < |c.pc| && u != t && OnlyThread(c, c', t)
    requires ThreadOk(env, c, u) && Tolerable(c, c', t)
    ensures ThreadOk(env, c', u)
  {
    var pc := c.pc[u];
    MulMono(c.migration, c'.migration, env.chunk);
    if pc.Carry? { PlacedGrows(env, c.tables[pc.n], c'.tables[pc.n], pc.x, pc.j); }
    if pc.Probe? || pc.Claim? {
      forall d | 0 <= d < pc.k
        ensures var x := c'.content[Wrap(|c.content|, Home(env, |c.content|, pc.s), d)]; x.Full? && x.s != pc.s
      {
        var x := c.content[Wrap(|c.content|, Home(env, |c.content|, pc.s), d)];
        assert x.Full? && x.s != pc.s;
      }
    }
  }

  lemma OthersOk(env: Env, c: Config, c': Config, t: nat)
    requires Sized(c) && t < |c.pc| && OnlyThread(c, c', t)
    requires ThreadsOk(env, c) && Tolerable(c, c', t) && ThreadOk(env, c', t)
    ensures ThreadsOk(env, c')
  {
    forall u | 0 <= u < |c.pc| ensures ThreadOk(env, c', u) {
      if u != t {
        assert ThreadOk(env, c, u);
        OtherOk(env, c, c', t, u);
      }
    }
  }

  // Ranges as they were.
  lemma ClaimedSame(pcs: seq<PC>, qcs: seq<PC>, q: nat)
    requires |pcs| == |qcs| && forall t :: 0 <= t < |pcs| ==> InRange(pcs[t], q) == InRange(qcs[t], q)
    ensures Claimed(pcs, q) == Claimed(qcs, q)
  {
    if Claimed(pcs, q) {
      var t :| 0 <= t < |pcs| && InRange(pcs[t], q);
      assert InRange(qcs[t], q);
    }
    if Claimed(qcs, q) {
      var t :| 0 <= t < |pcs| && InRange(qcs[t], q);
      assert InRange(pcs[t], q);
    }
  }

  predicate SameTables(c: Config, c': Config)
  {
    && c'.tables == c.tables && c'.global.ptr == c.global.ptr && c'.next.ptr == c.next.ptr
    && c'.migration == c.migration && c'.content == c.content
  }

  lemma ChunksSame(env: Env, c: Config, c': Config)
    requires TablesOk(env, c) && TablesOk(env, c') && ChunksOk(env, c) && |c'.pc| == |c.pc|
    requires |c'.content| == |c.content| && c'.migration == c.migration
    requires forall i :: 0 <= i < |c.content| ==> (Old(c')[i].Tombstone? <==> Old(c)[i].Tombstone?)
    requires forall t, q :: 0 <= t < |c.pc| ==> InRange(c'.pc[t], q) == InRange(c.pc[t], q)
    ensures ChunksOk(env, c')
  {
    forall q | 0 <= q < |c.content| ensures Claimed(c'.pc, q) == Claimed(c.pc, q) {
      ClaimedSame(c.pc, c'.pc, q);
    }
  }

  /** Steps that touch no table: only counters and thread t change. */
  lemma PlainStep(env: Env, c: Config, c': Config, t: nat)
    requires Inv(env, c) && t < |c.pc| && OnlyThread(c, c', t) && SameTables(c, c')
    requires CarriedBy(c'.pc[t]) == CarriedBy(c.pc[t])
    requires !c.pc[t].Take? && !c.pc[t].Carry? && !c'.pc[t].Take? && !c'.pc[t].Carry?
    requires c'.next.ptr.None? ==> c'.next.count == 0
    requires CountsOk(c') && ThreadOk(env, c', t)
    ensures Inv(env, c')
  {
    OthersOk(env, c, c', t);
    CarriedSame(c.pc, c'.pc);
    ChunksSame(env, c, c');
  }

  // ----- inserting -----

  lemma DistWrap(size: nat, h: nat, k: nat)
    requires h < size && k < size
    ensures Wrap(size, h, k) < size && Dist(size, h, Wrap(size, h, k)) == k
  {
  }

  lemma WrapDist(size: nat, h: nat, p: nat)
    requires h < size && p < size
    ensures Dist(size, h, p) < size && Wrap(size, h, Dist(size, h, p)) == p
  {
  }

  /** An empty slot after a run of other states means the state is not there. */
  lemma NotThere(env: Env, tab: Table, s: State, k: nat)
    requires |tab| > 0 && ProbeOk(env, tab) && k < |tab| && Passed(env, tab, s, k)
    requires tab[Wrap(|tab|, Home(env, |tab|, s), k)].Empty?
    ensures s !in Holds(tab)
  {
    var h := Home(env, |tab|, s);
    forall p | 0 <= p < |tab| && tab[p].Full? ensures tab[p].s != s {
      WrapDist(|tab|, h, p);
      assert Placed(env, tab, tab[p], p);
      var d := Dist(|tab|, h, p);
      assert d < k ==> tab[Wrap(|tab|, h, d)].s != s;
    }
    if s in Holds(tab) { var p := HoldsWhere(tab, s); }
  }

  /** The filter on hash bits never passes over the state that is sought. */
  lemma PassedOne(env: Env, tab: Table, s: State, k: nat)
    requires |tab| > 0 && ProbeOk(env, tab) && k < |tab| && Passed(env, tab, s, k)
    requires var x := tab[Wrap(|tab|, Home(env, |tab|, s), k)];
             x.Full? && (x.tag != env.bits(env.hash(s)) || x.s != s)
    ensures Passed(env, tab, s, k + 1)
  {
    var p := Wrap(|tab|, Home(env, |tab|, s), k);
    assert Placed(env, tab, tab[p], p);
  }

  lemma FoundThread(env: Env, c: Config, c': Config, t: nat, s: State, k: nat)
    requires Sized(c) && t < |c.pc| && (c.pc[t] == Probe(s, k) || c.pc[t] == Claim(s, k)) && k < |c.content|
    requires TablesOk(env, c) && ContentOk(env, c) && MigrationOk(env, c) && ThreadOk(env, c, t)
    requires var tab := Old(c); c' == Goto(c, t, Found(env, s, k, tab[Wrap(|tab|, Home(env, |tab|, s), k)]))
    ensures ThreadOk(env, c', t)
  {
    hide Home, Holds, Carried, Total;
    var i := Wrap(|c.content|, Home(env, |c.content|, s), k);
    if Old(c)[i].Full? && c'.pc[t].Probe? { PassedOne(env, c.content, s, k); }
    // a tombstone is only found while states are being migrated
    assert Old(c)[i].Tombstone? ==> c.next.ptr.Some? by { assert c.content[i].Empty? || Placed(env, c.content, c.content[i], i); }
  }

  lemma FoundOk(env: Env, c: Config, c': Config, t: nat, s: State, k: nat)
    requires Inv(env, c) && t < |c.pc| && (c.pc[t] == Probe(s, k) || c.pc[t] == Claim(s, k)) && k < |c.content|
    requires var tab := Old(c); c' == Goto(c, t, Found(env, s, k, tab[Wrap(|tab|, Home(env, |tab|, s), k)]))
    ensures Inv(env, c')
  {
    hide Home, Holds, Carried, Total, Placed, ProbeOk, Unique, PathFull, ContentOk, MigrationOk;
    assert ThreadOk(env, c, t);
    FoundThread(env, c, c', t, s, k);
    CountsStep(c, c', t);
    PlainStep(env, c, c', t);
  }

  lemma StoreProbe(env: Env, tab: Table, s: State, k: nat)
    requires |tab| > 0 && ProbeOk(env, tab) && k < |tab| && Passed(env, tab, s, k)
    requires tab[Wrap(|tab|, Home(env, |tab|, s), k)].Empty?
    ensures var tab' := tab[Wrap(|tab|, Home(env, |tab|, s), k) := SlotOf(env, s)]; ProbeOk(env, tab') && Grows(tab, tab')
  {
    var h := Home(env, |tab|, s);
    var i := Wrap(|tab|, h, k);
    var tab' := tab[i := SlotOf(env, s)];
    DistWrap(|tab|, h, k);
    forall p | 0 <= p < |tab'| ensures tab'[p].Empty? || Placed(env, tab', tab'[p], p) {
      if p == i {
        forall d | 0 <= d < k ensures tab'[Wrap(|tab|, h, d)].Full? { assert tab[Wrap(|tab|, h, d)].Full?; }
      } else if !tab[p].Empty? {
        PlacedGrows(env, tab, tab', tab[p], p);
      }
    }
  }

  lemma StoreContent(env: Env, tab: Table, s: State, k: nat)
    requires |tab| > 0 && ProbeOk(env, tab) && Unique(tab) && k < |tab| && Passed(env, tab, s, k)
    requires tab[Wrap(|tab|, Home(env, |tab|, s), k)].Empty?
    ensures var tab' := tab[Wrap(|tab|, Home(env, |tab|, s), k) := SlotOf(env, s)];
            && ProbeOk(env, tab') && Unique(tab') && Grows(tab, tab')
            && s !in Holds(tab) && Holds(tab') == Holds(tab) + multiset{s}
  {
    hide Home, Holds;
    NotThere(env, tab, s, k);
    HoldsUpdate(tab, Wrap(|tab|, Home(env, |tab|, s), k), SlotOf(env, s));
    StoreProbe(env, tab, s, k);
    var tab' := tab[Wrap(|tab|, Home(env, |tab|, s), k) := SlotOf(env, s)];
    assert Holds(tab') == Holds(tab) + multiset{s};
    forall x ensures Holds(tab')[x] <= 1 { assert Holds(tab)[x] <= 1; }
  }

  // Both views of the current table gain the state.
  lemma StoreTables(env: Env, c: Config, t: nat, i: nat, c': Config)
    requires Sized(c) && t < |c.pc| && c.pc[t].Claim? && c.pc[t].k < |c.content|
    requires TablesOk(env, c) && ContentOk(env, c) && MigrationOk(env, c) && ThreadOk(env, c, t)
    requires i == Wrap(|c.content|, Home(env, |c.content|, c.pc[t].s), c.pc[t].k) && Old(c)[i].Empty?
    requires c' == Goto(Store(env, c, c.global.ptr.value, i, c.pc[t].s), t, Count)
    ensures TablesOk(env, c') && ContentOk(env, c') && MigrationOk(env, c')
    ensures c.pc[t].s !in Holds(c.content)
    ensures Holds(c'.content) == Holds(c.content) + multiset{c.pc[t].s}
  {
    hide Home, Holds, Carried, Placed, Unique;
    var s, k := c.pc[t].s, c.pc[t].k;
    StoreContent(env, c.content, s, k);
    HoldsUpdate(Old(c), i, SlotOf(env, s));
    CarriedSame(c.pc, c'.pc);
    assert Old(c') == Old(c)[i := SlotOf(env, s)];
    if c.next.ptr.Some? {
      var m := c.next.ptr.value;
      assert c'.tables[m] == c.tables[m];
      assert Holds(Old(c')) == Holds(Old(c)) + multiset{s};
      assert Holds(Old(c')) + Holds(c.tables[m]) + Carried(c.pc)
          == (Holds(Old(c)) + Holds(c.tables[m]) + Carried(c.pc)) + multiset{s};
    }
  }

  lemma StoreStep(env: Env, c: Config, t: nat, i: nat, c': Config)
    requires Inv(env, c) && t < |c.pc| && c.pc[t].Claim? && c.pc[t].k < |c.content|
    requires i == Wrap(|c.content|, Home(env, |c.content|, c.pc[t].s), c.pc[t].k) && Old(c)[i].Empty?
    requires c' == Goto(Store(env, c, c.global.ptr.value, i, c.pc[t].s), t, Count)
    ensures Inv(env, c')
    ensures c.pc[t].s !in Holds(c.content)
    ensures Holds(c'.content) == Holds(c.content) + multiset{c.pc[t].s}
  {
    hide Home, Holds, Carried, Total, Placed, ProbeOk, Unique;
    assert ThreadOk(env, c, t);
    StoreTables(env, c, t, i, c');
    CountsStep(c, c', t);
    ChunksSame(env, c, c');
    OthersOk(env, c, c', t);
  }

  // ----- expanding and migrating -----

  lemma BlankProbe(env: Env, size: nat)
    ensures ProbeOk(env, Blank(size)) && Holds(Blank(size)) == multiset{}
  {
    HoldsNothing(Blank(size));
  }

  // Threads that hold no reference to a new table carry nothing to it.
  lemma NoMigrators(c: Config)
    requires Sized(c) && CountsOk(c) && c.next.count == 0
    ensures forall t :: 0 <= t < |c.pc| ==> HoldsNext(c.pc[t]) == 0
    ensures Carried(c.pc) == multiset{}
  {
    forall t | 0 <= t < |c.pc| ensures HoldsNext(c.pc[t]) == 0 { TotalBounds(c.pc, HoldsNext, t); }
    CarriedNothing(c.pc);
  }

  lemma PublishStep(env: Env, c: Config, t: nat, a: nat, c': Config)
    requires Inv(env, c) && t < |c.pc| && c.pc[t].Publish? && a !in c.tables
    requires ExpandStep(c, t, a) == Next(c')
    ensures Inv(env, c')
  {
    hide Home, Holds, Carried, Total, Placed, Unique, ProbeOk;
    assert ThreadOk(env, c, t);
    assert c.next.ptr.None? && c.next.count == 0;
    NoMigrators(c);
    BlankProbe(env, 2 * |c.content|);
    CarriedSame(c.pc, c'.pc);
    CountsStep(c, c', t);
    ChunksSame(env, c, c');
    TotalBounds(c.pc, HasMutex, t);
    assert Tolerable(c, c', t) by {
      forall u | 0 <= u < |c.pc| && u != t ensures !c.pc[u].Publish? {
        assert HasMutex(c.pc[t]) + HasMutex(c.pc[u]) <= Total(c.pc, HasMutex);
      }
    }
    OthersOk(env, c, c', t);
  }

  // The chunk that begins inside a table ends inside it.
  lemma ChunkFits(chunk: nat, size: nat, k: nat)
    requires chunk > 0 && size % chunk == 0 && k * chunk < size
    ensures (k + 1) * chunk == k * chunk + chunk <= size
  {
    var m := size / chunk;
    assert size == m * chunk;
    if m <= k { MulMono(m, k, chunk); } else { MulMono(k + 1, m, chunk); }
  }

  lemma GrabStep(env: Env, c: Config, t: nat, c': Config)
    requires Inv(env, c) && t < |c.pc| && c.pc[t].Grab? && MigrateStep(env, c, t) == Next(c')
    ensures Inv(env, c')
  {
    hide Home, Holds, Carried, Total, Placed, Unique, ProbeOk;
    assert ThreadOk(env, c, t);
    var start := c.migration * env.chunk;
    var next := c'.migration * env.chunk;
    assert next == start + env.chunk;
    if start < |c.content| { ChunkFits(env.chunk, |c.content|, c.migration); }
    CarriedSame(c.pc, c'.pc);
    CountsStep(c, c', t);
    OthersOk(env, c, c', t);
    GrabChunks(env, c, t, c', start);
  }

  // A chunk is handed out whole: none of its slots is emptied or anyone else's.
  lemma GrabChunks(env: Env, c: Config, t: nat, c': Config, start: nat)
    requires Sized(c) && t < |c.pc| && OnlyThread(c, c', t) && TablesOk(env, c) && TablesOk(env, c')
    requires ChunksOk(env, c) && ThreadsOk(env, c) && c'.content == c.content && Old(c') == Old(c)
    requires start == c.migration * env.chunk && c'.migration * env.chunk == start + env.chunk
    requires c.pc[t].Grab?
    requires if start >= |c.content| then c'.pc[t].Put? else c'.pc[t].Take? && c'.pc[t].i == start && c'.pc[t].end == start + env.chunk
    ensures ChunksOk(env, c')
  {
    forall q | 0 <= q < |c.content|
      ensures Old(c')[q].Tombstone? <==> q < start + env.chunk && !Claimed(c'.pc, q)
    {
      if start <= q < start + env.chunk { assert InRange(c'.pc[t], q); }
      else {
        forall u | 0 <= u < |c.pc| ensures InRange(c'.pc[u], q) == InRange(c.pc[u], q) {}
        ClaimedSame(c.pc, c'.pc, q);
      }
    }
    forall u, w, q: nat | 0 <= u < |c.pc| && 0 <= w < |c.pc| && InRange(c'.pc[u], q) && InRange(c'.pc[w], q) ensures u == w {
      assert u != t ==> ThreadOk(env, c, u) && q < start;
      assert w != t ==> ThreadOk(env, c, w) && q < start;
    }
  }

  // Emptying slot i of the old table shortens the range of the thread doing it.
  lemma TakeChunks(env: Env, c: Config, t: nat, c': Config)
    requires Sized(c) && t < |c.pc| && OnlyThread(c, c', t) && TablesOk(env, c) && TablesOk(env, c')
    requires ChunksOk(env, c) && c.pc[t].Take? && c.pc[t].i < c.pc[t].end <= |c.content| == |c'.content|
    requires c'.migration == c.migration
    requires Old(c') == Old(c)[c.pc[t].i := Tombstone]
    requires forall q: nat :: InRange(c'.pc[t], q) <==> c.pc[t].i < q < c.pc[t].end
    requires c.pc[t].i < c.migration * env.chunk
    ensures ChunksOk(env, c')
  {
    var i := c.pc[t].i;
    forall q | 0 <= q < |c.content|
      ensures Old(c')[q].Tombstone? <==> q < c.migration * env.chunk && !Claimed(c'.pc, q)
    {
      if q == i {
        assert InRange(c.pc[t], q);
      } else {
        forall u | 0 <= u < |c.pc| ensures InRange(c'.pc[u], q) == InRange(c.pc[u], q) {}
        ClaimedSame(c.pc, c'.pc, q);
      }
    }
  }

  // Slot i, which thread t is to empty, has not been emptied yet.
  lemma TakeFinds(env: Env, c: Config, t: nat)
    requires Inv(env, c) && t < |c.pc| && c.pc[t].Take?
    ensures c.pc[t].i < |c.content| && Old(c)[c.pc[t].i] == c.content[c.pc[t].i] && !c.content[c.pc[t].i].Tombstone?
    ensures c.global.ptr == Some(c.local[t]) && c.next.ptr == Some(c.pc[t].n) && c.pc[t].n in c.tables && |c.tables[c.pc[t].n]| > 0
    ensures c.content[c.pc[t].i].Empty? || c.content[c.pc[t].i] == SlotOf(env, c.content[c.pc[t].i].s)
  {
    assert ThreadOk(env, c, t);
    var i := c.pc[t].i;
    assert InRange(c.pc[t], i);
    assert c.content[i].Empty? || Placed(env, c.content, c.content[i], i);
  }

  lemma HomePlaced(env: Env, tab: Table, x: Slot)
    requires |tab| > 0 && x.Full? && x == SlotOf(env, x.s)
    ensures Placed(env, tab, x, Home(env, |tab|, x.s))
  {
  }

  // What emptying one slot does, seen from the thread that does it.
  lemma TakeLocal(env: Env, c: Config, t: nat, c': Config)
    requires Inv(env, c) && t < |c.pc| && c.pc[t].Take? && MigrateStep(env, c, t) == Next(c')
    ensures OnlyThread(c, c', t) && TablesOk(env, c') && ContentOk(env, c') && ThreadOk(env, c', t) && Tolerable(c, c', t)
    ensures var i, n := c.pc[t].i, c.pc[t].n;
            && i < c.pc[t].end <= |c.content| && i < c.migration * env.chunk
            && c.next.ptr == c'.next.ptr == Some(n) && c'.tables[n] == c.tables[n]
            && Old(c') == Old(c)[i := Tombstone] && c'.content == c.content && c'.migration == c.migration
            && CarriedBy(c'.pc[t]) == StatesOf(Old(c)[i])
    ensures c' == c.(tables := c'.tables, pc := c'.pc) && (c'.pc[t].Take? || c'.pc[t].Carry? || c'.pc[t].Grab?)
    ensures forall q: nat :: InRange(c'.pc[t], q) <==> c.pc[t].i < q < c.pc[t].end
  {
    hide Home, Holds, Carried, Total, Placed, Unique, ProbeOk;
    assert ThreadOk(env, c, t);
    TakeFinds(env, c, t);
    hide MigrationOk, ChunksOk, CountsOk, ThreadsOk;
    var i, n := c.pc[t].i, c.pc[t].n;
    var x := Old(c)[i];
    if x.Full? { HomePlaced(env, c.tables[n], x); }
    assert Old(c') == Old(c)[i := Tombstone] && c'.tables[n] == c.tables[n];
  }

  lemma TakeStep(env: Env, c: Config, t: nat, c': Config)
    requires Inv(env, c) && t < |c.pc| && c.pc[t].Take? && MigrateStep(env, c, t) == Next(c')
    ensures Inv(env, c')
  {
    hide Home, Holds, Carried, Total, TablesOk, ContentOk, MigrationOk, ChunksOk, ThreadsOk, ThreadOk, Tolerable, InRange;
    TakeLocal(env, c, t, c');
    hide MigrateStep;
    TakeMigration(env, c, t, c', c.pc[t].i, c.pc[t].n);
    CountsStep(c, c', t);
    hide CountsOk;
    TakeChunks(env, c, t, c');
    OthersOk(env, c, c', t);
  }

  lemma TakeMigration(env: Env, c: Config, t: nat, c': Config, i: nat, n: nat)
    requires Sized(c) && t < |c.pc| && OnlyThread(c, c', t) && TablesOk(env, c) && TablesOk(env, c')
    requires MigrationOk(env, c) && i < |c.content| && c.next.ptr == c'.next.ptr == Some(n)
    requires Old(c') == Old(c)[i := Tombstone] && c'.tables[n] == c.tables[n] && c'.content == c.content
    requires CarriedBy(c.pc[t]) == multiset{} && CarriedBy(c'.pc[t]) == StatesOf(Old(c)[i])
    ensures MigrationOk(env, c')
  {
    hide Holds, Carried, ProbeOk;
    HoldsUpdate(Old(c), i, Tombstone);
    CarriedUpdate(c.pc, t, c'.pc[t]);
    TakeHolds(Holds(Old(c)), Holds(Old(c')), Holds(c.tables[n]), Carried(c.pc), Carried(c'.pc), StatesOf(Old(c)[i]));
  }

  lemma TakeHolds(old_: multiset<State>, old': multiset<State>, new_: multiset<State>,
    hand: multiset<State>, hand': multiset<State>, x: multiset<State>)
    requires old' + x == old_ + multiset{} && hand' + multiset{} == hand + x
    ensures old' + new_ + hand' == old_ + new_ + hand
  {
    assert hand' == hand + x && old' + x == old_;
  }

  // One step further along from where a search for y has got to.
  lemma DistNext(size: nat, h: nat, j: nat)
    requires h < size && j < size
    ensures Wrap(size, j, 1) < size
    ensures Dist(size, h, Wrap(size, j, 1)) == if Dist(size, h, j) + 1 < size then Dist(size, h, j) + 1 else 0
  {
  }

  /** Exchanging x with what slot j holds leaves a probe table, and what came out
      can go on from the next slot. */
  lemma ExchangeOk(env: Env, tab: Table, x: Slot, j: nat)
    requires ProbeOk(env, tab) && j < |tab| && Placed(env, tab, x, j)
    ensures var tab' := tab[j := x];
            && ProbeOk(env, tab') && Grows(tab, tab') && !tab[j].Tombstone?
            && (tab[j].Full? ==> Wrap(|tab|, j, 1) < |tab| && Placed(env, tab', tab[j], Wrap(|tab|, j, 1)))
  {
    var tab', y := tab[j := x], tab[j];
    assert Grows(tab, tab');
    assert y.Empty? || Placed(env, tab, y, j);
    PlacedGrows(env, tab, tab', x, j);
    forall p | 0 <= p < |tab'| ensures tab'[p].Empty? || Placed(env, tab', tab'[p], p) {
      if p != j && !tab[p].Empty? { PlacedGrows(env, tab, tab', tab[p], p); }
    }
    if y.Full? {
      var h := Home(env, |tab|, y.s);
      DistNext(|tab|, h, j);
      WrapDist(|tab|, h, j);
      var k := Dist(|tab|, h, j);
      forall d | 0 <= d < Dist(|tab|, h, Wrap(|tab|, j, 1)) ensures tab'[Wrap(|tab|, h, d)].Full? {
        if d < k { assert tab[Wrap(|tab|, h, d)].Full?; }
      }
    }
  }

  lemma CarryMigration(env: Env, c: Config, t: nat, c': Config, j: nat, n: nat)
    requires Sized(c) && t < |c.pc| && OnlyThread(c, c', t) && TablesOk(env, c) && TablesOk(env, c')
    requires MigrationOk(env, c) && c.next.ptr == c'.next.ptr == Some(n) && j < |c.tables[n]|
    requires Old(c') == Old(c) && c'.content == c.content && c.pc[t].Carry?
    requires c'.tables[n] == c.tables[n][j := c.pc[t].x] && ProbeOk(env, c'.tables[n])
    requires CarriedBy(c'.pc[t]) == StatesOf(c.tables[n][j])
    ensures MigrationOk(env, c')
  {
    hide Holds, Carried, ProbeOk;
    var tab, x := c.tables[n], c.pc[t].x;
    HoldsUpdate(tab, j, x);
    CarriedUpdate(c.pc, t, c'.pc[t]);
    CarryHolds(Holds(Old(c)), Holds(tab), Holds(c'.tables[n]), Carried(c.pc), Carried(c'.pc), StatesOf(x), StatesOf(tab[j]));
  }

  lemma CarryHolds(old_: multiset<State>, new_: multiset<State>, new': multiset<State>,
    hand: multiset<State>, hand': multiset<State>, x: multiset<State>, y: multiset<State>)
    requires new' + y == new_ + x && hand' + x == hand + y
    ensures old_ + new' + hand' == old_ + new_ + hand
  {
    forall s ensures (old_ + new' + hand')[s] == (old_ + new_ + hand)[s] {
      assert (new' + y)[s] == (new_ + x)[s];
      assert (hand' + x)[s] == (hand + y)[s];
    }
  }

  // What one exchange does, seen from the thread that does it.
  lemma CarryLocal(env: Env, c: Config, t: nat, c': Config)
    requires Inv(env, c) && t < |c.pc| && c.pc[t].Carry? && MigrateStep(env, c, t) == Next(c')
    ensures OnlyThread(c, c', t) && TablesOk(env, c') && ContentOk(env, c') && ThreadOk(env, c', t) && Tolerable(c, c', t)
    ensures var n, j := c.pc[t].n, c.pc[t].j;
            && c.next.ptr == c'.next.ptr == Some(n) && j < |c.tables[n]|
            && c'.tables[n] == c.tables[n][j := c.pc[t].x] && ProbeOk(env, c'.tables[n])
            && Old(c') == Old(c) && c'.content == c.content && c'.migration == c.migration
            && CarriedBy(c'.pc[t]) == StatesOf(c.tables[n][j])
    ensures c' == c.(tables := c'.tables, pc := c'.pc) && (c'.pc[t].Take? || c'.pc[t].Carry? || c'.pc[t].Grab?)
    ensures forall q: nat :: InRange(c'.pc[t], q) == InRange(c.pc[t], q)
  {
    hide Home, Holds, Carried, Total, Placed, Unique, ProbeOk;
    assert ThreadOk(env, c, t);
    var n, x, j := c.pc[t].n, c.pc[t].x, c.pc[t].j;
    var tab := c.tables[n];
    ExchangeOk(env, tab, x, j);
    hide ChunksOk, CountsOk, ThreadsOk;
    assert x.Full? by { PlacedFull(env, tab, x, j); }
    assert Old(c') == Old(c) && c'.tables[n] == tab[j := x];
  }

  lemma CarryStep(env: Env, c: Config, t: nat, c': Config)
    requires Inv(env, c) && t < |c.pc| && c.pc[t].Carry? && MigrateStep(env, c, t) == Next(c')
    ensures Inv(env, c')
  {
    hide Home, Holds, Carried, Total, TablesOk, ContentOk, MigrationOk, ChunksOk, ThreadsOk, ThreadOk, Tolerable, InRange;
    CarryLocal(env, c, t, c');
    hide MigrateStep;
    CarryMigration(env, c, t, c', c.pc[t].j, c.pc[t].n);
    CountsStep(c, c', t);
    hide CountsOk;
    ChunksSame(env, c, c');
    OthersOk(env, c, c', t);
  }

  lemma PlacedFull(env: Env, tab: Table, x: Slot, j: nat)
    requires j < |tab| && Placed(env, tab, x, j)
    ensures x.Full?
  {
  }

  // ----- the rendezvous -----

  // When the last token is taken, everyone else who takes part is waiting.
  lemma OthersWait(c: Config, t: nat)
    requires Sized(c) && CountsOk(c) && t < |c.pc| && Active(c.pc[t]) == 1 && c.pending == 1
    ensures forall u :: 0 <= u < |c.pc| && u != t ==> c.pc[u].Wait? || c.pc[u].Gone? || c.pc[u].Dormant?
  {
    TotalBounds(c.pc, Active, t);
    forall u | 0 <= u < |c.pc| && u != t ensures c.pc[u].Wait? || c.pc[u].Gone? || c.pc[u].Dormant? {
      assert Active(c.pc[t]) + Active(c.pc[u]) <= Total(c.pc, Active);
    }
  }

  /** Thread t arrives last, at a rendezvous it takes part in or while opting out. */
  predicate Leads(c: Config, t: nat)
    requires Sized(c) && t < |c.pc|
  {
    c.pending == 1 && (c.pc[t].Arrive? || (c.pc[t].OptOut? && c.running > 1))
  }

  // Somebody is waiting, or about to be woken: states are being migrated.
  lemma LeaderMigrates(env: Env, c: Config, t: nat)
    requires Inv(env, c) && t < |c.pc| && Leads(c, t)
    ensures c.next.ptr.Some? && c.migration * env.chunk >= |c.content|
  {
    hide Home, Holds, Carried, Total, Placed, Unique, ProbeOk;
    OthersWait(c, t);
    assert ThreadOk(env, c, t);
    if c.pc[t].OptOut? {
      if forall u :: 0 <= u < |c.pc| && u != t ==> !c.pc[u].Wait? {
        TotalSingle(c.pc, OptedIn, t);
      } else {
        var u :| 0 <= u < |c.pc| && u != t && c.pc[u].Wait?;
        assert ThreadOk(env, c, u);
      }
    }
  }

  lemma TotalSingle(pcs: seq<PC>, w: PC -> nat, t: nat)
    requires t < |pcs| && w(Gone) == 0 && forall u :: 0 <= u < |pcs| && u != t ==> w(pcs[u]) == 0
    ensures Total(pcs, w) == w(pcs[t])
  {
    TotalUpdate(pcs, w, t, Gone);
    TotalConst(pcs[t := Gone], w, 0);
  }

  /** When the leader acts, every slot of the old table has been emptied, every
      state is in the new one, and nobody holds a reference to the old one. */
  lemma LeaderFinds(env: Env, c: Config, t: nat)
    requires Inv(env, c) && t < |c.pc| && Leads(c, t)
    ensures c.next.ptr.Some? && c.global.count == 0
    ensures forall q :: 0 <= q < |Old(c)| ==> Old(c)[q].Tombstone?
    ensures Holds(c.tables[c.next.ptr.value]) == Holds(c.content)
    ensures forall u :: 0 <= u < |c.pc| ==> HoldsGlobal(c.pc[u]) == 0
  {
    hide Home, Holds, Carried, Total, Placed, Unique, ProbeOk;
    LeaderMigrates(env, c, t);
    OthersWait(c, t);
    TotalConst(c.pc, HoldsGlobal, 0);
    CarriedNothing(c.pc);
    forall q | 0 <= q < |Old(c)| ensures Old(c)[q].Tombstone? { assert !Claimed(c.pc, q); }
    HoldsNothing(Old(c));
    var m := c.next.ptr.value;
    assert Holds(c.content) == multiset{} + Holds(c.tables[m]) + multiset{};
  }

  /** What the leader leaves behind: the new table is the only one, whoever waited
      has a reference to it, and all tokens are back. */
  predicate Shifted(c: Config, c': Config, t: nat)
    requires Sized(c) && t < |c.pc| && c.next.ptr.Some? && c.next.ptr.value in c.tables
  {
    && c'.tables == map[c.next.ptr.value := c.tables[c.next.ptr.value]]
    && c'.global == c.next && c'.next == Ref(None, 0) && c'.migration == 0
    && c'.content == c.tables[c.next.ptr.value]
    && c'.pending == c.running == c'.running && c'.mutex == c.mutex && c'.count == c.count && c'.local == c.local
    && |c'.pc| == |c.pc|
    && forall u :: 0 <= u < |c.pc| ==>
         c'.pc[u] == if c.pc[u].Wait? || c.pc[u].Arrive? then Woken(c.pc[u].s, c.pc[u].n) else c.pc[u]
  }

  lemma ShiftedCounts(env: Env, c: Config, c': Config, t: nat)
    requires Inv(env, c) && t < |c.pc| && Leads(c, t) && c.next.ptr.Some? && Shifted(c, c', t)
    requires Holds(c'.content) == Holds(c.content)
    ensures CountsOk(c')
  {
    hide Home, Holds, Carried, Total, Placed, Unique, ProbeOk;
    OthersWait(c, t);
    TotalSame(c.pc, c'.pc, HoldsNext, HoldsGlobal);
    TotalConst(c'.pc, HoldsNext, 0);
    TotalSame(c.pc, c'.pc, OptedIn, OptedIn);
    TotalSame(c.pc, c'.pc, OptedIn, Active);
    TotalSame(c.pc, c'.pc, HasMutex, HasMutex);
    TotalSame(c.pc, c'.pc, Uncounted, Uncounted);
  }

  lemma ShiftedOk(env: Env, c: Config, c': Config, t: nat)
    requires Inv(env, c) && t < |c.pc| && Leads(c, t) && c.next.ptr.Some? && Shifted(c, c', t)
    ensures Inv(env, c') && Holds(c'.content) == Holds(c.content)
  {
    hide Home, Holds, Carried, Total, Placed;
    LeaderFinds(env, c, t);
    ShiftedCounts(env, c, c', t);
    OthersWait(c, t);
    var m := c.next.ptr.value;
    assert TablesOk(env, c') by { DoubleOk(env.chunk, |c.content|); }
    forall u | 0 <= u < |c'.pc| ensures ThreadOk(env, c', u) { assert ThreadOk(env, c, u); }
    assert ChunksOk(env, c') by {
      forall q | 0 <= q < |c'.content| ensures !Old(c')[q].Tombstone? {
        assert c'.content[q].Empty? || Placed(env, c'.content, c'.content[q], q);
        if !c'.content[q].Empty? { PlacedFull(env, c'.content, c'.content[q], q); }
      }
    }
  }

  lemma DoubleOk(chunk: nat, size: nat)
    requires chunk > 0 && size % chunk == 0
    ensures (2 * size) % chunk == 0
  {
    var m := size / chunk;
    assert size == m * chunk;
    MulMod(m, chunk);
    assert (2 * m) * chunk == 2 * size;
    MulMod(2 * m, chunk);
  }

  // ----- every step -----

  /** The one case in which a step goes wrong: a thread that opts out leads a
      rendezvous although the table it calls its own is no longer the current one.
      It has led one before, while trying to opt out, and moved on to its retry. */
  predicate LeadsAgain(c: Config, t: nat)
    requires Sized(c) && t < |c.pc|
  {
    c.pc[t].OptOut? && c.pending == 1 && c.running > 1 && c.global.ptr != Some(c.local[t])
  }

  lemma InsertSafe(env: Env, c: Config, t: nat)
    requires Inv(env, c) && t < |c.pc| && Inserting(c.pc[t])
    ensures InsertStep(env, c, t).Next? && Inv(env, InsertStep(env, c, t).c)
  {
    hide Home, Holds, Carried, Total, Placed, Unique, ProbeOk, Inv, ThreadOk;
    if c.pc[t].Probe? || c.pc[t].Claim? { ProbeSafe(env, c, t); }
    else if c.pc[t].Start? { StartSafe(env, c, t); }
    else { CountSafe(env, c, t); }
  }

  lemma ProbeSafe(env: Env, c: Config, t: nat)
    requires Inv(env, c) && t < |c.pc| && (c.pc[t].Probe? || c.pc[t].Claim?)
    ensures InsertStep(env, c, t).Next? && Inv(env, InsertStep(env, c, t).c)
  {
    hide Home, Holds, Carried, Total, Placed, Unique, ProbeOk, MigrationOk;
    assert ThreadOk(env, c, t);
    var pc := c.pc[t];
    var c' := InsertStep(env, c, t).c;
    if pc.k < |c.content| {
      var i := Wrap(|c.content|, Home(env, |c.content|, pc.s), pc.k);
      if pc.Claim? && Old(c)[i].Empty? { StoreStep(env, c, t, i, c'); }
      else { FoundOk(env, c, c', t, pc.s, pc.k); }
    } else {
      CountsStep(c, c', t);
      PlainStep(env, c, c', t);
    }
  }

  // Deciding whether to expand before an insertion.
  lemma StartSafe(env: Env, c: Config, t: nat)
    requires Inv(env, c) && t < |c.pc| && c.pc[t].Start?
    ensures InsertStep(env, c, t).Next? && Inv(env, InsertStep(env, c, t).c)
  {
    hide Home, Holds, Carried, Total, Placed, Unique, ProbeOk, MigrationOk, ContentOk, InRange;
    assert ThreadOk(env, c, t);
    CountsStep(c, InsertStep(env, c, t).c, t);
    PlainStep(env, c, InsertStep(env, c, t).c, t);
  }

  // Counting a new state, and returning.
  lemma CountSafe(env: Env, c: Config, t: nat)
    requires Inv(env, c) && t < |c.pc| && (c.pc[t].Count? || c.pc[t].Done?)
    ensures InsertStep(env, c, t).Next? && Inv(env, InsertStep(env, c, t).c)
  {
    hide Home, Holds, Carried, Total, Placed, Unique, ProbeOk, MigrationOk, ContentOk, InRange;
    assert ThreadOk(env, c, t);
    CountsStep(c, InsertStep(env, c, t).c, t);
    PlainStep(env, c, InsertStep(env, c, t).c, t);
  }

  lemma ExpandSafe(env: Env, c: Config, t: nat, a: nat)
    requires Inv(env, c) && t < |c.pc| && Expanding(c.pc[t]) && a !in c.tables
    ensures ExpandStep(c, t, a) != Fault
    ensures ExpandStep(c, t, a).Next? ==> Inv(env, ExpandStep(c, t, a).c)
  {
    hide Home, Holds, Carried, Total, Placed, Unique, ProbeOk, Inv;
    if c.pc[t].Publish? { PublishSafe(env, c, t, a); } else { ExpandLocal(env, c, t, a); }
  }

  lemma PublishSafe(env: Env, c: Config, t: nat, a: nat)
    requires Inv(env, c) && t < |c.pc| && c.pc[t].Publish? && a !in c.tables
    ensures ExpandStep(c, t, a).Next? && Inv(env, ExpandStep(c, t, a).c)
  {
    hide Home, Holds, Carried, Total, Placed, Unique, ProbeOk;
    assert ThreadOk(env, c, t);
    PublishStep(env, c, t, a, ExpandStep(c, t, a).c);
  }

  lemma ExpandLocal(env: Env, c: Config, t: nat, a: nat)
    requires Inv(env, c) && t < |c.pc| && Expanding(c.pc[t]) && !c.pc[t].Publish?
    ensures ExpandStep(c, t, a) != Fault
    ensures ExpandStep(c, t, a).Next? ==> Inv(env, ExpandStep(c, t, a).c)
  {
    hide Inv, ExpandStep;
    if c.pc[t].Peek? || c.pc[t].Enter? { EnterSafe(env, c, t, a); } else { MutexSafe(env, c, t, a); }
  }

  // Deciding to migrate, and taking a reference to the new table.
  lemma EnterSafe(env: Env, c: Config, t: nat, a: nat)
    requires Inv(env, c) && t < |c.pc| && (c.pc[t].Peek? || c.pc[t].Enter?)
    ensures ExpandStep(c, t, a).Next? && Inv(env, ExpandStep(c, t, a).c)
  {
    hide Home, Holds, Carried, Total, Placed, Unique, ProbeOk, PathFull, MigrationOk, ContentOk;
    assert ThreadOk(env, c, t);
    var c' := ExpandStep(c, t, a).c;
    CountsStep(c, c', t);
    PlainStep(env, c, c', t);
  }

  // Locking and unlocking, and looking again in between.
  lemma MutexSafe(env: Env, c: Config, t: nat, a: nat)
    requires Inv(env, c) && t < |c.pc| && (c.pc[t].Lock? || c.pc[t].Check? || c.pc[t].Unlock?)
    ensures ExpandStep(c, t, a) != Fault
    ensures ExpandStep(c, t, a).Next? ==> Inv(env, ExpandStep(c, t, a).c)
  {
    hide Home, Holds, Carried, Total, Placed, Unique, ProbeOk, PathFull, MigrationOk, ContentOk;
    assert ThreadOk(env, c, t);
    if ExpandStep(c, t, a).Next? {
      var c' := ExpandStep(c, t, a).c;
      TotalBounds(c.pc, HasMutex, t);
      CountsStep(c, c', t);
      PlainStep(env, c, c', t);
    }
  }

  lemma MigrateSafe(env: Env, c: Config, t: nat)
    requires Inv(env, c) && t < |c.pc| && Migrating(c.pc[t])
    ensures MigrateStep(env, c, t).Next? && Inv(env, MigrateStep(env, c, t).c)
  {
    hide Home, Holds, Carried, Total, Placed, Unique, ProbeOk;
    assert ThreadOk(env, c, t);
    var pc := c.pc[t];
    if pc.Grab? {
      GrabStep(env, c, t, MigrateStep(env, c, t).c);
    } else if pc.Take? {
      TakeFinds(env, c, t);
      TakeStep(env, c, t, MigrateStep(env, c, t).c);
    } else if pc.Carry? {
      ExchangeOk(env, c.tables[pc.n], pc.x, pc.j);
      CarryStep(env, c, t, MigrateStep(env, c, t).c);
    } else {
      TotalBounds(c.pc, HoldsGlobal, t);
      CountsStep(c, MigrateStep(env, c, t).c, t);
      PlainStep(env, c, MigrateStep(env, c, t).c, t);
    }
  }

  /** Migration loses and invents no state: whatever one step of it does, the states
      in the old table, in the new one and in the threads' hands are together the same. */
  lemma MigrationConserves(env: Env, c: Config, t: nat, c': Config)
    requires Inv(env, c) && t < |c.pc| && Migrating(c.pc[t]) && MigrateStep(env, c, t) == Next(c')
    ensures Inv(env, c') && c.next.ptr.Some? && c'.next.ptr == c.next.ptr && c'.global.ptr == c.global.ptr
    ensures var m := c.next.ptr.value;
            Holds(Old(c')) + Holds(c'.tables[m]) + Carried(c'.pc) == Holds(Old(c)) + Holds(c.tables[m]) + Carried(c.pc)
  {
    hide Home, Holds, Carried, Total, Placed, Unique, ProbeOk, ContentOk, ChunksOk, CountsOk;
    MigrateSafe(env, c, t);
    assert ThreadOk(env, c, t);
  }

  // The leader's step, when the table it releases is the old one.
  lemma LeadSafe(env: Env, c: Config, t: nat)
    requires Inv(env, c) && t < |c.pc| && Leads(c, t) && !LeadsAgain(c, t)
    ensures MeetStep(c, t).Next? && Inv(env, MeetStep(c, t).c)
    ensures Holds(MeetStep(c, t).c.content) == Holds(c.content)
    ensures c.next.ptr.Some? && Shifted(c, MeetStep(c, t).c, t)
  {
    hide Home, Holds, Carried, Total, Placed, Unique, ProbeOk, Passed, ContentOk, MigrationOk;
    assert ThreadOk(env, c, t);
    LeaderFinds(env, c, t);
    OthersWait(c, t);
    var m := c.next.ptr.value;
    assert c.tables - {c.global.ptr.value} == map[m := c.tables[m]];
    var c' := MeetStep(c, t).c;
    assert Shifted(c, c', t);
    ShiftedOk(env, c, c', t);
  }

  lemma MeetSafe(env: Env, c: Config, t: nat)
    requires Inv(env, c) && t < |c.pc| && !Leads(c, t)
    requires c.pc[t].Spawned? || c.pc[t].Arrive? || c.pc[t].Woken? || c.pc[t].Leave? || c.pc[t].OptOut?
    ensures MeetStep(c, t).Next? && Inv(env, MeetStep(c, t).c)
  {
    hide Inv, MeetStep;
    if c.pc[t].Arrive? || c.pc[t].OptOut? { TokenSafe(env, c, t); } else { ReferenceSafe(env, c, t); }
  }

  // A thread gives its token, and is not the last to.
  lemma TokenSafe(env: Env, c: Config, t: nat)
    requires Inv(env, c) && t < |c.pc| && !Leads(c, t) && (c.pc[t].Arrive? || c.pc[t].OptOut?)
    ensures MeetStep(c, t).Next? && Inv(env, MeetStep(c, t).c)
  {
    hide Home, Holds, Carried, Total, Placed, Unique, ProbeOk, MigrationOk, ContentOk, Claimed, Depart;
    assert ThreadOk(env, c, t);
    TotalBounds(c.pc, Active, t);
    TotalBounds(c.pc, OptedIn, t);
    var c' := MeetStep(c, t).c;
    CountsStep(c, c', t);
    PlainStep(env, c, c', t);
  }

  // A thread takes or gives back a reference to the current table.
  lemma ReferenceSafe(env: Env, c: Config, t: nat)
    requires Inv(env, c) && t < |c.pc| && (c.pc[t].Spawned? || c.pc[t].Woken? || c.pc[t].Leave?)
    ensures MeetStep(c, t).Next? && Inv(env, MeetStep(c, t).c)
  {
    hide Home, Holds, Carried, Total, Placed, Unique, ProbeOk, MigrationOk, ContentOk, Claimed, Depart;
    assert ThreadOk(env, c, t);
    TotalBounds(c.pc, HoldsGlobal, t);
    var c' := MeetStep(c, t).c;
    CountsStep(c, c', t);
    PlainStep(env, c, c', t);
  }

  lemma LaunchCounts(env: Env, c: Config)
    requires CountsOk(c) && Enabled(c, 0, Launch)
    ensures Launched(c).Next? && CountsOk(Launched(c).c)
  {
    hide Holds, Total;
    TotalSingle(c.pc, OptedIn, 0);
    TotalSingle(c.pc, Active, 0);
    var c' := Launched(c).c;
    TotalConst(c'.pc, OptedIn, 1);
    TotalConst(c'.pc, Active, 1);
    TotalSame(c.pc, c'.pc, HoldsGlobal, HoldsGlobal);
    TotalSame(c.pc, c'.pc, HoldsNext, HoldsNext);
    TotalSame(c.pc, c'.pc, HasMutex, HasMutex);
    TotalSame(c.pc, c'.pc, Uncounted, Uncounted);
  }

  lemma LaunchSafe(env: Env, c: Config)
    requires Inv(env, c) && Enabled(c, 0, Launch)
    ensures Launched(c).Next? && Inv(env, Launched(c).c)
  {
    hide Home, Holds, Carried, Placed, Unique, ProbeOk, Total, Passed, OptedIn;
    LaunchCounts(env, c);
    var c' := Launched(c).c;
    CarriedSame(c.pc, c'.pc);
    ChunksSame(env, c, c');
    forall u | 0 <= u < |c'.pc| ensures ThreadOk(env, c', u) { assert ThreadOk(env, c, u); }
  }

  /** From a configuration that satisfies the invariant, a step is a fault if and
      only if its thread leads a rendezvous again after one it led while opting
      out; every other step keeps the invariant. */
  lemma StepSafe(env: Env, c: Config, t: nat, ch: Choice)
    requires Inv(env, c) && Enabled(c, t, ch)
    ensures Step(env, c, t, ch).Fault? <==> ch.Run? && LeadsAgain(c, t)
    ensures Step(env, c, t, ch).Next? ==> Inv(env, Step(env, c, t, ch).c)
  {
    hide Home, Holds, Carried, Placed, Unique, ProbeOk, Total;
    match ch {
      case Insert(_) => CallSafe(env, c, t, ch);
      case Exit => CallSafe(env, c, t, ch);
      case Launch => LaunchSafe(env, c);
      case Run(a) =>
        var pc := c.pc[t];
        if Inserting(pc) { InsertSafe(env, c, t); }
        else if Expanding(pc) { ExpandSafe(env, c, t, a); }
        else if Migrating(pc) { MigrateSafe(env, c, t); }
        else if LeadsAgain(c, t) { LeaderMigrates(env, c, t); }
        else if Leads(c, t) { LeadSafe(env, c, t); }
        else if !pc.Wait? { MeetSafe(env, c, t); }
    }
  }

  lemma CallSafe(env: Env, c: Config, t: nat, ch: Choice)
    requires Inv(env, c) && Enabled(c, t, ch) && (ch.Insert? || ch.Exit?)
    ensures Step(env, c, t, ch).Next? && Inv(env, Step(env, c, t, ch).c)
  {
    hide Home, Holds, Carried, Total, Placed, Unique, ProbeOk;
    assert ThreadOk(env, c, t);
    var c' := Step(env, c, t, ch).c;
    CountsStep(c, c', t);
    PlainStep(env, c, c', t);
  }

  lemma InitialCounts(env: Env, c: Config)
    requires Initial(env, c)
    ensures CountsOk(c) && Holds(c.content) == multiset{}
  {
    hide Total, Home, EnvOk;
    HoldsNothing(c.content);
    TotalSingle(c.pc, HoldsGlobal, 0);
    TotalSingle(c.pc, HoldsNext, 0);
    TotalSingle(c.pc, OptedIn, 0);
    TotalSingle(c.pc, Active, 0);
    TotalSingle(c.pc, HasMutex, 0);
    TotalSingle(c.pc, Uncounted, 0);
  }

  lemma InitialSafe(env: Env, c: Config)
    requires Initial(env, c)
    ensures Inv(env, c) && Holds(c.content) == multiset{}
  {
    hide CountsOk, Total, Carried, Holds, Home, EnvOk;
    InitialCounts(env, c);
    CarriedNothing(c.pc);
  }
}
