/** The set of seen states as a machine whose steps are the atomic operations of
    the runtime: slot loads, swaps and exchanges, reference count updates, and
    the critical sections of the expansion mutex and the rendezvous lock.

    A step the runtime must never take (touching or releasing a table that has
    been released, indexing outside one, or failing an assertion) is a `Fault`. */
module SetMachine {
  import opened Options

  type State(==,!new)

  /** A slot holds a state together with the hash bits kept in the upper pointer
      bits. */
  datatype Slot = Empty | Tombstone | Full(tag: nat, s: State)

  type Table = seq<Slot>

  /** A reference-counted pointer to a table. */
  datatype Ref = Ref(ptr: Option<nat>, count: nat)

  /** The parameters: the hash function, the hash bits a pointer has room for, the
      number of slots migrated at a time, and the expansion threshold in percent. */
  datatype Env = Env(hash: State -> nat, bits: nat -> nat, chunk: nat, threshold: nat)

  /** `s` is the state a thread is inserting, `n` the table it migrates to. */
  datatype PC =
    | Dormant
    | Spawned
    | Idle
    | Start(s: State)
    | Probe(s: State, k: nat)
    | Claim(s: State, k: nat)
    | Count
    | Done(r: bool)
    | Peek(s: State)
    | Lock(s: State)
    | Check(s: State)
    | Publish(s: State)
    | Unlock(s: State)
    | Enter(s: State)
    | Grab(s: State, n: nat)
    | Take(s: State, n: nat, i: nat, end: nat)
    | Carry(s: State, n: nat, i: nat, end: nat, x: Slot, j: nat)
    | Put(s: State, n: nat)
    | Arrive(s: State, n: nat)
    | Wait(s: State, n: nat)
    | Woken(s: State, n: nat)
    | Leave
    | OptOut
    | Gone

  /** `content` is what the current table would hold had nothing been migrated out
      of it; no step ever reads it. */
  datatype Config = Config(
    tables: map<nat, Table>,
    global: Ref,
    next: Ref,
    migration: nat,
    mutex: bool,
    running: nat,
    pending: nat,
    count: nat,
    local: seq<nat>,
    pc: seq<PC>,
    content: Table)

  datatype Outcome = Fault | Blocked | Next(c: Config)

  /** Which call an idle thread makes; `Launch` starts the secondary threads, and
      `Run(a)` continues the thread's current call, with `a` the identity a newly
      allocated table would get. */
  datatype Choice = Insert(s: State) | Exit | Launch | Run(a: nat)

  predicate Enabled(c: Config, t: nat, ch: Choice)
  {
    && t < |c.pc|
    && match ch
       case Insert(_) => c.pc[t].Idle?
       case Exit => c.pc[t].Idle?
       case Launch => t == 0 && |c.pc| > 1 && c.pc[0].Idle? && forall u :: 1 <= u < |c.pc| ==> c.pc[u].Dormant?
       case Run(a) => !c.pc[t].Idle? && !c.pc[t].Gone? && !c.pc[t].Dormant? && a !in c.tables
  }

  function Goto(c: Config, t: nat, pc: PC): Config
    requires t < |c.pc|
  {
    c.(pc := c.pc[t := pc])
  }

  /** The slot `d` places after `i`, wrapping around: both are below the size. */
  function Wrap(size: nat, i: nat, d: nat): nat
  {
    if i + d < size then i + d else i + d - size
  }

  function Home(env: Env, size: nat, s: State): (i: nat)
    requires size > 0
    ensures i < size
  {
    env.hash(s) % size
  }

  function SlotOf(env: Env, s: State): Slot
  {
    Full(env.bits(env.hash(s)), s)
  }

  // What an inserting thread does about the slot it found at distance k.
  function Found(env: Env, s: State, k: nat, slot: Slot): PC
  {
    match slot
    case Empty => Claim(s, k)
    case Tombstone => Enter(s)
    case Full(tag, x) =>
      if tag != env.bits(env.hash(s)) then Probe(s, k + 1)
      else if x == s then Done(false)
      else Probe(s, k + 1)
  }

  function AfterSlot(s: State, n: nat, i: nat, end: nat): PC
  {
    if i < end then Take(s, n, i, end) else Grab(s, n)
  }

  function Blank(size: nat): Table
  {
    seq(size, _ => Empty)
  }

  /** The rendezvous action. The table released is the one the leader has as its
      own, `mine`; it has to be the one that is being replaced. */
  function Update(c: Config, mine: nat): Outcome
  {
    if c.next.ptr.None? then Next(c)
    else if mine !in c.tables || c.global.ptr != Some(mine) then Fault
    else if c.global.count != 0 then Fault
    else
      var tables := c.tables - {mine};
      Next(c.(tables := tables, migration := 0, global := c.next, next := Ref(None, 0),
              content := if c.next.ptr.value in tables then tables[c.next.ptr.value] else c.content))
  }

  function Awake(pc: PC): PC
  {
    if pc.Wait? then Woken(pc.s, pc.n) else pc
  }

  /** The leader's departure: run the action, reset the counter, wake the others. */
  function Depart(c: Config, mine: nat): Outcome
  {
    match Update(c, mine)
    case Next(c1) =>
      Next(c1.(pending := c1.running, pc := seq(|c1.pc|, u requires 0 <= u < |c1.pc| => Awake(c1.pc[u]))))
    case o => o
  }

  predicate Sized(c: Config)
  {
    |c.local| == |c.pc|
  }

  function InsertStep(env: Env, c: Config, t: nat): Outcome
    requires Sized(c) && t < |c.pc|
  {
    match c.pc[t]
    case Start(s) =>
      if c.local[t] !in c.tables || c.tables[c.local[t]] == [] then Fault
      else if c.count * 100 / |c.tables[c.local[t]]| >= env.threshold then Next(Goto(c, t, Peek(s)))
      else Next(Goto(c, t, Probe(s, 0)))
    case Probe(s, k) =>
      if c.local[t] !in c.tables || c.tables[c.local[t]] == [] then Fault
      else
        var tab := c.tables[c.local[t]];
        if k >= |tab| then Next(Goto(c, t, Peek(s)))
        else Next(Goto(c, t, Found(env, s, k, tab[Wrap(|tab|, Home(env, |tab|, s), k)])))
    case Claim(s, k) =>
      if c.local[t] !in c.tables || k >= |c.tables[c.local[t]]| then Fault
      else
        var tab := c.tables[c.local[t]];
        var i := Wrap(|tab|, Home(env, |tab|, s), k);
        if tab[i].Empty? then Next(Goto(Store(env, c, c.local[t], i, s), t, Count))
        else Next(Goto(c, t, Found(env, s, k, tab[i])))
    case Count => Next(Goto(c.(count := c.count + 1), t, Done(true)))
    case Done(_) => Next(Goto(c, t, Idle))
    case _ => Fault
  }

  // The successful claim of slot i for state s.
  function Store(env: Env, c: Config, l: nat, i: nat, s: State): Config
    requires l in c.tables && i < |c.tables[l]|
  {
    c.(tables := c.tables[l := c.tables[l][i := SlotOf(env, s)]],
       content := if i < |c.content| then c.content[i := SlotOf(env, s)] else c.content)
  }

  function ExpandStep(c: Config, t: nat, a: nat): Outcome
    requires Sized(c) && t < |c.pc|
  {
    match c.pc[t]
    case Peek(s) => Next(Goto(c, t, if c.next.ptr.Some? then Enter(s) else Lock(s)))
    case Lock(s) => if c.mutex then Blocked else Next(Goto(c.(mutex := true), t, Check(s)))
    case Check(s) =>
      Next(Goto(c, t, if c.next.ptr.Some? then Unlock(s) else Publish(s)))
    case Publish(s) =>
      if c.local[t] !in c.tables || c.next.count != 0 then Fault
      else
        Next(Goto(c.(tables := c.tables[a := Blank(2 * |c.tables[c.local[t]]|)], next := Ref(Some(a), 0)), t, Unlock(s)))
    case Unlock(s) => Next(Goto(c.(mutex := false), t, Enter(s)))
    case Enter(s) =>
      if c.next.ptr.None? then Fault
      else Next(Goto(c.(next := c.next.(count := c.next.count + 1)), t, Grab(s, c.next.ptr.value)))
    case _ => Fault
  }

  function MigrateStep(env: Env, c: Config, t: nat): Outcome
    requires Sized(c) && t < |c.pc|
  {
    match c.pc[t]
    case Grab(s, n) =>
      if c.local[t] !in c.tables then Fault
      else
        var start := c.migration * env.chunk;
        var c1 := c.(migration := c.migration + 1);
        Next(Goto(c1, t, if start >= |c.tables[c.local[t]]| then Put(s, n) else Take(s, n, start, start + env.chunk)))
    case Take(s, n, i, end) =>
      if c.local[t] !in c.tables || i >= |c.tables[c.local[t]]| then Fault
      else if n !in c.tables || c.tables[n] == [] then Fault
      else
        var tab := c.tables[c.local[t]];
        var c1 := c.(tables := c.tables[c.local[t] := tab[i := Tombstone]]);
        (match tab[i]
         case Tombstone => Fault
         case Empty => Next(Goto(c1, t, AfterSlot(s, n, i + 1, end)))
         case Full(_, x) => Next(Goto(c1, t, Carry(s, n, i, end, tab[i], Home(env, |c.tables[n]|, x)))))
    case Carry(s, n, i, end, x, j) =>
      if n !in c.tables || j >= |c.tables[n]| then Fault
      else
        var tab := c.tables[n];
        var c1 := c.(tables := c.tables[n := tab[j := x]]);
        (match tab[j]
         case Tombstone => Fault
         case Empty => Next(Goto(c1, t, AfterSlot(s, n, i + 1, end)))
         case Full(_, _) => Next(Goto(c1, t, Carry(s, n, i, end, tab[j], Wrap(|tab|, j, 1)))))
    case Put(s, n) =>
      if c.global.ptr != Some(c.local[t]) || c.global.count == 0 then Fault
      else Next(Goto(c.(global := c.global.(count := c.global.count - 1)), t, Arrive(s, n)))
    case _ => Fault
  }

  function MeetStep(c: Config, t: nat): Outcome
    requires Sized(c) && t < |c.pc|
  {
    match c.pc[t]
    case Spawned =>
      if c.global.ptr.None? then Fault
      else Next(Goto(c.(global := c.global.(count := c.global.count + 1), local := c.local[t := c.global.ptr.value]), t, Idle))
    case Arrive(s, n) =>
      if c.pending == 0 then Fault
      else
        var c1 := c.(pending := c.pending - 1);
        if c1.pending > 0 then Next(Goto(c1, t, Wait(s, n))) else Depart(Goto(c1, t, Woken(s, n)), c.local[t])
    case Wait(_, _) => Blocked
    case Woken(s, n) => Next(Goto(c.(local := c.local[t := n]), t, Start(s)))
    case Leave =>
      if c.global.ptr != Some(c.local[t]) || c.global.count == 0 then Fault
      else Next(Goto(c.(global := c.global.(count := c.global.count - 1)), t, OptOut))
    case OptOut =>
      if c.pending == 0 || c.running == 0 then Fault
      else
        var c1 := c.(pending := c.pending - 1);
        if c1.pending == 0 && c.running > 1 then Depart(c1, c.local[t])
        else Next(Goto(c1.(running := c.running - 1), t, Gone))
    case _ => Fault
  }

  function Launched(c: Config): Outcome
  {
    if c.running != 1 || c.pending != 1 then Fault
    else
      var n := |c.pc|;
      Next(c.(running := n, pending := n,
              pc := seq(n, u requires 0 <= u < n => if c.pc[u].Dormant? then Spawned else c.pc[u])))
  }

  predicate Inserting(pc: PC)
  {
    pc.Start? || pc.Probe? || pc.Claim? || pc.Count? || pc.Done?
  }

  predicate Expanding(pc: PC)
  {
    pc.Peek? || pc.Lock? || pc.Check? || pc.Publish? || pc.Unlock? || pc.Enter?
  }

  predicate Migrating(pc: PC)
  {
    pc.Grab? || pc.Take? || pc.Carry? || pc.Put?
  }

  function Step(env: Env, c: Config, t: nat, ch: Choice): Outcome
    requires Sized(c) && Enabled(c, t, ch)
  {
    match ch
    case Insert(s) => Next(Goto(c, t, Start(s)))
    case Exit => Next(Goto(c, t, Leave))
    case Launch => Launched(c)
    case Run(a) =>
      var pc := c.pc[t];
      if Inserting(pc) then InsertStep(env, c, t)
      else if Expanding(pc) then ExpandStep(c, t, a)
      else if Migrating(pc) then MigrateStep(env, c, t)
      else MeetStep(c, t)
  }

  /** Table sizes are multiples of the chunk size. */
  predicate EnvOk(env: Env, size: nat)
  {
    env.chunk > 0 && size > 0 && size % env.chunk == 0
  }

  /** One table, holding nothing, which the first thread has a reference to; the
      other threads have not been started. */
  predicate Initial(env: Env, c: Config)
  {
    && Sized(c) && |c.pc| > 0
    && c.global == Ref(Some(0), 1) && c.next == Ref(None, 0) && c.tables.Keys == {0}
    && EnvOk(env, |c.tables[0]|)
    && c.tables[0] == Blank(|c.tables[0]|) && c.content == c.tables[0]
    && c.migration == 0 && !c.mutex && c.running == c.pending == 1 && c.count == 0
    && c.local[0] == 0 && c.pc[0] == Idle
    && forall t :: 1 <= t < |c.pc| ==> c.pc[t] == Dormant
  }
}
