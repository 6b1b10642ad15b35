# The explicit-state checker that Rumur generates, modelled and proved

Rumur turns a Murphi model into a C program that searches the model's states with
several threads. This project models the algorithms of that program and proves what
they promise: the runtime in `rumur/resources/header.c`, and the code generated by
`symmetry-reduction.cc`, `generate-model.cc` and the layout code they rely on.
`dafny verify dfyconfig.toml` checks everything.

## What is modelled

- **Pending queues** (`QueueMachine`, `QueueInvariant`, `QueueSafety`, `QueueFifo`,
  `QueueCalls`, `QueueHazards`, `QueueReuse`, `QueueDeferred`, `QueueOutgrown`,
  `QueueProgress`, `QueueOwn`, `QueueBlocked`). Enqueueing, dequeueing and hazard-pointer reclamation as a state
  machine with one step per atomic operation, for any number of threads, queues and
  slots per node, with addresses coming back into use. A step the runtime must never
  take is a fault; none is ever possible, and the queues refine first-in-first-out
  queues, each call doing what was asked of it. A swap of a queue's ends that succeeds
  is never fooled by an address that came back into use.
- **Seen set** (`SetMachine`, `SetTotals`, `SetInvariant`, `SetSafety`, `SetRefinement`,
  `SetShuffle`, `SetProbing`, `SetGrowth`, `SetRendezvous`, `SetTable`, `SetRetry`). Insertion, expansion, cooperative migration,
  reference counts and the rendezvous, for any number of threads, hash function and
  chunk size. It refines a mathematical set.
- **Numbering of permutations** (`Permutations`), by Heap's algorithm.
- **Packed states** (`Arithmetic`, `Options`, `BitNumbers`, `RawAccess`, `Types`, `Paths`, `Layout`,
  `SimpleTypes`):
  masked reads and writes, access paths, encoding of values, choice of types.
- **Symmetry reduction** (`Action`, `Rearranging`, `Swapping`, `Comparing`, `Decisions`,
  `Orbits`, `Sorting`, `StateData`, `Heuristic`, `Exhaustive`, `Traces`): swaps in place,
  the comparator and what it decides,
  the sort, both canonicalisations, schedules, and what a printed trace means.
- **Exploration** (`Reachability`, `Exploration`, `SearchEnds`, `SymmetricSearch`,
  `Reduction`, `BoundedSearch`) and **liveness** (`Liveness`, `SharedMarks`).
- **Rule numbers** (`RuleNumbers`): numbering firings and decoding them for traces.

## How

- Threads interleave atomic steps under sequential consistency. Getting and putting a
  reference-counted pointer is one step, since a failed attempt of its loop changes
  nothing. The critical sections of the rendezvous are one step each, and waiting
  threads wake only when the leader wakes them.
- Thread count, node capacity, hash function and hash bits, chunk size, expansion
  threshold, rules and invariants are parameters. Table sizes are multiples of the
  chunk size; `hash & (size - 1)` is the remainder by the size.
- `done`, `status`, `spec`, `chain` and `content` in the two machines are bookkeeping
  that no step reads.
- Memory is an array of bits, eight to a byte, little-endian. A bit of padding at the
  end of a state is a component of no scalarset.
- Exploration takes the operations of the set and the queues as single steps, which is
  what the modules on the set and the queues establish.
- A scalarset is matched by the name of its declaration, as the generator does it, and
  an array's elements are reached by the scalarset values counted from 0. Paths count
  elements from 0 too; the number a program indexes with is that plus the lower bound
  of the array's index type, which may be anything.

## Where the code falls short

- A thread that opts out of the rendezvous may turn out to be the leader, run the
  action, and retry (`rumur/resources/header.c:3202-3223`). The action releases the
  table the thread calls its own (3398-3419), which the thread does not renew before
  retrying. If it leads again, it releases that table a second time and never the one
  that is being replaced. `SetRetry.LeadsTwice` gives a run; `SetSafety.StepSafe` shows
  that this is the only thing that can go wrong, and exactly when. The comment above
  the release relies on the caller to make the access safe.
- The list of deferred releases has `THREADS - 1` places and the assertion after it says
  that these are enough (`rumur/resources/header.c:2364-2438`), because each thread
  protects one node at a time. They are not: a thread may protect one deferred node when
  the pass tests that one and another when it tests the next. `QueueOutgrown.RunsOutOfRoom`
  gives a run of two threads, `QueueDeferred.OutgrowsExactly` says when the assertion
  fails, and `QueueDeferred.OutgrowsMeansMoved` that a thread must have moved its hazard
  pointer from one deferred node to another during the pass.
- The order that fields are sorted by puts each of two zero-width fields before the
  other (`rumur/src/optimise-field-ordering.cc:28-33`), which sorting does not allow.
  `SimpleTypes.BeforeStrict` shows that these pairs are the only ones.

## Model

| member | source | states |
|---|---|---|
| QueueSafety.StepSafe | rumur/resources/header.c:2683-2955 | From any configuration that satisfies the invariant, no step of any thread touches a released node, releases a node twice, leaves the bounds of a node, or fails an assertion of enqueueing or dequeueing: that the tail is a slot for a state, that head and tail are null together, that what is taken or chained is there, and the two about racing stores; and the invariant still holds. Allocation may return any unused address, including one in use before |
| QueueSafety.UndoStep | rumur/resources/header.c:2786-2817 | Undoing a speculative write finds that write still in its slot, so that neither assertion about racing stores fails, and keeps the invariant |
| QueueSafety.SpeculateStep | rumur/resources/header.c:2737-2778 | A write into the empty slot past the tail keeps the invariant, by which its writer alone has an unconfirmed write in that node |
| QueueFifo.PastTailSim | rumur/resources/header.c:2734-2817 | Writing past the tail, chaining a node there, and undoing either change no queue |
| QueueFifo.InstallSim | rumur/resources/header.c:2695-2713 | The swap that installs a first node is the step that puts its state into the empty queue |
| QueueFifo.AppendSim | rumur/resources/header.c:2780-2823 | The swap that confirms a write is the step that puts its state at the back of the queue |
| QueueFifo.RemoveSim | rumur/resources/header.c:2866-2930 | The swap that moves the head, or empties the queue, is the step that takes the state at its front |
| QueueFifo.HopSim | rumur/resources/header.c:2876-2903 | The swap that moves on to the chained node changes no queue |
| QueueSafety.Unguarded | rumur/resources/header.c:2380-2425 | A node for which the pass over all hazard pointers found no conflict is guarded by no thread, though the pass is not one step |
| QueueSafety.ReleaseStep | rumur/resources/header.c:2348-2438 | Releasing such a node is not a fault, and the invariant holds without it: nothing refers to it any more |
| QueueSafety.Validated | rumur/resources/header.c:2716-2728 | If the ends are still as they were loaded, head and tail are filled slots of allocated nodes that are in a queue |
| QueueFifo.StepSim | rumur/resources/header.c:2683-2955 | Every step is a step of a specification with one first-in-first-out queue per thread, in which putting and taking are single steps; they take effect at the successful swaps of the ends |
| QueueFifo.RunSafe | rumur/resources/header.c:2678-2955 | Over every run and interleaving, nothing that can happen next is a fault |
| QueueFifo.RunIsFifo | rumur/resources/header.c:2678-2955 | Over every run, the states put into a queue are those taken from it, in that order, followed by what it holds: none lost, repeated or overtaken |
| QueueCalls.CallStep | rumur/resources/header.c:2683-2955 | A thread told to put x into queue k sets out to put x into queue k, one told to take a state sets out at the queue named, a call under way moves on, and no other thread's call changes |
| QueueCalls.RunCalls | rumur/resources/header.c:2678-2955 | Over every run, a call is the one its thread was last asked for, at the queue it should have come to, and takes effect exactly once before it returns |
| QueueCalls.PutAsAsked | rumur/src/generate-model.cc:1030-1040 | Over every run, an enqueue puts the state last asked for at the back of the queue named and changes no other queue |
| QueueCalls.TakeAsAsked | rumur/resources/header.c:2833-2955 | Over every run, a dequeue goes round from the queue named and takes the front of one, having found those before it empty since it was asked; or comes back with nothing, having found every queue empty since then |
| QueueHazards.OneSpeculator | rumur/resources/header.c:2734-2817 | At most one thread has an unconfirmed write in a node, and it is in the slot just past the tail |
| QueueHazards.GuardHolds | rumur/resources/header.c:2311-2438 | From the validation of a hazard pointer, for as long as the thread keeps it set, through all its own steps and those of the others, the node it names is not released, so its address cannot be reused |
| QueueHazards.SwapMeansSame | rumur/resources/header.c:2780-2930 | When any of the three swaps of a queue that is not empty succeeds, the nodes it compared are at that moment the first and last of the queue, an enqueuer's write is still in its slot, and the node a dequeuer moves the head to is the second |
| QueueReuse.NoReuse | rumur/resources/header.c:2683-2955 | No ABA over any run: if the end pair that a thread validated is there again while the thread still has it in mind, as when its swap succeeds, then at every moment since the validation the end pair was that one, the queue had the same nodes, and both end nodes, the one no hazard pointer protects as well, were allocated and in that queue |
| QueueReuse.QueueChange | rumur/resources/header.c:2683-2955 | Every step of every thread leaves each queue's list of nodes alone, adds at its back or removes at its front; and with the same nodes the ends only move on |
| QueueHazards.NoneForgotten | rumur/resources/header.c:2348-2438 | Once all calls have returned, every allocated node is in a queue or in a list of deferred releases |
| QueueDeferred.OutgrowsExactly | rumur/resources/header.c:2364-2438 | A step exceeds the room for deferred releases if and only if its thread finds the node just removed protected while all THREADS - 1 places are taken |
| QueueDeferred.OutgrowsMeansMoved | rumur/resources/header.c:2364-2438 | That takes a thread that protected two of the deferred nodes, one after the other, during the one pass; unless a thread does so there is room |
| QueueOutgrown.RunsOutOfRoom | rumur/resources/header.c:2364-2438 | And it does occur: a run of two threads, for any two states and any capacity of nodes, in which the assertion fails |
| QueueProgress.SoloStep | rumur/resources/header.c:2683-2955 | Each step a thread makes by itself brings it nearer the end of its call, unless it is enqueueing where another has an unconfirmed write past the tail |
| QueueProgress.SoloEnds | rumur/resources/header.c:2683-2955 | From any moment of any run, a dequeue that runs alone ends within a bounded number of steps, and so does an enqueue under that condition |
| QueueProgress.BlockedCycles | rumur/resources/header.c:2734-2817 | The condition is needed: an enqueue blocked in this way comes back to the configuration it was in |
| QueueBlocked.BlockedOccurs | rumur/resources/header.c:2734-2817 | And two threads that put states into one queue can get there, whatever the capacity of nodes |
| QueueOwn.OwnCallsEnd | rumur/src/generate-model.cc:901-1084 | But not in the generated program, where the first thread fills all queues while it is alone and each thread then fills its own: there every call that runs alone, from any moment of any run, ends within a bounded number of steps |
| SetSafety.StepSafe | rumur/resources/header.c:3398-3609 | A step of the seen set is a fault (a table used or released after its release, an index outside it, a failed assertion, a double migration) if and only if a thread that opts out leads a second rendezvous; every other step keeps the invariant |
| SetRetry.LeadsTwice | rumur/resources/header.c:3202-3223 | The exception does occur: a run, for any two distinct states, after which a thread that led a rendezvous while opting out leads another and releases a table that was released before |
| SetSafety.LeaderFinds | rumur/resources/header.c:3398-3419 | When the leader installs the new table, every slot of the old one is a tombstone, the new one holds exactly the states, and no thread holds a reference to the old one |
| SetSafety.ExchangeOk | rumur/resources/header.c:3455-3467 | Exchanging a carried state with a slot keeps the linear-probing invariant with wrap-around, for the table and for the state displaced |
| SetSafety.TakeChunks | rumur/resources/header.c:3450-3455 | Emptying a slot keeps: a slot is a tombstone exactly when its chunk was handed out and its thread is past it, and no two threads share a slot |
| SetSafety.CarryMigration | rumur/resources/header.c:3461-3467 | An exchange in the new table, while others exchange too, conserves the states: those in the old table, in the new one and in threads' hands together |
| SetSafety.MigrationConserves | rumur/resources/header.c:3421-3487 | No step of a migration loses or invents a state: those in the old table, in the new one and in all threads' hands are together the same |
| SetSafety.NotThere | rumur/resources/header.c:3549-3596 | An empty slot, after slots that hold other states, means the state is nowhere in the table |
| SetSafety.PassedOne | rumur/resources/header.c:3254-3286 | The comparison of hash bits never passes over the state sought |
| SetSafety.StoreStep | rumur/resources/header.c:3553-3577 | A successful claim of a slot adds a state that was not there, once |
| SetSafety.PublishStep | rumur/resources/header.c:3489-3534 | Publishing the next table, while others insert, keeps the invariant |
| SetSafety.GrabChunks | rumur/resources/header.c:3433-3442 | And so does handing out the next chunk, or finding none left |
| SetRefinement.StepSim | rumur/resources/header.c:3421-3609 | Every step is a step of a mathematical set with an atomic insert, which answers true if and only if it adds the state; migration and expansion change nothing |
| SetRefinement.RunSafe | rumur/resources/header.c:3398-3609 | The invariant holds throughout every run, and a fault can come next only by leading a rendezvous again |
| SetRefinement.RunWinsOnce | rumur/resources/header.c:3536-3609 | Over every run, exactly one insertion of each state in the set was answered true, and none of any other state |
| SetRefinement.FalseMeansPresent | rumur/resources/header.c:3583-3604 | An insertion answered false is of a state already in the set |
| SetRefinement.InsertBegins | rumur/resources/header.c:3536-3552 | A thread told to insert a state sets out to insert that state |
| SetRefinement.RunAsked | rumur/resources/header.c:3536-3609 | Over every run, what a thread is inserting is what it was last told to insert, through retries and expansions |
| SetRefinement.RunAnswers | rumur/resources/header.c:3536-3609 | Over every run, an insertion is answered true if and only if the state its thread was told to insert was not in the set, and then it is |
| SetGrowth.GrowsWhenLoaded | rumur/resources/header.c:3536-3543 | At the start of an insertion the table is expanded if and only if the states counted make up the threshold share of its slots, and it never counts more states than it holds |
| SetGrowth.GrowsWhenFull | rumur/resources/header.c:3549-3609 | Later on only if every slot is taken by another state, or the table is being emptied already |
| SetProbing.LookingEnds | rumur/resources/header.c:3549-3609 | Over any run, whatever the other threads store meanwhile, looking for a slot takes no more than two steps of its own for each slot, and three, to an answer or an expansion |
| SetRendezvous.PendingIs | rumur/resources/header.c:3108-3116 | The pending counter is the number of threads taking part minus those waiting |
| SetSafety.OthersWait | rumur/resources/header.c:3140-3161 | Whoever takes the last token finds every other participant waiting |
| SetRendezvous.RunNotStranded | rumur/resources/header.c:3140-3223 | In no run is a thread left waiting with nobody still to arrive or opt out |
| SetRendezvous.WaitsForSomeone | rumur/resources/header.c:3163-3190 | While a thread waits, another that takes part has yet to arrive |
| SetRendezvous.OncePerRound | rumur/resources/header.c:3140-3223 | Over any run, while a thread waits at the rendezvous nobody executes the action; it stops waiting exactly at the step of a thread that does, and then the table it waited for is in place: one execution each round |
| SetRendezvous.TokensReset | rumur/resources/header.c:3108-3161 | Once the secondary threads run, tokens come back only at the step of the thread that executes the action, and then all of them do |
| SetRendezvous.RunActsOnce | rumur/resources/header.c:3140-3223 | Over any run, every table ever published has been put in place exactly once, save the one being filled |
| SetTable.Find | rumur/resources/header.c:3619-3662 | The search returns a slot with the state if and only if the table holds it |
| SetShuffle.ShuffleEnds | rumur/resources/header.c:3455-3467 | Over any run, however the other migrators exchange states meanwhile, a thread that has been moving one slot's state and those it displaced has made fewer steps of its own than the old table has slots, which are half those of the new one: the walk to an empty slot always ends |
| SetShuffle.OthersGrow | rumur/resources/header.c:3421-3609 | While a thread moves states, no step of another empties a filled slot of the new table or replaces either table |
| SetTable.Rehash | rumur/resources/header.c:3461-3467 | One thread alone on a table: inserting with shuffling ends at the first empty slot, keeps the probing invariant and adds exactly one state |
| SetTable.MigrateChunk | rumur/resources/header.c:3450-3468 | One thread alone on both tables: exactly the slots of the chunk become tombstones, and their states go to the new table |
| SetTable.RoomToMigrate | rumur/resources/header.c:3489-3534 | However many threads migrate, the new table has an empty slot at every moment |
| Permutations.NumberedOnce | rumur/resources/header.c:2126-2219 | Different numbers below n! give different permutations |
| Permutations.NumberedAll | rumur/resources/header.c:2126-2219 | Every permutation has a number below n! |
| Permutations.AtNext | rumur/resources/header.c:2144-2165 | Counting up swaps the two places the loop swaps |
| Permutations.EndForm | rumur/resources/header.c:2126-2172 | Where the entries are once all arrangements of the first k places have been passed through |
| Permutations.BlockForm | rumur/resources/header.c:2126-2172 | And at the start of each block with the last of those places fixed |
| Permutations.AtAll | rumur/resources/header.c:2144-2165 | The algorithm reaches every rearrangement |
| Permutations.IndexToPermutation | rumur/resources/header.c:2173-2219 | Returns the permutation with the given number; the closing assertion is unreachable for numbers below n! |
| Permutations.PermutationToIndex | rumur/resources/header.c:2126-2172 | Returns the number of the given permutation, below n!; the closing assertion is unreachable |
| RawAccess.ReadRaw | rumur/resources/header.c:810-930 | For every offset within a byte and width up to 64, the sum of the addressed bits, whether read through 64-bit or 128-bit words |
| RawAccess.WriteRaw | rumur/resources/header.c:955-1093 | Sets the addressed bits to the low bits of the value and changes no other, through either kind of word |
| RawAccess.ReadWords | rumur/resources/header.c:846-930 | A word, or two combined by shifts and masks, none of which is undefined in C, hold exactly the addressed bits |
| RawAccess.WriteWords | rumur/resources/header.c:968-1092 | The masks keep exactly the bits on either side of the value, in one word or two |
| RawAccess.OnesIs | rumur/resources/header.c:886-889 | The mask of k ones is the number (1 << k) - 1 |
| RawAccess.HandleZero | rumur/resources/header.c:1812-1839 | Clears the bits of a component at any alignment, and no other |
| RawAccess.HandleCopy | rumur/resources/header.c:1841-1864 | Copies every bit to its counterpart, unless the source runs on into the target |
| RawAccess.HandleEq | rumur/resources/header.c:1866-1889 | True if and only if the bits are the same |
| Types.DecodeInjective | librumur/src/TypeExpr.cc:376-418 | Packed states that mean the same are the same bit for bit |
| Types.DecodeEncode | librumur/src/TypeExpr.cc:376-418 | And every value has a packed state that means it: no state of a model is out of reach of the layout |
| Layout.Inside | librumur/src/TypeExpr.cc:376-418 | A component lies within the width of what it is part of |
| Layout.Disjoint | rumur/src/optimise-field-ordering.cc:123-136 | Components neither of which is part of the other do not overlap, whatever the order of fields |
| Layout.ReachedPosition | rumur/src/generate-expr.cc:199-231 | The handle that generated code derives for an access path addresses exactly the bits of its component, whatever the lower bounds of the index types on the way |
| Layout.Read | rumur/resources/header.c:1724-1748 | Reading a path gives the number its leaf holds |
| Layout.GetIsMeant | rumur/resources/header.c:1724-1748 | That number is the one at the same path of what the whole packed state means, which is what swapping and comparing speak of |
| Layout.Write | rumur/resources/header.c:1750-1810 | After a write the leaf has the value and every other leaf the one it had |
| Layout.Undefine | rumur/resources/header.c:1812-1839 | Exactly the leaves of the component become undefined |
| Layout.Copy | rumur/resources/header.c:1841-1864 | Every leaf of the source component is moved to its counterpart, and no other leaf changes |
| SimpleTypes.BitWidth | rumur/src/utils.cc:28-49 | The least number of bits that tell v values apart: no fewer are enough, and no other number is a width |
| SimpleTypes.RangeRoundTrip | rumur/resources/header.c:1712-1810 | Exactly the values in range are stored, in the width of their type, none of them as undefined, and what is read back is what was written |
| SimpleTypes.ValueType | rumur/src/ValueType.cc:157-177 | The first type, in order, that holds all numbers of the model; none if and only if no type does |
| SimpleTypes.RawType | rumur/src/ValueType.cc:132-152 | The first unsigned type for those numbers counted from 1; none if and only if they are too many for 64 bits |
| SimpleTypes.ValuesCounted | librumur/src/TypeExpr.cc:231-332 | A range, enum or scalarset has room for exactly the values between its bounds, except an enum without members |
| SimpleTypes.BoundsFinder.VisitAll | rumur/src/ValueType.cc:19-109 | The least and greatest numbers found are exactly those of the simple types visited: each is 0 or is reached by one of them, and none goes beyond |
| SimpleTypes.Choose | rumur/src/ValueType.cc:154-185 | There is a value type if and only if some type holds all numbers of the model, and a raw type if and only if 64 bits can count them; and then no step of encoding or decoding any value in range of any simple type overflows |
| SimpleTypes.ScheduleFits | rumur/resources/header.c:1259-1273 | The number of a schedule is never truncated in the bits kept for it |
| SimpleTypes.BeforeStrict | rumur/src/optimise-field-ordering.cc:20-42 | The comparison for sorting fields is asymmetric except, exactly, between two fields that take no space, each of which it puts before the other; it is transitive, and so is being level under it, for all fields |
| Action.ActCompose | rumur/src/symmetry-reduction.cc:60-225 | Rearranging a scalarset twice is rearranging it once by the composition |
| Action.ActCommute | rumur/src/symmetry-reduction.cc:60-225 | Rearrangements of different scalarsets do not interfere, however their arrays nest |
| Action.ActInverse | rumur/src/symmetry-reduction.cc:60-225 | Every rearrangement can be undone |
| Rearranging.ActLeaf | rumur/src/symmetry-reduction.cc:60-225 | Rearranging by a permutation, leaf by leaf: a leaf gets what was at the leaf that the permutation puts in its place, except that a component which named an element names it where it is now |
| Rearranging.ArgLikeComponent | rumur/src/generate-model.cc:1428-1460 | A rule's parameter that is an element of the scalarset is mapped as a component that names it; other parameters stay |
| Swapping.ApplySwap | rumur/src/symmetry-reduction.cc:60-119 | Exchanging two components number by number exchanges exactly their bits |
| Swapping.SwapChunk | rumur/src/symmetry-reduction.cc:121-225 | The in-place swap is the action of the transposition: array elements change places, components that named one element name the other, undefined stays undefined, no other bit changes |
| Orbits.OrbitTransitive | rumur/src/symmetry-reduction.cc:251-384 | Being rearrangements of one another is transitive |
| Orbits.OrbitSymmetric | rumur/src/symmetry-reduction.cc:251-384 | And symmetric |
| Orbits.StoredAct | rumur/src/symmetry-reduction.cc:293-318 | Rearranging what is stored, and its schedule alike, leaves what it stands for |
| Comparing.CompareIsLex | rumur/src/symmetry-reduction.cc:398-617 | The comparison of two elements is that of keys read off the state, so that for any one state it is a total preorder |
| Comparing.KeyAct | rumur/src/symmetry-reduction.cc:398-617 | A rearrangement of the scalarset moves the keys with the elements |
| Comparing.CompareAt | rumur/src/symmetry-reduction.cc:480-617 | The generated comparison, which stops at the first difference, computes that comparison on the packed state |
| Comparing.CompareElementsAt | rumur/src/symmetry-reduction.cc:398-478 | As does the comparison of two array elements, which leaves out what the scalarset itself orders |
| Decisions.EqualElements | rumur/src/symmetry-reduction.cc:398-478 | Two array elements compare equal if and only if they have the same numbers at all leaves that are neither of the scalarset nor in arrays it indexes |
| Decisions.FirstDecides | rumur/src/symmetry-reduction.cc:398-478 | Otherwise the first such leaf at which they differ decides: the lesser number comes first |
| Decisions.EqualCompared | rumur/src/symmetry-reduction.cc:480-617 | Two elements of a scalarset compare equal if and only if no component names either of them, and in no array they index what they have differs |
| Decisions.SiteDecides | rumur/src/symmetry-reduction.cc:480-617 | Otherwise the first place that tells them apart decides: a component puts the element it names first, an array goes by the first difference of what it has at the two |
| Decisions.Interchange | rumur/src/symmetry-reduction.cc:398-617 | Where exchanging two elements changes nothing they compare equal; and if they compare equal, exchanging them changes nothing, where no array that the scalarset indexes refers to it again |
| Sorting.Partition | rumur/src/symmetry-reduction.cc:630-666 | Hoare partition with a pivot that moves: both scans stay in bounds, and nothing up to the split is above anything after it |
| Sorting.Sort | rumur/src/symmetry-reduction.cc:619-672 | Terminates, stays in bounds, leaves the keys sorted, and rearranges state and schedule by the same permutation |
| Sorting.SortedMeansCompared | rumur/src/symmetry-reduction.cc:619-672 | Then no element compares above a later one |
| Heuristic.Canonicalise | rumur/src/symmetry-reduction.cc:674-727 | The result is in the orbit of the state given, stands for the same state, and comes of sorting each scalarset once, in order, in the state that sorting those before it left |
| Exhaustive.Loop | rumur/src/symmetry-reduction.cc:251-360 | The nested search, whose inner loops start from wherever the candidate is, finds the least of the candidate's orbit and what was best before |
| Exhaustive.LeastOverall | rumur/src/symmetry-reduction.cc:340-360 | Covering all numbers of a scalarset's permutations covers the orbit |
| Exhaustive.Canonicalise | rumur/src/symmetry-reduction.cc:362-384 | The result is the byte-wise least state of the orbit and stands for the same state |
| Exhaustive.CanonicalUnique | rumur/src/symmetry-reduction.cc:362-384 | Two states become identical if and only if they are in one orbit |
| Exhaustive.MemcmpOrder | rumur/resources/header.c:1530-1538 | Comparing states byte by byte is a total order in which only identical states are equal |
| Exhaustive.FirstByte | rumur/resources/header.c:1530-1533 | And the first byte in which two states differ decides, by which number it holds is the lesser |
| StateData.StandsAfter | rumur/src/symmetry-reduction.cc:293-318 | Recording the permuted schedule by its number keeps what the state stands for |
| Traces.PrintedStep | rumur/src/generate-model.cc:1428-1460 | With rules that do not tell scalarset elements apart, the printed rule with its printed parameters, mapped through the schedule of the previous state, leads from one printed state to the next |
| Traces.TraceIsRun | rumur/src/generate-model.cc:1320-1520 | A stored trace, each state undone by its own schedule, is a run of the model |
| Traces.StoredUnstored | rumur/src/symmetry-reduction.cc:698-723 | Undoing the schedules recovers exactly the state that is stood for |
| Exploration.StepInv | rumur/src/generate-model.cc:935-1123 | Every step of every thread keeps: each seen state is reachable and satisfies the invariants; an error was counted only if something is wrong with the model; and, without errors, each seen state is settled, queued or in some thread's hands |
| Exploration.StepCounts | rumur/src/generate-model.cc:1007-1116 | A step counts an error, and just one, if and only if the state it generates violates the invariants or the one whose rules it has gone through is a deadlock |
| Exploration.PassedAfter | rumur/resources/header.c:2833-2955 | A queue that its owner has found empty stays empty |
| Exploration.LaunchInv | rumur/src/generate-model.cc:1078-1084 | As does starting the secondary threads |
| Exploration.InitialInv | rumur/src/generate-model.cc:839-933 | And storing the start states in the queues in turn establishes it |
| Exploration.RunInv | rumur/src/generate-model.cc:839-1123 | For any number of threads and any interleaving |
| Exploration.SearchComplete | rumur/src/generate-model.cc:935-1123 | When all started threads have exited without errors, all queues are empty, the seen states are exactly the reachable ones, all satisfy the invariants and none is a deadlock |
| Exploration.Verdict | rumur/src/generate-model.cc:935-1123 | An error is never a false alarm, and when all started threads have exited none was counted if and only if every reachable state satisfies the invariants and none is a deadlock |
| SearchEnds.RunEnds | rumur/src/generate-model.cc:935-1123 | Where finitely many states can be reached, the search makes a bounded number of steps under every schedule |
| SearchEnds.StuckIsVerdict | rumur/src/generate-model.cc:935-1123 | And when no thread can go on any more, its verdict is right |
| Reachability.ClosedHasAll | rumur/src/generate-model.cc:935-1123 | A set that has the start states and all its successors has every reachable state |
| Reachability.DeadlockMeans | rumur/src/generate-model.cc:1000-1116 | A deadlock is a state in which no rule is enabled, or, as asked for, from which none leads away |
| SymmetricSearch.OrbitSimulates | rumur/src/symmetry-reduction.cc:251-384 | States of one orbit have corresponding transitions |
| SymmetricSearch.OrbitsComplete | rumur/src/generate-model.cc:935-1123 | A finished search of canonical states has one from the orbit of every state the model can reach |
| SymmetricSearch.OrbitsGenuine | rumur/src/generate-model.cc:935-1123 | And none from any other orbit |
| Reduction.ReducedExplores | rumur/src/generate-model.cc:956-1060 | Passing every state generated through a choice within its orbit, which both canonicalisations are, gives a system to which the two results above apply |
| Reduction.OnePerOrbit | rumur/src/generate-model.cc:839-1123 | A finished search with exhaustive canonicalisation has seen exactly one state of each orbit that the model can reach, and nothing else |
| BoundedSearch.Search.Init | rumur/src/generate-model.cc:839-933 | The start states that satisfy the invariants are stored once each, at depth 0; an error is counted if and only if one does not |
| BoundedSearch.Search.Expand | rumur/src/generate-model.cc:956-1116 | Trying all rules on a state settles it, gives each new state its true distance, and counts an error if and only if the state is a deadlock or a successor violates the invariants |
| BoundedSearch.Search.Explore | rumur/src/generate-model.cc:935-1123 | The search of one thread terminates with nothing left to explore, and has counted no error if and only if nothing is wrong within the bound: with the start states, with a state it expands, or with a successor of one |
| BoundedSearch.SeenExactly | rumur/resources/header.c:1542-1564 | With a bound the seen states are exactly those within that many steps, without one exactly the reachable ones |
| BoundedSearch.ChainIsShortest | rumur/resources/header.c:1571-1585 | The back pointers of any seen state make a path from a start state, and no path is shorter |
| Liveness.Mark | rumur/resources/header.c:3676-3715 | Marks a state and all those on the way back from it, and no other; stopping at a marked one misses none |
| SharedMarks.RunClosed | rumur/resources/header.c:3690-3715 | When several threads mark at once: once none is marking, whatever was begun is set, every bit is set all the way back, and none without reason |
| Liveness.Check | rumur/resources/header.c:3672-3715 | Marking what a new state satisfies keeps the marks closed under back pointers, and justified |
| Liveness.Learn | rumur/resources/header.c:3749-3778 | After learning from a successor the state has every mark it has; marks only ever grow |
| Liveness.Scan | rumur/src/generate-model.cc:579-729 | A scan that makes no progress has left nothing to learn along any edge |
| Liveness.CheckFinal | rumur/src/generate-model.cc:538-731 | Terminates, and then a state is marked for a property if and only if a state that satisfies it can be reached from it |
| Liveness.Summarise | rumur/src/generate-model.cc:733-838 | A property is reported missed if and only if some seen state cannot reach it |
| RuleNumbers.AllRules | rumur/src/generate-model.cc:978-1098 | Counting through all rules and parameters gives each firing its number |
| RuleNumbers.NumberInjective | rumur/src/generate-model.cc:1508-1513 | Different firings have different numbers, from 1 to the total |
| RuleNumbers.NumberSurjective | rumur/src/generate-model.cc:1508-1513 | And every number up to the total is that of a firing |
| RuleNumbers.ParametersRecovered | rumur/src/generate-model.cc:1352-1366 | Dividing by the counts of later parameters recovers each parameter |
| RuleNumbers.Greatest | rumur/src/output.cc:98-127 | Multiplying out quantifiers and adding up rules gives the greatest number |
| RuleNumbers.NumberFits | rumur/src/output.cc:129-153 | No number is truncated in the bits kept for it, for start states and rules alike |

## Left out

- What happens once the list of deferred releases has outgrown its room: the model goes on with a longer list, in the order the releases were put off, where the runtime goes by places filled as they fall free.
- Weak memory ordering, the choice between double-word instructions, endianness swaps and the approximate queue lengths used for progress output.
- Overflow of `size_t` counters and offsets, and of the bits of a state when it is packed together with its other fields.
- SetRefinement.StepSim: does not say that an insertion is ever answered. Looking for a slot and the walk of a displaced state are bounded (SetProbing.LookingEnds, SetShuffle.ShuffleEnds), but how often an insertion may have to help expand the table depends on the others and on a fair schedule, which is not modelled.
- Reduction.OnePerOrbit: takes the rules as they act on packed states before canonicalisation as given, like the relation in Traces.TraceIsRun.
- SetTable.Rehash: is about a table that no other thread uses; what holds while migrators interleave is stated by SetSafety.ExchangeOk, SetSafety.CarryMigration and SetShuffle.ShuffleEnds.
- SetTable.MigrateChunk: likewise; the interleaved form is SetSafety.TakeChunks and SetSafety.MigrationConserves.
- SetTable.RoomToMigrate: says nothing of how long a walk takes; SetShuffle.ShuffleEnds does.
- Sorting.Sort: says that keys are sorted, not that orbit-mates become identical. The heuristic canonicalisation does not make them so.
- Heuristic.Canonicalise: says that each scalarset was sorted in its turn, not that all of them are sorted in the end, because sorting a later scalarset may disturb an earlier one.
- Traces.TraceIsRun: takes the model's rules as a relation that does not tell scalarset elements apart; that generated rules are such a relation is a property of the input language that is not part of this model.
- Exploration.SearchComplete: covers runs in which no error was reported, and Exploration.Verdict says when that is; what the checker does after an error, including the recovery by long jumps, is not part of this model.
- BoundedSearch.Search.Explore: goes on after an error, as the checker does while it has reported fewer than it was asked for; Exploration has the limit.
- BoundedSearch.SeenExactly: is about one thread. With several, a state may first be seen along a path that is not shortest, so that a bound cuts off more.
- Liveness.Mark: is the single-threaded form of marking; SharedMarks has the form in which threads mark at once, on values rather than in place.
- RawAccess.ReadRaw: widths above 64 bits, which the runtime asserts not to occur.
- The loops over quantifier ranges with computed bounds and steps, unions and `ismember`, the walk over a model's syntax tree that meets its types and numbers, the hash function itself, the state allocator.
- Parsing, validation, printing, argument handling, sandboxing, the solver interface and the other tools of the repository: text handling without a strong contract.
