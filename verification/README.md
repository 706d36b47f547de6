# A verified model of the Aerospike PHP client's shared state and value algebra

The extension is a thin PHP wrapper around the `aerospike` crate, except for four parts of
`src/lib.rs` that carry state, concurrency or algebra of their own. This project models those
four parts and proves what they are relied on for.

**Streaming and pagination** (`Streaming`, `StreamProgress`, `Pagination`, `Polling`,
`RecordsetObject`). A scan is a step system: reader tasks, a driver, a drain task and the PHP object share a bounded queue, a flag, a
reference count and a partition tracker. Every atomic step of every participant is an action, so
a statement about all runs is a statement about all interleavings. `Pagination` runs any number
of scans over one partition filter. `RecordsetObject` holds the methods of the PHP class,
statement by statement, on objects that stay at reachable states of the step system.

**The client cache** (`CacheSpec`, `CacheObjects`, `CacheProtocol`, `CacheLocks`,
`CacheContents`, `CacheEffects`, `CacheInvariant`, `CacheTheorems`, `CacheCap`, `CacheHistory`,
`CacheDeadlock`, `CacheLiveness`, `CacheWitness`, `CacheShutdown`). Threads of `connect()` and `close()` are
program counters over the cache map, the guard table, three mutexes and one lock per key; PHP
objects come and go, evicted clients wait to be closed, and the process may fork. An eviction
reads one strong count and removes one entry per step, while other threads copy and drop the
handles that are counted; releasing a guard likewise reads its count in one step and removes it
in another. `CacheObjects` and `CacheShutdown` are the imperative parts (the eviction loop, the
guard table, the shutdown loop), proved against the definitions in `CacheSpec` that the protocol
uses.

**The runtime slot** (`RuntimeSlot`, `RuntimeObject`). The double-checked (pointer, pid) pair,
under any race of threads along a line of forked processes.

**Values and keys** (`PhpValues`, `PhpKeys`, `XorFolds`, `NumericKeys`, `ZvalConversion`,
`ZvalLoops`, `ZvalReadings`, `ZvalOrders`, `AeroValues`, `AeroTrips`, `AeroEntries`,
`AeroSettling`, `AeroWitness`, `Sorting`, `Hosts`, `Fingerprint`). `PHPValue` with its equality and order-independent hash, numeric string keys, the
conversions to and from PHP values and to and from server values, seed lists, cache keys, and the
bytes behind a policy fingerprint. `Counting` holds what several modules need of sequences.

Three kinds of assumption come from outside the file. What the crate's readers do is taken from
the comments in `src/lib.rs`: they hold a reference until they return, push under the tracker
lock, take up no record once `max_records` are delivered, and never look at the `active` flag; a
partition is streamed by at most one live reader, which starts where the tracker stands, and none
is spawned while the tracker lock is taken; the queue has room for at least one item wherever
progress is concerned. Atomics are sequentially consistent and pids are not reused along a line
of processes. Hash map iteration orders, hash functions, the text of `as_string`, the widening of
32-bit floats and the order of server keys are arbitrary.

## What is false of the code, and exactly when it holds

* `close()` treats an error returned by the crate like success: it removes the cache entry
  although the client is still open (`src/lib.rs:8579-8580` tests `closed.is_ok()` of the outer
  result, while the comment above speaks of the error path keeping the entry). An entry closed
  after eviction is dropped whatever the attempt ends in. So a client of a quiescent process is
  within shutdown's reach if and only if no close attempt returned and none followed an eviction
  (`CacheTheorems.ShutdownReachesExactly`; `CacheWitness.RefusedCloseLosesTheClient` is a run
  that loses an open client).
* After such a refused close the old PHP object still holds an open client, and the next
  `connect()` builds another of the same key (`CacheWitness.TwoOpenClientsOfOneKey`). A client is
  built beside an open one of its key if and only if a PHP object holds one whose close was
  refused (`CacheTheorems.SecondClientExactly`); in every state all but one of the open ones are
  of that kind (`CacheTheorems.OneClientPerKey`).
* When a new client is stored, the cache need not be within the cap with every other entry in
  use: an entry is passed over if it was in use when its count was read, and its last handle may
  be dropped right after (`CacheWitness.CapExceededByAnIdleEntry`). It is so if and only if the
  cache is within the cap or the sweep saw no last handle of a remaining entry dropped
  (`CacheCap.CapOrAllHeldExactly`). Beyond the cap every other entry was in use when this sweep
  looked at it (`CacheCap.CapOrAllSeenInUse`).
* A fork while another thread is inside one of the three mutexes leaves it locked for ever in the
  child: inherited guards are forgotten, inherited mutexes are not
  (`CacheWitness.ConnectNeverReturns`, `CacheDeadlock.LostMutexBlocksForGood`). After a fork all
  calls of the child can be finished, at every moment of every schedule, if and only if no thread
  was inside a mutex (`CacheLiveness.ForkIsSafeExactly`). The child's shutdown hook returns if and
  only if no thread was inside the cache mutex (`CacheLiveness.ShutdownReturnsExactly`).
* One trip server, PHP, server need not reach a fixed point: an ordered map keyed by 0.0 as
  float32 and as float64 and one keyed by -0.0 are told apart by PHP before the trip and not
  after it (`AeroWitness.OneTripMayNotSettle`). One trip settles every value in whose hash maps
  the keys that PHP tells apart become one server key or stay apart
  (`AeroSettling.SettledNeedsOneTrip`), so in particular whenever PHP finds each hash-map key again
  (`AeroSettling.ReturningKeysNeedOneTrip`). For values whose first trip loses no entry that
  condition is also necessary (`AeroSettling.SettlesExactly`), and for others it is not
  (`AeroWitness.LosingMaySettle`).
* Writing out the default port is neutral if and only if the host does not already end in a colon
  and digits; the bare address "::1" is read as host ":" on port 1 (`Hosts.BareAddressHasAPort`),
  against the comment at `src/lib.rs:8368-8369`.

The bytes hashed for a policy determine every hashed field for all policies that PHP can set up
(`Fingerprint.FingerprintsAreExact`). The policy type of the crate also has rack ids, which no
code in `src/lib.rs` sets: with them, one policy that has rack ids and no translation map could
be hashed like another that has a map, because nothing marks which of the two follows
(`Fingerprint.CrossedPoliciesCollide`).

## Model

| member | source | states |
|---|---|---|
| `Streaming.StepKeeps` | src/lib.rs:3425-3436 | every step of readers, driver, drain task and PHP object keeps the inductive invariant (disjoint partitions, one tracker lock, per-partition ledger, end-of-stream facts) |
| `Streaming.RunKeeps` | src/lib.rs:3425-3436 | the invariant holds after any run |
| `Streaming.Conservation` | src/lib.rs:3550-3584 | in every reachable state what was delivered is what was consumed, discarded by the drain task, or queued; for an attached object consumed ++ queue == delivered |
| `Streaming.CountTestIsExact` | src/lib.rs:3427-3436 | for the object and for the drain task alike, a reference count of one means exactly that no reader and no driver is left |
| `Streaming.NoTaskPanics` | src/lib.rs:3561-3572 | no task ever meets the taken filter, and the filter is never taken while a task lives |
| `Streaming.OutcomeIsTheEffect` | src/lib.rs:3550-3584 | what a step shows the caller is what it does: an item iff one leaves the queue, an exception iff a call ends at the sync point unsynced, null iff it ends there synced or the object is detached |
| `Streaming.ExtractionNeverBlocks` | src/lib.rs:3588-3612 | when `next()` reads the cursor the tracker lock is free and the crate still has the filter to give |
| `Streaming.EndedStays` | src/lib.rs:3568-3572 | once all tasks are gone nothing more is delivered and the tracker stands still, in every continuation |
| `Streaming.NullMeansEverythingReceived` | src/lib.rs:3550-3584 | `next()` answers null on an attached object only when no task is left and everything ever delivered, now or later, was received |
| `Streaming.WriteIsExact` | src/lib.rs:3595-3615 | the cursor written back is exactly the consumed position of every partition |
| `Streaming.AskedAtMostOnce` | src/lib.rs:3588-3612 | from any reachable page on, the filter is asked for at most once, whether the crate still has it or not, and only after the stream has ended: `pf_synced` stops every second attempt |
| `Streaming.DetachedForever` | src/lib.rs:3503-3508 | a detached object consumes nothing more, never extracts the cursor and never writes the filter |
| `Streaming.CloseEndsUnbounded` | src/lib.rs:3521-3529 | `close()` on an unbounded stream with a task still running detaches, and the filter is never changed by this object again |
| `Streaming.CloseKeepsBounded` | src/lib.rs:3509-3515 | `close()` on a bounded stream, or on one whose tasks are gone, keeps the object attached so that it can be drained |
| `Streaming.LastPollCanFindARecord` | src/lib.rs:3568-3572 | a reachable state in which the poll after the count test finds a record, so that poll is needed |
| `StreamProgress.SomeoneWindsDown` | src/lib.rs:3438-3446 | while tasks are left and the drain task lives or `next()` polls, some task or the popping side can take a step that lowers what is left to wind down |
| `StreamProgress.DrainLetsTasksEnd` | src/lib.rs:3454-3477 | with the drain task on duty all tasks of a detached stream can come to their end, in steps of their own and pops of the drain task |
| `StreamProgress.ParkedIsFreedExactly` | src/lib.rs:3438-3453 | a reader that waits on the full queue with the tracker lock gets free in some continuation iff a drain task or the object is there to pop |
| `Pagination.WrittenIsCovered` | src/lib.rs:8788-8814 | the cursor a page is about to write counts only records that this or an earlier page returned |
| `Pagination.WorldStepKeeps` | src/lib.rs:8788-8814 | every action on any page keeps the filter's cursor covered by returned records |
| `Pagination.NothingBeforeTheCursorIsSkipped` | src/lib.rs:3595-3615 | over every run of scans on one filter, drained, closed early, dropped or overlapping, every record before the cursor was returned by some page |
| `Pagination.PagesReturnEachRecordOnce` | src/lib.rs:8788-8814 | pages drained one after another return each record exactly once, in order, up to the cursor, without a gap in the middle of a page either |
| `RecordsetObject.Recordset.Scan` | src/lib.rs:8788-8814 | a new recordset starts at the filter's cursor, attached and not yet synced |
| `Polling.QueuedIsReturned` | src/lib.rs:3558-3560 | an item that is queued when a round looks is returned at once, and only the queue changes |
| `Polling.GoneIsDecided` | src/lib.rs:3568-3572 | once all tasks are gone the next round decides: the first queued item or the end, whatever the schedule |
| `Polling.EndIsTheEnd` | src/lib.rs:3561-3572 | the loop finds the end only when no task is left, nothing is queued and the stream is closed |
| `RecordsetObject.Recordset.Next` | src/lib.rs:3550-3584 | under any interleaving the call answers what the rounds find: the next item in the order of delivery; null with the exact cursor written once, or on a detached object; an exception iff one of its two runtime calls fails; still polling iff no round found anything, and never once all tasks are gone |
| `RecordsetObject.Recordset.PollRound` | src/lib.rs:3556-3575 | one round under any interleaving: the first queued item, the end, or neither, exactly when the stream says so; without an answer it ended at the flag or at the count |
| `RecordsetObject.Recordset.RecordsetReadersFinished` | src/lib.rs:3434-3436 | the count test answers yes exactly when all readers and the driver are gone |
| `RecordsetObject.Recordset.SyncPartitionFilterBack` | src/lib.rs:3595-3615 | the filter gets the consumed position once; a failure leaves filter and flag as they were |
| `RecordsetObject.Recordset.Close` | src/lib.rs:3521-3529 | the stream is closed, and the object stays attached iff it was and the stream is bounded or ended; otherwise the drain task takes over |
| `RecordsetObject.Recordset.Detach` | src/lib.rs:3524-3528 | the object's reference moves to the drain task, nothing else changes |
| `RecordsetObject.Recordset.Drop` | src/lib.rs:3490-3494 | dropping closes the stream, hands it to the drain task and does not touch the filter |
| `CacheObjects.SortByLastUse` | src/lib.rs:275 | the candidates come out as a permutation in order of last use |
| `CacheObjects.ClientCache.ClientsLock` | src/lib.rs:198-206 | the cache is this process's own afterwards: kept as it is if it was, empty if it was inherited |
| `CacheObjects.ClientCache.CollectIdle` | src/lib.rs:270-274 | exactly the entries with strong count 1 become candidates, each once |
| `CacheObjects.ClientCache.EvictIdleClients` | src/lib.rs:264-286 | relative to the counts read: result and remaining map partition the input; only idle entries leave, in LRU order, none while below the cap, and it stops below the cap or when no idle entry is left |
| `CacheObjects.ClientCache.RemoveInOrder` | src/lib.rs:276-284 | the removal loop takes the first candidates until the size is below the cap |
| `CacheObjects.ClientCache.Lookup` | src/lib.rs:8494-8498 | a hit returns the cached client and refreshes only its last use; no key comes or goes |
| `CacheObjects.ClientCache.RemoveIfSame` | src/lib.rs:8586-8590 | a key stays iff it is not this key holding this client; what stays is unchanged |
| `CacheObjects.ConnectGuards.ConnectGuard` | src/lib.rs:228-234 | callers for one key get the stored guard, a key without one gets a guard never used before, the others keep theirs, and inherited guards are forgotten |
| `CacheObjects.ConnectGuards.ReleaseConnectGuard` | src/lib.rs:241-248 | the key stays iff it was there and is not this key with a strong count of one; the other guards are unchanged |
| `CacheLocks.StepKeepsLocks` | src/lib.rs:8490-8536 | every step keeps the owners of the three mutexes in line with the program counters |
| `CacheLocks.StepKeepsGuards` | src/lib.rs:228-248 | every step keeps the guard table: each clone is the stored guard, each stored guard is in use |
| `CacheContents.CountOfOneMeansAlone` | src/lib.rs:261-274 | a strong count of one, read under the cache lock, means that no PHP object, no connecting thread, no to-be-closed list and no other entry keeps the client |
| `CacheTheorems.SeenIdleStaysIdle` | src/lib.rs:270-284 | a key seen with a strong count of one keeps its entry, its client and the count of one until the removal loop reaches it, whatever other threads do to their handles |
| `CacheTheorems.SweepIsEviction` | src/lib.rs:264-286 | the sweep of single reads and removals ends as the specified eviction: the least recently used of the keys seen idle, in order, as many as the cap asks for, exactly their entries gone and their clients kept for closing |
| `CacheHistory.LastUsedIsLastConnect` | src/lib.rs:8494-8498 | over every run: the time kept with a cached key is that of the last step in which a `connect()` found the key cached or stored a client under it |
| `CacheHistory.EvictsLongestAgo` | src/lib.rs:264-286 | over every run: eviction takes no key that was connected to later than an idle key it leaves |
| `CacheHistory.RecentOutlivesIdle` | src/lib.rs:264-286 | in the order of the run: a key connected to after time has passed is not evicted while an idle key stays that was last connected to before |
| `CacheCap.CapOrAllSeenInUse` | src/lib.rs:8522-8531 | over every run: when the new client is stored the cache is within the cap, or every other entry was in use when this sweep looked at it |
| `CacheCap.CapOrAllHeldExactly` | src/lib.rs:8522-8531 | over every run: when the new client is stored the cache is within the cap or every other entry is held by a PHP object, iff it is within the cap or the sweep saw the last handle of no other remaining entry dropped |
| `CacheCap.CapOrAllHeld` | src/lib.rs:8522-8531 | so in particular when no handle at all was dropped during the sweep |
| `CacheInvariant.StepKeeps` | src/lib.rs:8467-8537 | every step, fork included, keeps the invariant of the whole protocol: locks, guard table, cache contents and the sweep in progress |
| `CacheInvariant.RunKeeps` | src/lib.rs:8467-8598 | the invariant holds after any run |
| `CacheTheorems.ConnectHandsOutLiveClients` | src/lib.rs:8490-8532 | `connect()` hands out an open client of its own key and process, none of whose close attempts has returned |
| `CacheTheorems.HandedOutExactly` | src/lib.rs:8494-8537 | a step of a call changes the PHP objects exactly by the one it hands out: the cached client on a hit, the new client once it is stored |
| `CacheHistory.ConnectHandsOutItsKey` | src/lib.rs:8467-8537 | over every run: what `connect()` hands out is an open client of the key that this very call asked for |
| `CacheHistory.ClientsRememberAttempts` | src/lib.rs:292-320 | over every run: a client is open until an attempt to close it succeeds; an attempt returned iff one succeeded or was refused; it was disposed of iff an attempt followed its eviction |
| `CacheTheorems.OneClientPerKey` | src/lib.rs:8491-8532 | of two clients of one key and process that are cached, being inserted or held by PHP, one had a close attempt that returned: attempts that panicked do not make room for a second client |
| `CacheTheorems.SecondClientExactly` | src/lib.rs:8512-8531 | a client is built beside an open one of its key and process iff a PHP object holds one whose close was refused |
| `CacheWitness.TwoOpenClientsOfOneKey` | src/lib.rs:8574-8598 | a reachable state with two open clients of one key and process |
| `CacheTheorems.InsertFindsKeyVacant` | src/lib.rs:8522-8531 | the storing connect finds its key vacant, so `or_insert` stores its own client and changes no other entry |
| `CacheTheorems.HeldIsNeverEvicted` | src/lib.rs:264-286 | whatever step any thread takes, an entry whose client a live PHP object references stays, unless `close()` on that client removes it |
| `CacheTheorems.CopyKeepsClient` | src/lib.rs:3396-3402 | the copy a recordset keeps holds the client when the client object is gone |
| `CacheWitness.CapExceededByAnIdleEntry` | src/lib.rs:264-286 | a run that stores a client beyond the cap beside an entry that is idle by then |
| `CacheTheorems.EvictedStaysUnheld` | src/lib.rs:288-303 | an evicted client gains no holder before it is closed, and the runtime to close it is there |
| `CacheTheorems.CloseRemovesOnlyItsClient` | src/lib.rs:8580-8591 | a second `close()` on an old object never removes a newer client's entry |
| `CacheTheorems.NoClientIsOrphaned` | src/lib.rs:8490-8537 | until an attempt to close it, every client is cached, being inserted, or on a to-be-closed list |
| `CacheTheorems.ShutdownReachesExactly` | src/lib.rs:336-338 | in a quiescent state the cache holds exactly the clients for which no close attempt returned and none followed an eviction |
| `CacheTheorems.NothingInheritedIsCached` | src/lib.rs:198-206 | no client cached in a process was built by another |
| `CacheTheorems.SectionsExclude` | src/lib.rs:8490-8493 | two threads are never inside the critical section of one key together |
| `CacheTheorems.GuardTableIsExact` | src/lib.rs:236-248 | every outstanding clone is the stored guard, and the table is empty when no call is in progress |
| `CacheTheorems.RemovedGuardIsUnclaimed` | src/lib.rs:241-248 | between reading a guard's count and removing it no thread can clone it |
| `CacheDeadlock.SomeThreadCanMove` | src/lib.rs:8490-8536 | no deadlock: while a call is unfinished and no mutex was lost to a fork, some thread can step |
| `CacheLiveness.StepsRunOut` | src/lib.rs:8467-8598 | every step of any call lowers a well-founded measure, whatever the environment decides, so no schedule of the calls in progress goes on for ever |
| `CacheLiveness.AllCallsFinish` | src/lib.rs:8467-8598 | while no mutex is lost, all calls in progress can be brought to their end by their own steps |
| `CacheDeadlock.OneMutexAtATime` | src/lib.rs:128-157 | no thread asks for one of the three mutexes while it holds one |
| `CacheDeadlock.MutexLostOnlyByFork` | src/lib.rs:198-206 | a mutex is lost exactly by a fork at which some mutex is taken |
| `CacheDeadlock.LostMutexBlocksForGood` | src/lib.rs:198-206 | a thread that waits for a lost mutex, whichever of the three, stays where it is in every continuation |
| `CacheDeadlock.LostForGood` | src/lib.rs:198-206 | and a lost mutex is lost in every continuation |
| `CacheLiveness.ForkIsSafeExactly` | src/lib.rs:198-206 | after a fork all calls of the child can be finished at every moment of every schedule iff no thread was inside a mutex |
| `CacheLiveness.ShutdownReturnsExactly` | src/lib.rs:336-338 | after a fork the child's shutdown hook, whenever it is called, gets past the cache mutex in some continuation iff no thread was inside that mutex; other lost mutexes do not matter |
| `CacheLiveness.QuiescentHookReturnsExactly` | src/lib.rs:336-338 | once all calls are over the hook returns iff the cache mutex is free |
| `CacheWitness.ConnectNeverReturns` | src/lib.rs:198-206 | a reachable state after such a fork in which a `connect()` of the child ends in no continuation |
| `CacheWitness.RefusedCloseLosesTheClient` | src/lib.rs:8574-8598 | a reachable quiescent state with an open client that the cache no longer holds, after a close that returned an error |
| `CacheShutdown.Registry.CloseClientEntries` | src/lib.rs:292-320 | without a runtime nothing is closed; otherwise every entry gets one close attempt whatever the others end in, and no other client is touched |
| `CacheShutdown.Registry.Shutdown` | src/lib.rs:336-346 | shutdown empties the cache and attempts to close exactly the clients of this process that were in it |
| `CacheShutdown.QuiescentIsReady` | src/lib.rs:293-298 | no client is cached twice, and a process that has cached a client has its own runtime, so the early return of `close_client_entries` leaves nothing open |
| `CacheShutdown.Registry.ShutdownQuiescent` | src/lib.rs:336-346 | in every quiescent reachable state in which the hook returns: afterwards a client is open iff it was and it is a parent's, or a close attempt on it returned or followed an eviction, or this last attempt failed |
| `RuntimeSlot.StepKeeps` | src/lib.rs:119-157 | every step of any thread, fork and shutdown keep the slot's invariant |
| `RuntimeSlot.MatchingPidMeansLiveRuntime` | src/lib.rs:119-127 | a stored pid equal to the current one means the pointer is this process's unfreed runtime |
| `RuntimeSlot.ReturnsOwnLiveRuntime` | src/lib.rs:119-157 | a call never dereferences null and returns the unfreed runtime of the current process, under any race |
| `RuntimeSlot.OutcomeEndsTheCall` | src/lib.rs:119-157 | a call ends exactly by an answer: the pointer that is in the slot then, or an error when building failed |
| `RuntimeSlot.OneRuntimePerProcess` | src/lib.rs:128-132 | every process builds at most one runtime |
| `RuntimeSlot.FreedOnceByItsBuilder` | src/lib.rs:354-367 | shutdown frees this process's runtime once and leaves inherited ones alone |
| `RuntimeSlot.CallsAgree` | src/lib.rs:119-157 | calls of one process that return, now and later, return the same runtime |
| `RuntimeObject.Slot.TokioRt` | src/lib.rs:119-157 | result and slot after a call, for every interleaving with other threads; the fast path neither blocks nor fails |
| `RuntimeObject.Slot.TakeTokioRt` | src/lib.rs:354-367 | the runtime handed over is this process's own, freed this once |
| `PhpValues.EqEuclidean` | src/lib.rs:9781-9831 | equality of nested values is Euclidean, hash maps compared without regard to order |
| `PhpValues.EqSymmetric` | src/lib.rs:9781-9831 | equality is symmetric, as the derived `Eq` promises |
| `PhpValues.EqTransitive` | src/lib.rs:9781-9831 | equality is transitive |
| `PhpValues.EqImpliesSameHash` | src/lib.rs:9833-9879 | equal values feed the hasher the same tokens, whatever order the maps at any depth are enumerated in |
| `PhpValues.FoldEntries` | src/lib.rs:9850-9860 | the accumulator loop computes the word that the hash of a map mixes in |
| `PhpKeys.FoldFields` | src/lib.rs:9861-9871 | the same for the loop over JSON fields |
| `PhpKeys.FloatsAreEqualExactly` | src/lib.rs:9800 | floats are equal iff both are NaN, both are zero or they have the same bits |
| `PhpKeys.HashMapsAreEqualExactly` | src/lib.rs:9781-9831 | hash maps are equal iff their entries match one to one in some order |
| `PhpKeys.JsonIsEqualExactly` | src/lib.rs:9781-9831 | the same for JSON objects |
| `PhpKeys.HashIsExactWithoutMaps` | src/lib.rs:9833-9879 | without hash maps inside, two values feed the hasher the same tokens iff they are equal: the stream can be read back at every depth |
| `XorFolds.XorPermuted` | src/lib.rs:9847-9860 | the XOR fold gives the same word for every enumeration order |
| `XorFolds.XorIsParity` | src/lib.rs:9847-9860 | a bit of the folded word is set iff an odd number of the words have it set |
| `NumericKeys.NumericKeyInvertsPrinting` | src/lib.rs:9920-9930 | `php_numeric_string_key` answers i for the decimal rendering of a 64-bit i and for no other string |
| `ZvalConversion.LastWriteWins` | src/lib.rs:9932-9950 | every slot of a filled array holds the last value written under its key, every key has its slot, and only a key or value that does not convert fails |
| `ZvalConversion.DistinctKeysKeepTheirOrder` | src/lib.rs:9991-10000 | distinct keys keep their order, so ordered maps stay ordered in PHP |
| `ZvalConversion.EveryEntryIsReachable` | src/lib.rs:9914-9917 | no array made by `set_zval`, at any depth, has a string key that renders a 64-bit integer or two slots under one key |
| `ZvalConversion.RoundTripsExactly` | src/lib.rs:9964-10148 | a value comes back from PHP equal iff it has no unsigned integer and its maps have plain distinct keys and do not look like lists |
| `ZvalOrders.EveryOrderRoundTrips` | src/lib.rs:9964-10148 | a value comes back equal whatever orders its hash maps are enumerated in, at every depth, iff it has no unsigned integer, all its maps have plain keys, no hash map in it has exactly the keys 0..N-1, no ordered map in it is enumerated so and no JSON object is empty; otherwise some order fails |
| `ZvalConversion.MapRoundTripsExactly` | src/lib.rs:10032-10060 | `php_array_as_map` recovers a map iff its keys are plain and its values survive, maps that look like lists and the empty map included |
| `ZvalConversion.ArrayAsMap` | src/lib.rs:10039-10060 | `php_array_as_map` reads every array slot by slot, sequential or not |
| `ZvalLoops.PhpArray.InsertMapEntry` | src/lib.rs:9940-9950 | the array after one map entry, under the key PHP would use; only an integer overflow fails and changes nothing |
| `ZvalLoops.PhpArray.InsertStringKey` | src/lib.rs:9953-9958 | a numeric string goes under its integer key |
| `ZvalLoops.SetZvalInto` | src/lib.rs:9964-10029 | the recursive conversion computes the specified PHP value or error |
| `ZvalLoops.SetList` | src/lib.rs:9974 | the list loop fills 0, 1, 2, ... |
| `ZvalLoops.SetEntries` | src/lib.rs:9975-10000 | the filling loop of the three map kinds computes the specified array or error |
| `ZvalLoops.ReadZval` | src/lib.rs:10065-10148 | the recursive reading computes the specified value, or fails with the nested failure |
| `ZvalLoops.ReadList` | src/lib.rs:10111-10118 | the list loop of `from_zval` |
| `ZvalLoops.ReadMap` | src/lib.rs:10119-10140 | the map loop of `from_zval`, whose `insert` never replaces an entry |
| `ZvalReadings.ReferencesReadAsTargets` | src/lib.rs:10065-10070 | references left in an array, at any depth, read as what they refer to |
| `ZvalReadings.ReadingFailsExactly` | src/lib.rs:10065-10148 | reading fails iff some part is no text, a foreign object or of an unsupported type |
| `ZvalReadings.ArrayIsRead` | src/lib.rs:10108-10141 | an array is read as a list iff its keys are 0, 1, 2, ... in order, otherwise as a map, slot by slot under its own keys |
| `ZvalReadings.JsonIsRead` | src/lib.rs:10048-10051 | a JSON object is read as its fields, and as a map with string keys where a map is asked for |
| `ZvalReadings.WritingFailsExactly` | src/lib.rs:9964-10029 | the conversion to PHP fails iff some unsigned integer, as a value or as the key of a map, is beyond 63 bits |
| `ZvalReadings.UnsignedIsWritten` | src/lib.rs:9969-9971 | an unsigned integer in range becomes the value and the key that the signed one becomes |
| `ZvalReadings.KeysAreWritten` | src/lib.rs:9940-9958 | a string goes under the integer it prints, if there is one, and under itself otherwise; a key of another kind goes where its text would go |
| `AeroTrips.ToPhpIsWellFormed` | src/lib.rs:10225-10263 | whatever the server sends becomes a value whose hash maps have no two equal keys |
| `AeroEntries.JsonIsSent` | src/lib.rs:10211-10216 | JSON is sent as a hash map with exactly its names as string keys, each with its own value |
| `AeroEntries.HashMapIsSent` | src/lib.rs:10200-10202 | a hash map is sent entry by entry; where two keys become one, the entry stored is one of theirs |
| `AeroEntries.OrderedMapIsSent` | src/lib.rs:10203-10210 | an ordered map is sent entry by entry, a later entry replacing an earlier one of the same key |
| `AeroEntries.UnsignedIsSent` | src/lib.rs:10186-10195 | an unsigned integer is sent as the signed one, and as nil when it is beyond 63 bits |
| `AeroEntries.OrderedMapIsReceived` | src/lib.rs:10252-10254 | PHP gets an ordered map in the order of the server's keys |
| `AeroEntries.PairsAreReceived` | src/lib.rs:10255-10257 | and ranked results in the order the server lists them |
| `AeroEntries.HashMapIsReceived` | src/lib.rs:10246-10248 | of a hash map PHP gets exactly the entries, unless it takes two keys for equal |
| `AeroEntries.LastValueStays` | src/lib.rs:10246-10248 | of keys that PHP takes for equal the last value stays, and no key is lost |
| `AeroEntries.FloatIsReceived` | src/lib.rs:10230-10240 | a 32-bit float is received as the 64-bit float it widens to |
| `AeroValues.ToAeroIsPlain` | src/lib.rs:10177-10222 | nothing sent to the server holds an F32, a `MultiResult` or a `KeyValueList` |
| `AeroValues.TripIsPlain` | src/lib.rs:10177-10263 | one trip gets rid of the three forms at every depth |
| `AeroValues.CollectIsLossless` | src/lib.rs:10246-10248 | collecting into a PHP-side map loses nothing iff no two keys are equal |
| `AeroTrips.TripDrops` | src/lib.rs:10177-10263 | a trip never makes a plain value larger, and one that keeps its size changes nothing |
| `AeroTrips.ComesBackExactly` | src/lib.rs:10177-10263 | a value comes back as it was iff it is free of the three forms and no hash map in it holds keys that PHP equates |
| `AeroSettling.SecondTripIsIdentityExactly` | src/lib.rs:10177-10263 | whatever orders hash maps are walked in on the second trip, it changes nothing iff what the first trip landed on has no colliding keys |
| `AeroSettling.SettledNeedsOneTrip` | src/lib.rs:10177-10263 | one trip settles every value in whose hash maps, at any depth, keys that PHP tells apart become one server key or stay apart, whatever orders the second trip meets |
| `AeroSettling.SettlesExactly` | src/lib.rs:10177-10263 | of the values whose first trip loses no entry, exactly those settle after one trip |
| `AeroSettling.ReturningKeysNeedOneTrip` | src/lib.rs:10177-10263 | if PHP finds every hash-map key, at any depth, equal to itself after the trip, the second trip is the identity |
| `AeroSettling.SimpleKeysNeedOneTrip` | src/lib.rs:10177-10263 | so it is with hash maps keyed by scalars, or by plain values without colliding keys |
| `AeroWitness.OneTripMayNotSettle` | src/lib.rs:10230-10252 | a hash map keyed by two ordered maps with float zeros whose second trip differs from its first, under all orders |
| `AeroWitness.LosingMaySettle` | src/lib.rs:10230-10252 | a value with that map under a key that the first trip merges away: unsettled by the condition, and settled after one trip |
| `Hosts.NormalFormsDecideTheSeeds` | src/lib.rs:8362-8385 | two seed lists have one normal form iff they name the same set of canonical seeds |
| `Hosts.NormalizeIsIdempotent` | src/lib.rs:8362-8385 | normalising twice is normalising once |
| `Hosts.SpellingDecides` | src/lib.rs:8356-8385 | two lists of segments have one normal form iff each segment that names a seed says the same as some segment of the other: only blanks, the case of ASCII letters or a default port left out differ |
| `Hosts.BlanksAreNeutral` | src/lib.rs:8365 | spaces, tabs, line ends and Unicode white space around a seed do not matter, and nothing is cut off a seed that starts and ends in visible ASCII |
| `Hosts.CanonExactly` | src/lib.rs:8366-8380 | two seeds have one canonical form iff, with ":3000" written out where no port is, they differ only in the case of ASCII letters |
| `Hosts.CaseIsNeutral` | src/lib.rs:8370-8379 | the case of ASCII letters does not matter, and the canonical form is in small letters |
| `Hosts.HasPortExactly` | src/lib.rs:8370-8374 | a port is recognised iff some text, a colon and one or more digits make up the seed |
| `Hosts.DefaultPortIsNeutral` | src/lib.rs:8367-8380 | writing out ":3000" is neutral iff the host has no trailing port |
| `Hosts.DefaultPortMayBeLeftOut` | src/lib.rs:8367-8380 | the same for a whole one-seed list |
| `Hosts.BareAddressHasAPort` | src/lib.rs:8368-8377 | "::1" and "::1:3000" have different normal forms |
| `Hosts.CacheKeysDecide` | src/lib.rs:8468-8469 | two cache keys are equal iff the seeds of each list say the same as seeds of the other and the fingerprint words are equal |
| `Sorting.SortDedup` | src/lib.rs:8382-8383 | `sort` and `dedup` leave the same elements, each once, strictly increasing |
| `Sorting.SortForgetsOrder` | src/lib.rs:8322-8334 | sorting forgets the order in which distinct elements came |
| `Fingerprint.OrderIsForgotten` | src/lib.rs:8322-8334 | policies that agree in every hashed field, maps and sets in any iteration order, feed the hasher the same bytes |
| `Fingerprint.FingerprintsAreExact` | src/lib.rs:8293-8343 | without rack ids, which PHP cannot set, the bytes are equal iff every hashed field, named one by one, and every digest is |
| `Fingerprint.StreamIsUniquelyDecodable` | src/lib.rs:8293-8343 | in general the same, unless one policy has rack ids without a map and the other a map |
| `Fingerprint.EntryPassesForARack` | src/lib.rs:8322-8334 | a one-entry map is hashed as the rack id whose bytes spell it |
| `Fingerprint.CrossedPoliciesCollide` | src/lib.rs:8322-8334 | two policies of the excepted kind, within the widths of their fields, with the same bytes |

## Left out

- The aerospike crate itself: records, partitions and readers are what the comments say of them; errors, `Client::new`, `close` and `query` are outcomes the environment picks.
- Time: sleeps, backoff and the drain deadline are steps that may happen at any moment, so nothing is said about when a poll loop ends. The early return of `drain_recordset` is a drain task that stops at once.
- Weak memory: atomics are sequentially consistent, and `fork()` follows one line of processes.
- A recordset without a partition filter (`src/lib.rs:3599-3604`): only sentinels have none, and PHP never sees them.
- The check that external authentication has TLS (`src/lib.rs:8474-8485`), INI settings and panics inside `Client::new`: the first returns before anything shared is touched, the cap is an input of every insertion, the last is one of the failures of building.
- `ClientEntry.hosts` and `policy_fingerprint`: folded into the cache key.
- Object conversions that fail (allocation of Zend objects) in `set_zval`, and array keys that are not UTF-8.
- Widths of `PHPValue` integers beyond the checks the code makes: integers are unbounded, and a 64-bit overflow is an error exactly where the source tests for it.
- The hash function behind a fingerprint and its collisions: the byte stream and the 64-bit word are modelled, not the step between them. `tls_material_fingerprint` reads files and is an opaque digest.
- The PHP wrapper classes, operation builders, policies and result-code tables: one-line calls into the crate.
- Streaming.PageWithinQuota: follows from the assumption about the crate's readers, so it is a check of the model and no result about this code.
- CacheDeadlock.SomeThreadCanMove: asks that no mutex was lost to a fork, because after such a fork the property is false; `ForkIsSafeExactly` says exactly when that is.
- CacheShutdown.Registry.ShutdownQuiescent: asks that the cache mutex is free, because otherwise the hook never returns; `ShutdownReturnsExactly` says when that is.
- AeroValues.ToAero: the order in which a hash map is walked is a function of its entries, so equal maps inside one value are walked alike on one trip; two trips may walk alike or not.
- AeroSettling.SettlesExactly: is an equivalence only for values whose first trip loses no entry, because beyond them the condition is not necessary, as `LosingMaySettle` shows.
- Fingerprint.StreamIsUniquelyDecodable: excepts pairs of policies that differ in having rack ids or a map, because there the law is false.
