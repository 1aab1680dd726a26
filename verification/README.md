# Cachau in Dafny

Cachau is a function cache whose promise is "no false HIT, bounded, observable".
This project models the logic that promise rests on and proves it: the protocol by
which threads call, commit, evict and invalidate; the lock file shared by processes;
the argument encoder; the code fingerprint; the entry file format; and the size walk.
`dafny verify dfyconfig.toml` checks everything.

## How the model is laid out

- **The protocol, interleaved.** `Protocol.dfy` is a step machine: any number of
  threads, each with a program counter, where one backend operation, one guarded
  section or one read of shared state is one step. The environment decides clocks,
  failures, size estimates, dependency changes, entries that vanish, entries other
  processes commit, and where code that a call runs outside any handler raises: the
  function, the backend's read, the clock, making a process lock, a dependency's
  fingerprint, the comparison of a verification and its warning. Each such exit releases
  the lock and is booked. Files prove one promise each over every run:
  `ProtocolFaithful` (no false HIT), `ProtocolTtl` (nothing is served past its TTL),
  `ProtocolBudget` (the memory bound, carried across
  restarts by `ProtocolRestart`), `ProtocolFlight` (single flight),
  `ProtocolQuarantine` (nothing condemned is served), `ProtocolTally` (the counters
  account for everything; `ProtocolAbandoned` is a run that needs every term) and
  `ProtocolProgress` (no deadlock, and each step nears the end). `ProtocolAlone` says
  what the steps of one thread add up to when no other runs between them: a hit, a miss,
  an invalidation, a verification, and each way they can fail, field by field. History
  variables (`Past`) record what the claims speak of; no step reads them.
- **The cached function, one caller at a time.** `Control.dfy` is a class with the
  fields of `CacheControl` (store, budget, marker sets, quarantine, eviction ledger,
  counters), whose methods update them in place. `Ledgers.dfy`, `Policy.dfy`,
  `Dependencies.dfy` and `Rehydrate.dfy` are the pieces it uses.
- **Locks.** `Flight.dfy` is the refcounted registry of per-key locks, as a class and
  as a machine; `LockFile.dfy` is the lock file as paths, inodes, contents and
  modification times; `Coordinate.dfy` is the bounded wait against any environment.
- **Encodings.** `Bytes.dfy` has lengths and decimals; `Keys.dfy` the argument encoder;
  `Constants.dfy`, `Fingerprint.dfy`, `FingerprintWalk.dfy`, `FingerprintEdits.dfy` and
  `Dispatchers.dfy` the code fingerprint; `JsonText.dfy`, `Json.dfy` and `Disk.dfy` the entry file.
- **Graphs.** `Graphs.dfy` and `Sizes.dfy` are the deep size walk.

## What is assumed

- A digest is any function to 32 bytes; each claim that needs it asks that the digest
  tell apart the streams actually hashed (`Keys.Separates`), never that it be injective.
- The memory bound is for runs in which deletes succeed and no other process commits to
  the same store (`ProtocolBudget.Calm`); the eviction ledger, which covers failing
  deletes, is claimed for one caller at a time in `Control`. Entries an earlier process
  left that the budget cannot have (unsized, of another implementation, or with a delete
  that fails) are outside it until they are rewritten (`ProtocolRestart.Legacy`).
- What the interpreter brings to JSON is a parameter (`Json.Interpreter`): how it decodes
  bytes, of which only printable ASCII is assumed to come out as itself; how many digits
  an integer may have; how deep containers may nest.
- A JIT dispatcher is an object of its own beside the Python function it compiles
  (`FingerprintWalk.Compiled`).
- No false HIT is for a function determined by its key and dependency state, under the
  documented stability contract: dependencies never return to a call's snapshot between
  its start and its re-observation (src/cachau/dependencies.py:23-31). Entries committed
  by other processes are taken to be faithful too.
- A persisted row has no negative size, and its instant is a number. A damaged file can
  say otherwise, and the metadata scan passes both on (src/cachau/disk.py:282-289).
- Which captured objects are functions or dispatchers is given with the graph of
  `FingerprintWalk`.
- A lock file's age is compared with `stale_after` by one clock shared by all processes.
  `LockFile.BeatsExclude` asks that every process with a file create it, write its token
  or beat in time, that no crash or failed unlink leaves a file behind, and that
  `stale_after` is not negative.
- `ProtocolTtl.ServedWithinTtl` is for stores and other processes with the same TTL.
- `FingerprintEdits.FingerprintDetectsEdits` compares two versions of a program whose
  functions capture alike: variables of the same names, defaults of the same number, and
  in each place a value in both, the same function in both, or the same opaque object.

## Where the code does not do what one might expect

- A miss can end as neither a write, a skipped write nor an exception of the function:
  when a dependency cannot be observed again after the function ran, when the clock of
  the commit raises, or when a failed verification's warning is made an error. The miss
  and the execution are counted, and nothing else is. `ProtocolTally.TalliesCloseExactly`
  says that the simple balance holds exactly when none of these happens, and
  `ProtocolAbandoned.ReobservationAbandons` is such a run. The next call then executes
  the function again, which `ProtocolFlight.SingleFlight` counts among the breaking
  events.
- Mutual exclusion by lock file is not absolute: two waiters that both find a dead
  owner's lock stale can end with both computing, and a waiter that times out computes
  beside them. `LockFile.AtMostOnePlusUnlinked` is an upper bound on how many compute at
  once, and `LockFile.BoundIsReached` a run that reaches it.
- A string with a high surrogate directly before a low one does not survive the entry
  file: the two come back as one code point (`JsonText.PairMerges`). A dependency label
  that is such a pair makes every later call a miss (`Disk.PairInLabelIsLost`).
  `JsonText.TextRoundTrips` and `Disk.FileRoundTrips` say
  that these are the only strings that change.
- A metadata line longer than a mebibyte is found by a full read and not by a metadata
  scan (`Disk.ReadFileMetadata`; an entry with so long a key is
  `Disk.LongKeyIsNotScanned`).
- A damaged file can make the whole metadata scan raise where a full read reports a
  miss: exactly when its metadata line is valid JSON but neither null nor an object, or
  is a row with an instant too large for a float (`Disk.ScanRow`). The line `[]` is one
  (`Disk.ArrayLineRaises`), an instant of ten to the 342nd another
  (`Disk.HugeInstantRaises`); the line `null` is skipped (`Disk.NullLineIsSkipped`).
  `_lenient_dependencies` says that a scan must not raise over one damaged row
  (src/cachau/disk.py:268-279).
- A captured opaque object puts its identity into the fingerprint
  (`FingerprintWalk.OpaqueShowsIdentity`), which the program documents as a safe miss.

## Model

| member | source | states |
|---|---|---|
| ProtocolFaithful.NoFalseHit | src/cachau/decorator.py:959-994 | In every run, whatever check serves a cached value (lock-free, coalesced, cross-process, verified), it is the function's value for the caller's own dependency snapshot, and the reading the call judged by is before the entry's expiry |
| ProtocolFaithful.JudgedByClockAndDependencies | src/cachau/decorator.py:963-978 | The check goes on with an entry exactly when both the reading and the clock before it are earlier than its expiry, if it has one, and its fingerprints are the caller's, if any are declared |
| ProtocolTtl.CommitLastsItsTtl | src/cachau/decorator.py:1178-1207 | What a commit stamps at `t` passes every later check at readings before `t` plus the TTL and no check from there on, or always without a TTL, given the caller's dependencies |
| ProtocolTtl.ServedWithinTtl | src/cachau/decorator.py:1178-1207 | In every run, a call is served an entry only at a reading before its commit instant plus the TTL |
| ProtocolAlone.HitAlone | src/cachau/decorator.py:980-994 | A call alone that finds a servable entry ends after seven steps with one hit counted, the key newest in the budget, the clock moved, and nothing else changed |
| ProtocolAlone.HitReturns | src/cachau/decorator.py:988-994 | It returns the stored entry |
| ProtocolAlone.MissAlone | src/cachau/decorator.py:1011-1122 | A call alone that finds nothing ends, when nothing it asks for fails, in the state that `MissFacts` gives field by field |
| ProtocolAlone.MissFacts | src/cachau/decorator.py:1151-1235 | That miss leaves the key with the function's value, the caller's fingerprints, the commit instant and its TTL, less the keys the admission evicts and the batch of pending deletes; one miss, one execution and one write are counted |
| ProtocolAlone.LooksFindStale | src/cachau/decorator.py:963-978 | An entry at or past its expiry, or of other fingerprints than the caller's, is not served |
| ProtocolAlone.LooksFindQuarantine | src/cachau/decorator.py:963-964 | Nor is anything of a quarantined key, at the first look |
| ProtocolAlone.ProbesBeforeClassifying | src/cachau/decorator.py:1011-1052 | With `coalesce="processes"` a call that finds nothing under its lock probes the store, as often as it is told to, before it classifies the miss |
| ProtocolAlone.StaleDeleteFails | src/cachau/decorator.py:1104-1110 | A stale entry that cannot be deleted is recomputed all the same |
| ProtocolAlone.StaleClassifies | src/cachau/decorator.py:1101-1110 | An entry found unservable is deleted, leaves the budget, and counts as expired if the clock has reached its expiry and as a changed dependency if not |
| ProtocolAlone.QuarantinedClassifies | src/cachau/decorator.py:1085-1099 | A quarantined key is deleted, freed and counted as invalidated |
| ProtocolAlone.CondemnedClassifies | src/cachau/decorator.py:1094-1099 | When that delete fails the key stays quarantined, leaves the budget and counts as invalidated all the same |
| ProtocolAlone.RacedIsSkipped | src/cachau/decorator.py:1170-1174 | A result whose dependencies changed while it was computed is returned, counted as skipped and not stored |
| ProtocolAlone.ResultIsWritten | src/cachau/decorator.py:1178-1227 | A result that fits, with the caller's dependencies still in place, is stored stamped by the commit clock and admitted |
| ProtocolAlone.OversizedIsSkipped | src/cachau/decorator.py:1179-1196 | A result of no known, a negative or too large a size is returned, counted as skipped and not stored |
| ProtocolAlone.UnwrittenIsSkipped | src/cachau/decorator.py:1197-1216 | A result whose write fails is returned and counted as skipped |
| ProtocolAlone.FunctionRaises | src/cachau/decorator.py:1120-1122 | A function that raises ends the call with nothing stored and the lock given back |
| ProtocolAlone.EvictionFails | src/cachau/decorator.py:918-934 | An evicted key whose delete fails becomes the newest of the ledger |
| ProtocolAlone.DrainFails | src/cachau/decorator.py:949-953 | A pending delete that fails again stays in the ledger |
| ProtocolAlone.InvalidationAlone | src/cachau/decorator.py:473-496 | An invalidation alone deletes the entry, or quarantines the key exactly when the delete fails; the key leaves the budget, one invalidation is counted, and nothing else changes |
| ProtocolAlone.VerificationRuns | src/cachau/decorator.py:1237-1251 | A `verify=` call that holds a servable entry runs the function, counts the execution and compares |
| ProtocolAlone.MatchIsAHit | src/cachau/decorator.py:1251-1269 | A verification that matches, or has no verdict, is a hit served from the store |
| ProtocolAlone.MismatchIsReplaced | src/cachau/decorator.py:1270-1287 | One that does not match counts a failure and a miss, deletes the entry and goes on to commit the recomputed value |
| ProtocolAlone.MismatchDeleteFails | src/cachau/decorator.py:1283-1286 | An entry that did not match and cannot be deleted is overwritten all the same |
| ProtocolFaithful.StoreIsFaithful | src/cachau/decorator.py:1159-1207 | In every run, every stored entry is the function's value for the fingerprints stored with it |
| ProtocolFaithful.FaithfulKept | src/cachau/decorator.py:1151-1207 | Every step keeps faithfulness, including a dependency change in the middle of a computation, which the re-observation before the commit catches |
| ProtocolFaithful.ClockNeverDecreases | src/cachau/decorator.py:876-886 | No step moves the clamped clock back, whatever the wall clock reads, or lets a call judge by a reading ahead of it |
| ProtocolFaithful.ReadingsAreOrdered | src/cachau/decorator.py:873-893 | Over any run the clamped clock never goes back |
| ProtocolFaithful.TimedHolds | src/cachau/decorator.py:876-886 | In every run, every call judges by a reading the clamped clock has passed |
| ProtocolBudget.NothingEscapes | src/cachau/decorator.py:1194-1227 | In every run with succeeding deletes, each stored key is tracked with its size, or its committer is between its `set` and its `admit`, or some committer has evicted it and still owes the delete, or it still holds an entry an earlier process left outside the bound |
| ProtocolBudget.MemoryIsBounded | src/cachau/decorator.py:1213-1227 | At every quiescent state of such a run, the stored bytes are within `max_memory`, such leftovers aside |
| ProtocolRestart.RehydrationStarts | src/cachau/decorator.py:717-762 | What rehydration leaves starts the machine within the bound: every stored key is tracked with the size of its entry unless it is unsized, of another implementation or namespace, or its delete failed |
| ProtocolRestart.BoundedAcrossRestarts | src/cachau/decorator.py:717-736 | The limit holds across restarts: in every run from a rehydrated store, at every quiescent state, the stored bytes are within `max_memory` but for such leftovers that nobody has rewritten since |
| ProtocolBudget.BoundedKept | src/cachau/decorator.py:1085-1122 | Every step of every thread keeps the coverage invariant: purges and stale deletes forget only what is gone, commits set before they admit |
| ProtocolBudget.AdmitCovers | src/cachau/policy.py:46-57 | Across an admission a stored key stays tracked with its size or becomes one of the keys evicted |
| ProtocolFlight.SingleFlight | src/cachau/decorator.py:996-1020 | Between two executions of the function for one key on a miss, its entry was removed, its key quarantined, its entry found stale under the lock, or the earlier execution ended without a commit (the function, the re-observation or the clock raised, or the write was skipped); so with none of these it is computed at most once |
| ProtocolFlight.ArmedKept | src/cachau/decorator.py:1082-1177 | Every step, exceptions included, keeps: a key executed and not broken since has a stored entry, or its lock holder is on its way to writing one |
| ProtocolFlight.ExecuteUnarmed | src/cachau/decorator.py:1120-1122 | Whoever executes the function for a key finds it broken since its last execution |
| ProtocolQuarantine.NothingCondemnedIsServed | src/cachau/decorator.py:473-496 | Once an invalidation has returned, no later call is served an entry the store held at any time up to its delete attempt, however often deletes and overwriting writes fail |
| ProtocolQuarantine.QuarantinedKept | src/cachau/decorator.py:963-977 | Every step keeps: an unquarantined entry was committed after its key's last invalidation, and what a check carries past both quarantine looks was committed after the barrier it started behind |
| ProtocolQuarantine.BarrierRaised | src/cachau/decorator.py:481-493 | Between its delete attempt and its return an invalidation has raised its key's barrier, whether the delete succeeded or the key was quarantined |
| ProtocolQuarantine.QuarantineStopsTheCheck | src/cachau/decorator.py:963-977 | A check that finds its key quarantined at either look serves nothing |
| ProtocolTally.TalliesConserve | src/cachau/decorator.py:1082-1287 | In every state of every run: hits, misses and calls that raised before they were either are the calls classified so far; misses are writes, skips, exceptions of the function, misses abandoned behind it and commits in flight; executions that returned are those of misses and of verifications with a verdict, without one, or whose comparison raised; verification failures are the misses they became |
| ProtocolTally.TalliesClose | src/cachau/decorator.py:513-539 | When every call has returned the books close without remainder |
| ProtocolTally.TalliesCloseExactly | src/cachau/decorator.py:1151-1178 | Then each miss is a write, a skip or an exception of the function exactly when no warning, re-observation or commit clock raised, and each execution that returned has its verdict or its miss exactly when no comparison raised |
| ProtocolTally.MoveCounts | src/cachau/decorator.py:1237-1287 | Each move of a call, verifications and exceptions included, adds to the counters exactly what it takes from the calls in flight |
| ProtocolAbandoned.ReobservationAbandons | src/cachau/decorator.py:1159-1177 | A run whose one call has returned with a miss and an execution, but no write, no skip and no exception of the function |
| ProtocolProgress.NoDeadlock | src/cachau/decorator.py:1007-1009 | In every reachable state a thread that is not idle can step, or waits for a lock whose holder can |
| ProtocolProgress.StepsNearTheEnd | src/cachau/decorator.py:996-1287 | Every step of a call or an invalidation, whatever fails or raises, takes it nearer to its end, unless a waiter of a process flight looks again |
| Protocol.OnePerKey | src/cachau/decorator.py:1007-1009 | In every run no two threads are inside the critical section of one key |
| Protocol.LocksKept | src/cachau/decorator.py:482-482 | Every step keeps: holders of a key's lock are exactly the threads inside, and no step that classifies, computes or commits is taken without it |
| Control.CacheControl.Call | src/cachau/decorator.py:980-1020 | `explain` predicts the call: it is served exactly when the reason is found, that is when an unquarantined entry is before its expiry and has the caller's fingerprints, and gets the stored value; each reason bumps its own counter by one and no other; a miss executes the function, and the key then holds its value with the commit instant and TTL; each result is one write or one skip; every stored key stays accounted for, and a commit whose deletes all succeed shortens the ledger by a batch |
| Control.CacheControl.ReasonsMean | src/cachau/decorator.py:283-330 | What each reason says of the store, the quarantine, the markers, the clock and the fingerprints |
| Control.CacheControl.OutcomesMean | src/cachau/decorator.py:1151-1207 | Whether a miss raises, is written, or is skipped for a race, by what the call observed |
| Control.CacheControl.ExplainNamesChanges | src/cachau/decorator.py:307-326 | The labels `explain` reports changed are not empty exactly when its reason is the changed dependency |
| Control.CacheControl.Classify | src/cachau/decorator.py:1085-1119 | A miss bumps the counter of its one reason and no other; what it does to the store, the quarantine, the markers, the budget and the clock |
| Control.CacheControl.Compute | src/cachau/decorator.py:1120-1122 | A miss runs the function once and answers with its value, or with the exception of the function or of the commit; a written result is then what the key holds, with its TTL counted from the commit; one that is not leaves the key without entry and the rest untouched |
| Control.CacheControl.Commit | src/cachau/decorator.py:1151-1235 | When a result is written and as what entry (stamped by the later clock, expiring a TTL after it), when it is skipped and which counter says why, and when the commit raises; otherwise nothing stored, tracked or pending changes; the evicted keys are marked, accounting is kept, and a batch of pending deletes is worked off |
| Control.CacheControl.Settle | src/cachau/decorator.py:1224-1235 | After the write lands: the entry is in place, the budget has admitted it, and every stored key is tracked or in the ledger and never both |
| Control.CacheControl.EvictAll | src/cachau/decorator.py:918-934 | Evicted keys are deleted or remembered for a retry, and nothing else is touched |
| Control.CacheControl.Drain | src/cachau/decorator.py:936-955 | At most eight of the oldest pending deletes of other keys are retried; those that succeed leave both store and ledger, the rest stay in both |
| Control.CommitAccounts | src/cachau/decorator.py:1224-1233 | Admission with failing eviction deletes keeps every stored key tracked or ledgered |
| Control.OverrunIsLedgered | src/cachau/decorator.py:919-924 | Stored bytes are within `max_memory` plus the bytes the ledger still has to delete |
| Control.CacheControl.Invalidate | src/cachau/decorator.py:473-496 | A delete that succeeds removes the entry and marks the key, one that fails quarantines it; either way the key is then explained as invalidated for every clock and dependency state, leaves the budget, and no other key changes |
| Control.CacheControl.Clear | src/cachau/decorator.py:462-471 | Afterwards nothing is stored, tracked, pending or quarantined, and every key is not found |
| Ledgers.Note | src/cachau/decorator.py:251-257 | The pop-from-the-front loop leaves the key newest and the oldest dropped beyond the cap |
| Ledgers.RememberFacts | src/cachau/decorator.py:929-934 | Remembering adds the key once, keeps every other below the cap, and adds no other |
| Ledgers.RememberKeepsNewest | src/cachau/decorator.py:929-934 | The key remembered is the newest, within the cap, and the others keep their order of age |
| Ledgers.AllRemembered | src/cachau/decorator.py:251-257 | Below the cap, remembering keys one by one keeps them all and what was there |
| Ledgers.FourThousandAreKept | src/cachau/decorator.py:66-73 | Ledger and markers hold 4096 keys, and drop none before that |
| Ledgers.BatchFacts | src/cachau/decorator.py:942-948 | The batch is of other keys of the ledger, each once, as many as there are up to eight |
| Ledgers.BatchIsOldest | src/cachau/decorator.py:943-948 | The retried batch is of at most eight keys, and whatever is older than one of them is in it before it |
| Ledgers.AccountedBytes | src/cachau/decorator.py:1224-1227 | Keys tracked with their sizes or in the ledger have no more bytes than both together |
| Policy.LRUBudget.AdmitKey | src/cachau/policy.py:46-57 | The eviction loop returns exactly the keys of the shortest LRU prefix that makes room and leaves the rest with the key newest |
| Policy.LRUBudget.TouchKey | src/cachau/policy.py:31-35 | A tracked key becomes the newest with its size; an untracked one changes nothing |
| Policy.LRUBudget.ForgetKey | src/cachau/policy.py:37-44 | The key's slot and its bytes are gone, the others keep their order |
| Policy.OverflowIsShortest | src/cachau/policy.py:52-55 | What is evicted makes room, and no shorter LRU prefix would |
| Policy.AdmitFacts | src/cachau/policy.py:46-57 | After an admission the key is tracked with its new size, every other key not evicted with the size it had, within budget |
| Policy.RunIsByRecency | src/cachau/policy.py:31-57 | Over any run of admit, touch and forget the order is the recency of each key's last admit or touch |
| Policy.RunIsBounded | src/cachau/policy.py:46-57 | Over any run the recorded sizes are the last admitted ones and the total is within budget |
| Rehydrate.RehydrateBudget | src/cachau/decorator.py:717-762 | Replaying persisted rows oldest first leaves exactly the longest newest suffix of the rows that fit; the other sized rows of this fingerprint are reclaimed unless a delete fails; evictions count them |
| Rehydrate.LongestSuffixIsLongest | src/cachau/decorator.py:732-734 | The suffix kept is within budget and no longer one is |
| Rehydrate.AdmitNewest | src/cachau/decorator.py:759-761 | Admitting one newer row to the longest suffix gives the longest suffix of the longer list |
| Rehydrate.ReplayIsOldestFirst | src/cachau/decorator.py:748-750 | The replay order is by creation instant, earliest first, then by key, whatever order the store lists its rows in |
| Sorting.StringOrder | src/cachau/decorator.py:748-750 | Keys are compared at the first character that differs, a prefix before what it begins |
| Rehydrate.KeysTellImplementations | src/cachau/decorator.py:738-785 | A row counts as current or stale exactly by the fingerprint its key was built with |
| Rehydrate.FittingAreRows | src/cachau/decorator.py:751-757 | What is replayed are the rows no larger than the limit, with their sizes |
| Rehydrate.PurgeStale | src/cachau/decorator.py:765-785 | Exactly this namespace's rows of other fingerprints are deleted, except those whose delete fails, and the result counts them |
| Rehydrate.ChoresAreDisjoint | src/cachau/decorator.py:859-865 | Purge and replay look at disjoint rows of one snapshot; rows of other namespaces are looked at by neither, unsized ones are not replayed |
| Dependencies.Normalize | src/cachau/dependencies.py:272-303 | A missing declaration declares nothing, one that is a bare string or nothing iterable is refused; a list is accepted exactly when every item is a dependency and all labels differ, with those labels; otherwise the error names the first thing wrong |
| Dependencies.ChangedLabelsAreSorted | src/cachau/dependencies.py:319-331 | The changed labels are exactly those whose fingerprints differ, sorted, whatever order the keys were iterated in |
| Dependencies.ChangedWhenDifferent | src/cachau/dependencies.py:319-331 | With dependencies declared, stored and current fingerprints differ exactly when some label is reported changed |
| Dependencies.LabelsAreNamesOrPositions | src/cachau/dependencies.py:295-295 | A label is the name a dependency gives itself, or tells its position when that is empty |
| Flight.KeyedLocksAreExclusive | src/cachau/flight.py:27-52 | In every interleaving, interrupted acquires included: one thread at most inside a key, one slot shared by all its users, the count their number, the key registered exactly while that is positive |
| Flight.NothingLeaks | src/cachau/flight.py:48-52 | When every thread is out the registry is empty |
| Flight.FreeLockIsTaken | src/cachau/flight.py:27-52 | A thread that enters a key nobody is inside can acquire it, is inside, and on leaving puts the registry, the locks and the places back |
| Flight.InterruptLeaves | src/cachau/flight.py:36-46 | A thread interrupted while it waits puts them back too |
| Flight.WaitersHaveAHolder | src/cachau/flight.py:27-46 | In every interleaving a waiting thread can acquire, or another is inside with the same lock |
| Flight.KeyedLocks.TakeRef | src/cachau/flight.py:29-34 | The guarded section hands out the key's slot, a new one if there is none, and counts the user |
| Flight.KeyedLocks.ReleaseRef | src/cachau/flight.py:48-52 | The guarded section counts the user out and drops the slot with its last user |
| LockFile.AtMostOnePlusUnlinked | src/cachau/interprocess.py:86-240 | In every interleaving with crashes, failing writes and foreign deletions, the processes computing under the lock number at most one more than the unlinks by others that removed a live owner's inode, and those computing at all at most that and the processes that timed out or found no lock can be made |
| LockFile.PromptRunsExclude | src/cachau/interprocess.py:141-171 | When no look finds the lock stale and nothing outside deletes it, at most one process computes under the lock; all others that compute have given it up |
| LockFile.BeatsExclude | src/cachau/interprocess.py:119-188 | When every process with a file has created it, written its token or beaten at most the threshold ago, whenever the clock moves, no file is left behind and nothing outside deletes one, no look is ever stale, and at most one process computes under the lock |
| LockFile.BeatsRenew | src/cachau/interprocess.py:133-139 | After a beat the age of the file at the path is zero |
| LockFile.LooksMeasure | src/cachau/interprocess.py:164-166 | A look finds a lock stale exactly when its file was last touched more than the threshold ago, at the first look and at the second |
| LockFile.CreationTakes | src/cachau/interprocess.py:95-100 | A lock is created exactly when none is at the path and the system lets it; a file that is there is left alone |
| LockFile.BreakClears | src/cachau/interprocess.py:167-171 | After a break the path is free and the breaker can create its own lock |
| LockFile.ReleaseClears | src/cachau/interprocess.py:173-188 | An owner whose file is at the path releases it in three steps and leaves the path free |
| LockFile.ReleaseComparesTokens | src/cachau/interprocess.py:173-188 | A release goes on to unlink only when the inode at the path is its own |
| LockFile.BoundIsReached | src/cachau/interprocess.py:152-171 | A run that reaches the bound: two waiters break one dead owner's lock and both compute, and a third times out and computes too |
| Coordinate.Coordinate | src/cachau/interprocess.py:191-240 | Against any environment in which breaks are finite: it ends; passes are sleeps, breaks and one; it asks for less sleep than the wait and one interval; it sleeps no more often than the capped geometric sum allows; it times out only at or past the deadline |
| Coordinate.IntervalGrows | src/cachau/interprocess.py:213-240 | The wait starts at the first interval and grows by half up to the cap, where it stays |
| Coordinate.WaitsOrBreaks | src/cachau/interprocess.py:216-238 | A pass goes on exactly when nothing is found, the lock is taken, and a lock silent for longer than the threshold was removed or the deadline is ahead |
| Keys.EqualStreamsIffSame | src/cachau/keys.py:253-318 | Two values have equal streams exactly when they are equal with type tags, dicts and sets up to order |
| Keys.StreamsShow | src/cachau/keys.py:253-318 | What equal streams show: the same kind, class identity and number of items, and, of records and sequences, items with equal streams in order |
| Keys.DictOrderDoesNotShow | src/cachau/keys.py:298-308 | Dicts with the same pairs have equal streams in any order of insertion |
| Keys.SetOrderDoesNotShow | src/cachau/keys.py:309-318 | Sets with the same members have equal streams in any order of iteration |
| Keys.PrefixFree | src/cachau/keys.py:83-118 | No value's stream is a proper prefix of another's |
| Keys.Unique | src/cachau/keys.py:253-318 | A stream decodes in one way, whatever follows it |
| Keys.CallsSeparated | src/cachau/keys.py:44-67 | Two normalized calls share a digest exactly when they agree on every argument not ignored |
| Keys.AgreeOnKept | src/cachau/keys.py:44-67 | Agreeing on the kept arguments is having the same value for every name not ignored |
| Keys.CustomKeyIsNoArgumentList | src/cachau/keys.py:70-80 | A custom key is never digested from an argument list's stream |
| Keys.CustomKeysSeparated | src/cachau/keys.py:70-80 | Two custom keys share a stream exactly when they are the same value |
| Keys.DigestCustomKey | src/cachau/keys.py:70-80 | A custom key is digested exactly when it can be encoded, from its own tagged stream |
| Keys.Hasher.Feed | src/cachau/keys.py:253-318 | What the hasher is fed is the value's stream, and it fails exactly on what cannot be hashed |
| Keys.DigestArguments | src/cachau/keys.py:44-67 | The loop over arguments digests exactly the kept ones, ignored ones never fed |
| Constants.RendersAlikeIffSame | src/cachau/fingerprint.py:406-422 | Two constants render alike exactly when they are the same up to the order of their sets |
| Constants.RenderingsShow | src/cachau/fingerprint.py:406-422 | What equal renderings show: the same kind and number of items, and items that render alike in order |
| Constants.TextSplit | src/cachau/fingerprint.py:417-421 | Renderings that agree up to a closing or continuing delimiter are of the same shape and end at the same place |
| Fingerprint.CodeStreamsEqualIffSame | src/cachau/fingerprint.py:369-403 | Two code objects feed equal streams exactly when they agree on bytecode, names, local names and, recursively, constants up to set order |
| Fingerprint.CodeStreamsShow | src/cachau/fingerprint.py:369-403 | What equal code streams show: the same bytecode, names and local names, and constants that agree in order |
| Fingerprint.FramedSplit | src/cachau/fingerprint.py:369-385 | A framed component ends where its length says, whatever its payload holds |
| Fingerprint.FeedCode | src/cachau/fingerprint.py:388-403 | The loop over constants feeds the hasher exactly that stream, nested code through a hasher of its own |
| FingerprintWalk.FingerprintIgnoresIdentity | src/cachau/fingerprint.py:91-121 | The fingerprint is the same under any renaming of object identities when nothing opaque is captured, cyclic captures included |
| FingerprintWalk.FingerprintCoversCaptures | src/cachau/fingerprint.py:91-174 | The walk visits exactly the functions reachable through closures, defaults and dispatchers |
| FingerprintWalk.OpaqueShowsIdentity | src/cachau/fingerprint.py:196-198 | Opaque captures feed the same bytes exactly when they are of the same type name and identity |
| FingerprintWalk.Fingerprinter.FingerprintOf | src/cachau/fingerprint.py:91-198 | The recursive walk with its shared set of seen functions, dispatchers and the Python functions they compile included, ends on every finite graph and gives the specified digest |
| FingerprintEdits.FingerprintShowsCode | src/cachau/fingerprint.py:91-128 | Any two functions with equal fingerprints have the same code, whatever they capture, when the digest separates the streams hashed |
| FingerprintEdits.FingerprintDetectsEdits | src/cachau/fingerprint.py:91-174 | Two versions of a program give a function the same fingerprint exactly when every function it reaches through closures, defaults and dispatchers has the same code, captured values, defaults and compilation options |
| FingerprintWalk.FunctionFingerprint | src/cachau/fingerprint.py:74-121 | Exactly what is neither a function nor a dispatcher is refused; everything else gets the digest of a walk that has seen nothing |
| Dispatchers.OptionsShow | src/cachau/fingerprint.py:96-111 | What a dispatcher feeds of its compilation agrees exactly when the options that can change results do, flag sets in any order, and its forced local types do; no other option matters |
| Dispatchers.OptionsReachTheFingerprint | src/cachau/fingerprint.py:94-111 | Recompiling a dispatcher keeps its fingerprint exactly when the options that can change results and the forced local types stay |
| Dispatchers.SemanticNames | src/cachau/fingerprint.py:99-103 | Which six options those are |
| JsonText.TextRoundTrips | src/cachau/disk.py:90-90 | A string read back from its printed form is itself exactly when no high surrogate directly precedes a low one |
| JsonText.RawCharacters | src/cachau/disk.py:188-188 | A string token may hold any character of its own but control characters, quotes and backslashes |
| Json.LoadsDumped | src/cachau/disk.py:77-90 | Loading a dumped value, arrays and objects included, gives the value with surrogate pairs merged, and fails exactly when an integer is too long or a container too deep for the interpreter |
| Json.OnlySpaceMayFollow | src/cachau/disk.py:188-188 | A dumped value parses with white space after it and with nothing else |
| JsonText.PairMerges | src/cachau/disk.py:90-90 | Every high surrogate directly before a low one comes back as one code point |
| Disk.FileRoundTrips | src/cachau/disk.py:75-106 | A written file reads back with the same key, facts and payload, newlines in the payload included, exactly when no string has a surrogate pair to merge |
| Disk.PairInLabelIsLost | src/cachau/disk.py:77-106 | An entry with a dependency label that is a surrogate pair reads back without that label, so with other fingerprints than the declaration's |
| Disk.TwoLines | src/cachau/disk.py:181-195 | Two lines, the first naming this format, and any payload parse into what the second line loads as and that payload, or not at all |
| Disk.HeadersAreOfTheFormat | src/cachau/disk.py:181-189 | Whatever parses begins with `cachau-entry/1` and a newline, and splits at the next newline into what its second line loads as and its payload |
| Disk.OtherFormatsAreMisses | src/cachau/disk.py:184-186 | A file with any other first line is a miss for a read and skipped by a scan |
| Disk.DiskBackend.OtherFormatsAreMalformed | src/cachau/disk.py:65-73 | It counts as malformed, so a read removes it when asked to |
| Disk.StrictWants | src/cachau/disk.py:221-310 | Which fields, of which types, a read asks of the metadata |
| Disk.FactsUnderTheirNames | src/cachau/disk.py:292-310 | Each fact a read or a scan gives is the one the metadata has under its name |
| Disk.WrittenUnderTheirNames | src/cachau/disk.py:77-85 | Each fact of an entry is written under its name |
| Disk.LastValueCounts | src/cachau/disk.py:188-188 | Of two fields of one name the last counts |
| Disk.OverflowsBeyondTheLargest | src/cachau/disk.py:282-289 | An instant is too large for a float exactly when it is at least half a unit in the last place beyond the largest |
| Disk.ReadMetadata | src/cachau/disk.py:198-218 | For every chunk size the chunked reader finds what the whole-file parser finds when the second newline is within the limit, and nothing when it is a chunk beyond it |
| Disk.ReadFileMetadata | src/cachau/disk.py:174-218 | With the program's chunk and limit: the whole-file result exactly when the second newline is within the limit |
| Disk.LongKeyIsNotScanned | src/cachau/disk.py:174-218 | An entry whose key is a mebibyte or longer is read and never scanned |
| Disk.ValidatorsAgree | src/cachau/disk.py:221-310 | Whatever the strict read accepts, the lenient row carries the same facts of |
| Disk.ScanRow | src/cachau/disk.py:148-170 | A metadata scan gives the strict read's row when the header is within the limit, and none when it is longer; it raises exactly when the metadata within the limit is neither null nor an object, or is a row with an instant too large for a float |
| Disk.NullLineIsSkipped | src/cachau/disk.py:155-156 | A file whose metadata line is `null` is skipped |
| Disk.ArrayLineRaises | src/cachau/disk.py:156-158 | A file whose metadata line is `[]` makes the scan raise, and is a miss for a full read |
| Disk.HugeInstantRaises | src/cachau/disk.py:282-289 | A row created at ten to the 342nd, or a larger power on a short enough line, makes the scan raise |
| Disk.DiskBackend.Load | src/cachau/disk.py:58-73 | A read serves the file's entry only under the key it was written for, and removes exactly a malformed file of its key when asked to and possible |
| Disk.DiskBackend.Set | src/cachau/disk.py:75-106 | A write replaces the whole file or changes nothing, a size too long to print included |
| Disk.DiskBackend.WrittenIsHeld | src/cachau/disk.py:65-73 | After a write the key is served its value and facts, and another key with the same file name is served nothing |
| Sizes.EstimateSize | src/cachau/sizes.py:67-108 | On every finite object graph the estimate is the sum of own sizes over the objects reachable, each once |
| Sizes.EstimateIgnoresOrder | src/cachau/sizes.py:72-108 | The estimate does not depend on the order of children |

## Left out

- The snapshot of the dependencies is one step: a dependency that changes while the
  fingerprints are being taken is not modelled.
- `clear()` and `profile()` are not steps of the interleaved machine: neither takes the
  per-key lock. `clear()` is a method of `Control`; `profile()` is not modelled.
- The interleaved machine keeps no reason markers and no tallies of evictions or failed
  deletes, and a marker's presence is a free choice there; `Control` has the markers.
- The coalesced and cross-process hit counters, times and savings averages: the hits
  they refine are counted, they are not.
- `coalesce="processes"` in `Control`: its double check is in the interleaved machine
  (the probe stage), its wait in `Coordinate`, its lock in `LockFile`.
- Several functions sharing a namespace and a store, and several processes each with a
  budget of its own, for the memory bound.
- The NumPy, pandas and Polars branches of the encoder, and the cold compilation of JIT
  dispatchers, with what reading their signatures may raise.
- `repr`, UTF-8, pickle, float formatting and SHA-256 are not computed: text is given as
  its bytes, floats as their text, serialization and digests as functions.
- The names and values `_feed_closure` and `_feed_defaults` feed are not framed, so
  between functions that capture under different names or in different numbers only the
  code is claimed to show in the fingerprint.
- A class is its identity string: that the string tells classes apart is not claimed.
- `DiskBackend.clear` and the directory listing a scan runs over: one file is modelled.
- Write-error counts in an explanation, and the facts (times, sizes) it carries along.
- An interrupt delivered to a thread inside a call: exceptions come from code the call runs.
- In `Control`, a backend read or a first clock reading that raises, and `verify=`: they
  are in the interleaved machine.
- fsync, temporary files and Windows sharing rules: a backend operation succeeds or fails.
- Rendering of profiles, statistics, explanations and inspections, TTL and size parsing,
  and the advisory search for referenced global functions: formatting or heuristics.
- Control.CacheControl.Call: leaves open which evicted and pending keys remain when deletes fail, and which of them the ledger then holds.
- Control.CacheControl.Commit: leaves open the same; `EvictAll` and `Drain` say it of the deletes themselves.
- ProtocolBudget.MemoryIsBounded: asks that deletes succeed and that no other process commits, because the program bounds no more than that.
- Rehydrate.RehydrateBudget: takes sizes to be natural numbers; with a negative size, which only a damaged file has, the replay need not leave the longest suffix.
- Rehydrate.ReplayIsOldestFirst: takes creation times to be ordered numbers; NaN, which only a damaged file has, has no place in the order.
- FingerprintWalk.FunctionFingerprint: is given which objects are functions or dispatchers; telling them apart by their attributes is not modelled.
