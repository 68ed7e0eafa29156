# A verified model of the transactional store

The store runs transactions over shared rows under one of three concurrency-control protocols, all
built on one versioned lock object, `TVersion`.  This project models the protocols and the data
structures below them in Dafny and proves what they guarantee, and where they do not.

Verify everything with `dafny verify dfyconfig.toml`.

## How the model is built

**Protocols are machines of atomic steps.**  A state holds the shared words of every object and the
progress of every transaction.  `CanMove` says which atomic load, store, fetch-and-add or
compare-exchange a transaction may take next, `NextTxn` what it does to that transaction and
`ApplyMove` what it does to the state.  `Run` executes any list of steps of any transactions, so a
statement about all runs, or about every `Reachable` state, is about every interleaving.  The number
of transactions, objects and steps is not bounded.  Memory is sequentially consistent.  Fields named
as history (`hist`, `stamp`, `ctime`, `wlog`, `veiled`, `readers`, `gone`, `tainted`, ...) are read by
no step.

**Programs take those steps.**  `OccTransaction`, `PipeTransaction` and `LockTransaction` are classes
whose methods are the loops of the original.  After each own step the others take any steps they can
(the function `others` is arbitrary), and sets are traversed in any order.  A call that fails returns,
as history, a state `at` on its run in which the reason can be seen.  `Alone` says that the others take
no steps; then a call is decided by the state it starts in.

**Data structures are classes** updated in place, used by one thread at a time.

| part | files | source |
|---|---|---|
| piece pipeline | `Pipe*.dfy` | `pnvm_lib/src/parnvm/nvm_txn_occ.rs`, `pnvm_lib/src/txn.rs` |
| optimistic commit and recovery | `Occ*.dfy` | `pnvm_lib/src/occ/occ_txn.rs`, `pnvm_lib/src/tcore.rs`, `pnvm_lib/src/datatype/tbox.rs` |
| reader/writer lock and two-phase locking | `Lock*.dfy` | `pnvm_lib/src/tcore.rs`, `pnvm_lib/src/lock/lock_txn.rs` |
| two-lock delete | `TwoLock.dfy`, `TwoLockLeak.dfy` | `pnvm/src/tpcc/entry_ref.rs` |
| tables and indexes | `Tables.dfy`, `NewOrders.dfy`, `OrderLines.dfy` | `pnvm/src/tpcc/table.rs`, `pnvm/src/tpcc/tpcc_tables.rs` |
| persistent address map | `PmemMap.dfy` | `pnvm/src/tpcc/table.rs` |
| transaction ids, decimals | `TidFac.dfy`, `Numerics.dfy` | `pnvm_lib/src/txn.rs`, `pnvm/src/tpcc/numeric.rs` |

`Powers.dfy` and `FiniteSets.dfy` hold lemmas used by several of these.

### The piece pipeline

One step for each move of `execute_txn`, `try_commit_piece`, `add_dep`, `install_data`, `clean_up` and
each single test of a wait loop; the load of the access info and the test of its commit flag are
separate, as are the installation of data and the store of the access info.  Two hypotheses, true of
the default TPC-C transactions: the ranks of a transaction's pieces strictly increase, and each object
is accessed at one rank.  Validation of read-only tags may go either way.  The order behind every
result is `Before`: a transaction at a higher rank is ahead, and at the same rank one that has decided
its piece (`ScanDone`) is ahead of one that has not or that decided later.

### Optimistic commit

The version load and the data load of a read are separate steps, so are the two owner loads and the
version load of `check_version`, the owner exchange and the count of `TVersion::lock`, and the data
store and the version store of `install`.  A delete is the pair of a `Mark` (its row) and a `Slot` (its
place in the bucket); a push is a `Slot`; each takes a lock of its own, which `TwoLock` justifies.  An
attempt enters the history when its last write lock is taken; that is its place in the serial order.
A failed attempt is retried under the same id.  `Evict` lets a processor write a cache line back at
any time.

### Two-phase locking

Every access to the four `tpl_` fields is a step of its own inside the critical section.  A refused
request ends the attempt; the next attempt has the same id.  Attempts take all their locks before
their first write and touch only what they have locked; they may read it while still taking locks.

## Where the code does less than one would expect

* A tag that was also written is not validated (`has_read` is `!has_write`,
  `pnvm_lib/src/tcore.rs:691`), so an update can be lost: `OccLostUpdate.UpdateCanBeLost`.
* The pipeline records a dependency only for written tags and only on the last accessor, and a reader
  replaces the writer in that slot, so one read-only access between two writers can turn their commits
  round: `PipeReadOnly.ReaderHidesWriter`.  When exactly a scan records the last installer is
  `PipeScan.RecordsInstallerIff`.  The install log notes for each install whether it found a
  reader there, and order holds over every stretch in which none did.
* The maximal reader of a lock goes stale when the youngest reader leaves first, and the next write
  lock of that id can be granted beside a reader: `LockExamples.ExclusionCanFail`.  When exactly is
  `LockTheorems.GrantIsExclusiveIff`.  An attempt with such a lock can make a run that is not serial:
  `LockExamples.SerialityCanFail`.  Neither can happen if no id asks for a write lock where it has
  released a read lock, unless it has a read lock there again (`LockTheorems.RelocksSafely`), and
  transactions that retry with the same lists of locks and take the read locks first never do
  (`LockTheorems.ReadsBeforeWrites`).
* Writers that wait for readers and requests that wait for writers can form a cycle:
  `LockExamples.WaitsCanDeadlock`.  Waits of one kind alone cannot: `LockTheorems.OneKindOfWaitMovesOn`.
* A delete whose second lock fails leaves its bucket locked for ever, through all retries:
  `TwoLockLeak.LeakIsPossible` and `TwoLock.LeakStays`.  When exactly it fails is
  `TwoLock.SecondLockFailsIff`.
* A line pushed under a key that is already there shares its place in the index with the one before,
  so queries find the later one twice; they equal the scans as long as no key is pushed twice:
  `OrderLines.OrderLineTable.InstallPush` and `OrderLines.OrderLineTable.FindRange`.
* After 2^24 calls a thread gives its own ids again, or those of the thread with the next mask:
  `TidFac.IdsRecur`.  Exactly which calls collide is `TidFac.CallsCollideIff`.

## Model

| member | source | states |
|---|---|---|
| PipeWaits.NoDeadlock | pnvm_lib/src/parnvm/nvm_txn_occ.rs:372-418 | in every reachable state, behind every unfinished transaction there is one, itself or one ahead of it, that no start, commit or persist wait blocks |
| PipeWaits.UnblockedCanMove | pnvm_lib/src/parnvm/nvm_txn_occ.rs:399-418 | a transaction no wait blocks always has a step that changes it |
| PipeWaits.BlockerPrecedes | pnvm_lib/src/parnvm/nvm_txn_occ.rs:547-580 | whoever blocks a wait is unfinished and ahead: by commit time, rank or order of decision |
| PipeWaits.PrecedesIsStrictOrder | pnvm_lib/src/txn.rs:277-283 | being ahead is irreflexive and transitive |
| PipeWaits.DependencyPrecedes | pnvm_lib/src/parnvm/nvm_txn_occ.rs:209-224 | every recorded dependency of a transaction that did not give up is ahead of it, for good |
| PipeWaits.DependenciesAreAcyclic | pnvm_lib/src/parnvm/nvm_txn_occ.rs:209-224 | every cycle of recorded dependencies goes through a transaction that gave up |
| PipeWaits.NoOvertaking | pnvm_lib/src/parnvm/nvm_txn_occ.rs:372-392 | along any chain of dependencies the last stays ahead of the first |
| PipeWaits.StartsBehindChain | pnvm_lib/src/parnvm/nvm_txn_occ.rs:372-410 | a piece of rank r starts only when the end of every chain of dependencies has committed or is past r |
| PipeWaits.StartWaitHolds | pnvm_lib/src/parnvm/nvm_txn_occ.rs:372-392 | when the start wait ends, the tests of all dependencies hold together, though made one at a time |
| PipeWaits.CommitWaitHolds | pnvm_lib/src/parnvm/nvm_txn_occ.rs:565-580 | likewise for the commit wait |
| PipeWaits.PersistWaitHolds | pnvm_lib/src/parnvm/nvm_txn_occ.rs:547-562 | likewise for the persist wait |
| PipeWaits.TestsStayPassed | pnvm_lib/src/txn.rs:301-316 | over any run a test of a wait that passes once passes always |
| PipeWaits.CommitAndPersistAreClosed | pnvm_lib/src/parnvm/nvm_txn_occ.rs:514-545 | a transaction that did not give up is committed (durable) only if every recorded dependency is, and committed later |
| PipeWaits.RunsMoveForward | pnvm_lib/src/txn.rs:301-316 | over any run ranks, flags, dependencies and commit times only move forward |
| PipeInvariant.EdgeFrom | pnvm_lib/src/parnvm/nvm_txn_occ.rs:372-392 | a transaction's own step keeps each recorded dependency ahead of it |
| PipeInvariant.EdgeNew | pnvm_lib/src/parnvm/nvm_txn_occ.rs:209-224 | a dependency is ahead when it is recorded, although its flag was tested after its info was loaded |
| PipeInvariant.RunKeepsInv | pnvm_lib/src/parnvm/nvm_txn_occ.rs:155-418 | every step keeps the invariant behind these results |
| PipeInstall.InstallOrderIsCommitOrder | pnvm_lib/src/parnvm/nvm_txn_occ.rs:209-238 | over every stretch of an object's installs in which no installer found a reader's access info and nobody gave up, the later install is by another transaction, which commits later |
| PipeInstall.WithoutReadersInstallOrderIsCommitOrder | pnvm_lib/src/parnvm/nvm_txn_occ.rs:209-238 | in particular over every stretch without a read-only access, as on an object whose every access is a write |
| PipeInstall.HiddenByReader | pnvm_lib/src/parnvm/nvm_txn_occ.rs:323-331 | an installer can find a reader's access info only if there was a read-only access since the install before |
| PipeInstall.OneOrderAcrossObjects | pnvm_lib/src/parnvm/nvm_txn_occ.rs:323-331 | over such stretches two transactions install in the same order on any two objects, so at all ranks |
| PipeInstall.ConflictsAreAcyclic | pnvm_lib/src/parnvm/nvm_txn_occ.rs:209-238 | dependencies and install order together have no cycle, except through a transaction that gave up |
| PipeInstall.AdjacentAreLinked | pnvm_lib/src/parnvm/nvm_txn_occ.rs:323-331 | whoever installs next on an object depends on, or commits after, the one before, unless it found a reader's access info |
| PipeScan.RecordsInstallerIff | pnvm_lib/src/parnvm/nvm_txn_occ.rs:209-224 | when a writer decides about an object whose last installer is uncommitted and not a dependency yet, that installer becomes one if and only if the access info found was not left by a read-only access |
| PipeInstall.HoldersAreRunning | pnvm_lib/src/parnvm/nvm_txn_occ.rs:333-355 | a lock has one holder, which is running a piece that writes the object and is not in a wait |
| PipeInstall.RunKeepsInstallInv | pnvm_lib/src/parnvm/nvm_txn_occ.rs:226-355 | every step keeps the invariant about locks, last accessors and the install log |
| PipeReadOnly.ReaderHidesWriter | pnvm_lib/src/parnvm/nvm_txn_occ.rs:211-217 | with one read-only access in between, the later of two writers can commit first |
| PipeTransaction.TransactionParOCC.TryCommitPiece | pnvm_lib/src/parnvm/nvm_txn_occ.rs:226-264 | under any interference a piece is decided with all dependencies ahead, or left exactly as before its attempt but for its tags, and no lock is kept; it fails only when a read is not current or another held a lock of its write set, and while nobody else moves exactly then |
| PipeTransaction.TransactionParOCC.Lock | pnvm_lib/src/parnvm/nvm_txn_occ.rs:333-355 | it fails only on a lock that another transaction held during the call, and while nobody else moves exactly if one is held at the start |
| PipeTransaction.TransactionParOCC.AddDeps | pnvm_lib/src/parnvm/nvm_txn_occ.rs:209-224 | every tag is scanned and dependencies are only added; while nobody else moves exactly the uncommitted last accessors of the written objects are |
| PipeTransaction.TransactionParOCC.ScanTag | pnvm_lib/src/parnvm/nvm_txn_occ.rs:209-224 | under any interference at most the accessor loaded becomes a dependency, only if the object is written and it was another's and uncommitted then, and certainly if it still is uncommitted after |
| PipeTransaction.TransactionParOCC.InstallData | pnvm_lib/src/parnvm/nvm_txn_occ.rs:323-331 | every tag ends up installed, written or not; while nobody else moves the access infos of exactly these objects become its own |
| PipeTransaction.TransactionParOCC.StartNextPiece | pnvm_lib/src/parnvm/nvm_txn_occ.rs:372-410 | when the start wait ends, the piece runs at its rank behind all dependencies; it comes back without success only while a dependency is neither committed nor past that rank, which it was not at the call either |
| PipeTransaction.TransactionParOCC.PollFor | pnvm_lib/src/parnvm/nvm_txn_occ.rs:372-392 | one wait gives up only while the dependency is uncommitted and not past the rank (start), uncommitted (commit) or not persistent (persist) |
| PipeTransaction.TransactionParOCC.Finish | pnvm_lib/src/parnvm/nvm_txn_occ.rs:414-418 | commit and persistence come after those of all dependencies; it ends early only while some dependency is not committed, or not persistent |
| PipeTransaction.TransactionParOCC.Abort | pnvm_lib/src/parnvm/nvm_txn_occ.rs:534-543 | giving up sets both flags without waiting |
| OccTheorems.ReadsAreSerial | pnvm_lib/src/occ/occ_txn.rs:28-62 | the last read of each object a committed attempt did not write returned what the serial execution in lock-completion order has at its turn |
| OccTheorems.EveryReadIsSerial | pnvm_lib/src/occ/occ_txn.rs:49-62 | every read is serial when each object is read at most once and never also written |
| OccTheorems.UpdateIsSerial | pnvm_lib/src/tcore.rs:689-693 | a read of an object also written is serial when the version test that is skipped would have passed |
| OccTheorems.SkippedTestDecides | pnvm_lib/src/tcore.rs:329-334 | when an attempt takes its place, the version test skipped for an object also written would pass if and only if the version read is the serial one, and then so is the value |
| OccTheorems.StoreIsSerial | pnvm_lib/src/occ/occ_txn.rs:175-200 | with no commit in flight the store is the serial execution of the committed attempts |
| OccTheorems.ReplayIsValueAt | pnvm_lib/src/occ/occ_txn.rs:286-291 | executing the committed attempts one after another gives each object its last committed write |
| OccTheorems.RunKeepsInv | pnvm_lib/src/occ/occ_txn.rs:28-304 | every step keeps the invariant behind these results |
| OccLostUpdate.UpdateCanBeLost | pnvm_lib/src/tcore.rs:689-693 | a run in which a committed attempt wrote an object whose value it read was gone |
| OccRecovery.RecoveryIsExact | pnvm_lib/src/occ/occ_txn.rs:175-226 | after a crash anywhere, with any part of the installs durable, writing back the logged values of the transactions without a commit record, in any order, gives exactly the serial execution of those with one |
| OccRecovery.RecordsAreHistory | pnvm_lib/src/occ/occ_txn.rs:202-209 | the commit records name exactly the attempts that recovery keeps |
| OccRecovery.UndoRecord | pnvm_lib/src/occ/occ_txn.rs:213-226 | a log record without a commit record is of the present lock owner and holds the value before its attempt |
| OccLocking.CountIsConserved | pnvm_lib/src/tcore.rs:281-316 | a lock's count is the number of its owner's locked tags, and it has no owner exactly when no tag holds it, outside the two-step windows |
| OccLocking.LockAssertionsHold | pnvm_lib/src/tcore.rs:281-316 | the debug assertions of `lock` and `unlock` hold |
| OccLocking.NothingBeforePassing | pnvm_lib/src/occ/occ_txn.rs:122-173 | before it passes an attempt changes no data, version, log or record |
| OccLocking.AbortLeavesNothing | pnvm_lib/src/occ/occ_txn.rs:122-130 | after an abort at any point the transaction owns no lock and has left no trace |
| OccLocking.VersionsAreCommitted | pnvm_lib/src/tcore.rs:336-344 | a row's version is 0 or the id of a transaction that passed and has stored the row |
| OccVersions.VersionNeverReturns | pnvm_lib/src/tcore.rs:336-344 | once the version of a row has left a value, no run brings it back |
| OccVersions.InstallIsNew | pnvm_lib/src/datatype/tbox.rs:56-59 | an install sets a version that the row has had in no state before |
| OccVersions.IdsCommitOnce | pnvm_lib/src/occ/occ_txn.rs:286-291 | no two committed attempts have the same id |
| OccVersions.VersionNamesInstall | pnvm_lib/src/occ/occ_txn.rs:286-291 | equal versions at two places of the serial order are of the same install |
| OccLocking.NeverStuck | pnvm_lib/src/occ/occ_txn.rs:28-47 | a transaction that is not done can always take a step |
| OccTransaction.TransactionOCC.TryCommit | pnvm_lib/src/occ/occ_txn.rs:28-47 | whatever the others do it ends; on success the attempt has its record and its place in the history with the tags it had, on failure nothing of it is left, and during the call another had one of its locks or a version read had changed; while nobody else moves it succeeds exactly if nobody else has a lock of its tags and all it only read is current, and then exactly its writes are stored |
| OccTransaction.TransactionOCC.Read | pnvm_lib/src/occ/occ_txn.rs:49-62 | the returned value and its version replace those of an earlier read in the tag, which keeps its write; while nobody else moves they are those of the store |
| OccTransaction.TransactionOCC.Lock | pnvm_lib/src/occ/occ_txn.rs:132-148 | it ends with the whole write set locked, or at a lock that another transaction held during the call; while nobody else moves it succeeds exactly if no other has one, however many tags share a lock |
| OccTransaction.TransactionOCC.LockTag | pnvm_lib/src/tcore.rs:281-316 | a lock is taken if and only if nobody else has it, also again |
| OccTransaction.TransactionOCC.Check | pnvm_lib/src/occ/occ_txn.rs:151-172 | it ends with every read-only tag accepted, or at one whose lock another held or whose version had changed during the call; while nobody else moves it succeeds exactly if there is none |
| OccTransaction.TransactionOCC.InstallTag | pnvm_lib/src/occ/occ_txn.rs:286-291 | while nobody else moves the value is stored and the version becomes the id, or for a delete that of the row on its bucket, and nothing else changes |
| OccTransaction.TransactionOCC.CleanUp | pnvm_lib/src/occ/occ_txn.rs:294-303 | every locked tag is released |
| OccTransaction.TransactionOCC.Abort | pnvm_lib/src/occ/occ_txn.rs:122-130 | an abort by the body leaves the transaction fresh and without a record |
| LockTheorems.CountAndMaximum | pnvm_lib/src/tcore.rs:357-407 | the reader count is the number of read locks, and outside critical sections the maximum is 0 exactly when there are none, bounds them, and is a reader's or a former reader's |
| LockTheorems.OneInside | pnvm_lib/src/tcore.rs:513-527 | at most one thread is in a critical section, and the flag says whether one is |
| LockTheorems.WritersExclude | pnvm_lib/src/tcore.rs:411-501 | two transactions never hold the write lock of an object together |
| LockTheorems.WritersExcludeReaders | pnvm_lib/src/tcore.rs:411-501 | a write lock beside which nobody else has a read lock stays so in every run in which it is kept |
| LockTheorems.GrantIsExclusiveIff | pnvm_lib/src/tcore.rs:462-496 | when granted, a write lock is exclusive if and only if nobody has a read lock or the transaction has one in its lock map |
| LockTheorems.GrantExcludesReaders | pnvm_lib/src/tcore.rs:462-496 | a write lock so granted excludes all other readers for as long as it is kept |
| LockTheorems.SafeRelockingIsExclusive | pnvm_lib/src/tcore.rs:357-510 | if no id asks for the write lock of an object on which it has released a read lock without having one again, every write lock excludes all other readers and writers |
| LockTheorems.ReadingFirstIsExclusive | pnvm/src/main.rs:129-162 | so it does when every attempt of an id takes its read locks from one list and before its write locks, however often it retries |
| LockTheorems.NeverRelockingIsExclusive | pnvm_lib/src/tcore.rs:357-510 | so it does if no id locks an object again after releasing a read lock on it |
| LockTheorems.SharedMeansReleased | pnvm_lib/src/tcore.rs:401-407 | a write lock beside another's read lock is held only by an id that has released a read lock on the object |
| LockTheorems.UpgradeKeepsReadersOut | pnvm_lib/src/tcore.rs:462-484 | while an upgrade is pending no step adds a reader or raises the count |
| LockTheorems.NoPanic | pnvm_lib/src/tcore.rs:401-527 | with locks used through the lock map, the recursive-lock panic, the reader-count and writer assertions and both `expect`s are unreachable, and the count never goes below 0 |
| LockTheorems.OnlyGatesHold | pnvm_lib/src/tcore.rs:513-527 | whoever is not spinning at the gate of a critical section can take a step |
| LockTheorems.WaitDirections | pnvm_lib/src/tcore.rs:367-395 | waits for a writer go from smaller to larger ids, waits for readers from larger to smaller |
| LockTheorems.WriterTestIff | pnvm_lib/src/tcore.rs:367-395 | at the test of the writer a request is refused if and only if there is a writer with a smaller id, waits if and only if there is one with a larger id, and else goes on |
| LockTheorems.ReaderTestIff | pnvm_lib/src/tcore.rs:444-496 | at the test of the readers a write request is refused if and only if the maximum is larger than its id, so whenever a larger id reads, and takes the lock if and only if nobody reads |
| LockTheorems.DrainTestIff | pnvm_lib/src/tcore.rs:462-484 | a pending upgrade is granted if and only if one read lock is left |
| LockTheorems.WaitCyclesAreMixed | pnvm_lib/src/tcore.rs:414-496 | every cycle of waits has a transaction that waits for a writer and one that waits for readers |
| LockTheorems.WriterWaitsEnd | pnvm_lib/src/tcore.rs:367-395 | if nobody waits for readers, every chain of waits ends at a transaction that does not wait |
| LockTheorems.ReaderWaitsEnd | pnvm_lib/src/tcore.rs:456-496 | the same if nobody waits for a writer |
| LockTheorems.OneKindOfWaitMovesOn | pnvm_lib/src/tcore.rs:414-496 | then, if anybody waits, somebody waits for a transaction that does not |
| LockExamples.ExclusionCanFail | pnvm_lib/src/tcore.rs:401-407 | a run in which a write lock is granted beside another's read lock |
| LockExamples.SerialityCanFail | pnvm_lib/src/tcore.rs:401-407 | a run whose reads no serial run in lock-completion order returns |
| LockExamples.WaitsCanDeadlock | pnvm_lib/src/tcore.rs:411-501 | a run that ends in a cycle of two waits |
| LockInvariant.RunKeepsInv | pnvm_lib/src/tcore.rs:357-527 | every step keeps the invariant behind these results |
| LockSerial.EveryRunIsSerial | pnvm_lib/src/lock/lock_txn.rs:60-155 | a run in which no attempt completed its locks with a write lock beside another's read lock is the serial run of the attempts that completed their locks, in that order: same reads, also those made while still taking locks, and same store; other attempts leave no trace |
| LockSerial.SafeRelockingIsSerial | pnvm_lib/src/tcore.rs:357-510 | so it is in every run in which no id asks for a write lock where it has released a read lock, unless it has one there again |
| LockSerial.ReadingFirstIsSerial | pnvm/src/main.rs:129-176 | so it is in every run of transactions that retry with the same lists of locks, read locks first, however often they retry |
| LockSerial.NeverRelockingIsSerial | pnvm_lib/src/tcore.rs:357-510 | so it is in every run in which no id locks an object again after releasing a read lock on it |
| LockSerial.OrderIsOfWinners | pnvm_lib/src/lock/lock_txn.rs:130-155 | the order has exactly one attempt of each transaction that completed its locks |
| LockTransaction.Transaction2PL.ReadLock | pnvm_lib/src/tcore.rs:357-397 | granted, refused or spun out under any interference, with exactly the lock map to match; refused only at a writer with a smaller id during the call; while nobody else moves the writer decides which of the three |
| LockTransaction.Transaction2PL.WriteLock | pnvm_lib/src/tcore.rs:411-501 | when granted nobody else has a write lock, and nobody else a read lock either if this one is in the map or the id never released one there; refused only at a writer with a smaller id or a maximal reader with a larger one during the call; while nobody else moves the lock word decides which of the three |
| LockTransaction.Transaction2PL.Read | pnvm_lib/src/lock/lock_txn.rs:93-98 | of a locked object, before or after the last lock: what the store holds, which the attempt keeps |
| LockTransaction.Transaction2PL.Write | pnvm_lib/src/lock/lock_txn.rs:102-106 | a write-locked object keeps the value, whatever the others do |
| LockTransaction.Transaction2PL.LockTref | pnvm_lib/src/lock/lock_txn.rs:60-78 | the lock is in the map afterwards and no other is added; one that is there already is not asked for again; refused only as above |
| LockTransaction.Transaction2PL.Unlock | pnvm_lib/src/lock/lock_txn.rs:80-89 | every lock in the map is released, certainly if nobody else moves and no gate is taken |
| LockTransaction.Transaction2PL.Abort | pnvm_lib/src/lock/lock_txn.rs:130-137 | the attempt ends without locks |
| LockTransaction.Transaction2PL.Commit | pnvm_lib/src/lock/lock_txn.rs:144-155 | a committed attempt ends without locks |
| TwoLock.SecondLockFailsIff | pnvm/src/tpcc/entry_ref.rs:747-768 | the row lock of a delete fails after its bucket lock if and only if another transaction has the row locked by a tag of the row itself |
| TwoLock.FirstLockFailsIff | pnvm_lib/src/tcore.rs:281-316 | the first lock of a tag fails if and only if another transaction has it by a tag or has left it locked, and else can be taken, also again |
| TwoLock.SecondLockSucceeds | pnvm/src/tpcc/entry_ref.rs:747-768 | so it never fails if rows are locked only by deletes |
| TwoLock.RowOwnerOwnsBucket | pnvm/src/tpcc/entry_ref.rs:747-793 | then the owner of a row owns its bucket |
| TwoLock.NothingLeftBehind | pnvm/src/tpcc/entry_ref.rs:770-793 | then a transaction that is done releasing owns no lock |
| TwoLock.LeftBehind | pnvm/src/tpcc/entry_ref.rs:747-793 | in general it still holds exactly the bucket lock of the delete whose row lock failed |
| TwoLock.OwnsWhatIsLeft | pnvm/src/tpcc/entry_ref.rs:747-793 | between attempts a transaction owns exactly the locks so left behind, with their number as count |
| TwoLock.LeakStays | pnvm/src/tpcc/entry_ref.rs:752-760 | such a bucket stays locked in every continuation, through all retries under the same id |
| TwoLock.CountIsTags | pnvm_lib/src/tcore.rs:281-316 | a bucket's count is the number of its owner's pushes and deletes in it and of locks left behind |
| TwoLockLeak.LeakIsPossible | pnvm/src/tpcc/entry_ref.rs:747-768 | a run in which a row locked by itself makes a delete leave its bucket locked |
| NewOrders.AppendingLists | pnvm/src/tpcc/tpcc_tables.rs:192-209 | a push keeps the queue right if and only if the key was not live, and ascending if its id is the largest |
| NewOrders.RemovalLists | pnvm/src/tpcc/tpcc_tables.rs:296-319 | a delete keeps the queue right, whether or not the key is still live |
| NewOrders.NewOrderTable.InstallPush | pnvm/src/tpcc/entry_ref.rs:704-714 | the row becomes live and last in its queue; index and table agree exactly if it was not live |
| NewOrders.NewOrderTable.PushRaw | pnvm/src/tpcc/tpcc_tables.rs:192-200 | the same while loading, with the queue locked across both halves and released after; other rows and queues stay |
| NewOrders.NewOrderTable.DeleteIndex | pnvm/src/tpcc/tpcc_tables.rs:296-319 | the key leaves its queue, or is reported missing; fails only if the district never had a row |
| NewOrders.NewOrderTable.InstallDelete | pnvm/src/tpcc/entry_ref.rs:715-726 | the key is no longer live and index and table agree, also on a second delete |
| NewOrders.NewOrderTable.RetrieveMinOid | pnvm/src/tpcc/tpcc_tables.rs:227-252 | the row of the head of the district's queue, so a live row of the district if there is one, and the one with the least order id when ids were pushed in order |
| OrderLines.ScanIsExactly | pnvm/src/tpcc/tpcc_tables.rs:438-474 | the scan has exactly the lines of the district with order id in the interval |
| OrderLines.ScanAscends | pnvm/src/tpcc/tpcc_tables.rs:445-453 | it is grouped by ascending order id |
| OrderLines.ScanInPlace | pnvm/src/tpcc/tpcc_tables.rs:438-474 | the scan is the rows of the district in the interval, one place of the table each, by ascending order id, and as pushed within an order |
| OrderLines.PlacesDecide | pnvm/src/tpcc/tpcc_tables.rs:438-474 | only one sequence of rows is that |
| OrderLines.ScanCounts | pnvm/src/tpcc/tpcc_tables.rs:438-474 | it has each of these rows as often as the table does, and no other |
| OrderLines.LinesAreExactly | pnvm/src/tpcc/tpcc_tables.rs:417-435 | the lines of an order are exactly its rows |
| OrderLines.LinesInPlace | pnvm/src/tpcc/tpcc_tables.rs:417-435 | they are in the order in which they were pushed, once each |
| OrderLines.LatestIsOnly | pnvm/src/tpcc/table.rs:677-700 | as long as no key is pushed twice, the row the index has for a key is its only one |
| OrderLines.OrderLineTable.FindRange | pnvm/src/tpcc/tpcc_tables.rs:438-474 | for every row of the scan the query through the index returns the last row pushed with its key, in scan order, so exactly the scan when no key was pushed twice; all spin locks are released |
| OrderLines.OrderLineTable.FindByOid | pnvm/src/tpcc/tpcc_tables.rs:417-435 | the same for the lines of one order, in push order |
| OrderLines.OrderLineTable.InstallPush | pnvm/src/tpcc/entry_ref.rs:1096-1108 | any line, its key stored or not, is appended to the table and the index agrees again; keys stay unique if and only if this one was not stored |
| OrderLines.OrderLineTable.PushRaw | pnvm/src/tpcc/tpcc_tables.rs:378-385 | the same while loading |
| Tables.Bucket.Push | pnvm/src/tpcc/table.rs:677-700 | the row is appended and found by its key; other keys keep their rows |
| Tables.Bucket.Delete | pnvm/src/tpcc/table.rs:702-712 | the key is gone from the index, the rows stay |
| Tables.Bucket.Retrieve | pnvm/src/tpcc/table.rs:813-827 | the row of a live key, and the index never points outside the rows |
| Tables.SecIndex.InsertIndex | pnvm/src/tpcc/table.rs:86-162 | the value is last in its queue, no other queue changes, and the lock is left taken |
| Tables.SecIndex.FindOneBucket | pnvm/src/tpcc/table.rs:94-166 | the queue of a key, with the lock left taken |
| PmemMap.PlaceOfRow | pnvm/src/tpcc/table.rs:793-810 | every place of a chunk is the place of the row that the arithmetic gives |
| PmemMap.InsideChunk | pnvm/src/tpcc/table.rs:793-810 | every row's offset is inside its chunk |
| PmemMap.BelowCapacity | pnvm/src/tpcc/table.rs:746-791 | the rows below the capacity are exactly those in the chunks mapped so far |
| PmemMap.PmemBucket.AddressesDiffer | pnvm/src/tpcc/table.rs:793-810 | distinct rows have distinct addresses, inside their regions |
| PmemMap.PmemBucket.ChunkId | pnvm/src/tpcc/table.rs:793-802 | the shift loop ends with the bit length of the page number |
| PmemMap.PmemBucket.Grow | pnvm/src/tpcc/table.rs:746-791 | the capacity doubles, earlier chunks stay, and the 17th root is out of bounds |
| PmemMap.PmemBucket.GetPmemAddr | pnvm/src/tpcc/table.rs:746-811 | capacity stays per-size times 2^roots, no earlier address moves, and the result is null exactly for a row that one doubling does not reach |
| PmemMap.PmemBucket.NextAddr | pnvm/src/tpcc/table.rs:741-811 | successive rows get distinct places inside their chunks, up to exactly 2^15 times the first capacity |
| TidFac.IdsAreDistinct | pnvm_lib/src/txn.rs:164-195 | over any interleaving of threads with distinct byte masks and in-range counters, ids are distinct and not zero |
| TidFac.IdIs | pnvm_lib/src/txn.rs:190-194 | in range an id is the mask in the top byte and the counter below it |
| TidFac.IdsCollideIff | pnvm_lib/src/txn.rs:190-194 | for any counters two ids are equal if and only if the counters agree below the tag and in what they add to the masks |
| TidFac.CallsCollideIff | pnvm_lib/src/txn.rs:164-195 | exactly which calls of an interleaving return the same id, in range or not |
| TidFac.IdsRecur | pnvm_lib/src/txn.rs:190-194 | one lap beyond the range a thread gives its own ids again if its mask is odd, and those of the next thread if it is even |
| TidFac.Factory.GetNext | pnvm_lib/src/txn.rs:190-194 | while in range the id is new for this thread, is not zero and carries its mask |
| Numerics.PrintThenParse | pnvm/src/tpcc/numeric.rs:24-73 | parsing a printed decimal truncates it towards zero to whole units if the whole part fits, and fails otherwise |
| Numerics.ShowIsRead | pnvm/src/tpcc/numeric.rs:71-73 | the digits printed stand for the number printed |
| Numerics.DigitsAre | pnvm/src/tpcc/numeric.rs:40-41 | the characters that count as digits, what each stands for, and that it prints so |
| Numerics.ValueAppend | pnvm/src/tpcc/numeric.rs:42-42 | digits before others count ten times as much for each of these |
| Numerics.DecimalIsRead | pnvm/src/tpcc/numeric.rs:24-69 | every decimal `whole.frac` with a sign and zeros at the end is read as whole units plus fraction, if both fit, and refused otherwise; so is `whole` |
| Numerics.OnlyDecimalsAreRead | pnvm/src/tpcc/numeric.rs:24-69 | nothing else is read |
| Numerics.FromStr | pnvm/src/tpcc/numeric.rs:24-69 | the loops compute the value of `whole.frac` without zeros at the end, or refuse |

## Left out

- PipeMachine: objects are rows under read-write tags that exist from the start; pushes and deletes inside a piece keep their access info on the new row, not on the bucket, so two inserts into one bucket do not follow each other.
- PipeMachine: values, undo logs and the outcome of read validation; the results hold for either outcome.
- PipeTransaction: the loop that retries a piece and waits without end; a wait is given a number of polls, a piece one attempt at a time.
- PipeInstall.InstallOrderIsCommitOrder: claims nothing across an install that found a reader's access info, where it is false (`PipeReadOnly.ReaderHidesWriter`), nor across a transaction that gave up.
- PipeWaits.CommitAndPersistAreClosed: recorded dependencies only; those already committed but not yet durable when scanned are never recorded.
- PipeWaits.NoDeadlock: progress of the waits, not termination; pieces that keep failing to lock may be retried for ever.
- OccTheorems.UpdateIsSerial: one direction for values, because different writes can store the same value; `SkippedTestDecides` is exact for versions.
- OccMachine: field-wise flushes and torn row writes, phantoms, and memory orderings weaker than sequential consistency.
- OccMachine: the log write of `do_log` and the data writes of a commit are one step for each object, and the log is durable when written.
- OccTransaction: the loop around `try_commit`; one attempt at a time.
- LockTransaction.Transaction2PL.WriteLock: one limit for all rounds; the original counts waits for readers to half of it.
- LockMachine: logging and persistence of a two-phase-locking commit.
- TwoLock: values, and the spin of other transactions at a leaked bucket.
- NewOrders.NewOrderTable.InstallPush: sequential callers; versions of rows and buckets are in the optimistic model.
- OccVersions.VersionNeverReturns: rows only; the version of a bucket is set but validated by nothing.
- PmemMap: concurrent growth (the losing exchange and its unmap), failing maps, and the contents of regions.
- TidFac.Factory.GetNext: the counter wraps where a debug build would stop.
- Numerics.FromStr: starts from the trimmed, non-empty string; 64-bit overflow of the value is not modelled.
- Customer, order, item and stock tables, YCSB, workload bodies, counters and configuration: same structures, no further protocol.
- `nvm_txn_raw.rs` runs the pipeline protocol by hand, `nvm_txn_2pl.rs` and `map.rs` give no pipeline guarantee.
- `Numeric` arithmetic and comparison, `PmemFac` allocation bounds, and the `smallpc` pieces, whose ranks repeat.
