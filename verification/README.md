# Concurrency models

Models of two groups of concurrent programs and proofs about every run of them: a time-based software
transactional memory with its epoch collector, and mutual-exclusion protocols and lock-free structures. `dafny
verify dfyconfig.toml` checks everything.

Every model is a state machine over any number of threads or nodes. A step is one atomic access (or one
rendezvous on a channel, or one section under a mutex); any thread may take the next step, so a theorem about
`Reachable(s)`, or about `Exec(s, run)`, is a theorem about every interleaving. Beside each machine stands a class,
the program in its own form, with fields, arrays and node objects updated in place. Its constructor establishes
`Initial`, and its methods make every step of the machine (`Step`, or one method for each kind of step), each proved
equal to `Next` on the abstract state; so every run of the class is a run of the machine. `UndoLog.Transaction` and
`EpochGc.Slots` are the loops of two files by themselves. Recorded components (queues, tickets without wrap-around,
histories, visits) only record: no branch looks at them. They are ghost fields where they stand alone, and ordinary
ones where they are part of a descriptor.

## The transactional memory

`CommitHistory` is the specification that the three designs share: a list of timestamps, each pending, committed
with its write set, or aborted, and the sequence of memories that the committed write sets produce. `Replay` runs
the operations of a transaction alone on one such memory.

- Commit-time locking (`Ctl*`, stm_wbctl.h). `CtlMachine` has one step per access, and an arbitrary map from words to
  locks, so that many words may share a lock. `CtlInvariant` states the invariant, `CtlProof` to `CtlInstall` show
  that each kind of step keeps it, `CtlTheorems` draws the conclusions, `CtlProgram` holds the class.
- Encounter-time locking (`Etl*`), write-back (stm_wbetl.h) and write-through (stm_wt.h) in one machine with a
  `design` flag. In these designs a read under a lock that the transaction owns is not checked against `end`, so
  snapshot consistency is claimed for the other reads, and serializability for everything that commits.
- `Requests`, `CtlCommands` and `EtlCommands` tie the machines to the programs that use them. A schedule gives with each
  turn what the thread's program asks for; the attempt of a thread is read off the schedule. The logs and records are
  shown to be those requests and no others, a commit to be recorded and an abort to leave nothing. `CtlAlone` and
  `EtlAlone` show the other half: what is asked for gets done. A transaction with current reads that runs while the
  others are idle extends its snapshot, validates, commits, and leaves what its stores say; and an attempt is given up
  only for the listed reasons. `CtlProgress` and `EtlProgress` show that no thread is ever stuck in an operation.
- `UndoLog` is the write-through undo log by itself, with empty masks. A store through `prev` is recorded in the
  head entry `w` when the head's mask is 0 (stm_wt.h:320-331). `WriteRollsBack` says for which stores the rollback
  still brings the same memory back; `RollbackRestoresIffUnspoilt` says for every sequence of stores that the memory
  is restored if and only if no store is of the other kind; `SpoiltExample` is a family of runs in which one is.
  Stores with non-empty masks, all that `int_stm_store` makes, are always undone.
- `LockWords` is the arithmetic of the lock words; `ClockBarrier` the barrier at which the clock is reset.
- `CtlClock`, `EtlClock` and `EtlRuns` say how far the clock gets, in the machines themselves. With n threads it stays
  below VERSION_MAX + n in the write-back designs, where an attempt takes one timestamp, and below VERSION_MAX + 2n in
  the write-through design, where the rollback of a failed commit may take another (stm_wt.h:134-137 and 540). Runs
  are given that reach VERSION_MAX - 1 + n, and, in the write-through design from two threads on (and VERSION_MAX at
  least 2), VERSION_MAX - 1 + 2n: every thread fails at its commit because of a word it has read, with the
  incarnations of its lock used up. One thread alone stays at VERSION_MAX in either design, and gets there. The
  comments at stm_wt.h:135 and 539 promise VERSION_MAX + MAX_THREADS, which more than MAX_THREADS / 2 threads can
  exceed. Timestamps fit a lock word in all runs if and only if there are at most MAX_THREADS + 1 threads in the
  write-back designs, or MAX_THREADS / 2 in the write-through design.
- `CtlReset` and `EtlReset` put each machine and the barrier together, with `rollover_clock` as a step. A reset comes
  only when no transaction is active; memory is then in an initial state again, so that every theorem about reachable
  states holds after any number of resets; and the histories before and after it join, which gives serializability
  throughout. `Covers` shows that the barrier excludes no run of the machine, and `ResetHappens` that resets occur.
- `BarrierRuns` shows that whoever is registered can get through the barrier and begin an attempt.
- `EpochGc` is the collector: slots claimed and given back, a scan that is not atomic, regions of freed blocks.
  `EpochRuns` says what its operations come to: the bound of a scan is attained, a clean-up leaves exactly what is not
  older, no block is lost or reclaimed twice, and a thread that is allowed in finds a slot.

## Mutual exclusion and lock-free structures

`FastMutex`, `Bakery`, `McsLock`, `ClhLock`, `TicketRwLock`, `DrepperMutex`, `TaggedStack`, `RicartAgrawala`,
`TokenPassing` and `NeilsenMizuno` are one program each.

Beside safety, each lock is shown to let threads in: a thread by itself gets in and out in a given number of accesses,
and from every reachable state some schedule lets somebody in, in most locks the waiting thread itself. `StackRuns` does
the same for the operations and rounds of the stack. `RicartAgrawalaRuns`, `TokenPassingRuns` and `NeilsenMizunoRuns`
show that every run of these programs ends, and that at its end every node has been in its critical section in each of
its rounds.

`NeilsenMizunoStar` is about deadlock. A goroutine of the Neilsen-Mizuno program keeps its node's mutex while it
waits for a channel. Whether that can block for ever depends on the initial tree: it cannot if and only if the tree is
a star (`DeadlockFreeIffStar`). The program's tree is one. With four nodes in a row u - p - h - y and the token in use
at h, the node p asks h and waits, holding its mutex; u asks p, whose receiver takes the request and waits for the
mutex; y asks h, whose receiver takes h's mutex and waits for p's receiver; and h cannot unlock.

## Model

| member | source | states |
|---|---|---|
| CtlTheorems.NextInv | transactional/tinySTM/src/stm_wbctl.h:29-469 | every access of every thread keeps the invariant that ties locks, versions, memory, read sets, write sets and timestamps together |
| CtlTheorems.Opacity | transactional/tinySTM/src/stm_wbctl.h:138-233 | at every moment everything a transaction, doomed or not, has read and written could have happened alone on the committed memory of its `end`, which lies between its start and now |
| CtlTheorems.Serializable | transactional/tinySTM/src/stm_wbctl.h:360-469 | the memory of timestamp t is the result of running the t-th transaction alone on the memory of t-1, and a transaction's timestamp is later than its start |
| CtlTheorems.WriteFree | transactional/tinySTM/src/stm_internal.h:1358-1440 | a write-free transaction takes effect at `end`, which lies between its start and its commit |
| CtlTheorems.MemoryIsCommitted | transactional/tinySTM/src/stm_wbctl.h:453-465 | a word whose lock is free, or any word while nobody writes back, is the last committed memory |
| CtlTheorems.ReleaseComplete | transactional/tinySTM/src/stm_wbctl.h:453-465 | the entry that is not `no_drop` still owns its lock when it releases it, and every word under the lock, whatever address it is, is then the last committed memory |
| CtlTheorems.NoLockLeft | transactional/tinySTM/src/stm_wbctl.h:113-136 | a lock is held only by a transaction that is committing or rolling back |
| CtlTheorems.RolloverStartsAfresh | transactional/tinySTM/src/stm_internal.h:664-680 | when no transaction is active, zeroing the clock and the lock array leads to an initial state that keeps the last committed memory |
| Requests.LegalResult | transactional/tinySTM/src/stm_internal.h:1456-1484 | a log that is legal and answers the requests leaves in every word what the stores asked for make of it, and every load has returned what the stores before it made of its word |
| CtlCommands.RunInTune | transactional/tinySTM/src/stm_internal.h:1456-1484 | over every run, what a thread has done and is doing in an attempt is exactly what its program has asked for since it began, in that order: the loads and stores with their addresses, values and masks, and commit or abort as told |
| CtlCommands.RecordsAsked | transactional/tinySTM/src/stm_internal.h:1358-1440 | whatever is on record, with a timestamp or without, is an attempt that the program has told to commit, with exactly the loads and stores asked for in it |
| CtlCommands.CommitStands | transactional/tinySTM/src/stm_wbctl.h:434-469 | a commit that has passed its validation is on record as committed, with the requests of its program, and stays so in whatever run follows |
| CtlCommands.AbortOnlyReleases | transactional/tinySTM/src/stm_wbctl.h:113-136 | while the last thing its program has asked for is to abort, a thread writes to no word, takes no timestamp, records nothing, and changes locks only from held to free |
| CtlCommands.AbortLeavesNothing | transactional/tinySTM/src/stm.c:386-399 | from an abort until the next beginning no attempt of the thread is put on record or becomes committed, whatever others do, and once it is idle it holds no lock |
| CtlAlone.RunsUndisturbed | transactional/tinySTM/src/stm_wbctl.h:138-469 | from any reachable state with all threads idle, a transaction that begins, makes any loads and stores and commits by itself is on record, leaves in every word what its stores make of it, and has read its own writes on top of memory |
| CtlAlone.CommitsUndisturbed | transactional/tinySTM/src/stm_wbctl.h:85-111 | a transaction under way whose read set is still valid, with all others idle, is not given up: it makes further accesses, extends its snapshot where it has to, passes validation and commits |
| CtlAlone.RollsBack | transactional/tinySTM/src/stm_wbctl.h:113-136 | a rollback ends after at most as many accesses as there are entries left, with memory as it was and no lock held |
| CtlAlone.ValidIffUnchanged | transactional/tinySTM/src/stm_wbctl.h:29-80 | a read entry fails validation if and only if its lock is another thread's or has been released with another version |
| CtlAlone.GivesUpOnlyFor | transactional/tinySTM/src/stm_wbctl.h:138-452 | no attempt of any run ends without a commit but for the reasons listed: told to, a lock held by another thread, a read that has changed, a newer version that cannot be accepted, or the clock at its end |
| CtlProgress.Closes | transactional/tinySTM/src/stm_wbctl.h:360-469 | from every reachable state a thread that is committing or rolling back gets to the end by itself, with a bound on its accesses, whatever locks the others hold |
| CtlProgress.OperationPossible | transactional/tinySTM/src/stm_wbctl.h:138-315 | no load or store is blocked for ever: some schedule, in which nobody is asked for anything new, takes a thread to its program's next command or to the end of its attempt |
| CtlClock.ClockIsBounded | transactional/tinySTM/src/stm_wbctl.h:434-435 | in every run of n threads the clock stays below VERSION_MAX + n |
| CtlClock.ClockReachesBound | transactional/tinySTM/src/stm_wbctl.h:434-435 | for every n, a run of the machine that brings the clock to VERSION_MAX - 1 + n |
| CtlClock.TimestampsFit | transactional/tinySTM/src/stm_internal.h:193-210 | no timestamp of any run loses a bit in a lock word if and only if there are at most MAX_THREADS + 1 threads |
| CtlReset.StaysReachable | transactional/tinySTM/src/stm_internal.h:532-562 | after any number of resets the memory is in a reachable state of the design, so that its theorems hold, and the clock keeps its bound |
| CtlReset.ResetIsAlone | transactional/tinySTM/src/stm_internal.h:532-562 | when the clock is reset, no transaction is active, and memory stays as it is |
| CtlReset.SerializableThroughout | transactional/tinySTM/src/stm_internal.h:664-680 | every history is serializable in timestamp order, and each begins with the memory that the one before a reset ended with |
| CtlReset.Covers | transactional/tinySTM/src/stm_internal.h:890-918 | every reachable state of the design is reachable with the barrier around it |
| CtlReset.ResetHappens | transactional/tinySTM/src/stm_internal.h:890-918 | for every VERSION_MAX, a run that commits so many transactions and then resets the clock |
| CtlProof.ValidIsQuiet | transactional/tinySTM/src/stm_wbctl.h:29-80 | a read entry that validates has had no commit under its lock since its version, up to now or up to the validator's own timestamp, also when the lock is its own |
| CtlTimestamp.ReadsHoldAtCommit | transactional/tinySTM/src/stm_wbctl.h:434-447 | after validation, or without it when `start == t-1`, everything read is the memory of t-1 |
| CtlInstall.LastUnderLock | transactional/tinySTM/src/stm_wbctl.h:370-410 | because locks are acquired in reverse order, the entry that drops a lock is the last entry under it |
| CtlInstall.UndoInRange | transactional/tinySTM/src/stm_wbctl.h:113-136 | the rollback loop, which stops when all acquired locks are released, never runs off the write set |
| CommitHistory.FoldWrite | transactional/tinySTM/src/stm_wbctl.h:257-262 | folding a store into an existing entry has the effect of both stores on any memory, and addresses stay distinct |
| CommitHistory.ValueQuiet | transactional/tinySTM/src/stm_wbctl.h:85-111 | a word keeps its committed value over timestamps without a commit under its lock, which is what makes snapshot extension sound |
| CommitHistory.RunsAlone | transactional/tinySTM/src/stm_wbctl.h:138-233 | a transaction whose every read saw one committed memory can be replayed alone on it, with its combined write effect as result |
| CtlProgram.Stm.Step | transactional/tinySTM/src/stm_wbctl.h:29-469 | in the class with memory, locks and descriptors updated in place, an access keeps the invariant and is the machine's step |
| CtlProgram.Stm.Access | transactional/tinySTM/src/stm_wbctl.h:29-469 | which method an access is, and that nothing but its own descriptor and the accessed cell changes |
| CtlProgram.Stm.Rollover | transactional/tinySTM/src/stm_internal.h:664-680 | the loop over the lock array, and the state that it leads to is initial |
| CtlProgram.Stm.HasWritten | transactional/tinySTM/src/stm_internal.h:708-733 | finds the entry for an address |
| CtlProgram.Stm.HasReadUnder | transactional/tinySTM/src/stm_internal.h:682-702 | says whether a lock is in the read set |
| EtlTheorems.NextInv | transactional/tinySTM/src/stm_wbetl.h:38-943 | every access of every thread keeps the invariant, in both encounter-time designs |
| EtlTheorems.UnlockedReadsAgree | transactional/tinySTM/src/stm_wbetl.h:164-399 | what any transaction, doomed or not, has read from unlocked words is the memory of its `end`, and if it has read nothing else it could have run alone on it |
| EtlTheorems.OwnReadsAreNewest | transactional/tinySTM/src/stm_wbetl.h:196-219 | what is read under an own lock is the newest committed memory with the transaction's own writes on top |
| EtlTheorems.Serializable | transactional/tinySTM/src/stm_wbetl.h:902-939 | committed update transactions are equivalent to running one after another in timestamp order, after their start |
| EtlTheorems.WriteFree | transactional/tinySTM/src/stm_internal.h:1358-1440 | a write-free transaction takes effect at `end`, between its start and its commit |
| EtlTheorems.FreeWordsAreCommitted | transactional/tinySTM/src/stm_wt.h:282-443 | a word whose lock is free is the last committed memory although it may have been written in place by transactions that aborted |
| EtlTheorems.AgreedReadIsCommitted | transactional/tinySTM/src/stm_wt.h:187-226 | a value loaded between two equal loads of the lock word is committed, in place writes notwithstanding |
| EtlTheorems.StampsIncrease | transactional/tinySTM/src/stm_wt.h:109-146 | over any run, a lock that has been taken is next free with a strictly later timestamp or incarnation, so that no unlocked value comes back |
| EtlTheorems.RollbackRestores | transactional/tinySTM/src/stm_wt.h:109-146 | when the rollback releases a lock, every word under it is what it was when the lock was taken, and that is the last committed memory |
| EtlTheorems.ReleaseComplete | transactional/tinySTM/src/stm_wbetl.h:924-939 | the commit releases a lock at the last entry under it, owning it still, with every word under it written |
| EtlTheorems.NoLockLeft | transactional/tinySTM/src/stm_wbetl.h:118-159 | a held lock belongs to a transaction that is not over and has still an entry under it to release |
| EtlTheorems.RolloverStartsAfresh | transactional/tinySTM/src/stm_internal.h:664-680 | the same in the encounter-time designs, with memory written in place |
| EtlCommands.RunInTune | transactional/tinySTM/src/stm_internal.h:1456-1484 | the same in both encounter-time designs, whose stores go through the compare-and-swap of the lock, the load and the store of the word |
| EtlCommands.RecordsAsked | transactional/tinySTM/src/stm_internal.h:1358-1440 | whatever is on record and not aborted is an attempt that the program has told to commit, with exactly the loads and stores asked for in it |
| EtlCommands.CommitStands | transactional/tinySTM/src/stm_wbetl.h:902-939 | a commit that has passed its validation is on record as committed, with the requests of its program, and stays so |
| EtlCommands.AbortOnlyRestores | transactional/tinySTM/src/stm_wt.h:109-146 | while the last thing its program has asked for is to abort, a thread only releases locks, puts words back to what was committed last, and at most uses up a timestamp |
| EtlCommands.AbortLeavesNothing | transactional/tinySTM/src/stm.c:386-399 | from an abort until the next beginning no attempt of the thread is put on record, but for timestamps used up, or becomes committed, and once it is idle it holds no lock |
| EtlAlone.RunsUndisturbed | transactional/tinySTM/src/stm_wbetl.h:164-943 | in both designs, from any reachable state with all threads idle: a transaction by itself, for which the write set has room, is on record, leaves in every word what its stores make of it, and has read its own writes on top of memory |
| EtlAlone.CommitsUndisturbed | transactional/tinySTM/src/stm_wbetl.h:91-115 | in both designs a transaction under way whose read set is still valid, with all others idle and room in the write set, is not given up and commits what its program asks for |
| EtlAlone.RollsBack | transactional/tinySTM/src/stm_wt.h:109-146 | a rollback ends, with a bound on its accesses, and then the thread holds no lock |
| EtlAlone.ValidIffUnchanged | transactional/tinySTM/src/stm_wbetl.h:38-85 | a read entry fails validation if and only if its lock is another thread's or is free with another version |
| EtlAlone.GivesUpOnlyFor | transactional/tinySTM/src/stm_wt.h:148-506 | no attempt of any run ends without a commit but for the reasons listed, a full write set among them |
| EtlProgress.NeverWaits | transactional/tinySTM/src/stm_wbetl.h:164-943 | from every reachable state a thread by itself gets to its program's next command, or to the end of its attempt, with a bound on its accesses, whatever locks the others hold |
| EtlProgress.RoomDoubles | transactional/tinySTM/src/stm_wbetl.h:742-743 | when nothing but a full write set stops a store, the next attempt has room for twice as many entries |
| EtlClock.ClockIsBounded | transactional/tinySTM/src/stm_wt.h:109-146 | in every run of n threads the clock stays below VERSION_MAX + n in the write-back design, VERSION_MAX + 2n in the write-through design |
| EtlClock.LoneClock | transactional/tinySTM/src/stm_wt.h:507-573 | a thread alone never takes the clock beyond VERSION_MAX: its commit needs no validation, so that it takes one timestamp or its rollback does |
| EtlRuns.BackReachesBound | transactional/tinySTM/src/stm_wbetl.h:902-903 | for every n, a write-back run that brings the clock to VERSION_MAX - 1 + n |
| EtlRuns.ThroughReachesBound | transactional/tinySTM/src/stm_wt.h:109-146 | for every n from 2 on, a write-through run that brings the clock to VERSION_MAX - 1 + 2n, each thread taking one timestamp for its commit and one for its rollback |
| EtlRuns.LoneReachesMax | transactional/tinySTM/src/stm_wt.h:507-573 | a run of one thread that reaches VERSION_MAX |
| EtlRuns.TimestampsFit | transactional/tinySTM/src/stm_internal.h:193-210 | no timestamp of any run loses a bit in a lock word if and only if there are at most MAX_THREADS + 1 threads, or MAX_THREADS / 2 in the write-through design |
| EtlReset.StaysReachable | transactional/tinySTM/src/stm_internal.h:532-562 | after any number of resets the memory is in a reachable state of its design, so that the theorems hold, and the clock keeps its bound |
| EtlReset.ResetIsAlone | transactional/tinySTM/src/stm_internal.h:532-562 | when the clock is reset, no transaction is active, and memory stays as it is |
| EtlReset.SerializableThroughout | transactional/tinySTM/src/stm_internal.h:664-680 | every history is serializable in timestamp order, and each begins with the memory that the one before a reset ended with |
| EtlReset.Covers | transactional/tinySTM/src/stm_internal.h:890-918 | every reachable state of the designs is reachable with the barrier around it |
| EtlReset.ResetHappens | transactional/tinySTM/src/stm_internal.h:890-918 | for every VERSION_MAX, a run that commits so many transactions and then resets the clock |
| EtlProof.ValidIsQuiet | transactional/tinySTM/src/stm_wbetl.h:38-85 | taking own locks as valid is sound: nothing has been committed under them since the version that was read |
| EtlCommit.ReadsHoldAtCommit | transactional/tinySTM/src/stm_wbetl.h:902-921 | after validation, or without it when `start == t-1`, everything read from unlocked words is the memory of t-1 |
| EtlChains.ChainFindComplete | transactional/tinySTM/src/stm_wbetl.h:610-629 | the walk over the `next` chain misses no entry for the address |
| EtlChains.ChainLastIsLast | transactional/tinySTM/src/stm_wbetl.h:750-771 | a new entry is linked to the last entry under the same lock |
| EtlProgram.Stm.Step | transactional/tinySTM/src/stm_wbetl.h:38-943 | in the class with memory, locks and descriptors updated in place, an access keeps the invariant and is the machine's step |
| EtlProgram.Stm.Access | transactional/tinySTM/src/stm_wt.h:29-573 | which method an access is, and that nothing but its own descriptor and the accessed cell changes |
| EtlProgram.Stm.Rollover | transactional/tinySTM/src/stm_internal.h:664-680 | the loop over the lock array, and the state that it leads to is initial |
| EtlProgram.Stm.Walk | transactional/tinySTM/src/stm_wbetl.h:610-629 | finds the entry for an address in a chain |
| EtlProgram.Stm.WalkToEnd | transactional/tinySTM/src/stm_wbetl.h:610-629 | finds the end of a chain |
| UndoLog.WriteRollsBack | transactional/tinySTM/src/stm_wt.h:310-346 | a store leaves what the rollback brings back unchanged if and only if it is not one that `Spoils` |
| UndoLog.RollbackRestores | transactional/tinySTM/src/stm_internal.h:1474-1478 | stores with non-empty masks are undone exactly |
| UndoLog.RollbackRestoresIffUnspoilt | transactional/tinySTM/src/stm_wt.h:109-127 | for every sequence of stores: the rollback restores the memory if and only if none of them, in the state it meets, is one that `Spoils` |
| UndoLog.SpoiltExample | transactional/tinySTM/src/stm_wt.h:320-331 | for all values: a take with an empty mask and two stores to another word leave the first word wrong, unless the values happen to agree |
| UndoLog.Transaction.Store | transactional/tinySTM/src/stm_wt.h:310-346 | the store on the array and the log, as it is |
| UndoLog.Transaction.Rollback | transactional/tinySTM/src/stm_wt.h:117-127 | the loop that restores the array |
| LockWords.TimestampFits | transactional/tinySTM/src/stm_internal.h:193-210 | a timestamp survives the shift if and only if it exceeds VERSION_MAX by no more than MAX_THREADS |
| LockWords.IncarnationUpdates | transactional/tinySTM/src/stm_internal.h:211-213 | changing the incarnation leaves timestamp and owned bit, and writing back the same one changes nothing |
| LockWords.WordOrder | transactional/tinySTM/src/stm_internal.h:193-213 | free lock words are ordered as pairs of timestamp and incarnation |
| ClockBarrier.ClockIsBounded | transactional/tinySTM/src/stm_internal.h:890-918 | if no attempt takes more than `most` timestamps, the clock stays below VERSION_MAX plus `most` for each thread, resets included |
| ClockBarrier.RolloverIsAlone | transactional/tinySTM/src/stm_internal.h:532-562 | the clock goes back only when every registered thread is inside the barrier; then everybody is released |
| ClockBarrier.BarrierNotStuck | transactional/tinySTM/src/stm_internal.h:532-562 | whoever waits at the barrier waits for a registered thread outside it, or for one that is awake |
| BarrierRuns.ResetComes | transactional/tinySTM/src/stm_internal.h:532-562 | with the clock at its end, some schedule in which nobody comes or goes takes every thread to the barrier, resets the clock, and lets a given thread go |
| BarrierRuns.CanBegin | transactional/tinySTM/src/stm_internal.h:890-918 | from every reachable state every registered thread can begin an attempt, by way of a reset if need be, without spurious wake-ups |
| ClockBarrier.Registry.Enter | transactional/tinySTM/src/stm_internal.h:532-562 | the barrier from its beginning |
| ClockBarrier.Registry.Loop | transactional/tinySTM/src/stm_internal.h:545-559 | its loop each time the thread has the mutex |
| ClockBarrier.Registry.Start | transactional/tinySTM/src/stm_internal.h:911-918 | the reading of the clock that decides between running and the barrier |
| EpochGc.BoundHoldsForever | transactional/tinySTM/src/gc.c:121-152 | the result of the scan stays at or below the epoch of every slot and of every running transaction, whatever happens afterwards |
| EpochGc.ReclaimIsSafe | transactional/tinySTM/src/gc.c:188-210 | no transaction that was running when a block was freed is running when it is reclaimed |
| EpochGc.SlotsFormPrefix | transactional/tinySTM/src/gc.c:262-294 | slots that are or have been in use form a prefix |
| EpochGc.RegionsInOrder | transactional/tinySTM/src/gc.c:337-375 | the regions of a slot are strictly ordered by epoch and none is from the future |
| EpochGc.FreeAsserts | transactional/tinySTM/src/gc.c:345-362 | the assertion in `gc_free` holds |
| EpochGc.ClaimAsserts | transactional/tinySTM/src/gc.c:276-287 | the assertion in `gc_init_thread` holds |
| EpochRuns.BoundAttained | transactional/tinySTM/src/gc.c:121-152 | over every run, the bound a scan has found is the clock read at the start of the clean-up, or the epoch that a slot in use held at a later moment of the same scan |
| EpochRuns.CleansAlone | transactional/tinySTM/src/gc.c:121-210 | when the slots stand still, a clean-up by itself finds the least of the clock and the epochs in use, and leaves exactly the regions that are not older |
| EpochRuns.FreesAlone | transactional/tinySTM/src/gc.c:337-375 | a block freed while the slots stand still joins the region of the present epoch, and the regions older than every epoch in use go |
| EpochRuns.BlocksConserved | transactional/tinySTM/src/gc.c:188-210 | over every run, a block that has been freed is with the thread that frees it, in one region of one slot, or reclaimed, and only once |
| EpochRuns.EpochIsStart | transactional/tinySTM/src/gc.c:318-332 | while a transaction runs, its thread's slot holds that transaction's own start time |
| EpochRuns.SlotAvailable | transactional/tinySTM/src/gc.c:262-294 | a thread that is allowed in finds a slot that nobody uses |
| EpochRuns.EntersAlone | transactional/tinySTM/src/gc.c:262-294 | a thread that comes while nobody else moves gets the first free slot, with the present epoch, and keeps what the slot holds from its last owner |
| EpochRuns.BeginsAlone | transactional/tinySTM/src/gc.c:318-332 | a transaction that begins makes the present clock its thread's epoch |
| EpochRuns.LeavesAlone | transactional/tinySTM/src/gc.c:299-312 | a thread that leaves gives up its slot, marked by whether it still holds regions, which stay in it |
| EpochGc.DropsOlder | transactional/tinySTM/src/gc.c:199-209 | the cleanup loop frees exactly the regions older than the bound |
| EpochGc.Slots.ComputeMin | transactional/tinySTM/src/gc.c:121-152 | the scan loop on slots that stand still returns the specified bound |
| EpochGc.Slots.CleanupThread | transactional/tinySTM/src/gc.c:188-210 | the cleanup loop leaves exactly the remaining regions and touches no other slot |
| EpochGc.Slots.Free | transactional/tinySTM/src/gc.c:337-375 | the block is added to the region of its epoch, a new one if needed |
| EpochGc.Machine.Act | transactional/tinySTM/src/gc.c:121-396 | every step of every thread on the slot array in place |
| FastMutex.NextInv | intro/fast.c:21-51 | every access keeps the invariant of the fast and the slow path |
| FastMutex.AtMostOneInCritical | intro/fast.c:21-51 | at most one process is in the critical section, by either path, for any number of processes |
| FastMutex.SomebodyMoves | intro/fast.c:21-51 | whoever is trying, somebody who is trying can move |
| FastMutex.EntersAlone | intro/fast.c:21-51 | with everybody idle, a process by itself is in by the fast path after six accesses and out again after nine |
| FastMutex.SlowPath | intro/fast.c:36-45 | a process on the slow path that nobody contends with any more is in after scanning all of `b` |
| FastMutex.LeavesAlone | intro/fast.c:47-51 | a process that leaves by itself opens the lock |
| FastMutex.EntryPossible | intro/fast.c:21-51 | from every reachable state with somebody trying, some schedule that starts no idle process brings somebody into the critical section |
| FastMutex.Machine.Step | intro/fast.c:21-51 | one access on the shared variables in place |
| FastMutex.Machine.Run | intro/fast.c:21-51 | any schedule keeps the invariant and is the machine's run |
| Bakery.MutualExclusion | intro/bakery.c:30-51 | at most one thread is inside, with a maximum taken by a scan that is not atomic |
| Bakery.FirstComeFirstServed | intro/bakery.c:30-51 | when a thread enters, every visit that had chosen before it began to choose is over |
| Bakery.SomebodyMoves | intro/bakery.c:30-51 | no deadlock: while a thread is in the lock, some thread gets further by itself within three accesses, going round a waiting loop not counted |
| Bakery.EntryPossible | intro/bakery.c:30-51 | every thread that is trying can get in: some schedule that starts no idle thread brings it there |
| Bakery.Machine.Step | intro/bakery.c:20-51 | one access, with each comparison of the scan a step of its own |
| TaggedStack.ChainsAreSequences | hardware/stack_cas_tagged.c:35-62 | heads and `next` fields always spell out the stack and the free list |
| TaggedStack.PopIsAtomic | hardware/stack_cas_tagged.c:48-62 | a successful exchange removes exactly the first element although nodes have been recycled since the head was loaded, and NULL is returned only for an empty list |
| TaggedStack.PushIsAtomic | hardware/stack_cas_tagged.c:35-45 | a successful exchange adds exactly the pushed node, a failed one nothing |
| TaggedStack.NodesPartitioned | hardware/stack_cas_tagged.c:64-85 | every node is on the stack, on the free list or in one thread's hands |
| TaggedStack.OwnPopFinds | hardware/stack_cas_tagged.c:77-84 | a thread's pop after its push finds an element |
| TaggedStack.FewNodes | hardware/stack_cas_tagged.c:70-74 | at most as many nodes are allocated as there are threads |
| StackRuns.PopAlone | hardware/stack_cas_tagged.c:48-62 | a pop by itself takes the first node in three accesses |
| StackRuns.PushAlone | hardware/stack_cas_tagged.c:35-45 | a push by itself puts the node in hand at the front in three accesses |
| StackRuns.RoundAlone | hardware/stack_cas_tagged.c:64-85 | a round by itself pushes a spare node or a new one, pops that same node and returns it to the free list; the stack is as before |
| StackRuns.FinishesAlone | hardware/stack_cas_tagged.c:64-85 | from every reachable state each thread by itself gets through all its rounds, with a bound on the accesses |
| TaggedStack.Machine.CompareExchange | hardware/stack_cas_tagged.c:44-59 | the exchange of head and tag together |
| TaggedStack.Machine.Pop | hardware/stack_cas_tagged.c:48-62 | an access of `pop` in place |
| TaggedStack.Machine.Push | hardware/stack_cas_tagged.c:35-45 | an access of `push` in place |
| TaggedStack.Machine.Step | hardware/stack_cas_tagged.c:64-85 | the next access of a thread, allocation included |
| McsLock.OneHolder | spinlocks/mcs_spinlock.c:25-54 | only the head of the queue is inside |
| McsLock.FirstInFirstOut | spinlocks/mcs_spinlock.c:25-54 | threads join with their exchange on `tail` and leave from the head, who unlocks the next one and nobody else |
| McsLock.FailedCasHasSuccessor | spinlocks/mcs_spinlock.c:40-53 | the exchange on `tail` fails if and only if a successor has put itself behind the node, linked or about to be |
| McsLock.SomebodyMoves | spinlocks/mcs_spinlock.c:25-54 | no deadlock |
| McsLock.EntersAlone | spinlocks/mcs_spinlock.c:25-54 | with everybody idle, a thread by itself is in after five accesses and out after eight, the lock as before |
| McsLock.EntryPossible | spinlocks/mcs_spinlock.c:25-54 | every thread that is trying can get in: some schedule that starts no idle thread brings it there |
| McsLock.Machine.Step | spinlocks/mcs_spinlock.c:25-54 | one access on the nodes in place |
| ClhLock.OneHolder | spinlocks/clh_spinlock.c:27-41 | only the head of the queue is inside |
| ClhLock.FirstInFirstOut | spinlocks/clh_spinlock.c:27-41 | threads join with their exchange and leave from the head |
| ClhLock.NodesDivided | spinlocks/clh_spinlock.c:35-41 | the N+1 nodes stay divided among N threads and one spare, the predecessor's node being taken over at unlock |
| ClhLock.SomebodyMoves | spinlocks/clh_spinlock.c:27-41 | no deadlock |
| ClhLock.EntersAlone | spinlocks/clh_spinlock.c:27-41 | with everybody idle, a thread by itself is in after three accesses and out after four |
| ClhLock.EntryPossible | spinlocks/clh_spinlock.c:27-41 | every thread that is trying can get in: some schedule that starts no idle thread brings it there |
| ClhLock.Machine.Step | spinlocks/clh_spinlock.c:27-41 | one access on the nodes in place |
| TicketRwLock.WritersExclusive | spinlocks/ticket_rw_lock.c:31-53 | a writer is inside alone, for up to 2^16 threads and however often the 16-bit counters wrap around |
| TicketRwLock.ExclusiveIffFewThreads | spinlocks/ticket_rw_lock.c:31-53 | writers are exclusive in every run of n threads if and only if n is at most 2^16; with one thread more, a run with two writers inside |
| TicketRwLock.TicketOrder | spinlocks/ticket_rw_lock.c:31-53 | threads are let in in the order of their tickets |
| TicketRwLock.TicketNear | spinlocks/ticket_rw_lock.c:31-53 | comparing 16 bits is the same as comparing the unbounded tickets |
| TicketRwLock.TurnsNotLost | spinlocks/ticket_rw_lock.c:37-50 | the plain increments of the turns are never overtaken by another one |
| TicketRwLock.SomebodyMoves | spinlocks/ticket_rw_lock.c:31-53 | no deadlock |
| TicketRwLock.AsAsked | spinlocks/ticket_rw_lock.c:31-53 | over every run, a thread waits and is let in as what it last asked to be, a reader or a writer |
| TicketRwLock.ReadersShare | spinlocks/ticket_rw_lock.c:44-49 | while only readers are in, a thread that asks to read is in after three steps of its own, with the others still in |
| TicketRwLock.AllRead | spinlocks/ticket_rw_lock.c:44-49 | for every number of threads up to 2^16, a reachable state in which all of them read at once |
| TicketRwLock.WritesAlone | spinlocks/ticket_rw_lock.c:31-42 | with everybody idle, a thread that asks to write is in at its first look at the turn, and out again after four more accesses |
| TicketRwLock.EntryPossible | spinlocks/ticket_rw_lock.c:31-53 | every waiting thread can be let in as what it asked to be, without new requests |
| TicketRwLock.Machine.Draw | spinlocks/ticket_rw_lock.c:31-53 | the fetch-and-add that draws a ticket |
| TicketRwLock.Machine.Step | spinlocks/ticket_rw_lock.c:31-53 | one access to the turns |
| DrepperMutex.MutualExclusion | futex/mutex_drepper.c:23-46 | at most one thread holds the lock, and then the word is 1 or 2 |
| DrepperMutex.SleepersAreRemembered | futex/mutex_drepper.c:23-46 | while a thread sleeps the word is 2 and has an owner, or an unlocker owes a wake, or an awake waiter is about to write 2 |
| DrepperMutex.SomebodyIsAwake | futex/mutex_drepper.c:23-46 | no wake-up is lost for good: while one sleeps, another is awake in the lock |
| DrepperMutex.EntersAlone | futex/mutex_drepper.c:23-46 | with everybody idle the word is 0, and a thread by itself takes the lock with one compare-and-exchange and gives it back with one subtraction |
| DrepperMutex.Leaves | futex/mutex_drepper.c:40-46 | unlocking frees the word at once, or after the second access, and then any sleeper can be woken to try again |
| DrepperMutex.EntryPossible | futex/mutex_drepper.c:23-46 | from every reachable state with somebody trying, some schedule without spurious wake-ups brings somebody in |
| DrepperMutex.Machine.Step | futex/mutex_drepper.c:23-46 | one access or system call |
| DrepperMutex.Machine.WakeOne | futex/mutex_drepper.c:40-46 | the kernel wakes a sleeper |
| RicartAgrawala.MutualExclusion | channels/distributed/mutex_ricart_agrawala.go:26-90 | at most one node is between `lock` and `unlock`, for any number of nodes |
| RicartAgrawala.OnePlace | channels/distributed/mutex_ricart_agrawala.go:33-80 | a node's request to each peer is in exactly one place |
| RicartAgrawala.BufferHasRoom | channels/distributed/mutex_ricart_agrawala.go:28-46 | the buffered channel `deferred` never fills, so storing in it under the mutex never blocks |
| RicartAgrawala.SomebodyMoves | channels/distributed/mutex_ricart_agrawala.go:55-80 | no deadlock over unbuffered channels: while a node has rounds left, some action can happen |
| RicartAgrawalaRuns.RunsEnd | channels/distributed/mutex_ricart_agrawala.go:26-90 | no run goes on for ever: the actions that can happen are bounded |
| RicartAgrawalaRuns.StuckIsFinished | channels/distributed/mutex_ricart_agrawala.go:26-90 | the only reachable states where nothing can happen are those where all nodes have done all their rounds |
| RicartAgrawalaRuns.CanFinish | channels/distributed/mutex_ricart_agrawala.go:26-90 | every run can be carried on until all nodes have done all their rounds |
| RicartAgrawalaRuns.OncePerRound | channels/distributed/mutex_ricart_agrawala.go:26-90 | over every run, a node has entered its critical section exactly once in each round it has done |
| RicartAgrawalaRuns.EverybodyGetsIn | channels/distributed/mutex_ricart_agrawala.go:26-90 | in every run that cannot be carried on, every node has been in its critical section in each of its rounds |
| RicartAgrawala.System.constructor | channels/distributed/mutex_ricart_agrawala.go:26-90 | the started nodes are an initial state |
| RicartAgrawala.System.Step | channels/distributed/mutex_ricart_agrawala.go:34-80 | every section of a goroutine and every rendezvous, on node objects updated in place, is the machine's step and leads to a reachable state |
| TokenPassing.OneToken | channels/distributed/mutex_token_passing.go:26-93 | there is one token, and only its owner is inside |
| TokenPassing.PendingMeansWaiting | channels/distributed/mutex_token_passing.go:40-48 | at the owner, requested above granted means that the node waits with that very number, one above the granted one |
| TokenPassing.TokenGoesToWaiter | channels/distributed/mutex_token_passing.go:40-48 | the token is sent only to a node that waits for it |
| TokenPassing.IdleTokenMissesNobody | channels/distributed/mutex_token_passing.go:51-63 | when the token lies idle, every waiting node's request is with the owner's receiver and about to be looked at |
| TokenPassing.SomebodyMoves | channels/distributed/mutex_token_passing.go:26-93 | no deadlock |
| TokenPassingRuns.RunsEnd | channels/distributed/mutex_token_passing.go:26-93 | no run goes on for ever: the actions that can happen are bounded |
| TokenPassingRuns.StuckIsFinished | channels/distributed/mutex_token_passing.go:26-93 | the only reachable states where nothing can happen are those where all nodes have done all their rounds |
| TokenPassingRuns.CanFinish | channels/distributed/mutex_token_passing.go:26-93 | every run can be carried on until all nodes have done all their rounds |
| TokenPassingRuns.OncePerRound | channels/distributed/mutex_token_passing.go:26-93 | over every run, a node has entered its critical section exactly once in each round it has done |
| TokenPassingRuns.EverybodyGetsIn | channels/distributed/mutex_token_passing.go:26-93 | in every run that cannot be carried on, every node has been in its critical section in each of its rounds |
| TokenPassing.ScannedGives | channels/distributed/mutex_token_passing.go:40-48 | the scan in `unlock`, when the receiver does not write in between, ends at the first pending node |
| TokenPassing.RScannedGives | channels/distributed/mutex_token_passing.go:51-63 | the scan in the receiver, without interruption, ends at the first pending node |
| TokenPassing.Process.SendToken | channels/distributed/mutex_token_passing.go:40-48 | the loop over `requested` and `granted` without interruption returns the first pending node |
| TokenPassing.System.constructor | channels/distributed/mutex_token_passing.go:26-38 | the started nodes are an initial state |
| TokenPassing.System.Step | channels/distributed/mutex_token_passing.go:40-93 | every section, every comparison of a scan and every rendezvous, on node objects updated in place, is the machine's step and leads to a reachable state |
| NeilsenMizuno.OneToken | channels/distributed/mutex_token_passing_neilsen_mizuno.go:25-84 | there is one token; only its owner is inside; `holding` implies no parent |
| NeilsenMizuno.EdgeOnce | channels/distributed/mutex_token_passing_neilsen_mizuno.go:32-73 | every edge of any initial tree is represented exactly once, as a pointer or as a request in transit |
| NeilsenMizuno.PointersFollowTree | channels/distributed/mutex_token_passing_neilsen_mizuno.go:42-60 | pointers follow edges of the tree |
| NeilsenMizuno.ForwardedAway | channels/distributed/mutex_token_passing_neilsen_mizuno.go:52-56 | a forwarded request never goes back, and the part of the tree before it shrinks strictly |
| NeilsenMizuno.BeyondShrinks | channels/distributed/mutex_token_passing_neilsen_mizuno.go:32-73 | in any tree, what lies ahead after a further edge is a proper part of what lay ahead before |
| NeilsenMizuno.SentOnFewTimes | channels/distributed/mutex_token_passing_neilsen_mizuno.go:32-73 | over any run in which it is not served, a request is sent on fewer times than there are nodes |
| NeilsenMizuno.SlotIsFree | channels/distributed/mutex_token_passing_neilsen_mizuno.go:42-52 | a full `deferred` slot is never overwritten |
| NeilsenMizuno.RequestOnce | channels/distributed/mutex_token_passing_neilsen_mizuno.go:42-84 | the request of a waiting node is with exactly one node |
| NeilsenMizuno.TokenGoesToWaiter | channels/distributed/mutex_token_passing_neilsen_mizuno.go:42-84 | whoever is recorded as originator or deferred waits for the token |
| NeilsenMizuno.NeverWithoutParent | channels/distributed/mutex_token_passing_neilsen_mizuno.go:52-69 | whoever has to send a request has a parent other than itself |
| NeilsenMizuno.System.constructor | channels/distributed/mutex_token_passing_neilsen_mizuno.go:25-32 | the started nodes are an initial state on the star of the program |
| NeilsenMizuno.System.Step | channels/distributed/mutex_token_passing_neilsen_mizuno.go:34-84 | every section and every rendezvous, on node objects updated in place, is the machine's step and leads to a reachable state |
| NeilsenMizunoStar.DeadlockFreeIffStar | channels/distributed/mutex_token_passing_neilsen_mizuno.go:38-84 | for all trees: no reachable state with unfinished nodes is stuck if and only if the tree is a star |
| NeilsenMizunoStar.ProgramIsDeadlockFree | channels/distributed/mutex_token_passing_neilsen_mizuno.go:25-32 | the program's tree, node 0 the parent of all others, never deadlocks |
| NeilsenMizunoStar.StuckUnlessStar | channels/distributed/mutex_token_passing_neilsen_mizuno.go:38-84 | a reachable stuck state for every tree that is not a star |
| NeilsenMizunoStar.ExecQueue | channels/distributed/mutex_token_passing_neilsen_mizuno.go:38-84 | in a star all waiting nodes form one queue behind the owner of the token, but for a request arriving at the centre |
| NeilsenMizunoStar.NoOvertaking | channels/distributed/mutex_token_passing_neilsen_mizuno.go:38-84 | in a star, a node never gets the token before one that is ahead of it in the queue |
| NeilsenMizunoRuns.RunsEnd | channels/distributed/mutex_token_passing_neilsen_mizuno.go:25-84 | no run goes on for ever: the actions that can happen are bounded, on every tree |
| NeilsenMizunoRuns.StuckIsFinished | channels/distributed/mutex_token_passing_neilsen_mizuno.go:25-84 | on the program's tree, the only reachable states where nothing can happen are those where all nodes have done all their rounds |
| NeilsenMizunoRuns.CanFinish | channels/distributed/mutex_token_passing_neilsen_mizuno.go:25-84 | on the program's tree, every run can be carried on until all nodes have done all their rounds |
| NeilsenMizunoRuns.OncePerRound | channels/distributed/mutex_token_passing_neilsen_mizuno.go:25-84 | over every run, a node has entered its critical section exactly once in each round it has done |
| NeilsenMizunoRuns.EverybodyGetsIn | channels/distributed/mutex_token_passing_neilsen_mizuno.go:25-84 | on the program's tree, in every run that cannot be carried on, every node has been in its critical section in each of its rounds |

## Left out

- Weak memory: all accesses are sequentially consistent; fences and inline assembly have no effect in the models.
- Compile-time variants of the transactional memory: CM_MODULAR, visible reads, killing, READ_LOCKED_DATA,
  irrevocable transactions, UNIT_TX, HYBRID_ASF and the MODULAR design; the default configuration is modelled.
- Abort by longjmp, signals, thread-local storage, allocation failure and `no_retry`: an abort ends the attempt.
- EtlTheorems.NextInv: in the write-through design a store with an empty mask does nothing in the machine; what the
  program does with such stores is in `UndoLog`.
- EtlAlone.RunsUndisturbed: is for write sets with room; when one is full, the attempt is given up and the next has
  twice the capacity.
- EtlProgram.Stm.Access: the entry joins the write set with the compare-and-swap, not some private instructions later.
- CtlProgram.Stm.Rollover: `gc_reset`, the part of the reset that is the collector's, is not modelled; the idle
  descriptors, which a transaction initializes anyway, are cleared.
- EtlProgram.Stm.Rollover: as for CtlProgram.Stm.Rollover.
- ClockBarrier.RolloverIsAlone: is about the barrier by itself; the lock array is zeroed in `CtlReset` and `EtlReset`.
  `stm_quiesce`, with which other threads are stopped from outside, is not modelled.
- ClockBarrier.ClockIsBounded: takes the number of timestamps in an attempt as given; `CtlClock` and `EtlClock` show it.
- EpochGc.ReclaimIsSafe: `gc_cleanup_all`, `gc_reset` and the EPOCH_MAX check of `gc_set_epoch` are left out, and so
  is the exit in `gc_init_thread`, which no thread reaches in the machine; epochs are unbounded.
- EpochGc.Slots.ComputeMin: is about slots that stand still; the scan interleaved with other threads is in the machine
  and in `BoundHoldsForever`.
- Bakery.MutualExclusion: the two textual reads of one element in `max` are one read.
- TaggedStack.PopIsAtomic: the tag is unbounded; the program's counts modulo the word size.
- Starvation, fairness and timing: the theorems about progress say that some step or schedule is possible, or that runs
  end; in the locks and in the transactional memory a thread may be overtaken for ever.
- mod_log.c, the semaphore, monitor, barrier and channel exercises, the simpler spinlocks, Peterson's algorithm, the
  stacks marked faulty, wrappers, statistics and the ABI layer: easy members, or plumbing.
