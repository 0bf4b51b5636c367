# TimeStone verified: snapshots, reclamation and durability

TimeStone is a durable transactional memory with many versions of every object.
Writers link new copies into version chains in DRAM (the tvlog); a quiescence thread
finds grace periods, after which reclamation moves versions to a checkpoint log in
non-volatile memory (the ckptlog), from there back to the original object, and drops
what nobody can reach any more, all while transactions run. Timestamps of different
cores are comparable only up to an uncertainty window. This project models that
machinery and proves what it promises, for every number of threads and objects, every
interleaving and every window.

## What is modelled

**The protocol** (`Ordo`, `Protocol`) is a state machine of 44 atomic actions: one
access to shared memory, or a few that nobody can observe in between, per action.
Application threads begin, dereference, lock, commit and abort; the qp thread detects
grace periods and triggers rounds; every thread's tvlog and ckptlog are reclaimed at
the same time. `CanX` is the guard of action `X` and `DoX` its effect; both cite the
code. There are two invariants, made of the parts in `History` (linear histories) and
`Invariant` (everything else). `Basics.Basic` holds along every run: `HistorySteps`,
`Growth`, `Basics` and `BasicSteps` prove that each action keeps it. `TxSteps.Inv` says in
addition that masters hold what they should, which needs that no writeback is overtaken
(below); `TxSteps`, `QpSteps` and `ReclaimSteps` prove that. `MemorySteps` proves memory
safety from `Basic`, `Runs` puts runs together, and `OpQueues` ties every operation to its
place in its thread's oplog. The promises are stated in `Snapshots`, `GracePeriods`,
`Checkpointing` and `Durability`; `Answers` says what each call of the interface leaves its
caller with, `Rounds` what a round of reclamation has done when it is over, and `Progress`
that nobody gets stuck.

**The logs and recovery** are classes over arrays and maps, like the code: `NvLog` (the
durable ring log, on `Ring`), `TvLog` (the ring of write sets, with its walks) and
`Recovery` (the choice of masters after a crash). `Durability` connects the protocol's
logs with what `Recovery` does to them.

**The versioned list** is a state machine of 16 atomic actions (`VList`): readers walk the
slots of a snapshot, writers push slots and commit by appending a record to a chain, and
everybody stamps the records passed on the way with their epochs. Its invariant is in
`VListInvariant`; `VListFrames`, `VListSteps`, `VListCommit` and `VListCas` prove that the
actions keep it, and `VListViews` states what follows for runs.

**Three more parts of the repository.** `Rlu` is Read-Log-Update as a state machine of 21
atomic actions, with sections, aborts and synchronizing writers of any number of threads
(`RluInvariant`, `RluSteps`, `RluViews`). `RbTree` is the red-black tree that the
versioned tree keeps in its slots: a class whose methods follow the code case by case,
on the lemmas of `RbShape`, `RbInsert`, `RbDelete` and `RbBalance`. `Cuckoo` is the
allocator's hash table, a class over the array of cells.

## What turned out not to hold

Three promises fail as the code stands. Each has a run that shows it (`Races`; the runs
exist for every window), and an exact condition:

1. *Writeback may undo a checkpoint.* `ckptlog_reclaim_x` looks at `np_cur_act`, copies
   the entry and then stores `np_cur_act` without looking again. If another thread
   checkpoints the object in between, the store throws the newer master away
   (`Races.OvertakenWriteback`). The masters are kept if and only if the entry is still
   the master when the store happens (`Checkpointing.WritebackExact`). What is read from
   masters, and what a crash leaves in them, is proved for all runs in which it is
   (`Runs.StoresGuarded`); all the rest holds along every run: grace periods, both phases
   of reclamation, memory safety, the oplogs, publication before reading, the copies held
   and the clocks along version chains.
2. *Checkpoint reclamation may drop a copy in use.* When a copy is detached while a
   newer one, not yet stamped, is already linked above it, it stays reachable; the next
   checkpoint round drops it without the test best-effort reclamation makes
   (`Races.DroppedUnderReader`). Dropping a write set is sound if and only if each of its
   copies that is still linked has a successor older than the grace-period clock
   (`MemorySteps.DropSafe`): then no transaction the grace period admits can get to one,
   whatever checkpoint clock its thread had cached, and otherwise some can
   (`GracePeriods.DropExact`). That a checkpoint newer than the copy has been announced is
   not enough: a transaction may have gone past with the clock from before. Memory safety
   is proved for all runs in which the condition holds at every drop of checkpoint
   reclamation (`Runs.DropGuard`), overtaken writebacks or not (`Runs.RunSafe`), and no
   weaker guard keeps its invariant (`GracePeriods.DropKeepsHolders`); snapshots and
   durability do not need it.
3. *Recovery may bring back an old version.* It compares checkpoint entries with each
   other but not with the original object. An outdated entry left in one thread's log
   wins over a version that was written back from another thread's log and dropped
   there (`Races.StaleRecovery`, `Durability.RecoveryExact`).

Smaller ones are in the contracts of the logs: `nvlog_enq` writes its bogus item before
it checks for room (`NvLog.Log.Enq`), and accepts an entry as large as the whole buffer;
`nvlog_enq_persist` takes a log that is exactly one lap ahead for flushed
(`NvLog.Log.EnqPersist`); a bogus item of 64 KiB or more does not fit `padding_size`
(`TvLog.GrownOk`); a failed lock after a bogus item leaves the walk short of the tail
(`TvLog.Log.Append`).

## Assumptions

- A clock reading is at most one window behind any earlier reading, and each thread's
  own readings do not go back. This goes for the clock that starts a grace period too:
  transactions may have read theirs up to a window above it. Only between rounds the
  clock must have advanced: the reading that starts a grace period is more than a window
  above everything read when the qp thread came to rest after the round before.
- Reading the commit clock and storing `pending_wrt_clk` is one step.
- Memory is sequentially consistent; a line flushed and fenced is durable, any other line
  may or may not be.

## Model

"Guarded runs" are those in which no writeback is overtaken (`Runs.StoresGuarded`); what is
stated of them fails of others (`Races.OvertakenWriteback`). A row that says neither this
nor "with guarded drops" holds along every run, or in every state that has the invariant
its lemma asks for: `Basic` for every run, `Inv` for guarded ones.

| member | source | states |
|---|---|---|
| Snapshots.Newest | lib/timestone.c:560-581 | The specification of a read, on the commit clocks alone: the newest version whose clock is before the transaction's, and no later version is |
| Snapshots.WalkFindsNewest | lib/timestone.c:554-577 | In guarded runs: from any copy above the snapshot, the chain walk, including its early exit to the master at a copy older than the last checkpoint, ends at the snapshot's version |
| Snapshots.DerefRefinesSnapshot | lib/timestone.c:546-583 | At every point of guarded runs, for every clock a running or future transaction can have and every checkpoint clock its thread may hold, the walk of ts_deref over copies, checkpoint logs and originals returns the snapshot's version; Answers.DerefFindsSnapshot says the same of the steps |
| Snapshots.ReclaimKeepsReads | lib/tvlog.c:669-946 | In guarded runs: no step of tvlog or checkpoint-log reclamation changes the answer of any read any transaction can still make, even if the thread's checkpoint clock changes at the same time |
| Answers.DerefAnswers | lib/timestone.c:546-584 | Along every run: a ts_deref that is over has handed out exactly one pointer, to the object asked for; if it is to a copy, to the newest version of the snapshot; with guarded drops what it points to is still there and holds that version |
| Answers.DerefFindsSnapshot | lib/timestone.c:546-584 | In guarded runs the last step of any ts_deref, at a copy or at the master, hands out exactly one pointer, to the snapshot's version, which is also where the walk of DerefRefinesSnapshot ends, begun with any checkpoint clock |
| Answers.TryLockExact | lib/timestone.c:692-745 | The first test of ts_try_lock succeeds if and only if nobody has locked the object and its newest version, stamped or not, is in the transaction's snapshot |
| Answers.LookThenTake | lib/timestone.c:587-613 | If nobody locks or changes the object between the test and the attempt, the attempt succeeds |
| Answers.LockAnswers | lib/timestone.c:748-764 | A lock taken is the new last copy of the transaction's write set, duplicated from p_copy or the master; the earlier copies stay, and the source of the duplication is held |
| Answers.LockIsSnapshot | lib/timestone.c:748-764 | What is duplicated under a lock is what the transaction sees of the object and the newest version there is (of a master: in guarded runs) |
| Answers.LockOwner | lib/tvlog.c:356-387 | Along every run every lock belongs to a copy, not unlocked yet, in the current write set of a thread that is in a transaction or still releasing its locks |
| Answers.IdleHoldsNothing | lib/timestone.c:418-507 | Along every run a thread that has committed, aborted or only begun holds no lock |
| Answers.AbortAnswers | lib/timestone.c:478-507 | An abort that is over has given back every lock of its write set, and no version of it has been linked |
| Answers.CommitAnswers | lib/tvlog.c:404-446 | A commit that is over has its operation logged durably and one clock, later than the transaction's, in the write set and in every copy; no lock is left |
| Progress.TxProgress | lib/timestone.c:375-780 | Along every run every transaction has a next step, or is a reader that waits for a commit stamped before its own clock and not yet published; that commit has a next step |
| Progress.QpProgress | lib/qp.c:161-245 | Along every run the qp thread has a next step, or waits for a transaction that began before its grace period and is still running, or for a reclamation call under way |
| Progress.TvProgress | lib/tvlog.c:669-946 | Along every run reclamation of a tvlog never waits |
| Progress.CkProgress | lib/ckptlog.c:202-373 | Along every run reclamation of a checkpoint log never waits |
| Snapshots.ReadsAreSnapshots | lib/timestone.c:520-584 | Along every run, every pointer to a copy that a transaction holds names the newest version committed before its clock, and keeps naming it; along guarded runs every pointer to a master does too |
| Snapshots.RepeatableReads | lib/timestone.c:520-584 | Two dereferences of an object in one transaction give the same version: two copies along every run, copies and masters along guarded runs |
| Snapshots.ItemInSnapshot | lib/clock.h:67-115 | A snapshot reaches an installed copy exactly when its write set's pending clock is before the snapshot's clock, whether it is published, unlocked or neither |
| Snapshots.SnapshotAtomicity | lib/tvlog.c:404-446 | A reader that holds pointers to two objects of one write set sees both of its versions (or later ones) or neither, at every interleaving of install, stamp, publish and unlock: for copies along every run, for copies and masters along guarded runs |
| Snapshots.LinearHistory | lib/tvlog.c:207-354 | Along every run: version i of an object is one copy of one write set; commit clocks along a chain differ by more than three windows; wrt_clk_next and wrt_clk_prev name the true neighbours. Along guarded runs it was duplicated from version i - 1 |
| Snapshots.NoLostUpdate | lib/timestone.c:587-613 | Along every run there is one locked copy of an object at most; along guarded runs it duplicates the newest version until it is linked |
| GracePeriods.GracePeriod | lib/qp.c:221-245 | Along every run: after qp_detect returns, every transaction then or later running began at or after the new qp0, also those whose clock was read within a window of the grace period's; qp1 and qp2 are the two grace periods before it, qp2 <= qp1 <= qp0, and qp2 is more than a window before the new qp0 |
| GracePeriods.RunQpGrows | lib/qp.c:133-138 | The grace-period clock never goes back along any run |
| GracePeriods.TwoPhases | lib/ckptlog.c:252-349 | Along every run head <= prev <= tail in both logs at all times; drops are below prev, and whatever a call checkpoints, detaches or writes back is at or above it |
| GracePeriods.MastersAhead | lib/ckptlog.c:282-324 | Along every run no object's np_cur_act points into the part of a checkpoint log that has been, or may be, dropped |
| Rounds.RoundDropsEntries | lib/ckptlog.c:252-349 | Along every run: when a round that asked for it is over, every checkpoint log has dropped exactly the entries before its prev at the round's beginning, and its durable head has followed |
| Rounds.RoundDropsSets | lib/tvlog.c:720-818 | Along every run: when a round is over, every tvlog has dropped exactly the write sets before its prev at the round's beginning, unless best-effort reclamation was stopped by a committed one with a copy that, even now, has no successor before qp0 |
| Rounds.HeldBackStays | lib/tvlog.c:744-752 | Nothing anybody does during a round changes what stopped best-effort reclamation |
| Rounds.WritebackStops | lib/ckptlog.c:282-349 | Where a writeback stops, no master lies before prev, and the entry at prev is too young to be written back or is its object's master |
| GracePeriods.HeldStays | lib/tvlog.c:720-818 | Along every run with guarded drops (item 2 above; writebacks may be overtaken), whatever a transaction holds, has duplicated under a lock or stands on in a chain walk has not been dropped, reused or overwritten, and still contains the version it read |
| GracePeriods.DropExact | lib/tvlog.c:720-752 | Every copy of the dropped write set that is still linked has its wrt_clk_prev before qp0 if and only if no transaction the grace period admits, with any checkpoint clock up to the last one, can get to any of the copies by walking the chain; best-effort reclamation tests it, checkpoint reclamation tests nothing |
| GracePeriods.ReachExact | lib/timestone.c:554-577 | For every copy and every checkpoint clock a thread may have: some admissible transaction can get to the copy if and only if it is linked (its chain is not cut above it), its wrt_clk_prev is not before qp0, and it is the newest or not before the checkpoint clock |
| GracePeriods.CopyExact | lib/tvlog.c:744-752 | For every copy of every object: it is out of reach of all admissible transactions if and only if it is unlinked or its wrt_clk_prev is before qp0, whichever checkpoint clocks are left in the threads |
| GracePeriods.DropKeepsHolders | lib/tvlog.c:720-818 | The same condition is the weakest guard for memory safety: the drop keeps whatever the invariants let a transaction hold if and only if it is met |
| GracePeriods.WalkStep | lib/timestone.c:554-577 | One step of ts_deref goes on to the next older version, stops, or falls back to the master exactly as the walk in DropExact says, with a clock at or after qp0 and a checkpoint clock no newer than the last |
| GracePeriods.WalkBegins | lib/timestone.c:546-552 | ts_deref starts at the newest version, or at the master if the chain has been cut at its head |
| Checkpointing.CheckpointSelection | lib/tvlog.c:489-561 | In every state of guarded runs, for every object and copy, scanned or not: is_at_borderline of a live copy, and being found by get_ckpt_chs, both imply that it is the newest version before qp0; and a copy that is this newest version and not the master passes both |
| Checkpointing.SelectsNewest | lib/tvlog.c:489-561 | Along every run: whatever passes is_at_borderline, or is found by get_ckpt_chs, is the newest version before qp0 |
| Checkpointing.ScanSelects | lib/tvlog.c:669-946 | In guarded runs the copy under a scan's cursor is checkpointed if and only if it is the newest version before the checkpoint clock and the master is older |
| Checkpointing.OncePerRound | lib/tvlog.c:669-946 | Along every run, between two advances of qp0 no object is checkpointed twice, by whatever threads |
| Checkpointing.NotAgain | lib/tvlog.c:826-903 | An object that has an entry of this round in any checkpoint log is not checkpointed |
| Checkpointing.OneBorderline | lib/tvlog.c:489-525 | Of all copies of an object at most one is live and at the borderline, in every state and for every pair of copies |
| Checkpointing.WalkFinds | lib/tvlog.c:527-561 | get_ckpt_chs reaches the newest version before the checkpoint clock from anywhere above it, past copies not stamped yet |
| Checkpointing.WalkFound | lib/tvlog.c:527-561 | What get_ckpt_chs returns is before the checkpoint clock, and the version above it is not |
| Checkpointing.WritebackExact | lib/ckptlog.c:303-318 | The store of np_cur_act that ends a writeback keeps every object's master value if and only if np_cur_act still is the entry that was copied |
| Checkpointing.WritebackCopy | lib/ckptlog.c:300-315 | Copying an entry over the original object changes no master value, and no transaction holds a pointer to that original |
| ReclaimSteps.BorderlineNewest | lib/tvlog.c:489-525 | On one chain: a live copy at the borderline is the newest version before qp0 and the master, if it is not this copy, is older |
| Basics.Settled | lib/qp.c:161-195 | Whatever was stamped before the grace-period clock is published and completely unlocked |
| BasicSteps.BorderlineBefore | lib/tvlog.c:489-525 | Along every run: a live copy at the borderline is the newest version before qp0 |
| Races.OvertakenWriteback | lib/ckptlog.c:303-318 | A run, for every window, that ends before a writeback's store which replaces a committed, checkpointed version 2 by version 1; after the detach every transaction reads version 1 |
| Races.DroppedUnderReader | lib/tvlog.c:720-818 | A run, for every window, that ends before a drop made by checkpoint reclamation which takes a copy from a running transaction; DropSafe is false there, although every thread has been told of a checkpoint newer than the copy |
| Races.StaleRecovery | lib/recovery.c:36-66 | A run, for every window, after whose crash recovery restores version 1 of an object although version 2 was published before the last finished checkpoint |
| Durability.SeenSurvives | lib/tvlog.c:416-432 | At every crash point of guarded runs, every write set up to a version any transaction has seen has its operation between the durable head and tail of its thread's oplog, or lies before the durable last_ckpt_clk with all its objects' checkpoints durable; so does every object's last checkpoint |
| Durability.PublishedSurvives | lib/oplog.c:85-142 | In guarded runs a published write set's operation is in the persisted range of its oplog, or was reclaimed only after a finished checkpoint covered all its copies |
| Durability.PublishedIsLogged | lib/oplog.c:85-142 | Along every run a published write set's operation is in the persisted range of its oplog, or its commit clock is before the durable last_ckpt_clk |
| Durability.DroppedStayDropped | lib/ckptlog.c:327-355 | Along every run, between the calls of checkpoint reclamation, recovery finds no entry that has been dropped |
| Durability.CheckpointsSurvive | lib/qp.c:469-478 | In guarded runs the master a crash falls back to is durable, not dropped, and holds the version its object had at last_ckpt_clk, also in the middle of the next checkpoint |
| Durability.RunVisible | lib/clock.h:100-113 | Along every run no transaction ever holds a version whose write set is not published yet |
| Durability.RecoveryExact | lib/recovery.c:36-118 | After guarded runs, on the logs between their durable heads and tails, also in the middle of a drop: recovery restores the version of the last finished checkpoint if and only if the master is a checkpoint, or none of the object is left in the logs, or the one it was written back from is left |
| Durability.CandidateEntry | lib/recovery.c:93-109 | After any run, every entry recovery considers holds a version no newer than the one at last_ckpt_clk, with that version's commit clock |
| Runs.RunBasic | lib/timestone.c:375-780 | Linear histories, chains and their marks, checkpoint entries, logs, jobs, grace periods and walks: the invariant holds in every state of every run, with no guard |
| Runs.RunInv | lib/timestone.c:375-780 | The full invariant (masters, checkpoints, reads of masters, durability as well) holds in every state of every guarded run |
| Runs.RunSafe | lib/tvlog.c:720-818 | Memory safety holds in every state of every run with guarded drops, even if writebacks are overtaken |
| Runs.InitInv | lib/timestone.c:152-211 | The first state has all invariants |
| TxSteps.BeginCountInv | lib/timestone.c:388-388 | Raising run_cnt keeps the invariant, with the local clock still the old one |
| TxSteps.BeginClockInv | lib/timestone.c:389-389 | Reading the local clock keeps it: a clock read during a grace period is late enough not to be waited for |
| TxSteps.DerefBeginInv | lib/timestone.c:546-553 | Reading p_copy starts a walk above the snapshot |
| TxSteps.DerefCopyInv | lib/timestone.c:554-577 | One step of the walk: return this copy, go on, or leave to the master, without passing the snapshot's version |
| TxSteps.DerefMasterInv | lib/timestone.c:578-583 | The current master, read when the walk is over, holds the snapshot's version; that it is handed out is Answers.DerefFindsSnapshot |
| TxSteps.LockLookInv | lib/timestone.c:692-745 | The test that p_copy is in the snapshot |
| TxSteps.LockTakeInv | lib/timestone.c:587-613 | Locking with p_copy unchanged: the copy made duplicates the newest version, and the transaction sees it |
| TxSteps.CommitInstallInv | lib/tvlog.c:218-286 | Linking a copy into its chain gives the object a version not stamped yet, on top of the newest |
| TxSteps.CommitStampInv | lib/tvlog.c:416-419 | Storing pending_wrt_clk gives all copies of the write set their clock at once, more than three windows above their predecessors' |
| TxSteps.CommitPersistInv | lib/tvlog.c:421-424 | The durable tail of the oplog reaches the operation before the write set is published |
| TxSteps.CommitPublishInv | lib/tvlog.c:426-429 | Publishing keeps the invariant: the operation is durable by then |
| TxSteps.CommitUnlockInv | lib/tvlog.c:308-336 | Marking and unlocking one copy and telling its predecessor's wrt_clk_prev |
| TxSteps.TxEndInv | lib/timestone.c:418-460 | A transaction ends only with its write set finished |
| TxSteps.AbortInv | lib/timestone.c:478-507 | An abort leaves the transaction before it releases its locks |
| TxSteps.AbortUnlockInv | lib/tvlog.c:356-387 | Releasing one lock without a version |
| TxSteps.AbortDoneInv | lib/tvlog.c:448-457 | The tail goes back to where the write set began; no version is lost, and the locks are all given back (Answers.AbortAnswers) |
| TxSteps.OpReclaimInv | lib/oplog.c:102-117 | The operation at the head of the oplog is reclaimed only when last_ckpt_clk has passed its commit clock |
| QpSteps.QpClockInv | lib/qp.c:226-226 | Reading the clock that starts a grace period, up to a window behind concurrent readings |
| QpSteps.QpCaptureInv | lib/qp.c:144-159 | Remembering run_cnt covers a thread that has raised it but not read its clock |
| QpSteps.QpCheckInv | lib/qp.c:174-180 | A thread passes when run_cnt has moved or its clock is not before the grace period's |
| QpSteps.QpAdvanceInv | lib/qp.c:242-244 | The corrected clock becomes qp0 when nobody is waited for |
| QpSteps.QpPropagateInv | lib/qp.c:382-400 | A thread may reclaim as soon as clocks and request have reached it |
| QpSteps.QpBarrierInv | lib/qp.c:469-474 | With all jobs done, every version before the checkpoint clock is in its object's master, and the clock becomes durable |
| QpSteps.QpPublishInv | lib/qp.c:476-477 | The checkpoint clock becomes public only after it is durable |
| QpSteps.ScannedMeansCovered | lib/tvlog.c:826-903 | When all tvlogs have been scanned, the master of an object holds every version committed before the checkpoint clock |
| ReclaimSteps.TvDropInv | lib/tvlog.c:720-818 | Dropping a write set below prev keeps the invariant |
| ReclaimSteps.TvSkipInv | lib/tvlog.c:865-902 | A copy passed by the scan is detached or has a successor before qp0 |
| ReclaimSteps.TvCkptInv | lib/ckptlog.c:48-103 | The new master is the newest version before the checkpoint clock, and the one it replaces stays the one a crash falls back to |
| ReclaimSteps.TvDetachInv | lib/tvlog.c:467-487 | Detaching cuts the chain only above a version that is in the master |
| ReclaimSteps.TvFinishInv | lib/tvlog.c:904-916 | A finished scan leaves nothing older than the checkpoint clock behind prev, and its entries durable |
| ReclaimSteps.CkDropInv | lib/ckptlog.c:252-279 | Dropping an entry below prev drops no master, current or durable |
| ReclaimSteps.CkCopyInv | lib/ckptlog.c:310-313 | Overwriting the original object while the entry is the master |
| ReclaimSteps.CkStoreInv | lib/ckptlog.c:314-316 | The original becomes the master, if the entry still was |
| ReclaimSteps.CkFinishInv | lib/ckptlog.c:327-355 | The part passed by the writeback loop holds no master; the head becomes durable only now |
| MemorySteps.DerefCopySafe | lib/timestone.c:575-577 | The copy a walk steps onto has not been dropped |
| MemorySteps.DerefMasterSafe | lib/timestone.c:578-583 | A master just read is neither dropped nor about to be |
| MemorySteps.QpClockSafe | lib/qp.c:226-226 | A grace period may begin a window behind running transactions: nothing they hold can be dropped at its end |
| MemorySteps.TvDropSafe | lib/tvlog.c:720-818 | A guarded drop takes away nothing that is held or walked on |
| MemorySteps.TvDetachSafe | lib/tvlog.c:467-487 | Unlinking a copy leaves it in place for those who hold it |
| MemorySteps.CkDropSafe | lib/ckptlog.c:252-279 | An entry dropped is held by nobody |
| MemorySteps.CkCopySafe | lib/ckptlog.c:300-315 | An original object overwritten is held by nobody |
| MemorySteps.BestEffortIsSafe | lib/tvlog.c:744-752 | Best-effort reclamation makes the test a drop needs |
| Recovery.Image.CkptlogRecovery | lib/recovery.c:68-118 | Every object with a finished checkpoint gets the entry of greatest wrt_clk as its master, no other header changes, and every log is cut at the first unfinished checkpoint |
| Recovery.Image.ReconstructHeader | lib/recovery.c:36-66 | The object's master is the newer of this entry and the one named before in this generation; of two of the same age the earlier one; no other header changes |
| Recovery.Usable | lib/recovery.c:93-101 | The part of a log that is read ends at the first entry after last_ckpt_clk |
| Recovery.ChosenStep | lib/recovery.c:93-109 | After each entry, the headers name the newest of the entries read so far |
| Recovery.OrderIrrelevant | lib/recovery.c:83-118 | With the logs in any other order the chosen entry has the same wrt_clk |
| Recovery.RecoveryAgain | lib/recovery.c:111-113 | A second recovery, on the truncated logs, chooses the same entries |
| NvLog.Log.Enq | lib/nvlog.c:280-349 | The queue grows by one entry that does not straddle the end, or not at all; the log stays sound if and only if the bogus item, written before the capacity check, fits, and no entry takes the whole buffer from its middle |
| NvLog.Log.Put | lib/nvlog.c:306-342 | A header written at the tail overwrites nothing live exactly when head + log_size is not passed |
| NvLog.Log.Fill | lib/ckptlog.c:75-91 | Filling a reserved entry damages no other entry, header or durable line |
| NvLog.Log.PeekHead | lib/nvlog.c:414-435 | Returns the oldest entry, stepping over one bogus item; the queue is unchanged |
| NvLog.Log.Deq | lib/nvlog.c:437-459 | Returns and removes the oldest entry |
| NvLog.Log.EnqPersist | lib/nvlog.c:351-412 | Less than a lap behind, exactly the lines between the durable and the volatile tail are flushed before the tail becomes durable; exactly a lap behind, nothing happens |
| NvLog.Log.DeqPersist | lib/nvlog.c:461-468 | The durable head moves up without losing a durable entry, unless it passes the durable tail |
| NvLog.Log.Load | lib/nvlog.c:238-250 | A reloaded log has the entries found between the durable counters, its volatile and durable counters are both the durable ones found, and all its entries are durable |
| NvLog.CrashKeeps | lib/nvlog.c:351-412 | Whatever mixture of flushed and unflushed lines a crash leaves, the durable entries are intact and in order |
| NvLog.CrashTwice | lib/nvlog.c:238-250 | After a crash, a reload and a second crash, with any mixture of lines each time, the queue is still the one that was durable before the first |
| NvLog.Flushed | lib/nvlog.c:383-403 | Copying the one or two stretches between the tails copies exactly the lines of the positions in between |
| NvLog.QueueAgree | lib/nvlog.c:280-349 | Entries depend on the lines between head and tail only |
| Ring.BogusApart | lib/nvlog.c:306-318 | At most one bogus item lies between two entries |
| Ring.WrapTest | lib/nvlog.c:306-307 | The wraparound test holds exactly when the entry would reach or pass the end of the buffer |
| Ring.PlacesDiffer | lib/nvlog.c:55-58 | Positions less than a lap apart never share a place |
| Ring.ChainRange | lib/nvlog.c:280-349 | Items lie between head and tail and none straddles the end |
| TvLog.Log.Alloc | lib/tvlog.c:36-117 | A bogus item when the entry would reach the end; padding such that behind every entry a write-set header fits |
| TvLog.Log.BeginSet | lib/tvlog.c:144-163 | A write-set header never needs a bogus item, and overwrites nothing live |
| TvLog.Log.Append | lib/timestone.c:748-764 | A copy joins the walk and its object is locked, or nothing is locked; the walk still ends at the tail if and only if the bogus item's size fits its 16-bit field, or, after a failed lock, if there was no bogus item |
| TvLog.Log.AppendBegin | lib/tvlog.c:137-177 | The new copy's header lies behind the write set and damages neither it nor any earlier one |
| TvLog.Log.AppendEnd | lib/tvlog.h:34-46 | num_objs counts the copy and the bogus item in front of it; nothing else in the log changes |
| TvLog.Log.MarkFreed | lib/tvlog.c:207-294 | The walk meets every copy once and marks exactly those of freed objects; no finished write set changes |
| TvLog.Log.UnlockCommit | lib/tvlog.c:296-354 | Every copy gets the commit clock; every lock but those of freed objects is released; no finished write set changes |
| TvLog.Log.Commit | lib/tvlog.c:404-446 | The write set is finished and exactly the locks it took are released, freed objects excepted; no finished write set changes |
| TvLog.Log.Abort | lib/tvlog.c:356-457 | The locks are those from before the write set, and the log ends where it began, also after a failed lock |
| TvLog.Log.DropFirst | lib/tvlog.c:720-818 | The walk over the oldest write set leads exactly to the next one |
| TvLog.WalkStep | lib/tvlog.c:179-205 | num_objs steps of the walk visit the items in order and end at the end of the write set |
| TvLog.GrownOk | lib/tvlog.c:59-117 | A bogus item of 64 KiB or more breaks the walk, any smaller one does not |
| TvLog.StaysRoomy | lib/tvlog.c:36-57 | Behind a padded entry a write-set header fits without a bogus item |
| TvLog.ReleaseUndoesLock | lib/tvlog.c:356-387 | Releasing the copies' locks restores the locks from before, with freed objects kept |
| TvLog.LockedMeans | lib/timestone.c:753-764 | Every copy's object is locked at that copy, no object twice, and no other lock is touched |
| TvLog.Relabel | lib/tvlog.c:296-354 | Rewriting a copy's clock or type leaves every walk intact |
| RluViews.StableReferences | benchmark/rlu/rlu.c:911-964 | In every reachable state, all pointers a section has obtained for one object lead to one value, and each of them, copy or original, still holds it |
| RluViews.CopiesStayInPlace | benchmark/rlu/rlu.c:382-388 | The write set a section's stolen copy lies in is finished, not reset, and never in the ring place its owner is filling |
| RluViews.SkippingChecksIsSound | benchmark/rlu/rlu.h:225-235 | A section that skips the lock checks, its versions having been equal, would have been sent to the original of every object by the checks too |
| RluViews.ViewStable | benchmark/rlu/rlu.c:911-964 | No step of any other thread, writeback included, changes which value a section has to see for an object |
| RluViews.DerefIsView | benchmark/rlu/rlu.c:911-964 | What a section has dereferenced is that value, unless it has locked the object itself since |
| RluViews.DerefAnswers | benchmark/rlu/rlu.c:911-964 | RLU_DEREF, on the fast and the slow path, answers with exactly one pointer, to the section's view of the object, or with the section's own copy, which is its view then |
| RluViews.LockKeepsViews | benchmark/rlu/rlu.c:966-1054 | Locking an object gives the section a copy with the value it saw, and changes nobody's view of any object, its own included |
| RluViews.WriteIsSeen | benchmark/rlu/rlu.c:1050-1054 | What a section writes to its copy is its view of the object from then on; its other views stay |
| RluViews.LeaveKeepsSet | benchmark/rlu/rlu.c:657-672 | A section that has written leaves its write set and locks as they are, and has to write back at once exactly when max write sets wait |
| RluViews.ReleaseAnswers | benchmark/rlu/rlu.c:334-376 | When a lock is released after the writeback, the object holds what the section wrote, and is free |
| RluViews.AbortedAnswers | benchmark/rlu/rlu.c:1064-1080 | An abort that is over has left no lock of its write set, and every object's value and every finished write set as it was |
| RluViews.RunCounted | benchmark/rlu/rlu.c:630-640 | Along every run the commit counter is behind the versions given out by exactly the writers under way; without any the two counters are equal |
| RluViews.BeginSkips | benchmark/rlu/rlu.c:856-879 | A section that begins when no writer is under way and nobody has synchronized since skips the lock checks, unless it has copies of its own |
| RluViews.NobodyStuck | benchmark/rlu/rlu.c:502-650 | Along every run each thread has a next step, or waits in a synchronization for a section of another thread that began before its commit |
| RluViews.WritebackWaited | benchmark/rlu/rlu.c:530-579 | While a writer writes back, every running section began late enough to use the writer's copies |
| RluViews.RunInv | benchmark/rlu/rlu.c:455-1080 | The invariant of locks, versions, quiescence and readers holds in every state of every run |
| RluViews.InitInv | benchmark/rlu/rlu.c:707-785 | It holds at the start |
| RluSteps.EqualIsClean | benchmark/rlu/rlu.c:856-879 | Equal counters mean that every writer not newer than the section has counted its commit, although the counters are read one after the other |
| RluSteps.NothingToSteal | benchmark/rlu/rlu.c:937-958 | With is_steal or is_check_locks off, no copy is one the section would have to use |
| RluSteps.FullMeansFull | benchmark/rlu/rlu.c:657-672 | The ring of write sets is full only when a writeback is due anyway, and never holds a whole lap |
| RluSteps.LockInv | benchmark/rlu/rlu.c:966-1054 | Locking a free object installs a copy nobody else may use yet; what it contains is RluViews.LockKeepsViews |
| RluSteps.WriteInv | benchmark/rlu/rlu.c:1050-1054 | Writing to an own copy changes no other section's values |
| RluSteps.ResolveInv | benchmark/rlu/rlu.c:911-964 | The slow path, with the writer's version read after the lock, keeps the invariant |
| RluSteps.UnlockInv | benchmark/rlu/rlu.c:410-446 | Aborting gives the locks back one by one |
| RluSteps.SyncInv | benchmark/rlu/rlu.c:594-624 | Raising the global version and taking it as writer version makes the write sets usable by exactly the sections that begin later |
| RluSteps.CaptureInv | benchmark/rlu/rlu.c:502-528 | Recording run counters one after the other loses no section that began before |
| RluSteps.PassInv | benchmark/rlu/rlu.c:541-560 | A section whose counter has moved, or that began late enough, need not be waited for |
| RluSteps.ResetInv | benchmark/rlu/rlu.c:382-388 | The write sets written back last time may be reset once nobody is waited for |
| RluSteps.CopyBackInv | benchmark/rlu/rlu.c:334-370 | Overwriting an original that no running section uses |
| RluSteps.ReleaseInv | benchmark/rlu/rlu.c:372-376 | Unlocking an object whose original now has the copy's value |
| RluSteps.FinishInv | benchmark/rlu/rlu.c:630-640 | The writer version goes back to MAX before the commit is counted |
| RluSteps.CountInv | benchmark/rlu/rlu.c:636-639 | Counting a commit keeps the counted versions exactly those finished |
| RluViews.SectionInv | benchmark/rlu/rlu.c:856-1080 | Every step inside and at the ends of a section keeps the invariant |
| RluViews.SyncStepInv | benchmark/rlu/rlu.c:502-650 | Every step of a synchronization keeps the invariant |
| RbTree.Tree.Insert | benchmark/versioning/tree_vrbtree.c:514-645 | The red-black tree stays one, the key set gains exactly the key, and the result says whether it is new; no node is lost, and if the key was there nothing changes |
| RbTree.Tree.Delete | benchmark/versioning/tree_vrbtree.c:742-901 | The red-black tree stays one, the key set loses exactly the key, and the result says whether it was there; exactly one node goes, and if the key was not there nothing changes |
| RbTree.Tree.Find | benchmark/versioning/tree_vrbtree.c:533-547 | The descent ends at the node with the key, or at the one place in the search order where it belongs |
| RbTree.Tree.RepairReds | benchmark/versioning/tree_vrbtree.c:564-634 | From a red leaf below a red node to a proper tree with the same keys, in finitely many rounds |
| RbTree.Tree.UncleStep | benchmark/versioning/tree_vrbtree.c:581-609 | A red uncle: three colours change and the only flaw is now two levels up |
| RbTree.Tree.TurnStep | benchmark/versioning/tree_vrbtree.c:611-634 | A black uncle, or none: one or two rotations and two colours leave no flaw |
| RbTree.Tree.DeleteThin | benchmark/versioning/tree_vrbtree.c:781-793 | A node with one child at most gives it its place; the child is red and makes up for it, or the paths are short by one |
| RbTree.Tree.DeleteFull | benchmark/versioning/tree_vrbtree.c:795-866 | The successor leaves its place and takes the node's, with the node's colour |
| RbTree.Tree.Successor | benchmark/versioning/tree_vrbtree.c:799-807 | The leftmost node on the right: no key lies between the two |
| RbTree.Tree.Rebalance | benchmark/versioning/tree_vrbtree.c:647-740 | From paths one black node short below some node to a proper tree with the same keys, in finitely many rounds |
| RbTree.Tree.StepRedSibling | benchmark/versioning/tree_vrbtree.c:665-679 | A red sibling is turned up; the shortage stays and the sibling is black |
| RbTree.Tree.StepBlackNephews | benchmark/versioning/tree_vrbtree.c:685-714 | Black nephews: the shortage ends at a red parent, or moves up |
| RbTree.Tree.StepNearRed | benchmark/versioning/tree_vrbtree.c:715-727 | A red near nephew becomes the sibling, with a red far child |
| RbTree.Tree.StepFarRed | benchmark/versioning/tree_vrbtree.c:728-737 | A red far nephew ends the shortage |
| RbTree.Tree.Rotate | benchmark/versioning/tree_vrbtree.c:397-483 | Both rotations: four links change, the order of the keys does not |
| RbShape.InvChecks | benchmark/versioning/tree_vrbtree.c:486-509 | Everything rbtree_check asserts, on the way down from any node, holds of a proper tree, and its black counts are the labels |
| RbShape.TreeChecks | benchmark/versioning/tree_vrbtree.c:525-533 | The whole check, from the top with a red parent colour as the callers make it, holds of a proper tree |
| RbShape.SearchDecides | benchmark/versioning/tree_vrbtree.c:533-548 | A search from the top finds exactly the keys of the tree |
| RbShape.EveryNodeFound | benchmark/versioning/tree_vrbtree.c:533-547 | Every node is where the search for its key ends, so no key occurs twice |
| RbShape.RotateShape | benchmark/versioning/tree_vrbtree.c:397-483 | A rotation keeps search order and parent links everywhere |
| RbShape.RotateKeys | benchmark/versioning/tree_vrbtree.c:397-483 | A rotation changes no key, no colour and no node's existence |
| RbShape.TurnKeeps | benchmark/versioning/tree_vrbtree.c:611-634 | Neither do a rotation and new colours take a node away or give it another key |
| RbInsert.AttachLeaf | benchmark/versioning/tree_vrbtree.c:551-563 | A red leaf at the end of the search leaves order, links and black heights, and at most one red pair |
| RbInsert.RedUncle | benchmark/versioning/tree_vrbtree.c:583-599 | The new colours have one flaw at most, at the grandparent |
| RbInsert.InnerTurn | benchmark/versioning/tree_vrbtree.c:613-618 | After the first of two rotations the red pair is on the outer side |
| RbInsert.OuterTurn | benchmark/versioning/tree_vrbtree.c:619-622 | After the last rotation and the exchange of colours no flaw is left |
| RbDelete.SpliceOut | benchmark/versioning/tree_vrbtree.c:781-793 | Taking out a node with one child keeps order and links, and heights but for one place |
| RbDelete.Rename | benchmark/versioning/tree_vrbtree.c:808-866 | The successor takes over the node's place, links and colour and nothing else changes |
| RbDelete.LeastBehind | benchmark/versioning/tree_vrbtree.c:799-807 | No key lies between the successor's and its lower bound |
| RbBalance.RedSibling | benchmark/versioning/tree_vrbtree.c:665-679 | Turning a red sibling up |
| RbBalance.BlackNephews | benchmark/versioning/tree_vrbtree.c:690-713 | Colouring a sibling with black children red |
| RbBalance.NearRed | benchmark/versioning/tree_vrbtree.c:715-727 | Turning a red near nephew up |
| RbBalance.FarRed | benchmark/versioning/tree_vrbtree.c:728-737 | Turning a sibling with a red far child up |
| Cuckoo.Table.Search | lib-nv-jemalloc/src/ckh.c:70-89 | Looking at two buckets decides whether a key is in the table |
| Cuckoo.Table.TryBucketInsert | lib-nv-jemalloc/src/ckh.c:91-116 | A pair joins the table, or every cell of the bucket is taken |
| Cuckoo.Table.EvictRelocInsert | lib-nv-jemalloc/src/ckh.c:124-193 | For all random choices, the table and the pair in hand together are the old pairs and the new one, reached by the code's path of evictions: each pair taken out goes to its other bucket, into an empty cell if there is one. A failure with random numbers left means that the pair in hand has no empty cell in any of its buckets, and the new pair is in; if every pair of the first bucket has an empty cell elsewhere, there is no failure |
| Cuckoo.Table.TryInsert | lib-nv-jemalloc/src/ckh.c:195-218 | The same, trying the two buckets in order first: with an empty cell in either nothing is evicted; the count is exact |
| Cuckoo.Table.Rebuild | lib-nv-jemalloc/src/ckh.c:224-245 | Every pair of the old table moves into the new one, or the count is restored, and then some pair found no room among others of the old table |
| Cuckoo.Table.Grow | lib-nv-jemalloc/src/ckh.c:247-302 | The least larger table the pairs fit in, with the same pairs, or, only when an allocation fails, the old table; in each size passed over some pair found no room |
| Cuckoo.Table.Shrink | lib-nv-jemalloc/src/ckh.c:304-352 | The table half the size with the same pairs, or the old table if an allocation fails or some pair finds no room |
| Cuckoo.Table.Insert | lib-nv-jemalloc/src/ckh.c:464-486 | Success adds the pair and nothing else, and with an empty cell in either bucket the table does not grow; a failure for want of memory loses the pair in hand, and, if there was none from the start, that is an older pair while the new one is in |
| Cuckoo.Table.Remove | lib-nv-jemalloc/src/ckh.c:488-518 | Exactly the pair with the key is taken out; a table of its least size, or at least a quarter full, is not halved |
| Cuckoo.Table.constructor | lib-nv-jemalloc/src/ckh.c:354-409 | The least table that the items fill to three quarters at most |
| Cuckoo.PairsSet | lib-nv-jemalloc/src/ckh.c:153-156 | Exchanging the contents of one cell exchanges one pair, and counts it |
| Cuckoo.Swapped | lib-nv-jemalloc/src/ckh.c:153-156 | A pair put into a bucket stays while pairs go into other buckets |
| Cuckoo.FirstVictimMoves | lib-nv-jemalloc/src/ckh.c:124-193 | Relocation is tried: an eviction whose first victim, whichever it is, has an empty cell in its other bucket does not fail |
| Cuckoo.PathFails | lib-nv-jemalloc/src/ckh.c:160-175 | An eviction fails only with a pair in hand both of whose buckets are full, and with the new pair in the first bucket |
| Cuckoo.LeftBehind | lib-nv-jemalloc/src/ckh.c:224-245 | A rebuild that fails shows pairs of the old table, one of which finds no room among the others |
| Cuckoo.TurnHits | lib-nv-jemalloc/src/ckh.c:102-113 | Four consecutive cells from any offset, modulo four, are all cells of the bucket |
| Cuckoo.NotThere | lib-nv-jemalloc/src/ckh.c:232-243 | A key further on in the old table cannot yet be in the new one |
| Cuckoo.RestIsNone | lib-nv-jemalloc/src/ckh.c:232-243 | When count pairs have been moved, the rest of the old table is empty |
| Cuckoo.CountIsExact | lib-nv-jemalloc/src/ckh.c:435-442 | The pairs and the empty cells together are all cells |
| MemorySteps.SourceSafe | lib/timestone.c:753-760 | What is duplicated under the lock, the newest copy or the current master, has not been dropped and is not about to be |
| MemorySteps.RestSafe | lib/qp.c:469-479 | When a round is over, the next one may drop up to prev: everything held was read before that |
| OpQueues.DurableExact | lib/oplog.c:31-80 | An operation is durable if and only if its entry lies between the head and the durable tail of its thread's oplog |
| OpQueues.RunQueues | lib/oplog.c:85-142 | Along every run: heads and tails of every oplog are in order, each operation has one entry, entries before the head are reclaimed, up to the durable tail durable, and at most the one being committed is behind it |
| OpQueues.NothingQueued | lib/tvlog.c:422-424 | Before an operation is enqueued, all earlier ones of its thread are durable |
| OpQueues.DeqPersistExact | lib/oplog.c:119-122 | Once the durable head has followed, what a crash leaves of an oplog is exactly its durable operations |
| OpQueues.ReclaimExact | lib/oplog.c:102-117 | The oldest operation of an oplog can be reclaimed if and only if its commit clock is before the checkpoint clock the thread has been told of; it is published and durable then |
| TxSteps.OpDeqPersistInv | lib/oplog.c:119-122 | The durable head follows the volatile one later; a crash in between finds operations already reclaimed, too |
| TvLog.Log.AppendAll | lib/tvlog.c:992-1016 | From a log below the high-water mark, all appends of a transaction whose write set takes a quarter of the log at most (header, copies, and what is lost once at the end of the buffer) stay clear of every entry still in the log; locks are taken up to the first one that cannot be had |
| TvLog.AppendFits | lib/tvlog.c:36-117 | The bound behind it: the tail is where header and copies alone put it until the end of the buffer is crossed, and from then on ahead by one gap or padding at most |
| VListViews.OneEpoch | benchmark/versioning/list_vlist.c:151-165 | Along every run, whatever epoch is stored for a record, in it or in its slots, by whichever helper, is its place in the commit chain |
| VListViews.HelpersAgree | benchmark/versioning/list_vlist.c:151-228 | Every thread about to store an epoch is about to store that one |
| VListViews.ListsOfEpochs | benchmark/versioning/list_vlist.c:129-228 | The list read at any epoch is strictly sorted between the sentinels, the slots lead through it, and it is the list before it with the record's node linked in or taken out |
| VListViews.ReadIsSnapshot | benchmark/versioning/list_vlist.c:129-144 | A read_slot that stops, after slots of others were pushed, stamped or given up, stops at the successor in the list of its epoch |
| VListViews.NeverLost | benchmark/versioning/list_vlist.c:136-141 | The assertions of read_slot never fail: there is a slot, and it does not lead back to its node |
| VListViews.SnapshotsStay | benchmark/versioning/list_vlist.c:110-228 | No step of any thread changes the list of an epoch, or what a reader of that epoch finds behind any node |
| VListViews.FirstCommitterWins | benchmark/versioning/list_vlist.c:204-215 | Of two committed records with a node in common, the later one was made from a snapshot that has the earlier one |
| VListViews.SnapshotIsNow | benchmark/versioning/list_vlist.c:151-165 | The snapshot of an operation is the list as it is at the moment its scan ends |
| VListViews.OperationsAreAtomic | benchmark/versioning/list_vlist.c:361-457 | Every insertion, deletion and search that has returned has done what it says to the set of keys at one place of the chain between its call and its return |
| VListViews.ReturnsBetween | benchmark/versioning/list_vlist.c:361-457 | An operation that returns says what came of it; its place in the chain is the last one at its call or a later one, for a change later than any at its call, and exists when it returns |
| VListViews.GivesUpOnConflict | benchmark/versioning/list_vlist.c:188-229 | A writer gives an attempt up only because of a record committed after its snapshot that shares a node with it |
| VListViews.StampAnswers | benchmark/versioning/list_vlist.c:188-247 | A committed slot is stamped with its record's place in the chain, a slot of an attempt given up is put out of use, and the writer goes on from its own record |
| VListViews.AdvertiseAnswers | benchmark/versioning/list_vlist.c:48-58 | Advertising moves the record others start from forward to the thread's own; who joins starts from it, at its epoch |
| VListViews.NobodyWaits | benchmark/versioning/list_vlist.c:110-457 | Along every run every operation under way has a next step, whatever others do |
| VListViews.RunInv | benchmark/versioning/list_vlist.c:110-247 | The invariant of slots, records, lists and threads holds in every state of every run |
| VListViews.StepOk | benchmark/versioning/list_vlist.c:110-247 | Every action keeps it |
| VListSteps.EpochDecides | benchmark/versioning/list_vlist.c:129-144 | An epoch in range means that the slot counts in the snapshot, any other that it does not |
| VListCas.OwnOnTop | benchmark/versioning/list_vlist.c:110-127 | When a record commits, its slots lie above every slot of their nodes that counts, although others pushed slots after it |
| VListCas.CommitKeys | benchmark/versioning/list_vlist.c:188-229 | The list after a commit has exactly the key more, or less, that the operation says |
| VListCommit.FoundNext | benchmark/versioning/list_vlist.c:204-216 | Without a node in common, the place found in the snapshot is still the right one after one more committed record |

## Left out

- The protocol's objects, logs and threads are values of a state machine, not Dafny objects:
  what interleaves is atomic actions, and pointers are indices, so aliasing of memory shows
  only where the actions make it explicit (which record a pointer names, and whether it has
  been dropped).
- Freed objects in the protocol (`ts_free`, tombstones, `ckptlog_cleanup`): `TvLog` has
  the freed copies that stay locked, but their deallocation is not modelled.
- `try_lock_const` and nested locking; the lock `try_lock_obj` takes and gives back when
  `p_copy` has changed is one failed step.
- Isolation levels above snapshot isolation, and their validation.
- Registering and deregistering threads, zombie threads, and their logs.
- Replaying operations after a crash: the call is disabled in the code, and its validity
  filter looks at the local clock.
- The checkpoint log in the protocol is a sequence of entries; that it is a ring of bytes
  is the subject of `NvLog`. The head that `ckptlog_reclaim_x` moves forward and puts back
  is a separate cursor.
- The operation log in the protocol is a queue of entries; that it is a ring of bytes, and
  what a persist flushes, is the subject of `NvLog`. Forced reclamation is left out.
- TxSteps.LockTakeInv: taking the lock, looking at `p_copy` again and starting to copy is
  one step, at the second look: nobody else can lock the object in between, and an attempt
  that finds `p_copy` changed gives the lock back and has no effect. The source of the copy
  is held from then on. Reading the clock of `p_copy` before the attempt is one step with
  loading the pointer.
- Durability.RecoveryExact: entries dropped from a checkpoint log are taken to be intact
  until its head is durable again, although the room may be reused before.
- Unlocking one copy (mark, release, tell the predecessor) is one step, and so is
  detaching one.
- `tvlog_reclaim_x` caches the tail when it starts; here it sees the tail as it is, which
  allows every run the code has and some more.
- The room left in the logs, water marks and requests in the protocol: a round may begin at
  any time. `TvLog.Log.AppendAll` begins where ts_begin has found the log below its mark.
- Version 0 of an object stands for the original before its first update; allocating the
  volatile header is left out.
- Termination of the waiting loops under a fair scheduler (`Progress` says what each waits
  for, and that this can go on), counters that wrap around, weak memory ordering.
- `nvlog_truncate_head`, `nvlog_truncate_tail` as operations of `NvLog`; `Recovery` truncates
  sequences.
- RLU: the global version counters are modelled, not the variant with Ordo clocks; reading
  the global version and raising it is one step; writer locks of the coarse-grained mode,
  `rlu_free` and threads that come and go are left out. A lock that fails has no effect
  other than the abort its caller makes.
- Red-black tree: one writer's snapshot, whose slots change in place. New slots, records,
  epochs and the first-committer test at the end of the operation are left out. `rot_left`
  and `rot_right` are one method with a direction. A deletion first takes the successor out
  of its place and then lets it take the node's; the code writes the same slots in one pass.
  The values are C ints.
- Cuckoo table: four cells per bucket, as on 64-bit machines; random numbers are a finite
  sequence, and an eviction that uses it up ends like one that meets a cycle; a table too
  large to ask for is an allocation that fails. `ckh_iter`, `ckh_delete` and the hash
  functions are left out; keys are numbers and hashes any functions.
- Versioned list: nothing is ever freed, so quiescent states, deferred freeing and the reuse
  of nodes, slots and records are left out; keys lie strictly between the values of the two
  sentinel nodes; a CAS that fails changes nothing and is no step.
- The Bonsai tree, the other benchmark data structures and the rest of the allocator are not
  part of this model.
