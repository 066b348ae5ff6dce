# A model of the content-addressed block store

The store keeps objects as lists of blocks. A block is a file named by the hash of
its content, at a fanout depth chosen when it is first written, together with a
record that counts its references. Object records live in namespace databases;
block, part and upload records live in one shared database. PUT, DELETE, CLONE,
multipart complete and abort, the group committer and the stale-upload collector
all move those counts concurrently, under a table of striped locks.

The project proves what this is for: no interleaving, failure or crash loses a
block that a record names, counts are conserved exactly, nothing deadlocks and
everything finishes, and the codecs, keys, paths and streams around it are exact.

## Layout

- `Ids`, `Sequences`, `Words`, `Accounting`, `Records`: block ids, machine words,
  references added up over holders, block records and their transactional primitives.
- `Protocol`: the whole system as a transition system. Requests, closers and the
  collector are tasks with program counters; faults, cancellation and crashes are
  steps. `ProtocolInvariant` proves the inductive invariant, `ProtocolTheorems`,
  `ProtocolClone` and `ProtocolUploads` the safety results over whole runs,
  `ProtocolMeaning` that the records of every run are those of a simple store,
  `ProtocolProgress` and `ProtocolWork` that nothing gets stuck and every schedule
  ends, `ProtocolFiles` a run that leaves a block two files, `ProtocolTeardown` what
  dropping a bucket leaks, `ProtocolNames` that no object ends up in a tree the store
  keeps for itself.
- `Stripes`: the lock plan of a batch, and deadlock freedom of plans that end in the
  database lock.
- `GroupCommit`, `GroupFiles`, `CloseGroup`, `CloseAlone`, `Committer`, `WritePath`,
  `References`, `Uploads`, `Usage`, `CasFs`: the operations in their imperative form.
  The environment may refuse any read, write, rename, sync or commit; ghost fields
  count the refusals and record every intermediate durable state, so that contracts
  can say which failures are owed to which refusals, and what a kill between any two
  writes leaves.
- `GroupRefinement`: a call of the imperative group close is a run of the protocol.
- `Holders`: the recount behind fsck, tied to the crash states of the protocol.
- `BlockStream`, `Rechunk`: reading an object or a range of it, and cutting a body
  into blocks.
- `DirSync`: which directories are synced, in which order, before they are claimed
  durable.
- `Codec`, `RecordFormats`, `PartKeys`, `DiskWalk`: record bytes, part keys and block
  paths.
- `Pairing`: the identity shared by a database and a blocks root.

## Where the code and its comments differ

The model follows the code. Each point is proved in the member named.

- `respcas/src/namespace.rs` says shrinking a record is never refused. It is refused
  when the namespace is still over its limit afterwards (`Usage.ShrinkingIsAccepted`,
  `Usage.ShrinkingIsRefused`).
- A new block is meant to get one file. A staged block keeps the depth chosen when it
  was staged, so it can land beside a file that another group, or a write that failed
  after its rename, has left at another depth since. A run that does this is
  `ProtocolFiles.TwoFilesAreReachable`; exactly when a group leaves a block two files is
  `GroupFiles.TwoFilesExactly`, over the file work that `CloseGroup.CloseGroup` reports,
  and `CloseGroup.CalmTwoFiles` for a group that meets no fault.
- An id list that is empty but names a width of 16 or 32 is accepted, and is written
  back with width 0 (`RecordFormats.IdleWidthIsAccepted`).
- Store ids are described as never replaced. That holds for opens that do not
  overlap. Overlapping opens over one root keep every readable id if and only if none
  writes a marker after another, with another id, did so since its read of it
  (`Pairing.OverlapsKeepIds`, `Pairing.OverlapCanReplaceAnId`).
- A half-adopted store is described as having one completion. It completes unless
  another database put its own id on the root first; then it is refused for good
  (`Pairing.HalfAdoptionIsFinished`, `Pairing.AdoptionCanBeOvertaken`).
- Deleting a bucket is meant to give every reference back. A write that publishes
  between the walk over the tree and its drop is leaked
  (`ProtocolTeardown.LateWriteIsLeaked`); the drop leaks nothing exactly when no object
  left in the tree has a block (`ProtocolTeardown.DropLeaksExactly`).
- The usage counter is exact as long as a size difference fits 64 signed bits and the
  total 64 unsigned bits; release-build wrap-around is modelled
  (`Usage.MoveIsExact`).
- The directory sync stops below a parent that is known durable, so a parent that has
  just gained a child directory is not synced again (`DirSync.KnownParentIsLeftAlone`,
  `DirSync.NewChildOfTheRoot`).
- The orphan sweep reads a part and checks its upload at different times, so its list
  can hold a part that a complete has just inherited
  (`ProtocolUploads.CollectorMayListAnInheritedPart`); taking the record out first is
  what keeps it harmless (`ProtocolUploads.ReaperMeetsOnlyOrphans`).

## Model

| member | source | states |
|---|---|---|
| `ProtocolTheorems.RunIsSafe` | cas-storage/src/cas/delete_path.rs:16-20 | Over every interleaving of PUT, DELETE, CLONE, multipart, group commit, collector and bucket teardown, with faults and crashes anywhere: every block named by an object or part record has a block record counting at least that holder's occurrences, its count is at least one, and its file is at the recorded depth. |
| `ProtocolTheorems.RunConserves` | cas-storage/src/cas/delete_path.rs:66-92 | In every reachable state and for every block: count = object records + part records + what operations in flight owe + the leak, per occurrence. |
| `ProtocolTheorems.StepLeaks` | cas-storage/src/cas/write_path/batch.rs:314-356 | The leak never shrinks, and a step adds to it if and only if it is one of: abandoning a request that owes something, a part insert over a record that names blocks, committing for a client that hung up, failing a member that had flushed, a failed decrement, a failed bump after others, a committed bump that was not reported, dropping a tree with references in it, or a crash with something owed. |
| `ProtocolTheorems.QuietCountsAreExact` | cas-storage/src/cas/write_path.rs:160-187 | Once nothing is in flight: every count equals the walked holders if and only if no step of the run leaked; then a block record exists exactly for the blocks that have a holder. Overwrites sharing blocks with what they displace, repeated blocks, clean teardowns, first-batch failures and harmless cancels are all covered. |
| `ProtocolTheorems.LeakFreeRun` | cas-storage/src/cas/delete_path.rs:66-92 | A whole run leaves the leak as it was if and only if none of its steps leaks. |
| `ProtocolTheorems.DecrementNeverMisses` | cas-storage/src/metastore/meta_store.rs:83-97 | In every reachable state a decrement that is about to happen finds its record, with a count it can be taken from. |
| `ProtocolTheorems.UnlinkHitsNoLiveBlock` | cas-storage/src/cas/delete_path.rs:36-64 | Between the decrement that removed a record and its unlink, nobody has re-inserted the block or placed a file for it; so the unlink leaves every block that is still recorded its file. |
| `ProtocolTheorems.CrashAnywhereIsSafe` | cas-storage/src/cas/delete_path.rs:16-20 | A kill at any step of any run leaves the durable state untouched and safe: no record without its file, every count at least the walked holders, the difference being the leak. |
| `ProtocolTheorems.RowWalkAgrees` | cas-storage/src/scrub/holders.rs:155-218 | A recount that enumerated bucket rows instead of trees would agree with the true one on a block if and only if no object of a row-less bucket names it. |
| `ProtocolInvariant.StepKeeps` | cas-storage/src/cas/delete_path.rs:66-92 | The inductive invariant behind the theorems: every step of every task keeps counts exact, records filed, stripes held where the program counter says so, and every group's members its own. |
| `ProtocolInvariant.OwedIsCounted` | cas-storage/src/cas/delete_path.rs:76-85 | Because the record is removed before its references, a task that still owes a reference always finds it counted. |
| `ProtocolInvariant.TakePartsConserves` | cas-storage/src/cas/uploads.rs:164-214 | A claim moves the references of the named parts to the claimer, all of them and no others. |
| `ProtocolClone.RefusedCloneIsNeutral` | cas-storage/src/cas/clone_path.rs:151-201 | A clone answered "not cloned", over any interleaving from any reachable state, published no record, and its own steps changed no count beyond what its own failed give-backs leaked. |
| `ProtocolClone.RefusedCloneBalances` | cas-storage/src/cas/clone_path.rs:151-201 | The same as an equation per block: bumps taken equal decrements given back plus the leak of its failed decrements. |
| `ProtocolClone.PublishedRecordIsLive` | cas-storage/src/cas/clone_path.rs:85-138 | In the very state a record is published in, by a clone or any other write, each of its occurrences is counted and each of its blocks has its file, whatever concurrent deletes did to the source. |
| `ProtocolMeaning.RecordsMeanTheRequests` | cas-storage/src/cas/write_path.rs:160-187 | Over every run, whatever the interleaving, failures and crashes, the object, part and upload records are those of a simple store without tasks, locks or counts in which a delete, a claim or a reap takes effect at its one step and a write at its publication, under the name it began with and with the list put together for it. |
| `ProtocolMeaning.CloneWritesTheCopy` | cas-storage/src/cas/clone_path.rs:85-138 | From any state and over any interleaving without a crash: the record a clone publishes is under its destination and lists the source's blocks as they were when it began; no other record changes at that step, and the clone publishes nothing before it. |
| `ProtocolMeaning.PutWritesWhatItSealed` | cas-storage/src/cas/write_path.rs:63-116 | Likewise a put publishes once, under the name it began with, the batches it sealed, in order. |
| `ProtocolMeaning.CompleteWritesTheParts` | cas-storage/src/cas/uploads.rs:164-214 | Likewise a complete that won publishes once, under the upload's key, the blocks of the named parts in the order of the numbers. |
| `ProtocolUploads.OneWinnerPerUpload` | cas-storage/src/cas/uploads.rs:87-104 | Over every run at most one complete, abort or sweep wins a given upload, and a won upload is never live again. |
| `ProtocolUploads.OneFatePerPart` | cas-storage/src/cas/uploads.rs:291-325 | Over every run each part record ever inserted is still in the tree or has exactly one fate: inherited by one complete, reaped by one caller, or overwritten. |
| `ProtocolUploads.ReaperMeetsOnlyOrphans` | cas-storage/src/cas/gc.rs:176-268 | Also when a complete took the part between the sweep's read of it and its check of the upload: a reaper's list names only parts of uploads that are over; a listed part that was inherited is passed by without a change; one still there has had no fate, and being reaped becomes its only one. |
| `ProtocolUploads.CollectorMayListAnInheritedPart` | cas-storage/src/cas/gc.rs:176-268 | That race exists: from every state with a scanning collector and a live upload, a complete can take a part which the collector then lists. |
| `ProtocolUploads.ClaimTakesExactlyTheNamed` | cas-storage/src/cas/uploads.rs:164-214 | The claim succeeds if and only if every named part is there and none is named twice; it then removes exactly those records and hands over their blocks in naming order. |
| `ProtocolProgress.StepKeepsLocks` | cas-storage/src/cas/stripes.rs:80-119 | Every step keeps each held stripe with a task whose program counter will give it back, each closer taking stripes upwards, and each handed-over batch in the group of a closer. |
| `ProtocolProgress.UnfinishedMoves` | cas-storage/src/cas/stripes.rs:80-119 | In every such state with anything unfinished, some operation can take a proper step: no circle of waiting, no stripe left behind by a task that finished or failed. |
| `ProtocolFiles.TwoFilesAreReachable` | cas-storage/src/cas/group_commit.rs:430-666 | For every table size, block and two depths in range there is a run from the empty store after which the block has one record and both files: two requests stage the block before either lands, the first group renames its file and then fails, the second group lands its own and commits. |
| `ProtocolFiles.FilesStayInRange` | cas-storage/src/cas/placement.rs:71-96 | Over every run, every block file lies at a depth between one and the width of its name. |
| `ProtocolNames.RunNamed` | cas-storage/src/metastore/meta_store/ops.rs:324-342 | Over every run whose requests name no reserved bucket, no object, upload or pending write ever does. |
| `ProtocolWork.StepWorks` | cas-storage/src/cas/group_commit.rs:273-343 | Every step that is not new work, failures, hang-ups and writes reported as failed after their rename included, strictly decreases the work ahead, records still to be displaced and attempts at files counted in. |
| `ProtocolWork.EveryScheduleEnds` | cas-storage/src/cas/group_commit.rs:273-343 | From any reachable state, whatever the schedule and whichever steps fail, at most a fixed number of steps can follow without new work; such a schedule can be continued if and only if some operation is unfinished, and at the end every stripe is free. |
| `ProtocolWork.EveryStateCanRest` | cas-storage/src/cas/group_commit.rs:345-405 | Every reachable state has a fault-free continuation that finishes every operation and frees every stripe; there every count is the walked holders plus the leak. |
| `Records.RecordAllCounts` | cas-storage/src/metastore/meta_store/transaction.rs:350-402 | Recording a list adds one reference per occurrence to each block, and nothing to any other. |
| `Records.RecordAllDepths` | cas-storage/src/metastore/meta_store/transaction.rs:51-80 | A bump keeps the depth of the record that was there; a fresh record takes the depth its file was placed at. |
| `Records.DecrementCounts` | cas-storage/src/metastore/meta_store/transaction.rs:302-332 | A decrement of a counted block takes exactly one reference, off that block only. |
| `References.ReleaseAllCounts` | cas-storage/src/cas/delete_path.rs:93-134 | Releasing a list takes one reference off per occurrence and never goes below none; a record goes exactly when its last reference does, and keeps its depth until then. |
| `References.TakeThenGiveBack` | cas-storage/src/cas/clone_path.rs:151-201 | Taking a list of references and giving the list back restores the records exactly. |
| `References.DecrementOneBlock` | cas-storage/src/cas/delete_path.rs:36-64 | Record first, unlink second: every record keeps its file on every path; a missing record is no failure; without faults the file goes exactly when the record does. |
| `References.ReleaseBlocks` | cas-storage/src/cas/delete_path.rs:93-134 | The loop never gives up: released and lost occurrences make up the list, the records are the old ones less the released; each lost occurrence, and each file left behind of a record that went, had a failed attempt of its own; no other file is touched. Without faults nothing is lost and exactly the files of the records that went are gone. |
| `References.BumpOne` | cas-storage/src/cas/clone_path.rs:151-201 | A bump is refused exactly when the block has no record; a bump that never reported may or may not have committed. |
| `References.GiveBack` | cas-storage/src/cas/clone_path.rs:151-201 | Giving back restores the records up to what could not be released, which is never more than was taken nor than there were faults; without faults records and files are as before. |
| `References.AcquireReferences` | cas-storage/src/cas/clone_path.rs:151-201 | All occurrences are taken, without a fault, or the call fails; it refuses only a list with a block that is not there, and a refusal restores the counts up to one per fault. Without faults it succeeds exactly when every block is there, and a refusal restores records and files. After a store error exactly a prefix of the list stays counted. |
| `Stripes.LockPlan` | cas-storage/src/cas/stripes.rs:80-119 | The plan names exactly the stripes of the batch, strictly ascending, whatever order and repetitions the batch has. |
| `Stripes.EveryStripeIsUsed` | cas-storage/src/cas/stripes.rs:73-78 | Every stripe of a table of up to 65536 guards some block, for any fourteen bytes behind the two that decide. |
| `Stripes.PlanIsUnique` | cas-storage/src/cas/stripes.rs:80-119 | Two batches that need the same stripes have the same plan. |
| `Stripes.NoDeadlock` | cas-storage/src/cas/stripes.rs:80-119 | With any number of tasks over any sections of stripes and database lock, every reachable state with unfinished work has an enabled step. |
| `Stripes.EveryScheduleFinishes` | cas-storage/src/cas/stripes.rs:80-119 | Over every interleaving of planned batches: work is left if and only if a step is enabled, and the number of steps is fixed at the start. |
| `Stripes.UnsortedPlansDeadlock` | cas-storage/src/cas/stripes.rs:80-119 | The sort is needed: for any two stripes, taking them in batch order reaches a state where neither task can ever move. |
| `Stripes.RepeatedStripeDeadlocks` | cas-storage/src/cas/stripes.rs:80-119 | The deduplication is needed: a batch naming one stripe twice waits for itself. |
| `GroupCommit.BlockStore.HasLiveRecord` | cas-storage/src/cas/write_path/batch.rs:281-287 | Answers "yes" only for a block that has a record; a failed read answers "no". |
| `GroupCommit.BlockStore.WriteBlock` | cas-storage/src/cas/block_disk.rs:332-388 | A success leaves the file at the chosen depth; a failure leaves no file, or one that has strayed when it came after the rename: the history of strays grows in that case and no other. |
| `GroupCommit.BlockStore.ChooseDepth` | cas-storage/src/cas/placement.rs:71-96 | The depth is in range, and where files of the block already lie it is that of the shallowest; the loop is the probe down the directory chain. |
| `GroupCommit.RecordMember` | cas-storage/src/cas/write_path/batch.rs:524-545 | One member inside a transaction: one reference per occurrence, and the number of blocks it made new; or an error with the member undecided. |
| `GroupFiles.ReadLive` | cas-storage/src/cas/group_commit.rs:430-666 | One read per distinct id of the group, each tried: whatever it reports live has a record, and each record it missed is a read that failed. |
| `GroupFiles.RewriteAll` | cas-storage/src/cas/group_commit.rs:430-666 | A block that deduplicated against a record gone since gets a file, once per group, at the depth of a file of it that is already there if any; every such block is tried, so that each one without a file is a write that failed; all attempts at a block go to the same place, and what a failed one left behind is accounted for. |
| `GroupFiles.SelectAll` | cas-storage/src/cas/group_commit.rs:430-666 | One staged file lands per distinct new block, the first one staged in the order of the group, at its own depth; surplus copies are not renamed over it. |
| `GroupFiles.SetAllDepths` | cas-storage/src/cas/group_commit.rs:430-666 | Every entry without a live record learns where the group put its file; a member naming a block with no file, and only such a member, is refused. |
| `CloseGroup.PlaceFiles` | cas-storage/src/cas/group_commit.rs:430-666 | All files are in place before the first record, the crash trail included. The files afterwards are those found, those placed and the strays; overtaken blocks went where a file of theirs lay, everything else placed is the first staged copy; the strays are what this call added to the store's history of writes lost after their rename. |
| `CloseGroup.GroupTransaction` | cas-storage/src/cas/group_commit.rs:430-666 | The shared transaction commits every member that was not refused, in order, or none. |
| `CloseGroup.ReplayAlone` | cas-storage/src/cas/group_commit.rs:667-690 | A replayed member commits whole, exactly when nothing is refused, or not at all, over files already in place. |
| `CloseGroup.CommitOrReplay` | cas-storage/src/cas/group_commit.rs:583-666 | When the group's transaction fails every member that was not refused is replayed by itself: the failed transaction costs nobody anything, and each further error is a fault of that member's own. |
| `CloseGroup.CloseGroup` | cas-storage/src/cas/group_commit.rs:408-690 | A closed group equals its Ok members committed one at a time in order, each answer being that member's own; the others add nothing; every record has its file. Nothing is left untried: each recorded block missed is a failed read, each overtaken block without a file a failed write. If the landing fails everybody fails; otherwise exactly the members with a block that has no file are refused, and the others fail no more often than there were faults after the one that undid the shared transaction. The new files are exactly those placed plus the strays of this call's own writes; without faults all are Ok and exactly the blocks without a record were placed; a kill at any point leaves every record its file and at most one new file per entry. |
| `CloseGroup.StraysAreLostWrites` | cas-storage/src/cas/block_disk.rs:332-388 | The strays of a call are exactly the files its writes lost after their rename, so there are no more of them than lost writes. |
| `GroupRefinement.ClosesByItsSteps` | cas-storage/src/cas/group_commit.rs:408-690 | Whatever a close did to the files and answered, the closer can do by its own steps of the protocol from the state in which it holds the group's stripes: placements known and lost, one commit or failure per member in order, the end. The run ends with those records and files, every member told its answer, the stripes free and nothing else changed. |
| `GroupRefinement.CloseAsRun` | cas-storage/src/cas/group_commit.rs:408-690 | A call of the imperative close on the protocol's records and files is such a run: the protocol and the code agree on records, files and answers. |
| `GroupRefinement.JoinBrings` | cas-storage/src/cas/group_commit.rs:273-343 | The state such a run starts from is the one gathering leads to: each batch that joins brings its blocks and one attempt at each block's file. |
| `CloseGroup.KillLeavesFewStrays` | cas-storage/src/cas/group_commit.rs:408-690 | A kill at any durable state of a close adds at most one recordless file per entry of the group. |
| `GroupFiles.TwoFilesExactly` | cas-storage/src/cas/group_commit.rs:430-666 | A group leaves a block two files if and only if it had two before, or the first staged copy of it landed at one depth while a file of it lay at another, found there or left by a write of this group that failed after its rename. |
| `GroupFiles.NewBlockGetsOneFile` | cas-storage/src/cas/group_commit.rs:430-666 | A block of which no file was there, and no write failed after its rename, gets at most one. |
| `CloseGroup.CalmTwoFiles` | cas-storage/src/cas/group_commit.rs:430-666 | For a group that meets no fault the condition is one on its input: a block ends with two files if and only if it had two, or it has no record, no member deduplicated it, and a file of it lies elsewhere than where the first member staged it. |
| `CloseGroup.InOrderCounts` | cas-storage/src/cas/group_commit.rs:408-690 | Each count grows by exactly the occurrences of the members answered Ok. |
| `CloseGroup.WrittenAreNew` | cas-storage/src/cas/group_commit.rs:408-690 | The blocks the answers report as written are exactly the records that are new. |
| `Committer.Station.Gather` | cas-storage/src/cas/group_commit.rs:273-343 | A group is a run of the queue behind its first batch; it closes at the cap, at the batch that does not fit, which is carried and not lost, or when the queue is dry, and within a window only once that has run out or nobody is left to submit. |
| `Committer.Station.CommitGroup` | cas-storage/src/cas/group_commit.rs:345-405 | Each member is sent, under its own ticket, exactly the outcome the in-order commit gives it, block numbers included; members fail only as a close allows, for files or faults of their own; the durable state moves as one close, with its new files and every state a kill could leave bounded by the group's blocks. |
| `Committer.Station.Run` | cas-storage/src/cas/group_commit.rs:273-405 | For any window and arrival pattern: groups, the batch a vanished store failed, and what was never received are the submissions in order, and a batch is failed that way exactly when the store has vanished; the groups are closed one after another from the first durable state to the last; the replies are each member's own outcome of its group's close; no group is empty or over the cap unless one batch is; and the counts are those of the batches answered Ok. |
| `Committer.KilledCloseLeavesFew` | cas-storage/src/cas/group_commit.rs:345-405 | A kill while a group within the cap is closed leaves every record its file and adds at most cap files that no record names. |
| `WritePath.BlockBatch.AddOccurrence` | cas-storage/src/cas/write_path/batch.rs:111-158 | A repeat of a block in the batch is one more reference to it and to no other. |
| `WritePath.BlockBatch.Push` | cas-storage/src/cas/write_path/batch.rs:111-158 | A new block gets one entry, found again under its id. |
| `WritePath.Accumulate` | cas-storage/src/cas/write_path/batch.rs:194-271 | Whichever of the three ways a chunk goes, the batch owes exactly one more reference to its block: a new entry is a hit exactly when the block has a record, and otherwise staged where a file of it lies already. It fails exactly when a read or the staging does, and then the batch is as it was. |
| `WritePath.FlushBatch` | cas-storage/src/cas/write_path/batch.rs:314-397 | A flush counts everything the batch owed and empties it, or counts nothing of it. Alone it fails exactly when something was refused; at the commit station, its files in place and no write lost, only when the transaction and its repetition both were. |
| `CloseAlone.CommitBatch` | cas-storage/src/cas/write_path/batch.rs:399-478 | A request that closes its own batch: the first failure ends it, so it succeeds exactly when nothing was refused; then the records are the batch's, with the true numbers, and exactly the blocks without a record were placed. Otherwise the records are as they were. The files, strays and crash states are accounted for as in a group. |
| `WritePath.StoreObject` | cas-storage/src/cas/write_path.rs:63-116 | Success returns the chunk addresses in order with each occurrence counted once, whatever the batch cap; a failure leaves counted exactly the blocks of the first so many chunks, those whose batches were flushed. |
| `CasFs.Fs.CreateObjectMeta` | cas-storage/src/cas/write_path.rs:224-251 | The record stored under the key is the one given, and no other record changes. Replacing one whose references were taken before releases what it displaced: the counts beyond the object records drop by the new record's occurrences, exact up to one per fault. |
| `CasFs.Fs.PutObject` | cas-storage/src/cas/write_path.rs:118-145 | A PUT over anything stores, under its key, the size and the addresses of its chunks in order, and changes no other record; the surplus of every count over the object records stays what it was up to one per fault, shared and repeated blocks included. A failure leaves the namespace alone and counts exactly the blocks of the batches flushed. |
| `CasFs.PutThenGet` | cas-storage/src/cas/write_path.rs:118-145 | What a PUT stored is what a GET returns: over whatever the disk holds, a verified read of that record that ends has yielded the chunks of the body, in order, given that the hash is injective. |
| `CasFs.Fs.DeleteObject` | cas-storage/src/cas/delete_path.rs:137-171 | A DELETE takes exactly its record and keeps that surplus, up to one per fault; an absent key is no error. |
| `CasFs.Fs.CloneObject` | cas-storage/src/cas/clone_path.rs:85-138 | A clone stores under its destination exactly the source's record, and changes no other; run alone it says "not there" only of a source that is not, and errors only after a fault. The surplus stays what it was up to one per fault, or after an error up to the source's references. |
| `CasFs.Fs.BucketDelete` | cas-storage/src/cas/delete_path.rs:174-191 | Row, objects one by one, tree: on success no record of the bucket is left, other buckets are as they were, and the surplus of every count is exactly what it was unless the block store failed to give a reference back; the first error stops it with the remaining records in place. |
| `CasFs.Fs.DropBucket` | cas-storage/src/metastore/meta_store/ops.rs:245-260 | Dropping a bucket outright raises the surplus of each count by exactly the occurrences in the records it takes; a failed drop takes none. |
| `ProtocolTeardown.DropLeaksExactly` | cas-storage/src/metastore/meta_store/ops.rs:245-260 | In any state of the protocol, dropping a tree leaks nothing if and only if every object still in the bucket has an empty block list. |
| `ProtocolTeardown.LateWriteIsLeaked` | cas-storage/src/cas/delete_path.rs:174-191 | For every table size, object, block and depth there is a run in which the bucket is empty once its row is gone, a write in flight publishes its record, and the drop leaks it: a count and a file remain and no record names the block. |
| `Uploads.SharedDb.ClaimUploadWithParts` | cas-storage/src/cas/uploads.rs:164-214 | Upload record and all named parts, or nothing; each part handed over is the record of the number asked for, in order; a refusal of an upload that is there names the first number that is absent or repeated; an error is a fault. |
| `Uploads.SharedDb.ReapPart` | cas-storage/src/cas/uploads.rs:291-325 | Only the caller that took the record releases its blocks; what other holders count never drops, and rises by no more than there were faults; an error changes nothing. |
| `Uploads.SharedDb.ClaimUpload` | cas-storage/src/cas/uploads.rs:87-104 | The caller wins exactly when the record was there, and then it is gone. |
| `Uploads.SharedDb.AbortUpload` | cas-storage/src/cas/uploads.rs:344-414 | Only this upload's parts go; a lost claim or an error touches nothing; a won one counts what it reaped, and each part still there is one that could not be read or not be reaped. |
| `Uploads.SharedDb.SweepAgedUploads` | cas-storage/src/cas/gc.rs:109-162 | Nothing of an upload at or after the cutoff is touched; the count is what went; unless the listing failed, each stale upload still there had an error of its own. |
| `Uploads.SharedDb.SweepOrphanParts` | cas-storage/src/cas/gc.rs:176-268 | No part of an upload with a record is touched; the count is what went; unless the tree could not be opened, each orphan still there had an error of its own. |
| `Uploads.SharedDb.SweepStaleUploads` | cas-storage/src/cas/gc.rs:84-102 | Both phases together: the statistics are the true numbers, what should have gone and has not is covered by the errors, and what others hold rises by no more than there were faults. Without faults what is left is exactly the uploads at or after the cutoff with their parts. |
| `Usage.MoveIsExact` | cas-storage/src/metastore/meta_store/transaction.rs:186-215 | One move of a true counter is true if and only if the size difference fits 64 signed bits and the total 64 unsigned bits. |
| `Usage.MovedIsNearest` | cas-storage/src/metastore/meta_store/transaction.rs:186-215 | In every case the counter moves to the value of its range nearest to the true sum. |
| `Usage.DeltaIsCongruent` | cas-storage/src/cas/write_path.rs:160-187 | The difference handed to the counter is the true one modulo 2^64, in the signed range. |
| `Usage.ApplyIsAccurate` | cas-storage/src/cas/write_path.rs:160-187 | A replace or delete keeps the counter equal to the sum of sizes if and only if it fits; other buckets are never affected. |
| `Usage.LedgerIsExact` | cas-storage/src/cas/write_path.rs:160-187 | Through any interleaving of replace and delete transactions in any buckets, a bucket's counter is the sum of its sizes after every one of them if and only if each write that moves it fits in its turn. |
| `Usage.Namespace.ReplaceObjectRecord` | cas-storage/src/cas/write_path.rs:160-187 | The record given is stored under its key and no other changes; the counter and the displaced object move with it, or nothing does. |
| `Usage.Namespace.TakeObject` | cas-storage/src/cas/delete_path.rs:137-158 | Exactly the record under the key goes and the counter with it, or nothing; an absent key moves nothing. |
| `Usage.QuotaBound` | respcas/src/namespace.rs:272-333 | With a fixed limit, fresh keys and at most k writes of at most S bytes between check and commit, usage never exceeds limit + (k - 1) * S in any run with deletes and failures. |
| `Usage.QuotaBoundIsTight` | respcas/src/namespace.rs:272-333 | Some run reaches that bound, for every limit, k and S that fit the counter. |
| `Usage.ShrinkingIsAccepted` | respcas/src/namespace.rs:272-309 | A smaller replacement is accepted if and only if the namespace is not still over its limit afterwards. |
| `Usage.QuotaMeans` | respcas/src/namespace.rs:272-309 | For fresh keys and for overwrites that shrink or grow a record alike, the check passes if and only if the counter would stay within the limit, or the limit is the largest there is. |
| `Usage.ShrinkingIsRefused` | respcas/src/namespace.rs:272-309 | The comment that shrinking a record is never refused is false: a concrete namespace over its limit refuses it. |
| `Holders.ExpectedCounts` | cas-storage/src/scrub/holders.rs:227-235 | The count per block over all holder records, or a refusal when one does not decode; never a partial count. |
| `Holders.ListingCounts` | cas-storage/src/scrub/holders.rs:155-218 | A listing with every object and part record once counts exactly what the holders hold. |
| `Holders.TreesCount` | cas-storage/src/scrub/holders.rs:147-218 | The walk over one tree per bucket, reserved names skipped, counts every object but those in reserved trees. |
| `Holders.RecountAfterCrash` | cas-storage/src/scrub/holders.rs:155-218 | After a crash anywhere in any run, the walk over the unreserved trees and the parts is never refused, and for every block finds what its record counts, less the leak and less what objects in reserved trees name; there are none of those when no request named a reserved bucket. |
| `Holders.RecountCrashed` | cas-storage/src/scrub/holders.rs:227-235 | The recount run on a crashed store returns counts, and each falls short of the record's count by exactly the leak. |
| `BlockStream.BoundsMeanTheRange` | cas-storage/src/cas/block_stream.rs:183-190 | The exclusive window computed with saturation selects exactly the bytes of the inclusive range, for every range kind and object size. |
| `BlockStream.Stream.constructor` | cas-storage/src/cas/block_stream.rs:134-147 | Verification is on exactly for a whole-object read with one address per file. |
| `BlockStream.Stream.SkipFiles` | cas-storage/src/cas/block_stream.rs:215-363 | Whole files before the window are skipped; what is left contains the window's start, or the window is complete. |
| `BlockStream.Stream.ReadPlain` | cas-storage/src/cas/block_stream.rs:215-363 | Any short read extends the yielded bytes by exactly the next bytes of the window. |
| `BlockStream.Stream.ReadChecked` | cas-storage/src/cas/block_stream.rs:151-176 | No byte of a block is handed out before the whole block hashes to its address, and a block is refused only if it does not. |
| `BlockStream.Stream.PollNext` | cas-storage/src/cas/block_stream.rs:215-363 | Every answer keeps the yielded bytes a prefix of the window, whatever the read sizes; the stream ends only when the window is complete with the promised length, and every pass makes progress. It fails only when a system call failed, the block at hand is not what its address says, or the window starts further into a file than a seek can express. |
| `BlockStream.Stream.ReadAll` | cas-storage/src/cas/block_stream.rs:215-363 | A reader terminates with the whole window, unless the answer was pending more often than its patience, a system call failed, a block is not what its address says, or the seek cannot be expressed. |
| `BlockStream.VerifiedIsOriginal` | cas-storage/src/cas/block_stream.rs:151-176 | Whatever the disk holds, a verified read that ends has yielded the original blocks, whole and in order, given that the hash is injective. |
| `Rechunk.ChunksAreBlocks` | cas-storage/src/cas/buffered_byte_stream.rs:34-91 | The blocks of data rejoin to the data; none is empty, none over a block, none but the last short. |
| `Rechunk.ChunksAreUnique` | cas-storage/src/cas/buffered_byte_stream.rs:34-91 | That is the only such cut: the block list depends on the content alone. |
| `Rechunk.BufferedByteStream.PollNext` | cas-storage/src/cas/buffered_byte_stream.rs:34-91 | Whatever the frame boundaries, blocks emitted so far followed by the buffer are the bytes received so far, with every emitted block full until the end; a broken frame is reported when it is met, and at no other time. |
| `Rechunk.BufferedByteStream.ReadAll` | cas-storage/src/cas/buffered_byte_stream.rs:34-91 | It succeeds if and only if no frame is broken, and then the emitted blocks are those of the content: equal content gives equal block lists for every framing; otherwise it stops at the first broken frame. |
| `Rechunk.ReceivedIsEverything` | cas-storage/src/cas/buffered_byte_stream.rs:34-91 | The content of unbroken frames is all their bytes, in order. |
| `DirSync.PlanAll` | cas-storage/src/cas/block_disk.rs:510-564 | The planned directories are exactly the landing directories and the unknown ones above them, each once, whatever order the landings come in. |
| `DirSync.PlanKeepsClosed` | cas-storage/src/cas/block_disk.rs:510-564 | The set of directories claimed durable stays closed under parents, also when other writers extended it meanwhile. |
| `DirSync.KnownParentIsLeftAlone` | cas-storage/src/cas/block_disk.rs:510-564 | In every batch, the parent of a landing directory is synced if and only if it is not known durable or is landed in itself. |
| `DirSync.NewChildOfTheRoot` | cas-storage/src/cas/block_disk.rs:510-564 | So a first landing in a new directory of the root, right after open, is not followed by a sync of the root. |
| `DirSync.AtomicBlockWriter.LandBatch` | cas-storage/src/cas/block_disk.rs:510-564 | All renames before any sync; each planned directory synced once, children before parents; the first failure ends it there, and nothing is claimed unless everything succeeded, which it does exactly when nothing is refused. |
| `DirSync.AtomicBlockWriter.FsyncChainDeepestUp` | cas-storage/src/cas/block_disk.rs:590-609 | On success every ancestor is durable, synced deepest first and each unknown one exactly once. |
| `DirSync.AtomicBlockWriter.WriteBlock` | cas-storage/src/cas/block_disk.rs:332-388 | Success, which is exactly when nothing is refused, means the temp file, then exactly the unknown ancestors deepest first, were synced before the rename and the landing directory after it; a failure ends it there and claims no more than was synced. |
| `Codec.RoundTrip` | cas-storage/src/metastore/codec.rs:59-181 | Any record of any field layout decodes to what was encoded. |
| `Codec.NoExtension` | cas-storage/src/metastore/codec.rs:172-180 | A record with anything after it is refused, with the number of bytes left over. |
| `Codec.NoPrefix` | cas-storage/src/metastore/codec.rs:75-90 | A record cut short anywhere is refused. |
| `Codec.Canonical` | cas-storage/src/metastore/codec.rs:148-169 | An accepted record re-encodes to the same bytes if and only if no empty id list in it names a width. |
| `Codec.AcceptedExactly` | cas-storage/src/metastore/codec.rs:172-180 | Reading the fields and finishing accepts exactly the whole encodings, and beside them only records in which an empty id list names a width. |
| `Codec.PutIdList` | cas-storage/src/metastore/codec.rs:40-52 | The loop appends the width, the count and the ids, which is the encoding of the list. |
| `Codec.Reader.TakeIds` | cas-storage/src/metastore/codec.rs:148-169 | The cursor form returns what the value form reads, and ends where it ends. |
| `RecordFormats.BlockCodec` | cas-storage/src/metastore/block.rs:188-219 | A block record is 18 bytes, round-trips, and every proper prefix and every extension of it is refused. |
| `RecordFormats.BlockCanonical` | cas-storage/src/metastore/block.rs:188-219 | An accepted block record re-encodes to the same bytes. |
| `RecordFormats.UploadCodec` | cas-storage/src/metastore/upload_record.rs:97-139 | Upload records round-trip; prefixes and extensions are refused; whatever counts as UTF-8. |
| `RecordFormats.UploadCanonical` | cas-storage/src/metastore/upload_record.rs:97-139 | An accepted upload record re-encodes to the same bytes. |
| `RecordFormats.PartCodec` | cas-storage/src/cas/multipart.rs:87-160 | Part records round-trip; prefixes and extensions are refused. |
| `RecordFormats.PartCanonical` | cas-storage/src/cas/multipart.rs:87-160 | An accepted part record re-encodes to the same bytes if and only if its block list is not an empty one that names a width. |
| `RecordFormats.ObjectCodec` | cas-storage/src/metastore/object.rs:289-381 | Object records of all three layouts round-trip; prefixes and extensions are refused. |
| `RecordFormats.ObjectCanonical` | cas-storage/src/metastore/object.rs:331-381 | An accepted object record re-encodes to the same bytes if and only if its block list is not an empty one that names a width. |
| `RecordFormats.IdleWidthIsAccepted` | cas-storage/src/metastore/object.rs:331-381 | The exception exists: for every header, an empty list under width 16 or 32 is accepted and re-encodes differently. |
| `RecordFormats.HeaderCodec` | cas-storage/src/metastore/store_header.rs:327-376 | A store header is 32 bytes, round-trips, and damaged lengths are refused. |
| `RecordFormats.HeaderCanonical` | cas-storage/src/metastore/store_header.rs:344-376 | An accepted header re-encodes to the same bytes, an absent store id included. |
| `PartKeys.PrefixNamesOneUpload` | cas-storage/src/cas/multipart.rs:198-207 | One upload's prefix starts another's part key only if bucket, key and upload id are all the same. |
| `PartKeys.PartKeysAreOrdered` | cas-storage/src/cas/multipart.rs:185-189 | Part keys are injective, and those of one upload sort by unsigned part number. |
| `PartKeys.UploadKeysAreDistinct` | cas-storage/src/cas/uploads.rs:28-36 | Upload record keys are injective. |
| `PartKeys.PartsOf` | cas-storage/src/cas/multipart.rs:263-282 | Stopping at the first foreign key loses nothing: the scan is every entry that carries the prefix. |
| `PartKeys.ScanIsThePartsInOrder` | cas-storage/src/cas/multipart.rs:263-282 | Over a tree of part keys the scan is exactly the upload's parts, in ascending part number. |
| `DiskWalk.PathsAreDistinct` | cas-storage/src/metastore/block.rs:139-146 | Two (id, depth) pairs share a path if and only if they are the same block at the same clamped depth. |
| `DiskWalk.HexParsesBack` | cas-storage/src/scrub/disk.rs:246-257 | Lowercase hex parses back to its bytes. |
| `DiskWalk.ParsedIsHex` | cas-storage/src/scrub/disk.rs:246-257 | Nothing but the lowercase hex of the expected width parses. |
| `DiskWalk.AcceptedIsAPath` | cas-storage/src/scrub/disk.rs:211-234 | A name under a chain is accepted if and only if chain and name are the path of a block of the store's width at that depth. |
| `DiskWalk.WalkRebuildsPaths` | cas-storage/src/scrub/disk.rs:108-183 | Every file the walk accepts is at the path its block and depth rebuild. |
| `DiskWalk.EveryEntryOnce` | cas-storage/src/scrub/disk.rs:108-183 | Every entry is accepted, foreign, the store's own or entered, and only one of these. |
| `DiskWalk.WalkFindsBlocks` | cas-storage/src/scrub/disk.rs:108-183 | Every block file at its derived path, anywhere in the tree, is found as that block at that depth. |
| `DiskWalk.HexIsNotOwn` | cas-storage/src/scrub/disk.rs:202-207 | No fanout directory or block file name is one of the store's own names. |
| `DiskWalk.Walker.WalkDir` | cas-storage/src/scrub/disk.rs:108-183 | The recursive walk collects exactly what the tree's specification says, in order. |
| `Pairing.OpenIsSafe` | cas-storage/src/cas/shared_block_store.rs:318-399 | One open, whole or cut off: a refusal writes nothing, a completed open leaves both halves with one id, and no readable id is replaced. |
| `Pairing.IdsAreForever` | cas-storage/src/cas/shared_block_store.rs:318-399 | Over any run of opens of any databases with any roots, each possibly cut off, an id once readable never changes. |
| `Pairing.HalfAdoptionIsFinished` | cas-storage/src/cas/shared_block_store.rs:318-399 | An adoption cut off between its two writes, then any opens whatever, then the same pair again: the header keeps its id, and the pair completes with it if nobody put another id on the root first, and is refused otherwise. |
| `Pairing.AdoptionCanBeOvertaken` | cas-storage/src/cas/shared_block_store.rs:318-399 | The refusal happens: a new database opened over the root in between takes it, and the first is refused from then on whatever else is opened. |
| `Pairing.Pair.PairTheRoots` | cas-storage/src/cas/shared_block_store.rs:318-399 | The branches perform exactly the specified open, or its form cut off after the writes that succeeded, which happens exactly when a write is refused; a refusal of the pair writes nothing and no readable id changes. |
| `Pairing.OverlapsKeepIds` | cas-storage/src/cas/shared_block_store.rs:131-156 | Over any schedule of overlapping opens, each reading the marker before it has its database's lock and the header after, failures and kills included: no readable id is ever replaced if and only if no open writes a root's marker after another open, with another id, did so since its read of the marker. |
| `Pairing.SecondMarkerReplacesTheFirst` | cas-storage/src/cas/shared_block_store.rs:318-399 | Two opens that read one root without an id and carry different ids: when both write their markers, the second replaces the first's, in every world. |
| `Pairing.OverlapCanReplaceAnId` | cas-storage/src/cas/shared_block_store.rs:318-399 | Such a schedule exists from nothing: two new databases over one new root. |

## Left out

- The database engine, the async runtime, clocks, UUIDs, BLAKE3, MD5 and the UTF-8 tables: parameters, nondeterministic answers or hypotheses of the theorems.
- Degraded block records, flag bits that mark them and fsck's repair actions.
- A reader that has a record while its blocks are unlinked: readers are modelled against a fixed disk.
- Power loss that reorders unsynced writes: a crash loses volatile state only, and `DirSync` treats the order of syncs.
- Placement counters: where no file of a block is there yet, any depth in range may be chosen.
- The allocator behind `Vec::with_capacity`: `Rechunk` takes a fresh buffer's capacity to be exactly the block size, which the standard library only promises as a lower bound.
- The key order of the walk in `bucket_delete`: any order; concurrent writes are treated in `ProtocolTeardown`.
- RESP framing, S3 handlers, metrics, configuration and command-line tools.
- The checks a complete makes on its part list before the claim: the claim itself re-reads every part.
- Strangers in the group of a PUT run alone: at the commit station `WritePath` closes the request's batch as a group of one; `Committer` and the protocol have the strangers.
- The panic branch of a group's blocking closure: a closer whose thread dies is covered by the crash step only.
- Clone, release and upload claims in their imperative form are not tied to runs of the protocol; the group close is (`GroupRefinement`).
- Ranges that start past the end of the object: the callers resolve ranges against the size first.
- The order of directory entries in the disk walk: any order.
- `store_single_object_and_meta` panics on an error of its record write; the model returns the failure.
- Part records under the legacy dash-separated keys, which the prefix scan does not see.
- Records that do not decode inside the protocol: modelled as failed reads.
- Overflow panics of debug builds: the release-build wrap-around is modelled.
- Temp files of staged blocks that are never landed.
- The age rule's clock arithmetic: the sweep takes its cutoff as a parameter.
- A front end's lookup of the bucket before a write: the protocol admits writes to any bucket name.
- Usage.QuotaBound: states the bound for fresh keys, as the source's own check for content-addressed writes does; overwrites read the displaced size apart from the counter.
- References.BumpOne: does not model an undecodable block record apart from a failed read.
- RecordFormats.DecodeObject: record decoders are functions over the cursor arithmetic; only the shared reader is modelled as the class the source has.
- Holders.RecountAfterCrash: the walk is taken after the crash, with no writer running beside it; that requests name buckets which were created is a hypothesis on the run, since the protocol itself does not look up buckets.
