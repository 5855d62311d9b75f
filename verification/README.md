# Verified model of file-encryptor

file-encryptor watches a directory, encrypts every file that arrives under a fresh data key, and keeps the
key wrapped by Vault beside it; failed work is retried from a queue, and a maintenance command re-wraps the
stored keys. This project models the two parts of it that carry state and proves what they are for.

**The retry queue, its items and the processor.** `Items`, `Backoff`, `Queue`, `Persistence`, `Watcher`,
`Detector` and `Processor` hold the code's objects as classes. Each method is proved against a function on
values (`DequeueSpec`, `ProcessSpec`, ...). The other modules prove statements about all runs of those functions:

- `QueueLaws` and `Outcomes` say on the fields of the items what each operation of the queue and each attempt
  does, `Disposal` where the inputs of a completed item go, `Checksums` what a recorded checksum means.
- `QueueRuns` is about any sequence of calls of one queue: the index, waiting, saving and loading.
- `SystemRuns` is the queue with any producers and one processor, one atomic step per mutex section:
  conservation of items, first-in-first-out order of first attempts, the retry law, and draining.
- `Timing` is about when: exact retry times, polls that take what is due, and polls late enough to decide
  every item.
- `Lives` continues the account of attempts from one life of the process to the next, through the saved list.
- `Recovery` refines the queue machine down to single file operations. Files are uploaded and admitted, also
  repeatedly, between any two of them; every operation can fail; a file that is being written can hold
  anything; the process can be killed anywhere and started again with any list it ever saved.
  `RecoveryOrder` and `RecoverySteps` show what each step keeps, `Recoverability` that in every reachable
  state of a safe service each file that ever arrived can be recovered, and `SecondItem` that a service is
  safe exactly if no file can be lost. `TickRefinement` proves that the steps of that machine,
  uninterrupted, are the processor's tick as the code performs it.
- `Decryption`, `DecryptionSteps` and `Preservation` do the same for decryption items, under any order of
  attempts.
- `FinalPlace` shows that a file that was disposed of stays so, and `Coverage` that the two machines leave out
  no state of the disk that a kill in the middle of a step can leave.
- `RetryFate` says where the file of an item is after failed attempts.
- `ItemRoundTrip` takes a file through an encryption item and a decryption item and back.

**The rewrap transaction.** `FileSystem` is a map from paths to contents with a history of all its states, so
that "after a crash at any step" is a statement about the history; `Rewrap` is `RewrapFile` and `RewrapBatch`
over it, with one fault switch per system call. `RewrapSafety`, `RewrapBatches`, `RewrapPolicy`, `DryRun` and
`Envelope` prove atomicity, isolation, policy, idempotence, the worth of a dry run and the end-to-end round
trip. `KeyVersion`, `Scanner` and `Reporter` are the pieces they stand on.

Vault, the file cipher and the JSON codec are parameters with stated laws (`Transit`, `Persistence.Lossless`);
`Transit.LawsAreConsistent`, `Recoverability.SoundIsPossible` and `Codecs.LosslessIsPossible` show that the
assumptions on services, directories and the codec can hold. Clock readings, random numbers, IDs and faults
are arguments. Strings stand for bytes.

When files are safe. A file that was encrypted and then deleted exists only behind its encrypted pair. The
code makes a second item for a file easily: after a restart the saved list is loaded
(internal/service/service.go:142) and the start-up scan enqueues every file it finds under a new ID
(internal/watcher/watcher.go:131). If the second item is processed when the file is gone, everything hangs on
whether the file cipher writes to its output although it finds no source, which its library decides; that is
a field `leaks` of the model. `SecondItem.RecoverableExactly`: every file is recoverable in every reachable
state if and only if the checksum is on (so that the attempt fails before it encrypts), or the behaviour is
not delete, or the cipher does not leak, or Vault never hands out a key. `Preservation.PreservedExactly` is
the like for decryption, where the checksum does not help.

Where the code departs from its own documentation, the model follows the code:

- docs/ARCHITECTURE.md:190-196 says that a file ends in the DLQ directory after all retries have failed.
  `processItem` calls `MoveToFailed` after every failed attempt, so if there is a failed directory a retry
  finds no file and the file ends there. `RetryFate.DeadFileInDlqExactly` gives the condition for every item
  and whatever moves fail; with working moves the documentation is right exactly without a failed directory
  or without retries (`DocumentedFate`, with a concrete life on either side).
- The comment in `Requeue` (internal/queue/queue.go:130) says that a dead item stays in `itemMap`; it does not.
- docs/guides/REWRAP_GUIDE.md:80 promises that a dry run previews what would be rewrapped. It reports every
  legible key file as skipped, "already at minimum version", and the others as failed; `DryRun` shows that
  this agrees with the real run exactly if no file is outdated, and a file for which it does not.
- The start-up scan leaves `.sha256` files alone, the creation event does not.
- `RewrapFile` does not compare the new version with the minimum; `BatchReachesPolicy` says when it is met.
- Nothing makes the base delay at most the maximum delay; `DelayIsCapped` and `DelayIsMonotone` say what that costs.

## Model

| member | source | states |
|---|---|---|
| Recoverability.AlwaysRecoverable | internal/watcher/processor.go:166-248 | if the checksum is on, or files are not deleted, or the cipher leaves its output alone without a source: in every state reachable by any interleaving of uploads, admissions (repeated ones too), polls, single file operations, partial writes, faults, kills and restarts with any saved list, the original bytes of every file that arrived are in exactly one of source, archive, failed and DLQ, or were deleted and the encrypted pair decrypts to them; the pair of a completed item that remained the only one for its file always does |
| SecondItem.RecoverableExactly | internal/watcher/processor.go:166-248 | that condition (or a Vault that hands out no key) is exact: every file is recoverable in every reachable state if and only if it holds, for all directories, settings and services |
| SecondItem.StoryLoses | internal/watcher/watcher.go:268-272 | otherwise: a history from the empty disk in which a file is uploaded, encrypted and deleted, a good pair standing for it; a second item is admitted, and its failing encryption leaves a state in which the file is not recoverable |
| SecondItem.LostFile | internal/watcher/strategy.go:67-76 | that history for a concrete service with the toy Vault and cipher |
| Recoverability.PairsThroughRewraps | internal/rewrap/rewrapper.go:167-206 | the pair that stands for a deleted file, or for one whose only item was completed, still decrypts to the original bytes after any history of rewrap batches, including killed ones |
| Recoverability.HistoryIsRun | internal/queue/queue.go:70-139 | until it is first restarted, the queue, the hand and the clock of the service go through a run of the queue machine |
| Recoverability.HistoryOrderly | internal/queue/queue.go:70-139 | in every reachable state, restarts included and whether or not the service is safe, conservation, the chronicle of attempts and FIFO order hold, and every live item belongs to a file that arrived |
| Recoverability.ServiceRetriesLawfully | internal/queue/queue.go:119-139 | the retry law holds in every reachable state, the attempts that loaded items came with counted in |
| Recoverability.AnySavedListWillDo | internal/service/service.go:142-147 | the service may start again with any list it ever saved, also one with items completed since |
| Recoverability.EncryptsWhatIsThere | internal/watcher/strategy.go:38-54 | with the checksum on, in every reachable state a file that is being encrypted is at its source |
| RecoverySteps.NextSecure | internal/watcher/processor.go:166-248 | every single step of a safe service keeps what recoverability rests on: where each file is, which pairs are good, what each phase may rely on |
| RecoveryOrder.NextOrderly | internal/watcher/watcher.go:247-272 | every single step of any service keeps each live item made for a file that arrived, and known whether it is the only one |
| RecoverySteps.WriteKeeps | internal/watcher/strategy.go:67-83 | a write of any kind to an output of the item in hand moves no source file and breaks no pair that is needed, unless its own file is gone and the write is to its pair |
| RecoverySteps.MoveKeeps | internal/watcher/filehandler.go:76-119 | moving a source file to archive, failed or DLQ keeps it in exactly one place and disturbs no other file |
| RecoverySteps.DeleteKeeps | internal/watcher/filehandler.go:68-73 | deleting the source of a completed item loses nothing |
| TickRefinement.TickIsHistory | internal/watcher/processor.go:144-163 | going on from any reachable idle state, safe service or not, with a poll and the processor's single steps gives the disk and queue of one tick of the processor loop, for every outcome the cipher allows |
| TickRefinement.WorkGoesOn | internal/watcher/processor.go:166-248 | each single step keeps the outcome that the whole of processItem would have, and brings it nearer |
| SystemRuns.Reachable | internal/queue/queue.go:70-139 | after every run each enqueued ID is in exactly one of queue, hand, completed and DLQ; queued items are Pending with no attempt or Failed with some, fewer than the limit; first attempts happen in the order of enqueueing |
| SystemRuns.ApplyConserves | internal/queue/queue.go:70-139 | no step loses or duplicates an item, and the index keeps agreeing with the list |
| SystemRuns.ApplyChronicle | internal/model/item.go:92-123 | every step keeps the account of attempts begun and failed, statuses and earliest retry times |
| SystemRuns.ApplyFifo | internal/queue/queue.go:88-116 | every step keeps first attempts a prefix of the enqueue order, and what is unattempted in that order |
| SystemRuns.RetryLaw | internal/queue/queue.go:119-139 | with finite retries no item is attempted more than max(1, maxRetries) times, it is dead exactly when that many attempts failed, and the first and the last are at least the prescribed delays apart |
| SystemRuns.EmptyMeansDecided | internal/queue/queue.go:119-139 | once queue and hand are empty, every enqueued item is either completed or dead, and a dead one was attempted and failed exactly max(1, maxRetries) times |
| SystemRuns.UnlimitedNeverDies | internal/model/item.go:92-97 | with unlimited retries no run makes an item dead |
| Lives.ResumedInv | internal/queue/queue.go:171-191 | a life that starts with a saved list starts in order: conservation, the chronicle, with the attempts the items came with, and FIFO order hold, and so in every run of it |
| Lives.RetryLawResumed | internal/queue/queue.go:119-139 | the retry law for every run from a loaded list, the attempts the items came with counted in |
| Lives.AccountGoesOn | internal/queue/queue.go:163-191 | saving and loading the queue carries on the account of every queued item |
| Lives.AttemptsOverAllLives | internal/queue/queue.go:119-191 | however often the process is restarted with its queue as it was, no item is attempted more than max(1, maxRetries) times in all lives together |
| Lives.OldListForgets | internal/service/service.go:270-279 | with an older list this is not so: an item that is dead by now is attempted again |
| SystemRuns.WaitedClosedForm | internal/queue/queue.go:194-222 | below the cap the delays between the attempts add up to base * (2^(a+1) - 2) |
| SystemRuns.ApplyDrains | internal/watcher/processor.go:155-224 | without arrivals no step raises the potential, and each finished attempt lowers it |
| SystemRuns.RunDrains | internal/watcher/processor.go:155-224 | the finished attempts of any run without arrivals are at most the initial potential less the final one |
| SystemRuns.QueueEmpties | internal/watcher/processor.go:155-224 | after as many finished attempts as the initial potential the queue and the hand are empty |
| Timing.DueAfterLastFailure | internal/queue/queue.go:119-139 | after every run each failed item in the queue is due exactly min(base * 2^attempts, max) after the instant of its last failure in the run (or has been in the queue all along, which from the empty system cannot be) |
| Timing.PollTakesDue | internal/queue/queue.go:88-116 | a poll takes the first entry that is neither dead nor failed with its retry time to come, and begins an attempt at it |
| Timing.RetriedWhenDue | internal/queue/queue.go:95-139 | an item that fails with attempts left, while all others wait, is taken by the next poll if and only if that comes at least the delay later |
| Timing.LateRoundsDecideAll | internal/watcher/processor.go:144-163 | polls that each come when nobody has to wait any more, as many as the potential, leave nothing queued: each item is completed, or dead after exactly max(1, maxRetries) attempts |
| Timing.AllFailAllDie | internal/watcher/processor.go:198-224 | if all the attempts of such polls fail, each item not completed before is dead after exactly max(1, maxRetries) attempts |
| Timing.AlwaysFailing | internal/queue/queue.go:119-139 | an item that always fails, polled late enough, is attempted at every poll until it is dead, and that is exactly after max(1, maxRetries) attempts, or never if retries are unlimited |
| RetryFate.CanSucceed | internal/watcher/strategy.go:36-84 | an encryption attempt can succeed exactly if the source file is there |
| RetryFate.RetryCanSucceed | internal/watcher/processor.go:205-218 | after a failed attempt with retries left, the next can succeed exactly if the file was not moved to the failed directory |
| RetryFate.FileIsAt | internal/watcher/processor.go:198-220 | as long as no attempt at an item succeeds, its file is, with its contents, where the moves of the failed attempts have put it, and the item's status and attempts are right, for encryption, decryption and unknown operations and under any faults |
| RetryFate.DeadFileInDlqExactly | internal/watcher/processor.go:205-218 | the file of a dead item is in the DLQ directory if and only if no attempt before the last one moved it to the failed directory and the last one moved it to the DLQ directory |
| RetryFate.DocumentedFate | internal/watcher/processor.go:205-218 | with working moves that is so if and only if there is no failed directory or maxRetries <= 1; otherwise the file is in the failed directory |
| RetryFate.DeadAfterLimit | internal/queue/queue.go:127-132 | an item none of whose attempts succeeds is dead exactly after max(1, maxRetries) of them |
| RetryFate.NeverCompletes | internal/watcher/strategy.go:36-156 | once its file was moved away no later attempt at an item succeeds, whatever the circumstances, and it is dead exactly at the limit |
| RetryFate.DeadButInFailed | internal/watcher/processor.go:205-218 | three failing attempts with a failed directory: the item is dead and its file is in the failed, not the DLQ directory |
| RetryFate.DeadAsDocumented | internal/watcher/filehandler.go:91-94 | two failing attempts without a failed directory: the item is dead and its file is in the DLQ directory |
| RetryFate.MoveLosesNothing | internal/watcher/filehandler.go:91-104 | moving a file aside keeps all other files exactly if its name is free at the destination (or taken by equal contents) |
| Queue.FirstReady | internal/queue/queue.go:95-113 | the position of the first item that is neither dead nor failed and waiting; everything before it is not ready |
| Queue.FirstReadyIs | internal/queue/queue.go:95-113 | any position whose item is ready with none ready before it is that position |
| QueueLaws.EnqueueAppends | internal/queue/queue.go:70-84 | an item is refused exactly if one with its ID is in the list, else it is put at the end |
| QueueLaws.DequeueTakes | internal/queue/queue.go:95-113 | on item fields: if every entry before one is dead, or failed with now before its retry time, and that one is neither, it is taken out and the rest keeps its order |
| QueueLaws.DequeueFindsNothing | internal/queue/queue.go:97-115 | nothing is taken exactly if every entry is dead, or failed with now before its retry time |
| QueueLaws.RequeueSchedules | internal/queue/queue.go:119-139 | for positive settings the retry time is exactly now + min(base * 2^attempts, max); the item is at the end of the queue if it has attempts left, else dead and not queued; only status, error and retry time change |
| QueueLaws.LoadOutcomes | internal/queue/persistence.go:59-79 | a missing state file gives an empty queue, one that cannot be read or parsed an error, any other the items in it in order |
| Queue.Queue.Enqueue | internal/queue/queue.go:70-84 | appends the item and indexes it, or refuses and changes nothing if the ID is indexed |
| Queue.Queue.Dequeue | internal/queue/queue.go:88-116 | removes the first ready item from list and index, keeps the order of the rest, and returns nothing exactly when none is ready |
| Queue.Queue.Requeue | internal/queue/queue.go:119-139 | marks the item failed with the backoff for its attempts, then appends it or marks it dead and leaves the queue alone |
| Queue.Queue.List | internal/queue/queue.go:150-160 | the items in list order |
| Queue.Queue.Save | internal/queue/queue.go:163-168 | persists the list of items |
| Queue.Queue.Load | internal/queue/queue.go:171-191 | rebuilds list and index from the persisted items, or changes nothing on an error |
| QueueRuns.PushAgrees | internal/queue/queue.go:134-136 | appending an item keeps the index in agreement if and only if its ID is not in the queue |
| QueueRuns.RemoveAgrees | internal/queue/queue.go:109-110 | removing an element keeps the index in agreement and removes exactly its ID |
| QueueRuns.RunAgrees | internal/queue/queue.go:70-139 | over any run in which Requeue gets only items that are not queued, the index maps exactly the queued IDs, each to its own element |
| QueueRuns.LoadAgrees | internal/queue/queue.go:171-191 | loading a list puts the index in agreement if and only if its IDs are distinct |
| QueueRuns.AlikeQueuesReplyAlike | internal/queue/queue.go:70-139 | queues with the same items in the same order and the same indexed IDs answer every sequence of calls alike |
| QueueRuns.ReloadedQueueIsEquivalent | internal/queue/queue.go:163-191 | a queue rebuilt from the saved list answers every later sequence of Enqueue, Dequeue and Requeue as the original would |
| QueueRuns.SaveThenLoad | internal/queue/persistence.go:35-79 | the queue loaded after a successful save answers every sequence of calls as the saved one; after a failed save the load finds what it would have found without it |
| QueueRuns.TrackFollows | internal/queue/queue.go:88-139 | an item stays in the queue, unchanged, until it is returned by Dequeue |
| QueueRuns.NeverOvertaken | internal/queue/queue.go:88-139 | the number of items ahead of a queued item never grows |
| QueueRuns.BoundedWaiting | internal/queue/queue.go:88-139 | an item that is ready with p items ahead is returned within p + 1 Dequeue calls, whatever else is called |
| Persistence.SaveIsAtomic | internal/queue/persistence.go:35-56 | in every state of the disk during a save the state file holds the whole previous or the whole new list; success installs the new one, failure keeps the old |
| Persistence.LoadAfterSave | internal/queue/persistence.go:59-79 | loading after a successful save gives back the saved list |
| Persistence.Persistence.Save | internal/queue/persistence.go:35-56 | writes a temporary file and renames it over the state file |
| Backoff.CalculateBackoff | internal/queue/queue.go:194-222 | the loop over the generator computes the specified delay |
| Backoff.BackoffClosedForm | internal/queue/queue.go:194-222 | for positive settings that delay is min(base * 2^attempts, max), or the base before any attempt, and the stop branch is never taken |
| Backoff.DelayIsCapped | internal/queue/queue.go:194-222 | the delay is within the maximum exactly if the base is or an attempt was made |
| Backoff.DelayIsMonotone | internal/queue/queue.go:194-222 | delays never decrease with the attempts exactly if base <= max |
| Items.Item.MarkProcessing | internal/model/item.go:100-104 | status, attempt count and time of the attempt, and nothing else |
| Items.Item.MarkCompleted | internal/model/item.go:107-111 | status, completion time and a cleared error, and nothing else |
| Items.Item.MarkFailed | internal/model/item.go:114-118 | status, error and the earliest retry time, and nothing else |
| Processor.EncryptStrategy.Process | internal/watcher/strategy.go:36-84 | checksum, then encrypted file, then key, stopping at the first failure, with the disk and the item that leaves |
| Processor.DecryptStrategy.Process | internal/watcher/strategy.go:103-156 | decryption, then verification if there is a readable checksum file |
| Processor.FileHandler.HandleSourceFile | internal/watcher/filehandler.go:66-88 | delete, archive or keep |
| Processor.FileHandler.MoveToDLQ | internal/watcher/filehandler.go:107-120 | moves the item's file into the DLQ directory unless that is disabled or the rename fails |
| Processor.Processor.ProcessItem | internal/watcher/processor.go:166-248 | the disk, the queue and the item after one attempt |
| Outcomes.Completes | internal/model/item.go:100-111 | a completed item, field by field: one attempt more, the times, no error, the checksum it noted; the queue is as it was |
| Outcomes.FailsAndWaits | internal/watcher/processor.go:198-224 | any other item, field by field: one attempt more, the error, due min(base * 2^attempts, max) after the failure; at the end of the queue with attempts left, else dead |
| Disposal.SourceDisposedOf | internal/watcher/filehandler.go:66-88 | the file of a completed encryption is gone, or only under its name in the archive with its bytes, or where it was, as the behaviour says, or where it was if the disposal failed |
| Disposal.ThreeDisposedOf | internal/watcher/processor.go:231-247 | the same of the encrypted file, the key and the checksum file of a completed decryption, each with its own fault |
| FinalPlace.DisposedForGood | internal/watcher/filehandler.go:66-88 | in the service, once the disposal of a completed item's file has worked, in that state and in every later one the file is in the archive and in no other directory, or in none if files are deleted |
| FinalPlace.LeftForGood | internal/watcher/processor.go:166-248 | in every reachable state a file that has left the source directory stays where it is, whatever happens later |
| Processor.Processor.Tick | internal/watcher/processor.go:153-160 | takes the first ready item, if any, and processes it |
| Processor.Processor.Start | internal/watcher/processor.go:144-163 | the loop composes ticks and keeps the index of the queue in agreement |
| Processor.TickAgrees | internal/watcher/processor.go:155-206 | the processor gives back only what it took, so the index stays in agreement |
| Watcher.NamesRoundTrip | internal/watcher/watcher.go:247-266 | feeding an encrypted output through the decryption naming restores the file name and finds the key and the checksum the encryption wrote, for verification and disposal alike |
| Watcher.OutputsDisjoint | internal/watcher/watcher.go:261-266 | two output paths are equal exactly if they are the same output of the same source name |
| Watcher.EncryptionNames | internal/watcher/strategy.go:48-53 | the three outputs are the source name with .enc, .key and .sha256 in the destination directory |
| Watcher.ScanAgreesWithEvent | internal/watcher/watcher.go:308-326 | the start-up scan and the creation event treat a file alike, except exactly for stable checksum files in the encryption source |
| Watcher.EncryptionItem | internal/watcher/watcher.go:242-267 | the item for encrypting a file, field by field |
| Watcher.DecryptionItem | internal/watcher/watcher.go:242-260 | the item for decrypting one, field by field |
| Watcher.ScanQueues | internal/watcher/watcher.go:283-376 | a scan puts at the end of the queue, in order, the items for the stable files that are no outputs, or are encrypted and have a key, except for IDs that are taken |
| Watcher.CreationQueues | internal/watcher/watcher.go:177-238 | a creation event makes an item for exactly those files of the two directories and for checksum files to encrypt |
| Watcher.Watcher.HandleFileCreated | internal/watcher/watcher.go:177-275 | filters a created file and enqueues the item named for it |
| Watcher.Watcher.ScanDirectory | internal/watcher/watcher.go:283-376 | filters the entries of a directory and enqueues their items in order |
| Detector.PartialUploadDetector.IsStable | internal/watcher/detector.go:26-48 | stable exactly if the two samples, one stability duration apart, agree in size and modification time; an error if either fails |
| Detector.PartialUploadDetector.WaitForStability | internal/watcher/detector.go:51-79 | whenever some round ends, with a limit or without, it ends with the first that does, and with a limit within floor(maxWait / 2d) + 1 rounds and maxWait + 2d of time |
| Detector.StableMeansUnchanged | internal/watcher/detector.go:26-48 | success implies two equal samples one stability duration apart |
| Detector.RoundsAreBounded | internal/watcher/detector.go:51-79 | the last possible round and the latest possible end with a time limit |
| Detector.EndsExactlyWithLimit | internal/watcher/detector.go:74-77 | the wait ends in every environment exactly if maxWait is positive |
| Detector.SettledFileIsStable | internal/watcher/detector.go:51-79 | a file that stops changing is found stable less than three stability durations later, if the limit allows |
| Detector.RoundTells | internal/watcher/detector.go:51-79 | what it means that a round ends as cancelled, with a failing stat or with the deadline, and when |
| Detector.RoundGoesOn | internal/watcher/detector.go:51-79 | another round follows exactly if the file was there and changed, nobody cancelled and the limit is not exceeded |
| Detector.CancellationIsHeard | internal/watcher/detector.go:55-60 | a cancellation ends the wait with the next round |
| Rewrap.BackupManager.CreateBackup | internal/rewrap/backup.go:33-94 | copies the key file to the backup path through a temporary file and a rename, or does nothing when disabled |
| Rewrap.BackupManager.RestoreBackup | internal/rewrap/backup.go:97-148 | copies the backup over the key file through a temporary file and a rename |
| Rewrap.Rewrapper.WriteKeyFileAtomic | internal/rewrap/rewrapper.go:209-246 | replaces the key file through a temporary file and a rename |
| Rewrap.Rewrapper.RewrapFile | internal/rewrap/rewrapper.go:57-164 | the result, the disk and whether Vault was asked |
| Rewrap.Rewrapper.RewrapBatch | internal/rewrap/rewrapper.go:167-206 | the results, the disk and the number of requests; cancelled exactly if stopped before the end |
| FileSystem.Disk.Replace | internal/rewrap/rewrapper.go:209-246 | create, fill, sync, close, rename, and removal of the temporary file on any error |
| FileSystem.ReplaceIsAtomic | internal/rewrap/rewrapper.go:209-246 | in every state of the disk the target holds its whole old or whole new contents and only the temporary file differs besides; success installs the new contents, failure changes nothing if the clean-up works |
| FileSystem.FreshTemp | internal/rewrap/rewrapper.go:211-215 | the temporary name is not taken, however the random numbers fall |
| RewrapSafety.CrashAtomic | internal/rewrap/rewrapper.go:57-164 | wherever RewrapFile is killed, the key file holds the whole old or the whole new ciphertext, which unwrap to the same data key |
| RewrapSafety.ErrorLeavesOld | internal/rewrap/rewrapper.go:112-156 | the key file ends with the new ciphertext exactly if Vault was asked and no error is returned, else as it was, whatever failed and whether or not the rollback worked |
| RewrapSafety.LeavesNoDebris | internal/rewrap/rewrapper.go:217-223 | if the clean-up removals work, the disk differs only in the key file and, if one was made, its backup, which holds the old ciphertext |
| RewrapSafety.OldIsBackedUp | internal/rewrap/backup.go:33-94 | with backups on, in every state of the disk the old ciphertext is in the key file or in the file with the configured suffix, .bak if empty, appended to its name; if a backup is reported it is there in the end |
| RewrapSafety.BackupReported | internal/rewrap/rewrapper.go:101-110 | a backup is reported exactly if it was wanted, the file was to be rewrapped and no step of the copy failed |
| RewrapSafety.RestoreUndoes | internal/rewrap/backup.go:97-148 | a restore gives the key file the contents it had when it was backed up, whatever was done to it since, or leaves it alone if it fails |
| RewrapSafety.RestoreIsTried | internal/rewrap/rewrapper.go:112-156 | after a backup, a failing request or write is followed by the attempt at a restore |
| RewrapSafety.RefusalIsReported | internal/vault/rewrap.go:19-52 | a failing request and an empty answer are errors and leave the key file alone |
| RewrapSafety.WriteFaultIsReported | internal/rewrap/rewrapper.go:209-246 | so is a failure of any step of the write |
| RewrapSafety.RewrapRefinesVerdict | internal/rewrap/rewrapper.go:57-164 | result, final contents and request depend only on the file's own contents and its own faults: the transaction refines a decision table without a disk |
| RewrapBatches.BatchAligned | internal/rewrap/rewrapper.go:167-206 | one result per file in input order, all of them or the prefix before the cancellation |
| RewrapBatches.BatchIsolated | internal/rewrap/rewrapper.go:176-199 | for distinct key files each result and final content is what the file would get alone |
| RewrapBatches.OthersDoNotMatter | internal/rewrap/rewrapper.go:188-198 | changing what goes wrong with other files changes nothing for this one |
| RewrapBatches.BatchFrame | internal/rewrap/backup.go:49-91 | throughout a batch, files that are neither listed nor backups of listed files keep their contents |
| RewrapBatches.BatchRequests | internal/rewrap/rewrapper.go:176-199 | the requests of a batch are those each file would cause alone |
| RewrapBatches.BatchReachesPolicy | internal/rewrap/rewrapper.go:132-142 | a file rewrapped without error ends at the minimum version if and only if it was there already or Vault's latest version is |
| RewrapBatches.NothingToDo | internal/rewrap/rewrapper.go:81-88 | a batch over files at the minimum version asks Vault nothing, changes nothing and reports all as skipped |
| RewrapBatches.RewrapKeepsDataKey | internal/rewrap/rewrapper.go:57-164 | in every state during RewrapFile every key file unwraps to the data key it had |
| RewrapBatches.HistoryKeepsDataKey | internal/rewrap/rewrapper.go:167-206 | after any history of batches, also killed ones, a key file unwraps to the same data key |
| RewrapBatches.HistoryKeepsOthers | internal/rewrap/rewrapper.go:167-206 | such a history leaves files that are neither keys nor backups unchanged |
| RewrapPolicy.RewrapTwice | cmd/file-encryptor/rewrap.go:140-183 | after a scan and batch without failures, with Vault at the policy, every scanned file is at the minimum version; a second scan finds the same files and its batch asks nothing, changes nothing and counts all as skipped |
| DryRun.DryRunReports | internal/rewrap/rewrapper.go:95-99 | a dry run asks nothing, changes nothing, and its result for a file counts as skipped if the file can be read and parsed, else as failed |
| DryRun.DryRunReportsNoSuccess | internal/rewrap/reporter.go:48-56 | so it never counts a file as successful |
| DryRun.SkippedLabelIsRight | internal/rewrap/reporter.go:88-90 | of a file that a dry run reports as skipped, "already at minimum version" is true if and only if it is not below the minimum |
| DryRun.PreviewIsRight | cmd/file-encryptor/rewrap.go:215-219 | a dry run and the real run under the same circumstances skip the same number of files if and only if no file is below the minimum |
| DryRun.MisleadingPreview | cmd/file-encryptor/rewrap.go:215-219 | a key file of version 1 with minimum 2 that the dry run counts as skipped and the real run rewraps |
| Envelope.RewrapsKeepPairs | internal/rewrap/rewrapper.go:167-206 | no history of batches changes what an encrypted file and its key file stand for |
| Envelope.EncryptSeals | internal/crypto/envelope.go:50-78 | a successful encryption and saved key stand for the source's bytes |
| Envelope.DecryptOpens | internal/crypto/envelope.go:99-132 | decryption without faults succeeds exactly on pairs that stand for something, and writes that |
| Envelope.EncryptRewrapDecrypt | internal/crypto/envelope.go:50-132 | encrypt, any history of rewrap batches, decrypt: the original bytes |
| ItemRoundTrip.EncryptedItem | internal/watcher/processor.go:166-234 | a completed encryption item leaves, after disposal too, a pair for the source's bytes and their checksum if there is to be one |
| ItemRoundTrip.DecryptedItem | internal/watcher/processor.go:166-248 | a completed decryption item leaves at its output what the pair stood for, after its three inputs are disposed of |
| ItemRoundTrip.EncryptedInTheEnd | internal/watcher/processor.go:166-248 | an encryption item that is completed after any number of attempts leaves a pair for its file as it was in the beginning |
| ItemRoundTrip.DecryptedInTheEnd | internal/watcher/processor.go:166-248 | a decryption item that is completed after any number of attempts leaves what the pair stood for in the beginning |
| ItemRoundTrip.RoundTrip | internal/watcher/strategy.go:36-156 | if an encryption item, after any attempts, and, after any history of rewrap batches, a decryption item for its output, after any attempts, are completed, the file that comes out has the original bytes, under whatever faults |
| DecryptionSteps.NextBooks | internal/watcher/processor.go:232-248 | every single step of the decryption of any files, in any order of attempts, keeps where each delivered file is and what the current phase may rely on, if the station is safe |
| Preservation.AlwaysPreserved | internal/watcher/strategy.go:103-156 | if files are not deleted or the cipher leaves its output alone without a source: in every reachable state, under faults, kills, rewraps and repeated attempts, for each delivered file the output holds the plaintext, or the encrypted file and its key are each in exactly one place and still good |
| Preservation.PreservedExactly | internal/watcher/processor.go:232-248 | that condition (or nothing that can be decrypted) is exact |
| Preservation.LostPlaintext | internal/watcher/processor.go:232-241 | a concrete history otherwise: killed between deleting the encrypted file and its key, the next attempt spoils the output |
| Preservation.StepsAreAttempt | internal/watcher/processor.go:166-248 | the machine's steps from opening on are one attempt of the processor at a decryption item, on the disk |
| Coverage.KilledWithinEncryption | internal/watcher/strategy.go:36-84 | every state of the disk in the middle of a step of an encryption is one that the machine's partial writes lead to, so killing it there is covered |
| Coverage.KilledWithinDecryption | internal/crypto/envelope.go:99-132 | the same of a decryption |
| Coverage.RewrapIsCovered | internal/rewrap/rewrapper.go:57-164 | whatever a rewrap, finished or killed, leaves in a delivered key file, the machine's rewraps can put there |
| ItemRoundTrip.SmoothEncryption | internal/watcher/strategy.go:36-84 | without faults an encryption item is completed exactly if its file is there |
| ItemRoundTrip.SmoothRoundTrip | internal/watcher/strategy.go:127-155 | without faults the decryption item is then completed exactly if verification is off or the recorded checksum, just written or old, is that of the original bytes, up to white space around it |
| ItemRoundTrip.OwnChecksumPasses | internal/watcher/strategy.go:127-155 | with a checksum just written and verification on, it is completed exactly if the checksum has no white space at its ends |
| ItemRoundTrip.RecordedChecksumDecides | internal/crypto/checksum.go:34-40 | with a recorded checksum, and any white space around it, exactly if that is the checksum of the original bytes |
| Checksums.TrimExactly | internal/crypto/checksum.go:34-40 | loading gives exactly the string without white space at its ends that the file holds with white space around it |
| ItemRoundTrip.EncryptionSucceedsExactly | internal/watcher/strategy.go:36-84 | an encryption attempt succeeds exactly if the file is there and no step of it fails; an unknown operation never does |
| ItemRoundTrip.DecryptionSucceedsExactly | internal/watcher/strategy.go:103-156 | under any faults a decryption attempt succeeds exactly if the key can be read and unwrapped, the cipher works, the pair stands for something and, with verification on, there is no readable checksum file or the checksum of the result can be computed and is the recorded one |
| ItemRoundTrip.WatcherMakesThem | internal/watcher/watcher.go:247-266 | the watcher's items for a file and for its encrypted output have the paths that these statements are about |
| ItemRoundTrip.EncryptionApart | internal/watcher/strategy.go:48-79 | an encryption writes none of the paths where its file can be put aside, whatever the directories |
| ItemRoundTrip.DecryptionApart | internal/watcher/watcher.go:255-259 | nor does a decryption |
| KeyVersion.ParseOfPrint | internal/vault/rewrap.go:57-73 | parsing a printed version gives it back, for every int and every payload |
| KeyVersion.AcceptsExactly | internal/vault/rewrap.go:57-73 | the parser returns n exactly on strings vault:v, digits of value n that fits an int, a colon and anything |
| KeyVersion.AtoiExact | internal/vault/rewrap.go:67-70 | the digit fold in 64-bit arithmetic gives the value or an error, never a wrapped number |
| KeyVersion.FastFoldNeverWraps | internal/vault/rewrap.go:67-70 | the unguarded fold for short numbers does not wrap |
| Scanner.ScanFinds | internal/rewrap/scanner.go:49-89 | the scan lists exactly the files below the root whose name ends in .key, directly in it or at any depth when recursive |
| Scanner.ScanIsDistinct | internal/rewrap/scanner.go:49-89 | and each once |
| Scanner.Scanner.Scan | internal/rewrap/scanner.go:49-89 | the walk appends the files in the order of that listing |
| Reporter.CountersMatchLists | internal/rewrap/reporter.go:39-57 | the counters are the lengths of the three lists of files, and add up to the total |
| Reporter.VersionsAreCounted | internal/rewrap/reporter.go:39-47 | each known old version that occurs is counted as often as it does, and no other |
| Reporter.Reporter.AddResult | internal/rewrap/reporter.go:39-57 | the statistics after one more result |
| Reporter.FilesInOrder | internal/rewrap/reporter.go:214-244 | the list of one outcome goes through the results in order and takes the paths of those with that outcome |
| Reporter.Reporter.GetFiles | internal/rewrap/reporter.go:214-244 | the files of one outcome in order |

## Left out

- Vault's HTTP client, authentication, health checks and data-key requests: Vault is a parameter with laws.
- AES-GCM, SHA-256, chunking, progress callbacks and memory zeroing: a cipher parameter that decrypts what it encrypted; encryption only reads its source. Checksums are compared as strings; of the white space that `strings.TrimSpace` cuts off only ASCII is modelled.
- Configuration loading, validation, hot reload and `UpdateConfig`; the defaults of `NewQueue` and the argument checks of the constructors.
- Command line, signals, logging, and the text, JSON and CSV output of the reporter.
- fsnotify delivery and the polling for a key file: a sighting says whether the key was seen and the file became stable.
- An upload in `Recovery` appears whole; that a half-written file is not admitted is the stability wait's business. Each source path is uploaded once, under a name that is free in all the directories the file can move to. The code does not check this: a later file of the same name replaces what is there, as `RetryFate.MoveLosesNothing` says, and is encrypted over the pair of the earlier one.
- File permissions, symbolic links, fsync and power loss: a crash is a crash of the process, and a rename is atomic.
- `Recovery` has encryption items only; `Decryption` has decryption items, with the queue abstracted to any order of attempts, and delivers an encrypted file and its key in one step. An item in hand when the process ends is not in the saved list; its file is found again by the next scan.
- Floating-point rounding in the backoff library: intervals are integers that double up to the maximum. The library is not part of this model, nor are `filepath`, `regexp` and `strconv` beyond the parts written out in `Paths` and `KeyVersion`.
- The root directory, relative source directories without a name, and paths with a trailing slash.
- `Save` takes the read lock that `List` takes again, and `processItem` holds its own lock while it calls the queue: methods are atomic here, and nothing is said about deadlock.
- `filepath.Walk` errors on single entries, and `ScanSingleFile`.
- Detector.PartialUploadDetector.WaitForStability: requires a positive stability duration, and that some round ends, which without a limit is up to the file; cancellation is an input of each round, sleeps are exact and stats instant.
- Watcher.VerifyPath: gives the empty name for a source name shorter than four characters, on which the code panics; the watcher only passes names that end in .enc.
- Processor.Processor.Start: a run is a finite sequence of ticks, not an endless loop; cancellation ends it between ticks.
- Queue.Queue.Load: items are loaded as new objects; the code may alias an item it still holds elsewhere, which runs on values do not show.
