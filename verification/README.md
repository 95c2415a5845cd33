# Percona TokuBackup, modelled in Dafny

TokuBackup is a library that stands between a program and the C library. While a backup runs, a copier thread
copies every file of the source directories, and each `write`, `pwrite`, `ftruncate`, `open`, `close`, `unlink`
and `rename` that the program makes meanwhile is repeated on the backup. The claim it exists for is that at the
end the backup is the source, although nothing was ever stopped. This project models the protocols and the data
structures that the claim rests on, and proves what they guarantee for all inputs, all interleavings and any number of
threads. Where the code does not keep a promise, the project proves a concrete input that breaks it and the exact
condition under which it is kept.

`dafny verify dfyconfig.toml` checks everything.

## How the modules fit together

| module | what it is about |
|---|---|
| `Basics` | what several modules share |
| `Ranges`, `Files` | byte ranges; a file as a length and zero-extended contents, as `lseek` and `ftruncate` of IEEE Std 1003.1-2017 define them |
| `RangeLocks` | the table of locked ranges, as a class, and its waiters, as a step system |
| `MirrorProtocol`, `MirrorProgress` | one file: calls in flight against the copier; the backup converges to the source, and nothing keeps it from being finished |
| `MirrorHalf`, `CopyFile` | the write loops under it: the mirror half of a call with short and failing writes, and the copier's loops with partial writes |
| `ShadowOffset` | the offset kept beside the kernel's |
| `Session`, `SessionSafety`, `SessionBackup`, `SessionDelivery`, `SessionTheorems`, `SessionPrepare`, `SessionArrival`, `SessionStrays`, `SessionDisable`, `SessionProgress`, `SessionEffects`, `SessionExamples` | lifetimes over a session: open, close and unlink on any number of threads, and prepare, copy and disable on the backup thread; the invariant, its preservation, what it says about runs, which files the backup has at the end, who takes destinations away, who changes what, that calls and session can always end, and runs that show the limits |
| `References` | reference counts with rename among the holders, and what a rename does to the table |
| `LockOrder` | the lock hierarchy, freedom from deadlock, and what is done under which lock |
| `ErrorReport` | how a mirror failure reaches the caller of `do_backup` |
| `HashTable`, `Murmur`, `Fmap` | the chained table with links inside its entries, the hash it uses, and the descriptor table |
| `Traversal`, `Paths`, `Throttle` | the copier's walk against the size computed beforehand, the names of backup files, the rate limit |

A protocol is a `State`, a `Step`, an `Enabled` test and a function `Do`; `Reaches` is a run, and the theorems are about
every run from `Init`. What the program, the kernel, the callbacks and the scheduler decide is a parameter of the step.
The session is proved one thread, one descriptor and one file at a time: a step establishes the invariant for the thread
that takes it, and leaves alone what the others rely on. Code that changes objects in place is a class with loops, proved
against functions of which the lemmas speak.

## What is false of the code

Each is stated with its counterexample and the condition that decides.

- Prepare leaves its loop, with success, at the first open file that is excluded; the descriptors behind it get no
  destination (`SessionExamples.ExcludedFileEndsPrepare`). It happens exactly when such a file is open as prepare
  begins (`SessionPrepare.PrepareStopsIff`).
- An unlink whose destination cannot be created returns without giving its reference back, and the object is never
  freed (`SessionExamples.FailedUnlinkLeaks`, `SessionTheorems.UnlinkLeaksIff`, `SessionTheorems.AbandonedReferenceStays`).
- A name that is unlinked and made again while the object of its first file lives gets no destination, and the new
  file is lost. The copier alone, which holds the object for as long as it handles the file, is enough
  (`SessionExamples.RecreatedDuringCopyIsLost`). The mark on the object decides (`SessionTheorems.CoverageIff`,
  `SessionArrival.CopierDeliversIff`). A captured unlink of such a file follows a NULL pointer
  (`SessionExamples.ReusedNameCrashes`, `SessionTheorems.UnlinkCrashesIff`).
- Not every file that exists when the copier is done with its entry is in the backup yet: one that the copier found
  missing may have come back (`SessionExamples.MissedFileComesBack`). Once the open that brings it has been captured, and
  for every other file, it is there exactly when its object is not marked, unless creating its destination failed
  (`SessionArrival.CopierDeliversIff`).
- The backup can have a file that the source has not: prepare makes one for a description that an open maps although the
  file was unlinked meanwhile (`SessionExamples.PrepareMakesStray`). Apart from an unlink that cannot open the backup
  file (`SessionStrays.UnlinkStrandsIff`), this is the only way, and it lasts until the name is made again
  (`SessionStrays.StraysIff`).
- A failing mkdir in a captured open, or a destination that an unlink cannot create, is not reported and does not end the
  session (`SessionExamples.FailedUnlinkLeaks`); only the file it happened to loses its promise
  (`SessionTheorems.CaptureCoverage`).
- The retry loop of `destination_file::pwrite` starts again at the front of its buffer; only a buffer of equal bytes is
  mirrored rightly whatever the kernel writes (`MirrorHalf.OnlyUniformBuffersAreSafe`).
- `write` mirrors the whole buffer when the kernel wrote less, or failed (`MirrorHalf.MirrorFollowsSourceIff`,
  `MirrorHalf.FailedWriteIsMirrored`).
- A failing `lseek` sets the kept offset to -1. The next write locks nothing and its mirror is refused; the one after it
  is mirrored before its place, by the kernel's offset at the `lseek` plus one (`ShadowOffset.ShadowIsRightIff`,
  `ShadowOffset.FailedSeekMisplacesWrites`, `ShadowOffset.FailedSeekFallsBehind`).
- Captured calls and the copier can name different backup files. They name one exactly when the two pairs of roots agree,
  the one the file belongs to and the one its name is found under (`Paths.SameBackupFileIff`): under its own root, when
  both roots of the pair end in a slash or neither does (`Paths.OwnRootsAgreeIff`). A source that is a string prefix of
  another may mislead (`Paths.PrefixRootMisleads`) or not (`Paths.PrefixRootMayAgree`).
- A second caller of `do_backup` clears the first one's error flag (`ErrorReport.SecondCallerLosesTheFailure`); what a
  caller is told is `ErrorReport.AnswerIff`. It also stops the first one's copy (`ErrorReport.SecondCallerStopsTheCopy`),
  which runs on exactly as long as nobody reports an error and no other call fails (`ErrorReport.CopyGoesOnIff`).
- Even a single caller may answer 0 for a copy that was stopped: when the close of a backup file fails on the backup thread
  (`ErrorReport.SilentReportStopsTheCopy`). It happens exactly by a report on that thread (`ErrorReport.OneCallerIsToldIff`).
- With several source directories the reported progress can exceed 1 (`Traversal.SecondDirectoryOverstates`). It stays
  within 1 exactly when, for each directory, what was copied before it is at most what its walk leaves out and what it
  copies after its last report (`Traversal.Copier.CopyDirectories`).
- A rename that fails half way leaves the file out of the table, and from then on one file may have two objects
  (`HashTable.FileHashTable.Rename`, `References.FailedRenameSplitsFile`), exactly when somebody else holds the file
  (`References.RenameSplitsIff`). `rename_locked` also abandons its reference,
  follows a NULL destination or hashes a NULL name, exactly as `HashTable.FileHashTable.RenameLocked` says.
- Disabling leaves the destination of a file that is open twice, or that a call in flight holds
  (`SessionDisable.DestinationsAtTheEnd`).
- `truncate(path)` takes its locks out of order (`LockOrder.TruncateIsOutOfOrder`).

## Model

| member | source | states |
|---|---|---|
| Ranges.IntersectsMeansSharedByte | backup/source_file.cc:132-142 | The intersection test, with its four branches, answers true exactly when some byte lies in both ranges; empty ranges meet nothing |
| Files.PWrite | backup/destination_file.cc:80-102 | A complete positioned write: which byte every position of the file then shows, the gap reads as zero, and the length; an empty buffer changes nothing |
| Files.Truncate | backup/destination_file.cc:106-115 | The length becomes the given one, kept bytes stay, new bytes are zero |
| Files.RangeIsWhatMayChange | backup/manager.cc:463-468 | The bytes that a call locks are exactly those that it can change in some file |
| Files.DisjointOpsCommute | backup/manager.cc:463-488 | Two calls whose locked ranges do not intersect, `ftruncate` with its range up to LLONG_MAX included, commute on every file |
| Files.AnyOrderGivesTheSameFile | backup/manager.cc:826-843 | Calls that may all hold their ranges at once give one file in every order, so the mirror halves may run in any order the locks allow |
| Files.OverlappingWritesDoNotCommute | backup/source_file.cc:132-166 | The range lock is needed: two overlapping writes that disagree on a byte leave different files in the two orders |
| RangeLocks.LockedRanges.LockRangeWouldBlockUnlocked | backup/source_file.cc:143-154 | The loop finds an intersecting held range exactly when there is one |
| RangeLocks.LockedRanges.TryLockRange | backup/source_file.cc:156-166 | Between two waits: the range is appended exactly when nothing held intersects it, and held ranges stay pairwise disjoint |
| RangeLocks.LockedRanges.UnlockRange | backup/source_file.cc:170-190 | The first matching entry is replaced by the last and the vector shortened; EINVAL, and no change, exactly when the range is not held |
| RangeLocks.UnlockedRemovesOne | backup/source_file.cc:170-190 | Swapping with the last entry removes one occurrence of the range from the multiset and nothing else |
| RangeLocks.StepKeepsInv | backup/source_file.cc:156-190 | Locking, sleeping, waking and unlocking keep: held ranges disjoint, entries counted by their holders, every sleeper blocked by a held range |
| RangeLocks.NoByteIsLockedTwice | backup/source_file.cc:132-190 | In every run no byte lies in the ranges of two threads |
| RangeLocks.SleeperWaitsForAHolder | backup/source_file.cc:156-190 | No wakeup is lost: whenever a thread sleeps, some other thread still holds a range that intersects its own |
| RangeLocks.UnlockAlwaysFindsItsRange | backup/source_file.cc:170-190 | A thread that locked a range finds it at unlock: the EINVAL branch is never taken |
| RangeLocks.TestGrantsIff | backup/source_file.cc:156-166 | A thread that tests gets its range at once if and only if no thread holds a range that meets it |
| RangeLocks.KeepsItsRange | backup/source_file.cc:156-190 | Over every run a thread stays with the range it came with, until it unlocks it |
| RangeLocks.NoWaiterIsStuck | backup/source_file.cc:156-190 | From every reachable state, testing and unlocking alone let every thread that has come get its range and go |
| MirrorProtocol.StepKeepsInv | backup/manager.cc:443-504 | Every step of a call or the copier keeps: the source is what the destination becomes once the pending mirror halves are applied, as far as the copier has come |
| MirrorProtocol.DestinationMissesOnlyPendingCalls | backup/manager.cc:542-579 | After the copier's end of file, at every moment, the source equals the destination with the pending mirror halves applied |
| MirrorProtocol.BackupConverges | backup/copier.cc:494-549 | For every interleaving of any number of write, pwrite and ftruncate calls with the copier: whenever the copier has finished and no call is in flight, the destination is the source, byte for byte |
| MirrorProtocol.CopiedBytesAreRight | backup/copier.cc:615-675 | While copying, all that the copier has passed agrees with the source up to pending mirror halves |
| MirrorProtocol.HeldRangesAreDisjoint | backup/manager.cc:811-848 | The ranges held by calls, and the copier's whole-buffer range, are pairwise disjoint in every reachable state |
| MirrorProgress.SourceIsWhatCallsDid | backup/manager.cc:542-579 | Over every run the source is what the source halves of the calls make of it, one after the other, and nothing else changes it |
| MirrorProgress.CallRuns | backup/manager.cc:542-579 | A call whose range is free goes through whatever else is in flight: it does its operation on the source and on the destination, if there is one, and leaves |
| MirrorProgress.RoundRuns | backup/copier.cc:494-549 | A round of the copier writes the bytes it has read to their place and moves on behind them |
| MirrorProgress.CopiedIsWritten | backup/copier.cc:615-675 | Over every run the copier, until it has finished, has passed exactly as many bytes as it has written: nothing sets it back |
| MirrorProgress.DestinationChangesBy | backup/source_file.cc:261-300 | The destination is attached and detached by the steps meant to do so, and the backup file is changed by its creation, by mirror halves while it is attached, and by the copier |
| MirrorProgress.CopierComesToTheEnd | backup/copier.cc:494-549 | From every reachable state without calls whose destination is attached, under any legal reads and writes: the copier alone takes a bounded number of steps, stops only when it has finished, and then the destination is the source |
| MirrorProgress.EveryBackupCanFinish | backup/manager.cc:175-229 | From every reachable state, if no further call begins, some run leads to a finished copier, no call in flight and equal files |
| MirrorHalf.DestinationFile.PWrite | backup/destination_file.cc:80-102 | For every sequence of kernel answers, what the retry loop puts into the file and what it returns: 0 on full success, errno or -1 from the call that stopped it |
| MirrorHalf.Code | backup/destination_file.cc:80-102 | The returned code is 0 exactly when every kernel call wrote something until nothing was left; otherwise it is that of the first call that did not: its errno, or -1 when it wrote nothing |
| MirrorHalf.DestinationFile.Truncate | backup/destination_file.cc:106-115 | The backup file is truncated, or unchanged with the errno of the failure |
| MirrorHalf.MirrorRightIff | backup/destination_file.cc:80-102 | A mirrored write that reports success is right exactly when the repeated fronts of the buffer happen to spell the buffer |
| MirrorHalf.OnlyUniformBuffersAreSafe | backup/destination_file.cc:82-99 | A buffer is mirrored rightly under all short writes if and only if all its bytes are equal |
| MirrorHalf.CompleteWriteIsRight | backup/destination_file.cc:82-99 | One complete kernel write mirrors any buffer |
| MirrorHalf.MirrorFollowsSourceIff | backup/manager.cc:471-488 | From equal files, the two halves of a `write` or `pwrite` leave equal files exactly when the kernel wrote all, or the rest was there already, or `pwrite` saw nothing written |
| MirrorHalf.FailedWriteIsMirrored | backup/manager.cc:471-488 | A `write` that fails at the end of a file lengthens the backup only |
| CopyFile.FileCopier.CopyFileRange | backup/copier.cc:615-675 | For all reads, partial writes, poll answers and errors: which bytes reach the destination, how the counters move, that 0 means end of file or a whole buffer written, and that any other result is that of the first answer that stopped the writes |
| CopyFile.FileCopier.CopyFileData | backup/copier.cc:494-549 | The destination is always a prefix of the source as long as the counter says; the result is 0 exactly when the last round finds copying disabled or the end of the file, which means the whole file; otherwise it is what stopped that round: the failed read, the first answer that stopped a write, or the pause; every round before it copied all that it read |
| ShadowOffset.ShadowIsRightIff | backup/manager.cc:591-608 | Whenever the mutex is free, the kept offset is the kernel's if and only if the last lseek, if any, succeeded, for every interleaving of read, write and lseek |
| ShadowOffset.WriteLocksItsRangeIff | backup/manager.cc:459-480 | The range a write has locked starts where the kernel will write if and only if the last lseek succeeded |
| ShadowOffset.EveryWriteIsMirroredInPlace | backup/manager.cc:471-488 | Over a run without failed lseek every write is mirrored where the kernel put it |
| ShadowOffset.MutexExcludes | backup/manager.cc:514-531 | At most one thread is between lock and unlock of the description |
| ShadowOffset.FailedSeekMisplacesWrites | backup/manager.cc:459-488 | After one failed lseek at any kernel offset, for all lengths: a run whose first write is at the kept offset -1 and whose second is locked, and mirrored, by that offset plus one before its place |
| ShadowOffset.FailedSeekFallsBehind | backup/manager.cc:591-608 | Until the next lseek, whatever reads and writes any threads do, the kept offset stays behind the kernel's by the offset at the failed lseek plus one |
| ShadowOffset.NegativeOffsetLocksNothing | backup/manager.cc:463-468 | With a kept offset of -1 the unsigned range wraps and is empty: the write excludes no other |
| ShadowOffset.CallAlone | backup/manager.cc:443-608 | While the mutex is free, whatever else waits for it: a read, write or lseek can be made, and moves the two offsets as the kernel answered |
| SessionTheorems.StepKeepsInv | backup/manager.cc:331-393 | Every step of every thread and of the backup thread keeps the session invariant |
| SessionTheorems.RefConservation | backup/file_hash_table.cc:95-104 | In every reachable state a reference count is the mapped descriptions plus the calls in flight plus the copier, plus what unlinks abandoned, which is none for an object whose destination never failed; rename is in References |
| SessionTheorems.NoDanglingReference | backup/source_file.cc:223-233 | Table, descriptors, calls in flight and copier only point at objects that exist with a positive count: no use after free, and the decrement never passes zero |
| SessionTheorems.PutFindsAnEmptySlot | backup/fmap.cc:107-112 | `put` never overwrites a live slot, because close empties it before the real close; no two calls work on one descriptor |
| SessionTheorems.AbandonedReferenceStays | backup/manager.cc:759-770 | An abandoned reference is never given back: the object outlives every run |
| SessionTheorems.UnlinkLeaksIff | backup/manager.cc:759-770 | unlink abandons its reference exactly when it is captured and a needed destination cannot be created |
| SessionTheorems.CaptureCoverage | backup/manager.cc:249-290 | For every interleaving of open, prepare, close, unlink and copier: each settled descriptor whose file still has its name, included in the source and not excluded, has a destination that is a file of the backup, unless its own object is marked by an earlier unlink or its own destination failed, if prepare was not cut short |
| SessionTheorems.CoverageIff | backup/source_file.cc:280-287 | As long as no error was reported, such a descriptor is covered if and only if its object is not marked |
| SessionArrival.CopierDeliversIff | backup/copier.cc:401-456 | When the copier is done with an entry without error: a file that exists then, whatever became of it since it was picked, for which nothing failed and which no creating open is still bringing, is in the backup if its object is not marked; and if and only if, as long as no error was reported |
| SessionArrival.LeavesBackupIff | backup/manager.cc:756-784 | A step takes a file out of the backup if and only if it is a captured unlink of its name that neither fails nor follows a NULL destination |
| SessionArrival.StaysInBackup | backup/manager.cc:756-784 | So over every run without such an unlink a file stays in the backup, to the end of the session and after it |
| SessionArrival.DeliveredFilesAreThere | backup/manager.cc:175-229 | The files at the end: what the copier finished without error, or an open made a destination for, is in the backup at every later moment of every run at which it is in the source, unless its name was made again after an unlink |
| SessionStrays.PreparedFiles | backup/manager.cc:249-290 | While prepare runs, a file of the source is in the backup if and only if a description that the loop has passed is open under its name with an unmarked object |
| SessionStrays.StepStrays | backup/manager.cc:727-801 | Once prepare is over and until an error is reported, no step leaves a file in the backup alone that was not so before, but for an unlink that could not open the backup file; and such a file stays until its name is made again |
| SessionStrays.UnlinkStrandsIff | backup/manager.cc:756-800 | A captured unlink that neither reports an error nor crashes leaves the file in the backup alone if and only if it was there and the backup file could not be opened |
| SessionStrays.StraysIff | backup/manager.cc:249-290 | The other half of the files at the end: a file that the source has not, and that no unlink is taking out or has given up on, is in the backup if and only if it was open and gone already while prepare ran, and was never made again |
| SessionTheorems.UnlinkedStaysUnlinked | backup/manager.cc:727-801 | After a captured unlink that neither failed nor followed NULL, nothing in any later run puts the file back before somebody creates the name again, not even a copier or open already on its way |
| SessionTheorems.CrashNeedsRecreation | backup/manager.cc:759-776 | A NULL destination is followed only in runs that created an unlinked name again |
| SessionTheorems.UnlinkCrashesIff | backup/source_file.cc:280-287 | unlink follows a NULL destination exactly when it is captured and its object is marked and has none; the name was then created again |
| SessionPrepare.PrepareStopsIff | backup/manager.cc:254-290 | Whatever other threads do meanwhile, and unless prepare cannot create a destination: it stops short if and only if an excluded source file was open as it began |
| SessionPrepare.CoverageWithoutExclusion | backup/manager.cc:268-271 | With no excluded file open at the start of the session, coverage holds up to the end of copying |
| SessionDisable.DisableDetaches | backup/manager.cc:294-320 | Disabling a description takes the destination of its object away if nobody else holds the object, leaves it if somebody does, and touches no other object |
| SessionDisable.CloseDetaches | backup/manager.cc:413-420 | So does a close in a session; outside a session it leaves all destinations alone |
| SessionDisable.CopierDetaches | backup/copier.cc:447-453 | So does the copier when it is done with a file |
| SessionDisable.DestinationsAtTheEnd | backup/manager.cc:294-320 | When the session ends, if no call took or dropped a reference while the descriptions were disabled: an object has a destination if and only if it had one before and is not held by a single description alone |
| SessionProgress.CallAdvances | backup/manager.cc:331-434 | Every step of a call brings it nearer to its end, leaves the other calls where they are, and gives the file operation mutex back when it returns |
| SessionProgress.EverythingCanEnd | backup/manager.cc:175-229 | From every reachable state, without another call and without another file for the copier, some run leads to the end: all calls return and the session is over, unless an unlink follows a NULL pointer |
| SessionEffects.EveryOpenIsTracked | backup/manager.cc:1022-1050 | In every reachable state, an open descriptor of a file that still has its name, and on which no call works, has a description that leads to the one object the table has under that name; closed descriptors have none |
| SessionEffects.OpenFilesAreCovered | backup/manager.cc:331-393 | Coverage from the side of the program: while files are copied, every such descriptor of an included file has a destination to mirror to, and its file is in the backup, unless the object is marked or that destination failed |
| SessionEffects.OnlyIncludedIsBackedUp | backup/manager.cc:268-271 | In every reachable state, nothing outside the source is in the backup, and nothing that is excluded under both its names |
| SessionEffects.FilesChangeBy | backup/backup.cc:82-97 | A file of the source comes by a creating open and goes by an unlink that works, and in no other way |
| SessionEffects.DescriptorsChangeBy | backup/backup.cc:127-136 | A descriptor is open from the real open to the real close |
| SessionEffects.DescriptionsChangeBy | backup/fmap.cc:107-144 | A description points at its object from the put of an open to the erase of a close |
| SessionEffects.SessionChangesBy | backup/manager.cc:175-229 | The session lasts from the start of a backup to the end of disabling |
| SessionEffects.CaptureChangesBy | backup/manager.cc:950-961 | Calls are captured from the end of prepare, or from where it stops at an excluded file, until an error is reported or the session ends; which steps report is listed |
| SessionEffects.OpenAsksIff | backup/backup_directory.cc:256-279 | A captured open asks for a backup file if and only if the file is there, in the source, not excluded, and its directory can be made |
| SessionEffects.EntersBackupIff | backup/source_file.cc:280-300 | A file comes into the backup if and only if prepare, a captured open, the copier, or a captured unlink that then fails makes the destination of an unmarked object of that name that has none |
| SessionEffects.LeavesBackupBy | backup/manager.cc:1064-1074 | When an unlink is captured and takes its file out of the backup, in terms of session, capture flag, roots and exclusion |
| SessionEffects.MarksChangeBy | backup/source_file.cc:243-251 | An object keeps its name, and is marked by an unlink that goes through and by nothing else, for good |
| SessionEffects.CopyFailsIff | backup/copier.cc:401-456 | The copy of a file fails if and only if its backup file cannot be opened or its data cannot be copied |
| SessionEffects.SessionFailsIff | backup/manager.cc:184-207 | The session fails if and only if the copy of a file does or prepare cannot make a destination |
| SessionEffects.CopierLooksTwice | backup/copier.cc:401-428 | The copier goes on to a file if it can be opened, and makes its backup file only if it is there once the table is locked |
| SessionEffects.FileOpChangesBy | backup/manager.cc:1054-1062 | Creating opens and unlinks begin only while the mutex is free, take it, and give it back as they return |
| SessionEffects.MutexIsNeverLost | backup/manager.cc:1054-1062 | In every reachable state the mutex is free or its holder is inside a call; with no call in flight creating opens and unlinks can begin |
| SessionExamples.ExcludedFileEndsPrepare | backup/manager.cc:269-271 | A reachable state where the file behind an excluded one has no destination though nothing failed |
| SessionExamples.FailedUnlinkLeaks | backup/manager.cc:765-770 | A reachable state with a count of one that nobody holds, in a session that goes on |
| SessionExamples.ReusedNameCrashes | backup/manager.cc:759-776 | A run without I/O failure in which unlink follows a NULL destination |
| SessionExamples.RecreatedDuringCopyIsLost | backup/copier.cc:413-456 | A run without failure in which a file is made again while the copier holds the object of its unlinked namesake: it is open, linked and included, the copier finishes it, and it is not in the backup |
| SessionExamples.MissedFileComesBack | backup/copier.cc:352-366 | A run in which a file that the copier found missing exists again, unmarked and not yet in the backup, when the copier is done |
| SessionExamples.PrepareMakesStray | backup/manager.cc:249-290 | A run without failure in which an open is overtaken by an unlink of its file, and prepare then makes the file in the backup |
| References.StepKeepsInv | backup/file_hash_table.cc:209-274 | Every operation under the table lock, renames that fail anywhere included, keeps counts, holders and table consistent |
| References.GetFinds | backup/file_hash_table.cc:95-104 | A get counts a reference of the object that the name finds, or of a new one, which the name finds from then on; no other object changes |
| References.DropGivesBack | backup/file_hash_table.cc:217-224 | A drop gives one reference back, and with the last one the object and its entry go; no other object changes |
| References.MoveKeepsObject | backup/fmap.cc:107-144 | A reference that goes to a description or comes from one is to the same object, and counted as before |
| References.RenameMovesTheName | backup/file_hash_table.cc:228-274 | A rename that succeeds gives the object its new name and changes nothing else; the old name finds nothing; without an object of that name nothing changes |
| References.LeaksIff | backup/file_hash_table.cc:228-243 | A reference is abandoned if and only if an unlink or a rename of the object cannot create the destination |
| References.RefConservation | backup/file_hash_table.cc:228-243 | With rename among the holders: a count is the number of holders plus what unlink and rename abandoned, no pointer dangles, nor does the table's |
| References.OneObjectPerName | backup/file_hash_table.cc:247-274 | Until a rename fails every object is found under its name; and as long as every object is, no two have one name |
| References.RenameSplitsIff | backup/file_hash_table.cc:247-274 | When every object is found under its name, a step ends that if and only if it is a rename that fails at realpath or in the backup of a file that has other references; and it hashes a NULL name if and only if it is one that fails at realpath of a file that has none |
| References.FailedRenameSplitsFile | backup/file_hash_table.cc:254-270 | From a reachable state, a rename whose backup half fails, and an open: two live objects of one name |
| References.ClashMakesTwins | backup/file_hash_table.cc:143-155 | Renaming onto a name in the table leaves two entries of that name |
| LockOrder.EveryCallIsBalanced | backup/manager.cc:727-801 | Every interposed call but truncate(path), with every outcome, and the backup thread with any files, wait only for locks above those they hold, release all, and do each piece of work under the lock that guards it |
| LockOrder.EveryCallDoesItsWork | backup/manager.cc:443-504 | What each call does, in its order: the real call, the mirror half, the work on table, descriptors, names, destinations, list and error flag; nothing is left out or done twice |
| LockOrder.CallsWork | backup/manager.cc:542-579 | In particular: every write, pwrite and ftruncate does its real call and, when it goes well in a session, the mirror call on the same range of the same file; every creating open, unlink and rename its real call; and where offsets, names and destinations are used |
| LockOrder.StepKeepsInv | backup/manager.cc:443-504 | Beginning a call and each acquire and release keep the order and mutual exclusion |
| LockOrder.NoDeadlock | backup/manager.cc:175-192 | With any number of threads, whenever one is unfinished some thread can step, even if readers wait behind waiting writers |
| LockOrder.NoConflictingHolders | backup/file_hash_table.cc:228-249 | Two threads never hold conflicting locks |
| LockOrder.WorkIsGuarded | backup/manager.cc:463-488 | In every reachable state a thread that is about to work holds the lock for it: the byte range at both halves of a call and at the copy of a range, the session at the mirror half, table, name, descriptor and list locks at theirs, the file operation lock at the real creating open, unlink and rename |
| LockOrder.NoClash | backup/file_hash_table.cc:228-249 | So two threads are never at work that clashes: on intersecting ranges of one file, on one table, name, offset or list, or on the session while it is made or ended |
| LockOrder.CallsExclude | backup/manager.cc:558-579 | Two calls on intersecting ranges of one file are never both between the real call and the unlock, nor is the copier at such a range meanwhile |
| LockOrder.NamingCallsExclude | backup/backup.cc:274-307 | Two creating opens, unlinks or renames never overlap: each is done on both sides before the next begins |
| LockOrder.EveryCallCanReturn | backup/manager.cc:727-801 | From every reachable state some run ends all calls in progress, and then no lock is held |
| LockOrder.TruncateIsOutOfOrder | backup/manager.cc:869-882 | truncate(path) waits for a byte range while it holds the session lock, against the order |
| ErrorReport.MirrorFailureIsReported | backup/manager.cc:152-245 | If a mirror call fails between the opening of the session and its close and nobody else calls do_backup before the check, do_backup returns nonzero: what the copy returned, or the first error recorded |
| ErrorReport.AnswerIsFirstRecorded | backup/manager.cc:985-999 | The saved error is the first recorded since the last reset, and 0 is answered exactly when there is none and the call's own work succeeded |
| ErrorReport.AnswerIff | backup/manager.cc:147-244 | With any number of callers: the answer at the check is nonzero if and only if the call's own error is, or some error was recorded after the last call of do_backup began |
| ErrorReport.ClosingWaitsForSections | backup/manager.cc:215-229 | When the session is closed, a mirror failure in any step of the run since it was opened has been recorded |
| ErrorReport.ReturnsWhatItWasGiven | backup/manager.cc:200-244 | From the step to the check, over every run: a call whose copy or validation failed returns that very error, and one whose copy went well returns 0 or the first error recorded |
| ErrorReport.AnswerOfTheRun | backup/manager.cc:147-245 | In terms of the run alone: a call returns what its copy or validation returned, if that is an error; 0 if and only if that is 0 and nothing was recorded since the last call began; otherwise the first error recorded |
| ErrorReport.ReturnsAtOnce | backup/manager.cc:147-168 | A call returns at once with the callback's answer, or with EBUSY exactly when another call owns the mutex |
| ErrorReport.MirrorErrorIsRecorded | backup/manager.cc:985-999 | The error that is recorded after a failed mirror call is the one that it failed with |
| ErrorReport.CallCanReturn | backup/manager.cc:212-245 | A call that has begun can always be brought to its return |
| ErrorReport.OneSessionAtATime | backup/manager.cc:160-168 | At most one caller owns the session |
| ErrorReport.SecondCallerLosesTheFailure | backup/manager.cc:147-168 | In any run, another call just before the check makes the first caller answer 0 |
| ErrorReport.SecondCallerStopsTheCopy | backup/manager.cc:160-168 | A call that only finds the backup busy disables copying, and nothing records it for the first caller |
| ErrorReport.CopyGoesOnIff | backup/copier.cc:136-160 | With any number of callers: from the opening of a session until it is closed, copying is enabled if and only if nobody has reported an error, on whatever thread, and no other call of do_backup has failed |
| ErrorReport.OneCallerIsToldIff | backup/manager.cc:950-961 | With a single caller: if copying was stopped and no error was reported on its own thread, one is recorded and the answer is not 0; and if it answers 0, copying was never stopped if and only if there was no such report |
| ErrorReport.SilentReportStopsTheCopy | backup/destination_file.cc:64-76 | A run of a single caller in which the close of a backup file fails on the backup thread: the copy is stopped, nothing is recorded, and the answer is 0 |
| HashTable.FileHashTable.constructor | backup/file_hash_table.cc:55-60 | The empty table |
| HashTable.FileHashTable.Get | backup/file_hash_table.cc:108-122 | The file of that name in the map, or NULL when there is none |
| HashTable.FileHashTable.Put | backup/file_hash_table.cc:126-155 | The map gains the file under its name; putting a member again changes nothing; a name of another member is excluded, which the code needs of its callers |
| HashTable.FileHashTable.MaybeResize | backup/file_hash_table.cc:157-179 | Resizing keeps every lookup and all members, brings the count within the size, and adds to the count of moves, which the loops make, the number of files |
| HashTable.MoveBucket | backup/file_hash_table.cc:168-176 | Emptying an old bucket by relinking heads keeps both tables' chains acyclic, disjoint and filed by hash, with one insertion for each file of the bucket |
| HashTable.MoveAll | backup/file_hash_table.cc:164-177 | All files go to the new buckets, each with exactly one insertion |
| HashTable.FileHashTable.Remove | backup/file_hash_table.cc:183-205 | The map loses exactly the name of the given file, and the member that bore it |
| HashTable.Bypass | backup/file_hash_table.cc:190-196 | Redirecting one link takes exactly that node out of its chain |
| HashTable.FileHashTable.GetOrCreate | backup/file_hash_table.cc:95-104 | The known file with one reference more, or a fresh one with one; no other count changes |
| HashTable.FileHashTable.TryToRemove | backup/file_hash_table.cc:217-224 | One reference less; with the last one the destination goes, the object is deleted, and whatever bears its name leaves the map, which is the file itself if it is in the table; a NULL name is hashed exactly when a nameless object goes |
| HashTable.SourceFile.TryToRemoveDestination | backup/source_file.cc:261-276 | The destination goes unless somebody else holds a reference |
| HashTable.FileHashTable.Rename | backup/file_hash_table.cc:247-274 | On success the map has the file under its new name only; on either failure the file is in the map no more, after a failed realpath without a name; a NULL destination is followed exactly when there is none |
| HashTable.FileHashTable.RenameLocked | backup/file_hash_table.cc:228-243 | For every object, marked or not, with or without destination, and every failure: exactly when the call succeeds, fails, abandons its reference, follows a NULL destination or hashes a NULL name; what its reference becomes and what the map is then |
| HashTable.FileHashTable.ResizeCost | backup/file_hash_table.cc:143-179 | Over any run of operations: the insertions that the resizing loops have counted are at most twice the files put into the table, the count is within the size, and the size is a power of two less one |
| Murmur.MurmurHash3X64128 | backup/MurmurHash3.cc:269-345 | The loop, the switch and the finalisation compute the hash defined block by block with a zero-padded tail |
| Murmur.TailWords | backup/MurmurHash3.cc:302-327 | The fall-through switch reads the tail as two little-endian words padded with zeros |
| Murmur.MixUndone | backup/MurmurHash3.cc:290-294 | Multiply, rotate, multiply is a bijection of 64-bit words, with its inverse |
| Murmur.FmixUndone | backup/MurmurHash3.cc:93-102 | The finaliser is a bijection, with its inverse |
| Murmur.BlockStepUndone | backup/MurmurHash3.cc:285-297 | A round can be undone: the state from the block, and the block from the two states |
| Murmur.BlockBetweenLeadsThere | backup/MurmurHash3.cc:285-297 | Between any two states there is a block that leads from one to the other |
| Murmur.TailStepInjective | backup/MurmurHash3.cc:302-327 | The tail step is injective in the state and in the tail |
| Murmur.FinishInjective | backup/MurmurHash3.cc:332-341 | The finalisation is injective for a given length |
| Murmur.OneUnitChangesTheHash | backup/MurmurHash3.cc:269-345 | Two keys of one length that differ only inside one 16-byte block, or only in the tail, never have the same 128-bit hash |
| Murmur.SeedChangesTheHash | backup/MurmurHash3.cc:269-345 | Two seeds never give one key the same hash |
| Murmur.LengthChangesTheHash | backup/MurmurHash3.cc:332-341 | A key and the same key with zero bytes appended inside its tail never have the same hash, although their blocks and tails are the same |
| Murmur.SampleHash | backup/MurmurHash3.cc:269-345 | The hash of one key with a block and a full tail, in which every constant, rotation and shift takes part |
| Murmur.TwoUnitsCanCollide | backup/MurmurHash3.cc:285-297 | The limit is exact: whatever the first block of a key is changed to, some second block restores the hash |
| Fmap.FileMap.GetUnlocked | backup/fmap.cc:95-104 | What the partial map of descriptors says, NULL for negative descriptors and those beyond the vector |
| Fmap.FileMap.GrowArray | backup/fmap.cc:167-175 | The vector grows just enough to index the descriptor, and no mapping changes |
| Fmap.FileMap.Put | backup/fmap.cc:107-112 | The map gains the descriptor, given that its slot is free |
| Fmap.FileMap.Erase | backup/fmap.cc:125-144 | The map loses the descriptor; one that was never mapped is not an error |
| Traversal.Dirsum | backup/dirsum.cc:48-76 | The recursive loop computes the sum over a tree, skipping dots |
| Traversal.BytesConserved | backup/dirsum.cc:48-76 | The bytes the walk copies plus the excluded and non-regular ones are exactly the sum computed beforehand |
| Traversal.ReachedOnce | backup/copier.cc:733-765 | No path occurs twice among the entries to be reached |
| Traversal.ReachedIff | backup/copier.cc:733-765 | A path is among the entries to be reached if and only if it is in the tree, leads over no dot entry and through no excluded directory |
| Traversal.StopCodeIsFirstError | backup/copier.cc:260-339 | What the walk returns about an entry is the first answer that is an error, in the order in which poll, stat, copy or opendir, mkdir and closedir are asked; that a directory exists already is none |
| Traversal.Copier.AddDirEntriesToTodo | backup/copier.cc:733-765 | Every entry but the dots is appended once, in order |
| Traversal.Copier.CopyFullPath | backup/copier.cc:260-339 | For every answer of stat, opendir, mkdir, closedir and the copy of the file: the first error among them is returned, EEXIST of mkdir not counted; what is put on the list, and how many bytes are counted and reported; excluded and missing entries are skipped without error |
| Traversal.WalkStep | backup/copier.cc:136-193 | One round keeps: handled and pending entries together are the entries of the tree, bytes too, parents handled first; what is pending shrinks |
| Traversal.Copier.CopyNext | backup/copier.cc:136-193 | The round in place, for every answer of the callback: it reports, pops the front and handles it, returns the first answer that is not 0, and otherwise keeps the walk invariant |
| Traversal.Copier.DoCopy | backup/copier.cc:136-193 | For every failure, answer of the callback and moment at which copying is disabled: the loop ends and has handled the entries in first-in first-out order, each once, directories before their children, up to the first at which some answer is an error, and returns that answer; bytes are counted as copied and reports never decrease; if at every entry all answers are 0, but for directories that exist already, and copying stays enabled, it returns 0 with every entry handled and exactly the predicted bytes copied |
| Traversal.Copier.CopyDirectories | backup/backup_directory.cc:65-77 | For every list of directories: once copying is disabled nothing more is copied, without error; undisturbed, all bytes are copied, and all reports stay within their totals if and only if a condition on the inputs holds for each directory |
| Traversal.OneDirectoryStaysWithin | backup/copier.cc:136-193 | The condition always holds for a single directory |
| Traversal.SecondDirectoryOverstates | backup/copier.cc:136-193 | The condition fails for a nonempty directory before an empty one: some report exceeds its total |
| Paths.FindIndex | backup/directory_set.cc:153-182 | The first root that is a string prefix of the file, or -1 exactly when none is |
| Paths.DirectorySet.constructor | backup/directory_set.cc:49-60 | The arrays hold the given pairs of roots |
| Paths.DirectorySet.FindIndexMatchingPrefix | backup/directory_set.cc:153-182 | The loop over the roots finds that index |
| Paths.DirectorySet.TranslatePrefixOfRealpath | backup/backup_directory.cc:214-227 | The allocated buffer is filled exactly: the destination root, the rest of the path, the final NUL |
| Paths.Pathcat | backup/copier.cc:196-234 | The concatenation and its NUL fit into what the copier allocates |
| Paths.RootFoundIff | backup/directory_set.cc:153-182 | A copied file is attributed to its own root if and only if no earlier root is a string prefix of its name |
| Paths.SameBackupFileIff | backup/copier.cc:196-246 | For every entry at any depth: translation and copier name one backup file if and only if the pair of roots it belongs to and the pair it is found under agree, a condition on the four roots alone |
| Paths.OwnRootsAgreeIff | backup/backup_directory.cc:214-227 | Found under its own root, that is if and only if both roots end in a slash or neither does, or the entry is the root |
| Paths.CaptureAndCopierAgree | backup/backup_directory.cc:214-227 | For roots without final slash, none a prefix of another, every entry at any depth has one backup name |
| Paths.PrefixRootMisleads | backup/directory_set.cc:153-182 | Roots /a and /ab: captured calls on /ab/x go elsewhere than the copy |
| Paths.PrefixRootMayAgree | backup/directory_set.cc:153-182 | The same sources with destinations /p and /pb: one name, although found under the other root |
| Paths.RootSourceMisleads | backup/backup_directory.cc:214-227 | Source root /: captured calls lose the slash |
| Paths.StrippedTellsPath | backup/copier.cc:746-758 | Two entries of a tree never get the same todo name |
| Paths.SlashPrefixesAre | backup/backup_directory.cc:153-197 | The directories to be made are exactly the prefixes that end before a slash, in increasing length |
| Paths.ScanForSlash | backup/backup_directory.cc:155-161 | The scan stops at the next slash or the end, and skips no prefix |
| Paths.CreateSubdirectories | backup/backup_directory.cc:145-201 | It ends; on success mkdir was called on exactly those prefixes and the buffer is the path again; on failure it returns the first error other than EEXIST and stops there |
| Throttle.ThrottleBound | backup/copier.cc:494-543 | At every moment of a session the bytes copied over all files are at most the rate times the elapsed time plus one buffer |
| Throttle.FinishedFilesKeepTheRate | backup/copier.cc:678-722 | Between files the bound holds without the buffer |
| Throttle.BoundIsReached | backup/copier.cc:494-543 | The bound with the buffer is reached, after any number of files |
| Throttle.FinishedBoundIsReached | backup/copier.cc:678-722 | The bound between files is reached, after any number of files |
| Throttle.CopiedIsWritten | backup/copier.cc:615-675 | What counts as copied is exactly what has been written, over all files of every run, and the clock is moved by time alone |
| Throttle.PossiblySleepOrAbort | backup/copier.cc:678-722 | The sleeping loop lets go once the bytes fit the rate, late by no more than one sleep overshoots; it polls less than once a second more than it sleeps, and gives up early only on its last poll's answer or when copying is disabled at the end of its last round or the start of the next |

## Left out

- System calls, `dlsym` lookup, glass-box pause points and valgrind annotations: system calls are steps or answers, the rest has no part in the protocols.
- `manager::truncate(path)`: only its lock order is stated; it looks up the table with a backup path, so it fits no invariant of the table.
- Renames in the session protocol: names of objects are constant there. What a rename does to counts, table, locks and its own outcome is in References, HashTable and LockOrder; what it does to coverage is not modelled, such as a non-creating open of the old name that races it and maps its descriptor to an object of a dead name. A rename across the source boundary is unimplemented, and the todo entry a rename pushes is an absolute backup path to which the copier adds the source root.
- O_DIRECT: reopening a file when its flag changes, and aligned buffers.
- O_APPEND: the range a call locks is taken from the kept offset, which such a descriptor does not use.
- Message texts, poll strings, callbacks beyond their answers, and `backup_community.cc`.
- Validation of the directory set and failing `realpath` on roots; memory exhaustion.
- The 32-bit variants of MurmurHash3, and machines that are not little-endian.
- Hard links and symbolic links: a file has one name.
- Several sessions in a row: the session starts with an empty backup. `disable_descriptions` keeps a destination whose count is above 1, which a next session would meet.
- MirrorProtocol.BackupConverges: mirrored writes are complete, and an application write is complete or, for `pwrite` and `ftruncate`, fails; MirrorHalf states exactly what else happens. The O_DIRECT flag is constant and a destination is copied into once, from offset 0.
- SessionTheorems.CaptureCoverage: a descriptor whose own destination failed at some time is exempt for good, though a later open may create the destination.
- SessionArrival.DeliveredFilesAreThere: a name that was made again after an unlink is exempt; for it, CopierDeliversIff says what the copier brings and StaysInBackup how long it stays.
- SessionStrays.StraysIff: stated until an error is reported. After one, unlinks are no longer captured, and the backup keeps what they would have taken out. Coverage after an error is not stated either: the session is being ended.
- MirrorProtocol.Enabled: when a destination may be detached is a condition of the step there; that the session detaches it only then is not derived from Session.
- SessionTheorems.RefConservation: rename is not among its steps; References.RefConservation has it.
- References.RefConservation: a rename onto a name in the table is excluded, as the code requires; ClashMakesTwins shows why.
- SessionPrepare.PrepareStopsIff: says only one direction when prepare could not create a destination, which ends the session.
- ErrorReport.MirrorFailureIsReported: one caller of `do_backup` between opening the session and the check; the two lemmas about a second caller show why. The "dead" state after a fatal error is not modelled.
- LockOrder.NoDeadlock: a thread inside a call waits for nothing but the locks; user callbacks return.
- LockOrder.EveryCallDoesItsWork: calls on descriptors that the library does not know are left out; they make the real call without further locks. A destination is guarded by the table lock, or, while descriptions are disabled, by the session.
- SessionDisable.DestinationsAtTheEnd: calls that take or drop a reference while descriptions are disabled are excluded; one that drops the last but one of an object that the loop has passed leaves its destination.
- SessionProgress.EverythingCanEnd: says that a run to the end exists from everywhere; which thread the scheduler lets run is not modelled.
- Traversal.Copier.DoCopy: the tree does not change, so that what is listed is found; in the code, opendir of a directory that is gone since stat goes on with a NULL directory. A listing that is cut short when copying is disabled is not modelled: nobody looks at the list again. The cleanup leaves NULL entries on the list instead of emptying it, which only a walk with copying enabled again would meet.
- Traversal.Copier.CopyDirectories: whether reports stay within their totals is decided for walks that nothing stops.
- CopyFile.FileCopier.CopyFileData: the source does not change meanwhile; MirrorProtocol has the concurrent case.
- Throttle.ThrottleBound: the rate is fixed during a session and time is exact.
- Throttle.PossiblySleepOrAbort: a sleep is not shorter than asked for; the conversion to whole microseconds is not modelled.
- HashTable.FileHashTable.Rename: the new name is that of the file itself or absent from the table, as the code requires. Locks around it are in LockOrder.
- HashTable.FileHashTable.TryToRemove: deallocation is a flag.
- HashTable.Index: the hash is any function from names to numbers; the sum of the two halves of the hash, wrapped to 64 bits, is one of them. The conversion of the index to `int` is not modelled.
- Fmap.FileMap.Put: a negative descriptor, which would index before the vector, is excluded; deallocation of descriptions is not modelled.
