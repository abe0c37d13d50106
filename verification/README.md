# GPTPS, verified

A Dafny model of the stateful parts of GPTPS, a task processing engine in C with add-ons, and proofs of what those parts promise. One module follows one component:

| component | source | modules |
|---|---|---|
| the crash-durable queue: journal bytes and replay | `addons/gptps_durable_queue.c` | `LittleEndian`, `Journal`, `Checksum`, `RecordTable`, `Replay`, `Strays`, `Scars`, `Disk` |
| its group commit, compaction, retractions and crashes | | `GroupCommit`, `GroupCommitInv`, `CommitMarkers`, `CommitWrites`, `CommitSync`, `CommitAnswers`, `CommitCompact`, `CommitPast`, `CommitCrash`, `CommitTheorems`, `CommitVerdicts`, `CommitScars`, `CrashReach`, `AnyBytes` |
| its crash-loop guard | | `CrashLoop`, `CrashLoopInv`, `CrashLoopRuns`, `CrashLoopTurns`, `CrashLoopBeside` |
| its fields, updated in place under its locks | | `DurableQueue`, `QueueLocks`, `QueueEvents`, `EventEffects` |
| its index from handle to record | | `HandleIndex`, `IndexRuns`, `QueueIndex` |
| the open-addressing tables | `addons/gptps_stats.c`, `addons/gptps_balance.c`, `addons/gptps_durable_queue.c`, `addons/gptps_orch.c` | `Probing`, `HandleTable`, `HandleIndex`, `GateKeeper` |
| order-independent statistics | `addons/gptps_stats.c` | `Stats`, `StatsRuns`, `StatsOrder`, `StatsTotals`, `StatsObserver` |
| the late-binding router | `addons/gptps_balance.c` | `RouterHeap`, `Router`, `RouterQueue` |
| dependency gates | `addons/gptps_orch.c` | `Gates`, `GateKeeper` |
| the multiplexed link and its measurement codec | `addons/gptps_xport.c` | `Link`, `Measures`, `MeasuresGrammar` |
| the static-pool allocator | `examples/embedded.c` | `PoolBlocks`, `PoolArena`, `PoolOverrun` |
| the strict TOML reader's strings and keys | `src/config_toml.c` | `Toml`, `TomlReader`, `TomlGrammar` |

**How the queue is modelled.** The journal is bytes: records are encoded, cut, damaged and replayed as bytes. The disk keeps every version a file has had since its last fsync. A crash leaves any version from the one that stood when the last successful fsync began, cut or extended in the middle of a write at any byte; and while a rename is not durable it may bring back an older file, in any content that file could have been left with. A write that fails and cannot be undone leaves the bytes it got to, a scrap; after a scrap of a durable write the queue is broken, after a scrap of a marker it goes on writing. Above it a state machine has one step for each stretch of code between two locks: a submit or a batch writes, an fsync begins, succeeds or fails and cuts back, a caller is answered, a verdict arrives, a compaction replaces the file, a crash strikes and the next run opens what is left. Every journal entry carries, as history only, the call that wrote it, because numbers are used again after a crash: "the call failed, so it did not happen" is about that call's entries, not about a number. One invariant is proved of every step, and so of every run. The class `Queue` holds the fields the source has, and each of its methods is proved to be the step it implements.

The other components follow the same plan: a machine or a function states what must hold in every run, and a class with the source's own arrays, lists and counters is proved to refine it. What such a function says is in turn proved against a statement that does not use it: a format or a grammar read both ways, a count over the events of a run, an order in the entries' own fields, the source's numbers written out.

**Legible bytes.** Replay looks for the next record after bytes it cannot read, so what it makes of a scrap depends on what follows. `Scars.Legible` says when a journal with scraps in it reads as if they were not there: each scrap is stepped over to the record after it, or reaches the end of the file. A journal without scraps is always legible (`Scars.UnmarredLegible`), and so is every image of every run in which no write was stuck (`CommitScars.NothingStuck`). The theorems about what a crash leaves are for legible bytes; for others the first of them, `CommitTheorems.DurableAck`, fails, as `CommitScars.StuckMarkerLosesAck` shows. What does not turn on the bytes' meaning is proved in `AnyBytes` over runs whose crashes leave any bytes at all, among which every run of the other machine is.

## Findings

| what | source | shown by |
|---|---|---|
| a marker whose write and roll-back both fail stays in the file, torn, and the queue goes on; a crash in the next record's write can then make replay apply a record that lies inside that one's payload, and an acknowledged record is lost | addons/gptps_durable_queue.c:356-367 | `CommitScars.StuckMarkerLosesAck`; exactly when: `Scars.DamageThenTorn`; never while nothing is stuck: `CommitScars.NothingStuck` |
| the mask that rounds a request up is made of a 32-bit constant, so a request of more than 0xFFFF_FFF0 bytes is cut to its low 32 bits: a block smaller than asked for is given out, and a reallocation can copy past its end over the blocks that follow | examples/embedded.c:68, with 102; src/engine.c:5411 and 5509 pass such sizes on | `PoolOverrun.HugeGetsSixteen`, `PoolOverrun.CopyCoversNeighbour`, `PoolOverrun.ReachOverrun`; exactly when: `PoolArena.AskedIs`, `PoolArena.Arena.Malloc`, `PoolArena.Arena.Realloc` |
| a retraction of the suspect on trial lets the next suspect begin before the engine is told to stop the first, so two suspects can run at once | addons/gptps_durable_queue.c:1605, against 1629 | `CrashLoopBeside.TwoSuspectsAtOnce`; exactly when: `CrashLoopTurns.SecondSuspectIff`, `CrashLoopTurns.WithdrawnBesideNext` |
| a second terminal event for a handle can count a gate down twice, once the handle has been pruned from the bounded set; a comment says it cannot | addons/gptps_orch.c:149-155 | `Gates.RepeatAfterPruneReleasesEarly`; exactly when: `Gates.CountedIffForgotten` |
| a gate on a handle that had ended and been forgotten waits for ever, as the header says | addons/gptps_orch.h:104-107 | `Gates.GateOnForgotten`; exactly when: `Gates.StuckIffForgotten` |

The theorems about gates are for handles that terminate once, which is what the engine promises for one-shot work.

## Model

| member | source | states |
|---|---|---|
| `LittleEndian.GetPut` | addons/gptps_durable_queue.c:163-168 | a value that fits its width is read back from its bytes |
| `LittleEndian.PutGet` | addons/gptps_durable_queue.c:163-168 | reading loses nothing: writing what was read gives the same bytes |
| `Journal.FnvSplit` | addons/gptps_durable_queue.c:169-170 | checksumming in pieces, as the reader does, is checksumming the whole |
| `Journal.ReadEncoded` | addons/gptps_durable_queue.c:208-236 | a written record reads back as itself wherever it lies and whatever surrounds it |
| `Journal.ReadCutShort` | addons/gptps_durable_queue.c:706-733 | a write cut short at any byte is never read as a record, and is seen as torn once its header is whole |
| `Checksum.FormatBytes` | addons/gptps_durable_queue.c:45-60 | the format byte by byte: both magics, the version, the six types, the widths and the order of the fields; and what may be written: names to 4096 bytes, payloads to 2^28, numbers of 64 bits |
| `Checksum.XorBits` | addons/gptps_durable_queue.c:169-170 | its exclusive or is that of the bits |
| `Checksum.TestVectors` | addons/gptps_durable_queue.c:169-170 | the checksum is 32-bit FNV-1a: of "a" it is 0xE40C292C, of "fo" 0x6222E842 |
| `Checksum.FnvKeepsApart` | addons/gptps_durable_queue.c:169-170 | two checksums that differ go on differing over the same bytes |
| `Checksum.FnvSeesByte` | addons/gptps_durable_queue.c:169-170 | bytes that differ in one place have different checksums, wherever that place is |
| `Checksum.ReadVerifies` | addons/gptps_durable_queue.c:706-733 | whatever is read as a record ends with the checksum of all that stands before it |
| `Checksum.ReadExact` | addons/gptps_durable_queue.c:706-733 | a record is read from a place if and only if its bytes stand there, one padding byte free, and it is within the bounds |
| `Checksum.ChangedByteIsBad` | addons/gptps_durable_queue.c:706-733 | a written record any one byte of which has changed, but those of its two lengths, is read as damage |
| `RecordTable.FindBySeq` | addons/gptps_durable_queue.c:556-566 | on an ascending table the binary search finds exactly the row with the number, or says there is none |
| `RecordTable.MeaningHas` | addons/gptps_durable_queue.c:766-806 | every submitted record has exactly the row its own later markers give it |
| `RecordTable.MeaningOnly` | addons/gptps_durable_queue.c:766-806 | no row comes from anything but a submitted record |
| `RecordTable.ClosedByD` | addons/gptps_durable_queue.c:787-806 | a row is closed exactly by a later 'D' of its number, and until then keeps its name and payload whatever other markers follow |
| `RecordTable.QuarantinedByQ` | addons/gptps_durable_queue.c:787-806 | a row is quarantined exactly by a later 'Q' of its number |
| `RecordTable.RunningSinceS` | addons/gptps_durable_queue.c:787-806 | its attempt is running exactly if the last 'S' or 'F' of its number is an 'S' |
| `RecordTable.DeathsByK` | addons/gptps_durable_queue.c:787-806 | the deaths against it are those its last well-formed 'K' says, or none if an 'F' came after |
| `RecordTable.RewriteMeans` | addons/gptps_durable_queue.c:1032-1063 | replaying what a compaction wrote gives back exactly the rows it kept, marks and crash counts included |
| `Replay.Resync` | addons/gptps_durable_queue.c:735-763 | the chunked search returns the first acceptable verifying offset after the damage, whatever a chunk boundary splits, or none if there is none |
| `Replay.Round` | addons/gptps_durable_queue.c:834-870 | one round of the loop, using that search, is the round of the specification |
| `Replay.ReplayFile` | addons/gptps_durable_queue.c:817-873 | replay ends on every byte string, with the specified table and damage report |
| `Replay.ReplayInOrder` | addons/gptps_durable_queue.c:769-786 | whatever the bytes, the table is strictly ascending, numbered in 1..2^63-1, and the next number is above all of it and has not wrapped |
| `Replay.TornTail` | addons/gptps_durable_queue.c:817-873 | a journal of whole records cut at any byte past its header replays to exactly the whole records before the cut, whatever the torn payload holds |
| `Replay.ConfinedDamage` | addons/gptps_durable_queue.c:735-763 | damaged bytes between two whole records that hide no acceptable record cost nothing but themselves, and are reported exactly; with a torn record after them see `Scars.DamageThenTorn` |
| `Strays.UnreadableIff` | addons/gptps_durable_queue.c:817-833 | a file is refused as no journal exactly if it has bytes and does not begin with the eight bytes of the header |
| `Strays.AcceptableExact` | addons/gptps_durable_queue.c:735-763 | the search stops exactly at the bytes of a whole record that may be written, of any but a 'P' whose number does not rise |
| `Strays.StraysSkippedAlone` | addons/gptps_durable_queue.c:834-870 | any whole records one after another: each 'P' whose number does not rise and each record numbered past 2^63-1 is skipped alone, all the others are replayed, and the report is of their number, their bytes and where the first begins |
| `Strays.ChangedRecordLostAlone` | addons/gptps_durable_queue.c:735-873 | a record one byte of which has changed, its lengths apart, is lost alone and reported exactly, if it hides no record and one follows |
| `Strays.ChangedLastRecordLost` | addons/gptps_durable_queue.c:735-873 | the last record so changed is lost, like a torn tail |
| `Scars.MarredReplay` | addons/gptps_durable_queue.c:817-873 | a journal of records and scraps, cut at any byte, replays to exactly the whole records before the cut if it is legible |
| `Scars.UnmarredLegible` | addons/gptps_durable_queue.c:817-873 | a journal without scraps is legible wherever it is cut |
| `Scars.DamageThenTorn` | addons/gptps_durable_queue.c:735-873 | damage that hides no record, then whole records, then a torn one: the replay is that of the whole records if any follow the damage; else it is that of those before it exactly if no acceptable record begins in the torn bytes; else it goes on from the first that does |
| `Scars.ShortScrap` | addons/gptps_durable_queue.c:735-763 | the first eleven bytes or fewer of a marker, with a whole record after them, are always stepped over |
| `Scars.TornMarkerLosesRecord` | addons/gptps_durable_queue.c:356-367 | an input: one record, three bytes of its marker and a torn record whose payload spells a 'D' replay to that record closed |
| `Disk.HalfWayReplays` | addons/gptps_durable_queue.c:817-873 | a file caught in the middle of a write, its bytes legible, replays to whole records between the two versions |
| `Disk.BytesReplay` | addons/gptps_durable_queue.c:387-416 | whatever legible bytes a crash leaves, scraps among them or not, replay makes of them the meaning of some image of the file |
| `CommitWrites.SubmitInv` | addons/gptps_durable_queue.c:1375-1401 | a submit or batch that writes, is cut back, or is stuck at any byte and breaks the queue keeps the invariant |
| `CommitWrites.CancelInv` | addons/gptps_durable_queue.c:1585-1592 | so does a retraction's write, stuck at any byte or not |
| `CommitSync.SyncBeginInv` | addons/gptps_durable_queue.c:454-494 | so does the start of an fsync, from which the covered writes and offset are fixed |
| `CommitSync.SyncOkInv` | addons/gptps_durable_queue.c:454-494 | so does an fsync that succeeds, though writes, cuts and markers went on meanwhile |
| `CommitSync.SyncFailInv` | addons/gptps_durable_queue.c:475-486 | so does one that fails, with its cut synced, not synced or impossible |
| `CommitAnswers.AnswerSubmitInv` | addons/gptps_durable_queue.c:1409-1421 | so does the answer to a submit or batch |
| `CommitAnswers.AnswerCancelInv` | addons/gptps_durable_queue.c:1593-1621 | so does the answer to a retraction, its record there, closed by another call, or compacted away |
| `CommitMarkers.WriteMarkerInv` | addons/gptps_durable_queue.c:356-369 | so does a marker that is written, rolled back, lost, or stuck at any byte in a queue that goes on |
| `CommitMarkers.VerdictInv` | addons/gptps_durable_queue.c:1159-1175 | so does a verdict, in effect at once or deferred |
| `CommitCompact.ReplaceInv` | addons/gptps_durable_queue.c:1063-1118 | so does putting the new journal in place, its rename durable or not, reopened or not |
| `CommitCrash.CrashInv` | addons/gptps_durable_queue.c:1257-1305 | so does any crash followed by an open, whichever file and version it leaves, power failure or process death; until the new name is durable every file there was may still come back |
| `CommitTheorems.StepInv` | addons/gptps_durable_queue.c:371-525 | every step of the machine keeps the invariant, stuck writes included; its crash step is any crash that leaves legible bytes |
| `CommitTheorems.RunInv` | addons/gptps_durable_queue.c:371-525 | every interleaving of steps keeps it |
| `CommitTheorems.DurableAck` | addons/gptps_durable_queue.c:444-494 | in every run, once a submit is answered OK its record is open in the replay of whatever legible bytes any crash leaves, with the name and payload submitted, until something closes it; also while a rename is not yet durable. A file without scraps needs no such condition |
| `CommitTheorems.FailedLeavesNoTrace` | addons/gptps_durable_queue.c:387-435 | in every run of an unbroken queue, once a submit, batch or retraction is answered GPTPS_E_IO, no legible bytes any crash leaves hold anything that call wrote; a file without scraps needs no such condition |
| `CommitTheorems.RetractedStaysClosed` | addons/gptps_durable_queue.c:1593-1604 | a record whose retraction was answered OK is never open again, in this run or any later one |
| `CommitTheorems.RetractionAnswered` | addons/gptps_durable_queue.c:1593-1621 | in every run a retraction is answered OK exactly if its 'D' became durable, or its record is closed already or gone |
| `CrashReach.OnlySyncsSettle` | addons/gptps_durable_queue.c:387-494 | in every run, a step in which no fsync comes back takes nothing from what a crash may leave, of the journal or of any file it has replaced |
| `CrashReach.OldFilesStay` | addons/gptps_durable_queue.c:466-494 | nor does the fsync of the journal alone, from the files it has replaced |
| `CrashReach.AnyPartMayStay` | addons/gptps_durable_queue.c:387-416 | what a write has added may be left in any part, even if it has been cut back out |
| `AnyBytes.PendingIsExact` | addons/gptps_durable_queue.c:1632-1640 | in every run, whatever bytes its crashes leave, `pending` is the number of records not done, not quarantined and not committing |
| `AnyBytes.LookupCannotMiss` | addons/gptps_durable_queue.c:1408-1413 | in every such run, the unguarded lookup after a submit's wait finds that submit's own record, still committing, for every number of the batch |
| `AnyBytes.AnyStepTable` | addons/gptps_durable_queue.c:1257-1307 | every step, an open of any bytes included, keeps the table ascending and the records of a submit in flight its own |
| `AnyBytes.CrashIsOpen` | addons/gptps_durable_queue.c:1257-1307 | a crash that leaves legible bytes is an open of them |
| `AnyBytes.LegibleRunsAmong` | addons/gptps_durable_queue.c:1257-1307 | every run whose crashes leave legible bytes is one of these |
| `CommitTheorems.CompactionTellsTheTruth` | addons/gptps_durable_queue.c:1019-1118 | after a compaction returns OK only the new file can be left by a crash, and it replays to exactly the kept records; a broken queue is repaired |
| `CommitTheorems.CompactionLeaves` | addons/gptps_durable_queue.c:1063-1118 | however a compaction ends: with no new file put in place all is as it was, but that a journal that cannot be reopened breaks the queue; with one, when the queue is open, broken, or rid of the older files |
| `CommitTheorems.BrokenExactly` | addons/gptps_durable_queue.c:387-494 | between compactions and crashes a queue is broken exactly once a durable write is stuck or an fsync fails whose cut does not become durable; no marker and no roll-back breaks it |
| `CommitTheorems.SettledForGood` | addons/gptps_durable_queue.c:444-449 | once a call's write is settled, its answer is decided, whatever runs before it is given |
| `CommitTheorems.CompactionAgreesWithAnswers` | addons/gptps_durable_queue.c:499-525 | a record being submitted is in the new file exactly if its caller will be told OK; one being retracted is left out exactly if a retraction became durable, whose caller is never told otherwise |
| `CommitVerdicts.QuarantinedWasNotWithdrawn` | addons/gptps_durable_queue.c:1159-1175 | in no run is a record quarantined that some retraction durably withdrew |
| `CommitVerdicts.DecidedThroughout` | addons/gptps_durable_queue.c:1578-1620 | a verdict waiting on retractions stays waiting, takes effect or is overruled, and nothing but their answers decides which |
| `CommitVerdicts.VerdictMeetsRetractions` | addons/gptps_durable_queue.c:1578-1620 | a verdict that arrives while any number of retractions are in flight takes effect if and only if every one of them fails |
| `CommitScars.StepClean` | addons/gptps_durable_queue.c:356-416 | no step in which no write is stuck leaves a scrap in any file |
| `CommitScars.NothingStuck` | addons/gptps_durable_queue.c:356-416 | in every run without a stuck write, from a new queue or from a compaction that returned OK, whatever bytes a crash leaves are legible |
| `CommitScars.StuckMarkerLosesAck` | addons/gptps_durable_queue.c:356-367 | a run of an unbroken queue that acknowledges a record, and bytes a crash can leave then in whose replay it is closed |
| `CrashLoopRuns.MoveInv` | addons/gptps_durable_queue.c:1211-1253 | every event, hand-over, compaction and death keeps the guard's invariant |
| `CrashLoopRuns.CountIsDeathsWhileRunning` | addons/gptps_durable_queue.c:1282-1302 | over any sequence of runs ended by process death, a record's count is the number of deaths at which it was running since an attempt of it was last seen to end |
| `CrashLoopRuns.QuarantinedAtTheThird` | addons/gptps_durable_queue.c:1288-1299 | a record is quarantined exactly if dead-lettered, or at 3 such deaths and at no fewer |
| `CrashLoopRuns.OneSuspectAtATime` | addons/gptps_durable_queue.c:1147-1156 | at most one record that is open and has 2 deaths or more against it is in the engine's hands, and it is the one on trial |
| `CrashLoopRuns.TrialNext` | addons/gptps_durable_queue.c:1147-1156 | the suspect handed over is the oldest the engine takes; with none handed over it refused every one |
| `CrashLoopTurns.NextInv` | addons/gptps_durable_queue.c:1147-1156 | every move keeps: a suspect handed over is not handed over again, and is one still while its record is open |
| `CrashLoopTurns.LeftOverWithdrawn` | addons/gptps_durable_queue.c:1593-1629 | a suspect whose turn is over when the next one's comes is in the engine's hands still only if its record was withdrawn |
| `CrashLoopTurns.SecondSuspectIff` | addons/gptps_durable_queue.c:1605-1629 | a move puts a second suspect into the engine's hands if and only if it hands one over while one whose turn is over is there still |
| `CrashLoopTurns.WithdrawnBesideNext` | addons/gptps_durable_queue.c:1605-1629 | the answer to a retraction of the suspect on trial does so if and only if the engine takes the next one and the withdrawn one executes still |
| `CrashLoopTurns.OneSuspectIfTidy` | addons/gptps_durable_queue.c:1147-1156 | in every run in which each withdrawn suspect was forgotten before the next turn, at most one suspect is in the engine's hands, withdrawn ones included |
| `CrashLoopTurns.AllButOneWithdrawn` | addons/gptps_durable_queue.c:1147-1156 | in every run, of any two suspects in the engine's hands one has been withdrawn |
| `CrashLoopBeside.TwoSuspectsAtOnce` | addons/gptps_durable_queue.c:1593-1629 | a run from a new queue that ends with two suspects in the engine's hands |
| `DurableQueue.SomeWaiting` | addons/gptps_durable_queue.c:437-442 | the list has a waiting writer exactly if some call of the machine still waits |
| `DurableQueue.SettleAll` | addons/gptps_durable_queue.c:444-449 | walking the list settles exactly the calls the fsync covers |
| `DurableQueue.DurableFor` | addons/gptps_durable_queue.c:515-525 | true exactly if a waiter for the number and kind is durable |
| `DurableQueue.KeptByWaiters` | addons/gptps_durable_queue.c:1032-1046 | asking the list by number answers for the record's own calls and no others, so the loop keeps exactly the records it should |
| `DurableQueue.EndBatch` | addons/gptps_durable_queue.c:1495-1526 | looking each number up again ends exactly that batch's records and adjusts `pending` by their number |
| `DurableQueue.NewJournal` | addons/gptps_durable_queue.c:1032-1063 | the loop writes exactly the entries of the kept records, in order |
| `DurableQueue.DropClosed` | addons/gptps_durable_queue.c:1111-1116 | moving records down in place leaves exactly the open ones, in order |
| `QueueLocks.Unregister` | addons/gptps_durable_queue.c:527-535 | unlinks the call's waiter and no other |
| `QueueLocks.Queue.constructor` | addons/gptps_durable_queue.c:1257-1272 | a new queue is the machine's initial state |
| `QueueLocks.Queue.Write` | addons/gptps_durable_queue.c:371-433 | write, registration and cut-back in place are the machine's write, and the waiter list stays in step with the calls |
| `QueueLocks.Queue.SubmitBatch` | addons/gptps_durable_queue.c:1382-1401 | numbers reserved, records pushed and the batch written: the submit step, invariant kept |
| `QueueLocks.Queue.BeginCancel` | addons/gptps_durable_queue.c:1578-1592 | the retraction step up to its wait, invariant kept |
| `QueueLocks.Queue.BeginSync` | addons/gptps_durable_queue.c:454-466 | taking the ticket and offset before the fsync is the machine's begin step |
| `QueueLocks.Queue.SyncSucceeded` | addons/gptps_durable_queue.c:466-494 | everything up to the ticket is settled durable, the safe offset raised, a rename made durable forgets the older files |
| `QueueLocks.Queue.SyncFailed` | addons/gptps_durable_queue.c:475-486 | the file is cut back to what is durable and every waiter fails; the queue breaks unless the cut was synced |
| `QueueLocks.Queue.EndSubmit` | addons/gptps_durable_queue.c:1408-1421 | the answer step of a submit or batch, invariant kept |
| `QueueLocks.Queue.EndCancel` | addons/gptps_durable_queue.c:1593-1621 | the answer step of a retraction, deferred verdict included, invariant kept |
| `QueueLocks.Queue.CloseWith` | addons/gptps_durable_queue.c:1159-1166 | closing or quarantining in place is the verdict's effect, and nothing else changes |
| `QueueLocks.Queue.Rewrite` | addons/gptps_durable_queue.c:1019-1118 | the compaction in place is the machine's, for every way its rename, directory sync and reopen can end |
| `QueueEvents.Submit` | addons/gptps_durable_queue.c:1438-1497 | refuses exactly the empty, the oversized and the unnumberable, unchanged; else the submit step |
| `QueueEvents.OpenRows` | addons/gptps_durable_queue.c:1282-1302 | the loop charges exactly the attempts that never ended, and counts exactly the open records, whatever rows were replayed |
| `QueueEvents.Open` | addons/gptps_durable_queue.c:1257-1307 | any bytes: NULL exactly if their header is not a journal's; else replay, charge and compact are the machine's open step and the table is in order; and legible bytes of a sound queue give a sound queue |
| `QueueEvents.FirstJournal` | addons/gptps_durable_queue.c:1032-1063 | with nothing in flight the loop writes exactly the records that are not closed |
| `QueueEvents.Recover` | addons/gptps_durable_queue.c:1547-1569 | exactly the open, unhanded, unsuspected records the engine takes are handed over, then a suspect if none has its turn |
| `QueueEvents.OnEvent` | addons/gptps_durable_queue.c:1211-1253 | each event is its step of the machine, and ends the turn of a suspect on trial |
| `QueueEvents.EventIsMove` | addons/gptps_durable_queue.c:1211-1253 | an engine event is a move of the crash-loop guard, the next suspect's turn included |
| `EventEffects.EventOnRecord` | addons/gptps_durable_queue.c:1211-1253 | what each event does to its record's own fields: running from a start to the next end, closed by an end of its own, quarantined by a dead letter, as it was at the engine's shutdown, the verdict kept while a retraction is on its way; and no other record changes |
| `EventEffects.EventOnCounts` | addons/gptps_durable_queue.c:1159-1175 | `pending` goes down exactly if the record is open no more, and it is closed for good exactly if it is done |
| `EventEffects.EventInJournal` | addons/gptps_durable_queue.c:1211-1253 | which markers, S, F, D or Q, each event appends, bare, in order and of the record's number |
| `EventEffects.EventInHistory` | addons/gptps_durable_queue.c:1211-1253 | what each event adds to the history by which deaths are counted |
| `QueueEvents.EndRetraction` | addons/gptps_durable_queue.c:1593-1621 | the answer step, and the next suspect's turn exactly if the one on trial was withdrawn |
| `QueueEvents.RecoverIsMoves` | addons/gptps_durable_queue.c:1547-1569 | what recovery does is a run of the guard: each record handed over is given, then the suspects have their turn |
| `QueueEvents.RetractionIsMove` | addons/gptps_durable_queue.c:1593-1621 | the answer to a retraction is a move of the guard |
| `QueueEvents.OpenIsMove` | addons/gptps_durable_queue.c:1257-1307 | the process's death and the next open are one: with the others, the counts proved for the guard's runs hold of the queue |
| `QueueEvents.Refused` | addons/gptps_durable_queue.c:1422-1435 | a record the engine refuses is closed and its 'D' appended |
| `Probing.SearchExact` | addons/gptps_stats.c:111-119 | a search that reaches a free slot has missed nothing, if every entry is reachable from its own slot |
| `Probing.SomeFree` | addons/gptps_stats.c:151-161 | below full load there is a free slot, so every search ends |
| `Probing.PutFree` | addons/gptps_durable_queue.c:616-624 | putting an entry in the first unused slot of its search keeps every entry reachable and adds exactly it |
| `Probing.MayMoveIs` | addons/gptps_stats.c:121-133 | the wrap-around comparison of the shift loop is true exactly if the hole lies on the entry's way |
| `Probing.MoveEntry` | addons/gptps_stats.c:121-133 | moving such an entry into the hole leaves every other entry reachable but for the new hole |
| `Probing.ShiftDone` | addons/gptps_stats.c:121-133 | at a free slot no entry is cut off any more |
| `HandleTable.Table.Get` | addons/gptps_balance.c:53-61 | the value of exactly that handle, if it is in the map |
| `HandleTable.Table.Put` | addons/gptps_balance.c:73-80 | sets exactly one entry of the map, or nothing when it could not grow |
| `HandleTable.Table.Grow` | addons/gptps_stats.c:135-150 | twice the size, the same map |
| `HandleTable.Table.CloseHole` | addons/gptps_stats.c:121-133 | backward shifting keeps every entry, each found again by its search |
| `HandleTable.Table.Delete` | addons/gptps_stats.c:121-134 | removes exactly one entry of the map |
| `HandleIndex.Index.Find` | addons/gptps_durable_queue.c:626-634 | the record number of exactly that handle |
| `HandleIndex.Index.Put` | addons/gptps_durable_queue.c:616-624 | with a reservation there is always room: the map gains exactly the entry |
| `HandleIndex.Index.Delete` | addons/gptps_durable_queue.c:636-641 | the map loses exactly the entry; searches pass through the vacated slot |
| `HandleIndex.Index.Reserve` | addons/gptps_durable_queue.c:593-614 | live, vacated and reserved slots stay within half the table, so a later put cannot fail |
| `HandleIndex.Index.Rehash` | addons/gptps_durable_queue.c:596-612 | a rebuilt table holds the same map, and drops the vacated slots |
| `IndexRuns.IndexedStepInv` | addons/gptps_durable_queue.c:616-648 | every step of the queue keeps: the index holds exactly the handles of the open records handed over in this run of the process, and no two have the same |
| `IndexRuns.EventsFindTheirRecord` | addons/gptps_durable_queue.c:643-648 | in every run, whatever its crashes leave, a handle finds its own record while that is open, nothing after, and never another |
| `QueueIndex.Desk.constructor` | addons/gptps_durable_queue.c:1257-1307 | an empty index is right for a queue just opened |
| `QueueIndex.Desk.Lookup` | addons/gptps_durable_queue.c:643-648 | over the real table and index, the open record given that handle, or none |
| `QueueIndex.Desk.Resubmit` | addons/gptps_durable_queue.c:1125-1139 | the record is handed over and its handle indexed; the index stays right |
| `QueueIndex.Desk.NextTrial` | addons/gptps_durable_queue.c:1147-1156 | the next suspect's turn, its handle indexed |
| `QueueIndex.Desk.OnEvent` | addons/gptps_durable_queue.c:1211-1253 | an event, known by its handle only, is the step of that handle's record, or nothing if it has no open one; a record it closes leaves the index |
| `QueueIndex.Desk.EndRetraction` | addons/gptps_durable_queue.c:1593-1621 | a retraction's answer, and the index without the record if it or the verdict that waited closes it |
| `QueueIndex.Desk.Recover` | addons/gptps_durable_queue.c:1547-1569 | recovery, every record handed over indexed |
| `Stats.StepKeeps` | addons/gptps_stats.c:313-433 | in every order the event contract allows, a cancel's FAILED after an attempt's own included, a handle's slot says what has been seen of it, owed samples included |
| `Stats.WaitTaken` | addons/gptps_stats.c:319-365 | the wait sample an event takes is the one wait it makes known, whichever of the two ends came first |
| `Stats.RunTaken` | addons/gptps_stats.c:366-393 | the run sample an event takes is that of the attempt it ends, once: a second FAILED of an attempt takes none |
| `Stats.SecondFailureOnlyCloses` | addons/gptps_stats.c:384-399 | a cancel's FAILED of an attempt that has reported its own closes the handle and leaves its end, its sample and the gauges as they were |
| `StatsRuns.RunKeeps` | addons/gptps_stats.c:298-433 | in every run, every row's gauges are the numbers of its pending and running slots, and its samples are exactly those both of whose ends have been seen |
| `StatsOrder.AllEventsIn` | addons/gptps_stats.c:288-433 | once all events are in, no slot is left, all gauges are 0, and wait and run samples both equal the attempts started |
| `StatsOrder.RunRecords` | addons/gptps_stats.c:298-433 | what a run has seen of a handle is exactly what its events say: an attempt's end is its FINISHED or plain FAILED if there is one, else its cancelled FAILED if it started |
| `StatsOrder.SameComplete` | addons/gptps_stats.c:288-433 | a handle whose events are all in, in one allowed order, has them all in in any other |
| `StatsOrder.OrderIndependent` | addons/gptps_stats.c:288-433 | all the events of some handles, in any two orders allowed, leave the same board: every total, gauge, sample count, sum and maximum of every row |
| `StatsOrder.LateCancelRun` | src/engine.c:1543-1557 | QUEUED, STARTED, FAILED and the cancel's FAILED of the same attempt are such a run, whole, with one run sample |
| `StatsTotals.TotalsCountEvents` | addons/gptps_stats.c:250-433 | in every run, in any order at all, each total of each row is the number of events of that kind that are the row's: every event is the engine's row's, and its type's; cancellations are the cancelled FAILED events, ends those and FINISHED, DEAD_LETTERED and DROPPED |
| `StatsTotals.RowsDescribeSamples` | addons/gptps_stats.c:254-433 | in every run each row's wait and run tallies are the number, the sum and the longest of the waits and runs of its handles' attempts, each from one stamp to the other |
| `StatsObserver.Observer.Observe` | addons/gptps_stats.c:298-433 | over the real table and rows, an event is the specified step; with no memory for a slot only the totals move |
| `StatsObserver.Observer.Move` | addons/gptps_stats.c:319-433 | the arms of the switch are the specified slot step |
| `StatsObserver.Observer.BumpRows` | addons/gptps_stats.c:254-286 | the engine's row and the type's row both change, each by the event |
| `RouterHeap.TopFirst` | addons/gptps_balance.c:99-133 | nothing in a heap comes before its top |
| `RouterHeap.Heap.Push` | addons/gptps_balance.c:101-117 | still a heap, with exactly the one entry more, or unchanged when it could not grow |
| `RouterHeap.Heap.Pop` | addons/gptps_balance.c:119-133 | takes out exactly one entry: of the highest priority there is, and of those the one with the lowest number |
| `Router.StepOk` | addons/gptps_balance.c:188-277 | submit, hand-over, shard event, cancel, drop and callback keep the ledger of terminal events owed and told |
| `Router.RunOk` | addons/gptps_balance.c:188-277 | so does every run |
| `Router.AtMostOneTerminal` | addons/gptps_balance.c:251-277 | in every run, however often a shard repeats a terminal, no handle is told of its end twice, and only handles given out are |
| `Router.ExactlyOneTerminal` | addons/gptps_balance.c:459-474 | with the heap empty, the shards done and the callbacks run, every handle given out has been told exactly once |
| `Router.BoundedAndExact` | addons/gptps_balance.c:188-231 | a shard's load is what it holds and within its depth; `queued` is the number of live queued items |
| `Router.StepAdvances` | addons/gptps_balance.c:188-277 | every step brings the item it is about nearer its end and leaves the others alone: an item taken is the shard's under its next handle, one refused, withdrawn, dropped or reported ended is owed its terminal event, and the callback tells it |
| `Router.NumberedInOrder` | addons/gptps_balance.c:188-231 | in every run submits are numbered 1, 2, 3 and so on, memory or not, the number being handle and age; and the router counts what each shard has taken, tracked or not, as the shard does |
| `RouterQueue.Balance.PickShard` | addons/gptps_balance.c:193-201 | the least loaded shard with room, the first among equals; none exactly if all are full |
| `RouterQueue.Balance.Dispatch` | addons/gptps_balance.c:188-231 | ends with nothing queued or every shard full; takes items in order, by priority downwards and by number upwards among equals, and leaves none that should have gone before one it took; and is a run of the machine |
| `RouterQueue.Balance.Observe` | addons/gptps_balance.c:251-277 | an unknown handle changes nothing; a known one frees its place and dispatches; a run of the machine |
| `RouterQueue.Balance.Enqueue` | addons/gptps_balance.c:387-404 | the submit step, or none of it when memory is short |
| `RouterQueue.Balance.CancelQueued` | addons/gptps_balance.c:416-441 | a queued item is owed its terminal and stays in the heap to be skipped |
| `RouterQueue.Balance.Close` | addons/gptps_balance.c:459-474 | whatever is queued is owed its terminal; if the shards have ended what they took, told and owed make exactly one per handle |
| `Gates.RunOk` | addons/gptps_orch.c:196-239 | every run of one-shot handles and distinct dependencies keeps the invariant |
| `Gates.SubmittedAfterAll` | addons/gptps_orch.c:218-239 | a gate is taken at most once, and offered only after every dependency has terminated, whatever is pruned and whenever |
| `Gates.RunOuts` | addons/gptps_orch.c:218-239 | after any run a gate waits for what it waited for before, without the handles that terminated in it, whatever is remembered, pruned or out of memory |
| `Gates.RemainingIsExact` | addons/gptps_orch.c:155-239 | in every run, an unreleased gate counts exactly the dependencies not remembered when it was made that have not terminated since, none of them remembered, and a released one has none; the remembered handles stay within the ceiling |
| `Gates.ForgottenStaysOut` | addons/gptps_orch.c:258-269 | a dependency that had terminated and been forgotten when the gate was made is waited for in every continuation |
| `Gates.StuckIffForgotten` | addons/gptps_orch.c:258-269 | a gate all of whose dependencies have terminated is never released, however the run goes on, if and only if one of them had terminated and been forgotten when it was made |
| `Gates.GateOnForgotten` | addons/gptps_orch.c:258-269 | an example with a ceiling of one |
| `Gates.EndsWithinAttempts` | addons/gptps_orch.c:196-216 | a gate with nothing to wait for is released within as many further terminal events as it has attempts left of its 16 |
| `Gates.GivenUpAtTheSixteenth` | addons/gptps_orch.c:196-216 | a gate refused for now is kept and offered again, and given up exactly at its 16th refusal; the first other answer decides it |
| `Gates.RetryStartsOver` | addons/gptps_orch.c:322-340 | a retry offers a gate given up at once, and from then on as one never offered |
| `Gates.RememberedToTheCeiling` | addons/gptps_orch.c:149-171 | with no prune and memory enough, what is remembered is all that has terminated, as long as that is within the ceiling |
| `Gates.RememberedIff` | addons/gptps_orch.c:149-171 | a handle that terminates is remembered exactly if there is memory for it; the others stay, or all go if the ceiling was reached |
| `Gates.PruneForgets` | addons/gptps_orch.c:258-276 | a gate made after a prune on any handle that terminated before it is never released |
| `Gates.CountedIffForgotten` | addons/gptps_orch.c:149-171 | a terminal event counts a waiting gate down exactly if its handle is not 0 and not remembered then |
| `Gates.RepeatAfterPruneReleasesEarly` | addons/gptps_orch.c:149-171 | a handle that terminates twice around a prune releases a gate whose other dependency never terminated |
| `GateKeeper.DoneSet.SlotOf` | addons/gptps_orch.c:118-124 | the slot holding the handle, or the first free one, exactly |
| `GateKeeper.DoneSet.Grow` | addons/gptps_orch.c:135-147 | twice the size, the same set |
| `GateKeeper.DoneSet.Remember` | addons/gptps_orch.c:164-170 | the set gains exactly the handle, or nothing when it could not grow |
| `GateKeeper.DoneSet.Clear` | addons/gptps_orch.c:270-276 | the set is empty, the array kept |
| `GateKeeper.Orchestrator.Mark` | addons/gptps_orch.c:155-171 | new exactly if not in the set after any prune; remembered unless memory is short |
| `GateKeeper.Orchestrator.OnTerminal` | addons/gptps_orch.c:218-239 | any terminal event, 0 and repeats included, is the specified step; a first one keeps the invariant |
| `GateKeeper.Orchestrator.CountDown` | addons/gptps_orch.c:232-237 | every gate advances exactly once |
| `GateKeeper.Orchestrator.HoldAfter` | addons/gptps_orch.c:342-393 | held exactly if some dependency is not remembered, with their number; distinct ones keep the invariant |
| `GateKeeper.Orchestrator.RetryAll` | addons/gptps_orch.c:322-340 | exactly the abandoned gates are armed again and offered |
| `Link.StepInv` | addons/gptps_xport.c:705-774 | every step of submitter or reader keeps the ownership invariant |
| `Link.SingleOutcome` | addons/gptps_xport.c:705-774 | under every interleaving a submit that failed has no callback, one accepted has exactly one or is still on its way to it, and each record is freed once |
| `Link.NeverReadAfterFree` | addons/gptps_xport.c:581-602 | no step reads a record that has been freed |
| `Link.StepAdvances` | addons/gptps_xport.c:523-774 | every step brings the requests it is about nearer their end and leaves the others alone, so a request has at most seven |
| `Link.BoundedList` | addons/gptps_xport.c:512-549 | `npend` is the list's length and within the limit, and a dead link holds nothing |
| `Link.AllAnswered` | addons/gptps_xport.c:523-549 | once a link is dead and its reader done, every accepted request has had its one callback |
| `Link.AnswerFollowsWrite` | addons/gptps_xport.c:745-774 | in every run a submit whose frame was written whole does not fail, and a blocking one succeeds exactly if it was |
| `Link.DeadForGood` | addons/gptps_xport.c:523-543 | in every run, once the reader has failed everything the link is dead and lists nothing, and each request that comes to register after that gets an error and no callback |
| `Link.NoneLeftWaiting` | addons/gptps_xport.c:523-549 | nor is anyone left waiting: every submitter has a step to take, and every asynchronous one that has returned has had an error or its one callback, or the reader has its record to complete |
| `Link.PendTake` | addons/gptps_xport.c:512-518 | found exactly if listed, and unlinked alone |
| `Link.Worker.Enlist` | addons/gptps_xport.c:737-743 | refused exactly by a dead or full link; else listed |
| `Link.Worker.Reclaim` | addons/gptps_xport.c:755-771 | the submit reports failure exactly if the record is its own again or the request is a blocking one |
| `Link.Worker.Answered` | addons/gptps_xport.c:581-594 | the reply claims the record exactly if it is still listed |
| `Link.Worker.Retire` | addons/gptps_xport.c:523-543 | the link is dead and lists nothing; every blocking record is completed, exactly the asynchronous ones are kept, each once |
| `Link.Worker.FinishAll` | addons/gptps_xport.c:543-549 | each kept record has its callback once and is freed once, and no other changes |
| `Link.Rotation.constructor` | addons/gptps_xport.c:617-649 | every link comes up live and counted |
| `Link.Rotation.MarkDead` | addons/gptps_xport.c:481-486 | `nalive` stays the number of live links however often a link is retired |
| `Link.Rotation.NextLive` | addons/gptps_xport.c:489-501 | the first live link from the cursor on, going round; none exactly if none is live |
| `Measures.ReadOne` | addons/gptps_xport.c:162-196 | one encoded measurement reads back as itself, whatever follows |
| `Measures.ChosenWhole` | addons/gptps_xport.c:117-135 | nothing is left out exactly if there are at most 64 and each fits |
| `Measures.RoundTrip` | addons/gptps_xport.c:125-196 | decoding an encoded event yields exactly the first 64 that fit, in order, `cut` set exactly if some were left out, the blob within its cap |
| `MeasuresGrammar.DecodeExact` | addons/gptps_xport.c:162-196 | a blob is refused if and only if it is neither empty nor a count of at most 64, a byte and that many entries to its last byte, each sixteen bytes of numbers and two strings with their lengths, closed by a NUL; and what is read is what those bytes say |
| `MeasuresGrammar.FirstSixtyFour` | addons/gptps_xport.c:117-196 | what arrives of an event is the first 64 of its measurements with a name and a method under 256 bytes, as they were, and word of it if that is not all |
| `Measures.Measured` | addons/gptps_xport.c:129-141 | the sizing pass computes exactly what the writing pass will need |
| `Measures.EncodeEvent` | addons/gptps_xport.c:125-160 | the two passes together write the specified blob |
| `Measures.DecodeBlob` | addons/gptps_xport.c:162-196 | on any bytes the cursor never passes the end, the strings fit the block made for them, and the result is the specified one |
| `PoolBlocks.AllocateOk` | examples/embedded.c:63-82 | splitting off a block keeps the tiling, and no two neighbours free |
| `PoolBlocks.TakenTight` | examples/embedded.c:72-78 | the block given out is where the free one was and less than 32 bytes larger than looked for, and the rest stays a free block |
| `PoolBlocks.ReleaseOk` | examples/embedded.c:84-92 | freeing and merging keeps them too, and no other block in use changes |
| `PoolBlocks.CoalesceMerges` | examples/embedded.c:54-61 | after the walk no two neighbours are free, whatever was before |
| `PoolBlocks.AllFreeIsOneBlock` | examples/embedded.c:36-46 | with nothing in use the pool is the one full-size free block again |
| `PoolBlocks.LiveApart` | examples/embedded.c:48-52 | any two blocks are disjoint and inside the pool |
| `PoolArena.Arena.constructor` | examples/embedded.c:36-46 | the bytes of a new arena are one free block |
| `PoolArena.Arena.Search` | examples/embedded.c:70-71 | walking the headers in memory finds the first block that will do |
| `PoolArena.AskedIs` | examples/embedded.c:68-69 | the size looked for is at least the one asked for if and only if that is at most 0xFFFF_FFF0, and then it is that one rounded up |
| `PoolArena.RoundUpLeast` | examples/embedded.c:68-69 | rounding up gives the least multiple of 16 that is not 0 and is enough |
| `PoolArena.FitsIff` | examples/embedded.c:68-71 | up to there the search fails if and only if no free block would do |
| `PoolArena.Arena.Malloc` | examples/embedded.c:63-82 | for every size_t: takes exactly the first block that fits the size the mask leaves, or nothing; its block holds what was asked for if and only if that is at most 0xFFFF_FFF0, and up to there it is NULL exactly if no free block would do; every block in use keeps its bytes |
| `PoolArena.Arena.CoalesceAll` | examples/embedded.c:54-61 | merging the headers in place is the specified merge, payloads untouched |
| `PoolArena.Arena.Free` | examples/embedded.c:84-92 | frees exactly that block, NULL nothing; every other block keeps its bytes |
| `PoolArena.Arena.Realloc` | examples/embedded.c:94-104 | for every size_t: the copy stays inside the new block if and only if that is as large as the old one, a condition on the blocks before the call that always holds up to 0xFFFF_FFF0; then the block begins with the old contents, is large enough if and only if the request is at most that, and every other block keeps its bytes; on NULL everything does; and if the copy leaves the block, which bytes it covers |
| `PoolArena.OverrunsWhere` | examples/embedded.c:94-104 | a copy that leaves its block was asked for more than 0xFFFF_FFF0 bytes, and covers the whole header that follows or leaves the pool |
| `PoolOverrun.HugeGetsSixteen` | examples/embedded.c:68-69 | 2^32 bytes asked of a new pool get 16 |
| `PoolOverrun.AskHuge` | examples/embedded.c:63-82 | the call itself, on a new arena |
| `PoolOverrun.CopyCoversNeighbour` | examples/embedded.c:100-102 | an input whose copy covers the header and payload of a block in use with another's bytes |
| `PoolOverrun.ReachOverrun` | examples/embedded.c:63-104 | five calls on a new arena that come to it |
| `Toml.ScannersAgree` | src/config_toml.c:174-196 | after any plain text and quoted strings, whatever a quoted body holds, the comment is cut exactly where it starts and the closing quote found is the body's |
| `Toml.UnescapeEscape` | src/config_toml.c:114-172 | any text without NUL, escaped by TOML v1.0.0, section String, reads back unchanged |
| `Toml.StringReadsBack` | src/config_toml.c:279-303 | through all three scanners together, from a line with any quoted key before it and any comment after it |
| `Toml.OutputBounded` | src/config_toml.c:114-172 | what is read holds no NUL and is never longer than the body |
| `Toml.Utf8Decodes` | src/config_toml.c:140-166 | an escape's bytes decode to its character, in the fewest bytes (section 3 of RFC 3629) |
| `TomlReader.StripComment` | src/config_toml.c:181-196 | the walk finds the specified cut |
| `TomlReader.FindClose` | src/config_toml.c:174-180 | the walk finds the specified quote |
| `TomlReader.UnescapeInto` | src/config_toml.c:114-172 | the write cursor never outruns a buffer of the body's length, and the result, errors included, is the specified one |
| `TomlGrammar.UnescapeExact` | src/config_toml.c:103-172 | a body is read if and only if it is a sequence of plain bytes, the seven letters after a backslash, and 4 or 8 hex digits of either case after \u or \U that spell a character; and it says what they stand for |
| `TomlGrammar.CloseQuoteExact` | src/config_toml.c:174-180 | a quote closes the string if and only if what stands before it is a body, with no bare quote and no escape cut off |
| `TomlGrammar.CommentExact` | src/config_toml.c:181-196 | a line is cut at a sign if and only if plain text and whole strings stand before it and no such sign does |
| `TomlGrammar.SameDottedKey` | src/config_toml.c:223-235 | however its dots are split between table and key, it is the same key |
| `TomlReader.File.FindDotted` | src/config_toml.c:223-235 | the first entry whose table and key, joined, are the dotted key, compared without joining |
| `TomlReader.File.Add` | src/config_toml.c:279-293 | an entry is taken exactly if its dotted key is new, so entries stay pairwise distinct however the dots are split; else the earlier line is reported |

## Left out

- Real files, sockets, processes, threads and clocks: their calls are steps that succeed or fail; times are parameters.
- The engine itself: it is the environment, any order of events its header's contract allows, handles issued once, one-shot work. REQUEUE and SERVICE work is not modelled.
- Reserving numbers, pushing records and writing them is one step of the machine. The source lets go of the table's lock before it writes, but not of the journal's, so only steps that touch neither the journal nor those records can come between.
- Positions in the queue's machine are counted in records; the byte level is reached through the images of a file.
- CommitTheorems.DurableAck: for legible bytes; of others it is false, see Findings.
- CommitTheorems.FailedLeavesNoTrace: for legible bytes only.
- CommitTheorems.RunInv: the machine's crash step leaves an image of the file, which is what legible bytes replay to; runs that go on from bytes that are not legible are not among its runs.
- Unknown file positions, directories that cannot be synced at all, copies kept of damaged journals, reports and warnings of the durable queue.
- `QueueLocks.Queue` and `QueueEvents` know a record by its place in the table; `QueueIndex.Desk` puts the index in front of them, and with it memory that runs out counts as a refusal by the engine. Reservations held across a submit's wait, and a submit's out-of-memory refusals, are proved of the index alone.
- QueueEvents.DrainOne: one record of a drain; the drain's callback and the compaction it ends with are separate steps.
- CrashLoopRuns.CountIsDeathsWhileRunning: for deaths of the process, where what was written is still there, and runs in which no journal write fails, as the source says of its count; records being retracted are excluded.
- CrashLoopRuns.OneSuspectAtATime: counts open records; with withdrawn ones it is false, and CrashLoopTurns says exactly when.
- StatsObserver.Observer.Observe: the rows are found by number rather than by name, and measurements are not folded in. The statistics theorems take an attempt's end to be stamped no earlier than its start, since one thread stamps both by a monotonic clock (src/engine.c:908).
- Hash functions are arbitrary functions into the table, and masking by the size is going round it.
- RouterQueue.Balance: the two lookup tables are maps (`HandleTable` is the table they are kept in); non-terminal events are passed on unchanged and not modelled.
- Link: frames on the wire, the wait of a blocking submit and its result; the rotation's cursor does not wrap.
- PoolArena: the base address is aligned, a size_t has 8 bytes and an int 4, and an address freed is one that was given out. A copy that leaves its block is byte by byte from the front and stops at the end of the pool, and what pool_free then does to broken headers is not modelled.
- The TOML reader's numbers, booleans, arrays, table headers and key paths; bit operations are written as division and remainder.
- The terminal interface, the pool, quota, wasm, await and remote add-ons, the platform layers and the thin configuration wrappers: they would add only easy members.
