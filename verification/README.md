# Gokin Studio: verified models of its protocols and stores

Gokin Studio lets a chat in one project delegate work to a chat in another. This
project models the parts of it where several critical sections, files or renames
have to agree with each other, and proves what they keep.

* **Delegation.** `DelegationRuns` and `DelegationStore` are the durable table and its
  retention. `DelegationRegistry` holds the in-memory owners. `DelegationProtocol` is
  the state machine in which starts, batches, monitors, cancellations and the deletion,
  clearing and stopping of chats interleave, one step for each critical section, with
  disk faults, retention, shutdown and refusals as free choices. `DelegationInvariant`
  states what every step keeps; `DelegationFrames`, `DelegationSteps`,
  `DelegationPublish` and `DelegationCallers` prove it step by step;
  `DelegationTheorems` lifts it to whole runs, and `DelegationGuarantees` and
  `DelegationAnnouncing` draw the consequences. `DelegationEviction` and
  `DelegationSlots` say exactly when two promises fail that the code makes about
  announcements and deleted chats; `DelegationFullFile` is a run of the first kind with
  real retention. `DelegationWaiting` is a batch's wait for its runs. `LockOrder` and `LockTraces` say exactly when the threads behind those
  sections can wait for each other's locks in a circle. `DelegationGuard` is the rule for
  chains of hops and `AnswerPager` the paging of stored answers.
* **The configuration tree.** `ConfigSwap` replaces the live tree by renames that may
  fail, or be the last thing before a crash; `ConfigArchive` writes and reads the backup
  archive.
* **Stores with a simple specification.** `ArtifactVersions`, `EventLog`, `AskUser`,
  `MessageQueue`, `ArchivedProjects`, `Attachments`.

`Text` has the few operations of Go's `strings` package that are used, and `Wrappers`
has `Option`.

How to read it: code that updates state in place is a class whose methods are proved
against a function or relation on values, and the promises are lemmas about those.
Protocols are functions `Next(s, step)` guarded by `Can(s, step)`, and their theorems
quantify over every sequence of steps. Where a crash matters (`ConfigSwap`,
`ArtifactVersions`, `ArchivedProjects`) a ghost field records every state that the disk
went through; a claim about all recorded states is a claim about a crash at any point.

Some statements that suggest themselves do not hold of the code. For each there is a
concrete run or input, and a theorem that says exactly when the code does meet the
statement:

* The locks never deadlock. Filling a project's cost cache takes `Studio.mu` under
  `costMu`; clearing a chat takes `costMu` under `Studio.mu`; a writer that waits for
  `Studio.mu` makes the first wait for the second (`LockTraces.ClearingMayHang`). The
  comment at internal/studio/project.go:2813-2814 calls `costMu` a leaf lock. No
  other circle is possible: `LockOrder.CyclesExactly` for any reachable state, and
  `LockTraces.StudioHangsExactly` for any set of operations that may overlap.
* One announcement for each ended run, in the absence of disk faults. The comment at
  internal/studio/delegation.go:762-765 promises a single terminal event.
  `DelegationFullFile.RetentionMayAnnounceTwice` is a run from the initial state in which
  125 short runs fill the file while a long one goes on. It holds exactly as long as
  retention has not dropped the row of a run whose owner is registered
  (`DelegationEviction.TwiceExactly`).
* No registry entry names a deleted chat: `ReservationMayNameDeletedChat` and
  `SlotMayOutliveItsChat`. Such entries are exactly the slots that a batch asked for from
  the chat drew after the deletion had made its list, until that batch is over
  (`DelegationSlots.SlotsOfDeletedChat`); none of them becomes a run
  (`DeletedStaysUntouched`).
* A batch's wait reports a missing owner only for a run that has lost it. Row and owner
  are read one after the other, and short of disk faults and shutdown the report is
  always wrong (`DelegationWaiting.OwnerlessExactly`) and always possible
  (`MayLookOwnerless`): the run ended in between, and the results of the whole batch are
  not posted.
* Waiting follow-ups have a worker: `Stranded`. Those left without one are exactly the
  ones accepted after the last worker's decision to leave, short of a panic
  (`WaitingExactly`).
* Equal keys mean equal log entries: `NulConfusesKeys`; an entry can be confused exactly
  if a text of it holds a NUL (`ConfusableExactly`). Replay works at any time: it keeps
  the slot for merging exactly if nothing was logged before (`Log.Replay`).
* No project is lost at startup: `UnreadArchiveLoses`; `StartupUnread` says exactly when.
* Every archive that is written can be read: not with a path beginning with `..`
  (`WrittenIsReadBack`, an if-and-only-if).
* Every listed version can be restored: not while another restore or a chat is at work;
  not if the current file is a link or no file, is not text or is larger than 2 MiB
  (`OversizeBlocksRestoring`); and not if it is new and the project has no room for it,
  or the version is the oldest of a full manifest (`RestorableExactly`, the condition
  that `VersionStore.Restore` writes under).
* An artifact that was saved can be saved again, and does not stand in the way of others:
  not if its name has a control character, which is written to the manifest but not
  accepted when that is read (`IllegibleNameBlocks`; `VersionStore.Save` says exactly when
  it succeeds).

`dafny verify dfyconfig.toml` checks the whole project.

## Model

| member | source | states |
|---|---|---|
| DelegationRuns.SortNewestSorts | internal/studio/delegation_runs.go:175 | the stable newest-first sort is a permutation, ordered, and keeps rows with equal start times in stored order |
| DelegationRuns.FitDelegationRuns | internal/studio/delegation_runs.go:171-212 | keeps both limits by cutting the oldest terminal rows, as few as possible; refuses exactly when the live rows alone are too large |
| DelegationRuns.RetentionMeaning | internal/studio/delegation_runs.go:167-186 | kept and evicted rows are a permutation of the input, every live row stays and in order, only terminal rows go, none newer than a terminal row that stays |
| DelegationRuns.RetentionIsDetermined | internal/studio/delegation_runs.go:171-212 | the limits leave only one possible outcome of retention |
| DelegationRuns.FullFileDropsOldest | internal/studio/delegation_runs.go:178-212 | a full file drops exactly its oldest row when that is terminal, even if the same save made it terminal |
| DelegationStore.EvictionTable | internal/studio/delegation_runs.go:167-186 | retention removes the evicted run IDs from the table and touches no other row |
| DelegationStore.DelegationRunStore.Save | internal/studio/delegation_runs.go:153-165 | succeeds exactly if the disk is writable and the live rows fit; then the file is what retention decides, otherwise unchanged |
| DelegationStore.DelegationRunStore.Append | internal/studio/delegation_runs.go:217-241 | stores a run exactly if the disk works, its ID is new, no live run has its target, and the live rows still fit with it; a duplicate or a busy target is told apart, and any refusal changes nothing |
| DelegationStore.DelegationRunStore.Finish | internal/studio/delegation_runs.go:246-285 | a live row becomes terminal, with its identity kept, exactly if the status is terminal and the disk works, so never fails for lack of room; a terminal row is refused and handed back; a status that is not terminal, a missing row and an unwritable file are told apart |
| DelegationStore.DelegationRunStore.UpdateProgress | internal/studio/delegation_runs.go:289-308 | changes only the progress of a live row, exactly if the disk works and the live rows fit with it; terminal rows are left alone |
| DelegationStore.DelegationRunStore.Load | internal/studio/delegation_runs.go:313-326 | finds the row by ID, and tells an absent row from an unreadable file |
| DelegationStore.DelegationRunStore.Reconcile | internal/studio/delegation_runs.go:330-354 | after a restart every row left live is stopped, finished rows keep their outcome, and none appears or disappears except by retention |
| DelegationRegistry.WithSlotsAdds | internal/studio/delegation.go:665-683 | the batch adds exactly one reserved slot for each target and leaves all other entries alone |
| DelegationRegistry.ReservingStaysBounded | internal/studio/delegation.go:646-664 | a permitted batch keeps at most four entries and one for each target project |
| DelegationRegistry.ClaimingStaysBounded | internal/studio/delegation.go:571-586 | so does a permitted single claim |
| DelegationRegistry.Owners.ValidateClaim | internal/studio/delegation.go:564-588 | admits exactly a new ID below the limit with a free target; a refusal changes nothing |
| DelegationRegistry.Owners.ReserveBatch | internal/studio/delegation.go:637-683 | reserves all targets if they are distinct, free and fit, and otherwise none |
| DelegationRegistry.Owners.PublishAndStart | internal/studio/delegation.go:595-627 | row and exact owner appear together or, on refusal or store error, neither; a reservation is used only by the start it was made for |
| DelegationRegistry.Owners.ReleaseBatch | internal/studio/delegation_batch.go:101-107 | the deferred loop computes the registry that the next two lemmas are about, in whatever order |
| DelegationRegistry.ReleasingUndoesReserving | internal/studio/delegation.go:709-715 | releasing every slot of a batch gives back the registry that the batch found |
| DelegationRegistry.ReleasingSparesOwners | internal/studio/delegation_batch.go:101-107 | but no release, of whatever IDs, takes or changes a live owner |
| DelegationRegistry.Owners.TakeOwner | internal/studio/delegation.go:754-775 | takes the entry exactly if it is the run's live owner, so at most one caller succeeds |
| DelegationRegistry.TakenOnce | internal/studio/delegation.go:762-775 | once taken, the owner is found by no row of the run, and every other run still has its own |
| DelegationRegistry.OneOwner | internal/studio/delegation.go:723-752 | two runs that both pass as owner of a target are one run, from one chat, in one child, of one batch |
| DelegationRegistry.Owners.RunsTouching | internal/studio/delegation.go:1293-1303 | lists exactly the entries with the chat, or the whole project, at either end |
| DelegationTheorems.StepKeeps | internal/studio/delegation.go:189-421 | every step of every operation, with any fault or refusal, keeps the whole invariant and only adds to what has happened |
| DelegationTheorems.RunKeeps | internal/studio/delegation.go:859-935 | so does every interleaving of any number of operations |
| DelegationGuarantees.LiveRowsAreOwned | internal/studio/delegation.go:589-627 | between publications every row that is not terminal has its exact live owner, short of a disk fault on that run or shutdown |
| DelegationGuarantees.CapsHold | internal/studio/delegation.go:571-586 | in every reachable state: at most four entries, one for each target, and one live row for each target |
| DelegationGuarantees.TerminalIsForever | internal/studio/delegation_runs.go:243-259 | a terminal row is never changed and an evicted one never returns, in any continuation |
| DelegationGuarantees.EndIsAnnouncedOnce | internal/studio/delegation.go:762-775 | at most one completion and one storage error for each run, each announced by the operation that earned it |
| DelegationGuarantees.DeletedStaysUntouched | internal/studio/app.go:1910-2043 | once a chat was deleted, no live owner names it and every row naming it is settled, in all later states; the reservations that may name it are those of DelegationSlots.SlotsOfDeletedChat |
| DelegationGuarantees.ReservationMayNameDeletedChat | internal/studio/delegation.go:637-683 | a run in which a batch reserves a slot for a source chat that has been deleted |
| DelegationGuarantees.WithdrawnNeverRuns | internal/studio/delegation.go:862-870 | a reservation removed by a cancellation never gets a row or an owner, in any continuation |
| DelegationGuarantees.ReservesAllOrNothing | internal/studio/delegation.go:629-683 | a batch changes nothing or gets every slot in one step |
| DelegationGuarantees.CleaningSparesRuns | internal/studio/delegation_batch.go:101-107 | the deferred cleanup of reservations never removes a run that has begun |
| DelegationGuarantees.BatchEndsClean | internal/studio/delegation_batch.go:97-135 | a batch that failed leaves no reservation, and each member never began, was refused, or began and is settled; one that succeeded began them all |
| DelegationGuarantees.FinishingIsAStep | internal/studio/delegation_runs.go:246-285 | whatever the store's finish does to the table is a step of the protocol |
| DelegationGuarantees.AppendingIsAStep | internal/studio/delegation_runs.go:217-241 | and so is its append |
| DelegationGuarantees.PublishingIsThreeSteps | internal/studio/delegation.go:595-627 | the start's three steps under delegationMu, taken in a row, are the whole publication: row and owner appear, no other entry changes |
| DelegationAnnouncing.AnnouncedExactly | internal/studio/delegation.go:859-935 | once nobody is about to speak: announced as complete exactly if some operation made the row terminal, as a storage error exactly if some operation took the owner |
| DelegationEviction.OneAnnouncementUnlessOusted | internal/studio/delegation.go:884-934 | one announcement in all, if the disk did not fail on the run and retention never dropped its row while it had a registered owner |
| DelegationEviction.TwiceExactly | internal/studio/delegation.go:762-775 | for every reachable state and run with a registered owner, without faults on it: its end may still be announced twice if and only if its row has been dropped |
| DelegationFullFile.OverflowAnnouncesTwice | internal/studio/delegation_runs.go:178-212 | so it may whenever a run is about to end whose row will be the oldest of a file that it does not fit into; every save of that continuation drops what retention drops |
| DelegationFullFile.RetentionMayAnnounceTwice | internal/studio/delegation.go:884-909 | a run from the initial state, without faults and with real retention at each save, in which 125 others fill the file and one run is announced twice |
| DelegationSlots.SlotsOfDeletedChat | internal/studio/delegation.go:1293-1303 | in every state after a deletion, an entry names the chat if and only if it is a reservation of a batch from the chat, drawn after the deletion's snapshot, and the batch is not over |
| DelegationSlots.LateSlotsNameIt | internal/studio/delegation.go:637-683 | every batch from the chat that reserves after that snapshot draws such entries, before the chat is gone or after |
| DelegationSlots.SlotMayOutliveItsChat | internal/studio/app.go:1910-2043 | a run in which it reserves while the deletion is at work and the chat is still there |
| DelegationWaiting.Round | internal/studio/delegation_batch.go:198-229 | one round of the loop gives the verdict that the lemmas below are about |
| DelegationWaiting.ReadyIsForAll | internal/studio/delegation_batch.go:196-229 | a round that finds nothing pending, whatever happens between its reads, ends with every run over |
| DelegationWaiting.GoneIsOver | internal/studio/delegation_batch.go:209-215 | a started run is reported as disappeared exactly if its row was dropped, and then it has ended |
| DelegationWaiting.OwnerlessExactly | internal/studio/delegation_batch.go:216-219 | a live row is reported as ownerless exactly if the entry is gone when the owner is asked for; without faults and shutdown, only for a run that ended after its row was loaded |
| DelegationWaiting.MayLookOwnerless | internal/studio/delegation_batch.go:216-219 | and that can happen to every started run whose live row was loaded, whatever retention drops |
| DelegationAnnouncing.MonitorEndsSettled | internal/studio/delegation.go:1047-1153 | a monitor ends only when its run is terminal or gone, the disk failed, or the studio shuts down |
| LockOrder.CyclesExactly | internal/studio/delegation.go:445-463 | threads that keep the lock discipline, with readers queued behind waiting writers, wait in a circle exactly if one fills a cost cache that another one clears while a third waits to write Studio.mu |
| LockTraces.OrderlyOp | internal/studio/app.go:1910-2011 | every path through each operation keeps the discipline, although start takes delegationMu before a project lock and deletion the other way round, and although a budget check takes Studio.mu under costMu and clearing the other way round |
| LockTraces.StudioHangsExactly | internal/studio/app.go:2444-2536 | given which operations may overlap: starts, messages, the budget checks and bills of turns, cancellations, monitors, deletions, clears, stops and archivings can come to a cyclic wait if and only if a budget check that fills the cost cache of a project can overlap the clearing of one of its chats and an archiving |
| LockTraces.ClearingMayHang | internal/studio/project.go:2769-2820 | such a run: a start to p, a chat of p being cleared, and any other project being archived, for all p |
| DelegationGuard.ToolContextRoundTrip | internal/studio/delegation_guard.go:54-75 | a stamp survives a tool call exactly if it is not the empty one |
| DelegationGuard.NextDelegationStamp | internal/studio/delegation_guard.go:84-105 | computes the next stamp that the lemmas below are about |
| DelegationGuard.StampTellsAll | internal/studio/delegation_guard.go:84-145 | for any limit: depth is the number of admitted hops, the chain is every project visited, without repetition, ending here; the cap drops nothing |
| DelegationGuard.ChainIdStays | internal/studio/delegation_guard.go:84-99 | every stamp of a chain carries the ID drawn for the first hop |
| DelegationGuard.AdmittedExactly | internal/studio/delegation_guard.go:120-145 | admitted are exactly the chains within the limit that never return to a project they left |
| DelegationGuard.AdmittedStampsSurvive | internal/studio/delegation_guard.go:54-75 | the stamps of admitted turns survive their tool calls |
| AnswerPager.FetchAnswer | internal/studio/delegation.go:998-1044 | the two loops give the page that the lemmas below are about |
| AnswerPager.PageIsWellFormed | internal/studio/delegation.go:1007-1044 | each page of a well-formed answer is well-formed UTF-8, within the bound, starts at most three bytes early, and is empty only at the end |
| AnswerPager.PagesJoinUp | internal/studio/delegation.go:1022-1044 | pages followed by offset + length concatenate to the rest of the answer |
| AnswerPager.PagingEnds | internal/studio/delegation.go:1008-1014 | such paging ends, with any page sizes |
| AnswerPager.WholeAnswer | internal/studio/delegation.go:996-1044 | from offset 0 it yields the stored answer |
| ConfigSwap.RenameKeeps | internal/studio/backup_management.go:66 | a rename onto the live name or a snapshot name loses no tree at stake |
| ConfigSwap.KeptIsListed | internal/studio/backup_management.go:203-264 | a kept tree is the live one or one that the snapshot listing shows |
| ConfigSwap.Disk.MoveToFreeName | internal/studio/backup_management.go:55-85 | up to eight attempts; on success the tree is at a listed name, otherwise where it was |
| ConfigSwap.Disk.ClaimSnapshot | internal/studio/backup_management.go:95-137 | the selected snapshot is at the claim, or back, or the error has its path |
| ConfigSwap.Disk.ReturnClaim | internal/studio/backup_management.go:163-183 | back under its original name, or the error has its path |
| ConfigSwap.Disk.Promote | internal/studio/backup_management.go:188-199 | promoted, or the live tree is back, or this call tried both renames in turn, both failed, and the error has the path |
| ConfigSwap.Disk.SwapIn | internal/studio/backup_management.go:372-400 | where both trees are after every outcome of the swap |
| ConfigSwap.Disk.Restore | internal/studio/backup_management.go:347-418 | at every moment both trees are live or listed; on success they changed places; on error each is in place or its path is in the error, the live tree's only after this call failed to rename the claimed tree to the live name and then the live tree back |
| ConfigSwap.Disk.Import | internal/studio/data_archive.go:988-1002 | the same for the live tree when an import replaces it |
| ConfigArchive.BoundedWriter.Write | internal/studio/data_archive.go:567-577 | writes all of the bytes or none, and never more than the limit |
| ConfigArchive.WriteArchive | internal/studio/data_archive.go:579-747 | an archive comes out exactly if the tree stayed as it was, has config.yaml and keeps every limit; its content and count are what the walk saw |
| ConfigArchive.BoundedReader.Read | internal/studio/data_archive.go:796-816 | hands out the stream in order; a stream of exactly the limit reaches its end, a longer one is an error |
| ConfigArchive.BoundedReader.Drain | internal/studio/data_archive.go:818-849 | finds a non-zero byte after the end marker exactly if there is one within the limit |
| ConfigArchive.ReadArchive | internal/studio/data_archive.go:880-985 | however the stream is chunked, the verdict is a function of the bytes, with a separate refusal for each check |
| ConfigArchive.WrittenIsReadBack | internal/studio/data_archive.go:916-985 | what was written passes every check and gives back the counted regular files byte for byte, except exactly an archive with a path beginning with ".." or an invalid config.yaml |
| ArtifactVersions.SurvivesExactly | internal/studio/artifact_versions.go:459-475 | saving drops exactly the oldest version of a full manifest, and only if the content is not the newest already |
| ArtifactVersions.RestorableExactly | internal/studio/artifact_versions.go:789-807 | which listed versions a restore that begins writes back, told before the call: the manifest can be read, and there is no current file, or a regular one with text of at most 2 MiB that is the newest version already, or that the project has room for, and then not the oldest version of a full manifest |
| ArtifactVersions.OversizeBlocksRestoring | internal/studio/artifact_preview.go:264-284 | one byte too many in the current file blocks the restoring of every version |
| ArtifactVersions.IllegibleBlocks | internal/studio/artifact_versions.go:273-289 | in every store, a history under a name with a control character keeps any other history from getting new content |
| ArtifactVersions.IllegibleNameBlocks | internal/studio/artifact_versions.go:304-361 | a run in which such a history is saved, and then nothing else can be |
| ArtifactVersions.VersionStore.Usage | internal/studio/artifact_versions.go:304-361 | the bytes of all other histories, each digest counted once; without faults it fails exactly if there are too many, or one of the others cannot be read |
| ArtifactVersions.VersionStore.StoreContent | internal/studio/artifact_versions.go:477-489 | afterwards the content file is there with its digest, and it is known whether it is new |
| ArtifactVersions.VersionStore.Commit | internal/studio/artifact_versions.go:490-497 | the manifest gets the new version; or it stays, and nothing else changes except that the content file of this very version may be taken back, if this save wrote it |
| ArtifactVersions.VersionStore.Collect | internal/studio/artifact_versions.go:498-525 | no manifest changes; without faults only referenced content stays |
| ArtifactVersions.VersionStore.Save | internal/studio/artifact_versions.go:407-527 | at every crash point all histories keep all rules; other histories stay; a failed save changes no manifest; without faults it succeeds exactly within the budget, with readable manifests, and if the new one is not too long |
| ArtifactVersions.VersionStore.ReadVersion | internal/studio/artifact_versions.go:589-627 | text with the recorded digest; without faults exactly when the ID is listed in a manifest that can be read |
| ArtifactVersions.VersionStore.Restore | internal/studio/artifact_versions.go:643-838 | on success the restored content is newest and the replaced content still listed; without faults it writes exactly if no restore and no chat is at work, the current content can be preserved, the target is no link, and the version is then still there; and a restore that writes also records exactly if the content is newest already, or the histories are not too many, can be read, and the manifest is short enough |
| EventLog.EachCallCounts | internal/studio/event_log.go:82-118 | every call counts once, merged or not |
| EventLog.ShownAndDroppedAddUp | internal/studio/event_log.go:121-141 | counts shown plus counts dropped are all calls made |
| EventLog.ConfusableExactly | internal/studio/event_log.go:76-90 | some different event has the same key if and only if a text of the event contains NUL |
| EventLog.LoggedConfusableExactly | internal/studio/event_log.go:179-184 | among events with a normal level: if and only if its source or message does |
| EventLog.NulConfusesKeys | internal/studio/event_log.go:76-90 | two different events with a NUL that are merged |
| EventLog.Log.Log | internal/studio/event_log.go:63-119 | the ring stays the newest 500 of an unbounded log that merges a repeated newest event within two seconds |
| EventLog.Log.Snapshot | internal/studio/event_log.go:124-141 | the newest 500 entries of the unbounded log, oldest first |
| EventLog.Log.Len | internal/studio/event_log.go:167-177 | their number |
| EventLog.Log.Clear | internal/studio/event_log.go:146-163 | empties the log, and nothing merges across it |
| EventLog.Log.Replay | internal/studio/event_log_disk.go:128-143 | in every valid log a replayed entry is appended; the slot for merging is the newest entry afterwards if and only if nothing had been logged |
| EventLog.Log.RecentErrorCount | internal/studio/event_log.go:221-241 | while time does not go backwards, the early exit misses nothing |
| EventLog.RecentIsFilter | internal/studio/event_log.go:229-240 | the entries after the newest old one hold all errors of the window |
| EventLog.Rotate | internal/studio/event_log_disk.go:191-223 | keeps the longest run of newest lines within half the budget |
| AskUser.StepKeeps | internal/studio/ask_user.go:101-156 | every step of waiters, answers and dismissals keeps the gates, channels and events in order |
| AskUser.OneQuestionAtATime | internal/studio/ask_user.go:81-133 | on each chat asking and closing the same question alternate; no two questions of a chat are open |
| AskUser.TokenIsSomewhere | internal/studio/ask_user.go:135-156 | a gate in use has one token: in the channel, with a waiter, or on its way back |
| AskUser.SendsNeverBlock | internal/studio/ask_user.go:44-61 | neither buffered send finds its channel full; at most one answer for each channel |
| AskUser.AnswersReachTheirQuestion | internal/studio/ask_user.go:205-251 | an answer that a waiter got was given to its question: same channel, same ID |
| AskUser.CleanupSparesOthers | internal/studio/ask_user.go:63-71 | a stale cleanup never removes a newer owner of the ID |
| AskUser.Registry.AcquireRoute | internal/studio/ask_user.go:101-120 | the locked section is the joining step |
| AskUser.Registry.Uncount | internal/studio/ask_user.go:135-156 | the locked sections of release and abandonment are the leaving steps |
| AskUser.Registry.Register | internal/studio/ask_user.go:32-42 | a taken ID is refused, and a new one gets a channel of its own |
| AskUser.Registry.TakeOwner | internal/studio/ask_user.go:44-85 | an answer or dismissal removes the entry and gets its channel, once |
| AskUser.Registry.Cleanup | internal/studio/ask_user.go:63-71 | only the exact owner's entry goes |
| MessageQueue.ChatSession.Start | internal/studio/app.go:2148-2232 | at most one worker for a chat |
| MessageQueue.ChatSession.Queue | internal/studio/app.go:2295-2360 | accepts exactly within eight turns and 64 MiB, with a worker, no Stop, and a new ID; appends in order |
| MessageQueue.ChatSession.Remove | internal/studio/app.go:2373-2402 | removes exactly the waiting turn with the ID; the order of the others stays |
| MessageQueue.ChatSession.Stop | internal/studio/session.go:119-141 | drops all waiting turns, returns their IDs, and starts no more |
| MessageQueue.ChatSession.NextTurn | internal/studio/app.go:2171-2215 | starts the oldest waiting turn, once, or decides to leave |
| MessageQueue.ChatSession.Leave | internal/studio/app.go:2155-2170 | the worker is gone, and the next message may start one, with the queue as it is |
| MessageQueue.ChatSession.WaitingExactly | internal/studio/app.go:2155-2215 | in every state without a turning worker, short of a panic: a follow-up waits if and only if it was accepted after the last worker's decision to leave and not taken back |
| MessageQueue.StartKeeps | internal/studio/app.go:2171-2215 | accepted turns are exactly those started, removed, cleared or pending, started in order of acceptance |
| MessageQueue.Stranded | internal/studio/app.go:2155-2215 | a run that leaves a follow-up without a worker |
| ArchivedProjects.Studio.SaveArchive | internal/studio/archived_projects.go:89-117 | replaces the file or leaves it; an empty archive is no file |
| ArchivedProjects.Studio.ArchiveProject | internal/studio/archived_projects.go:172-237 | the project changes sides or nothing changes in memory; at every crash point no project is lost |
| ArchivedProjects.Studio.RestoreProject | internal/studio/archived_projects.go:264-323 | the same in the other direction |
| ArchivedProjects.Studio.Startup | internal/studio/app.go:209-229 | after any crash, with a readable archive, each project is on exactly one side, and active wins |
| ArchivedProjects.Studio.StartupUnread | internal/studio/app.go:209-229 | with an unreadable archive: a project is lost exactly if one was not active and the removal worked |
| ArchivedProjects.CrashWhileArchiving | internal/studio/archived_projects.go:196-222 | for any studio and project: a crash between the two commits of archiving is undone by the next startup |
| ArchivedProjects.CrashWhileRestoring | internal/studio/archived_projects.go:283-296 | and one between the two commits of restoring is completed by it |
| ArchivedProjects.UnreadArchiveLoses | internal/studio/archived_projects.go:89-94 | an archived project that is lost after one failed read |
| Attachments.StripContexts | internal/studio/attachments.go:231-256 | the loop ends on every text and computes what StrippingUndoesAttaching is about |
| Attachments.StrippingUndoesAttaching | internal/studio/attachments.go:223-256 | stripping gives back the trimmed text, whatever documents were attached, even repeated ones, as long as none holds its own end marker |

## Left out

Delegation:

- DelegationEviction.TwiceExactly: says nothing about a run on which the disk failed; AnnouncedExactly does
- DelegationFullFile: a row's text has 600 bytes besides its answer, and an answer is all quotation marks, which are written as two bytes each
- DelegationGuarantees.DeletedStaysUntouched: excepts rows on which the disk failed, and rows left live by a shutdown
- when a lifecycle operation (deletion, clearing, stopping) cancels a run, it collects the announcement and makes it after unlocking; here the cancellation makes it
- releasing a lock is part of the step before it; an announcement is a step of its own
- chat IDs are never drawn twice and have no surrounding white space
- the textual checks and the read-only preflight of a batch; the summary message
- DelegationWaiting: the pause between rounds, and the shutdown that ends a wait without a report
- reaping the chats of evicted rows, and removing rows by ID or by age
- the length of an empty JSON list, error texts cut at 2000 bytes, and what the child turn does
- LockTraces: the locks of side chats, previews, browser tabs, the lifecycle registry, history files and the event log, under which the operations here take none of the locks modelled; waiting for a background process to end
- LockTraces.StudioHangsExactly: of the operations that write Studio.mu only archiving is here; creating, restoring and removing projects, settings and groups take it in the same way
- delegationHopFor, which classifies tool calls by name, and the list of denied tools

Configuration tree:

- ConfigSwap: permissions, times and the retention by age; an empty live directory, which has nothing to keep; durability of a rename
- the trees at stake are not touched by other processes, which may do anything else in between
- ConfigArchive: the tar and gzip encodings are parameters that undo themselves; an entry is read whole before it is judged
- symbolic links, devices and the platform's path rules

Stores:

- ArtifactVersions.VersionStore.Collect: lists every content file of a directory, where the code reads at most 56 entries at a time and leaves further orphans to a later save
- ArtifactVersions: the metadata of a version besides its size, the length of names; entries of the storage that the code did not put there; turns that begin during a restore and are refused; other saves of the same artifact between the steps of a restore; reports of "not exist" that are really faults; scopes of chats
- EventLog: redaction and truncation before an entry is stored, and the text form of a line
- AskUser: what the frontend does with a question; the pause between a wake-up and its reason
- MessageQueue: the turn itself, and the cancellation of its context by Stop
- ArchivedProjects: normalisation of project records, and quarantine of an unreadable active file
- Attachments: decoding and text extraction of documents
- uuid draws, clocks and digests are inputs; sha256 is assumed injective only where a contract says so
