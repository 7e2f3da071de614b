# Verified models of the LEAF web demo back end

This project models the stateful cores of the LEAF solar-design back end in Dafny and proves what
they promise over every input, every interleaving and every run. `dafny verify dfyconfig.toml`
checks all of it.

The parts, and the files that hold them:

- **Versioned drawing store.** `LockFile` is the lock-file protocol that guards one drawing: open,
  lock, compare with the name, retire by unlinking, leave and crash, as interleaved steps of any
  number of processes. `ThreadLock` is its in-process half. `LegacyStore` is the manifest and blob
  map under that guard, as a class whose methods are proved against value functions, and
  `LegacyRuns` proves what holds in every history of whole operations. `GuardedRuns` joins the two: it
  interleaves the lock steps with the single reads and writes of a section and shows that nothing
  but whole operations results. `LegacyAnswers` says when each operation succeeds, what it answers and
  what it leaves behind, without naming its code. `VersionChain` holds parent links, with nothing
  assumed about them, and the walk redo makes along them. `PgStore` and `PgRuns` are the PostgreSQL
  authority: atomic transactions, with blob writes, failures and crashes of writers between them;
  `PgAnswers` says the same of its transactions. `Checkout` is the lease rule both share as the code
  decides it, and `LeaseRule` the rule as its documentation words it; `Blobs` takes SHA-256 to be
  injective.
- **Annotation authority.** `Annotations` holds targets, batches, their revisions and the audit log;
  `AnnotationRuns` proves the history chain, the finality of decisions and the replay of the log;
  `AnnotationAnswers` says when each operation succeeds and what it answers, and that the log is a
  ledger of the decisions.
- **Admission.** `FairGate` is the fair gate with its per-tenant queues, ring and semaphore;
  `FairGateRuns` interleaves it with plain admissions, time-outs and exits, and `FairGateDrain` shows
  that it never gets stuck. `FairQueue` and `FairQueueOrder` are the batch queue and the closed form
  of its dispatch order.
- **Poll pacer.** `PollPacer` is the shared slot reservation, over real time, and the poll loop.
- **Declared styles.** `DeclaredStyles` is the one-pass DXF style scanner, `StyleValues` says what the
  normalized values mean, `StyleScan` what the scanner keeps without mentioning its state,
  `StyleAccept` which files it accepts and `StyleRefusal` what it tells of the others. `StyleMatch` is
  the comparison of two drawings, `StyleFacts` restates its verdict in terms of the two files, and
  `StyleNotes` says what its receipt lists.
- **Smaller cores.** `ArbitraryAxis` is the object-to-world transform of the DXF Reference,
  `PercentCodec` the name encoding between AutoLISP and Python, `RampBudget` the spend budget of the
  concurrency ramp.

Three promises turned out to hold only under a condition, which is proved exactly:

- Under the PostgreSQL authority an authorized redo need not succeed when head is behind the newest
  ready version. `PgRuns.RedoSucceedsIffAncestor` gives the exact condition,
  `PgRuns.OverlappingPutsStrandRedo` the family of runs that breaks it, and
  `PgRuns.StrandingIsReachable` a run that gets there.
- For the same reason, undos followed by as many redos need not give back the tables under that
  authority. `PgAnswers.UndosThenRedosRestoreIff` shows that they do exactly when head lies on the way
  up from the newest ready version.
- The catalogue of block names survives the reader that takes downloaded text only if no field holds
  one of eight further line ends that `str.splitlines` knows and the writer leaves alone.
  `PercentCodec.CatalogueLinesIff` gives the condition, `PercentCodec.FormFeedSplitsItsRow` an input.
  The reader that takes a file has no such condition.

One consequence of the code is worth knowing: one lookup serves both the batch to retry and the batch
to reverse, so an undo that failed can be asked for anew but never as a retry
(`AnnotationRuns.RetryOfUndoIsRefused`).

Where the code and its comments disagree, the model follows the code. The docstring of `put_drawing`
says that a lease generation is only checked under PostgreSQL, while the code checks it under the
legacy authority too. A comment at the checkout lock's key says that the file is never unlinked,
while reclaiming unlinks it.

## Model

| member | source | states |
|---|---|---|
| LockFile.StepKeepsInv | da/store.py:603-668 | every step of every process keeps: lock owners and locks correspond, whoever is in the section owns the file the path names, whoever has unlinked does not |
| LockFile.MutualExclusion | da/store.py:874-930 | over every run, crashes and retirements included, at most one process is in the section, and it holds the lock of the very inode the path names |
| LockFile.UnlinkRemovesOwnFile | da/store.py:635-668 | although the check and the unlink by name are separate steps, an unlink only ever removes the caller's own file and leaves the section empty |
| LockFile.FreeSectionAdmits | da/store.py:874-930 | in every state of every run, where the path names no file or one whose lock is free, an idle process is in the section at its first attempt |
| LockFile.CrashLeavesSectionOpen | da/store.py:874-930 | after a crash in the section at any point of any run, an idle process is let in at its first attempt |
| LockFile.ParkedCallerIsTurnedAway | da/store.py:893-930 | a process parked on a retired inode wins its lock and is still kept out by the comparison with the name |
| ThreadLock.MutualExclusion | da/store.py:2573-2611 | at most one thread holds a drawing's lock although its table entry comes and goes, and the entry exists exactly while some thread is interested |
| ThreadLock.CallerLeavesNoTrace | da/store.py:2573-2611 | where nobody holds the lock a newcomer gets it, and after releasing and departing the guard is exactly as it was |
| VersionChain.FindRedoTarget | da/store.py:2517-2529 | the walk ends on any parent links, cycles included, and finds the first child of head on the way up from latest |
| VersionChain.RedoTargetExists | da/store.py:2508-2534 | redo has a target exactly when head is a proper ancestor of latest |
| VersionChain.RedoStepsBack | da/store.py:2508-2534 | without cycles, the redo target of the version n links above latest is the one n - 1 links above |
| LegacyStore.Drawing.IngestDrawing | da/store.py:1727-1741 | the first blob and manifest, or only the blob when stopped between them, or the refusal of an existing drawing |
| LegacyStore.Drawing.PutDrawing | da/store.py:2184-2291 | the whole new drawing after a publication, its refusals, and a stop between blob and manifest |
| LegacyStore.Drawing.WalkPastAbandoned | da/store.py:2210-2240 | the slot walk returns the slot `FindSlot` specifies, or its error |
| LegacyStore.Drawing.UndoHead | da/store.py:2396-2411 | head moves to its recorded parent, or the drawing is unchanged with the error the code raises |
| LegacyStore.Drawing.RedoHead | da/store.py:2508-2534 | head moves to the first child of head above latest, or the drawing is unchanged |
| LegacyStore.Drawing.AcquireCheckout | da/store.py:3024-3047 | a granted lease carries the next generation; a refusal changes nothing |
| LegacyStore.Drawing.ReleaseCheckout | da/store.py:3108-3125 | a release by the right holder or generation clears the lease and keeps the generation |
| LegacyRuns.PutLandsOnFirstUsable | da/store.py:2184-2240 | a put that may write answers with version v if and only if v is the first of the thousand slots after latest, within eight digits, that is free or holds the same bytes |
| LegacyRuns.RunKeepsInv | da/store.py:2081-2534 | in every state of every run: versions strictly increase, latest is the last row, head is on the way up from latest, fences agree, every row is backed by its blob |
| LegacyRuns.HeadLiesAboveLatest | da/store.py:2251-2266 | head is recorded and an ancestor-or-self of latest in every reachable state, whatever parent numbers callers record |
| LegacyRuns.RedoSucceedsIffBehind | da/store.py:2508-2534 | an authorized redo succeeds if and only if head differs from latest |
| LegacyRuns.BlobsAreWriteOnce | da/store.py:2210-2291 | no version blob is ever overwritten over a run with any number of stops, and every row's length and digest describe the blob at its key |
| LegacyRuns.FencesStrictlyIncrease | da/store.py:2876-2896 | every successful acquire of a run returns a larger generation than all earlier ones |
| LegacyRuns.StaleFenceIsRefused | da/store.py:1800-1901 | a put, undo or redo carrying an older generation is refused and changes nothing while a newer lease is live, also under the same holder name |
| LegacyRuns.LeaseIsExclusive | da/store.py:3024-3125 | from a grant until the lease expires or its owner takes it anew or releases it, the lease stands and no step of a caller who claims another holder or generation changes anything about the drawing |
| LegacyRuns.UndosThenRedosRestore | da/store.py:2332-2534 | with parents that are earlier versions, k undos and k redos give back the very same drawing for every k up to the depth of head |
| LegacyRuns.RedoFollowsNewBranch | da/store.py:2251-2534 | a put on head after an undo starts a branch, and undo then redo come back to it and not to the version undone |
| LeaseRule.AuthorizedIff | da/store.py:1800-1901 | the rule the code decides is the documented one: only a live lease keeps anyone out, and exactly those who name nobody, another holder or another generation |
| LegacyAnswers.DeniedIff | da/store.py:1800-1901 | a put, undo or redo is denied, with nothing changed, if and only if a live lease stands and the claim names nobody, another holder or another generation |
| LegacyAnswers.NothingWithoutDrawing | da/store.py:2184-2534 | without a drawing every operation but an ingest is refused and changes nothing |
| LegacyAnswers.IngestAnswers | da/store.py:1727-1741 | an ingest answers version 1 if and only if there is neither a manifest nor a first blob, and leaves one root version of those bytes |
| LegacyAnswers.PutAnswers | da/store.py:2184-2291 | a put answers v if and only if it is not kept out, its parent passes the head check and v is the first usable slot; the bytes are at v, one row records them with the parent, head and latest are v, and nothing else changes; the refusals and when the stale parent is reported |
| LegacyAnswers.StoppedPutLeavesManifest | da/store.py:2241-2291 | a put stopped after its blob leaves the manifest alone and the blobs as the whole put would, and is stopped exactly where the whole put succeeds |
| LegacyAnswers.UndoAnswers | da/store.py:2396-2411 | on every reachable drawing an undo answers v if and only if it is not kept out and v is the recorded parent of head and itself recorded; only head moves |
| LegacyAnswers.RedoAnswers | da/store.py:2508-2534 | a redo succeeds if and only if it is not kept out and head is not latest; it answers a recorded child of the old head on the way up from latest, and only head moves |
| LegacyAnswers.AcquireAnswers | da/store.py:3024-3047 | an acquire is granted if and only if the holder is named and no live lease stands or the caller may take it; the generation goes up by one, the lease lasts the given time, nothing else changes |
| LegacyAnswers.ReleaseAnswers | da/store.py:3108-3125 | a release succeeds if and only if there is a lease that has expired or whose owner asks, and clears only the lease |
| GuardedRuns.SectionsAreAtomic | da/store.py:2626-2803 | with the loads, slot walks, blob writes and manifest saves of a section as separate steps between the lock steps, failures and crashes of all processes, the settled stores of every run, in order, are those of a run of whole operations |
| GuardedRuns.SaveIsWhole | da/store.py:2184-2291 | a save is one whole operation of its caller on the settled store, with the answer the caller gets |
| GuardedRuns.SlotForIff | da/store.py:2184-2240 | a section chooses slot v if and only if the whole operation would answer version v |
| GuardedRuns.EveryStoreIsReachable | da/store.py:2210-2291 | at every moment, also between the two writes of a section, the drawing is in a state that some run of whole operations reaches |
| PgStore.Database.ReserveFirst | da/store.py:1352-1435 | the ingest reservation: created, taken over when it has lapsed with the same bytes, or refused with the tables unchanged |
| PgStore.Database.FinalizeFirst | da/store.py:1438-1469 | the ingest finalization publishes version 1 only under its own unexpired reservation |
| PgStore.Database.ReserveVersion | da/store.py:1485-1566 | the tables and the ticket after a reservation, and each refusal |
| PgStore.Database.FinalizeVersion | da/store.py:1602-1646 | publishes while the ticket still owns head and lease, and orphans the reservation otherwise |
| PgStore.Database.UndoHead | da/store.py:2353-2390 | head moves to its ready parent or the tables are unchanged |
| PgStore.Database.RedoHead | da/store.py:2437-2504 | head moves to the first ready child above the newest ready version or the tables are unchanged |
| PgStore.Database.AcquireCheckout | da/store.py:2975-3021 | a granted lease raises the generation by one; a refusal changes nothing |
| PgStore.Database.ReleaseCheckout | da/store.py:3071-3105 | a release clears the holder and keeps the generation |
| PgRuns.RunKeepsInv | da/store.py:1474-1669 | over every interleaving of reservations, blob writes, finalizations, orphanings, crashes, lease and head moves: rows are exactly 1 to latest, parents are smaller and ready, blobs and writers agree with the rows |
| PgRuns.HeadIsReadyAndStored | da/store.py:1602-1646 | head is always ready, every ready version's blob is stored with its length and digest, and its parent is a smaller ready version; only version 1 has none |
| PgRuns.VersionsAreNeverReused | da/store.py:1485-1566 | two reservations of one run never get the same number, and what a row records never changes between them |
| PgRuns.BlobsAreWriteOnce | da/store.py:1566-1602 | no blob changes once it is stored, over every run |
| PgRuns.FencesStrictlyIncrease | da/store.py:2975-3021 | every successful acquire of a run returns a larger generation than all earlier ones |
| PgRuns.StaleFenceIsRefused | da/store.py:1800-1901 | a reservation, undo or redo carrying an older generation is refused and changes nothing while a newer lease is live |
| PgRuns.TicketOrigin | da/store.py:1474-1669 | every publishing writer holds the ticket of a reservation of its own earlier in the run |
| PgRuns.ReadyOnlyUnderItsLease | da/store.py:1602-1646 | a version becomes ready only in the finalization of the put that reserved it, with head at its parent both times, and nobody having acquired the checkout in between |
| PgRuns.UndoSucceedsIffNotRoot | da/store.py:2353-2390 | an authorized undo is refused only at version 1 |
| PgRuns.RedoSucceedsIffAncestor | da/store.py:2437-2504 | an authorized redo succeeds if and only if head is a proper ancestor of the newest ready version |
| PgRuns.OverlappingPutsStrandRedo | da/store.py:2437-2504 | two puts of one generation on one head, finalized around an undo, leave head behind the newest version with redo refused |
| PgRuns.StrandingIsReachable | da/store.py:1474-1669 | a state with two such puts is reached from an empty store |
| PgAnswers.DeniedIff | da/store.py:1800-1901 | in every reachable state a reservation, undo or redo is denied, with nothing changed, if and only if a live lease stands and the claim names nobody, another holder or another generation |
| PgAnswers.NothingBeforePublication | da/store.py:1485-1510 | before its first publication a drawing can be neither put to nor moved, and nothing changes |
| PgAnswers.FirstReservationAnswers | da/store.py:1352-1435 | the first reservation is granted if and only if the drawing is empty or its lapsed reservation has the same bytes and digest; the row it leaves |
| PgAnswers.FirstPublicationAnswers | da/store.py:1438-1469 | the first version is published if and only if the caller's own reservation has yet to expire; the row and head it leaves |
| PgAnswers.ReservationAnswers | da/store.py:1485-1566 | a reservation is made if and only if a live lease stands that does not keep the caller out, the parent is head and a number is left; it takes the next number, the ticket names head, holder and generation, and the row records bytes, digest and parent |
| PgAnswers.FinalizationAnswers | da/store.py:1602-1646 | a finalization publishes if and only if the ticket's head, holder and generation are still current under a live lease; its version becomes ready and head, or orphaned with head left alone |
| PgAnswers.FailedPutStaysOrphaned | da/store.py:1566-1646 | over every run, a put whose upload failed or whose ticket is no longer current leaves its version orphaned for ever and head where it was |
| PgAnswers.UndoAnswers | da/store.py:2353-2390 | an undo answers v if and only if it is not kept out and v is the recorded parent of head, which is ready and earlier; only head moves |
| PgAnswers.RedoAnswers | da/store.py:2437-2504 | a redo succeeds if and only if it is not kept out and head lies properly above the newest ready version; it answers a ready version whose recorded parent is the old head and that lies on the way up from the newest; only head moves |
| PgAnswers.UndosThenRedosRestoreIff | da/store.py:2353-2504 | for every k from one to the depth of head, k undos and then k redos give back the very same tables if and only if head lies on the way up from the newest ready version |
| PgAnswers.AcquireAnswers | da/store.py:2975-3021 | an acquire is granted if and only if the holder is named, the time is positive and no live lease stands or the caller may take it; the generation goes up by one, the lease lasts the given time, nothing else changes |
| PgAnswers.ReleaseAnswers | da/store.py:3071-3105 | a release succeeds if and only if there is a lease that has expired or whose owner asks, and keeps the generation |
| Annotations.Database.RegisterTarget | platform/annotation_store.py:229-285 | the target and source rows after a registration, its replays and its refusals |
| Annotations.Database.CreateBatch | platform/annotation_store.py:302-508 | the new pending batch, the retired lapsed one, replays by key and each refusal |
| Annotations.Database.RetireLapsed | platform/annotation_store.py:420-436 | only a pending batch whose lease is over is expired, with its audit row |
| Annotations.Database.AcceptBatch | platform/annotation_store.py:624-717 | acceptance as a compare-and-set on the target head, the stale outcome, replays and refusals |
| Annotations.Database.RejectBatch | platform/annotation_store.py:720-779 | rejection, the stale outcome, replays and refusals |
| AnnotationRuns.RunKeepsInv | platform/annotation_store.py:302-779 | over every run: each batch is a pending revision and at most one decision, undo links are exact, every target has a history chain and the audit log replays |
| AnnotationRuns.HistoryIsChain | platform/annotation_store.py:662-713 | the accepted batches of a target form an unbroken chain: each starts from the preview before it or the registered source, and the target is where the last one left it |
| AnnotationRuns.AppliedVersionsAreExact | platform/annotation_store.py:662-713 | v is an applied version of some accepted batch of a target if and only if it is between 1 and the target's version, and then of one batch only |
| AnnotationRuns.UndoFollowsWhatItReverses | platform/annotation_store.py:399-418 | an accepted undo is applied at exactly the version after the batch it reverses, from that batch's preview |
| AnnotationRuns.OneOpenBatchPerSlot | platform/annotation_store.py:420-508 | a session never has two open batches on one drawing |
| AnnotationRuns.RetryOfUndoIsRefused | platform/annotation_store.py:438-455 | a new request that names both a batch to retry and one to reverse, as a retried undo must, is always refused and changes nothing |
| AnnotationRuns.AuditReplaysToTarget | platform/annotation_store.py:580-603 | folding a target's audit rows over what was registered gives the target as it stands |
| AnnotationRuns.DecisionIsFinal | platform/annotation_store.py:530-577 | a batch gets at most one decision, and its revisions never change afterwards |
| AnnotationRuns.AcceptReplays | platform/annotation_store.py:645-717 | an accept repeated with the same key and actor returns the same receipt and changes nothing, however far the head has moved |
| AnnotationAnswers.AcceptAnswers | platform/annotation_store.py:624-717 | at every step of every run, accepting a pending batch succeeds if and only if the caller is allowed, the lease has not ended, the drawing is active and the target stands at the batch's base; the receipt names the drawing, the actor, the next version and the preview, and target, batch, slot and audit row after it; a moved target closes the batch as stale, anything else changes nothing |
| AnnotationAnswers.RejectAnswers | platform/annotation_store.py:720-779 | rejecting a pending batch, likewise, without moving a target |
| AnnotationAnswers.DecidedAnswers | platform/annotation_store.py:645-760 | on a decided batch only its own decision, asked for by its own actor under its own key, is answered, with the receipt or revision of that decision, and nothing changes |
| AnnotationAnswers.UnknownAnswers | platform/annotation_store.py:624-740 | nothing is decided about a batch that does not exist |
| AnnotationAnswers.RegisterAnswers | platform/annotation_store.py:229-285 | a registration succeeds if and only if source and caller are good and the drawing has no target or one at the same source; the target starts at version 0 |
| AnnotationAnswers.CreateAnswers | platform/annotation_store.py:302-508 | a request under a new key opens a batch if and only if it is well formed and allowed, the target stands at its base, what it retries has failed or what it reverses left the target there, and its slot is free or lapsed; the pending batch with its lease, slot and key, or nothing changed |
| AnnotationAnswers.CreateRefusal | platform/annotation_store.py:302-508 | what a request that opens nothing is told: its form first, then the caller, then that the target has moved, then its link, and last that its slot is taken |
| AnnotationAnswers.FormRefusal | platform/annotation_store.py:307-316 | a request is refused for its form if and only if an undo lacks what it reverses, something else names one, or a number is out of range, and which of the five it is told |
| AnnotationAnswers.LinkRefusal | platform/annotation_store.py:438-470 | which of the five refusals a bad link gets, by the batch it names before any lapse is recorded |
| AnnotationAnswers.CreateReplays | platform/annotation_store.py:382-397 | over every run, the same request under its key is answered with its batch as it then stands and another request under it with a conflict, and neither changes anything |
| AnnotationAnswers.AuditIsLedger | platform/annotation_store.py:580-603 | in every reachable state the log holds exactly one row for every decided batch, with its drawing, outcome, actor and key |
| FairGate.Gate.PickLocked | da/queue.py:176-197 | the ticket picked and the queues left are those of the value function |
| FairGate.Gate.DispatchLocked | da/queue.py:200-217 | permits, queues and grants after the dispatcher's loop |
| FairGate.Gate.EnterFair | da/queue.py:239-245 | registering a ticket and dispatching |
| FairGate.Gate.TimeOut | da/queue.py:247-262 | a time-out withdraws its ticket, or returns the permit if the grant won the race |
| FairGate.Gate.LeaveFair | da/queue.py:266-272 | an exit returns the permit and dispatches |
| FairGateRuns.CeilingHoldsAndNoSlotIsLost | da/queue.py:106-140 | over every interleaving, free permits, both kinds of holders and the dispatcher's hand add up to the ceiling, the ring is exactly the waiting tenants, and no ticket waits beside a free permit once nobody is left to dispatch |
| FairGateRuns.WaiterMovesUp | da/queue.py:176-217 | a waiting tenant never moves back in the ring and moves up with every grant to another |
| FairGateRuns.BypassIsBounded | da/queue.py:176-217 | a tenant that waits from ring index i on is among the next i + 1 served |
| FairGateRuns.NoOvertaking | da/queue.py:176-262 | between two grants to one tenant every tenant that waits throughout is served |
| FairGateRuns.TenantIsServedInOrder | da/queue.py:176-262 | over every run, a ticket that entered while an earlier one of its tenant waits is not granted as long as that one still waits |
| FairGateRuns.DispatchIsUndisturbedRun | da/queue.py:200-217 | the dispatcher in one go is the interleaved one with nobody in between |
| FairGateDrain.GateCanAlwaysEmpty | da/queue.py:106-272 | from every state of every run, exits, time-outs and the dispatcher alone lead back to the empty gate with all its permits, so none is lost for ever and nobody is stuck |
| FairGateDrain.FreePermitIsHandedOut | da/queue.py:106-245 | where nobody waits and a permit is free, a newcomer of either kind is let in at once |
| FairQueue.FairQueue.Enqueue | da/queue.py:310-328 | the queues after a job is added |
| FairQueue.FairQueue.NextJob | da/queue.py:342-360 | the job and queues of the round-robin specification |
| FairQueue.FairQueue.Start | da/queue.py:391-403 | the pick, the log entry and the in-flight and peak counters |
| FairQueue.FairQueue.PeakInFlight | da/queue.py:433-442 | the peak recomputed from the log |
| FairQueueOrder.RunKeepsInv | da/queue.py:391-414 | permits, log, counters and the sorted order hold in every state of every worker interleaving |
| FairQueueOrder.PeakIsRecordedAndBounded | da/queue.py:433-442 | the peak recomputed from the log is the recorded one and never exceeds the ceiling |
| FairQueueOrder.LogNamesTheJob | da/queue.py:391-403 | the k-th dispatched job in the log is the job the order says, so each is dispatched as enqueued |
| FairQueueOrder.DispatchOrderIsSorted | da/queue.py:342-360 | dispatches strictly increase in (position in the tenant's queue, tenant's first appearance), so none happens twice |
| FairQueueOrder.DispatchOrderIsComplete | da/queue.py:342-360 | every job of the batch has been dispatched or comes after all dispatched ones, and with an empty ring all have been |
| PollPacer.PollBudget | da/client.py:702-708 | the setting itself from 1 to the maximum, the nearer of the two outside, and the default when unset |
| PollPacer.Pacer.Acquire | da/client.py:722-734 | the reserved slot and the next one, or neither when the slot is past the deadline |
| PollPacer.RateIsBounded | da/client.py:711-740 | any half-open minute holds at most B reserved slots over any sequence of reservations and push-outs of all threads |
| PollPacer.PushOutHoldsEveryone | da/client.py:736-740 | no slot reserved after a push-out lies before its time |
| PollPacer.SlotIsEarliest | da/client.py:722-740 | a reserved slot is the earliest time not before now that lies after every push-out and a spacing after every earlier slot; a refusal means that time is past the deadline |
| PollPacer.ThrottleWait | da/client.py:773-780 | the wait after a 429 lies between one second and sixty-six, and follows a Retry-After within its clamp up to ten percent |
| PollPacer.BackoffGrows | da/client.py:773-780 | without a Retry-After the wait never falls as the streak grows |
| PollPacer.WaitIs | da/client.py:773-780 | the wait is Retry-After within a second and a minute, or 2, 4, 8, 16, 32 and then 60 seconds by the streak, with at most a tenth on top |
| PollPacer.NextWaits | da/client.py:806-815 | after a throttled answer the next request waits out the wait of its streak, or until the deadline |
| PollPacer.PollWorkitem | da/client.py:783-826 | the poll ends after at most timeout times B / 60 plus one requests whatever answers arrive, with the last unfinished status and the throttled mark; every slot lies within the time-out, and after every throttled answer before the deadline the shared slot lies past the wait of its streak or at the deadline |
| DeclaredStyles.Scanner.KeepRecord | engine/export_fidelity.py:601-621 | the record, its index entry and the open sequence, or the error |
| DeclaredStyles.Scanner.BeginKind | engine/export_fidelity.py:627-648 | section, block, owner and record state after a group 0 |
| DeclaredStyles.Scanner.AttachValue | engine/export_fidelity.py:649-656 | a section name, a block name, or the first value of a style group |
| DeclaredStyles.DeclaredRecords | engine/export_fidelity.py:577-658 | the loop computes the fold over the pairs and stops at the first error |
| StyleValues.IntReadsBack | engine/export_fidelity.py:534-538 | every integer is read back from its decimal form |
| StyleValues.StyleIgnoresCase | engine/export_fidelity.py:527-531 | the case of layer, linetype and text style names changes neither a style nor a refusal |
| StyleValues.ColorsAgreeIff | engine/export_fidelity.py:550-559 | two accepted records have the same colour if and only if both declare true colours of equal low 24 bits, or neither does and their indexed colours have equal magnitude, an absent one being 256 |
| StyleValues.StyleMeans | engine/export_fidelity.py:541-574 | layer, linetype, lineweight, text style and colour of an accepted record, each as its group declares it or its default |
| StyleValues.RefusedFor | engine/export_fidelity.py:541-574 | a record is refused for its first bad value: colour, lineweight, layer, linetype, then text style |
| StyleValues.UpperIs | engine/export_fidelity.py:527-531 | upper case puts the capital for every small letter and leaves all else alone |
| StyleValues.NumberIff | engine/export_fidelity.py:534-538 | a text is read as a number if and only if it is digits with single underscores only between them, after at most one sign |
| StyleValues.HandleIff | engine/export_fidelity.py:122-124 | the handle is group 5 in upper case if that is a hexadecimal number, and there is none otherwise |
| StyleValues.AbsentMeansDefault | engine/export_fidelity.py:541-574 | writing out the default of every absent value changes neither the style nor a refusal |
| StyleAccept.AcceptedIff | engine/export_fidelity.py:577-658 | a file is accepted if and only if its lines pair up, every group code is a number, every record of the two sections declares values in their ranges, and no two of those records share a handle |
| StyleRefusal.RefusalIsTrue | engine/export_fidelity.py:577-658 | a refused file has the fault it is told of: lines that do not pair up, a code that is no number, a record whose first bad value is of the named property, or two records of the named handle |
| StyleScan.HeadIs | engine/export_fidelity.py:577-658 | the open sequence is headed by record i if and only if i is a POLYLINE or INSERT followed only by its own VERTEX or ATTRIB records |
| StyleScan.ScanIsDeclared | engine/export_fidelity.py:577-658 | an accepted drawing holds exactly the records the two sections start, in file order, each with its section and block, the first value of every style group and its declared style on its owner's layer where it names none; owners do not reach across boundaries, and handles are distinct and indexed exactly |
| StyleMatch.PairingIsInjective | engine/export_fidelity.py:686-715 | no output record answers for two source records |
| StyleMatch.PairingKeepsOrder | engine/export_fidelity.py:703-715 | records without a handle are answered for in their own order within a group |
| StyleMatch.Candidates | engine/export_fidelity.py:686-689 | for every group, the free output records in order |
| StyleMatch.Compare | engine/export_fidelity.py:686-734 | the loops compute the receipt of the pairing: verdict, counts, failure tally and the first twenty notes |
| StyleMatch.CompareDeclaredStyles | engine/export_fidelity.py:670-734 | the receipt of two files, or the refusal of the first one that cannot be scanned |
| StyleMatch.TallyTotals | engine/export_fidelity.py:695-734 | the failure counts add up to the number of notes, and none exist exactly when there are no notes |
| StyleMatch.OkIff | engine/export_fidelity.py:703-734 | the verdict is good if and only if every source record has a counterpart equal on all the properties it declares |
| StyleFacts.LayerIs | engine/export_fidelity.py:601-621 | a record sits on the layer it names, else on that of the open sequence it belongs to, else on layer 0 |
| StyleFacts.KeyedCounterpartIff | engine/export_fidelity.py:703-715 | what answers for a record with a handle is the output record of that handle |
| StyleFacts.BareCounterpartIff | engine/export_fidelity.py:686-715 | what answers for one without is the free output record of its section, block and type that as many free ones precede as bare records of that place precede it |
| StyleFacts.PreservedIff | engine/export_fidelity.py:670-734 | two files compare as preserved if and only if both scan and every source record has a counterpart with equal layer, colour, linetype, lineweight and, for text, text style, each by its declared value or default |
| StyleMatch.RecordsAreConserved | engine/export_fidelity.py:703-734 | matched, missing and changed records add up to the source records |
| StyleMatch.MissingIsCounted | engine/export_fidelity.py:716-718 | the count under "missing" is the number of records nothing answers for |
| StyleNotes.MismatchIsCounted | engine/export_fidelity.py:695-725 | the count under a property is the number of records answered for by one that differs on it |
| StyleNotes.NoteIff | engine/export_fidelity.py:695-725 | a note is made if and only if it is true of some record: that nothing answers for it, or one property that differs, as it was and as it is now |
| StyleNotes.ReceiptIs | engine/export_fidelity.py:726-734 | the receipt counts the source records and all notes, and lists the first twenty of them |
| StyleNotes.NotesInOrder | engine/export_fidelity.py:703-725 | the notes come record by record in source order |
| StyleNotes.ListedNoteIsTrue | engine/export_fidelity.py:695-725 | every listed note names a source record and is true of it and of what answers for it |
| StyleNotes.LabelIs | engine/export_fidelity.py:661-668 | a label is the handle, or the record's section, block and type and how many without a handle precede it there |
| StyleNotes.LabelsAreDistinct | engine/export_fidelity.py:661-668 | no two records of an accepted drawing share a label |
| StyleMatch.SelfCounterpart | engine/export_fidelity.py:686-715 | in an accepted drawing every record answers for itself |
| StyleMatch.DrawingMatchesItself | engine/export_fidelity.py:670-734 | any file the scanner accepts, compared with itself, is good with every record matched |
| ArbitraryAxis.DividesByZeroIff | da/intake_parse.py:20-32 | for any normal at all, the transform divides by zero if and only if the normal is vertical in y and shorter than 1/64 |
| ArbitraryAxis.UnitNormalNeverDividesByZero | da/intake_parse.py:20-32 | never on a unit normal, in either branch |
| ArbitraryAxis.AxesAreOrthonormal | da/intake_parse.py:20-32 | on a unit normal the three axes are orthonormal |
| ArbitraryAxis.ToWorldIsIsometry | da/intake_parse.py:20-32 | squared distances between any two points are kept and (0, 0, 1) goes to the normal |
| ArbitraryAxis.FrameIsTheDeclaredOne | da/intake_parse.py:20-32 | the frame is right-handed and its x axis is the unit vector along the cross product of the reference axis with the normal |
| ArbitraryAxis.RoundTrip | da/intake_parse.py:20-32 | the point is recovered from its image by products with the axes |
| PercentCodec.Encode | da/lisp.py:122 | the loop over characters computes the encoding |
| PercentCodec.ReplaceDecodesOne | da/intake_parse.py:141-144 | while '%' is still encoded, one whole-text replacement decodes one special character and no other |
| PercentCodec.RoundTrip | da/intake_parse.py:141-144 | the four replacements undo the encoder on every text, also where it already spells an escape |
| PercentCodec.EncodedCharacters | da/lisp.py:122 | an encoding holds no bar, carriage return or line feed, and otherwise the text's own characters |
| PercentCodec.RowRoundTrip | da/intake_parse.py:192-196 | a row of encoded names and plain fields, cut at its bars, gives back its tag and its fields |
| PercentCodec.LinesRoundTripIff | da/intake_parse.py:70-94 | a text reads back line by line if and only if no line holds a line end of its reader |
| PercentCodec.CatalogueLinesIff | da/intake_parse.py:70-94 | the catalogue reads back from a file always, and from text if and only if no field holds one of the other line ends |
| PercentCodec.FormFeedSplitsItsRow | da/intake_parse.py:94 | a block named by a form feed is split on the text reader |
| PercentCodec.CatalogueRoundTrip | da/intake_parse.py:391-415 | under that condition every line parses to the tag and fields it was written from |
| RampBudget.Summarise | da/aps_concurrency_ramp.py:79-100 | the level's charge: nothing without an id, the worst case without a billed time, the billed time otherwise |
| RampBudget.Ramp.RunLevel | da/aps_concurrency_ramp.py:218-225 | one level is turned away without a trace or admitted with its limit and charged |
| RampBudget.Ramp.Run | da/aps_concurrency_ramp.py:218-292 | levels, stop reason, cumulative charge and overrun of the whole loop, its exception path included |
| RampBudget.PlayFollows | da/aps_concurrency_ramp.py:218-284 | the levels run are the first ones requested, and the stop reason is the true one |
| RampBudget.SpendCapMeansTooLittle | da/aps_concurrency_ramp.py:219-223 | a ramp that stops for the budget could not have paid for the shortest limit of the next level |
| RampBudget.ReserveFits | da/aps_concurrency_ramp.py:219-220 | an admitted level can be paid for in full at its limit and allowance |
| RampBudget.LimitIsLongest | da/aps_concurrency_ramp.py:219-220 | the limit is the longest that fits: any longer one within ten minutes could not be paid for |
| RampBudget.OnlyLastLevelOverruns | da/aps_concurrency_ramp.py:218-292 | before every level less than the budget is spent, and at the end at most the budget plus the price of the last level's excess time |
| RampBudget.RampKeepsBudget | da/aps_concurrency_ramp.py:218-292 | for every request, rate and course of events the budget is kept if the last level's items kept limit and allowance, and otherwise overrun by their excess at most |
| RampBudget.ChargeCoversActual | da/aps_concurrency_ramp.py:79-87 | the charge never understates a level whose unpolled items kept limit and allowance, and is exact once all are polled |

## Left out

- LegacyRuns.RunKeepsInv: covers one drawing from its ingest to its purge on a backend that excludes other processes; the object-store backend declares that it does not, and the purge itself is not modelled.
- LegacyStore.Drawing.PutDrawing: does not model graph bundles, mutation plans, notes and timestamps in the manifest, or a manifest whose JSON is damaged.
- LegacyStore.Drawing.IngestDrawing: does not model the guarded upload path, a caller's precondition, the retirement of the lock file after a failure or the choice of the drawing's identifier.
- LegacyStore.Drawing.UndoHead: does not model a graph bundle of the version moved to that cannot be verified, which also refuses the move.
- LegacyStore.Drawing.RedoHead: does not model a graph bundle of the version moved to that cannot be verified.
- LegacyRuns.RedoSucceedsIffBehind: is for versions whose graph bundles, if any, verify.
- LockFile.MutualExclusion: is for POSIX locks; the Windows branches rest on share modes of the operating system.
- PgRuns.RunKeepsInv: takes every transaction to be atomic and serial; the guarded upload ingest and the graph bundle check are not modelled, and the blob store is taken to be write-once per key only as far as the code checks it.
- PgStore.Database.ReserveVersion: does not model the lookup of an earlier apply of the same graph bundle.
- PgStore.Database.UndoHead: does not model a graph bundle of the parent that cannot be verified.
- PgStore.Database.RedoHead: does not model a graph bundle of the target that cannot be verified.
- PgRuns.UndoSucceedsIffNotRoot: is for versions whose graph bundles, if any, verify.
- PgRuns.RedoSucceedsIffAncestor: is for versions whose graph bundles, if any, verify.
- GuardedRuns.SectionsAreAtomic: takes a slot walk as one step and a blob or manifest write as atomic, as the replacing file write makes it.
- Annotations.Database.CreateBatch: takes transactions one at a time, so the insert that loses to a concurrent one is not modelled, and takes identity, binding and session lookups as given facts, and the request fingerprint to be injective.
- FairGateRuns.CeilingHoldsAndNoSlotIsLost: fixes the ceiling, which the code lets change only while idle.
- FairQueueOrder.DispatchOrderIsSorted: is for a batch enqueued up front on a fresh queue; jobs added to a drained queue, results and failures of runners are not modelled.
- PollPacer.RateIsBounded: fixes the budget and takes time as a real number; the reset used by tests is not modelled.
- DeclaredStyles.DeclaredRecords: takes lines already decoded and stripped, upper-cases ASCII letters only, reads ASCII digits only, and leaves out the size limit.
- StyleValues.StyleIgnoresCase: is for the case of ASCII letters.
- StyleValues.UpperIs: is for ASCII letters.
- StyleMatch.Compare: keeps labels, values and messages of a note as data instead of formatted text.
- StyleMatch.CompareDeclaredStyles: keeps the reason of a refusal as data instead of formatted text.
- ArbitraryAxis.ToWorldIsIsometry: is over the real numbers with the square root given; floating-point rounding and the rounding of results to three places are not modelled.
- PercentCodec.CatalogueRoundTrip: gives back the texts of plain fields; the numbers in them, the checks on them and the block children built from them are not modelled.
- RampBudget.Summarise: leaves out the counts and percentiles of a level.
- RampBudget.Ramp.Run: takes as given which items come back, whether the error and queue thresholds stop the ramp and where an exception strikes; percentiles and counts are not modelled.
- HTTP, object storage and Design Automation calls, tokens, signed addresses and provisioning: network plumbing.
- The AutoLISP mutation interpreter: its meaning rests on AutoCAD commands that are not visible.
- Usage, reaping, redaction, billing statements and cost synchronisation: filters and sums that would only add easy members.
- Geometry and intake comparison in the export fidelity tool, and DXF intake parsing.
