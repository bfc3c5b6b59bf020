# Verified model of commit-ci-preflight

This Dafny project models the parts of commit-ci-preflight whose correctness is hard to
see: the crash-safe promotion of cache generations, the host-wide admission queue, the
normalization of a configuration into a canonical execution plan, the bounded walk and
copy of cache payloads, and the YAML event scanner. `dafny verify dfyconfig.toml` checks
all of it.

## What is modelled

**Cache generations** (`CacheDisk`, `CachePromotion`, `CacheRecovery`, `CacheRefusals`,
`ManagedCache`).
An entry on disk has a payload, a backup, a staging directory, a manifest and a marker; a
journal lists the entries of one promotion. Every filesystem call is a step. A crash may
strike between two steps and leave the debris of the call in progress: a payload only
partly removed, a manifest, marker or journal only partly written. Recovery, and crashes
inside recovery, are steps like any other. `ManagedCache` is the code of promotion and
recovery over this disk; each call it makes extends a ghost run of the transition system,
so everything proved about runs holds of it.

**Admission** (`AdmissionLimits`, `AdmissionProtocol`, `AdmissionSafety`,
`AdmissionTheorems`, `AdmissionLeases`, `AdmissionRecreation`, `AdmissionGrant`,
`AdmissionRelease`, `AdmissionScan`, `TicketIds`, `DurableFs`). Any number of processes share
the queue lock, the slot lock, one lock per ticket, the ticket and lease directories and the
ticket counter. Every call another process can observe is a step, including the heartbeat's
unlocked read and write. A crash frees the locks of a process and leaves its files. The
clock is arbitrary. Beside what no run can do, `AdmissionGrant` and `AdmissionRelease` say
what a process can achieve by its own steps.

**Reconciliation** (`Reconciliation`, `ReconciliationApply`). The preview, the validation
that apply performs, and the apply loop with a fault schedule for every filesystem call.

**Plans** (`ConfigModel`, `CheckGraph`, `CheckOrder`, `PathIsolation`, `PlanSpec`,
`PlanNormalization`, `PlanEnvironment`, `IntoPlan`, `PlanCanonicality`, `PlanIsolation`,
`PlanFields`). `PlanSpec` says what the plan of a configuration is without saying in which order the
declared lists are read, and `PlanFields` what that means for each field; the methods are
the loops of the source and are proved to compute exactly that. Digests are uninterpreted functions that may fail.

**Payloads** (`PayloadTree`, `PayloadWalk`). A filesystem is a table of objects by path;
the walk and the copy recurse over it, and a fault schedule says which calls fail.

**YAML events** (`YamlScan`). The stack machine over parser events, and node trees.

`Order` and `Common` hold the string order, ascending sequences, `Option`, `Result` and what
else several models share.

## Where a promise does not hold as it stands

- A removed lease can come back. When a guard gets the queue lock neither in `release` nor
  in its `Drop`, its fields are dropped in declaration order, which frees the ticket lock
  and the slot before the heartbeat stops (src/admission.rs:2005-2012, 2081-2085); a later
  scan or a reconciliation may then remove the lease while the heartbeat has read it and not
  yet written it back. `RecreationNeedsAbandon`: in every run, a heartbeat write that
  recreates a lease comes after its own guard was abandoned in this way, so as long as
  `release` or `Drop` gets the queue lock no write recreates one.
  `RecreationIsPossibleExactly`: from a state of a run with a guard, the recreation is
  possible if and only if the heartbeat is alive, there is another process, and no ticket in
  the directory is stuck, that is, has a lease that does not decode and nobody left who
  writes it or removes the ticket. `RemovedLeaseComesBack` is a complete run from the
  initial state, and `GuardBesideStuckTicket` one to a guard that cannot recreate its lease.
- Recovery refuses more than a first-time entry whose payload has moved in without a
  marker. It refuses a journal larger than one mebibyte, which creation does not check. It
  also refuses an entry whose earlier rollback was interrupted after the payload was renamed
  back and before its files were restored. `RecoveryOutcome` gives the exact condition,
  `RollbackWindow` and `RollbackInterrupted` the exact calls, and the debris inside them,
  that lead to it, and `FirstRecoveryRefusal` shows that before any recovery has begun only
  the first-time case remains. `OversizedJournalIsRefused` and
  `InterruptedRollbackIsRefused` build such a run for every entry it can happen to, and
  `RecoveryFailsSomewhere` concrete ones.
- Restoring a first-time entry deletes its manifest, so the previous manifest bytes come
  back exactly when the entry had data or had no manifest (`RestoredExactly`);
  `FirstTimeManifestIsLost` is a run to every such loss.

## Model

| member | source | states |
|---|---|---|
| `CachePromotion.ShapeIsCoherent` | src/cache.rs:643-748 | every shape a journaled entry can take keeps data and manifest of one generation together whenever validation would accept it |
| `CachePromotion.ShapeKeepsOld` | src/cache.rs:653-664 | in every such shape the previous payload is at `data` or at the backup, unless the new generation is installed |
| `CachePromotion.PromotionIsSafe` | src/cache.rs:643-671 | from a prepared entry, every prefix of the promotion calls, with any debris of an interrupted call, leaves a shape recovery can deal with, and the whole sequence installs the new generation |
| `CachePromotion.LandingIsSafe` | src/cache.rs:660-664 | the same for the calls after the old payload was moved aside |
| `CachePromotion.MarkingIsSafe` | src/cache.rs:663-664 | the same for moving the manifest in and writing the marker |
| `CachePromotion.CleanupIsSafe` | src/cache.rs:673-681 | removing backup and staging of an installed entry never endangers it, wherever it is interrupted |
| `CachePromotion.RollbackIsSafe` | src/cache.rs:724-732 | rolling an entry back keeps the previous payload reachable at every interruption and ends tidy |
| `CachePromotion.RestoringIsSafe` | src/cache.rs:729-732 | the same for the second half, from the rename of the backup on |
| `CachePromotion.RecoveryIsSafe` | src/cache.rs:712-745 | whatever plan recovery chooses for a reachable entry can be interrupted anywhere |
| `CachePromotion.RollForwardIsSafe` | src/cache.rs:719-723 | the roll-forward of an already complete entry can be interrupted anywhere |
| `CachePromotion.Prepare` | src/cache.rs:456-535 | preparing the journaled entries sets exactly their staging directories |
| `CachePromotion.BeginKeepsInv` | src/cache.rs:561-623 | writing a complete journal establishes the invariant of a promotion |
| `CachePromotion.BeginTornKeepsInv` | src/cache.rs:1135-1149 | a journal torn by a crash leaves all entries as they were |
| `CachePromotion.BeginRecoveryKeepsInv` | src/cache.rs:683-711 | starting recovery keeps the invariant |
| `CachePromotion.CallKeepsInv` | src/cache.rs:643-748 | every successful call of any procedure keeps the invariant |
| `CachePromotion.InterruptKeepsInv` | src/cache.rs:643-748 | every crash or failed call, with its debris, keeps the invariant |
| `CachePromotion.AdvanceKeepsInv` | src/cache.rs:643-748 | going on to the next record, to finalization, or removing the journal keeps the invariant |
| `CachePromotion.DropKeepsInv` | src/cache.rs:1036-1065 | dropping a prepared entry keeps the invariant |
| `CachePromotion.DropTornKeepsInv` | src/cache.rs:1036-1065 | so does dropping one after its journal could not be written completely |
| `CachePromotion.NextKeepsInv` | src/cache.rs:545-748 | every step keeps the invariant |
| `CachePromotion.RunKeepsInv` | src/cache.rs:545-748 | every state of every run satisfies the invariant |
| `CachePromotion.NoMixedGenerations` | src/cache.rs:966-1011 | in every reachable state, an entry that validation would accept has intact data and a manifest of the same generation, even when two generations have identical manifest bytes |
| `CachePromotion.JournalStays` | src/cache.rs:683-748 | a step never changes an existing journal except by removing it |
| `CachePromotion.BaseIsHistory` | src/cache.rs:561-623 | the state a promotion is compared with is the actual disk just before its journal was written |
| `CachePromotion.LastKnownGood` | src/cache.rs:653-737 | in every state under a journal, the payload an entry had before the journal is at `data` or at the backup, until the new generation is completely installed and accepted; entries outside the journal are unchanged |
| `CacheRecovery.RecoverEntry` | src/cache.rs:712-745 | recovery of a reachable entry refuses exactly in the two stuck cases, otherwise yields exactly the new generation or exactly the restored one |
| `CacheRecovery.ApplyCleanup` | src/cache.rs:719-723 | the roll-forward calls all succeed and remove backup and staging only |
| `CacheRecovery.ApplyRollback` | src/cache.rs:724-732 | the rollback calls all succeed and restore payload, manifest and marker bytes |
| `CacheRecovery.ApplyEmptying` | src/cache.rs:738-741 | what a first-time entry left behind is removed and nothing else |
| `CacheRecovery.SettleFrom` | src/cache.rs:683-748 | the loop settles the records in order up to the first it refuses and touches nothing else |
| `CacheRecovery.DecideRecord` | src/cache.rs:712-745 | in a crashed state only the record at the front of the promotion can be stuck; records before it are installed, records after it are not |
| `CacheRecovery.FirstRecoveryRefusal` | src/cache.rs:1172-1206 | before any recovery has begun, recovery is stuck exactly at a first-time entry with its data moved in and its marker not complete |
| `CacheRecovery.RecoveryOutcome` | src/cache.rs:683-748 | uninterrupted recovery of any reachable crash either refuses, exactly when the journal is too large or a record is stuck, and keeps the journal, or removes the journal with the first k entries exactly new and the rest exactly restored, staging and backups gone; other entries are untouched |
| `CacheRecovery.RestoredExactly` | src/cache.rs:724-741 | the restored entry equals the entry before the journal if and only if it had data or had no manifest |
| `CacheRecovery.RolledBackIs` | src/cache.rs:724-732 | what an entry is after each prefix of the rollback calls |
| `CacheRecovery.RollbackWindow` | src/cache.rs:724-737 | between the calls of a rollback, an interruption makes the next recovery refuse exactly after the rename of the backup and before the restoration of the files the entry had |
| `CacheRecovery.RollbackInterrupted` | src/cache.rs:724-737 | the same for the debris of an interruption inside any of the seven calls |
| `CacheRefusals.OversizedJournalIsRefused` | src/cache.rs:688-690 | for every entry and record, a run whose journal is over the limit crashes into a refused recovery |
| `CacheRefusals.InterruptedRollbackIsRefused` | src/cache.rs:724-737 | for every entry with a payload and a marker or a manifest, a run from the initial state through an interrupted rollback ends in a refused recovery |
| `CacheRefusals.FirstTimeManifestIsLost` | src/cache.rs:738-741 | for every entry without a payload but with a manifest, a run after which recovery succeeds and the manifest is gone |
| `CacheRefusals.RecoveryFailsSomewhere` | src/cache.rs:683-748 | concrete runs for all three |
| `CacheRecovery.EntryIgnoresStaging` | src/cache.rs:712-745 | what recovery makes of an entry does not depend on its staging directory |
| `CacheRecovery.DropsDoNotMatter` | src/cache.rs:1036-1065 | a drop after a failed promotion only hits an entry no call has moved yet; recovery returns the same result with and without it, and the same disk, or one that differs in staging directories at most when it refuses |
| `CacheRecovery.HeldEntryBlocks` | src/cache.rs:704-711 | recovery cannot start while another process holds the lock of any journaled entry |
| `ManagedCache.ManagedCache.constructor` | src/cache.rs:545-559 | a cache without a journal whose entries are quiet starts a run |
| `ManagedCache.ManagedCache.Perform` | src/cache.rs:643-748 | one call has its exact effect unless it is interrupted, and then leaves debris and ends the procedure; a step of the run in both cases |
| `ManagedCache.ManagedCache.CleanUp` | src/cache.rs:673-681 | removes backup and staging of one entry |
| `ManagedCache.ManagedCache.ExecutePromotion` | src/cache.rs:643-671 | makes the promotion calls of every record in the order the safety theorems are about; it stops early only at a failing call, and gets through when none fails |
| `ManagedCache.ManagedCache.FinishedIsNew` | src/cache.rs:673-681 | when finalization is through, every journaled entry is exactly the new generation |
| `ManagedCache.ManagedCache.FinalizePromotion` | src/cache.rs:673-681 | success means every journaled entry is exactly new and the journal is gone, and it succeeds when no call fails; failure keeps the journal |
| `ManagedCache.ManagedCache.RemoveJournal` | src/cache.rs:680-680 | the journal is removed last or stays |
| `ManagedCache.ManagedCache.RollBack` | src/cache.rs:724-732 | success restores payload, manifest bytes and marker bytes and removes backup and staging |
| `ManagedCache.ManagedCache.Unland` | src/cache.rs:726-728 | the first half of a rollback clears payload, marker and manifest |
| `ManagedCache.ManagedCache.Restore` | src/cache.rs:729-732 | the second half renames the backup back and restores both files |
| `ManagedCache.ManagedCache.RestoreFiles` | src/cache.rs:1229-1241 | manifest and marker become their journaled bytes, or go if there were none |
| `ManagedCache.ManagedCache.Empty` | src/cache.rs:738-741 | clears what a first-time entry left behind |
| `ManagedCache.ManagedCache.RecoverOne` | src/cache.rs:712-745 | one record: refused without a change, or transformed exactly as its recovery plan says, or stopped by an I/O error |
| `ManagedCache.ManagedCache.RecoverEntries` | src/cache.rs:712-745 | without faults the loop computes the recovery that the theorems are about |
| `ManagedCache.ManagedCache.LockEntries` | src/cache.rs:704-711 | succeeds exactly when every journaled entry exists and none is held |
| `ManagedCache.ManagedCache.RecoverPromotionLocked` | src/cache.rs:683-748 | never touches held entries, keeps the journal on failure and removes it on success; without faults it is exactly the function `Recover` |
| `ManagedCache.ManagedCache.DropPrepared` | src/cache.rs:1036-1065 | removes at most the staging directory, and only while its manifest says staging with its own identity |
| `ManagedCache.ManagedCache.BuildRecords` | src/cache.rs:561-623 | fails exactly on a repeated entry; otherwise one record per prepared entry, in order, whose every field is the identity, the new generation and the marker, manifest and payload found on disk |
| `ManagedCache.ManagedCache.WriteJournal` | src/cache.rs:1135-1149 | a complete journal records the disk before it; a torn one is left when the write is interrupted |
| `ManagedCache.ManagedCache.PromoteRecords` | src/cache.rs:545-559 | execution and finalization: success means all new and no journal, and it succeeds when no call fails; failure keeps the journal |
| `ManagedCache.ManagedCache.PromoteEntries` | src/cache.rs:545-559 | an empty list changes nothing; completion means every prepared entry has its own new payload, manifest and marker, no journal is left and, when there was none before, no other entry changed; distinct entries, a recovery that succeeds and no failing call always lead to completion |
| `ManagedCache.ManagedCache.JournalAndPromote` | src/cache.rs:545-559 | the same after recovery, from building the records on |
| `AdmissionSafety.OthersKeepInv` | src/admission.rs:527-607 | a step that respects the locks keeps what every other process relies on |
| `AdmissionSafety.GoodKeepsInv` | src/admission.rs:527-607 | such a step keeps the invariant of the coordinator |
| `AdmissionTheorems.AcquireIsGood` | src/admission.rs:527-607 | every step of scanning, reclaiming, creating a ticket, taking the slot and activating respects the locks |
| `AdmissionTheorems.CloseIsGood` | src/admission.rs:2023-2168 | every step of release, cleanup, drop and abandonment respects the locks |
| `AdmissionTheorems.OtherIsGood` | src/admission.rs:197-233 | heartbeats, reconciliation and crashes respect the locks |
| `AdmissionTheorems.StepKeepsInv` | src/admission.rs:527-607 | every step of every process keeps the invariant |
| `AdmissionTheorems.RunKeepsInv` | src/admission.rs:527-607 | every state of every run, with any number of processes, crashes, timeouts and cancellations, satisfies the invariant |
| `AdmissionTheorems.OneGuard` | src/admission.rs:562-607 | at most one process holds a guard |
| `AdmissionTheorems.LiveTicketStays` | src/admission.rs:1357-1483 | the ticket of a live waiter or holder is never reclaimed and stays locked by it |
| `AdmissionTheorems.ServedInOrder` | src/admission.rs:562-602 | when a ticket is granted no smaller ticket exists, so no live waiter is overtaken |
| `AdmissionTheorems.OneActiveLease` | src/admission.rs:1617-1627 | at most one ticket in the tickets directory has an active lease |
| `AdmissionTheorems.DirectoryBounded` | src/admission.rs:1369-1375 | the tickets directory never holds more than 1024 entries |
| `AdmissionTheorems.IdsIncrease` | src/admission.rs:1277-1344 | issued ids strictly increase and stay below the counter |
| `AdmissionTheorems.OwnFilesOnly` | src/admission.rs:1214-1275 | no two processes ever have the same ticket id |
| `AdmissionTheorems.BeatFindsLease` | src/admission.rs:197-233 | while its process still has its ticket, a heartbeat in progress finds its active lease, so its write recreates nothing |
| `AdmissionTheorems.AbandonedBeatRecreatesLease` | src/admission.rs:2023-2085 | where reconciliation can begin (another process idle, the queue lock free, every lease decoding and having its ticket), an abandoned guard whose heartbeat is between read and write writes a removed lease again |
| `AdmissionTheorems.RemovedLeaseComesBack` | src/admission.rs:2081-2085 | a concrete run of 24 steps from the initial state in which a removed lease comes back |
| `AdmissionTheorems.GuardRun` | src/admission.rs:527-607 | an uncontended acquire, step by step from the initial state to a guard with its heartbeat |
| `AdmissionGrant.RunKeepsQueued` | src/admission.rs:1253-1274 | in every state of every run, a process that waits or scans for its turn has a decodable queued lease |
| `AdmissionGrant.ScanOn` | src/admission.rs:1357-1471 | a scan alone gets through a directory it can judge and finds exactly the live and the stale tickets |
| `AdmissionGrant.GrantIsPossibleExactly` | src/admission.rs:542-602 | from a state of a run, a waiting process can come to hold its guard by its own steps if and only if the queue lock and the slot are free, every older ticket is stale and every other ticket is locked or has a lease that decodes or none; tickets behind it do not matter |
| `AdmissionGrant.EnqueueIsPossible` | src/admission.rs:530-542 | from a state of a run, an idle process with the queue lock free, every ticket judgeable, fewer than 1024 live tickets and ids left comes by its own steps to wait with the next id, its ticket locked and its lease queued; of the other tickets exactly the stale ones are gone |
| `AdmissionRelease.NothingLeft` | src/admission.rs:2023-2168 | in every run, a release, a cleanup or a dropped reservation none of whose removals fails ends with ticket, lease, heartbeat and every lock of the process gone |
| `AdmissionRelease.ReleaseIsPossible` | src/admission.rs:2023-2079 | a guard that finds the queue lock free can be released by its own steps, which removes its files and locks and changes nothing else |
| `AdmissionRelease.ReservationEnds` | src/admission.rs:2095-2168 | so can a reservation, by cleanup under the queue lock or by its drop without it |
| `AdmissionRelease.ReconciliationIsPossible` | src/admission.rs:786-1097 | where its validation passes, a reconciliation removes one unlocked ticket with its lease and changes nothing else |
| `AdmissionLeases.RunKeepsTorn` | src/admission.rs:1214-1275 | in every state of every run, only a process that has just created its lease has one that does not decode, and no scan that got past a ticket and no reconciliation has met one |
| `AdmissionLeases.OnlyExposedBeatsRecreate` | src/admission.rs:197-233 | a heartbeat write that recreates a lease belongs to a guard whose fields are being dropped and whose ticket is already unlocked |
| `AdmissionLeases.AbandonedBefore` | src/admission.rs:2081-2085 | a guard is dropped field by field only after neither release nor drop got the queue lock |
| `AdmissionLeases.RecreationNeedsAbandon` | src/admission.rs:2023-2085 | for every run: a heartbeat write that recreates a lease comes after its own guard was abandoned |
| `AdmissionRecreation.StuckStays` | src/admission.rs:1396-1466 | a ticket whose lease does not decode and that nobody repairs stays so whatever any process does |
| `AdmissionRecreation.OwnerRemoves` | src/admission.rs:1473-1483 | while such a ticket exists, nobody removes a lease but its owner |
| `AdmissionRecreation.RecreationIsPossible` | src/admission.rs:2005-2085 | without such a ticket and with another process, any guard with its heartbeat can come to recreate its lease, whoever holds the queue and whatever the directories contain |
| `AdmissionRecreation.RecreationIsPossibleExactly` | src/admission.rs:2005-2085 | from a state of a run with a guard, the recreation is possible if and only if the heartbeat is alive, there is another process and no ticket is stuck |
| `AdmissionRecreation.GuardBesideStuckTicket` | src/admission.rs:1214-1275 | a run to a guard beside a stuck ticket |
| `AdmissionScan.ScanTickets` | src/admission.rs:1357-1471 | for any listing: fails at the first entry it cannot deal with or beyond the limit, with that reason; otherwise every ticket is stale or live, stale exactly when unlocked with no lease or one 30 seconds old, each list ascending, and exactly the reclaimable debris is quarantined |
| `AdmissionScan.ProtocolJudgesAlike` | src/admission.rs:1432-1466 | the protocol judges a ticket as the scan does: stale exactly when it is unlocked, not our own, and has no lease or one whose heartbeat is 30 seconds old |
| `TicketIds.TextRoundTrip` | src/admission.rs:1305-1343 | reading back the digits of a number gives the number |
| `TicketIds.TextOrder` | src/admission.rs:1277-1344 | fixed-width digits order as strings exactly as the numbers |
| `TicketIds.IdTextOrder` | src/admission.rs:1277-1344 | twenty digits are enough for every 64-bit id, so ordering ticket file names orders the queue |
| `TicketIds.TicketNameRoundTrip` | src/admission.rs:2499-2510 | the id is read back from the ticket's file name, which is never taken for a staging file |
| `TicketIds.NextTicketId` | src/admission.rs:1277-1344 | the new id exceeds the counter and every ticket present; each error occurs exactly in its case, exhaustion included |
| `DurableFs.Directory.CreateNew` | src/durable_fs.rs:90-102 | never overwrites; success holds all bytes; a crash leaves at most a part of the new file |
| `DurableFs.Directory.AtomicReplace` | src/durable_fs.rs:104-138 | the file has its old or its new content at every crash, and a temporary file stays only after a crash |
| `Reconciliation.Preview` | src/admission.rs:654-784 | reports every ticket once, in ascending order, with its classification, exactly when everything it must read is in order |
| `Reconciliation.ReadTickets` | src/admission.rs:694-770 | the loop over the directory listing, for any order of the listing |
| `Reconciliation.ApplyAcceptsWhatPreviewOffers` | src/admission.rs:856-910 | on a state preview can report, apply accepts a selection exactly when the lease namespace is in order and preview calls every selected ticket eligible |
| `Reconciliation.StillPasses` | src/admission.rs:862-910 | after leases and tickets have been removed in that order and time has passed, the remaining selection still passes validation |
| `ReconciliationApply.ShrunkIsRestartable` | src/admission.rs:963-1083 | every state apply can leave passes validation again for the selected tickets still present, at any later time |
| `ReconciliationApply.StepProgress` | src/admission.rs:963-1083 | one processed ticket extends the prefix of quarantined ones and touches nothing else |
| `ReconciliationApply.StoppedIsHonest` | src/admission.rs:939-1083 | a stopped apply reports a quarantined prefix, one item as it is, and the rest as not attempted |
| `ReconciliationApply.FinishedIsHonest` | src/admission.rs:1084-1097 | a finished apply reports every selected ticket as quarantined, and each is |
| `ReconciliationApply.Coordinator.ApplyOne` | src/admission.rs:963-1083 | with a fault at any call, the label says where ticket and lease are and which fault or taken name stopped it, so without one the ticket is quarantined; only this ticket's files change |
| `ReconciliationApply.Coordinator.RemoveLease` | src/admission.rs:966-1019 | removes the lease if there is one, or stops with the label of the failing call |
| `ReconciliationApply.Coordinator.MoveTicket` | src/admission.rs:1021-1083 | moves the ticket to its quarantine name, or stops with the label of the failing call or of a taken name |
| `ReconciliationApply.Coordinator.Canonicalize` | src/admission.rs:800-805 | rejects exactly the selections with a repetition, otherwise sorts |
| `ReconciliationApply.Coordinator.Validate` | src/admission.rs:786-938 | accepts exactly the selections and states that are in order, every ticket present, unlocked and well-formed with its lease absent or expired, and changes nothing |
| `ReconciliationApply.Coordinator.ValidateLeases` | src/admission.rs:1890-2002 | accepts exactly when every lease is valid, expired and has its ticket |
| `ReconciliationApply.Coordinator.Stop` | src/admission.rs:940-961 | completes the outcomes with the stopping label and not attempted for the rest |
| `ReconciliationApply.Coordinator.ApplyAll` | src/admission.rs:939-1083 | a refusal changes nothing; otherwise the outcomes are true of the disk and only selected tickets changed; without faults and with free names it finishes |
| `ReconciliationApply.Coordinator.Apply` | src/admission.rs:786-1097 | the outcomes list the sorted selection truthfully; unselected tickets, the counter and earlier quarantine files are unchanged; any error other than a partial one means nothing changed; every final state is restartable; a selection that passes validation is reported quarantined when no call fails and the quarantine names are free |
| `CheckGraph.GreedyIsLeast` | src/config.rs:669-687 | always popping the least ready check gives the lexicographically least execution order |
| `CheckGraph.OrderedReachesNoCycle` | src/config.rs:675-687 | no check that was ordered is on a cycle or depends on one |
| `CheckGraph.OrderIsAcyclic` | src/config.rs:653-697 | a graph with an execution order has no cycle |
| `CheckGraph.BlockedReachesCycle` | src/config.rs:688-695 | every check of a set in which each depends on another of the set reaches a cycle |
| `CheckGraph.LeftoverReachesCycle` | src/config.rs:688-695 | when nothing is ready any more, exactly the checks not ordered reach a cycle |
| `CheckOrder.ValidateDependencies` | src/config.rs:636-651 | accepts exactly graphs without self and unknown dependencies, and names the first bad one |
| `CheckOrder.BuildDependents` | src/config.rs:660-668 | the reverse edges, all of them and no others |
| `CheckOrder.CountDown` | src/config.rs:679-685 | one dependent counted down, ready exactly when nothing is left to wait for |
| `CheckOrder.TopologicalOrder` | src/config.rs:653-697 | succeeds exactly on acyclic graphs with the lexicographically least order, otherwise lists exactly the checks on or depending on a cycle, ascending |
| `PathIsolation.SplitPrefix` | src/config.rs:618-634 | the string-prefix test is the prefix test on segment sequences, for all strings |
| `PathIsolation.SplitJoins` | src/config.rs:618-634 | the segments of a path contain no separator and joined again give the path |
| `PathIsolation.PlainResolves` | src/config.rs:923-938 | a validated path leads to exactly its own segments and never leaves the root |
| `PathIsolation.OverlapIsNesting` | src/config.rs:618-634 | on every validated path the string tests decide whether two locations are equal or nested |
| `PathIsolation.IsolateMounts` | src/config.rs:592-597 | passes exactly when mounts and receipt output are pairwise apart |
| `PathIsolation.IsolateArtifact` | src/config.rs:601-612 | passes exactly when the artifact is apart from everything before it, otherwise names a real overlap |
| `PathIsolation.ValidatePathIsolation` | src/config.rs:587-616 | passes exactly when no two claims of the plan overlap; the error names two that do |
| `PathIsolation.IsolationMeaning` | src/config.rs:587-634 | on validated paths, passing means no location equals or contains another |
| `PlanIsolation.PlanLocationsAreApart` | src/config.rs:321-351 | in every plan, no two of receipt output, mounts and artifacts of all checks are equal or nested |
| `PlanFields.PlanKeepsChecks` | src/config.rs:716-737 | every plan has exactly one check for each declared one, with equal id, required, arguments, directory and timeout, its dependencies and artifacts ascending, and its contracts in declared order with their own path, kind, byte and entry bounds and the producing check |
| `PlanFields.PlanKeepsStorage` | src/config.rs:528-585 | a plan has a storage policy exactly for schema versions 1.2 and 1.3, with each declared bound under its own name and the sum of the contracts' bytes |
| `PlanSpec.CachesUnique` | src/config.rs:451-485 | the normalized caches are determined by the declared ones |
| `PlanSpec.ChecksUnique` | src/config.rs:487-526 | the normalized checks are determined by the declared ones |
| `PlanSpec.EnvironmentUnique` | src/config.rs:830-908 | the normalized environment is determined by the declared one |
| `PlanSpec.PlanUnique` | src/config.rs:321-351 | a configuration has at most one plan |
| `PlanNormalization.UniqueSorted` | src/config.rs:774-790 | succeeds exactly on valid lists without repetition, with the ascending list of the same values; otherwise reports the first offending value |
| `PlanNormalization.NormalizeCaches` | src/config.rs:451-485 | succeeds exactly on acceptable caches, with the same caches ascending by id |
| `PlanNormalization.ValidateCheck` | src/config.rs:699-714 | accepts exactly checks whose id, arguments, directory and timeout are valid |
| `PlanNormalization.ValidateContracts` | src/config.rs:739-772 | accepts exactly distinct contracts on declared artifacts within their bounds |
| `PlanNormalization.SortedCheck` | src/config.rs:503-514 | succeeds exactly on acceptable checks, with their lists sorted |
| `PlanNormalization.IndexChecks` | src/config.rs:502-522 | succeeds exactly when all checks are acceptable and their ids distinct |
| `PlanNormalization.ScheduleChecks` | src/config.rs:524-525 | succeeds exactly on valid acyclic graphs, with the canonical checks in the least order; a cycle error lists exactly the checks that reach one |
| `PlanNormalization.NormalizeChecks` | src/config.rs:487-526 | succeeds exactly when the checks are acceptable and have a schedule, and returns it |
| `PlanEnvironment.NormalizeFixed` | src/config.rs:860-871 | succeeds exactly when every fixed variable is valid and new, with its digests ascending by name |
| `PlanEnvironment.NormalizeInternal` | src/config.rs:872-894 | succeeds exactly when every binding is valid, new and names a cache, with the container paths of the caches |
| `PlanEnvironment.NormalizeLists` | src/config.rs:835-854 | the two name lists and the rules of the schema version |
| `PlanEnvironment.NormalizeEnvironment` | src/config.rs:830-908 | succeeds exactly when every name is valid and declared once in one permitted list, and returns the environment of the plan |
| `IntoPlan.SumArtifacts` | src/config.rs:558-564 | the checked 64-bit sum exists exactly when the true sum fits |
| `IntoPlan.NormalizeStorage` | src/config.rs:528-585 | with 64-bit arithmetic, accepts exactly what unbounded sums would accept |
| `IntoPlan.CompletePlan` | src/config.rs:329-350 | storage, isolation and digest after the lists are normalized: the plan or a justified refusal |
| `IntoPlan.IntoPlan` | src/config.rs:321-351 | returns the plan of the configuration with its digest, or fails exactly when there is no plan or no digest |
| `PlanCanonicality.CanonicalKept` | src/config.rs:503-514 | reordering dependencies and artifacts keeps the canonical check |
| `PlanCanonicality.PlanKept` | src/config.rs:321-351 | a reordered configuration has the same plan |
| `PlanCanonicality.PlanIsCanonical` | src/config.rs:321-351 | reordering caches, checks, dependencies, artifacts, environment lists and bindings changes neither whether the plan exists nor the plan, its digest and the fixed environment |
| `PayloadTree.TreeUnique` | src/cache_payload.rs:93-135 | a path holds at most one tree, so an equal tree at the destination is a faithful copy |
| `PayloadTree.TreeFrame` | src/cache_payload.rs:93-135 | a tree is unaffected by changes elsewhere |
| `PayloadTree.PathsAreObjects` | src/cache_payload.rs:137-184 | the traversal meets exactly the objects at or under its root: it goes through no link |
| `PayloadTree.PathsOnce` | src/cache_payload.rs:137-184 | it meets each of them once, as many as the tree has nodes |
| `PayloadWalk.PayloadFs.Count` | src/cache_payload.rs:143-148 | the counter goes up by one or the limit is reported, overflow included |
| `PayloadWalk.PayloadFs.Walk` | src/cache_payload.rs:137-184 | a successful walk counts every node once, within limit and policy, with the exact bytes and files; an error names what is wrong or a failing call, so a tree that passes and whose sums fit is walked whenever no call at or under it fails |
| `PayloadWalk.PayloadFs.WalkEntries` | src/cache_payload.rs:164-183 | the same for the loop over a directory in ascending order of names |
| `PayloadWalk.PayloadFs.Measure` | src/cache_payload.rs:22-36 | the same for a root that must be a plain directory |
| `PayloadWalk.PayloadFs.CopyNode` | src/cache_payload.rs:93-135 | a successful copy holds an equal tree with links verbatim; nothing outside the destination changes, whatever happens; a tree that passes is copied when no call at or under source and destination fails |
| `PayloadWalk.PayloadFs.CopyEntries` | src/cache_payload.rs:119-134 | the loop over the entries, with the destination holding exactly those copied so far |
| `PayloadWalk.PayloadFs.CopyTree` | src/cache_payload.rs:71-91 | refuses an existing destination without a change; otherwise as for a node, and a directory that passes is copied to an absent destination when no call fails |
| `PayloadWalk.PayloadFs.Reuse` | src/cache.rs:503-516 | once validation has passed, copying under the same policy and limit fails only by a failing call; a directory that passes and whose sums fit is validated and copied when no call fails |
| `YamlScan.RejectIndirection` | src/github_actions.rs:143-243 | computes the stack machine's verdict, a parser failure included, and on the events of whole documents accepts exactly the clean ones |
| `YamlScan.ValueRuns` | src/github_actions.rs:161-229 | the events of any node that is not a key leave the stack as before it, its parent completed, or stop at the node's first fault |
| `YamlScan.KeyRuns` | src/github_actions.rs:168-219 | a key is accepted exactly when it is a plain scalar that is new in its mapping |
| `YamlScan.PairsRun` | src/github_actions.rs:187-223 | the pairs of a mapping, at any depth |
| `YamlScan.ItemsRun` | src/github_actions.rs:205-223 | the items of a sequence, at any depth |
| `YamlScan.ScanIsRecursive` | src/github_actions.rs:143-232 | on the events of any documents the machine returns the first fault in document order, or ends with an empty stack |
| `YamlScan.AcceptsExactlyCleanDocuments` | src/github_actions.rs:143-243 | the scanner accepts exactly when no node is an alias or has an anchor or tag, every key is a scalar and the key texts of each mapping are pairwise distinct, at any depth |

## Left out

- `src/main.rs`, `src/terminal.rs`: command-line wiring and printing.
- `src/economic_evaluation.rs`, `src/storage.rs`, `src/benchmark.rs`, `src/matrix_legacy.rs`, `src/agent_session.rs`, `src/capability_pack.rs`, `src/schema_contract.rs`: straight-line validation and small arithmetic that would only add easy members.
- The modules receipt, matrix, run, run journal, verify and process; digests and canonical JSON are uninterpreted.
- Root and symbolic-link checks of managed directories, path canonicalization, `clonefile`, inode rechecks, signals, and TOML, JSON and YAML parsing.
- `mark_entry_complete` (src/cache.rs:750-791): it works outside the journal and the entry lock.
- Cache inventory and its sizes on states left by a crash.
- The non-Unix branches of manifest replacement and of link handling.
- Liveness under scheduling: waiting, polling and timeouts are choices the steps may take, and what is stated beside safety is which states a process can reach by its own steps, not that it will. After a crash inside the replacement of the counter, its temporary file makes the layout check refuse later calls; the model has no layout check.
- Durability: `sync` calls are not modelled, so a crash keeps the order of the calls made before it.
- `PromoteEntries`: what `prepare_entry` established under the entry locks still held is a precondition; its revalidation (src/cache.rs:625-641) walks the staged tree, which `PayloadWalk` models.
- `ExecutePromotion`: its contract is the position in the run and not the disk; what the disk then is follows from `FinishedIsNew` and the theorems about runs.
- `Preview`: the checks of the root, the owner marker, the layout and the existence of the slot lock file.
- `Validate`: the same checks, and the recheck of inodes after the tickets are locked.
- `ValidateLeases`: the reason of a refusal is one of its texts, and which one is not stated.
- `ValidateTicket`: the reason of a refusal is one of its texts, and which one is not stated.
- `Prepare`: the staging directories appear in one effect when the journal is written; the failures of `prepare_entry` and its copy are not steps of the run, and the copy is modelled by `PayloadWalk`.
- `CopyTree`: a destination strictly inside the source is excluded. The source function does not check for it; its caller copies `data` of an entry into a staging directory beside it.
- `AcquireIsGood`: the scan passes over a ticket that vanishes while it looks, where the source may report an I/O error; safety is the same.
- In the transition system a ticket file is its number and a reconciliation is its observable steps; file contents and the preview are modelled in `Reconciliation` and `ReconciliationApply`.
- `NormalizeCaches`: states exactly when it fails and not which of several errors is reported first.
- `NormalizeChecks`: states exactly when it fails and not which of several errors is reported first.
- `NormalizeEnvironment`: states exactly when it fails and not which of several errors is reported first.
- Machine integers of the configuration are natural numbers; every field is range checked by the source before it is used, and the sums of `NormalizeStorage` are 64-bit.
- `Walk`: a character of a file or of a link target stands for one byte.
