# Bureau: a verified model of its fail-closed protocols

Bureau coordinates tasks and closes runs on evidence. This project models the parts of it that
must not go wrong when something fails half-way, and proves what they promise over all inputs,
all runs or all interleavings. `dafny verify dfyconfig.toml` checks everything.

* **Evidence quarantine** (`EvidenceDisk`, `Quarantine*`). Directories have a current view and a
  last-synced view; a crash returns each to the second. The worker's programs, its recovery pass,
  producers, foreign syncs, I/O errors, kills and power losses interleave freely in one state
  machine. The same operation list drives the machine, the recovery pass as a function, and the
  class that changes the directories in place.
* **Lanes** (`Lanes`, `TaskIds`, `LaneMerge`, `LaneFixpoint`, `LaneInventory`, `LaneSelection`,
  `LaneStates`). Inventory, merge and selection, each with its loops, proved against functions whose
  laws follow, and what each observation makes of a lane.
* **Acceptance and closeout** (`JsonValues`, `Acceptance`, `AcceptanceLaws`, `AcceptanceMeaning`,
  `Closeout`, `FourEyes`, `CloseoutChain`). Typed evaluation of evidence, the bounded attestation
  journal, and observers that load, authenticate, judge and complete in separate, interleaved steps.
* **Bound-activity heartbeat** (`ActivityCodec`, `BoundActivity`, `ActivityRuns`, `ActivityStore`).
* **Reviewed ref fetch** (`RefFetch`, `FetchRepository`).
* **Install rollback** (`InstallRollback`).
* **Frontier, discovery, pull-request binding, approval** (`Claims`, `Frontier`,
  `FrontierProjection`, `FrontierBuild`, `FrontierClaims`, `Discovery`, `DiscoveryItems`,
  `DiscoveryScan`, `DiscoveryReport`, `PrBinding`, `Approval`).

## What the code does not promise

Properties one would expect, but which fail for the code as written. Each has a theorem that says
exactly when the code does meet the expectation.

* Durable evidence can be lost without anybody overwriting it. Over every run, a crash after any
  prefix leaves it reachable if and only if two things hold of the run's syncs (`SurvivesIff`,
  `KeptIff`): each sync of the source directory finds it at a source name or synced in a durably
  named transaction directory, and each sync of a transaction directory that forgets it there finds
  it synced at a source name or elsewhere. `NoEvidenceLoss` and `DisciplinedRunsLoseNothing` prove
  safety for runs that meet this by construction. Runs from the empty quarantine show four ways to
  miss it: a producer's fsync of the source right after the move (`EvidenceLostInWindow`), a failed
  fsync of the transaction directory (`EvidenceLostAfterFailedSync`), the adoption of a preserved
  transaction whose receipt was written but never synced (`EvidenceLostByAdoption`), and the
  clean-up of an old transaction that held the only synced copy (`EvidenceLostByTransactionSync`).
  The code's comment about the fsync order covers its own two syncs only.
* Merging the same inventory twice keeps every lane's state, but the lane list as a whole is fixed
  only from the second merge on: `MergeFixedIff` says when it is fixed at once. A block caused by a
  task-binding conflict need not survive the next merge: `ConflictSurvivesIff`.
* The coding counter of lane selection is not the number of selected coding lanes
  (`SelectionWithinLimits`, `CrowdedOutLaneTakesASlot`).
* An install rollback restores everything except a manifest that was a symlink leading nowhere: the
  backup skips it and the rollback deletes it (`RollbackInstall`).
* A refreshed document equals a fresh extraction exactly when its project name is unchanged
  (`RefreshIsFreshIff`). A document of an old state without its source does not leave the state when
  it is read as deleted, but only after it was read with other contents (`UnnamedStays`).
* A candidate beyond the reporting limit of the scan that first finds it is not reported by any later
  scan while it stays: it is reported if and only if fewer than twenty of the new ones sort before it
  (`ReportedIffEarly`), and a plan with twenty-one open tasks loses one for good
  (`LeftOverNeverReported`).
* Selected tasks can together take more of a resource than its capacity: each claim is compared with
  what is held, but not with the other claims of its own task. A task never does this if and only if
  at most one of its claims takes a positive amount of the resource (`NeverOverbooksIff`,
  `SelectionWithinCapacity`).
* A no-op fetch leaves an old temporary ref where it is (`OutcomesMean`).

## What is taken as input

SHA-256 is an injective function of what it digests. Clocks, random names, Git, `gh`, `systemctl`,
SQLite, JSON parsing, regular expressions and text matching appear as parameters or as free choices
of a step: pull-request listings, live GitHub readbacks, adapter observations, blob contents with
their classified lines, the tasks a branch name points to, and where a write fails. SQLite
transactions are single steps.

## Model

| member | source | states |
|---|---|---|
| `QuarantineSafety.OpKeeps` | src/bureau/closure_observer.py:652-747 | Every directory operation keeps the disk invariant under the order the protocol has to respect: destination synced before source, link before unlink, names only moved once bound |
| `QuarantineRuns.StepKeeps` | src/bureau/closure_observer.py:1146-1240 | Every step of worker, producers and failures keeps the machine invariant as long as source syncs find no unsynced payload |
| `QuarantineRuns.NoEvidenceLoss` | src/bureau/closure_observer.py:1146-1240 | Over every interleaving with crashes, kills, I/O errors and recovery whose source syncs find no unsynced payload, durable evidence stays reachable now and after one more crash unless a producer overwrote it |
| `QuarantineDurability.SurvivesIff` | src/bureau/closure_observer.py:1146-1240 | Over any run of the machine, bytes that survive a crash now survive one after every prefix if and only if no source sync and no transaction sync of the run forgets their last synced copy |
| `QuarantineDurability.KeptIff` | src/bureau/closure_observer.py:1146-1240 | After any run from an empty quarantine, evidence that is at a source name and survives a crash is kept, now and after a crash at every prefix of any further run that does not overwrite it, if and only if that run's syncs are safe for it |
| `QuarantineDurability.SourceSyncExact` | src/bureau/closure_observer.py:1160-1163 | One source sync: what a crash leaves afterwards is exactly what is at a source name or synced in a durably named directory |
| `QuarantineDurability.TxSyncExact` | src/bureau/closure_observer.py:1162 | One transaction sync keeps bytes durable iff it does not forget them or they are synced elsewhere |
| `QuarantineDurability.CarefulIsSafe` | src/bureau/closure_observer.py:1162-1174 | Runs whose source syncs find no unsynced payload meet the exact condition for all evidence nobody overwrites |
| `QuarantineLinks.NoStepDropsTheLastLink` | src/bureau/closure_observer.py:939-951 | From any reachable state, no step short of a power loss removes the last link of bytes at a source name, foreign syncs and all failures included |
| `QuarantineDiscipline.ManifestsAlwaysMatch` | src/bureau/closure_observer.py:1014-1018 | In every reachable state a staged payload has a manifest beside it and every item's manifest names digest and inode of the payload it holds, in both views |
| `QuarantineDiscipline.DisciplinedIsCareful` | src/bureau/closure_observer.py:1162-1174 | Without I/O errors, badly timed foreign syncs and hazardous kills, the protocol's own order makes every source sync safe |
| `QuarantineDiscipline.DisciplinedRunsLoseNothing` | src/bureau/closure_observer.py:1162-1174 | From an empty quarantine, disciplined runs with crashes anywhere lose no evidence |
| `QuarantineHazards.ForeignSyncInWindowLoses` | src/bureau/closure_observer.py:1159-1163 | A foreign source sync between the move and the transaction sync, then a crash, loses a payload that is nowhere else |
| `QuarantineHazards.AdoptionLosesUnsynced` | src/bureau/closure_observer.py:1049-1064 | Adopting a preserved transaction never syncs its payload, so that a later source sync and crash lose it |
| `QuarantineHazards.HazardousKillIsAdoptable` | src/bureau/closure_observer.py:842-884 | A kill after the preservation receipt and before its sync leaves exactly such a transaction |
| `QuarantineLossRuns.EvidenceLostInWindow` | src/bureau/closure_observer.py:1159-1163 | A run from the empty quarantine that loses durable, never overwritten evidence by a foreign sync after the move |
| `QuarantineLossRuns.EvidenceLostAfterFailedSync` | src/bureau/closure_observer.py:1159-1168 | The same after a failed sync of the transaction directory and the worker's next source sync |
| `QuarantineLossRuns.EvidenceLostByAdoption` | src/bureau/closure_observer.py:1049-1064 | The same through a kill between the preservation receipt and its sync, and the adoption that follows |
| `QuarantineLossRuns.EvidenceLostByTransactionSync` | src/bureau/closure_observer.py:1126-1134 | The same by the clean-up of an old transaction that holds the only synced copy |
| `QuarantineRecovery.RecoveryConverges` | src/bureau/closure_observer.py:992-1143 | One error-free recovery pass leaves pending exactly what it reports as errors, and a second pass recovers nothing and changes nothing |
| `QuarantineRecovery.PassIsARun` | src/bureau/closure_observer.py:992-1143 | The recovery pass as a function is a run of the state machine, so its safety theorems apply to it |
| `QuarantineOutcomes.FinalizeBinds` | src/bureau/closure_observer.py:915-936 | Finalizing ends with an item whose manifest names source, run and frozen payload in both views |
| `QuarantineOutcomes.PreserveKeepsPayload` | src/bureau/closure_observer.py:842-884 | Preserving ends with payload and manifest untouched beside a receipt under a durable preserved name |
| `QuarantineOutcomes.PassEnds` | src/bureau/closure_observer.py:1007-1138 | Over a whole pass each pending transaction ends as its entries call for: readable evidence as an item bound to its source name, run and bytes, other payloads preserved as they are, finished preservations adopted, entries without payload removed iff the manifest is missing or the source is there, the rest left untouched |
| `QuarantineOutcomes.PassAccounts` | src/bureau/closure_observer.py:993-1143 | The counts of recovered and abandoned transactions and the reported errors follow those endings, and exactly the reported ones stay pending |
| `QuarantineOutcomes.LeftAloneItSettles` | src/bureau/closure_observer.py:1170-1219 | In the state machine a staged entry left alone becomes an item, goes back to its free source name if it was exchanged, or is preserved |
| `QuarantineOutcomes.FailedMoveCleansUp` | src/bureau/closure_observer.py:1158-1168 | A move whose source vanished takes its transaction away again |
| `QuarantineStore.Store.PerformAll` | src/bureau/closure_observer.py:992-1143 | Executes operations in order up to the first that raises |
| `QuarantineStore.Store.RecoverTransactions` | src/bureau/closure_observer.py:992-1143 | The recovery loop computes the pass: every transaction ends as its entries call for, is counted so, and exactly those left are reported |
| `QuarantineStore.Store.QuarantineUnknownRunEvidence` | src/bureau/closure_observer.py:1146-1240 | An unraced entry becomes an item bound to its bytes; a raced one is restored if its name is free, else quarantined or preserved; the moved bytes are reachable now and after a crash in every case |
| `Lanes.SortSorts` | src/bureau/closure.py:1112-1123 | The lane order is a total preorder and the sort an ordered permutation |
| `Lanes.FilterSort` | src/bureau/closure.py:1112-1123 | The sort is stable: it commutes with dropping lanes |
| `TaskIds.CanonicalShape` | src/bureau/closure.py:88 | The id automaton accepts exactly upper-case words joined by single dashes |
| `LaneMerge.MergeLanes` | src/bureau/closure.py:867-1113 | Dictionary, candidate loop with its seen set, and retention loop compute the merge whose states and data StateAfterMerge gives |
| `LaneStates.StateAfterMerge` | src/bureau/closure.py:900-1066 | Every candidate's lane gets the registry's verdict, else a block when disputed or unconfirmed, else stays paused, keeps unfinished work over a calm pull request, follows a reported or vanished pull request, or stays as it was; finished states need a merged branch; all other fields likewise |
| `LaneStates.VanishedAfterMerge` | src/bureau/closure.py:1071-1106 | A lane whose source vanished is blocked unless finished, the registry's verdict first |
| `LaneFixpoint.OneFixedIff` | src/bureau/closure.py:919-1066 | A second merge keeps a lane's state always, and the whole lane exactly when neither finishability nor withheld data drifts |
| `LaneFixpoint.MergeAccounts` | src/bureau/closure.py:1068-1113 | Each merge gives one lane per candidate and keeps every earlier lane that no fingerprint or alias absorbed |
| `LaneFixpoint.MergeCounts` | src/bureau/closure.py:1068-1107 | How often each fingerprint occurs after a merge: once for a candidate, never for an absorbed alias, as before otherwise |
| `LaneFixpoint.MergeSettles` | src/bureau/closure.py:867-1113 | Merging a well-formed inventory again keeps every state, and the list does not change from the second merge on |
| `LaneFixpoint.MergeFixedIff` | src/bureau/closure.py:867-1113 | The first merge is already a fixed point if and only if no lane drifts |
| `LaneFixpoint.ConflictSurvivesIff` | src/bureau/closure.py:1021-1045 | A conflict block survives the next merge if and only if no pull request is reported, the candidate is blocked, or the registry overrides |
| `LaneFixpoint.ConflictBlockCanVanish` | src/bureau/closure.py:1034-1043 | Concrete lanes whose conflict block is gone after the next merge |
| `LaneInventory.AliasIsFree` | src/bureau/closure.py:595-604 | No candidate's alias is another candidate's fingerprint |
| `LaneInventory.InventoryWellFormed` | src/bureau/closure.py:614-755 | Every inventory has distinct fingerprints, free aliases, and no pull request from a blocked repository |
| `LaneInventory.EveryPrHasACandidate` | src/bureau/closure.py:640-700 | Every open pull request has a candidate with its number and observed state |
| `LaneInventory.EveryWorkHasACandidate` | src/bureau/closure.py:641-737 | So have every local branch, every dirty worktree off the main branch and every failed task |
| `LaneInventory.EveryCandidateHasASource` | src/bureau/closure.py:640-712 | Every candidate of a repository stands for a branch, an open pull request or a dirty worktree off the main branch, with the state and finishability that calls for |
| `LaneInventory.ViewsExact` | src/bureau/closure.py:622-640 | A failed listing blocks its repository, a cut one is incomplete, one without a slug is not viewed |
| `LaneInventory.FinishIs` | src/bureau/closure.py:276-311 | The finishability of a pull request from its record |
| `LaneStates.PrProposes` | src/bureau/closure.py:276-311 | Which pull-request record proposes which state; only a clean, approved one that is no draft may be merged |
| `LaneInventory.ObservedLanesSettle` | src/bureau/closure.py:614-755 | Observing and merging repeatedly settles for every set of repositories without a task conflict |
| `LaneSelection.SelectLanes` | src/bureau/closure.py:1145-1200 | The selector's loop with its counters computes the selection |
| `LaneSelection.SelectionWithinLimits` | src/bureau/closure.py:1145-1200 | All five limits hold, gated lanes have canonical ids, and each counter is its selected lanes plus, for coding, those the review limit dropped |
| `LaneStates.SelectedStates` | src/bureau/closure.py:1145-1200 | The limits and exclusions in terms of lane states |
| `LaneStates.TurnIff` | src/bureau/closure.py:1153-1192 | Each lane in turn is selected iff it has room, and the selection ends when a selected lane fills the limits together |
| `LaneStates.SortedByState` | src/bureau/closure.py:56-74 | The sort follows the order of states, then finishability, and a high manual priority is worth twenty points |
| `LaneSelection.SelectionExplained` | src/bureau/closure.py:1153-1192 | Every lane left out has an excluded state, no canonical id, or a limit that is used up at the end |
| `LaneSelection.CrowdedOutLaneTakesASlot` | src/bureau/closure.py:1169-1179 | With default limits a dropped lane uses a coding slot and starves another lane |
| `LaneSelection.SelectionFailsClosed` | src/bureau/closure.py:950-1107 | A selected lane continues a current candidate whose earlier pull-request data is confirmed, whose bindings agree and whose task is not ended; vanished lanes are never selected |
| `LaneStates.PausedStaysOut` | src/bureau/closure.py:940-956 | A paused lane whose pull request is reported is never selected |
| `LaneStates.MergesAreApproved` | src/bureau/closure.py:276-311 | From inventory to selection: a lane selected for merging has a clean, approved pull request that is no draft, or was up for merging before and nothing was reported |
| `AcceptanceLaws.ReadCheckRows` | src/bureau/acceptance.py:635-646 | The loop over check rows computes the table of observed states |
| `AcceptanceLaws.ReadChecksMeans` | src/bureau/acceptance.py:635-646 | The table exists iff all rows are complete and agree, and then holds exactly the reported states |
| `AcceptanceLaws.CiPassesIff` | src/bureau/acceptance.py:621-661 | The CI verdict passes iff rows agree and every required check has a passing row |
| `AcceptanceMeaning.GreenStates` | src/bureau/acceptance.py:635-661 | Which states of a check row count as passing |
| `AcceptanceLaws.ConflictIff` | src/bureau/acceptance.py:933-974 | When all criteria pass, a conflict is reported iff two freeze different heads of one pull request |
| `AcceptanceLaws.PassesIff` | src/bureau/acceptance.py:977-1010 | Acceptance passes iff there are criteria, each passes, and no two freeze different heads of one pull request |
| `AcceptanceLaws.FrozenApartNeverPasses` | src/bureau/acceptance.py:918-974 | Criteria that freeze different heads never pass together, for any evidence, clock, authentication or ids |
| `AcceptanceLaws.PassedMeans` | src/bureau/acceptance.py:832-912 | A pass rests, per criterion, on authenticated, timely, revision- and target-bound evidence |
| `AcceptanceMeaning.ContractIff` | src/bureau/acceptance.py:177-324 | A criterion has a contract iff it names one of nine verifiers and freezes exactly what that one needs |
| `AcceptanceMeaning.FactsDecide` | src/bureau/acceptance.py:606-738 | Which facts make a criterion of each verifier pass and which make it fail, exactly |
| `AcceptanceMeaning.VerdictIff` | src/bureau/acceptance.py:741-912 | A criterion passes or fails iff its authenticated evidence names it, comes from a permitted source within its age, is bound to task, plan and frozen target, and its facts say so |
| `AcceptanceMeaning.AcceptedIff` | src/bureau/acceptance.py:918-1010 | Acceptance passes iff there are criteria, each passes, and no two about one pull request freeze different heads |
| `AcceptanceMeaning.PassRestsOnFacts` | src/bureau/acceptance.py:977-1010 | A pass rests on such evidence and facts for every criterion |
| `AcceptanceLaws.AcceptanceMonotone` | src/bureau/acceptance.py:977-1010 | Enlarging the authenticated set changes no pass or failure |
| `AcceptanceLaws.AcceptanceConvex` | src/bureau/acceptance.py:868-882 | The times at which fixed evidence passes form one interval |
| `AcceptanceLaws.ValidateAcceptanceContract` | src/bureau/acceptance.py:348-570 | Accepts exactly the non-empty lists of criteria with distinct ids and executable contracts; the last-resort diagnostic is unreachable |
| `Closeout.AuthIsBacked` | src/bureau/closure_observer.py:1808-1862 | What authentication returns for a manual criterion is backed by a journal attestation of that evidence and revision; AuthExact covers all verifiers |
| `CloseoutChain.AuthExact` | src/bureau/closure_observer.py:1771-1969 | Authentication fails iff a claimed criterion has a verifier without adapter, and otherwise returns exactly the claimed criteria that are attested in the journal or whose live readback agreed |
| `Closeout.JournalKept` | src/bureau/closure_observer.py:1626-1682 | Every step keeps the journal bounded and free of duplicates |
| `FourEyes.JournalInvariant` | src/bureau/closure_observer.py:1638-1662 | No run's journal ever exceeds 1000 attestations or holds two identical ones |
| `FourEyes.FourEyesCloseout` | src/bureau/closure_observer.py:217-261 | A run completed on state evidence had each manual item attested, digest and revision exact, by a reviewer who was neither its observer nor the run's worker at that step |
| `CloseoutChain.CompletedOnLiveEvidence` | src/bureau/closure_observer.py:146-261 | Behind every receipt one observer loaded a bundle bound to the run, authenticated, judged and completed exactly that evidence; each manual criterion was attested, each pull-request criterion confirmed by the live readback, and there is no other kind |
| `CloseoutChain.AttestedIff` | src/bureau/closure_observer.py:1540-1626 | Exactly when an attestation request is granted |
| `CloseoutChain.ReceiptStays` | src/bureau/closure_observer.py:255-261 | A receipt, once written, stays |
| `FourEyes.Desk.CountRows` | src/bureau/closure_observer.py:1643-1653 | Counts the run's attestations up to one more than the capacity |
| `FourEyes.Desk.RecordManualAuthentication` | src/bureau/closure_observer.py:1540-1691 | Refuses, replays without change, or appends exactly one attestation |
| `ActivityCodec.ValidatorExact` | src/bureau/bound_activity.py:174-262 | The validator accepts exactly what the writer can store, under its own run and activity id, and reads back the same |
| `ActivityRuns.OneEventPerActivity` | src/bureau/bound_activity.py:618-734 | Each activity id gets at most one event under any interleaving |
| `ActivityRuns.EventsWereAdmitted` | src/bureau/bound_activity.py:383-398 | Every bound event was appended while its run was active with exactly the event's task, worker, digests and external fields, registry and envelope agreeing, the worker registered, and on fresh evidence |
| `ActivityRuns.RecordedIff` | src/bureau/bound_activity.py:330-398 | A label records a payload iff it commits a held call while the run is active under exactly its binding, field by field, registry and envelope agree, the worker is registered and the id unused |
| `ActivityRuns.AskedIff` | src/bureau/bound_activity.py:618-660 | Which requests make an activity, field by field |
| `ActivityRuns.RecordedOnceThenReplayed` | src/bureau/bound_activity.py:401-423 | After one recording, later calls with that id replay the recorded payload or are refused, another binding is refused, and nothing changes |
| `ActivityRuns.ProjectionFollowsRun` | src/bureau/bound_activity.py:474-550 | Until the next heartbeat event the projection is valid iff the row still has the recorded task, worker, digests, external fields and time, else rebind-required, never normal |
| `ActivityRuns.NormalIff` | src/bureau/bound_activity.py:487-511 | The projection is normal iff the latest heartbeat, if any, has no activity id and is no bound activity |
| `ActivityRuns.RecordedProjectsValid` | src/bureau/bound_activity.py:704-734 | Run row, worker row and projection right after a recording |
| `ActivityStore.Store.Check` | src/bureau/bound_activity.py:664-668 | The first phase as a step of the machine, without writing |
| `ActivityStore.Store.Record` | src/bureau/bound_activity.py:670-734 | The second phase as a step of the machine, which RecordedIff characterises; the guarded update always hits its row, and a missing worker rolls back |
| `RefFetch.OutcomesMean` | src/bureau/fetch_orchestration.py:399-596 | One application writes only what was reviewed and only when authorised; conflicts write nothing and leave no temporary ref; applied means the source commit and no temporary ref; a no-op changes nothing |
| `RefFetch.GatesComeFirst` | src/bureau/fetch_orchestration.py:428-477 | Another digest, a blocked plan, a missing authorisation and an old temporary ref stop it in this order, before any ref is touched; and when it is a no-op |
| `RefFetch.UndisturbedApplication` | src/bureau/fetch_orchestration.py:449-596 | Left alone, an authorised application moves the tracking ref to the source and nothing else, or reports that the step is not forward and changes nothing |
| `RefFetch.WritesIff` | src/bureau/fetch_orchestration.py:494-560 | After the fetch the tracking ref is written iff the reviewed source arrived, the ref held the reviewed old commit when compared and again at the swap, the step is forward and Git accepts it; each conflict names its cause |
| `RefFetch.EveryWriteReviewed` | src/bureau/fetch_orchestration.py:430-560 | Over any rounds and any foreign changes, every write was made in an authorised round, replaced the value the approved plan names, read when the swap committed, and went forward to the plan's source commit |
| `RefFetch.TrackingRefOnlyAdvances` | src/bureau/fetch_orchestration.py:535-560 | A tracking ref that only applications write passes through an ancestor chain |
| `RefFetch.ApplyMoves` | src/bureau/fetch_orchestration.py:399-596 | One application moves such a ref by exactly its write, from the value it had |
| `FetchRepository.Repository.RepoFetchPlan` | src/bureau/fetch_orchestration.py:256-388 | The conflict list and the plan |
| `FetchRepository.Repository.CleanupTempRef` | src/bureau/fetch_orchestration.py:391-396 | Deletes the temporary ref only at its observed value |
| `FetchRepository.Repository.ApplyRepoFetchPlan` | src/bureau/fetch_orchestration.py:399-596 | The sequence of checks, reads, fetch, comparison, transaction and readback computes the application, whose gates GatesComeFirst states |
| `InstallRollback.Installer.WriteCandidateInstall` | ops/install-bureau-runtime.py:887-916 | Touches only manifest, attempted launchers and created directories; on success everything is in place |
| `InstallRollback.Installer.WriteFinalInstall` | ops/install-bureau-runtime.py:918-985 | Owns a receipt only if none of that name existed; on success manifest, receipt and launchers are in place |
| `InstallRollback.Installer.VerifyPreimage` | ops/install-bureau-runtime.py:557-602 | Reports nothing iff the preimage holds at every path the rollback answers for |
| `InstallRollback.Installer.RollbackInstall` | ops/install-bureau-runtime.py:474-602 | Without faults restores the file system exactly from every failure point, iff the manifest was no symlink; with any faults an empty failure list implies the preimage, and no directory is removed from under its entries |
| `InstallRollback.Install` | ops/install-bureau-runtime.py:887-1008 | A whole installation is in place, everything else untouched, or undone, wherever it failed; without faults it succeeds iff the receipt's name is free |
| `InstallRollback.RestoredExactly` | ops/install-bureau-runtime.py:315-414 | Agreement with the backup at the touched paths means agreement everywhere |
| `Claims.Ancestors` | src/bureau/legacy.py:198-209 | Gives exactly the names reached by one or more parent steps, nearest first and none twice, also where parents form a cycle |
| `Claims.OverlapsIff` | src/bureau/legacy.py:212-215 | Resources overlap iff parent steps lead from one to the other |
| `Claims.ModesConflictIff` | src/bureau/legacy.py:218-229 | Which modes go together on one resource |
| `Claims.ConflictMonotone` | src/bureau/legacy.py:253-281 | Holding more never removes a claim conflict |
| `Frontier.ChooseFree` | src/bureau/frontier.py:165-184 | A candidate is left out iff the limit was reached at its turn or it conflicts with the seed and those chosen before it; the chosen keep the candidates' order, and below the limit every one left out conflicts with the selection |
| `Frontier.DiverseFill` | src/bureau/frontier.py:165-193 | Chooses exactly as many as limit and supply allow, the greedy conflict-free ones first and then the others in order; says for each position whether it is chosen |
| `FrontierProjection.SortSorts` | src/bureau/frontier.py:364-371 | The cards end in order of lane, rank and id |
| `FrontierProjection.Refill` | src/bureau/frontier.py:330-361 | Below the floor promotes exactly min(target - base, max promotions, eligible Next) cards, those of the diverse selection, so Now never passes the target; nothing else changes |
| `FrontierProjection.NoTaskInTwoLanes` | src/bureau/frontier.py:196-202 | No task is in two lanes |
| `FrontierProjection.WorkBalls` | src/bureau/frontier.py:373-386 | The queue is the runnable tasks in order of lane, rank and id; a task is a ball iff the limit leaves room at its turn and it does not conflict with the balls before it |
| `FrontierProjection.EligibleLane` | src/bureau/frontier.py:114-142 | An eligible card starts in its own executable lane |
| `FrontierBuild.BuildProjection` | src/bureau/frontier.py:221-386 | From the facts about each task to cards, refill, lanes and balls; fails exactly for an unknown resource filter |
| `FrontierBuild.ProjectionShows` | src/bureau/frontier.py:268-371 | Every wanted task has exactly one card, in lane order, and no other has one |
| `FrontierBuild.ProjectionRefills` | src/bureau/frontier.py:330-361 | How many eligible tasks the projection has in Now and Next, from what the facts put there |
| `FrontierBuild.ProjectionRuns` | src/bureau/frontier.py:303-386 | The runnable tasks are exactly the wanted ones that are ready or to be reverified, without blocker, active run or runtime block, and the balls are chosen among them in order |
| `FrontierBuild.BlockedRuntimeStops` | src/bureau/frontier.py:288-308 | A blocked runtime leaves no ball and promotes nothing |
| `FrontierBuild.FinishedExcluded` | src/bureau/frontier.py:123-127 | A finished task without active runs is in no lane and no ball |
| `FrontierBuild.LaneIs` | src/bureau/frontier.py:114-142 | In which lane a task starts, from its state, blockers and runs |
| `FrontierBuild.WantedIff` | src/bureau/frontier.py:269-273 | The resource filter keeps tasks with a claim on the resource or one above or below it |
| `FrontierBuild.CardsTellPromotion` | src/bureau/frontier.py:356-361 | A card is marked as coming from Next iff it was promoted |
| `FrontierClaims.SelectedTogether` | src/bureau/frontier.py:154-162 | Claims of two selected tasks on overlapping resources have modes that go together |
| `FrontierClaims.RetiredOnlyRead` | src/bureau/legacy.py:232-250 | Selected tasks only read retired resources |
| `FrontierClaims.NeverOverbooksIff` | src/bureau/legacy.py:266-280 | A task never overbooks a resource iff at most one of its claims takes a positive amount of it |
| `FrontierClaims.SelectionWithinCapacity` | src/bureau/frontier.py:154-184 | Tasks selected together stay within every capacity, if each claims it at most once |
| `Discovery.ExtractMarkdown` | src/bureau/discovery.py:220-290 | The line loop with its section, heading and status state computes the candidates |
| `DiscoveryItems.MarkdownGives` | src/bureau/discovery.py:220-290 | Exactly which lines become candidates, with which status; and when the document itself does |
| `DiscoveryItems.JsonGives` | src/bureau/discovery.py:176-217 | Exactly which entries of a task list become candidates |
| `DiscoveryItems.SummaryIs` | src/bureau/discovery.py:143-173 | The summary is the title cut after a thousand characters |
| `DiscoveryItems.SameFingerprintIff` | src/bureau/discovery.py:156-159 | When two candidates share a fingerprint |
| `Discovery.ExtractRestamps` | src/bureau/discovery.py:143-304 | The same blob at another revision gives the same candidates, restamped |
| `DiscoveryScan.RefreshIsFreshIff` | src/bureau/discovery.py:518-530 | A refreshed document equals a fresh extraction iff the project name is unchanged |
| `DiscoveryScan.IncrementalEqualsFull` | src/bureau/discovery.py:501-553 | With unchanged project names an incremental scan stores what a scan from scratch stores |
| `DiscoveryScan.ScanDocuments` | src/bureau/discovery.py:501-643 | The loops over files and carried documents compute the scan |
| `DiscoveryScan.ChangedIff` | src/bureau/discovery.py:501-553 | The reported changes are exactly the documents read with other contents or as gone, within the limit |
| `DiscoveryScan.LeavesIffDeleted` | src/bureau/discovery.py:633-639 | A document leaves iff it was read as deleted within the limit and not as present |
| `DiscoveryScan.GoneMeansReadAsDeleted` | src/bureau/discovery.py:633-639 | Over any scans, a document that is gone was read as deleted in between |
| `DiscoveryScan.UnnamedStays` | src/bureau/discovery.py:633-639 | A document stored without its source stays through all scans, also when read as deleted, until one reads it with other contents |
| `DiscoveryScan.ObservedOnlyGrows` | src/bureau/discovery.py:462-483 | Observed sources only grow and include every source that resolved or had a document |
| `DiscoveryReport.AllReportedIff` | src/bureau/discovery.py:648-653 | All new candidates are reported iff there are at most twenty |
| `DiscoveryReport.ReportedIffEarly` | src/bureau/discovery.py:645-653 | Over any scans, a candidate that appears and stays is reported by some scan iff fewer than twenty of the new ones at its first scan sort before it |
| `DiscoveryReport.LeftOverNeverReported` | src/bureau/discovery.py:645-653 | A plan with twenty-one open tasks, scanned any number of times: one candidate is stored by every scan and reported by none |
| `DiscoveryReport.PromotionAllowedIff` | src/bureau/discovery.py:654-660 | Promotion is allowed iff no source failed, one resolved, every file was within the limit and read, and no new candidate was cut off |
| `PrBinding.BindingHasOneSource` | src/bureau/github_observer.py:238-301 | A definite binding comes from a single marker, the marked run, or a single branch candidate |
| `PrBinding.MarkSharedTaskAmbiguity` | src/bureau/github_observer.py:759-773 | In place, exactly the pull requests that share a task become ambiguous |
| `PrBinding.BindingHardFindings` | src/bureau/github_observer.py:776-870 | The loop collects each pull request's findings in order |
| `PrBinding.FindingsSay` | src/bureau/github_observer.py:776-870 | Which finding each pull request gets, exactly |
| `PrBinding.HealthyIff` | src/bureau/github_observer.py:759-870 | Healthy iff every pull request without exception is bound, alone, to an existing task that is open or has follow-up semantics |
| `PrBinding.BindsIff` | src/bureau/github_observer.py:238-301 | The binding names a task iff the markers or, without any, the branch point to that task alone |
| `PrBinding.BindingHealthyIff` | src/bureau/github_observer.py:684-870 | From markers and branches to findings: none iff every pull request without exception points to one task, alone, that exists and is usable |
| `PrBinding.TaskViewHealthyIff` | src/bureau/github_observer.py:873-912 | With distinct numbers a task's view is healthy iff none of its pull requests has a finding |
| `Approval.UnionComposes` | src/bureau/approval.py:278-430 | Without an override, evidence allows a union of effects iff it allows each part |
| `Approval.AllowedIff` | src/bureau/approval.py:20-82 | Without an override, effects are allowed iff approved evidence with the demanded reference and task has a level that can allow each and a scope that covers each |
| `Approval.OverrideNarrows` | src/bureau/approval.py:343-364 | An override allows exactly what is allowed without it and repeats the canonical level or is met break-glass |
| `Approval.OrderDoesNotMatter` | src/bureau/approval.py:278-430 | The same effects in another order or repeated get the same decision |
| `Approval.MixedLevelsNeedBreakGlass` | src/bureau/approval.py:243-257 | Effects with different required levels are allowed by break-glass only |

## Left out

- The retirement of bundles of known runs, the private-file checks, file modes, symlink attacks and writers with open descriptors in the evidence directories; one reconcile worker at a time is assumed, and a crash is taken to return every directory to exactly its last-synced entries.
- Name collisions after truncating digests in item directory names and lane ids; transaction ids are unique.
- QuarantineRuns.NoEvidenceLoss: holds for runs whose source syncs find no staged payload unsynced, because without a condition it is false; QuarantineDurability.KeptIff gives the exact condition over runs and QuarantineDiscipline.DisciplinedIsCareful runs that meet it.
- QuarantineStore.Store.QuarantineUnknownRunEvidence: models the two moments at which a producer can interfere, before the move and after it, and no I/O errors; the state machine covers the other interleavings.
- Lane ids, titles, URLs, next actions, timestamps and explanatory metadata of lanes; which manual intent matches a lane; the final sort of the inventory, which only reorders candidates.
- LaneSelection.SelectLanes: does not model the note that the selector writes into rejected lanes, because nothing reads it back here.
- Reason texts of acceptance evaluations and of approval decisions; case folding outside ASCII; time zone parsing.
- AcceptanceLaws.ValidateAcceptanceContract: reports problems per criterion without paths, messages and field lists.
- Closeout.JournalKept: takes the attestation request and each observer phase as one atomic step, as the store's transactions make them.
- The live comparison of GitHub evidence with its readback, and the receipt schema and registry writes of a completed run.
- ActivityRuns.EventsWereAdmitted: an event appended by other code carries no activity id, which is how the repository uses the column; the projection snapshot event that accompanies each event is not modelled.
- The reservation, approval and runtime-drift checks before a fetch, as one yes-or-no input; source imports.
- The installer path without scheduler convergence, which has no rollback, the scheduler convergence itself, release and registry snapshots, locks, and ancestor directories other than the two that are tracked; backups are taken to stay as they were written.
- The dispatcher's claim reasons, task authority and compatibility queue of the frontier; a capacity claim on an unknown resource, which raises in the source, counts as a conflict.
- DiscoveryItems.SameFingerprintIff: keeps identifiers and places apart, while the source hashes whichever text there is, so an identifier that spells a place could meet it.
- Vault path selection, report rendering, the result label and receipt validation of discovery; how a fingerprint is written as text is any injective function; document keys are pairs instead of joined texts, and an old document is attributed to a source only by its stored field.
- Marker extraction, historical pull requests and repository resource resolution of pull-request binding.
- The command line, parsers, prompts, agent bridges, inventories, cycle contracts, onboarding, coordination scope and doctor checks.
