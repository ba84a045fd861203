# Audit journals and recovery protocols, modelled and proved in Dafny

`dafny verify dfyconfig.toml` checks everything here.

The repository keeps evidence in rooms: files created once, a saved state replaced whole, and calls that may stop
between any two durable writes. This project models the protocols that must survive such a stop, and the bounded
readers that produce the evidence they rely on.

Every protocol has the same shape. A call is a *plan*: the list of durable writes it performs and what it answers,
as a function of the disk it finds. An *event* is a call and the number of its writes that happen before the machine
stops; a *run* is a list of events. The theorems quantify over all disks inside the invariant, all runs and all
cuts, and an initial-state lemma (`NewRoomInv`, `NewLaneInv`, `NewHomeInv`) shows that a new room is such a disk. Beside the plans
stand the classes that do the work as the source does it, field by field and write by write, with a budget of writes
after which the machine stops; their contracts say that they performed exactly the prefix of the plan the budget
allows.

| files | what they hold |
|---|---|
| `Values.dfy` | options, results, digests |
| `EngineeringModel.dfy`, `EngineeringTransition.dfy`, `RoomRuns.dfy` | the engineering-model journal, its transition, abandonment and resolution plans, sends and runs |
| `JournalProofs.dfy`, `TransitionSafety.dfy`, `TransitionProtocol.dfy`, `RoomTheorems.dfy` | chain and epoch lemmas, what each write keeps, that each plan is legal, the main results |
| `AttemptProgress.dfy`, `FreshTransition.dfy`, `AttemptAnswers.dfy` | how a pending attempt is committed or given up from whatever a stop left of it, and what an ended one answers |
| `AttemptFacts.dfy` | what the files attest of every published attempt, and exactly which requests begin one |
| `ResolutionFacts.dfy` | exactly which observed models are adopted, and which requests are then saved |
| `RoomRecovery.dfy` | which interrupted intents can still be claimed after some run |
| `PatchWitness.dfy`, `AttemptWitness.dfy` | new rooms in which a transition sends its one PATCH and commits, and a run to the bound of 32 attempts |
| `RoomDirectory.dfy` | the room directory as the calls change it |
| `ModelBoundaries.dfy`, `NoticeFacts.dfy` | notices rendered from the same epochs, and exactly which boundaries have one |
| `EngineeringPolicy.dfy`, `PolicyRuns.dfy`, `PolicyStanding.dfy`, `PolicyWitness.dfy` | the standing policy with its two lock windows, its record log, runs that follow it, when it is in force, and rooms in which all this happens |
| `AcceptanceExtension.dfy`, `AcceptanceProofs.dfy`, `AcceptanceTheorems.dfy`, `AcceptanceJournal.dfy`, `AcceptanceSends.dfy`, `AcceptanceWitness.dfy` | the acceptance-review grant journal, exactly what it lets through, and lanes in which a grant is consumed, stranded or left pending |
| `Coordination.dfy`, `CoordinationProofs.dfy`, `CoordinationTheorems.dfy`, `CoordinationRecords.dfy`, `CoordinationController.dfy` | two-room path reservations, and exactly which handbacks, preflights and imports are recorded |
| `CoordinationRoles.dfy`, `RoleExclusivity.dfy`, `OwnedPaths.dfy` | room pointers under crashes; when the owner and assignment roles stay exclusive; which owned-path lists are admitted |
| `EvidenceScan.dfy`, `ChildAdmission.dfy`, `EvidenceCounts.dfy`, `EvidenceReads.dfy`, `EvidenceFacts.dfy` | the chunked record reader, the admission of child actors, intervals and launches, read counts, and exactly when each is proved |
| `ChildEvidence.dfy`, `ChildEvidenceProofs.dfy`, `ChildEvidenceFacts.dfy`, `ChildEvidenceReader.dfy` | the correlator of launches, results and notifications |
| `HistoryReconciliation.dfy` | proofs and their invalidation chain |
| `Handshake.dfy` | the attachment handshake and its framing; response ids follow section 5 of JSON-RPC 2.0, the order of messages the Initialization part of the Lifecycle section of the Model Context Protocol, revision 2025-06-18 |
| `HistoryPager.dfy` | the adaptive history pager |

## Assumptions

- A digest identifies what it digests: `Sha<T>` is the digested value itself, so equal digests mean equal values and
  a hash chain cannot be cyclic.
- The room lock serializes calls, and one create-once store or one state save is one atomic write. A torn file would
  be one more refused state.
- Callers in `ao_project_room.py` keep their side: a new request gets the next creation order, a settled request
  keeps its state and receipt, a saved engineer binding never changes, and a consumption is followed by the
  saved state and only then by the post.
- Whatever the outside world answers (AO, native transcripts, Git, executables, clocks) is a parameter of the call.

## Where the code says more than it does

- The bound of 32 attempts is checked again only after the new intent was stored. At the bound the intent can never
  be claimed (`BoundStrands`, `RoomTheorems.StrandedForever`), and the bound is reached (`BoundIsReached`). Below it the
  claim asks for the very room the intent was made from (`RecoveryIff`), so an intent is lost for good exactly when
  observations can no longer bring that room back, for example once another request has settled (`RecoverableIff`,
  `LateForever`, `SettlingIsTooLate`).
- A transition stopped after its marker and before its PATCH never sends it: the marker alone counts as the attempt
  (`StoppedCommits` at the third write). The attempt commits only if the room comes to show the target anyway; otherwise
  it can only be given up (`RepeatCommits`, `AbandonCloses`).
- A set or revoke stopped between its record and the saved pointer, and only then, leaves a log out of order
  (`RecordIff`, `LogInOrderIff`). From then on every set and revoke is refused and every new request of a room with a
  saved policy pointer is; a room without one, or a retained request, is answered inactive before the log is read
  (`HalfRecordedBlocks`, `HalfRecordedForever`; the state is reached, `FirstSetHalves`).
- A grant whose consumption was stored but not projected blocks its lane for good (`StrandsIff`,
  `AcceptanceTheorems.StrandedForever`), and a grant that is pending when a retained request is observed again stays
  pending (`PendingCompletedIff`). Both happen (`ExtensionDispatches`, `ExtensionStaysPending`).
- A repeated assignment admission does not finish marking the superseded record (`SupersedesIff`,
  `RetryTouchesOnlyItself`), and after that mark the identical call is refused, so the room pointers a crash skipped
  are not repaired by it although a comment at `ao_coordination.py:550` says a repeat call does
  (`SupersedingRetryIff`, reached in `SupersedingExample`). Without supersession the repeat does complete everything (`RetryCompletes`).
- Room pointers are complete after a run exactly when every admission that began was carried through
  (`PointersOkIff`). Complete pointers imply that no room is both an owner and an assignment room (`RoleExclusive`), but
  are not needed for it: the roles stay exclusive exactly when no admission began that takes a room of an assignment
  with a missing pointer in the opposite role (`AdmissionExclusiveIff`, `RunExclusiveIff`). While an admission is
  stopped both of its rooms are exposed, each until its own pointer is written: the assignment room can become an
  owner (`CrashExample`) and the owner an assignment room (`MirrorExample`; `StoppedRoomOpensIff`, `CrashBreaksRoles`).
- The neighbour check on owned paths admits nested lists exactly where some entry extends the ancestor with a
  character below the separator (`NeighboursOkIff`, with an instance in `NestedPathsAdmitted`); disjointness between
  assignments does not need it.

## Model

| member | source | states |
|---|---|---|
| `RoomTheorems.NewRoomInv` | ao_engineering_model.py:679-728 | a room with no journal, its engineer bound or not yet, satisfies the invariant all the run theorems start from, so they speak of every run of a new room |
| `RoomTheorems.RunKeepsInv` | ao_engineering_transition.py:1653-1799 | the journal invariant (accepted, or accepted but for one unclaimed intent) survives every run of bindings, transitions, abandonments, sends and observations, each cut after any durable write |
| `RoomTheorems.AtMostOnePatch` | ao_engineering_transition.py:1494-1524 | over every such run a request is PATCHed at most once, and a PATCHed request has its durable marker |
| `FreshTransition.FreshSendsOnce` | ao_engineering_transition.py:1494-1563 | a fresh transition over an unchanged audited room, carried through its fourth write, has sent exactly one PATCH: the bound is reached |
| `PatchWitness.NewRoomSends` | ao_engineering_transition.py:1494-1563 | in a new room every possible transition to another model is such a transition: well-spelled pins and an admitted target suffice |
| `FreshTransition.FreshCommits` | ao_engineering_transition.py:1427-1563 | a fresh transition whose two later inspections show the target, carried through, is committed: its pointer names its own record, one PATCH was sent (none for a reset) and one epoch of the target is opened |
| `FreshTransition.StoppedCommits` | ao_engineering_transition.py:1427-1683 | stopped after any number of its writes, such a transition is committed by the identical request, claim of an unclaimed intent included: one PATCH in all, but for a reset and for a stop between marker and PATCH, which is not made up for |
| `AttemptProgress.RepeatCommits` | ao_engineering_transition.py:1494-1589 | whatever a stop left of a pending attempt (no marker, a marker, a committed record), the identical request commits it once its inspections show the target in the audited room, and sends the PATCH only if no marker is stored |
| `AttemptProgress.AbandonCloses` | ao_engineering_transition.py:1731-1799 | a pending attempt is closed by its abandonment while the room shows the audited evidence, liveness aside, and no commit is stored; nothing is sent and no epoch is opened |
| `AttemptAnswers.StoppedAbandonment` | ao_engineering_transition.py:1731-1799 | an abandonment stopped after its record can still be completed by the same call |
| `AttemptAnswers.RepeatAbandons` | ao_engineering_transition.py:1566-1589 | and the identical transition request completes it to the same disk as the abandonment itself |
| `AttemptAnswers.EndedAnswers` | ao_engineering_transition.py:1604-1683 | a repeated request whose attempt has ended answers its record and writes nothing; the same id with other inputs is refused |
| `AttemptAnswers.EndedAbandonAnswers` | ao_engineering_transition.py:1731-1760 | an abandonment of an attempt that has ended answers exactly where the record is this very abandonment, and writes nothing |
| `AttemptFacts.RunAttests` | ao_engineering_model.py:880-1023 | after every run each published attempt is attested by its files: an intent bound to a ready idle engineer of the source model at the greatest effort, a commit that saw exactly the target behind its marker, an abandonment that saw the old settings and names who decided it |
| `AttemptFacts.AppliesIff` | ao_engineering_transition.py:1070-1204 | over a settled journal a new request stores its intent exactly where target, engineer, liveness, settings, requests, specification, candidate, history and audit are what the live room shows |
| `AttemptFacts.RetentionIff` | ao_engineering_transition.py:300-350 | other qualification evidence counts as unchanged exactly if it is of the same authority and only became retained |
| `PatchWitness.NewRoomCommits` | ao_engineering_transition.py:1427-1563 | in a new room with any policy, under no or a holding precondition, every possible transition is such a transition and opens a second epoch of its target |
| `RoomTheorems.PatchIsLast` | ao_engineering_transition.py:1494-1524 | at the moment a PATCH is sent the intent, the pending pointer and the marker of that very request are durable, no terminal record exists and no PATCH was sent before; what it sends is the target spelling and the greatest effort |
| `RoomTheorems.CrashClosure` | ao_engineering_model.py:1026-1084 | wherever a run stops, the reader accepts the journal, or exactly one intent is unclaimed and the rest is accepted; only the newest attempt can be pending |
| `RoomTheorems.RunKeepsJournal` | ao_engineering_model.py:580-619 | intents, markers and terminal records are never replaced by any run, and a terminal attempt stays published with its outcome |
| `RoomTheorems.TerminalExclusive` | ao_engineering_transition.py:1427-1491 | once a terminal record is durable no later run publishes the other outcome or other bytes, also when the crash fell between the record and its pointer |
| `RoomTheorems.ClaimableIff` | ao_engineering_model.py:1026-1084 | the journal accepts the pointer of an unclaimed intent exactly while fewer than 32 attempts are published |
| `RoomTheorems.RecoveryIff` | ao_engineering_transition.py:1226-1258 | a claim succeeds exactly for the identical request against the unchanged room below the bound, and then writes just that intent again and its pending pointer |
| `RoomTheorems.OnlyRecoveryMoves` | ao_engineering_transition.py:1226-1258 | while an intent is unclaimed every other journal call writes nothing |
| `RoomTheorems.BoundStrands` | ao_engineering_transition.py:1527-1563 | a new request stores its intent before the bound is rechecked: exactly at 32 attempts it leaves an intent no call can claim |
| `RoomTheorems.StrandedForever` | ao_engineering_transition.py:1226-1258 | over every later run such an intent stays unclaimed: no file is stored, no PATCH sent, no pointer moved and no request created |
| `RoomRecovery.RecoverableIff` | ao_engineering_transition.py:1226-1258 | some later run claims an interrupted intent exactly while fewer than 32 attempts are published and observations can still lead from the room as it is to the room the intent was made from |
| `RoomRecovery.LateForever` | ao_engineering_transition.py:1226-1258 | once they cannot, or the bound is reached, the intent stays unclaimed over every run, and no file, PATCH, pointer or request is added |
| `RoomRecovery.SettlingIsTooLate` | ao_engineering_transition.py:1245-1251 | settling any request that was unsettled when the intent was stored makes it too late |
| `AttemptWitness.AttemptsReached` | ao_engineering_transition.py:1527-1799 | every number of attempts up to 32 is reached from a new room by transitions stopped after their pointer and then abandoned, and the journal is settled after each |
| `AttemptWitness.BoundIsReached` | ao_engineering_transition.py:1527-1563 | so 32 are reached, and the next request strands its intent although nothing stops it |
| `RoomTheorems.FrozenIdentitiesStable` | ao_engineering_model.py:1377-1401 | no run of adoptions and commits changes the frozen identity of a retained engineer request, and each still matches its epoch, so its check keeps succeeding |
| `ResolutionFacts.DispatchAdopts` | ao_engineering_model.py:1404-1466 | a dispatch to the engineer of an unresolved family epoch whose newest turn proves a model stores and claims it: from then on the epoch expects exactly that model |
| `ResolutionFacts.AdoptsNow` | ao_engineering_model.py:1404-1466 | the newest turn is adopted where it proves a model of the family |
| `ResolutionFacts.AdoptsOnly` | ao_engineering_model.py:1404-1466 | and nothing else is adopted |
| `ResolutionFacts.ClaimSucceeds` | ao_engineering_model.py:1404-1466 | a resolution on disk that no pointer claims can always be claimed, so only a crash separates its two writes |
| `ResolutionFacts.TransitionClaims` | ao_engineering_transition.py:1261-1274 | an adoption whose claim was cut off is claimed by the next transition call, whichever it is |
| `ResolutionFacts.DispatchFreezes` | ao_engineering_model.py:1469-1484 | over a settled journal a dispatch under a new id saves its request with the identity of the newest epoch, where that is exact or qualified |
| `ResolutionFacts.UnqualifiedRefuses` | ao_engineering_model.py:1487-1496 | an unqualified family epoch saves no request |
| `RoomTheorems.EpochsAppendOnly` | ao_engineering_model.py:1156-1187 | over every run the committed epochs are only appended to |
| `RoomTheorems.BoundariesMonotone` | ao_engineering_model.py:1089-1108 | epoch boundaries never decrease along the committed records |
| `RoomTheorems.CommitSplitsOrders` | ao_engineering_model.py:1190-1197 | a commit keeps the epoch of every retained creation order and gives every later order to the new epoch |
| `RoomTheorems.PlanLegal` | ao_engineering_transition.py:1566-1683 | every write of every call happens only in the state its protocol step demands |
| `TransitionSafety.StepKeepsInv` | ao_engineering_transition.py:1226-1589 | each single durable write, done where it is legal, keeps the journal invariant |
| `TransitionSafety.StepKeepsIdentities` | ao_engineering_model.py:1377-1466 | each single write keeps the identity of every retained engineer request |
| `TransitionProtocol.PublishSucceeds` | ao_engineering_transition.py:1427-1491 | the terminal pointer of a record written against an accepted pending journal is always accepted, so a settled attempt is never left half published by a check |
| `TransitionProtocol.TransitionLegal` | ao_engineering_transition.py:1653-1685 | a whole transition call, claim included, is legal write by write from any reachable disk |
| `TransitionProtocol.AbandonLegal` | ao_engineering_transition.py:1731-1799 | abandonment writes only its own record and pointer, and only against the exact pending attempt |
| `TransitionProtocol.ReconcileLegal` | ao_engineering_transition.py:1566-1589 | reconciling a pending attempt never sends a second PATCH and never contradicts a stored record |
| `TransitionProtocol.ResolutionLegal` | ao_engineering_model.py:1404-1466 | adopting a resolution stores and claims exactly one record for the epoch still adopting |
| `JournalProofs.ChainPush` | ao_engineering_model.py:1026-1084 | publishing a pending pointer over an accepted journal is accepted when its files are in place and the bound allows |
| `JournalProofs.ChainSettle` | ao_engineering_model.py:1026-1084 | replacing the pending pointer by its terminal state keeps every other attempt accepted |
| `JournalProofs.IndexByOpenings` | ao_engineering_model.py:1190-1197 | which epoch owns an order depends only on where the epochs open, so resolving an epoch moves no order |
| `JournalProofs.ResolutionGrows` | ao_engineering_model.py:1200-1289 | a recorded resolution stays valid as outcomes, requests and later observations are added |
| `EngineeringModel.WalkBack` | ao_engineering_model.py:1026-1056 | the loop that walks pending pointers back refuses exactly a repeated, oversized or unreadable chain, and returns the whole lineage otherwise |
| `EngineeringModel.ReadChain` | ao_engineering_model.py:1026-1084 | the reader accepts exactly the journals whose shape, links and file names are consistent |
| `EngineeringModel.ScanEpochs` | ao_engineering_model.py:1190-1197 | the scan over the epochs in order, keeping the last one opened at or before the order, picks exactly the epoch that owns it |
| `RoomDirectory.Directory.BindEngineer` | ao_project_room.py:826-879 | binds the engineer once, or answers the identical repeat without writing |
| `RoomDirectory.Directory.Write` | ao_engineering_model.py:580-637 | one durable write, or the stop before it |
| `RoomDirectory.Directory.Journal` | ao_engineering_model.py:1304-1310 | the offline reader over the directory answers exactly whether the journal is accepted |
| `RoomDirectory.Directory.Settle` | ao_engineering_transition.py:1427-1491 | performs exactly the prefix of the settling plan that the remaining writes allow |
| `RoomDirectory.Directory.Advance` | ao_engineering_transition.py:1494-1524 | performs exactly the prefix of: marker, one PATCH, then settle |
| `RoomDirectory.Directory.Apply` | ao_engineering_transition.py:1527-1563 | performs exactly the prefix of: intent, pending pointer, then advance |
| `RoomDirectory.Directory.AbandonLocked` | ao_engineering_transition.py:1731-1799 | performs exactly the prefix of the abandonment plan |
| `RoomDirectory.Directory.Reconcile` | ao_engineering_transition.py:1566-1589 | performs exactly the prefix of the reconciliation plan |
| `RoomDirectory.Directory.AdoptResolution` | ao_engineering_model.py:1404-1466 | performs exactly the prefix of the adoption plan, claiming an interrupted record first |
| `RoomDirectory.Directory.Claim` | ao_engineering_transition.py:1226-1258 | claims exactly what the claim plan claims |
| `RoomDirectory.Directory.TransitionLocked` | ao_engineering_transition.py:1653-1685 | the whole locked transition performs exactly the prefix of its plan |
| `ModelBoundaries.AmbiguousIff` | ao_model_boundaries.py:635-652 | without a carrying order a reader refuses exactly the epochs whose rendering depends on one |
| `ModelBoundaries.DeliveredNoticeStable` | ao_model_boundaries.py:772-786 | a notice carried by a retained engineer request keeps its boundary, hence its fragment, over every later run |
| `ModelBoundaries.NoticeRoundTrip` | ao_model_boundaries.py:568-588 | the boundary a new request must still deliver is exactly the one a reader reconstructs at that request's order |
| `ModelBoundaries.SameBoundary` | ao_model_boundaries.py:655-692 | a named committed boundary is reconstructed identically wherever the rendering of its epoch at that order is kept |
| `NoticeFacts.BoundaryIff` | ao_model_boundaries.py:655-692 | a reader with an order accepts a boundary exactly if one of the room's own attempts was committed by the named record and was the reset or the change the notice says |
| `NoticeFacts.CommitGivesNotice` | ao_model_boundaries.py:446-459 | once an attempt is committed the newest boundary is its own: its id and record, as the reset or the change it was, for the model it asked for |
| `EngineeringPolicy.OlderTotal` | ao_qualification_draft.py:42-47 | version tuples are totally ordered |
| `EngineeringPolicy.OlderTransitive` | ao_qualification_draft.py:42-47 | the version order is transitive |
| `EngineeringPolicy.FamilyIsUnique` | ao_engineering_policy.py:118-124 | an exact model identifier belongs to at most one family |
| `EngineeringPolicy.ReadLog` | ao_engineering_policy.py:83-115 | the one-pass reader accepts exactly the chained logs whose head the room's pointer names |
| `EngineeringPolicy.RecordIff` | ao_engineering_policy.py:127-189 | wherever a set or revoke stops, the log and the pointer agree, except exactly between its record and its saved pointer |
| `PolicyStanding.SetIff` | ao_engineering_policy.py:127-189 | a set is accepted exactly over an orderly log and a settled journal whose newest epoch is an exact member of a known family, the named one if one is named, and records that family as active |
| `PolicyStanding.RevokeIff` | ao_engineering_policy.py:127-189 | a revoke is accepted exactly over an orderly log whose policy is active, and records the same family as no longer active |
| `PolicyStanding.InForceIff` | ao_engineering_policy.py:127-189 | after every run the policy is in force exactly when the last set or revoke carried through was a set |
| `PolicyStanding.RevokedStays` | ao_engineering_policy.py:127-374 | after a revoke carried through, over every later run without a completed set, the policy stays out of force, every choice over an orderly log is inactive and no follow creates an intent |
| `PolicyStanding.FollowsIff` | ao_engineering_policy.py:230-311 | the choice follows exactly where the request is new, the policy is in force, nothing is under way or on hold, and a strictly newer exact family member than the current one is expected |
| `PolicyStanding.AnswersIff` | ao_engineering_policy.py:230-311 | it is inactive exactly for a known request, without a policy or over a revoked one, reports no change exactly where the expected model already runs, and refuses exactly over a damaged log or journal |
| `PolicyStanding.CreatesAsChosen` | ao_engineering_policy.py:330-371 | an intent a follow creates moves the very model the choice followed from to the one it chose, under the record it chose by, which is still active |
| `EngineeringPolicy.HalfRecordedBlocks` | ao_engineering_policy.py:127-189 | over a half-recorded log every set and revoke is refused, and the choice refuses exactly the new requests of a room with a saved pointer; otherwise it answers inactive before reading the log |
| `PolicyRuns.LogInOrderIff` | ao_engineering_policy.py:83-189 | over every run the log ends half recorded exactly when an accepted set or revoke was stopped between its two writes |
| `PolicyRuns.HalfRecordedForever` | ao_engineering_policy.py:83-115 | a half-recorded log stays as it is over every run: no record is added and the pointer never moves |
| `PolicyRuns.LaterCallsRefused` | ao_engineering_policy.py:127-274 | after such a stop, whatever run follows, every set and revoke is refused and so is the choice for every new request of a room with a policy |
| `EngineeringPolicy.CreatesOnlyUnderPolicy` | ao_engineering_policy.py:330-371 | in every interleaving of the two lock windows a new intent is created only where the chosen record is still the active policy and the epoch has not moved |
| `EngineeringPolicy.FollowIsNewer` | ao_engineering_policy.py:276-311 | what the policy chooses is a strictly newer exact model of the recorded family |
| `EngineeringPolicy.PolicyOnlyUpgrades` | ao_engineering_policy.py:230-374 | for every run between the two windows an intent the policy creates moves one exact model of its family to a strictly newer one |
| `EngineeringPolicy.FollowsIncrease` | ao_engineering_policy.py:230-374 | over a stretch of epochs that each follow the one before, the version strictly increases |
| `PolicyRuns.RunOnlyFollows` | ao_engineering_policy.py:230-374 | over every run whose transitions all come from follow choices of one family, wherever each stops, every committed epoch moves its predecessor to a newer exact model of the family |
| `PolicyRuns.PolicyRunsIncrease` | ao_engineering_policy.py:230-374 | from a settled room such a run strictly increases the version from epoch to epoch and never returns to a model it left |
| `PolicyWitness.FirstSetHalves` | ao_engineering_policy.py:127-189 | in a new room of an exact member of a known family the first set is accepted, and leaves the log half recorded exactly when it stops after one write |
| `PolicyWitness.PolicyRunMoves` | ao_engineering_policy.py:230-374 | from a new room whose policy expects a newer family member, one followed transition opens a second epoch of that member |
| `AcceptanceTheorems.NewLaneInv` | ao_acceptance_extension.py:343-366 | a room that never used the lane satisfies the invariant |
| `AcceptanceTheorems.RunKeepsInv` | ao_acceptance_extension.py:282-340 | the accounting invariant survives every run of audits, grants, sends and observations cut after any durable write |
| `AcceptanceTheorems.Accounting` | ao_acceptance_extension.py:282-340 | kinds alternate, reviewer attempts equal three plus the consumptions, at most one grant is unused, ids are distinct and disjoint, and exactly the consumed reviews are linked, each to its own grant and consumption |
| `AcceptanceTheorems.OneReviewPerGrant` | ao_acceptance_extension.py:813-860 | a grant has at most one dispatched review, and only after its consumption was projected |
| `AcceptanceTheorems.RunDispatchesOnce` | ao_acceptance_extension.py:813-860 | the same for every grant of the journal after every run |
| `AcceptanceSends.SendIff` | ao_acceptance_extension.py:768-811 | over a valid lane a send writes exactly where its id is new and either an unused grant names this very review and message over unchanged live evidence and settled requests, or no grant is unused and the send is ordinary |
| `AcceptanceSends.OrdinaryWrites` | ao_project_room.py:1085-1200 | an ordinary send saves exactly this request, unsettled and unlinked, and posts exactly this message |
| `AcceptanceSends.RunPostsAudited` | ao_acceptance_extension.py:781-860 | after every run whatever a review beyond the three ordinary ones posts is the review and the message its grant's audit names |
| `AcceptanceSends.AuditIff` | ao_acceptance_extension.py:456-663 | an audit is stored exactly over an exhausted settled lane and a new review, and holds the state, journal, attempts and live evidence it saw |
| `AcceptanceSends.GrantIff` | ao_acceptance_extension.py:681-747 | a new grant is stored exactly where its audit is on disk and is still what an audit would say, and its own id is new; it repeats the audit's target and attempts |
| `AcceptanceSends.KnownGrant` | ao_acceptance_extension.py:681-712 | a known grant answers its own inputs, refuses others and writes nothing |
| `AcceptanceTheorems.StrandsIff` | ao_acceptance_extension.py:223-237 | the lane is stranded exactly by a dispatch through a grant that stopped between its stored consumption and its saved state |
| `AcceptanceTheorems.StrandedForever` | ao_acceptance_extension.py:223-237 | a stranded consumption blocks every later run: nothing is dispatched and no request, grant or consumption is added |
| `AcceptanceTheorems.PendingOnlyReconciles` | ao_acceptance_extension.py:714-745 | while a grant is stored but not projected only its identical request writes, and only that grant's own projection |
| `AcceptanceTheorems.RetryCompletesGrant` | ao_acceptance_extension.py:681-747 | an interrupted grant is completed by the identical request to the very state an uninterrupted one leaves |
| `AcceptanceTheorems.PendingCompletedIff` | ao_acceptance_extension.py:714-745 | a pending grant is completed exactly by its identical inputs over unchanged evidence; a changed observation leaves it pending |
| `AcceptanceTheorems.UnusedFreezes` | ao_acceptance_extension.py:241-279 | while a grant is unused nothing it pins changes and the request set grows only by the one review it names |
| `AcceptanceTheorems.UnusedFreezesRun` | ao_acceptance_extension.py:241-279 | over every run from an unused grant the journal stays as it is exactly while no event goes through the grant, and until then nothing the grant pins changes and no request appears |
| `AcceptanceWitness.ExtensionDispatches` | ao_acceptance_extension.py:681-860 | from every eligible lane audit, grant and send dispatch exactly the one named review; stopped after its first write, and only then, the send strands the lane |
| `AcceptanceWitness.ExtensionStaysPending` | ao_acceptance_extension.py:681-747 | from every eligible lane a grant stopped before its projection and one observation that changes a request leave a pending grant that no request completes |
| `AcceptanceWitness.ThreeReviewsEligible` | ao_acceptance_extension.py:343-366 | three settled reviews make a lane that never held anything eligible |
| `AcceptanceProofs.GrantStored` | ao_acceptance_extension.py:681-747 | storing a recomputed grant over a clean lane keeps the invariant |
| `AcceptanceProofs.ConsumedSound` | ao_acceptance_extension.py:813-860 | projecting a consumption with its linked request keeps every accounting clause |
| `AcceptanceJournal.CountAttempts` | ao_acceptance_extension.py:282-296 | the loop over grants and consumptions accepts exactly the recorded attempt counts |
| `AcceptanceJournal.MatchConsumptions` | ao_acceptance_extension.py:297-318 | the loop accepts exactly when every consumption answers the grant before it and its own reviewer attempt |
| `AcceptanceJournal.Journal.Read` | ao_acceptance_extension.py:191-238 | the reader accepts exactly the projected chains, with one trailing grant only where it may be reconciled |
| `AcceptanceJournal.Journal.Validate` | ao_acceptance_extension.py:343-366 | answers exactly whether the lane is valid |
| `AcceptanceJournal.Journal.Extend` | ao_acceptance_extension.py:681-747 | performs exactly the prefix of the grant plan that the remaining writes allow |
| `AcceptanceJournal.Journal.Consume` | ao_acceptance_extension.py:813-860 | performs exactly the prefix of: consumption, saved projection, dispatch |
| `AcceptanceJournal.Journal.Send` | ao_project_room.py:1085-1200 | a send goes through the ordinary path or the admitted grant exactly as planned |
| `Coordination.OverlapEmptyIff` | ao_coordination.py:253-258 | the overlap of two path sets is empty exactly when no path whatever is covered by both |
| `CoordinationProofs.RunKeepsInv` | ao_coordination.py:416-562 | the reservation invariant survives every run of admissions, handbacks, preflights and imports cut after any file replacement |
| `CoordinationTheorems.EngagedDisjoint` | ao_coordination.py:111-140 | two engaged assignments of one repository cover no path in common, unless one names the other as superseded |
| `CoordinationTheorems.OneEngagedPerOwner` | ao_coordination.py:136-140 | one engaged assignment per owner, with the same exception |
| `CoordinationTheorems.HandbacksDisjoint` | ao_coordination.py:657-663 | handbacks recorded for two such assignments touch no path in common |
| `CoordinationTheorems.TerminalAbsorbing` | ao_coordination.py:895-910 | no run changes the stage, lineage or import record of an imported or superseded assignment |
| `CoordinationTheorems.SupersedesIff` | ao_coordination.py:540-549 | an admission ends the assignment it supersedes exactly when it got past its third write |
| `CoordinationTheorems.RetryTouchesOnlyItself` | ao_coordination.py:522-535 | a retried admission writes to no other assignment, so an interrupted supersession stays unfinished |
| `CoordinationTheorems.RetryCompletes` | ao_coordination.py:522-559 | without supersession the identical call completes an interrupted admission to the very world of an uninterrupted one |
| `CoordinationTheorems.RecordRetryCompletes` | ao_coordination.py:565-1019 | a handback, preflight or import stopped after any of its writes is accepted again and leaves the very world of the uninterrupted call |
| `CoordinationRecords.RunProves` | ao_coordination.py:878-1019 | over every run with any cuts each imported assignment names a stored import whose preflight is stored, the last, unblocked and about the latest stored handback, ready unless a resolution is given; nothing of the handback is missing, and without a resolution nothing else was touched |
| `CoordinationRecords.HandbackIff` | ao_coordination.py:565-703 | a handback is recorded exactly for an engaged assignment, by its own room, over valid evidence, when the candidate changes something and nothing outside the owned paths |
| `CoordinationRecords.PreflightIff` | ao_coordination.py:783-875 | a preflight is recorded exactly for the stored latest handback, by the owner, over valid evidence, and is ready exactly when nothing blocks it and the preview is clean |
| `CoordinationRecords.ImportIff` | ao_coordination.py:878-1019 | a new import is recorded exactly for the last unblocked preflight about the latest handback, by the owner, when the handback arrived whole; a resolution stands in only for a preflight that was not ready or for other changes |
| `CoordinationRecords.ImportedIff` | ao_coordination.py:895-912 | a recorded import answers its own preflight, operation and resolution and refuses every other |
| `CoordinationRecords.FreshIff` | ao_coordination.py:416-535 | a new assignment is admitted exactly between two different normal rooms of one repository, a possible owner and a free assignment room, over admissible paths nothing conflicts with |
| `CoordinationRecords.FreshPins` | ao_coordination.py:500-535 | the writes of an admission, which pin its rooms, repository, paths and what it supersedes, mark that with its successor and extend both pointers |
| `CoordinationRecords.RetryIff` | ao_coordination.py:416-559 | a repeated admission is accepted exactly for the stored lineage, whose account policy and start stay as recorded, under the conditions of a new one; if the assignment has ended nothing can be in its way; it completes lifecycle and pointers |
| `CoordinationRecords.RefusalsRecorded` | ao_coordination.py:151-160 | whatever handback, preflight or import a known room calls for a readable assignment and is refused leaves one more refusal there, of which the newest twenty are kept |
| `CoordinationTheorems.SupersedingRetryIff` | ao_coordination.py:458-476 | with supersession the identical call is accepted exactly until the superseded record is marked, so pointers skipped later are not repaired by it |
| `CoordinationRoles.AdmissionPrefixIff` | ao_coordination.py:522-559 | a fresh admission stopped anywhere keeps all room pointers complete exactly when none or all of its writes happened |
| `CoordinationRoles.UnfinishedExactly` | ao_coordination.py:522-559 | over every run with any cuts an assignment lacks a room pointer exactly when its admission was stopped between its first and its last write and no later call carried it through |
| `CoordinationRoles.PointersOkIff` | ao_coordination.py:550-559 | so after a run the room pointers are complete exactly when it left no admission open |
| `CoordinationRoles.WholeRunsKeepRoles` | ao_coordination.py:550-559 | in particular over runs without a crash the room pointers stay complete |
| `CoordinationRoles.RoleExclusive` | ao_coordination.py:434-436 | complete pointers suffice for exclusive roles: no room is the owner of one assignment and the assignment room of another |
| `RoleExclusivity.AdmissionExclusiveIff` | ao_coordination.py:434-475 | over exclusive roles a fresh admission that began keeps them exclusive exactly when it takes neither room of an assignment with a missing pointer in the opposite role |
| `RoleExclusivity.RunExclusiveIff` | ao_coordination.py:416-562 | after every run with any cuts the roles are exclusive exactly when no fresh admission began against an assignment that was unfinished at that moment |
| `RoleExclusivity.StoppedRoomOpensIff` | ao_coordination.py:434-494 | an admission that takes either room of a stopped one in the opposite role, acceptable before, is accepted exactly until the stopped one wrote the pointer of that room, provided the paths do not overlap |
| `RoleExclusivity.CrashBreaksRoles` | ao_coordination.py:550-559 | whenever it is accepted, one room has both roles in two engaged assignments |
| `RoleExclusivity.CrashExample` | ao_coordination.py:550-559 | a concrete such crash from an empty controller home: the assignment room becomes an owner |
| `RoleExclusivity.MirrorExample` | ao_coordination.py:550-559 | and its mirror: the owner becomes an assignment room |
| `RoleExclusivity.SupersedingExample` | ao_coordination.py:458-476 | a concrete admission that supersedes is accepted after a whole first one, so the supersession cases are reached |
| `OwnedPaths.NeighboursOkIff` | ao_coordination.py:284-287 | the check on sorted neighbours admits an ancestor with its descendant exactly when some entry extends that ancestor with a character below the separator |
| `OwnedPaths.NeighboursExact` | ao_coordination.py:284-287 | where no entry does, the check admits exactly the lists without nesting |
| `OwnedPaths.NestedPathsAdmitted` | ao_coordination.py:276-288 | a concrete admitted list with an ancestor and its descendant |
| `OwnedPaths.SplitJoins` | ao_coordination.py:261-273 | the checked parts of a path hold no separator and joined again are the path |
| `CoordinationController.Controller.Scan` | ao_coordination.py:111-140 | the scan over sibling directories is clear exactly when no sibling conflicts |
| `CoordinationController.Controller.PriorsFree` | ao_coordination.py:477-494 | the loop over the assignment room's earlier assignments decides exactly whether it is free |
| `CoordinationController.Controller.AssignmentOpen` | ao_coordination.py:416-562 | performs exactly the prefix of the admission plan, fresh or repeated |
| `CoordinationController.Controller.RecordHandback` | ao_coordination.py:565-703 | performs exactly the prefix of the handback plan, refusals recorded and unowned paths refused |
| `CoordinationController.Controller.RunPreflight` | ao_coordination.py:783-875 | performs exactly the prefix of the preflight plan, refusals recorded |
| `CoordinationController.Controller.RecordImport` | ao_coordination.py:878-1019 | performs exactly the prefix of the import plan, the record file before the lifecycle, answering a repeated import without writing |
| `EvidenceScan.ScanSource` | ao_evidence_audit_io.py:531-570 | for every sequence of short reads: the records of the whole extent in order, torn exactly for an unterminated tail, refused on length exactly when a record exceeds the limit and by the record handler exactly when it refuses one, every byte read charged, and no aggregate overrun after admission |
| `EvidenceScan.RehashSource` | ao_evidence_audit_io.py:573-589 | succeeds exactly when the admitted extent is unchanged |
| `EvidenceScan.AdmitExtent` | ao_evidence_audit_io.py:520-528 | admits exactly the extents within the file and remaining aggregate bounds |
| `EvidenceScan.Collector.Charge` | ao_evidence_audit_native.py:392-395 | adds the count and answers whether the aggregate is still within its limit |
| `EvidenceScan.SplitConcat` | ao_evidence_audit_io.py:545-565 | splitting a longer extent continues from the pending tail of a shorter one |
| `EvidenceScan.JoinSplit` | ao_evidence_audit_io.py:545-565 | lines and tail give the extent back |
| `EvidenceScan.SplitUnique` | ao_evidence_audit_io.py:545-565 | they are the only cut into newline-free pieces |
| `EvidenceScan.FitsPrefix` | ao_evidence_audit_io.py:556-562 | what is too long in a prefix is too long in the whole |
| `ChildAdmission.Gather` | ao_evidence_audit.py:775-846 | the worklist ends within the child limit and claims every candidate of every scanned source |
| `ChildAdmission.DescendsFrom` | ao_evidence_audit.py:687-694 | the parent walk answers exactly the descendant relation |
| `ChildAdmission.TakeNext` | ao_evidence_audit.py:781-845 | one candidate is treated as the source's branches demand: unresolved, repeated, over a limit, barred or admitted |
| `ChildAdmission.TakeKeeps` | ao_evidence_audit.py:781-845 | each candidate keeps the claim counts, marks, bounds and source list of the worklist |
| `ChildAdmission.AdmitsIff` | ao_evidence_audit.py:781-845 | a candidate becomes a child exactly where it names an unclaimed agent, admission is open, its source has authority and both limits leave room; the entry it becomes and what is noted of it |
| `ChildAdmission.CloseUnder` | ao_evidence_audit.py:847-852 | the closing pass marks exactly the entries at or below a marked one |
| `ChildAdmission.AmbiguousIff` | ao_evidence_audit.py:781-852 | a child ends ambiguous exactly when some child at or above it was claimed twice, unreadable or contradictory |
| `ChildAdmission.UnambiguousClaimedOnce` | ao_evidence_audit.py:787-796 | an unambiguous child's agent, and every one above it, was claimed by exactly one candidate of all scanned sources |
| `ChildAdmission.AmbiguousClosed` | ao_evidence_audit.py:847-852 | the ambiguous set is closed under descendants |
| `ChildAdmission.NoProblemMeansComplete` | ao_evidence_audit.py:775-852 | when no problem was noted every launch of every scanned source is its own readable unambiguous child |
| `ChildAdmission.CompleteIff` | ao_evidence_audit.py:775-852 | no problem is noted exactly when every launch of every scanned source is named, proved, readable, uncontradicted, claimed once and within the limits |
| `ChildAdmission.DroppedForReason` | ao_evidence_audit.py:781-845 | a named launch without an admitted child met a reached limit, an exhausted budget or a source that had lost authority |
| `ChildAdmission.ChildOrigin` | ao_evidence_audit.py:775-846 | every child was launched by the file of the child it is listed under, or by the parent's own source |
| `EvidenceCounts.ChildNested` | ao_evidence_audit_native.py:539-565 | a child interval lies in time inside the interval it was launched from |
| `EvidenceCounts.IntervalIsOneExchange` | ao_evidence_audit_native.py:957-991 | a proved parent interval contains no human message |
| `EvidenceCounts.IntervalsDisjoint` | ao_evidence_audit_native.py:957-991 | requests anchored at different messages never share a record |
| `EvidenceCounts.OrderedSorted` | ao_evidence_audit_native.py:1034-1038 | the admission order is sorted by first occurrence and leaves no occurring entry out |
| `EvidenceCounts.LaunchCandidates` | ao_evidence_audit_native.py:1025-1098 | one candidate per launch inside the scope, in admission order |
| `EvidenceCounts.CandidatesAligned` | ao_evidence_audit_native.py:1101-1133 | candidates and launch entries agree in number and position |
| `EvidenceCounts.LaunchInventory` | ao_evidence_audit_native.py:1101-1133 | the inventory is never withheld and each annotation belongs to the entry its candidate came from |
| `EvidenceCounts.CandidateSound` | ao_evidence_audit_native.py:1047-1097 | a candidate with an interval has only non-error results naming at most its own agent, inside the scope |
| `EvidenceFacts.IntervalIff` | ao_evidence_audit_native.py:957-991 | a parent interval is proved exactly when one message anchors the request and the next one, later, single and unshared in time, closes it, or the finished turn does when none follows |
| `EvidenceFacts.AttributedIff` | ao_evidence_audit_native.py:1025-1098 | a launch is attributed to an agent exactly when its results are its own, all non-errors that name that agent, and do not conflict about its completion |
| `EvidenceFacts.ChildIff` | ao_evidence_audit_native.py:1025-1098 | a launch has a proved interval exactly when one result completes it and every other shares that completion |
| `EvidenceFacts.ChildInterval` | ao_evidence_audit_native.py:1025-1098 | and that interval runs from the launch to that result |
| `EvidenceFacts.SummaryIff` | ao_evidence_audit_native.py:364-375 | a read is failed or not exactly when its results are one classified result, and open exactly without a result |
| `EvidenceFacts.ReadIff` | ao_evidence_audit_native.py:1136-1214 | an entry counts as a request exactly when all its occurrences inside the scope are one supported read |
| `EvidenceReads.CountGroup` | ao_evidence_audit_native.py:1136-1214 | read requests equal the path classes and equal the outcomes, repeated inputs equal requests minus distinct inputs, and the duplicate counters equal the repeated records, occurrences and results inside the interval |
| `EvidenceReads.Partitions` | ao_evidence_audit_native.py:1182-1207 | every read has exactly one path class and one outcome |
| `EvidenceReads.Repeats` | ao_evidence_audit_native.py:1209-1210 | the summed surplus is every request but the first of each input |
| `ChildEvidenceReader.Evidence` | ao_engineering_transition.py:599-849 | accepts exactly the readable transcripts in which every launch has one proved end; correlated results equal launches and notifications equal the background launches that ran |
| `ChildEvidenceReader.Collect` | ao_engineering_transition.py:635-727 | the row loop collects exactly what reading each identified row once gives |
| `ChildEvidenceReader.JudgeLaunches` | ao_engineering_transition.py:732-835 | the judging loop accepts exactly when every launch has a proved end and no identity serves two launches |
| `ChildEvidenceProofs.DuplicateNoop` | ao_engineering_transition.py:641-649 | repeating an identical identified row anywhere later changes nothing |
| `ChildEvidenceProofs.RepeatedRow` | ao_engineering_transition.py:641-649 | another row with a used identity refuses |
| `ChildEvidenceProofs.EveryLaunchEndsOnce` | ao_engineering_transition.py:732-835 | the six dispositions add up to the launches |
| `ChildEvidenceProofs.DispositionProof` | ao_engineering_transition.py:776-835 | what each disposition proves: no notification for a launch that never ran, a matching one for a background launch, and never a bare acknowledgement |
| `ChildEvidenceProofs.NotificationsMatchBackground` | ao_engineering_transition.py:776-848 | terminal notifications are exactly those of background launches neither denied nor blocked |
| `ChildEvidenceProofs.IdentityNamesOneLaunch` | ao_engineering_transition.py:763-775 | an agent or task identity belongs to one launch |
| `ChildEvidenceProofs.ResultsOwned` | ao_engineering_transition.py:732-762 | every result of an accepted launch is owned by its launching message and gives the same projection |
| `ChildEvidenceFacts.CollectsAll` | ao_engineering_transition.py:635-727 | the reading overlooks nothing: what it collects are exactly the launches, results and terminal notifications the rows hold |
| `ChildEvidenceFacts.LaunchesHeld` | ao_engineering_transition.py:663-698 | every launch it knows is an Agent or Task use some row holds, under that row's identity, with its prompt and background flag |
| `ChildEvidenceFacts.ResultsHeld` | ao_engineering_transition.py:699-731 | a result is collected for a tool exactly if some row holds it, marked shared exactly when its message projects another result too |
| `ChildEvidenceFacts.NoticesHeld` | ao_engineering_transition.py:699-731 | and a terminal notification exactly if some row is one |
| `ChildEvidenceFacts.EndIff` | ao_engineering_transition.py:732-835 | a launch has ended in one way exactly when all its results are its own, classified and say the same, and that with its notifications shows this end |
| `ChildEvidenceFacts.ProjectionIff` | ao_engineering_transition.py:430-597 | what one classified result shows: nothing unless its identities agree, otherwise a denial, a block, an API error, a typed failure or a completion exactly where its own fields say so |
| `HistoryReconciliation.InvalidationHead` | ao_history_reconciliation.py:94-105 | the walk accepts exactly readable chains of at most 1000 records |
| `HistoryReconciliation.NeverRevives` | ao_history_reconciliation.py:221-248 | once the saved chain invalidated a proof no later observation after any run, damage and crashes included, answers it |
| `HistoryReconciliation.MintedOnlyByAudit` | ao_history_reconciliation.py:221-248 | a new proof needs an explicit audit and binds the evidence and head in force, above the invalidation of the one it replaces |
| `HistoryReconciliation.AnswerIff` | ao_history_reconciliation.py:221-248 | which proof an observation answers: the held one exactly while it is readable, current and settled, a new one exactly for an explicit settled audit |
| `HistoryReconciliation.NoProofIff` | ao_history_reconciliation.py:221-248 | and exactly when it answers that there is none |
| `HistoryReconciliation.AnswersAgain` | ao_history_reconciliation.py:221-248 | a proof that was answered and saved is answered again over unchanged evidence |
| `HistoryReconciliation.ReplacementIsNew` | ao_history_reconciliation.py:332-367 | a replacement differs from every proof the request ever carried |
| `HistoryReconciliation.InvalidationSavesOnlyItself` | ao_history_reconciliation.py:121-144 | an invalidation persists nothing but itself |
| `HistoryReconciliation.ProofLane.Drop` | ao_history_reconciliation.py:121-144 | stores and saves exactly the planned invalidation and tells the caller's copy |
| `HistoryReconciliation.ProofLane.ReconcileRequest` | ao_history_reconciliation.py:221-248 | performs the planned writes and answers as planned |
| `Handshake.CompleteIff` | ao_mcp_attachment.py:396-458 | while not failed, the witness holds the handshake complete exactly when the frames show one answered initialize, one initialized notification and an answered latest tools/list with exactly the expected tools |
| `Handshake.FailedIff` | ao_mcp_attachment.py:388-458 | the witness has failed exactly when some frame breaks the handshake where it stood, so ordinary traffic is never rejected |
| `Handshake.ReadyOnlyWhenDone` | ao_mcp_attachment.py:452-454 | ready is called only in a step that completes the handshake |
| `Handshake.ReadyWhenDone` | ao_mcp_attachment.py:452-454 | a witness that has not failed has called ready for every completed handshake |
| `Handshake.CallsAtMostOnce` | ao_mcp_attachment.py:388-394 | ready and invalid are each called at most once and nothing follows invalid |
| `Handshake.FailureAbsorbs` | ao_mcp_attachment.py:396-400 | failure is absorbing |
| `Handshake.Witness.ObserveFrame` | ao_mcp_attachment.py:396-458 | one frame moves the object exactly as specified |
| `Handshake.LineReader.Feed` | ao_mcp_attachment.py:472-477 | delivers exactly the frames the data completes and keeps the rest |
| `Handshake.ChunkingIrrelevant` | ao_mcp_attachment.py:472-477 | however the bytes are cut, the frames delivered are the lines of the whole |
| `HistoryPager.Conversation` | ao_history.py:72-161 | terminates against any server with strictly falling cursors, requests at most pages plus seven and never stopped by the request limit, and answers only the newest copies of the pages read; a strict answer is complete |
| `HistoryPager.OutcomeIff` | ao_history.py:72-161 | over the server's rounds: complete exactly when the last page fits and leads nowhere, unusable exactly when a page does not fit or leads nowhere, bounded exactly at its own limit |
| `HistoryPager.OneEnd` | ao_history.py:72-161 | one server and mode have exactly one such outcome |
| `HistoryPager.NewestCopy` | ao_history.py:137-151 | the row kept is the one of the newest page that has its identity |
| `HistoryPager.StrictAgrees` | ao_history.py:137-151 | in a strict read every copy of a row on any page is the copy kept |
| `HistoryPager.Collect` | ao_history.py:137-151 | accepts exactly well-formed rows without a duplicate or, in a strict read, a conflict |
| `HistoryPager.SizesReachOne` | ao_history.py:113-119 | the page size reaches one at the sixth reduction, never before |

## Left out

- Symlink, ownership, inode and fsync checks, descriptor chains and locks: file-system detail below one atomic write.
- SHA-256 and canonical JSON: replaced by the injective digest above; record size bounds and schema shapes that only restate field types go with them.
- Qualification and executable admission inside the observed evidence: one opaque value compared for equality, with the documented exceptions of what may change between two observations.
- The `_orders` refusals of malformed creation orders (`ao_engineering_model.py:1089-1108`): requests are a list in creation order here, so a malformed order cannot be written down.
- The provider-transition receipt, worker boundary notices and fragment texts of `ao_model_boundaries.py`: the root notice carries the hard part, and a fragment is a function of the boundary.
- Manifest digests, native owners and workspace checks of the acceptance audit: one opaque live value, compared where the source compares it. Purpose and role constants are not repeated per entry.
- Account profiles, specification and checkpoint checks of the coordination calls: one verdict per call. Recorded times are dropped, so a record equal to an earlier one up to its time is that record. The acceptance checks of owner and assignment rooms, the import preview and the status view are not modelled.
- Coordination.OwnedPathsOk: does not bound the UTF-8 length of a path, because encodings are not modelled.
- The record parser behind `EvidenceScan.ScanSource`: beyond the record count it is any function of the records so far that accepts or refuses the next one.
- Path classification, result canonicalization and the JSON parser of the evidence audit: each occurrence and result arrives classified. The recheck of listings and owners after the scans is not modelled.
- ChildAdmission.Gather: a directory listing that overflows adds a problem in the source and is not modelled.
- The exact spelling of error texts in `child_evidence`: the supported prefixes are constructors, the bracketed hook command is the set of guard digests it names.
- HistoryPager.Conversation: the order of the rows in the answer and the projection of activity details are not modelled, because the overlap and limit rules do not depend on them; the set of cursors already seen is implied by their strict fall.
- HistoryReconciliation: one request is followed; the choice of requests a failed operation invalidates is left to the caller, and inputs are one opaque value per lane.
- The receipts, leases and subprocess pump around the handshake witness: only its observations and callbacks are modelled, and a failing receipt is a flag of the observation.
- `ao_account_profiles.py`, `ao_findings.py`, `ao_delegates.py`, `ao_rate_limits.py`, `ao_current_summary.py`, `ao_prompt_metrics.py` and the instruction-text modules: projections, constants or easier copies of the patterns above.
- Error wording, status summaries and wall-clock times. Nothing was executed.
