# Regional transition, fault exercise, installer and signer rotation: verified model

This project models the parts of the control plane whose safety depends on several separately
changed stores, and proves what they keep over every run. `dafny verify dfyconfig.toml` checks it.

**Regional failover and failback** is one protocol over three stores.
`Journal` is the single-writer witness: an authority item and an append-only event log changed by
conditional transactions. `JournalTable` is that table as an object whose methods are the journal
functions, each proved against the specification `Journal.Execute`. `JournalHistory` lets any number of
clients read, stall and send their transactions late, shows that every interleaving is a serial history,
and proves the laws of those histories. `JournalOutcomes` says of each call, from the stored item, the
manifest and the clock alone, exactly when it is accepted and what it leaves. `Routing` holds the stable
DNS records and the exact Route 53 batches, and `RouteListing` the paged read of a hosted zone.
`LockStep` runs journal and DNS together with delayed clients and late batches. `LockStepLimits` says
exactly where lock-step ends when a client skips a check that the code leaves to its caller, and
`StalledOperator`, with the pieces in `Rehearsal`, plays two such runs in full. `RoutingSteps` is the
routing commands as methods of an operator, every stop of which is a run of `LockStep`, and
`RoutingOutcomes` says exactly when they succeed and that one lost on its way can be run again. `Runtime`
holds the fence and restore loops over the resources of a cell, `Transition` the journal and both cells
together, one resource write at a time, and `RuntimeSteps` the fencing, activation and restoring commands
as methods whose every stop is a run of `Transition`; `StepOutcomes` says exactly when they succeed,
phase by phase, and that wherever one stops it can still succeed when it is run again. `ThreeStores` puts
journal, DNS and both runtimes into one run and proves where traffic goes.

**The dependency-fault exercise** is `FaultStores` (lock, evidence, inline deny, cleanup schedule, and
the controller and watchdog as methods), `FaultSafety` (what they keep while the watchdog runs between
operations), `FaultOutcomes` (what each operation, a whole exercise and a whole watchdog run leave) and
`FaultRace` (every process in flight at once, call by call).

**The managed package installer** is `InstallSteps` (what each step does to the files and what undoes
it) and `Installer` (the installer's loops over an in-place file map).

**The assurance signer** is `SignerRegistry` (the deployment guard), `SignerRotation` (the rotation
commands, write by write), `SignerTrust` (trust precedes signing), `SignerConvergence` (re-running
a promotion, and when a preparation can complete), `SignerResumption` (re-running a preparation) and
`SignerWitness` (reachable worlds in which none can complete).

**Two small cores** are `LoadGate` (the percentile gate) and `ManagedBlock` (the configuration merge).

## Environment

These facts about the providers are assumed, not proved.

- A DynamoDB transaction commits wholly or not at all, and a consistent read sees the last commit.
- A Route 53 batch applies wholly or not at all. DELETE needs the exact record set, and CREATE needs
  the name and type to be free.
- SHA-256 over canonical JSON is injective. A digest is represented by the value it is computed from.
- One primary/recovery Region pair is fixed, and a manifest's source and target follow its direction
  (scripts/verify_aws_regional_activation.py:407-411). The two cells have different alias targets.
- The journal starts absent, DNS points at the primary with no marker, the primary runs its plan and
  the recovery cell is fenced.
- Resource discovery names everything that can run in a cell, and a target deployment that reports
  success has left the reviewed plan in place.
- Creating a cleanup schedule that exists leaves it as it is. A scheduler that refuses the repetition
  as a conflict ends the operation there, which is one of the stops every result allows. Deleting a
  schedule that does not exist is an error.
- Transition and fault identifiers are unique per authority. Minted keys, and the private names of
  staged and backup files, are new. A rename and a stack update happen wholly or not at all.

Journal-only and DNS-batch-only results hold for any number of concurrent, delayed clients. DNS
lock-step also holds for any number of them under the two guards of `LockStep.Guarded`, which a single
live operator meets. Results that join the journal to the runtimes are for one live operator that may
crash at any point and start again, while a deployment it started may still land late. The commands of
the signer rotation and the operations of the fault exercise may stop after any write.

## Where the code does less than it seems to

- `route_target_step` takes its generation from a second journal read and does not check it against the
  manifest. `LockStepLimits.SecondReadDecides` gives the exact condition under which the batch built
  from it keeps lock-step, and `StalledOperator.StalledOperatorBreaksLockStep` a run that loses it.
- The resume branch of `route_source_rollback_step` checks no authority, so its batch may be built from
  a journal read made under another transition. `LockStepLimits.RereadDecidesRollback` gives the exact
  condition under which a rollback batch that lands keeps lock-step, for either branch and however old
  the read; `RereadRollbackIsHarmlessForGood` shows that rereading before sending is enough for any later
  landing; and `StalledOperator.StalledResumeBreaksLockStep` is a run that loses it.
- The marker bound stops a rollback, but not the cutover before it, at expected generation
  1,000,000,000 (`LockStepLimits.MarkerBoundBlocksRollback`).
- Apply-deny checks its lock before the policy put only. A watchdog between that check and the put leaves
  an unwatched deny (`FaultSafety.WatchdogInsideApplyDeny`), and so does one that deleted the still absent
  deny before the check and removes the lock after the put (`FaultRace.WatchdogAroundApplyDeny`), where the
  lock is armed at the put itself. `FaultRace.CallKeepsWatchExactlyWhenHarmless` says for every single call,
  `RunIsWatchedExactlyWhenHarmless` for every run, and `PutIsSafeForGoodExactlyWhenClear` for everything that
  may follow a put, exactly when denies stay watched.
- `disarm-watchdog` does not resume. Lost between its two calls, it leaves the lock in DENY_REMOVED with
  no schedule; every later disarm raises at its first call and no watchdog is left to fire
  (`FaultOutcomes.LostDisarmIsNeverFinished`). Arming the same fault once more, which raises too, is what
  lets the disarm be repeated (`FaultOutcomes.RearmingFinishesDisarm`).
- A signer rotation cannot complete once there are eight historical keys, and a preparation that was
  abandoned after its trust was staged blocks every other one:
  `SignerConvergence.PreparationCompletesExactlyWhen`, with both worlds reached in `SignerWitness`.
- A managed block that carries the closing marker inside one of its values breaks the merge:
  `ManagedBlock.AbsorbsExactlyWhenItClosesOnce`.

## Model

| member | source | states |
|---|---|---|
| `JournalTable.Table.TransactWriteItems` | scripts/manage_aws_transition_journal.py:418-427 | the authority write and the event put commit together exactly when both conditions hold, and otherwise nothing changes |
| `JournalTable.Table.ReadState` | scripts/manage_aws_transition_journal.py:246-260 | a read succeeds exactly for a manifest with journal authority and an item with one of the two accepted field sets |
| `JournalTable.Table.VerifyCompletedStepEvidence` | scripts/manage_aws_transition_journal.py:364-415 | a retry is accepted exactly when the recorded event is the one this manifest would have written with this evidence |
| `JournalTable.Table.InitializeState` | scripts/manage_aws_transition_journal.py:263-314 | refines the journal specification: generation-zero authority is created at most once, by a live failover manifest |
| `JournalTable.Table.ClaimSourceFence` | scripts/manage_aws_transition_journal.py:446-505 | refines the journal specification: claims, resumes or refuses, leaving item and log as specified; `JournalOutcomes.ClaimExactlyWhen` says which |
| `JournalTable.Table.AdvancePhase` | scripts/manage_aws_transition_journal.py:508-602 | refines the journal specification for every pair of phases, retries included |
| `JournalTable.Table.CompleteTransition` | scripts/manage_aws_transition_journal.py:605-700 | refines the journal specification: seals generation plus one on the target, or answers a retry by its evidence |
| `JournalTable.Table.CompleteRollback` | scripts/manage_aws_transition_journal.py:703-798 | refines the journal specification: seals generation plus two on the source, or answers a retry by its evidence |
| `JournalOutcomes.EveryCommitWasLive` | scripts/manage_aws_transition_journal.py:429-463 | every commit of every kind, in any serial history, was decided before its own authority expired |
| `JournalOutcomes.EveryCommitIsDated` | scripts/manage_aws_transition_journal.py:334-361 | each commit dates the item and appends one event that carries its manifest's direction, cells, authority, evidence and step evidence at its own position |
| `JournalOutcomes.PlannedWriteCommits` | scripts/manage_aws_transition_journal.py:418-427 | in a reachable journal a call that decides to write does commit, under an event key that is still free |
| `JournalOutcomes.InitializeExactlyWhen` | scripts/manage_aws_transition_journal.py:263-314 | initialisation succeeds if and only if the journal is absent and the manifest is a live failover for generation zero; otherwise nothing changes |
| `JournalOutcomes.ClaimExactlyWhen` | scripts/manage_aws_transition_journal.py:446-505 | a claim commits if and only if the journal is stable at the manifest's generation and source and its authority is live, and is resumed if and only if its own live claim stands at one of the two fencing phases; everything else refuses and writes nothing |
| `JournalOutcomes.AdvanceExactlyWhen` | scripts/manage_aws_transition_journal.py:508-602 | an advance commits if and only if the manifest's own live claim stands at the phase one rank below the one asked for; the new item and the appended event are written out, and otherwise nothing changes |
| `JournalOutcomes.RepeatExactlyWhen` | scripts/manage_aws_transition_journal.py:541-553 | a repeated advance is answered if and only if the manifest's own live claim stands at its phase and the log holds the evidence it names |
| `JournalOutcomes.CompleteExactlyWhen` | scripts/manage_aws_transition_journal.py:605-700 | a completion commits if and only if the manifest's own live claim stands at VERIFYING_STABLE_ROUTE with evidence; the other Region is then active one generation on |
| `JournalOutcomes.RollBackExactlyWhen` | scripts/manage_aws_transition_journal.py:703-798 | a rollback commits if and only if a schema-4 manifest's own live claim stands at VERIFYING_SOURCE_ROLLBACK with evidence; the same Region is then active two generations on |
| `JournalHistory.EveryRunIsSerial` | scripts/manage_aws_transition_journal.py:541-595 | every interleaving of any number of delayed clients leaves the store of some serial history of whole calls |
| `JournalHistory.CommitsExactlyWhenFresh` | scripts/manage_aws_transition_journal.py:566-579 | a planned transaction commits if and only if nothing has committed since its client read the authority |
| `JournalHistory.CasSeesTheItemItRead` | scripts/manage_aws_transition_journal.py:429-443 | no ABA: when the condition holds at commit the whole item equals the one read, so checks made only in memory still hold and the event is new |
| `JournalHistory.HistoryIsSound` | scripts/manage_aws_transition_journal.py:140-200 | every committed item parses, obeys generation parity, is owned by a claim for its own generation and source, and carries the revision of its position |
| `JournalHistory.HistoryIsLater` | scripts/manage_aws_transition_journal.py:469-487 | between any two commits revision and generation never fall, and within one generation region, claim and phase order are kept |
| `JournalHistory.LogIsGapless` | scripts/manage_aws_transition_journal.py:334-361 | the log of a history is exactly the events of its commits, one per revision |
| `JournalHistory.CountingLaw` | scripts/manage_aws_transition_journal.py:620-718 | with c completed and r rolled-back transitions, generation is c + 2r and revision is 11c + 19r + rank(phase) |
| `JournalHistory.ReachableJournals` | scripts/manage_aws_transition_journal.py:518-536 | counting law, region parity and one event per revision from zero on, in every reachable journal |
| `JournalHistory.ClaimDirectionFollowsParity` | scripts/manage_aws_transition_journal.py:458-463 | failover is claimed only at even generations and failback only at odd ones |
| `JournalHistory.OneClaimPerGeneration` | scripts/manage_aws_transition_journal.py:464-487 | later claims are for strictly higher generations, so no generation hosts two and no manifest claims twice |
| `JournalHistory.OutcomeIsFinal` | scripts/manage_aws_transition_journal.py:636-672 | after a manifest's completion or rollback commits, no further event of that manifest ever commits |
| `JournalHistory.RetryIsBoundToEvidence` | scripts/manage_aws_transition_journal.py:541-553 | a repeated step writes nothing; with evidence it succeeds exactly when the latest commit is that step with that evidence (a phase step also needs unexpired authority), and without evidence exactly for a phase step while the same live authority stands at its phase |
| `Routing.RecordsAreTheRouteState` | scripts/execute_aws_regional_routing.py:589-611 | the listed records of a point are exactly its zone, and exist if and only if its generation is within the marker bound |
| `Routing.RouteStateDetermines` | scripts/execute_aws_regional_routing.py:477-495 | a zone determines its generation and its cell |
| `Routing.BatchLandsOnlyWhereBuilt` | scripts/execute_aws_regional_routing.py:803-828 | a batch applies to a route state if and only if it was built from that state, and leaves the state it was built for; at generation zero it is the marker CREATE that refuses a second application |
| `Routing.LateBatchesOnlyCountUp` | scripts/execute_aws_regional_routing.py:785-805 | in any order and however late, each batch that applies raises the generation by exactly one |
| `Routing.AppliedBatchIsSpent` | scripts/execute_aws_regional_routing.py:1183-1207 | a batch that has applied once never applies again, whatever lands in between |
| `RouteListing.ReadRouteState` | scripts/execute_aws_regional_routing.py:529-581 | the paged read succeeds exactly for a bounded, well-formed listing without parallel or duplicated stable records, and returns exactly those records |
| `RouteListing.SelectStable` | scripts/execute_aws_regional_routing.py:565-581 | the selection loop succeeds exactly on an unambiguous list and keeps each stable record once |
| `RouteListing.SelectionIsTheStableZone` | scripts/execute_aws_regional_routing.py:564-580 | whatever the page order, the selection of a hosted zone's listing is the zone without unrelated names, refused exactly when a stable name has an unsupported type |
| `RouteListing.GatherIsEveryPage` | scripts/execute_aws_regional_routing.py:530-564 | a listing is all the records of all pages in order up to the first page that is not truncated; it is refused exactly when no such page follows readable, well continued pages of at most 300 records, or when it takes more than 34 pages or 10,000 records |
| `LockStep.DnsFollowsJournal` | scripts/execute_aws_regional_routing.py:716-882 | over every guarded run of any number of clients with late batches, DNS is the state its journal phase names, and the marker names the cell and parity the aliases show |
| `LockStep.CommitKeepsInStep` | scripts/execute_aws_regional_routing.py:855-875 | every journal commit keeps lock-step, given the DNS observation that the routing steps make before their phase advance |
| `LockStep.LandingKeepsInStep` | scripts/execute_aws_regional_routing.py:1183-1207 | every justified batch keeps lock-step whenever it lands, and raises the marker generation |
| `LockStep.SentIsJustified` | scripts/execute_aws_regional_routing.py:777-805 | a guarded client sends a batch only once its manifest has reached the phase that routes it |
| `LockStepLimits.SecondReadDecides` | scripts/execute_aws_regional_routing.py:784-799 | a forward batch that lands keeps lock-step if and only if the second read still showed the expected generation |
| `LockStepLimits.RereadDecidesRollback` | scripts/execute_aws_regional_routing.py:1150-1186 | a rollback batch of either branch, however old its journal read, keeps lock-step when it lands if and only if the journal at that moment stands at the rollback phase under the manifest's own claim |
| `LockStepLimits.RereadRollbackIsHarmlessForGood` | scripts/execute_aws_regional_routing.py:1157-1164 | a rollback batch sent while the journal stands there keeps lock-step however late it lands in any guarded continuation |
| `LockStepLimits.SingleOperatorIsGuarded` | scripts/execute_aws_regional_routing.py:777-785 | with no commit between claim and second read, the read shows the expected generation |
| `StalledOperator.StalledOperatorBreaksLockStep` | scripts/execute_aws_regional_routing.py:784-828 | a whole permitted run in which a client stalled between claim and second read sends its batch and DNS leaves the journal |
| `StalledOperator.StalledResumeBreaksLockStep` | scripts/execute_aws_regional_routing.py:1150-1207 | a whole permitted run, with distinct identifiers, in which a resumed rollback read under the transition before takes traffic off a target the journal is verifying |
| `RoutingSteps.Operator.CallJournal` | scripts/manage_aws_transition_journal.py:541-602 | read, decide and transact while others act: an accepted phase request means the manifest has reached that phase, and undisturbed it is exactly the specified call |
| `RoutingSteps.Operator.RouteTargetStep` | scripts/execute_aws_regional_routing.py:716-882 | stays a run of the lock-step machine wherever it stops; a normal return means the target records were observed and the manifest reached the next phase, or that the journal already stood there; left alone by others it ends with DNS at the target, the journal at VERIFYING_STABLE_ROUTE and one more batch sent exactly if DNS had not moved yet, a refused run sends nothing, and one lost anywhere can succeed when run again |
| `RoutingSteps.Operator.MoveForward` | scripts/execute_aws_regional_routing.py:777-875 | claim, second read, DNS read, batch and convergence, with other clients and batches in between; left alone it leaves DNS at the target and has sent the one forward batch exactly if DNS still showed the source, and a refusal has sent nothing |
| `RoutingSteps.Operator.VerifyStableStep` | scripts/execute_aws_regional_routing.py:885-933 | a new completion means the journal is stable on the target one generation on and the zone is exactly its route state; undisturbed, its result is exactly the specified completion behind the DNS and smoke checks |
| `RoutingSteps.Operator.RouteSourceRollbackStep` | scripts/execute_aws_regional_routing.py:1132-1259 | stays a run of the lock-step machine wherever it stops; a normal return means the source records two generations on were observed and the manifest reached the next phase; left alone it ends with DNS back at the source, the journal at VERIFYING_SOURCE_ROLLBACK under its own claim and one more batch exactly if DNS had not moved, a refused run sends nothing, and one lost anywhere can succeed when run again with the same evidence |
| `RoutingSteps.Operator.VerifySourceRollbackStep` | scripts/execute_aws_regional_routing.py:1262-1311 | a new rollback means the journal is stable on the source two generations on and the zone is exactly its route state; undisturbed, its result is exactly the specified rollback behind its checks |
| `RoutingOutcomes.MoveForwardExactlyWhen` | scripts/execute_aws_regional_routing.py:777-875 | claim, move and record succeed if and only if the manifest's own live claim stands at TARGET_INGRESS_VERIFIED_NOT_ROUTED or ROUTING_TARGET, the marker is in bounds, and DNS shows the source or already the target |
| `RoutingOutcomes.RouteTargetExactlyWhen` | scripts/execute_aws_regional_routing.py:716-882 | the undisturbed command succeeds if and only if that holds for a routing manifest, or the journal stands at VERIFYING_STABLE_ROUTE and DNS shows the target |
| `RoutingOutcomes.RouteSourceRollbackExactlyWhen` | scripts/execute_aws_regional_routing.py:1132-1259 | the undisturbed command succeeds if and only if a live schema-4 manifest's own claim stands at the phase before, in or after the move (there with the recorded evidence), the marker is in bounds, and DNS shows the target or already the source |
| `RoutingOutcomes.LiveClaimRoutes` | scripts/execute_aws_regional_routing.py:777-828 | in lock-step DNS never stops a live command: its own claim at a phase a move starts from, with the marker in bounds, is enough to succeed |
| `Runtime.FencedFunctionFailsEveryPlan` | scripts/deploy_aws_active_cell.py:626-655 | no plan read from a template is satisfied by a fenced Lambda |
| `Runtime.PlannedPathRuns` | scripts/deploy_aws_active_cell.py:626-655 | a planned path runs unless its template switches it off in so many words, and a planned Lambda always runs, unreserved or with one to a thousand executions |
| `Runtime.FenceThenRestoreIsIdentity` | scripts/deploy_aws_active_cell.py:717-778 | any partial fence attempts followed by any partial restores, the last verified, give back the very same runtime |
| `Runtime.Provider.FenceSource` | scripts/deploy_aws_active_cell.py:1342-1384 | success exactly when no call failed and every listed path is closed; in any case only listed resources changed, each old or closed, and every one not reported is closed; there is one failure for each missing resource and each failed call, and without failed calls it succeeds exactly when every listed resource exists |
| `Runtime.Provider.ReactivateSource` | scripts/deploy_aws_active_cell.py:717-778 | success exactly when no call failed and the whole plan holds; in any case only planned resources changed, each old or planned; there is one failure for each missing resource and each failed call, and without failed calls a plan that does not contradict itself is restored exactly when its resources exist |
| `Runtime.Provider.VerifySourceFence` | scripts/deploy_aws_active_cell.py:781-818 | passes exactly when every listed path is closed |
| `Runtime.Provider.VerifySourceReactivation` | scripts/deploy_aws_active_cell.py:658-714 | passes exactly when the cell satisfies the plan |
| `Transition.NoSplitBrain` | scripts/deploy_aws_active_cell.py:1529-1662 | in no reachable state of failover, failback and rollback, with a crash after any resource write and late deployments, does a path run in both cells |
| `Transition.StableMeansOneCellServes` | scripts/execute_aws_regional_routing.py:991-1080 | whenever the journal is stable the active cell is exactly its plan and the other is fully fenced |
| `Transition.NextKeepsInvariant` | scripts/execute_aws_regional_routing.py:936-1080 | every single action keeps the phase-indexed invariant over both cells |
| `ThreeStores.BatchesLandOnTheServingCell` | scripts/execute_aws_regional_routing.py:777-828 | in one run over all three stores, whenever a batch lands, however late, the cell it names runs exactly its plan and the other is fenced |
| `ThreeStores.NamedCellAloneServes` | scripts/execute_aws_regional_routing.py:885-933 | whenever the journal is stable or verifies a route, DNS names exactly the cell that alone serves |
| `RuntimeSteps.Operator.FenceSourceStep` | scripts/deploy_aws_active_cell.py:1766-1824 | wherever it stops it is a run of the machine; success means the phase is recorded and both cells are fenced; with no process lost and no call failed it succeeds exactly under the condition of `StepOutcomes.FenceSourceExactlyWhen`, and lost anywhere it can still succeed at every clock at which it could have |
| `RuntimeSteps.Operator.FenceFailedTargetStep` | scripts/execute_aws_regional_routing.py:936-988 | the same for the routed target, fresh, resumed or repeated, under the condition of `StepOutcomes.FenceFailedTargetExactlyWhen` |
| `RuntimeSteps.Operator.ActivateTargetStep` | scripts/deploy_aws_active_cell.py:1529-1572 | success means the target is exactly its plan while the source is fenced; undisturbed it succeeds exactly under the condition of `StepOutcomes.ActivateTargetExactlyWhen`, and until it has succeeded it can be run again |
| `RuntimeSteps.Operator.ActivatePrimaryTargetStep` | scripts/deploy_aws_active_cell.py:1575-1662 | the same for a failback restored resource by resource, fresh, resumed or repeated, under the condition of `StepOutcomes.ActivatePrimaryExactlyWhen` |
| `RuntimeSteps.Operator.ReactivateSourceStep` | scripts/execute_aws_regional_routing.py:991-1080 | success means the source is exactly its plan while the failed target is fenced; undisturbed it succeeds exactly under the condition of `StepOutcomes.ReactivateSourceExactlyWhen`, fresh, resumed or repeated, and lost anywhere it can still succeed |
| `StepOutcomes.FenceSourceExactlyWhen` | scripts/deploy_aws_active_cell.py:1766-1824 | `fence-source` can succeed if and only if a live schema-4 manifest finds all its resources and the journal is stable at its generation and source with the plan served, or stands at FENCING_SOURCE under its own claim, or at SOURCE_FENCED under its own claim with the recorded evidence |
| `StepOutcomes.FenceFailedTargetExactlyWhen` | scripts/execute_aws_regional_routing.py:936-988 | `fence-failed-target` can succeed if and only if a live schema-4 manifest's own claim stands at VERIFYING_STABLE_ROUTE or FENCING_FAILED_TARGET with every resource there, or at FAILED_TARGET_FENCED with the recorded evidence and every resource closed |
| `StepOutcomes.ActivateTargetExactlyWhen` | scripts/deploy_aws_active_cell.py:1529-1572 | a failover activation can succeed if and only if its deployment does, under a live manifest's own claim at SOURCE_FENCED or ACTIVATING_TARGET with every source resource closed |
| `StepOutcomes.ActivatePrimaryExactlyWhen` | scripts/deploy_aws_active_cell.py:1575-1662 | a failback activation can succeed if and only if the recovery cell is closed under a live schema-4 failback manifest's own claim, from the fenced primary, from any partly restored one, or with the recorded evidence and the whole plan in place |
| `StepOutcomes.ReactivateSourceExactlyWhen` | scripts/execute_aws_regional_routing.py:991-1080 | a source reactivation can succeed if and only if the failed target is closed under a live schema-4 manifest's own claim, from the fenced source, from any partly restored one, or with the recorded evidence and the whole plan in place |
| `FaultStores.Account.Execute` | scripts/regional_fault_controller_lambda.py:295-550 | each operation leaves exactly the effect of some prefix of its provider calls, and of all of them when its process survives and none is refused; it then returns normally exactly when all ran or the same fault had already completed it; it does nothing when its checks fail |
| `FaultStores.Account.Cleanup` | scripts/regional_fault_cleanup_lambda.py:53-135 | a process that survives consumes a fault whose own lock stands in LOCKED, WATCHDOG_ARMED, DENY_APPLIED or DENY_REMOVED: lock and own deny gone, cleanup recorded, nothing else touched; any other lock is refused without a write, and without a lock it succeeds only for a fault it has already cleaned |
| `FaultOutcomes.LockOutcomes` | scripts/regional_fault_controller_lambda.py:314-386 | acquire, release and seal succeed exactly on a free role without evidence, on the own unarmed lock, and on the own disarmed lock without evidence; a refusal changes nothing |
| `FaultOutcomes.ArmOutcome` | scripts/regional_fault_controller_lambda.py:387-420 | arming succeeds exactly on the own unarmed lock, and schedules a cleanup in any case without moving one that exists |
| `FaultOutcomes.ApplyOutcome` | scripts/regional_fault_controller_lambda.py:421-453 | the deny goes on exactly under the own armed lock on a role without another fault's deny, and otherwise nothing changes |
| `FaultOutcomes.RemoveOutcome` | scripts/regional_fault_controller_lambda.py:454-470 | the own deny is gone in every case, and recorded as removed exactly under the own lock |
| `FaultOutcomes.DisarmOutcome` | scripts/regional_fault_controller_lambda.py:471-484 | the schedule is gone in every case, and the lock is disarmed exactly if the schedule was there and the own deny recorded as removed |
| `FaultOutcomes.ExerciseLeavesOnlyEvidence` | scripts/regional_fault_controller_lambda.py:295-550 | the six operations run in order on a free role complete and leave nothing behind but the evidence |
| `FaultOutcomes.WatchdogConsumesFault` | scripts/regional_fault_cleanup_lambda.py:83-129 | in every reachable state, a scheduled watchdog that runs to its end consumes any fault that is not disarmed: lock, deny and schedule gone, cleanup on record |
| `FaultOutcomes.WatchdogRemovesDeny` | scripts/regional_fault_cleanup_lambda.py:97-129 | every deny of a reachable state is removed by its own watchdog, together with the lock of its role |
| `FaultOutcomes.LostDisarmIsNeverFinished` | scripts/regional_fault_controller_lambda.py:471-484 | after a disarm lost between its two calls, whatever controllers and watchdogs do, the lock stays and the fault is never on record unless it is armed once more |
| `FaultOutcomes.RearmingFinishesDisarm` | scripts/regional_fault_controller_lambda.py:387-484 | in that state disarming and arming are both refused, yet a disarm after the refused arming succeeds |
| `FaultSafety.ConsumedExactlyOnce` | scripts/regional_fault_controller_lambda.py:314-375 | over any interleaving of single calls a fault's lock and evidence never coexist, evidence never changes, and after it no acquire, seal or cleanup succeeds |
| `FaultSafety.DenyIsWatchedAndBounded` | scripts/regional_fault_controller_lambda.py:387-484 | in every ordered run with crashes between calls, a deny belongs to the fault whose lock its role carries, armed or applied, with cleanup pending by thirty seconds after expiry |
| `FaultSafety.AtMostOneDenyPerRole` | scripts/regional_fault_controller_lambda.py:279-292 | a role never carries two fault denies |
| `FaultSafety.ControlKeepsInvariant` | scripts/plan_aws_regional_fault_exercise.py:184-215 | every prefix of every controller operation keeps the watched-deny invariant, using the timing bounds of the authority |
| `FaultSafety.WatchKeepsInvariant` | scripts/regional_fault_cleanup_lambda.py:83-129 | every prefix of a watchdog run keeps it too |
| `FaultRace.CallKeepsWatchExactlyWhenHarmless` | scripts/regional_fault_controller_lambda.py:414-484 | each single call keeps every deny watched if and only if it is harmless: a put under its own armed or applied lock with cleanup pending, a lock removal, a removal record or a schedule deletion with no own deny standing |
| `FaultRace.RunIsWatchedExactlyWhenHarmless` | scripts/regional_fault_controller_lambda.py:387-484 | over every interleaving of controllers and watchdogs call by call, every deny is watched at every moment if and only if every call that took effect was harmless at that moment |
| `FaultRace.PutIsSafeForGoodExactlyWhenClear` | scripts/regional_fault_controller_lambda.py:414-447 | with any number of processes in flight, a policy put is safe for every continuation whose puts are clear if and only if it is clear: own lock armed or applied, cleanup pending, and no process of its fault about to settle the lock |
| `FaultRace.ClearPutsKeepDeniesWatched` | scripts/regional_fault_cleanup_lambda.py:83-129 | if every put is clear when it lands, then over every interleaving each deny is under its own armed or applied lock with cleanup pending by thirty seconds after expiry |
| `FaultRace.WatchdogAroundApplyDeny` | scripts/regional_fault_cleanup_lambda.py:97-129 | a run in which the put lands under its own armed lock and the watchdog that had already deleted the absent deny then removes that lock, stranding the deny |
| `FaultSafety.WatchdogInsideApplyDeny` | scripts/regional_fault_controller_lambda.py:414-436 | a watchdog between lock read and policy put leaves a deny with no lock and no cleanup |
| `Installer.Endpoint.Install` | scripts/install_managed_host_package.py:366-422 | rolled back means every file as before, installed means exactly the overlay, an incomplete rollback loses no original; artifacts that agree are installed exactly when no host operation fails, rolled back when one does and incomplete when more do, and artifacts that disagree are never installed and, without host failures, rolled back |
| `Installer.Endpoint.ReplaceAll` | scripts/install_managed_host_package.py:378-388 | wherever it stops, undoing the tracked entries and dropping staged files gives the initial files |
| `Installer.Endpoint.Rollback` | scripts/install_managed_host_package.py:393-411 | every entry is tried in reverse order past failures, and each is undone up to its own failed operation; the rollback is complete exactly when none of its own operations failed, and then it is the reverse undo of the list; in any case every original is in place or in a backup |
| `InstallSteps.FirstEntryDecides` | scripts/install_managed_host_package.py:395-401 | whatever else failed, a target whose oldest entry was undone past its rename holds what it held before that entry was made |
| `Installer.Endpoint.VerifyAll` | scripts/install_managed_host_package.py:389-392 | passing means every target holds its artifact; failing without a host failure means some target does not |
| `InstallSteps.OverlayHoldsExactlyWhenConsistent` | scripts/install_managed_host_package.py:389-392 | all targets of a finished pass hold their artifacts if and only if artifacts with a shared path agree |
| `InstallSteps.UndoBackup` | scripts/install_managed_host_package.py:379-386 | moving the old file aside, or finding none, is undone by the entry that tracks it |
| `InstallSteps.UndoReplacement` | scripts/install_managed_host_package.py:387-388 | installing a staged file over its target is undone by that target's entry, the staged file apart |
| `InstallSteps.RepeatedTargetNeedsReverseOrder` | scripts/install_managed_host_package.py:395-401 | for a target installed twice, undoing forwards does not restore the original and undoing backwards does |
| `InstallSteps.DistinctTargetsUndoInAnyOrder` | scripts/install_managed_host_package.py:395-401 | without repeated targets both orders agree |
| `InstallSteps.UndoKeepsRecoverable` | scripts/install_managed_host_package.py:395-401 | whatever part of one undo took effect, every original stays recoverable |
| `SignerRegistry.GuardComparesRegistries` | scripts/deploy_aws_control_plane.py:1119-1151 | on an existing stack the guard passes if and only if the manifest's registry is the live one, or the live one with one key in front under the transition flag |
| `SignerRegistry.GuardExactlyWhen` | scripts/deploy_aws_control_plane.py:1112-1151 | over every stack and manifest: a new stack takes any registry of two to nine distinct keys, an existing one only its own or its own plus one flagged key, and without a manifest only a stack that was never rotated passes |
| `SignerRegistry.ControlPlane.Deploy` | scripts/deploy_aws_control_plane.py:1074-1216 | a refused deploy changes nothing, a failed one leaves the old or the new outputs, a successful one has the manifest's posture, and a guarded deploy succeeds unless a command fails |
| `SignerRegistry.RegistryIsAppendOnly` | scripts/deploy_aws_control_plane.py:1112-1151 | over any deploys under any persisted manifests the old registry is a suffix of the new one, which grows at most once per flagged deploy and not at all without the flag |
| `SignerRegistry.SignersAreNeverForgottenNorRevived` | scripts/deploy_aws_control_plane.py:1209-1215 | no past signer loses verification, and a retired signer never signs again |
| `SignerRotation.Operator.Prepare` | scripts/rotate_aws_assurance_signer.py:276-436 | performs exactly a prefix of its writes, stopping early only when its process is lost or the next write is refused, and none when the checkpoint does not match the live trust |
| `SignerRotation.Operator.Promote` | scripts/rotate_aws_assurance_signer.py:439-524 | the same for the promotion, from each durable phase |
| `SignerTrust.WriteKeepsInvariant` | scripts/rotate_aws_assurance_signer.py:235-244 | each single write of a rotation command keeps the invariant over live signer, manifest, trust and every checkpoint file |
| `SignerTrust.TrustPrecedesSigning` | scripts/rotate_aws_assurance_signer.py:403-436 | with crashes after any write and any number of checkpoint files, the live signer and all before it are replicated and in the passive registry, which is at most one staged key ahead |
| `SignerTrust.CheckpointIsNeverAhead` | scripts/rotate_aws_assurance_signer.py:235-244 | the effects that each checkpoint phase stands for are really there |
| `SignerConvergence.PromotionConverges` | scripts/rotate_aws_assurance_signer.py:449-524 | however often a promotion is cut off after any write, a run that is not cut off ends in the same world |
| `SignerConvergence.PreparationCompletesExactlyWhen` | scripts/manage_aws_regional_recovery.py:341-390 | a first preparation can complete if and only if the passive registry is level with the live one and fewer than eight keys are historical |
| `SignerResumption.PreparationConverges` | scripts/rotate_aws_assurance_signer.py:276-436 | a preparation cut off anywhere, any number of times, is finished by a run that is not, always in the same world and with the key minted first, while the checkpoint describes the live trust and the history has room |
| `SignerResumption.FirstCheckpointIsPreparing` | scripts/rotate_aws_assurance_signer.py:299-352 | the first two writes of a new preparation on level registries leave such a checkpoint |
| `SignerWitness.AbandonedCutoverBlocks` | scripts/rotate_aws_assurance_signer.py:299-352 | a reachable world, one preparation abandoned after its trust was staged, in which no preparation with any file and key can complete |
| `SignerWitness.EightRotationsBlock` | scripts/manage_aws_regional_recovery.py:63-76 | eight whole rotations are possible, and after them no ninth can be prepared |
| `LoadGate.PercentileCountsExceptions` | scripts/run_regional_recovery_exercise.py:86-91 | the nearest-rank percentile is within a limit if and only if at most one value in a hundred exceeds it |
| `LoadGate.PercentileIgnoresOrder` | scripts/run_regional_recovery_exercise.py:86-91 | the percentile is one of the measurements and does not depend on completion order |
| `LoadGate.RunLoadExercise` | scripts/run_regional_recovery_exercise.py:94-157 | accepts if and only if the bounds hold, every agent answered once with usable measurements, and each of the four bad counts is at most a hundredth of the fleet |
| `LoadGate.ObjectivesCountAgents` | scripts/run_regional_recovery_exercise.py:131-157 | the objectives hold if and only if at most one agent in a hundred failed, exceeded a second on the heartbeat or the policy read, or exceeded two seconds on the decision write |
| `LoadGate.FleetIsCompleteExactlyWhen` | scripts/run_regional_recovery_exercise.py:126-142 | a fleet is complete if and only if it has as many results as agents, from as many different identifiers, each latency finite, not negative and at most a minute |
| `ManagedBlock.MergeIsFrame` | scripts/onboard_codex.py:120-137 | acceptance does not depend on the block, and the result is the trimmed outside text around it |
| `ManagedBlock.MergeExactlyWhen` | scripts/onboard_codex.py:120-137 | a merge is accepted if and only if the file opens a block and closes it again, or holds neither marker and no hand-written server entry |
| `ManagedBlock.OutsideIsAround` | scripts/onboard_codex.py:120-137 | the kept text is what surrounds the first opening marker and the first closing marker after it |
| `ManagedBlock.FrameKeepsOutside` | scripts/onboard_codex.py:126-129 | replacing a block that closes only at its end leaves the outside text alone |
| `ManagedBlock.MergeAbsorbs` | scripts/onboard_codex.py:120-137 | merging again replaces the first block as if it had never been merged, and keeps the outside text |
| `ManagedBlock.MergeIsIdempotent` | scripts/onboard_codex.py:120-137 | merging the same block twice is merging it once |
| `ManagedBlock.AbsorbsExactlyWhenItClosesOnce` | scripts/onboard_codex.py:126-129 | a marked block is absorbed in every file if and only if its closing marker occurs once |

## Left out

- AWS, CDK and HTTP calls, subprocesses, sleeping and polling: each is an atomic store action or an arbitrary success or failure.
- JSON, regular expressions, argument parsing, printing and the exact text of errors; a raised error is a refusal.
- The convergence reads after each journal write: a refusal there counts as a lost response after a commit.
- Hosted-zone identity, DNS names and ingress discovery: the stable names are three fixed record keys.
- The runtime proof before routing, the smoke probes and job reconciliation: they only decide whether a step goes on.
- Event source mappings in a transitional state: a mapping is enabled or disabled.
- Liveness after expiry: the journal has no abort path, so an expired transition stays where it is. Only safety is proved.
- RoutingSteps.Operator.RouteSourceRollbackStep: does not promise that a finished step succeeds when run again, because its evidence holds the change identifier, which a repeated run replaces by a constant.
- RuntimeSteps.Operator.FenceSourceStep: like every other command it reads its clock once; an authority that expires between the claim and the record, which refuses the record, is covered as a disturbed stop and not by the undisturbed success condition.
- RoutingSteps.Operator.MoveForward: between the claim and the second read only batches land, because with a second live operator the property fails as LockStepLimits.SecondReadDecides shows.
- RoutingSteps.Operator.MoveBack: when it resumes, only batches land between its journal read and its DNS read, because with a second live operator the property fails as StalledOperator.StalledResumeBreaksLockStep shows; LockStepLimits.RereadDecidesRollback gives the condition for every run.
- RoutingSteps.Operator.RouteTargetStep: a read of the zone is one atomic action; RouteListing covers the pages.
- FaultSafety.DenyIsWatchedAndBounded: the watchdog runs between controller operations and disarm follows a returned remove-deny; without the first the property fails as FaultSafety.WatchdogInsideApplyDeny and FaultRace.WatchdogAroundApplyDeny show, and FaultRace gives the exact conditions.
- Delivery of the cleanup schedule: a schedule stays pending until a cleanup returns or refuses; retry limits and the dead-letter queue are not modelled.
- The contents of the deny policy and the workflow that orders the fault operations.
- Installer.Endpoint.Install: directories created on the way, permissions, owners, failures of the final unlinking and the checks before and after the transaction are not modelled; removing a staged file in the end always succeeds.
- SignerRegistry.ControlPlane.Deploy: the identity, recovery and policy-source guards beside the signer guard are not modelled.
- SignerRotation.Operator.Prepare: stack names, Regions, approval references and the signature fixture are fixed; a check on them only stops a run early.
- SignerRotation.Operator.Promote: the persisted manifest is changed by rotations only, and routine deployments never carry the transition flag.
- LoadGate.RunLoadExercise: latencies are reals and 0.99 and 0.01 exact hundredths; floating-point rounding and the thread pool are not modelled.
- Evidence retention, posture checks, template verifiers and inventory collectors: long conjunctions of field checks with no property across steps.
