# Le0xFarm, modelled and proved

Le0xFarm runs miners on a farm of Linux Hosts. A Controller keeps the desired state in
one database and reconciles each Host with it over a stream to the Host's Agent, which
supervises the processes. This project models the parts where a wrong interleaving, a
crash or a stale fact would do damage, and proves what they promise, in Dafny.

- **Crash-safe restore** (`DataDirectory`, `Restore`, `RestoreSafety`, `RestoreRecovery`,
  `RestoreStartup`, `RestoreMarker`). A restored database takes the place of the live one by
  hard links, unlinks, a marker file and directory syncs. A disk is a durable directory and the list
  of operations not yet synced. A power loss keeps any subset of them (for safety) or a
  prefix (for completion of recovery), and tears a marker not yet synced. A *life* is an
  installation cut off anywhere, followed by any number of crashes and recoveries cut off anywhere.
- **Reconciliation** (`Guards`, `Sessions`, `Dispatch`, `DispatchCausality`,
  `DispatchExactness`, `DispatchProgress`, `Planner`, `PlanSafety`, `PlanInFull`,
  `Convergence`, `ObservedStore`). Workers reserve, revalidate, send and
  record; the Agent executes a session's stream in order; replies, snapshots, deadlines,
  expiry and reconnects come at any time.
- **Desired state** (`FarmModel`, `FarmResolution`, `FarmTables`, `FarmCoherence`, `FarmRuns`,
  `FarmEffects`, `FarmWorkloads`, `FarmReuse`, `FarmService`, `Canonical`, `JsonReader`).
  Transactions over the tables of the database; the effective hash of a workload is a view
  kept up to date by fan-out. A hash is modelled as the value it is taken of: the encoding is
  proved to read back, the digest is taken to be injective.
- **Maintenance Hold and restore barriers** (`Maintenance`, `RestoreBarrier`, `BarrierRuns`).
- **The Agent's Supervisor** (`Watchdog`, `Supervisor`, `SupervisorService`), with starts,
  waits, backoff timers and stops of one execution interleaving between locked sections.
- **The installer, incidents and backup retention** (`Installer`, `Incidents`,
  `IncidentStore`, `IncidentsInFull`, `Retention`).

Operations that change state are methods of classes or methods over arrays, each tied by
its contract to a function of the old state; what the source promises is proved about
those functions and about runs of them, and told again from the facts alone, without the
functions' own helpers (`RestoreStartup`, `PlanInFull`, `FarmResolution`, `FarmEffects`,
`FarmWorkloads`, `IncidentsInFull`, `JsonReader`). Failures of system calls, the choice of which
unsynced writes survive, the order of database rows, the IDs drawn and the clock are left
open or are parameters.

## Where the code does less than it intends

Each of these is a concrete run or input, with the exact condition beside it: a lemma that
holds in both directions, over what a caller can know before the step.

1. *Recovery after a killed recovery* (`internal/controllerbackup/manager_linux.go:1126-1159`).
   A recovery that has relinked the original as `farm.db` and is killed before its
   directory sync leaves a state that the next recovery takes for an untouched original:
   it unlinks `restore-old` with no sync before, and a power loss can then keep that
   unlink and lose the link. `RestoreSafety.KilledPromotionLoses` gives such a life for
   every restore over a live database; `RestoreSafety.RecoveryIsSafeExactlyWhen` says that
   this, with a marker that can be read, is the only way to lose it.
2. *A result deadline on a stale observation* (`internal/reconcile/coordinator.go:769-773`).
   It releases the guard of an action the Agent has not processed:
   `DispatchExactness.StaleDeadlineBreaksCausality`. It does harm in some run after it
   exactly when a snapshot requested before the last action is still under way, or a
   worker has yet to send under that guard: `DispatchExactness.DeadlineIsSafeExactlyWhen`.
3. *A late recording of a reused key* (`internal/reconcile/coordinator.go:979-991`). A
   worker that sent an action and has yet to record its sequence can delete the guard of a
   later dispatch of the same action: `DispatchExactness.RepeatedKeyBreaksCausality`. A
   reservation leads there in some run after it exactly when such a worker is there:
   `DispatchExactness.ReserveIsSafeExactlyWhen`. `DispatchCausality.IdleMeansSettled`
   therefore speaks of the runs without these deadlines and reservations
   (`Dispatch.Lawful`), and of all of them.
4. *A superseded launch under a hold* (`internal/runtime/supervisor/supervisor_linux.go:260-268`).
   The hold is checked before the generation, so a watchdog launch that a STOP and a START
   have outdated marks the running execution STOPPED, and the hold then finds nothing to
   stop: `Supervisor.SupersededLaunchEscapesHold`; or a Stop that waits for that process
   is never answered: `Supervisor.SupersededLaunchLosesStop`.
   `Supervisor.HeldLaunchIsOnRecordExactlyWhen` says when the launch leaves the record
   true, and `Supervisor.HeldLaunchIsSafeExactlyWhen` when it stays true in every run
   after it. `Supervisor.ProcessIsOnRecord` and `Supervisor.StopKills` speak of the runs
   in which such launches are clean, and in which no Start overlaps a Stop that waits.
5. *A configuration whose temporary name cannot be removed*
   (`internal/linuxinstall/install_linux.go:786-794`) stands but is not on record as
   published, so a rollback that reports success leaves it: `Installer.StrayRun`. A
   successful rollback restores all files exactly when publication did not stop there, as
   `Installer.Machine.Install` ensures.
6. *Claims reported by owned executions* are not looked at when a START is planned
   (`internal/reconcile/planner.go:182-190`): `PlanSafety.StartMayMeetReported`. What an
   execution reports is avoided by every START exactly when it is contained in the claim
   of its snapshot: `PlanSafety.ReportedClaimIsSafeExactlyWhen`.
7. *A WorkloadID drawn again* after its workload was retired is only checked against
   present workloads (`internal/farmconfig/workloads.go:41-48`): the run of
   `FarmReuse.ReusedIdBreaksLedger`. The ledger stays sound exactly when every snapshot
   the ID still bears is of generation 1 and of the runtime the new workload resolves to:
   `FarmReuse.CreationIsSafeExactlyWhen`. `FarmRuns.RunKeeps` speaks of runs in which that
   is so, as when new IDs are drawn.
8. *The watchdog's delay* overflows for large crash limits
   (`internal/runtime/supervisor/supervisor_linux.go:375`): `Watchdog.DelayCanCollapse`.
   Every restart waits exactly when the limit is below 2 or the last shift it allows does
   not overflow: `Watchdog.AlwaysWaitsExactlyWhen`. The Agent passes an empty
   configuration (`cmd/le0x-agent/main_linux.go:149`), so the defaults apply, a crash limit
   of 5, and `Watchdog.DefaultsAlwaysWait`; only another caller's configuration could
   reach the overflow.

## Model

| member | source | states |
|---|---|---|
| DataDirectory.Directory.Linkat | internal/controllerbackup/manager_linux.go:790-838 | a link adds one name, in the running system at once and on the disk only once synced, or fails and changes nothing |
| DataDirectory.Directory.Unlinkat | internal/controllerbackup/fs_linux.go:318-347 | an unlink removes one name, pending until the next sync, or fails and changes nothing |
| DataDirectory.Directory.Sync | internal/controllerbackup/fs_linux.go:373-375 | a sync makes every pending operation durable, or fails and leaves all of them pending |
| DataDirectory.Directory.FsyncMarkerFile | internal/controllerbackup/manager_linux.go:622-669 | from here on the marker text cannot be torn by a crash, unless the sync fails |
| Restore.WriteMarker | internal/controllerbackup/manager_linux.go:622-669 | the validation name and the marker are written and synced in order; a failure leaves a prefix of these operations |
| Restore.RetainOriginal | internal/controllerbackup/manager_linux.go:790-815 | the original is linked as restore-old and unlinked as farm.db with a directory sync after each, or a prefix of that |
| Restore.LinkRestored | internal/controllerbackup/manager_linux.go:827-861 | the validated candidate becomes farm.db and the directory is synced |
| Restore.RemoveEvidence | internal/controllerbackup/manager_linux.go:862-884 | validation name, retained original and marker go in that order, with one sync at the end |
| Restore.Install | internal/controllerbackup/manager_linux.go:745-884 | the whole switch performs the installation sequence, and on a failure before the switch the recovery plan of what was done |
| Restore.RecoverTransaction | internal/controllerbackup/manager_linux.go:1036-1215 | recovery performs the plan decided by the directory it finds, step by step, and reports success only when it did all of it |
| Restore.RecoverInterrupted | internal/controllerbackup/manager_linux.go:889-920 | startup succeeds only with neither the marker nor restore-old left; with no marker it does nothing and refuses an orphan restore-old; with a readable marker it recovers; with a torn one it stops |
| Restore.RecoverRestored | internal/controllerbackup/manager_linux.go:1058-1124 | with the restored database live, its own leftovers are removed and nothing else |
| Restore.RecoverOriginal | internal/controllerbackup/manager_linux.go:1126-1159 | with the original live, restore-old and the candidate are removed and the original stays |
| Restore.Promote | internal/controllerbackup/manager_linux.go:1173-1215 | with no live database, restore-old is linked back as farm.db and synced before its old name goes |
| RestoreSafety.NeverLosesTheDatabase | internal/controllerbackup/manager_linux.go:745-1215 | after a power loss at any point of an installation, a recovery or a recovery of a recovery, with any subset of unsynced operations lost, the original or the prepared restored database is still named |
| RestoreSafety.RecoveryIsSafeExactlyWhen | internal/controllerbackup/manager_linux.go:1126-1215 | recovery keeps the database nameable at each of its operations if and only if it does not start, with a readable marker, on a relinked original whose directory sync never completed |
| RestoreSafety.UnsyncedPromotionLoses | internal/controllerbackup/manager_linux.go:1126-1159 | on such a directory the removal of restore-old admits a power loss that leaves neither name |
| RestoreSafety.KilledPromotionLoses | internal/controllerbackup/manager_linux.go:1126-1215 | every restore over a live database has such a life: killed right after the relink, recovered again, powered off |
| RestoreRecovery.RecoveryConverges | internal/controllerbackup/manager_linux.go:886-1215 | with operations surviving in order, startup finds nothing to do, or a torn marker with the original live, or recovers to exactly one durable database, the restored one exactly when the disk named it |
| RestoreRecovery.RecoveryOfAnyDirectory | internal/controllerbackup/manager_linux.go:1015-1215 | on an arbitrary directory recovery unlinks only objects the marker identifies and succeeds only with the transaction resolved |
| RestoreRecovery.LivesAreOrderly | internal/controllerbackup/manager_linux.go:745-920 | every in-order crash image of an installation and its recoveries is one recovery can finish |
| RestoreStartup.StartupOfAnyDirectory | internal/controllerbackup/manager_linux.go:886-920 | on an arbitrary directory startup succeeds only with neither the marker nor restore-old left, does nothing without a marker, and otherwise acts only on a transaction the marker holds |
| RestoreStartup.RecoveryAcceptsExactly | internal/controllerbackup/manager_linux.go:1036-1215 | recovery succeeds if and only if marker and names are private and its own, and the restored database stands, or the original does, or the original is retained with nothing live |
| RestoreStartup.RecoveryActsOnlyWhen | internal/controllerbackup/manager_linux.go:1036-1215 | recovery does anything at all only with its own marker and a database of the transaction where it left it |
| RestoreStartup.RecoveryLetsGoOnlyWhen | internal/controllerbackup/manager_linux.go:1058-1215 | the marker goes if and only if recovery succeeds; restore-old goes only beside the restored or the original database, or once it is live again and synced |
| RestoreMarker.MarkerRoundTrip | internal/controllerbackup/manager_linux.go:602-743 | every valid transaction, with or without an original, prints in fewer than 1024 bytes to text that reads back as the same transaction |
| RestoreMarker.TornMarkerRejected | internal/controllerbackup/manager_linux.go:671-743 | no strict prefix of a printed marker is read back as a transaction |
| RestoreMarker.MarkerLines | internal/controllerbackup/manager_linux.go:602-669 | the fourteen lines of a marker in their order |
| RestoreMarker.ParsedIsIdentified | internal/controllerbackup/manager_linux.go:671-743 | whatever is read names its own marker file, a backup, and real files with whole digests |
| Guards.Coordinator.MarkInFlight | internal/reconcile/coordinator.go:969-977 | a guard is reserved only if its key holds none, and then without a sequence |
| Guards.Coordinator.SetDispatchSequence | internal/reconcile/coordinator.go:979-991 | a guard learns its sequence, or goes if the observation already covers it; a missing guard is not recreated |
| Guards.Coordinator.ResolveThroughObservation | internal/reconcile/coordinator.go:1000-1008 | exactly the guards of the epoch with a recorded sequence up to the mark are released |
| Guards.Coordinator.HostHasInFlight | internal/reconcile/coordinator.go:1037-1046 | true exactly when some guard belongs to the epoch |
| Guards.Coordinator.SessionDisconnected | internal/reconcile/coordinator.go:682-697 | the epoch's guards all go and its observation stops being usable; other epochs keep theirs |
| Guards.Coordinator.ExecutionsObserved | internal/reconcile/coordinator.go:699-711 | a snapshot of the current epoch not older than the last one becomes the observation and releases what it covers |
| Guards.Coordinator.RuntimeResult | internal/reconcile/coordinator.go:760-813 | a result on an unusable observation releases its guard; otherwise only a definitive one does, and an uncertain one changes nothing |
| Sessions.LiveSession.SendRuntime | internal/controllernet/sessions.go:87-130 | each runtime action takes the next sequence and the next place in the stream; a failed send revokes the session and leaves nothing pending |
| Sessions.LiveSession.RequestExecutions | internal/controllernet/sessions.go:194-258 | a snapshot request is marked with the last sequence stamped before it |
| Sessions.LiveSession.TakePending | internal/controllernet/sessions.go:167-192 | a reply and the result deadline cannot both take the same pending action |
| DispatchProgress.AnswerCompletes | internal/reconcile/coordinator.go:760-813 | an undisturbed dispatch ends with its guard released, its answer observed and nothing left over |
| DispatchProgress.OtherAnswers | internal/reconcile/coordinator.go:775-805 | a permanent rejection releases the guard; an uncertain answer, a lost one and an unsaved failure keep it |
| DispatchProgress.SnapshotReleases | internal/reconcile/coordinator.go:699-711 | a snapshot asked for after an action releases exactly the guards of the epoch recorded before |
| DispatchProgress.SessionsEnd | internal/reconcile/coordinator.go:672-697 | the end of a session releases its guards and no others; a newer one starts unobserved |
| DispatchProgress.NothingIsSent | internal/reconcile/coordinator.go:428-441 | a revoked session sends and reserves nothing more, and neither does a stale observation or a Host with an action under way |
| DispatchProgress.DeadlinePasses | internal/controllernet/sessions.go:167-192 | the result deadline takes the action from the reply, and releases its guard if and only if the observation is no longer current |
| Dispatch.OneGuardPerEpoch | internal/reconcile/coordinator.go:428-440 | in every interleaving, whatever the timing, a Host has at most one guard in each epoch |
| DispatchCausality.IdleMeansSettled | internal/reconcile/coordinator.go:203-234 | when a connected Host has no guard and a current observation, every action of the epoch was processed by the Agent and answered definitively, or precedes a snapshot request whose reply became the observation |
| DispatchCausality.StepKeeps | internal/reconcile/coordinator.go:672-813 | every step of reconciliation, session, Agent and clock that meets the two timing hypotheses keeps the causal invariant |
| DispatchExactness.DeadlineIsSafeExactlyWhen | internal/controllernet/sessions.go:167-192 | from any state the invariant allows, every lawful run after a result deadline keeps idle meaning settled if and only if the deadline does not release a guard of a stale observation while an earlier snapshot is under way or a worker has yet to send |
| DispatchExactness.ReserveIsSafeExactlyWhen | internal/reconcile/coordinator.go:979-991 | every lawful run after a reservation keeps idle meaning settled if and only if no worker has yet to record the sequence of an earlier action of the same key |
| DispatchExactness.StaleDeadlineBreaksCausality | internal/reconcile/coordinator.go:765-773 | a run in which a deadline on a stale observation leaves the Host idle and current before the Agent saw the action |
| DispatchExactness.RepeatedKeyBreaksCausality | internal/reconcile/coordinator.go:979-991 | a run in which a worker's late recording deletes the guard of a newer dispatch of the same key |
| Planner.Plan | internal/reconcile/planner.go:58-155 | the loops decide as the order-free plan: the least obsolete execution first, then run state, hold, block, failure and start conflicts |
| Planner.FindStartConflict | internal/reconcile/planner.go:157-200 | the first conflict among missing devices, unmanaged processes and other executions, or none, with the statuses, claims and owners that PlanInFull.RefusedInFull and ConflictInFull spell out |
| PlanInFull.StartInFull | internal/reconcile/planner.go:58-200 | START is planned if and only if the observation can be acted on, the workload is to run unheld and unblocked, nothing of it is there but STOPPED, and its claim is in the inventory and apart from every unmanaged process and from every other execution that is STARTING, RUNNING, STOPPING, CRASHED or BACKOFF |
| PlanInFull.StopInFull | internal/reconcile/planner.go:73-133 | STOP is planned of exactly the least leftover execution of the workload, or of its current one when it is not to run, under that execution's own generation |
| PlanInFull.BlockInFull | internal/reconcile/planner.go:135-141 | BLOCK is planned if and only if the workload is to run, nothing is left over and its current execution is FAILED |
| PlanInFull.RefusedInFull | internal/reconcile/planner.go:116-150 | each reason not to start is given exactly when it is the first that applies |
| PlanInFull.ConflictInFull | internal/reconcile/planner.go:175-198 | which conflict an execution in the way amounts to |
| PlanInFull.StatusesInFull | internal/reconcile/planner.go:242-248 | all statuses but STOPPED hold resources, and all but STOPPED and FAILED are in the way of a START |
| PlanSafety.StartExactlyWhen | internal/reconcile/planner.go:58-200 | the same told in the planner's own terms |
| PlanSafety.StopIsOwned | internal/reconcile/planner.go:73-133 | STOP is planned only for a non-STOPPED execution of the workload whose ownership matches its snapshot, and never for the wanted one |
| PlanSafety.UnwantedIsStopped | internal/reconcile/planner.go:73-133 | an active execution that is not wanted always leads to a STOP, unless that STOP is in flight |
| PlanSafety.BlockExactlyWhen | internal/reconcile/planner.go:135-141 | BLOCK is planned if and only if the workload may run, nothing obsolete is left and its current execution is FAILED |
| PlanSafety.OrderIndependent | internal/reconcile/planner.go:58-155 | with distinct ExecutionIDs the action does not depend on the order of observed executions |
| PlanSafety.StartAvoidsReported | internal/reconcile/planner.go:175-198 | START is disjoint from the claims executions report, wherever owned ones report no more than the claim of their snapshot |
| PlanSafety.ReportedClaimIsSafeExactlyWhen | internal/reconcile/planner.go:182-190 | every START planned beside an owned execution avoids the claim it reports if and only if that claim is contained in the claim of its snapshot |
| PlanSafety.StartMayMeetReported | internal/reconcile/planner.go:182-190 | without that it need not be: the reported claim of an owned execution is not looked at |
| Convergence.PrepareDispatch | internal/reconcile/coordinator.go:428-562 | a pass dispatches the first action that its workloads call for |
| Convergence.DispatchApproaches | internal/reconcile/coordinator.go:428-562 | under a faithful Agent every dispatch lowers the number of obsolete owned plus missing current executions by exactly one |
| Convergence.DispatchesExactlyWhile | internal/reconcile/coordinator.go:428-562 | some action is dispatchable if and only if that number is positive |
| Convergence.ConvergesToDesired | internal/reconcile/coordinator.go:428-562 | passes end with exactly the current snapshots of RUNNING workloads, and foreign executions as they were |
| ObservedStore.Host.SetExecutions | internal/controllerstate/observed.go:92-107 | a snapshot of a past epoch or with a lower sequence is refused; any other replaces executions, freshness and sequence |
| ObservedStore.Host.RequireFreshBootstrap | internal/controllerstate/observed.go:170-189 | everything that could authorise a START is dropped, and the session stays |
| ObservedStore.Host.Disconnect | internal/controllerstate/observed.go:220-240 | the same, and the epoch is over |
| ObservedStore.Host.UpsertExecution | internal/controllerstate/observed.go:191-218 | one execution is replaced or added, only on a fresh observation of the epoch and not behind its sequence |
| ObservedStore.Host.MarkReady | internal/controllerstate/observed.go:155-165 | an entry becomes READY only once, with executions fresh and inventory, status and processes current |
| ObservedStore.Host.Get | internal/controllerstate/observed.go:242-266 | reading ages each kind of fact by the freshness timeout |
| ObservedStore.OverIsForever | internal/controllerstate/observed.go:324-330 | once an epoch is disconnected or superseded no call that carries it changes the entry |
| ObservedStore.SequenceGrows | internal/controllerstate/observed.go:92-107 | in every run the runtime sequence never decreases within an epoch, and epochs never do |
| ObservedStore.ReadyMeansBootstrapped | internal/controllerstate/observed.go:155-189 | in every run READY implies that executions, inventory, processes and status all arrived in the epoch since it began or since the last demand for a fresh bootstrap |
| ObservedStore.FreshExactlyWhen | internal/controllerstate/observed.go:242-290 | after any run with a clock that does not go back a reader finds each kind of fact fresh if and only if the connection sent it, since it began or was told to start afresh, within the timeout |
| ObservedStore.ReadyExactlyWhen | internal/controllerstate/observed.go:155-165 | an entry is marked READY if and only if executions are fresh and inventory, processes and status have arrived |
| ObservedStore.HandlerRefinesBook | internal/reconcile/coordinator.go:672-813 | connecting, disconnecting, snapshots, results, demands for a fresh bootstrap and ageing each act on the store as their handler acts on the guards and their view of the observation |
| ObservedStore.StoreRefinesBook | internal/reconcile/coordinator.go:672-813 | over every run of these handlers the store and the guards beside it agree with the guards' own book, whose observation lapses when the store finds it too old |
| FarmRuns.RunKeeps | internal/farmconfig/workloads.go:25-754 | after any run of transactions every stored effective hash equals that of resolving the workload from scratch with its latest bindings, the snapshot ledger is sound, RUNNING claims on a Host are disjoint, and no snapshot is lost or changed |
| FarmRuns.RunsFromEmpty | internal/farmconfig/workloads.go:25-754 | all of that holds in every state reachable from the empty database |
| FarmRuns.StepKeeps | internal/farmconfig/service.go:472-482 | each committed transaction keeps the view, the ledger and the claims, and no generation goes back |
| FarmRuns.ChangeKeeps | internal/farmconfig/service.go:121-408 | a changed pool, wallet, profile or override leaves every workload up to date once its users are propagated to |
| FarmRuns.OthersUnaffected | internal/farmconfig/workloads.go:601-672 | only workloads that use the changed object can resolve differently |
| FarmRuns.CreateOrDeleteKeeps | internal/farmconfig/service.go:162-185 | creating an object, or deleting one that nothing references, changes no resolution |
| FarmRuns.CreatedKeeps | internal/farmconfig/workloads.go:25-71 | a new workload is stored as resolved, with its snapshot if it runs on the CPU, and conflicts with none, provided old snapshots of its ID are of generation 1 and its own runtime |
| FarmRuns.UpdatedKeeps | internal/farmconfig/workloads.go:118-187 | an edited workload moves to a new generation exactly when its runtime changes |
| FarmRuns.RetriedKeeps | internal/farmconfig/workloads.go:292-367 | a retry renews the current snapshot under the next generation and a new ExecutionID, with the effective hash unchanged and the block gone |
| FarmRuns.RefreshedKeeps | internal/farmconfig/workloads.go:429-466 | binding GPUs to a fresh inventory keeps view and ledger |
| FarmRuns.DeletedKeeps | internal/farmconfig/workloads.go:192-247 | deletion keeps every snapshot |
| FarmResolution.ResolvedReflects | internal/farmresolve/resolver.go:40-122 | a resolution has the override's tuning where it sets some and the profile's elsewhere, the profile's coin, algorithm, adapter and package, the pool's address and TLS, and user, password and worker as the login policy says |
| FarmResolution.ResolvesExactlyWhen | internal/farmresolve/resolver.go:40-187 | there is a resolution if and only if the release runs the claim, coin, tuning and bindings fit, and there is a worker exactly if the policy places one |
| FarmResolution.FirstIsReplaced | internal/farmresolve/resolver.go:249-276 | the first placeholder of a template is replaced, and no other |
| FarmResolution.ValidatesExactlyWhen | internal/farmresolve/resolver.go:124-171 | a runtime stands up to an inventory if and only if Host, threads and every device, usable and the same hardware as before, are there; then only its bindings change |
| FarmEffects.RunsReflectSources | internal/farmconfig/workloads.go:601-672 | after every run from the empty database each workload stores what its own content, profile, override, pool and wallet say, field by field |
| FarmEffects.SettingsTakeEffect | internal/farmconfig/host_profile_settings.go:18-129 | after every run, a committed override is what each workload of its Host and profile runs with, and the profile where it sets nothing |
| FarmEffects.ChangeIsStored | internal/farmconfig/service.go:121-408 | a committed change stores what was asked for under the next revision, moves workloads on exactly with their runtimes, and new snapshots name their sources |
| FarmEffects.CreatesExactlyWhen | internal/farmconfig/service.go:66-340 | a pool or wallet is created if and only if its ID is free, a profile if moreover it is sensible |
| FarmEffects.DeletesExactlyWhen | internal/farmconfig/service.go:162-185 | an object goes if and only if the revision is current and nothing refers to it |
| FarmEffects.CurrentSnapshotReflects | internal/farmresolve/resolver.go:222-240 | the snapshot of the current generation is what the workload stores, in every field of its plan |
| FarmEffects.ClaimsAreApart | internal/farmconfig/workloads.go:730-754 | RUNNING workloads of a Host never both claim the CPU, nor the same device |
| FarmWorkloads.CreatesExactlyWhen | internal/farmconfig/workloads.go:25-71 | a workload is created if and only if its ID is free, it claims something no other RUNNING one has, and it resolves |
| FarmWorkloads.UpdatesExactlyWhen | internal/farmconfig/workloads.go:118-187 | an edit is accepted if and only if revision and Host are current and it resolves without a conflict |
| FarmWorkloads.UpdatedIs | internal/farmconfig/workloads.go:118-187 | it stores the content under the next revision, and the next generation if and only if what runs changes |
| FarmWorkloads.DeletedExactlyWhen | internal/farmconfig/workloads.go:192-247 | a STOPPED workload goes under its revision, with snapshots only once it is retired, and all else stays |
| FarmWorkloads.BlocksExactlyWhen | internal/farmconfig/workloads.go:249-268 | a generation is blocked if and only if it is the one to run |
| FarmWorkloads.RetriesExactlyWhen | internal/farmconfig/workloads.go:292-367 | a retry is accepted if and only if the current generation of a RUNNING workload is blocked and has a snapshot |
| FarmWorkloads.RetriedTo | internal/farmconfig/workloads.go:292-367 | it runs the same plan under the next generation and another execution |
| FarmWorkloads.RefreshedIs | internal/farmconfig/workloads.go:429-466 | what is left to run on GPUs has a snapshot bound to exactly what this inventory proves |
| FarmReuse.CreationIsSafeExactlyWhen | internal/farmconfig/workloads.go:25-71 | creating a workload keeps the ledger sound if and only if every snapshot its ID still bears is of generation 1 and of the runtime it resolves to; short of a workload to run on GPUs, only if there is none |
| FarmReuse.ReusedIdBreaksLedger | internal/farmconfig/workloads.go:41-48 | a run from the empty database that creates, starts, stops and deletes a workload, after which drawing its ID again breaks the ledger |
| FarmCoherence.PropagateKeeps | internal/farmconfig/workloads.go:674-699 | propagating to all stale workloads, in any order, brings every stored hash up to date |
| FarmCoherence.PlacedKeeps | internal/farmconfig/workloads.go:562-599 | one row and its snapshot are written without disturbing the others |
| FarmModel.MadeSnapshotIsValid | internal/farmresolve/resolver.go:222-240 | a built snapshot passes the check of stored snapshots if and only if it was resolved RUNNING |
| FarmModel.RenewedIsValid | internal/farmconfig/workloads.go:329-349 | a retried snapshot passes it again with the same hash |
| FarmService.Service.LatestAssignments | internal/farmconfig/workloads.go:708-728 | the bindings of the newest snapshot, unless it claims other devices |
| FarmService.Service.PropagateWorkloads | internal/farmconfig/workloads.go:674-699 | the loop brings each listed workload up to date, or fails as a whole |
| FarmService.Service.ResourceConflict | internal/farmconfig/workloads.go:730-754 | true exactly when another RUNNING workload of the Host claims a resource of the candidate |
| FarmService.Service.UpdatePool | internal/farmconfig/service.go:121-160 | commits the change with its fan-out, or changes nothing and names the error |
| FarmService.Service.UpdateWallet | internal/farmconfig/service.go:242-281 | the same for a wallet |
| FarmService.Service.UpdateProfile | internal/farmconfig/service.go:366-408 | the same for a profile, whose references and release are checked |
| FarmService.Service.CreateSettings | internal/farmconfig/host_profile_settings.go:18-55 | the same for a new Host override |
| FarmService.Service.UpdateSettings | internal/farmconfig/host_profile_settings.go:84-129 | the same for an edited override, checked against its profile |
| FarmService.Service.DeleteSettings | internal/farmconfig/host_profile_settings.go:144-165 | the same when an override goes and defaults return |
| FarmService.Service.CreateWorkload | internal/farmconfig/workloads.go:25-71 | checks, resolves and stores a workload, or changes nothing |
| FarmService.Service.UpdateWorkload | internal/farmconfig/workloads.go:118-187 | refuses a changed Host, a stale revision and a resource conflict; otherwise stores the edited row |
| FarmService.Service.DeleteWorkload | internal/farmconfig/workloads.go:192-247 | refuses a RUNNING workload, and one with snapshots unless its retirement is established |
| FarmService.Service.BlockGeneration | internal/farmconfig/workloads.go:249-268 | only the current generation of a RUNNING workload is blocked |
| FarmService.Service.RetryWorkload | internal/farmconfig/workloads.go:292-367 | refuses unless the current generation of a RUNNING workload is blocked |
| FarmService.Service.RefreshSnapshot | internal/farmconfig/workloads.go:429-466 | creates a snapshot for the bindings the inventory proves, unless the current one has them |
| Canonical.EncodingIsInjective | internal/farmmodel/hash.go:138-221 | two encodable values with the same text are equal, for any nesting |
| Canonical.EncodeUnique | internal/farmmodel/hash.go:138-188 | a value is known from any text it begins, whatever separator follows |
| Canonical.EscapedUnique | internal/farmmodel/hash.go:190-221 | escaped strings of section 7 of RFC 8259 can be told apart |
| JsonReader.ReadBack | internal/farmmodel/hash.go:138-221 | a strict reader of RFC 8259 text, with canonical escapes and ascending names, reads every encodable value back from its text, whatever separator follows |
| JsonReader.TextReadsBack | internal/farmmodel/hash.go:138-221 | and nothing is left over |
| Canonical.AppendCanonical | internal/farmmodel/hash.go:138-188 | the encoder fails exactly on values without canonical text and appends that text otherwise |
| Canonical.SortKeys | internal/farmmodel/hash.go:166-171 | keys are emitted in their one sorted order |
| Maintenance.HoldTable.SetMaintenanceHold | internal/farmconfig/maintenance.go:49-92 | accepted if and only if the revision is current; the row then holds exactly the hold and reason asked for, under a revision that moves on exactly when something changes |
| Maintenance.SetStoresWhatWasAsked | internal/farmconfig/maintenance.go:58-88 | the same of every row and request |
| Maintenance.AskedHoldStopsStarts | internal/reconcile/coordinator.go:847-882 | in every run, once a request for a hold was accepted no START is sent until a request to release it is |
| Maintenance.SettingTakesEffect | internal/reconcile/coordinator.go:847-882 | an undisturbed change is stored, sent on the live session under its revision, and leaves the locks free |
| Maintenance.StartsWithoutHold | internal/reconcile/coordinator.go:203-234 | without a hold a START goes out |
| Maintenance.HelloTellsTheHold | internal/controllernet/server.go:300-342 | a new session learns the stored hold in hello |
| Maintenance.NoStartUnderHold | internal/reconcile/coordinator.go:564-592 | in every interleaving no START is handed to the transport while a hold is active in the store |
| Maintenance.LiveSessionsAreAware | internal/controllernet/server.go:300-342 | between changes every live session was sent the latest revision, in hello or after |
| Maintenance.StepKeeps | internal/reconcile/coordinator.go:847-882 | every step of Connect, SetMaintenanceHold, reconciliation and the Agent keeps the locking and awareness invariant |
| Maintenance.AgentAgrees | internal/agentnet/client.go:233-237 | the Agent's revision is never ahead of the store, and at the store's revision it holds exactly if the store does |
| Maintenance.AgentStaysHeld | internal/runtime/supervisor/supervisor_linux.go:473-501 | once the Agent applied the stored active hold, no late or repeated message releases it |
| Maintenance.GreatestRevisionWins | internal/runtime/supervisor/supervisor_linux.go:473-501 | whatever the order and repetition of messages the Agent ends at the greatest revision and the hold it names |
| Maintenance.OrderDoesNotMatter | internal/runtime/supervisor/supervisor_linux.go:473-501 | two orders of the same messages end alike |
| RestoreBarrier.BarrierTable.Prepare | internal/controllerbackup/manager_linux.go:1368-1436 | every Host known to the restored farm is barred, and the farm requires reconciliation exactly if there is one |
| RestoreBarrier.BarrierTable.Apply | internal/reconcile/coordinator.go:598-658 | a barrier is cleared, marked or left, and the pass ends without an action, exactly as the facts agree |
| RestoreBarrier.BarrierTable.ClearBarrier | internal/farmconfig/restore.go:114-139 | a barrier goes only under the backup and revision it was read with, and the flag follows the remaining ones |
| RestoreBarrier.BarrierTable.MarkConflict | internal/farmconfig/restore.go:81-112 | a conflict is recorded once under a new revision |
| BarrierRuns.BarriersHold | internal/reconcile/coordinator.go:203-234 | over any run in which facts and barriers change between reading and acting: an action is sent only after it was found current on the executions it was drafted from, and drafted only once its Host was free of the last restore; a barrier is lifted only by a pass that read complete agreeing facts after the last restore and conflict; the flag equals some barrier remaining |
| BarrierRuns.StepKeeps | internal/reconcile/coordinator.go:428-658 | every step of a pass, of a check or of a send keeps what was read in force or refused as stale |
| BarrierRuns.AgreementLeadsToSend | internal/reconcile/coordinator.go:598-658 | once a restored Host is complete and agreeing, one pass lifts its barrier and only the next drafts and sends |
| BarrierRuns.DraftsEnd | internal/reconcile/coordinator.go:203-234 | an action whose Host is barred or shows anything else by now is dropped, and one that is sent is sent once |
| BarrierRuns.BarrierStays | internal/reconcile/coordinator.go:598-658 | a barrier survives every run in which its Host is never complete and agreeing |
| Watchdog.WatchdogRateBound | internal/runtime/supervisor/supervisor_linux.go:327-403 | between explicit Starts every half-open window of length CrashWindow holds fewer than CrashLimit watchdog restarts |
| Watchdog.CrashListIsWindow | internal/runtime/supervisor/supervisor_linux.go:354-361 | the stored list is exactly the crashes of the last window |
| Watchdog.RestartsExactlyWhen | internal/runtime/supervisor/supervisor_linux.go:354-381 | the watchdog restarts after a crash if and only if it and those before it in its window are fewer than CrashLimit |
| Watchdog.ClosedWindowReachesLimit | internal/runtime/supervisor/supervisor_linux.go:354-361 | the bound is exact: for every CrashLimit of 2 or more a closed window can hold CrashLimit restarts |
| Watchdog.DelaysGrow | internal/runtime/supervisor/supervisor_linux.go:375-378 | a delay whose shift does not overflow is the doubled initial one capped by RestartMax, positive, and not below the one before |
| Watchdog.DelaysPositiveExactlyWhen | internal/runtime/supervisor/supervisor_linux.go:375-378 | the first n delays are all positive if and only if the n-th shift does not overflow |
| Watchdog.AlwaysWaitsExactlyWhen | internal/runtime/supervisor/supervisor_linux.go:354-378 | whatever the crashes, every restart waits a positive time if and only if the limit is below 2 or the shift of the last restart it allows does not overflow |
| Watchdog.DefaultsAlwaysWait | cmd/le0x-agent/main_linux.go:149 | the Agent runs with the defaults, under which every restart waits |
| Watchdog.DelayCanCollapse | internal/runtime/supervisor/supervisor_linux.go:375-378 | with one second to begin with the 35th shift is the first to overflow, to a negative delay |
| Watchdog.RecordCrash | internal/runtime/supervisor/supervisor_linux.go:354-361 | the in-place filter keeps exactly the crashes of the window, in order, and appends the new one |
| Supervisor.ProcessIsOnRecord | internal/runtime/supervisor/supervisor_linux.go:220-501 | in every run at most one process of an execution is alive, it is on record so that a hold stops it, and every waiting Stop will be answered |
| Supervisor.WatchdogIsBounded | internal/runtime/supervisor/supervisor_linux.go:327-403 | in every run of an execution without an explicit Start, with clock readings that do not go back, any window of length CrashWindow sees fewer than CrashLimit watchdog timers |
| Supervisor.WatchdogRestartsExactlyWhen | internal/runtime/supervisor/supervisor_linux.go:327-403 | in every such run a crash of a watched execution sets a timer if and only if fewer than CrashLimit crashes, it included, lie in the window that ends with it |
| Supervisor.CrashRestarts | internal/runtime/supervisor/supervisor_linux.go:327-403 | below the limit a crash leads to BACKOFF and, once the timer has run out, to a new running process |
| Supervisor.CrashEnds | internal/runtime/supervisor/supervisor_linux.go:361-374 | at the limit the execution is FAILED, and unwatched it is CRASHED, with no timer |
| Supervisor.StartRuns | internal/runtime/supervisor/supervisor_linux.go:182-301 | a Start that finds no hold and nothing running leads to a running process with a clean crash list |
| Supervisor.StopEnds | internal/runtime/supervisor/supervisor_linux.go:404-443 | a Stop ends the process on record and the execution |
| Supervisor.LaterHoldCounts | internal/runtime/supervisor/supervisor_linux.go:473-487 | a hold is taken up under a later revision and under no other |
| Supervisor.StopKills | internal/runtime/supervisor/supervisor_linux.go:404-443 | when Stop returns nothing of the execution is alive |
| Supervisor.QuietUnderHold | internal/runtime/supervisor/supervisor_linux.go:260-301 | under a hold that stays no process is created, whatever happens, so what is stopped stays stopped |
| Supervisor.HeldLaunchIsOnRecordExactlyWhen | internal/runtime/supervisor/supervisor_linux.go:260-272 | right after a launch that meets the hold the record is true if and only if no process was on it, or a dead one that no Stop waits for |
| Supervisor.HeldLaunchIsSafeExactlyWhen | internal/runtime/supervisor/supervisor_linux.go:260-272 | and the record stays true in every lawful run after it if and only if, beyond that, a dead process is on record only in a closed Supervisor |
| Supervisor.SupersededLaunchEscapesHold | internal/runtime/supervisor/supervisor_linux.go:260-272 | a run in which a superseded watchdog launch marks a running execution STOPPED, so that the hold does not stop its process |
| Supervisor.SupersededLaunchLosesStop | internal/runtime/supervisor/supervisor_linux.go:260-272 | a run in which such a launch meets a waiting Stop, which then waits for ever |
| SupervisorService.Service.Start | internal/runtime/supervisor/supervisor_linux.go:182-219 | a new generation is launched unless the Supervisor is closed, held, or the execution already runs |
| SupervisorService.Service.Launch | internal/runtime/supervisor/supervisor_linux.go:260-301 | the process is created only if no hold is active and the launch is the current, desired one |
| SupervisorService.Service.ProcessExited | internal/runtime/supervisor/supervisor_linux.go:327-388 | a crash of the current process of a watched, desired execution sets a timer with the computed delay and leaves BACKOFF if and only if fewer than CrashLimit crashes, it included, lie in the window, and leaves FAILED otherwise |
| SupervisorService.Service.Stop | internal/runtime/supervisor/supervisor_linux.go:404-425 | the process to wait for, or a new generation that outdates every launch under way |
| SupervisorService.Service.ApplyMaintenanceHold | internal/runtime/supervisor/supervisor_linux.go:473-501 | older or conflicting revisions are refused; an accepted active hold names every execution desired or not STOPPED |
| Installer.Machine.Install | internal/linuxinstall/install_linux.go:147-210 | under any failures: a rollback that reports success leaves services and copies as before, and files too if and only if publication did not stop at a new configuration whose temporary name cannot be removed; one that fails leaves every unrestored pre-existing artifact its copy; success places everything |
| Installer.Machine.Rollback | internal/linuxinstall/install_linux.go:355-422 | success means everything restored and no copy left; failure means the copies are kept unless everything was restored |
| Installer.Machine.RestoreEnablement | internal/linuxinstall/install_linux.go:440-456 | on success every attempted service is enabled as before |
| Installer.Machine.RestoreActive | internal/linuxinstall/install_linux.go:458-474 | on success, with enablement restored, all services are as before |
| Installer.Machine.RestoreArtifacts | internal/linuxinstall/install_linux.go:372-405 | on success every published artifact is what it was |
| Installer.Machine.PreserveFile | internal/linuxinstall/install_linux.go:748-806 | an existing configuration is never replaced; a new one whose temporary name cannot be removed stands unrecorded |
| Installer.Machine.ReplaceFile | internal/linuxinstall/install_linux.go:695-746 | the new artifact is in place once renamed, even if the sync then fails |
| Installer.Machine.PublishAll | internal/linuxinstall/install_linux.go:521-552 | publication goes on to the first step that fails; whatever differs afterwards is on record as published, or is the configuration at which it stopped so |
| Installer.Machine.Activate | internal/linuxinstall/install_linux.go:195-208 | every attempted action is on record before it is tried |
| Installer.Machine.CleanUp | internal/linuxinstall/install_linux.go:500-519 | on success no rollback copy remains, and none is ever changed |
| Installer.StrayRun | internal/linuxinstall/install_linux.go:786-800 | an installation on an empty machine whose only failure is that removal: it reports a rollback and leaves the configuration |
| Installer.StopsAtFirstFailure | internal/linuxinstall/install_linux.go:521-552 | publication stops at the first step that fails and at none before, and leaves a stray configuration exactly if that step is a new one whose temporary name stays |
| IncidentStore.Store.ReconcileIncidents | internal/farmconfig/incidents.go:49-127 | refuses foreign, repeated or outdated conditions; otherwise shows the given ones and resolves the absent ones it has authority over |
| IncidentStore.ActiveExactly | internal/farmconfig/incidents.go:81-122 | after a pass the active incidents of the Host are exactly the given conditions and the earlier ones of kinds it may not resolve |
| IncidentStore.ResolvedOnlyWhenFresh | internal/incidents/evaluator.go:48-86 | outside deletion an incident other than a hold resolves only in a pass over a connected Host that is ready and fresh in everything |
| IncidentStore.OccurrencesAreActivations | internal/farmconfig/incidents.go:97-118 | over any run the occurrence count is the number of times the incident turned active |
| IncidentStore.OtherHostsUntouched | internal/farmconfig/incidents.go:81-122 | a pass leaves other Hosts' incidents alone |
| IncidentsInFull.PassInFull | internal/farmconfig/incidents.go:81-122 | row by row: given conditions show, absent ones the pass may resolve end, all else stays |
| IncidentsInFull.PassCommitsExactlyWhen | internal/farmconfig/incidents.go:56-81 | a pass commits if and only if the facts it was evaluated on are still the stored ones |
| IncidentsInFull.EvaluationInFull | internal/incidents/evaluator.go:42-185 | a condition is shown if and only if the facts call for it, family by family in their precedence; all but the hold can be resolved if and only if everything is fresh |
| Incidents.Evaluate | internal/incidents/evaluator.go:42-185 | the loops show exactly the conditions of the input, one family for each workload, with the authority to resolve that its freshness gives |
| Incidents.EvaluatedIsDistinct | internal/incidents/evaluator.go:42-199 | no identity is ever emitted twice |
| Retention.SortManifests | internal/controllerbackup/model.go:178-188 | insertion sort in place: newest first, the same backups |
| Retention.Retained | internal/controllerbackup/model.go:154-176 | exactly the non-hourly backups, the newest hourlyLimit hourly ones and the newest hourly one of each of the dailyLimit newest days, whatever the input order |
| Retention.KeptInNumbers | internal/controllerbackup/model.go:154-176 | kept are all that are not hourly, exactly the hourlyLimit newest hourly ones or all there are, and the newest one of each of exactly the dailyLimit latest days or all there are |
| Retention.PruningIsIdempotent | internal/controllerbackup/model.go:154-176 | pruning what was pruned removes nothing more |
| Retention.NewerPushOut | internal/controllerbackup/model.go:154-176 | a new backup never brings an older one back |
| Retention.Prune | internal/controllerbackup/manager_linux.go:363-410 | an interrupted pass never removes a backup that is to be kept, and a complete one leaves exactly those |

## Left out

- gRPC, TLS, pairing and trust files, SQL text and schema migration, the operator socket and command line: library calls and plumbing around the modelled state.
- SQLite validation, SHA-256 of files and inode identity are properties of a modelled inode; a database whose content changes after a successful startup is not modelled.
- Restore.Install: the open descriptors, the copy of the candidate and the check hooks around each step are not modelled; a check that finds a changed object appears as a failure at that step.
- RestoreRecovery.RecoveryConverges: a leftover validation name may remain when there is no marker, and may block a later restore of the same backup.
- Hostile changes to the data directory between a check and its unlink: recovery starts from an arbitrary directory but runs alone.
- DispatchCausality.IdleMeansSettled: one Host and one Agent process for each epoch; nothing is claimed about Agent processes across a reconnect.
- Convergence.ConvergesToDesired: inventory is taken to be fresh and current snapshots valid throughout, and the Agent to answer every action with its execution; holds, barriers, blocks and failures end the convergence and are treated in their own modules.
- Planner.Plan: ExecutionIDs are numbers in the order of their text, and the list is not sorted but searched for its least element.
- ObservedStore.Host.Get: telemetry and the payloads of inventory and processes are not modelled, only their freshness; executions are not kept sorted, on which no decision depends.
- FarmService.Service: creations and deletions of pools, wallets and profiles are modelled as values in `FarmTables.Step`, without methods of their own; claims are sets, since sorting and the refusal of duplicates come before every transaction.
- FarmTables.Step: names, timestamps, metadata, field-by-field validators and corruption of stored rows are not modelled.
- FarmModel: GPU identity rules reduce to whether a GPU of an inventory is usable.
- Canonical.EncodingIsInjective: the three Go integer types are one kind of value, as they print alike; keys are valid UTF-8.
- Maintenance.LiveSessionsAreAware: whether the Agent confirms a sent hold is not modelled, only that it was sent or the session revoked; an Agent process that is replaced starts without a hold until its next hello.
- RestoreBarrier.BarrierTable.Apply: errors of the store, which also end the pass, are not modelled.
- BarrierRuns.BarriersHold: the observation, the barrier and the desired snapshots of one evaluation are read at one moment; the Host lock, which keeps evaluations of one Host apart, is not relied on.
- Supervisor: process output, PIDs, environments, signals and the grace period; processes are created, die, and are waited for.
- SupervisorService.Service.Start: plans are not compared; the restart policy of every execution here restarts it on failure.
- Installer.Machine.Install: the outcome of each publication is an input and every other primitive may fail as it likes; accounts, GPU groups, directories and uninstallation; systemd is a state of enabled and active services whose commands may fail with or without effect.
- Incidents.Evaluate: telemetry of a running execution is given as the condition it means; the sorting of conditions by key is not modelled.
- IncidentStore.Store.ReconcileIncidents: the authority fingerprint is given as whether it still holds, and an identity as the typed scope it is the digest of.
- Retention.Prune: verification of an artifact before its removal appears as a removal that may fail.
- Production of hashes, IDs and clocks, the run loop and its scheduling, and logging.
