# DoneThen: a verified model

DoneThen is a fail-closed interlock in front of a machine shutdown: an agent's sessions are watched, a shutdown
is granted when they stop, and from then on any sign of life must take the grant back, across crashes and with
several processes working on the same files. These modules model the parts that carry that promise and prove it.

- `actions`, `plugin_job`, `recovery_records`: receipts, the plugin job with Validate, and the create-once records
  of one power attempt. Digests and checksums are opaque injective identifiers, times are naturals in nanoseconds.
- `power_world`: one job's power attempt as a shared state machine. `Step` lists the atomic actions any process
  may take, a run interleaves them freely, and a crashed process simply takes no more of them (its lock is freed).
  `Rely` is what a process may assume about all the others between two of its own accesses.
- `power_machine`, `supervisor`, `cancel_paths`: the program's own procedures, written as procedures on that
  machine. Before every access the others run and the process may die; every write it makes is shown to be a `Step`.
- `hook_steps`, `hook_observer`, `barrier`, `target_history`: the lifecycle hooks, in place on a job record and as
  functions on job values, and the theory of the multi-session Stop barrier.
- `evidence`, `service`: completion evidence of `verified_success` jobs.
- `event_keys`, `store`: event deduplication, target reservations with a death between any two writes, and the
  capture-then-update protocol of the hooks.
- `power_helper`: the privileged Linux helper with its timer callback.
- `coordinator`: the classic foreground run. `hook_policy`: the decision on a host's hook inventory.

Answers of hosts, verifiers, backends, systemd, clocks and disks are arbitrary values. A poll or retry loop is
given the number of rounds it lives to make; running out of them is one more way to die.

Three results are about what the program does not promise. `Barrier.ToolStepReducesExactly`: the expiry branch of
the finish and pause tool hooks closes a job even if an action is pending, exactly when the controller matches and
the arm has expired. `StoreModule.Store.BindSession`: a new single-session job takes a reservation from a barrier
exactly if that barrier is ORPHANED with an action pending. Such records come from schema-2 supervisors and Validate
accepts them, but by `PowerWorld.OrphansAreResolved` no present code leaves one. `TargetHistory.ReturningTurnIsStoppable`: a continuation tombstone lasts
until another turn runs, not for ever.

## Model

| member | source | states |
|---|---|---|
| PowerWorld.FencedSettlement | internal/pluginstate/recovery.go:326-364 | over every interleaving and crash, a `no_action` resolution and a call-start record never both exist, and a job resolved `no_action` has not entered Backend.Schedule |
| PowerWorld.ScheduleAtMostOnce | internal/pluginpower/supervisor.go:454-515 | Backend.Schedule is entered at most once in the life of a job, and only after envelope, intent and call-start were durable, in that order |
| PowerWorld.OneCallPerHistory | internal/pluginpower/supervisor.go:454-515 | in any legal history there is one schedule call, with envelope, intent and call-start before it in that order |
| PowerWorld.ConfirmedInertExit | internal/pluginpower/supervisor.go:792-876 | intent and scheduled are left only for a reconcile state, or for CANCELLED or ACTION_FAILED with a resolution on disk that proves the action inert: `no_action` without a call-start record, otherwise `cancelled` with evidence of matching scope, and its recorded result is what a Backend.Cancel call had come back with, confirmed, before the exit |
| PowerWorld.ExitIsSettled | internal/cli/plugin_cancel.go:72-96 | the one step that takes a job out of the power states for good finds its resolution on disk |
| PowerWorld.EqualGenerationsGuardTheGrant | internal/pluginpower/supervisor.go:379-401 | a job that is STOP_OBSERVED with one generation at two moments of a run had the same targets and no request in between: the generation check has no ABA gap |
| PowerWorld.OneUnresolvedJobPerMachine | internal/pluginpower/supervisor.go:306-321 | at most one job of the machine is in intent or scheduled, given that the others enter by the rule of OtherJob |
| PowerWorld.WriteIsOtherJobsStep | internal/pluginpower/supervisor.go:306-321 | and that rule is this job's own: every write of one job is a step OtherJob allows at every other job |
| PowerWorld.EveryJobIsValid | internal/pluginstate/store.go:316-361 | in every reachable state of every run the job on disk is one Validate accepts |
| PowerWorld.OrphansAreResolved | internal/pluginstate/job.go:195-203 | in every reachable state an action is unresolved exactly in intent or scheduled: no present code leaves an ORPHANED job with an intent |
| PowerWorld.StepKeepsInvariant | internal/pluginstate/recovery.go:395-437 | every atomic action of every process keeps records, job, lock token and history consistent |
| PowerWorld.RunKeepsInvariant | internal/pluginstate/recovery.go:395-437 | hence every state of every run is consistent |
| PowerWorld.StepByOthersIsRely | internal/pluginpower/supervisor.go:296-305 | what the supervisor and the cancel paths assume between their own accesses covers every step any other process can take |
| PowerWorld.ExitBacked | internal/cli/plugin_cancel.go:72-96 | in any legal history an exit to CANCELLED or ACTION_FAILED is preceded by the one resolution, and a `cancelled` one by a confirmed Cancel |
| PowerWorld.ResolvedOnce | internal/pluginstate/recovery.go:207-242 | a job is resolved at most once |
| RecoveryRecords.ResolutionNamesTheCallBoundary | internal/pluginstate/recovery.go:326-364 | a readable resolution says `no_action` exactly if there is no call-start record, and carries positive evidence in the scope of the cancelled handle otherwise |
| Actions.ChecksumDeterminesReceipt | internal/actions/backend.go:119-150 | two accepted schema-2 receipts with one checksum are one receipt |
| Actions.IntentReceiptCancelsButNeverCertifies | internal/actions/backend.go:189-230 | an intent handle is accepted for cancellation of its own job and never as the outcome of any schedule call |
| PowerMachineModule.PowerMachine.UpdateJob | internal/pluginstate/store.go:316-361 | load, mutate, Validate and write as one step; an error leaves it open whether the write landed, except a refused mutation |
| PowerMachineModule.PowerMachine.LoadRecoveryAuthority | internal/pluginstate/recovery.go:244-286 | reads the four files one by one with others running in between; what it returns is still on disk to the extent the lock or ownership guarantees |
| PowerMachineModule.PowerMachine.BarrierAuthority | internal/pluginstate/store.go:884-921 | hands out a barrier only if bound, satisfied and not asked to cancel |
| PowerMachineModule.PowerMachine.PersistRecoveryEnvelope | internal/pluginstate/recovery.go:123-145 | seals the intent receipt once, for an execute job in STOP_OBSERVED, or returns the identical record |
| PowerMachineModule.PowerMachine.PersistScheduleCallStarted | internal/pluginstate/recovery.go:147-176 | the no-retry boundary: succeeds only with no earlier call-start and no resolution |
| PowerMachineModule.PowerMachine.PersistScheduleReceipt | internal/pluginstate/recovery.go:178-205 | seals the backend's receipt once, against the envelope and call-start it belongs to |
| PowerMachineModule.PowerMachine.PersistRecoveryResolution | internal/pluginstate/recovery.go:207-242 | returns the resolution on disk, old or new; a new one fits the authority just read |
| PowerMachineModule.PowerMachine.BackendSchedule | internal/pluginpower/supervisor.go:515-515 | spends the call-start token and comes back exactly once |
| PowerMachineModule.PowerMachine.BackendCancel | internal/pluginpower/supervisor.go:792-798 | leaves a Cancel attempt in the history, and a confirmation only if it was confirmed |
| SupervisorModule.Supervisor.Run | internal/pluginpower/supervisor.go:92-212 | returns without error only on a terminal job or at a deadline nobody asked to cancel, and over the whole run no acceptance is left without a Cancel attempt or a recorded countdown |
| SupervisorModule.Supervisor.Turn | internal/pluginpower/supervisor.go:97-150 | one round of the loop keeps that promise |
| SupervisorModule.Supervisor.Advance | internal/pluginpower/supervisor.go:122-210 | a job with no action pending is refused, captured, scheduled or left alone; no acceptance is lost |
| SupervisorModule.Supervisor.Capture | internal/pluginpower/supervisor.go:214-294 | the three host snapshots never touch an action and refuse only into a terminal state |
| SupervisorModule.Supervisor.Schedule | internal/pluginpower/supervisor.go:296-592 | takes and always gives back the machine lock; every acceptance is followed by a Cancel attempt or ACTION_SCHEDULED at the intent's generation |
| SupervisorModule.Supervisor.ScheduleLocked | internal/pluginpower/supervisor.go:306-592 | the same for everything done under the lock |
| SupervisorModule.Supervisor.FirstLook | internal/pluginpower/supervisor.go:306-377 | goes on only if the inventory is empty, the grant stands and every entry gate passed |
| SupervisorModule.Supervisor.SecondLook | internal/pluginpower/supervisor.go:379-424 | goes on only with the generation of the first look, still observed, and every final gate passed |
| SupervisorModule.Supervisor.SealIntentEnvelope | internal/pluginpower/supervisor.go:425-457 | the envelope with the intent receipt is on disk before the job changes, and the grant is still intact |
| SupervisorModule.Supervisor.RecordIntent | internal/pluginpower/supervisor.go:458-475 | the intent carries the generation the gates saw, with no resumption between their look and the intent |
| SupervisorModule.Supervisor.RecheckIntent | internal/pluginpower/supervisor.go:477-510 | goes on only if nobody revoked the intent and every check passed; a refusal that reports success has closed the job |
| SupervisorModule.Supervisor.CallBackend | internal/pluginpower/supervisor.go:511-591 | from call-start to the end of the transaction no acceptance is lost |
| SupervisorModule.Supervisor.EnterBackend | internal/pluginpower/supervisor.go:515-591 | once the call is entered, whatever comes back, no acceptance is lost and the lock is still held |
| SupervisorModule.Supervisor.ScheduleOutcomeUnknown | internal/pluginpower/supervisor.go:516-537 | an unknown outcome is marked only in a standing intent, a request to cancel found there is answered with a Cancel, and without one the error is reported |
| SupervisorModule.Supervisor.SettleAcceptance | internal/pluginpower/supervisor.go:538-591 | an accepted action ends in a Cancel attempt or in ACTION_SCHEDULED at the intent's generation |
| SupervisorModule.Supervisor.MarkScheduled | internal/pluginpower/supervisor.go:551-574 | every gate after sealing that fails leads to a Cancel: no Cancel attempt means all gates passed |
| SupervisorModule.Supervisor.WriteScheduled | internal/pluginpower/supervisor.go:575-591 | ACTION_SCHEDULED is written at the intent's generation or the action is rolled back |
| SupervisorModule.Supervisor.AbortIntentBeforeSchedule | internal/pluginpower/supervisor.go:738-756 | an intent that is not scheduled is resolved first and then cancelled |
| SupervisorModule.Supervisor.CancelAndResolve | internal/pluginpower/supervisor.go:792-800 | a confirmed Cancel is on disk as a resolution before the job may be settled |
| SupervisorModule.Supervisor.CancelPowerForReason | internal/pluginpower/supervisor.go:792-824 | always attempts a Cancel, with the recorded handle; nil means the job is terminal |
| SupervisorModule.Supervisor.CancelAcceptedAction | internal/pluginpower/supervisor.go:844-876 | always attempts a Cancel, with the returned receipt if it fits the job and the recorded one otherwise; the job stays in intent or scheduled unless it is closed, and success means that it is |
| SupervisorModule.Supervisor.Fail | internal/pluginpower/supervisor.go:878-889 | closes a job only before an intent |
| SupervisorModule.Supervisor.PersistRecoveryResolutionIfPresent | internal/pluginpower/supervisor.go:768-777 | success for a job in intent or scheduled means the resolution is on disk |
| SupervisorModule.Supervisor.MonitorScheduled | internal/pluginpower/supervisor.go:594-693 | ends only on a terminal job, at an unrevoked deadline within the lateness bound, or with a Cancel attempted after its last look |
| SupervisorModule.Supervisor.Judge | internal/pluginpower/supervisor.go:607-691 | one look at a scheduled job: the countdown runs on only if every check of the look passed or a Cancel was attempted, and ends only as a watch may end |
| SupervisorModule.Supervisor.CancelWatched | internal/pluginpower/supervisor.go:660-691 | the watch's Cancel follows every earlier look |
| SupervisorModule.NoRequestIgnored | internal/pluginpower/supervisor.go:594-693 | a request to cancel made before the last look is answered by a later Cancel attempt or a terminal job |
| SupervisorModule.CountdownLook | internal/pluginpower/supervisor.go:610-620 | the deadline counts exactly if nobody asked to cancel and it is reached within the lateness bound |
| SupervisorModule.EntryGateExactly | internal/pluginpower/supervisor.go:328-377 | what each policy must show before the first look passes |
| SupervisorModule.HostGateExactly | internal/pluginpower/supervisor.go:402-424 | what the host must show at the final gate |
| SupervisorModule.AcceptanceSettled | internal/pluginpower/supervisor.go:515-591 | one returned call with its obligation met loses nothing |
| CancelPathsModule.CancelActor.ResolveAuthority | internal/cli/plugin_cancel.go:24-39 | an existing resolution is the answer, an attempt without call-start is resolved without the backend, anything else needs a confirmed Cancel |
| CancelPathsModule.CancelActor.SettlePluginPowerLocked | internal/cli/plugin_cancel.go:22-70 | a settlement reported for a job in intent or scheduled is the one on disk, and true |
| CancelPathsModule.CancelActor.PersistPluginPowerSettlement | internal/cli/plugin_cancel.go:72-96 | success means a terminal job |
| CancelPathsModule.CancelActor.PersistPreIntentRevocationFence | internal/cli/cancel_worker.go:155-200 | success means a terminal job, and the machine lock is held until then |
| CancelPathsModule.CancelActor.LockForWorker | internal/cli/cancel_worker.go:45-82 | the worker holds the lock exactly if it says so, and a request to cancel that it wrote was on disk, and in the history if an action was pending, before it waited |
| CancelPathsModule.CancelActor.AskBeforeWaiting | internal/cli/cancel_worker.go:45-58 | the write itself: an open job of this binding is asked to cancel, whoever ran between the look and the write |
| CancelPathsModule.CancelActor.CancelWorker | internal/cli/cancel_worker.go:19-149 | exit code zero means the job is terminal or its attempt is resolved on disk, and that the job or its envelope names the binding the worker was given; the lock is never kept |
| CancelPathsModule.CancelActor.WorkLocked | internal/cli/cancel_worker.go:86-149 | the same under the lock, with the binding checked before anything is settled |
| CancelPathsModule.CancelActor.RecoverWithoutJob | internal/cli/cancel_worker.go:87-111 | without a readable job the records alone are resolved |
| CancelPathsModule.CancelActor.SettleAndPersist | internal/cli/cancel_worker.go:127-148 | settle the attempt, then the job; a recorded failure to settle leaves an unresolved job asked to cancel |
| CancelPathsModule.CancelActor.CancelPluginJob | internal/cli/cancel.go:238-279 | the unresolved branch: success means a terminal job |
| CancelPathsModule.CancelActor.CancelPluginRecoveryAuthority | internal/cli/cancel.go:94-125 | success means a resolution on disk |
| CancelPathsModule.ResolutionIsTrue | internal/pluginstate/recovery.go:326-364 | a resolution on disk tells the truth: `no_action` means the schedule call was never entered, `cancelled` that a Cancel was confirmed |
| HookObserver.ApplyBarrierPrompt | internal/hookobserver/observer.go:370-403 | is its step on job values, field by field on the record and the target it points into |
| HookObserver.ApplyBarrierStop | internal/hookobserver/observer.go:405-472 | the same for Stop, continuation included |
| HookObserver.ApplyBarrierSessionEnd | internal/hookobserver/observer.go:474-486 | the same for session end |
| HookObserver.PinBarrierWorkspace | internal/hookobserver/observer.go:488-499 | pins the first absolute directory and accepts only that one afterwards |
| HookObserver.ResumeBarrier | internal/hookobserver/observer.go:390-402 | the common end of a prompt and a continuation |
| HookObserver.FailOrCancelBarrier | internal/hookobserver/observer.go:508-515 | closes a barrier without an action and asks to cancel one with an action |
| HookObserver.RequestPowerCancellation | internal/hookobserver/observer.go:755-764 | asks exactly if an action is unresolved |
| HookObserver.ClearCompletion | internal/hookobserver/observer.go:737-753 | clears completion, host evidence and the request, and nothing else |
| HookObserver.PromptLegacy | internal/hookobserver/observer.go:191-222 | prompts at single-session jobs |
| HookObserver.StopLegacy | internal/hookobserver/observer.go:236-312 | Stop at single-session jobs |
| HookObserver.StopVerified | internal/hookobserver/observer.go:292-312 | Stop at a verified_success job: only the ready turn of an observed finish grants |
| HookObserver.SessionEndLegacy | internal/hookobserver/observer.go:339-361 | session end at single-session jobs |
| HookObserver.PostToolUse | internal/hookobserver/observer.go:134-180 | finish, pause and cancel tool hooks |
| Barrier.BarrierHookKeepsValid | internal/pluginstate/job.go:222-451 | one hook: from a valid job whose targets are all seen if an action is pending, it yields such a job again |
| Barrier.EveryWriteKeeps | internal/pluginstate/job.go:156-166 | every write the shared machine allows, by whomever, yields a job of that kind: intent, countdown, rollback, unconfirmed cancel, request, binding or hook |
| Barrier.EveryJobIsKept | internal/pluginstate/job.go:222-451 | so every job of every run is of that kind: an unresolved barrier has seen all its targets |
| Barrier.EveryHookIsAccepted | internal/hookobserver/observer.go:370-515 | from every reachable state of a barrier any hook yields a job Validate accepts, and the run goes on with it |
| Barrier.BarrierHookReduces | internal/hookobserver/observer.go:370-515 | a barrier hook never lowers the generation, never adds authority, and under an unchanged generation leaves targets, request and grant alone |
| Barrier.WithdrawalIsCounted | internal/hookobserver/observer.go:385-401 | un-stopping a target or withdrawing the grant strictly raises the generation, and with an action pending asks to cancel it |
| Barrier.EqualGenerationsMeanUntouched | internal/hookobserver/observer.go:420-439 | over any run of hooks, equal generations mean the grant stood untouched at every moment in between |
| Barrier.BarrierHookIsAStep | internal/hookobserver/observer.go:517-534 | in the shared machine a barrier hook is a step that needs no lock and keeps every invariant |
| Barrier.LegacyHookReduces | internal/hookobserver/observer.go:183-368 | the hooks of single-session jobs only take authority away |
| Barrier.AfterStopActivityRevokes | internal/hookobserver/observer.go:191-312 | a single-session grant outlives no further prompt or Stop: before the action it is closed, with the action pending a Cancel is asked for |
| Barrier.ToolStepReducesExactly | internal/hookobserver/observer.go:158-164 | PostToolUse keeps to that exactly if it does not meet an expired countdown: its expiry branch does not ask for an unresolved action |
| TargetHistory.BarrierIsFold | internal/hookobserver/observer.go:370-472 | over any run no hook of which ends the job, each target record is the fold of its own events, the generation counts the changes, and STOP_OBSERVED means all stopped |
| TargetHistory.StepEndsExactly | internal/hookobserver/observer.go:370-486 | a hook ends a bound barrier exactly if the arm has expired, it comes from another directory than the target's own, or it closes a session that has not stopped |
| TargetHistory.InterleavingsAgree | internal/hookobserver/observer.go:370-472 | two interleavings of the same per-target histories give the same targets, generation and state |
| TargetHistory.StoppedExactly | internal/pluginstate/job.go:88-90 | a target is stopped exactly by a plain Stop of its current, uncontinued turn with nothing run since |
| TargetHistory.ObservedExactly | internal/pluginstate/job.go:156-166 | from a fresh barrier, STOP_OBSERVED holds if and only if every target has such a live stop |
| TargetHistory.TargetTellsItsHistory | internal/hookobserver/observer.go:379-455 | current turn, stop turn and tombstone mean what they say of the history |
| TargetHistory.TombstonedTurnStaysUnstopped | internal/hookobserver/observer.go:452-455 | a continued turn is not stoppable as long as no other turn runs |
| TargetHistory.ReturningTurnIsStoppable | internal/hookobserver/observer.go:386-388 | a turn id that returns after another turn has lost its tombstone |
| Evidence.EveryGrantIsBacked | internal/pluginapi/service.go:453-499 | from creation on and whoever writes the job, a granted, intended or scheduled shutdown has completion evidence, an observed finish in the turn that stopped, and a passed verifier unless the profile is `none` |
| Evidence.CreditedVerifierSawNoPrompt | internal/pluginapi/service.go:513-548 | whoever else writes the job, a credited verifier result had no prompt since its finish, and readies the turn current at that finish |
| Evidence.ServiceKeepsBacked | internal/pluginapi/service.go:582-595 | finish, verifier and pause keep evidence coherent |
| Evidence.HooksKeepBacked | internal/hookobserver/observer.go:292-310 | so do the hooks; only a matching Stop of an observed finish grants |
| Evidence.SupervisorKeepsBacked | internal/pluginpower/supervisor.go:214-294 | so do the supervisor's writes, rollback and unknown outcome included |
| Evidence.OthersKeepBacked | internal/cli/cancel_worker.go:50-58 | so do the cancel paths, the arm hook, expiry and whatever else closes a job |
| Evidence.RollbackMeetsAnAction | internal/pluginpower/supervisor.go:858-870 | an unconfirmed rollback, which would take any active job to ACTION_INTENT, is a write the machine lets nobody make unless an action is pending or the job is closed |
| Evidence.ServiceWriteIsAStep | internal/pluginapi/service.go:453-548 | binding, finish, the verifier's result, pause and expiry are steps of the shared machine that need neither lock nor ownership |
| Evidence.DoneRule | internal/pluginapi/service.go:530-548 | no act but a new finish starts a verifier, no act lowers the generation, and under an unchanged generation a running verifier keeps its turn and completion and has seen no prompt |
| Evidence.PromptAtVerifyingIsValid | internal/hookobserver/observer.go:214-222 | a prompt while the verifier runs is a write the store accepts |
| ServiceModule.StartFinish | internal/pluginapi/service.go:453-499 | the first update of finish, field by field |
| ServiceModule.RecordVerifier | internal/pluginapi/service.go:530-548 | the second update of finish: only the verifier of this generation is recorded |
| ServiceModule.PauseJob | internal/pluginapi/service.go:582-595 | pause, field by field |
| ServiceModule.Expire | internal/pluginapi/service.go:824-833 | expires an active job, but never one in intent or scheduled |
| ServiceModule.ClearEvidence | internal/pluginapi/service.go:835-849 | clears evidence and leaves a request to cancel in place |
| EventKeys.BarrierAppliesOnce | internal/pluginstate/store.go:1320-1347 | a barrier applies each event key at most once in its whole life |
| EventKeys.FullBarrierAppliesNothing | internal/pluginstate/store.go:1341-1346 | at capacity a barrier applies nothing any more |
| EventKeys.RememberedIsApplied | internal/pluginstate/store.go:1329-1347 | a barrier's key list is duplicate-free, bounded by 4096 and complete; a single-session list is the last 128 |
| EventKeys.LegacyReappliesLate | internal/pluginstate/store.go:1329-1335 | a single-session job applies a key again only after at least 128 later ones |
| StoreModule.NoSharedTarget | internal/pluginstate/store.go:179-273 | two committed barriers that are active or unresolved never share a target |
| StoreModule.Store.Serve | internal/pluginstate/store.go:179-725 | over any sequence of reservations, first binds, controller binds, updates and hook events, with late lookups and a death between any two writes, every committed barrier that is active or unresolved owns all its targets, and no barrier applies an event key twice |
| StoreModule.StoreWriteIsAStep | internal/pluginstate/store.go:363-506 | binds, late arms and a full key list are steps of the shared power machine that need neither lock nor ownership |
| StoreModule.Store.CreateBarrierReservations | internal/pluginstate/store.go:179-273 | with a death or a failed write at any point, a committed barrier owns every target index, and other jobs' files are untouched |
| StoreModule.Store.InspectTargets | internal/pluginstate/store.go:217-239 | a conflict means some target index names an active or unresolved job and is no leftover of an uncommitted barrier; success means none does, and that every target is free |
| StoreModule.Store.Reserve | internal/pluginstate/store.go:240-273 | the writes of the reservation keep ownership at every point |
| StoreModule.Store.FailReservation | internal/pluginstate/store.go:275-284 | taking a reservation back keeps ownership |
| StoreModule.Store.ReleaseIndexes | internal/pluginstate/store.go:609-616 | removes only this job's reservations, at whatever point it dies |
| StoreModule.Store.RemoveMatchingIndex | internal/pluginstate/store.go:594-607 | removes an index exactly if it names this job and binding |
| StoreModule.Store.Persist | internal/pluginstate/store.go:345-357 | a write followed by its release keeps ownership and other jobs' indexes |
| StoreModule.Store.UpdateJob | internal/pluginstate/store.go:316-361 | applies an event key only if it is new and there is room |
| StoreModule.Store.BindSession | internal/pluginstate/store.go:363-442 | a first bind that rewrites the index keeps ownership if and only if no ORPHANED barrier with an action pending has the session; any rewrite keeps it exactly if no committed barrier owned the session |
| StoreModule.LegacyIndexKeepsExactly | internal/pluginstate/store.go:430-434 | a single-session index in place of a reservation is harmless exactly if nobody owned the session |
| StoreModule.OrphanIsDisplaced | internal/pluginstate/store.go:417-421 | for every granted barrier such an ORPHANED record is one Validate accepts; it owns its targets, is terminal, and loses ownership to any index that gives one of its sessions away |
| StoreModule.OnlyOrphansAreDisplaced | internal/pluginstate/store.go:417-421 | where every owner of a session is terminal, nobody owns it exactly if no ORPHANED barrier with an action pending has it |
| StoreModule.Store.BindBarrierController | internal/pluginstate/store.go:444-506 | opens a pending barrier exactly if its reservations are committed, its workspace absolute and all its indexes still its own |
| StoreModule.Store.LookupObservedSession | internal/pluginstate/store.go:738-762 | captures only an open job and its binding |
| StoreModule.Store.UpdateObservedSession | internal/pluginstate/store.go:632-725 | changes only the captured, open job, each key once, and fails closed at capacity |
| StoreModule.Store.ObserveEvent | internal/pluginstate/store.go:628-661 | an event that had any effect was captured when the job was already open with that very binding |
| StoreModule.BarrierHookKeepsReservation | internal/hookobserver/observer.go:370-515 | the barrier hooks keep identity, targets, reservations and event keys, and so are mutations of the kind every run is made of |
| PowerHelper.OncePerAcceptance | internal/powerdaemon/server_linux.go:467-525 | between two poweroffs there is a new persisted acceptance |
| PowerHelper.ReleasedNeverFires | internal/powerdaemon/server_linux.go:242-273 | after a confirmed cancel, a release, or a cancel answered with nothing in progress, nothing fires without a new acceptance |
| PowerHelper.FiresInTime | internal/powerdaemon/server_linux.go:493-511 | poweroff comes 30 seconds at the earliest and an hour and five minutes at the latest after scheduling, within the lateness bound, for a persisted acceptance |
| PowerHelper.IntentReceiptCancelsLikeSealed | internal/powerdaemon/server_linux.go:242-273 | the client's intent receipt cancels with exactly the effect and response of the sealed one |
| PowerHelper.Helper.Preflight | internal/powerdaemon/server_linux.go:168-187 | ready exactly if the request is valid, the host fits and the slot is readable and empty |
| PowerHelper.Helper.Schedule | internal/powerdaemon/server_linux.go:189-240 | a held slot means nothing happens at all; a receipt is returned only for a persisted acceptance, and a timer whose acceptance could not be saved is asked to stop |
| PowerHelper.Helper.Cancel | internal/powerdaemon/server_linux.go:242-273 | is its declared outcome for every answer; confirmed and nothing-in-progress mean the slot is empty |
| PowerHelper.Helper.Reconcile | internal/powerdaemon/server_linux.go:292-326 | releases the slot only if both units are confirmed inactive, and starts nothing |
| PowerHelper.Helper.Fire | internal/powerdaemon/server_linux.go:467-525 | powers off only for a scheduled record of that job, this boot, in its window, and leaves the phase behind first |
| PowerHelper.Helper.Serve | internal/powerdaemon/server_linux.go:143-166 | any sequence of requests and callbacks with any answers keeps the history orderly |
| PowerHelper.UnitsInactive | internal/powerdaemon/server_linux.go:275-290 | confirmed exactly if every unit answered with a stopped state |
| ClassicCoordinator.Coordinator.Run | internal/supervisor/coordinator.go:106-401 | for all answers: legal history, honest outcome; Schedule is called only after agent, completion and verifier succeeded and never in a dry run, and zero means a dry run completed or a valid countdown is on disk and uncancelled |
| ClassicCoordinator.Coordinator.RunAgent | internal/supervisor/coordinator.go:106-161 | up to EVALUATING no backend is called and every early end rules a shutdown out |
| ClassicCoordinator.Coordinator.Evaluate | internal/supervisor/coordinator.go:162-224 | the same for completion and verifier |
| ClassicCoordinator.Coordinator.RecordIntent | internal/supervisor/coordinator.go:233-281 | goes on only with the intent and its receipt on disk |
| ClassicCoordinator.Coordinator.Act | internal/supervisor/coordinator.go:233-401 | everything from the action boundary on is legal and honest |
| ClassicCoordinator.Coordinator.OutcomeUnknown | internal/supervisor/coordinator.go:284-320 | an unknown schedule outcome is reported as possible unless a Cancel was confirmed |
| ClassicCoordinator.Coordinator.ReceiptInvalid | internal/supervisor/coordinator.go:321-346 | an invalid receipt is rolled back with the intent's handle, or reported as possible |
| ClassicCoordinator.Coordinator.ScheduledUnsaved | internal/supervisor/coordinator.go:353-365 | a countdown that could not be recorded is rolled back, or reported as possible |
| ClassicCoordinator.Coordinator.Recheck | internal/supervisor/coordinator.go:366-400 | the last look at the request |
| ClassicCoordinator.Coordinator.Move | internal/supervisor/coordinator.go:418-433 | the transition is always one the machine allows, from the state in hand and the state on disk |
| ClassicCoordinator.Coordinator.CheckCancelled | internal/supervisor/coordinator.go:403-416 | a request or an unreadable answer ends the run |
| ClassicCoordinator.ScheduleOnceAfterIntent | internal/supervisor/coordinator.go:284-284 | Schedule is called at most once, with the intent and its receipt on disk |
| ClassicCoordinator.DiskWalks | internal/supervisor/machine.go:5-59 | the states on disk are a walk of allowedTransitions from ARMED, even under arbitrary Save failures |
| ClassicCoordinator.ScheduledNeedsIntent | internal/supervisor/machine.go:5-50 | no walk reaches a countdown without an intent |
| ClassicCoordinator.TerminalIsFinal | internal/supervisor/machine.go:5-50 | a terminal state is left only to confirm an execution |
| HookPolicy.EvaluateHooks | internal/hostauthority/policy.go:21-92 | compatible exactly if the host is clean; the reasons are sorted and each is given as often as it applies; the fingerprint is the contents |
| HookPolicy.CompatibleExactly | internal/hostauthority/policy.go:21-92 | no reason is given if and only if every expected hook is there once with hash and trust and nothing else can interfere |
| HookPolicy.OrderDoesNotMatter | internal/hostauthority/policy.go:21-92 | permuting the hooks changes neither the decision, nor the sorted reasons, nor the fingerprint |
| HookPolicy.ReviewHooks | internal/hostauthority/policy.go:34-69 | the loop over the inventory counts keys and collects reasons |
| HookPolicy.ReviewKeys | internal/hostauthority/policy.go:77-85 | the loop over the expected keys, in any map order |
| HookPolicy.CountOneIsExactlyOnce | internal/hostauthority/policy.go:54-54 | a key counts one exactly if exactly one enabled DoneThen hook carries it |
| HookPolicy.AcceptableGivesNoReason | internal/hostauthority/policy.go:35-69 | a hook is acceptable exactly if it gives no reason |
| HookPolicy.SortedUnique | internal/hostauthority/policy.go:86-86 | there is one way to sort the reasons |
| HookPolicy.Sort | internal/hostauthority/policy.go:86-86 | sorts and keeps every reason as often as it was given |

## Left out

- The fast paths of the command line's and the service's cancel (internal/cli/cancel.go:280-296, internal/pluginapi/service.go:669-684) decide from an earlier, unlocked load; a job that becomes unresolved in between is closed without evidence. Only the unresolved branch of the command line is modelled, and the service's cancel is not.
- Barrier.EveryHookIsAccepted, and with it every theorem over the runs of the shared machine, is about runs without the unlocked cancels above and without PostToolUse's expiry branch.
- PostToolUse's expiry branch is modelled as a function, but it is not a step of the shared machine, for the reason `ToolStepReducesExactly` gives.
- StoreModule.Store.CreateBarrierReservations: a log append that fails and is followed by a failing write of the job (internal/pluginstate/store.go:263-271, 1047-1062) lets the store go on best-effort and release reservations of a job still open on disk. Deaths take its place here; the same holds of the observed updates.
- StoreModule.Store.Serve: replays of an arm hook at a job already bound, which rewrite the session index whoever has it (internal/pluginstate/store.go:385-391, 433-437); BindSession's contract says when that is harmless.
- PowerMachineModule.PowerMachine.PersistRecoveryEnvelope, and the other create-once writes: the moment in which a record that cannot be flushed is visible before its writer removes it again (internal/pluginstate/recovery.go:418-423). A record that is not kept counts as never written.
- CancelPathsModule.CancelActor.CancelWorker: completing the pending revocation markers after the settlement, which can only turn an exit code of zero into an error.
- PowerWorld.OneUnresolvedJobPerMachine: the other jobs of the machine are known by their ids only; `WriteIsOtherJobsStep` shows that the rule assumed of them is the rule each of them keeps.
- Revocation markers and the launch of the cancel worker; a pending marker is an arbitrary answer of the gates.
- SupervisorModule.Supervisor.Run: the wait for the supervisor's process id to be recorded, and the configuration checks of the constructor.
- PowerMachineModule.PowerMachine.BarrierAuthority: whether the session indexes match and whether revocations are pending are arbitrary answers; the indexes themselves are the subject of `store`.
- StoreModule.Store.BindSession: the source loads only records Validate accepts; the model asks this only where it needs it.
- Reconciliation of plugin jobs, legacy records and schema migration, status rendering, `List`, `RefreshExpiry`.
- PowerHelper.Helper.Schedule: the arguments given to systemd-run are not modelled, only that a timer was asked for and whether it was accepted.
- Windows and macOS backends, sockets, peer credentials, file ownership and permissions, JSON decoding, regular expressions, path cleaning, process launching.
- The MCP server, the App Server client, the doctor, and the arm operation of the service.
- Wall-clock waiting: poll intervals and the quiescence delay only let the others run.
