/**
 The plugin job record: states, trigger policies, stop targets and Validate
 (internal/pluginstate/job.go).

 An identity hash is opaque and injective. An absolute path is represented by its
 cleaned form, so two paths name one workspace exactly when they are equal.
 */
module PluginJob {
  import opened Wrappers
  import opened Actions

  const CURRENT_SCHEMA := "4"
  const MINIMUM_STOP_TARGETS: nat := 2
  const MAXIMUM_STOP_TARGETS: nat := 16
  const MAXIMUM_BARRIER_EVENT_KEYS: nat := 4096
  const MAXIMUM_LEGACY_EVENT_KEYS: nat := 128

  datatype TriggerPolicy = AfterStop | AfterAllStop | VerifiedSuccess

  datatype State =
    | ArmPendingBind | Armed | Waiting | Verifying | ReadyPendingStop | StopObserved
    | HostMonitoring | ActionIntent | ActionScheduled | DryRunComplete | HookConflict
    | HookUnavailable | NotDone | VerificationFailed | Expired | Cancelled | Orphaned
    | HostUnavailable | InventoryPartial | ConcurrentConflict | PlatformUnsupported
    | PrivilegeUnavailable | ActionFailed | ActionExecutionUnverified | ActionExecutedConfirmed
  {
    predicate IsTerminal() {
      match this
      case ArmPendingBind | Armed | Waiting | Verifying | ReadyPendingStop | StopObserved
         | HostMonitoring | ActionIntent | ActionScheduled => false
      case _ => true
    }

    predicate IsActive() {
      !IsTerminal()
    }

    /** Intent recorded or countdown scheduled: the pair a job may only leave with inert evidence. */
    predicate IsPower() {
      this == ActionIntent || this == ActionScheduled
    }

    predicate IsReconciled() {
      this == ActionExecutionUnverified || this == ActionExecutedConfirmed
    }
  }

  datatype Hash = NoHash | Sha256(text: string) | MalformedHash(text: string)

  predicate ValidIdentityHash(hash: Hash) {
    hash.Sha256?
  }

  datatype Path = NoPath | Absolute(clean: string) | Relative(text: string)

  predicate WorkspaceMatches(expected: Path, observed: Path) {
    || expected == NoPath
    || (expected.Absolute? && observed.Absolute? && expected == observed)
  }

  datatype Target = Target(
    sessionHash: Hash,
    workspace: Path,
    currentTurn: Hash,
    stopTurn: Hash,
    continuationTurn: Hash,
    firstSeenAt: Option<nat>,
    stopObservedAt: Option<nat>)
  {
    predicate Stopped() {
      currentTurn != NoHash && stopTurn == currentTurn && continuationTurn == NoHash
    }
  }

  /** What arm fixes for the whole life of a job. */
  datatype Terms = Terms(
    schemaVersion: string,
    jobID: string,
    nonceHash: Hash,
    dryRun: bool,
    action: string,
    policy: TriggerPolicy,
    stopWithoutSuccessAck: bool,
    delaySeconds: int,
    createdAt: nat,
    expiresAt: nat,
    verifierProfile: string,
    allowAgentOnlySuccess: bool,
    powerPolicyFingerprint: string,
    verifierFingerprint: string,
    targetBindingID: string,
    barrierAcrossTurnsAck: bool)

  datatype Job = Job(
    terms: Terms,
    state: State,
    reasonCode: string,
    updatedAt: nat,
    sessionID: string,
    armTurnID: string,
    currentTurnID: string,
    readyTurnID: string,
    stopTurnID: string,
    generation: nat,
    completionStatus: string,
    completionEvidenceHash: string,
    hookCompatibility: string,
    armObserved: bool,
    finishObserved: bool,
    eventKeys: seq<Hash>,
    workspace: Path,
    verifierPassed: bool,
    hookFingerprintH1: string,
    hookFingerprintH2: string,
    hookFingerprintH3: string,
    hostInstanceID: string,
    actionIntentAt: Option<nat>,
    scheduledFor: Option<nat>,
    powerCapabilities: Option<Capabilities>,
    powerReceipt: Option<Receipt>,
    cancelRequested: bool,
    cancelReason: string,
    controllerSession: Hash,
    controllerArmTurn: Hash,
    stopTargets: seq<Target>,
    reservationsCommitted: bool,
    indexesReady: bool)
  {
    predicate BarrierSatisfied() {
      && MINIMUM_STOP_TARGETS <= |stopTargets| <= MAXIMUM_STOP_TARGETS
      && forall i :: 0 <= i < |stopTargets| ==> stopTargets[i].Stopped()
    }

    predicate ExpiredAt(now: nat) {
      terms.expiresAt != ZERO_TIME && terms.expiresAt <= now
    }

    predicate Unresolved() {
      && !terms.dryRun
      && (state.IsPower() || (state == Orphaned && actionIntentAt.Some? && powerCapabilities.Some?))
    }
  }

  /** Every stop target has run a turn that a hook reported. */
  predicate AllObserved(job: Job) {
    forall i :: 0 <= i < |job.stopTargets| ==> job.stopTargets[i].currentTurn != NoHash
  }

  /** No intent was ever recorded in the job. */
  predicate NothingIntended(job: Job) {
    job.actionIntentAt.None? && job.powerCapabilities.None? && job.powerReceipt.None? && job.scheduledFor.None?
  }

  predicate ObservableStop(policy: TriggerPolicy) {
    policy == AfterStop || policy == AfterAllStop
  }

  /** The receipt-bound handle every cancellation path falls back to. */
  function RecoveryReceipt(job: Job): Option<Receipt> {
    if job.powerReceipt.Some? then
      if ValidReceipt(job.powerReceipt.value) then job.powerReceipt else None
    else if job.powerCapabilities.None? then None
    else
      var requestedAt := if job.actionIntentAt.Some? then job.actionIntentAt.value else job.terms.createdAt;
      BuildIntentReceipt(job.terms.jobID, job.terms.action, requestedAt,
                         job.terms.delaySeconds * SECOND, job.powerCapabilities.value)
  }

  predicate ValidTarget(target: Target) {
    && ValidIdentityHash(target.sessionHash)
    && !target.workspace.Relative?
    && !target.currentTurn.MalformedHash? && !target.stopTurn.MalformedHash?
    && !target.continuationTurn.MalformedHash?
    && target.firstSeenAt != Some(ZERO_TIME)
    && target.stopObservedAt != Some(ZERO_TIME)
    && if target.currentTurn == NoHash then
         && target.workspace == NoPath && target.firstSeenAt.None? && target.stopTurn == NoHash
         && target.continuationTurn == NoHash && target.stopObservedAt.None?
       else
         && target.workspace != NoPath && target.firstSeenAt.Some?
         && (target.stopTurn != NoHash ==> target.stopTurn == target.currentTurn)
         && (target.continuationTurn != NoHash ==> target.continuationTurn == target.currentTurn)
         && !(target.stopTurn != NoHash && target.continuationTurn != NoHash)
         && (target.stopObservedAt.Some? <==> target.Stopped())
  }

  predicate ValidStopBarrier(job: Job) {
    && job.sessionID == "" && job.armTurnID == "" && job.currentTurnID == "" && job.stopTurnID == ""
    && MINIMUM_STOP_TARGETS <= |job.stopTargets| <= MAXIMUM_STOP_TARGETS
    && ValidJobID(job.terms.targetBindingID)
    && (job.indexesReady ==> job.reservationsCommitted)
    && (forall i :: 0 <= i < |job.stopTargets| ==> ValidTarget(job.stopTargets[i]))
    && (forall i, k :: 0 <= i < k < |job.stopTargets| ==>
          job.stopTargets[i].sessionHash != job.stopTargets[k].sessionHash)
    && !job.controllerSession.MalformedHash? && !job.controllerArmTurn.MalformedHash?
    && (job.controllerSession == NoHash <==> job.controllerArmTurn == NoHash)
    && if job.state == ArmPendingBind then
         job.controllerSession == NoHash && job.controllerArmTurn == NoHash && !job.armObserved && !job.indexesReady
       else job.state.IsActive() ==>
         && job.controllerSession != NoHash && job.controllerArmTurn != NoHash && job.armObserved
         && job.reservationsCommitted && job.indexesReady
  }

  predicate ValidTerms(terms: Terms) {
    && terms.schemaVersion == CURRENT_SCHEMA
    && ValidJobID(terms.jobID)
    && ValidIdentityHash(terms.nonceHash)
    && terms.action == SHUTDOWN
    && 30 <= terms.delaySeconds <= 3600
    && terms.createdAt != ZERO_TIME && terms.expiresAt != ZERO_TIME
    && terms.createdAt < terms.expiresAt
    && terms.verifierProfile != ""
    && (!terms.dryRun ==>
          if ObservableStop(terms.policy) then
            terms.stopWithoutSuccessAck && (terms.policy == AfterAllStop ==> terms.barrierAcrossTurnsAck)
          else
            && !(terms.verifierProfile == "none" && !terms.allowAgentOnlySuccess)
            && terms.powerPolicyFingerprint != "")
    && (if ObservableStop(terms.policy) then
          terms.verifierProfile == "none" && !terms.allowAgentOnlySuccess && terms.powerPolicyFingerprint == ""
        else !terms.stopWithoutSuccessAck)
  }

  predicate ValidBinding(job: Job) {
    if job.terms.policy == AfterAllStop then ValidStopBarrier(job)
    else
      && !job.terms.barrierAcrossTurnsAck && job.controllerSession == NoHash && job.controllerArmTurn == NoHash
      && |job.stopTargets| == 0 && !job.reservationsCommitted && !job.indexesReady && job.terms.targetBindingID == ""
      && if job.state == ArmPendingBind then
           job.sessionID == "" && job.armTurnID == "" && !job.armObserved
         else job.state.IsActive() ==>
           job.sessionID != "" && job.armTurnID != "" && job.armObserved
  }

  predicate ValidProgress(job: Job) {
    && (job.terms.policy == VerifiedSuccess && (job.state == ReadyPendingStop || job.state == StopObserved) ==>
          job.readyTurnID != "" && job.completionEvidenceHash != "")
    && (job.state == StopObserved ==>
          if job.terms.policy == AfterAllStop then job.BarrierSatisfied() else job.stopTurnID != "")
    && (job.state == DryRunComplete && job.terms.policy == AfterAllStop ==> job.BarrierSatisfied())
    && !(job.verifierPassed && job.terms.verifierProfile != "none" && job.terms.verifierFingerprint == "")
  }

  predicate ValidPowerFields(job: Job) {
    && (job.state == ActionIntent ==> job.actionIntentAt.Some? && job.powerCapabilities.Some?)
    && (job.powerReceipt.Some? ==>
          && ValidReceipt(job.powerReceipt.value)
          && job.powerReceipt.value.body.jobID == job.terms.jobID
          && job.powerReceipt.value.body.action == job.terms.action)
    && !(job.cancelRequested && Blank(job.cancelReason))
    && (job.state == ActionScheduled || job.state.IsReconciled() ==>
          job.actionIntentAt.Some? && job.scheduledFor.Some? && job.powerReceipt.Some?)
  }

  function EventKeyLimit(policy: TriggerPolicy): nat {
    if policy == AfterAllStop then MAXIMUM_BARRIER_EVENT_KEYS else MAXIMUM_LEGACY_EVENT_KEYS
  }

  predicate ValidEventKeys(job: Job) {
    && |job.eventKeys| <= EventKeyLimit(job.terms.policy)
    && forall i :: 0 <= i < |job.eventKeys| ==> ValidIdentityHash(job.eventKeys[i])
  }

  /** Validate accepts the record: every write to the store goes through this gate. */
  predicate Valid(job: Job) {
    && ValidTerms(job.terms)
    && job.updatedAt != ZERO_TIME
    && job.generation != 0
    && job.hookCompatibility != ""
    && (!job.terms.dryRun ==> job.workspace.Absolute?)
    && ValidBinding(job)
    && ValidProgress(job)
    && ValidPowerFields(job)
    && ValidEventKeys(job)
  }

  /** The immutable identity an observed event is tied to. */
  function ObservedBindingID(job: Job): string {
    if job.terms.policy == AfterAllStop then job.terms.targetBindingID else job.terms.jobID
  }
}
