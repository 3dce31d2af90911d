/**
 The hook mutators as the program runs them: field by field on a job record and on the stop target the
 store points them at (internal/hookobserver/observer.go). Each is proved to be its HookSteps function.
 */
module HookObserver {
  import opened Wrappers
  import opened Actions
  import opened PluginJob
  import opened HookSteps

  class StopTarget {
    const sessionHash: Hash
    var workspace: Path
    var currentTurn: Hash
    var stopTurn: Hash
    var continuationTurn: Hash
    var firstSeenAt: Option<nat>
    var stopObservedAt: Option<nat>

    constructor (target: Target)
      ensures View() == target
    {
      sessionHash, workspace := target.sessionHash, target.workspace;
      currentTurn, stopTurn, continuationTurn := target.currentTurn, target.stopTurn, target.continuationTurn;
      firstSeenAt, stopObservedAt := target.firstSeenAt, target.stopObservedAt;
    }

    function View(): Target
      reads this
    {
      Target(sessionHash, workspace, currentTurn, stopTurn, continuationTurn, firstSeenAt, stopObservedAt)
    }

    predicate Stopped()
      reads this
    {
      currentTurn != NoHash && stopTurn == currentTurn && continuationTurn == NoHash
    }
  }

  class JobRecord {
    const fixed: Job              // the fields no hook writes
    const targets: seq<StopTarget>
    var state: State
    var reasonCode: string
    var currentTurnID: string
    var readyTurnID: string
    var stopTurnID: string
    var generation: nat
    var completionStatus: string
    var completionEvidenceHash: string
    var hookCompatibility: string
    var finishObserved: bool
    var verifierPassed: bool
    var hookFingerprintH1: string
    var hookFingerprintH2: string
    var hookFingerprintH3: string
    var hostInstanceID: string
    var cancelRequested: bool
    var cancelReason: string

    constructor (job: Job, targets: seq<StopTarget>)
      requires |targets| == |job.stopTargets|
      requires forall i :: 0 <= i < |targets| ==> targets[i].View() == job.stopTargets[i]
      requires forall i, k :: 0 <= i < k < |targets| ==> targets[i] != targets[k]
      ensures Valid() && View() == job && this.targets == targets
    {
      fixed, this.targets := job, targets;
      state, reasonCode, generation := job.state, job.reasonCode, job.generation;
      currentTurnID, readyTurnID, stopTurnID := job.currentTurnID, job.readyTurnID, job.stopTurnID;
      completionStatus, completionEvidenceHash := job.completionStatus, job.completionEvidenceHash;
      hookCompatibility, finishObserved := job.hookCompatibility, job.finishObserved;
      verifierPassed := job.verifierPassed;
      hookFingerprintH1, hookFingerprintH2 := job.hookFingerprintH1, job.hookFingerprintH2;
      hookFingerprintH3, hostInstanceID := job.hookFingerprintH3, job.hostInstanceID;
      cancelRequested, cancelReason := job.cancelRequested, job.cancelReason;
      new;
      assert TargetViews() == job.stopTargets;
    }

    ghost predicate Valid() {
      forall i, k :: 0 <= i < k < |targets| ==> targets[i] != targets[k]
    }

    ghost function TargetViews(): seq<Target>
      reads targets
    {
      seq(|targets|, i requires 0 <= i < |targets| reads targets => targets[i].View())
    }

    /** The record without its targets, as a job value. */
    ghost function Own(): Job
      reads this
    {
      Job(fixed.terms, state, reasonCode, fixed.updatedAt, fixed.sessionID, fixed.armTurnID, currentTurnID, readyTurnID,
          stopTurnID, generation, completionStatus, completionEvidenceHash, hookCompatibility, fixed.armObserved,
          finishObserved, fixed.eventKeys, fixed.workspace, verifierPassed, hookFingerprintH1, hookFingerprintH2,
          hookFingerprintH3, hostInstanceID, fixed.actionIntentAt, fixed.scheduledFor, fixed.powerCapabilities,
          fixed.powerReceipt, cancelRequested, cancelReason, fixed.controllerSession, fixed.controllerArmTurn,
          [], fixed.reservationsCommitted, fixed.indexesReady)
    }

    /** The record as a job value. */
    ghost function View(): Job
      reads this, targets
    {
      Own().(stopTargets := TargetViews())
    }

    /** The view has the record's own fields. */
    lemma Fields()
      ensures View().state == state && View().generation == generation && View().terms == fixed.terms
      ensures View().Unresolved() == Unresolved()
      ensures View().currentTurnID == currentTurnID && View().readyTurnID == readyTurnID
      ensures View().stopTurnID == stopTurnID
      ensures View().finishObserved == finishObserved && View().cancelRequested == cancelRequested
      ensures View().sessionID == fixed.sessionID && View().workspace == fixed.workspace
      ensures View().controllerSession == fixed.controllerSession
      ensures View().indexesReady == fixed.indexesReady && View().armObserved == fixed.armObserved
      ensures |View().stopTargets| == |targets|
      ensures forall i :: 0 <= i < |targets| ==> View().stopTargets[i] == targets[i].View()
    {
    }

    predicate Unresolved()
      reads this
    {
      && !fixed.terms.dryRun
      && (state.IsPower() || (state == Orphaned && fixed.actionIntentAt.Some? && fixed.powerCapabilities.Some?))
    }

    predicate IsSettled()
      reads this
    {
      state.IsTerminal() && !Unresolved()
    }

    predicate ExpiredAt(now: nat) {
      fixed.terms.expiresAt != ZERO_TIME && fixed.terms.expiresAt <= now
    }

    predicate BarrierSatisfied()
      reads this, targets
    {
      && MINIMUM_STOP_TARGETS <= |targets| <= MAXIMUM_STOP_TARGETS
      && forall i :: 0 <= i < |targets| ==> targets[i].Stopped()
    }
  }

  // ---------------------------------------------------------------- shared steps

  method RequestPowerCancellation(job: JobRecord, reason: string) returns (requested: bool)
    modifies job
    ensures requested == old(job.View()).Unresolved()
    ensures job.View() == if requested then Requested(old(job.View()), reason) else old(job.View())
  {
    if !job.Unresolved() { return false; }
    job.generation := job.generation + 1;
    job.cancelRequested := true;
    job.cancelReason := reason;
    job.reasonCode := reason;
    return true;
  }

  method Count(job: JobRecord)
    modifies job
    ensures job.View() == old(job.View()).(generation := old(job.View()).generation + 1)
  {
    job.generation := job.generation + 1;
  }

  method MoveTo(job: JobRecord, state: State, reason: string)
    modifies job
    ensures job.View() == old(job.View()).(state := state, reasonCode := reason)
  {
    job.state := state;
    job.reasonCode := reason;
  }

  method ObserveFinish(job: JobRecord)
    modifies job
    ensures job.View() == old(job.View()).(finishObserved := true, reasonCode := "finish_hook_observed")
  {
    job.finishObserved := true;
    job.reasonCode := "finish_hook_observed";
  }

  method SetCurrentTurn(job: JobRecord, turnID: string)
    modifies job
    ensures job.View() == old(job.View()).(currentTurnID := turnID)
  {
    job.currentTurnID := turnID;
  }

  method SetStopTurn(job: JobRecord, turnID: string)
    modifies job
    ensures job.View() == old(job.View()).(stopTurnID := turnID)
  {
    job.stopTurnID := turnID;
  }

  method End(job: JobRecord, state: State, reason: string)
    modifies job
    ensures job.View() == Ended(old(job.View()), state, reason)
  {
    job.generation := job.generation + 1;
    job.state := state;
    job.reasonCode := reason;
  }

  method ClearHostEvidence(job: JobRecord)
    modifies job
    ensures job.View() ==
      old(job.View()).(hookFingerprintH1 := "", hookFingerprintH2 := "", hookFingerprintH3 := "",
                       hookCompatibility := "not_evaluated", hostInstanceID := "")
  {
    job.hookFingerprintH1, job.hookFingerprintH2, job.hookFingerprintH3 := "", "", "";
    job.hookCompatibility, job.hostInstanceID := "not_evaluated", "";
  }

  method ClearFinish(job: JobRecord)
    modifies job
    ensures job.View() ==
      old(job.View()).(completionStatus := "", completionEvidenceHash := "", readyTurnID := "", stopTurnID := "",
                       finishObserved := false)
  {
    job.completionStatus, job.completionEvidenceHash, job.readyTurnID, job.stopTurnID := "", "", "", "";
    job.finishObserved := false;
  }

  method ClearCompletion(job: JobRecord)
    modifies job
    ensures job.View() == CompletionCleared(old(job.View()))
  {
    ClearFinish(job);
    ClearHostEvidence(job);
    job.verifierPassed := false;
    job.cancelRequested, job.cancelReason := false, "";
  }

  method FailOrCancelBarrier(job: JobRecord, reason: string)
    modifies job
    ensures job.View() == FailedOrCancelled(old(job.View()), reason)
  {
    hide JobRecord.Own;
    job.Fields();
    var requested := RequestPowerCancellation(job, reason);
    if !requested { End(job, HookUnavailable, reason); }
  }

  method ArmBarrierAfterTargetChange(job: JobRecord, reason: string)
    modifies job
    ensures job.View() == RearmedFor(old(job.View()), reason)
  {
    if job.state != ArmPendingBind { job.state := Armed; }
    job.reasonCode := reason;
  }

  method PinBarrierWorkspace(target: StopTarget, cwd: Path, now: nat) returns (ok: bool)
    modifies target
    ensures ok == Pinned(old(target.View()), cwd, now).Some?
    ensures target.View() == if ok then Pinned(old(target.View()), cwd, now).value else old(target.View())
  {
    if !cwd.Absolute? { return false; }
    if target.workspace == NoPath {
      target.workspace := cwd;
      target.firstSeenAt := Some(now);
      return true;
    }
    return WorkspaceMatches(target.workspace, cwd);
  }

  /** One target written: the rest of the record is where it was. */
  lemma OneTargetWritten(job: JobRecord, was: Job, k: nat)
    requires k < |job.targets| == |was.stopTargets|
    requires job.Own() == was.(stopTargets := [])
    requires forall i :: 0 <= i < |job.targets| && i != k ==> job.targets[i].View() == was.stopTargets[i]
    ensures job.View() == WithTarget(was, k, job.targets[k].View())
  {
    hide JobRecord.Own;
    assert job.TargetViews() == was.stopTargets[k := job.targets[k].View()];
  }

  lemma SameTargets(job: JobRecord, was: Job, k: nat)
    requires k < |job.targets| == |was.stopTargets|
    requires job.Own() == was.(stopTargets := [])
    requires forall i :: 0 <= i < |job.targets| ==> job.targets[i].View() == was.stopTargets[i]
    ensures job.View() == was
  {
    hide JobRecord.Own;
    assert job.TargetViews() == was.stopTargets;
  }

  lemma OwnOfView(job: JobRecord)
    ensures job.Own() == job.View().(stopTargets := [])
  {
  }

  // ---------------------------------------------------------------- one target

  method ResumeTarget(target: StopTarget, turn: Hash) returns (changed: bool)
    modifies target
    ensures target.View() == PromptTarget(old(target.View()), turn)
    ensures changed == PromptChanges(old(target.View()), turn)
  {
    changed := target.currentTurn != turn || target.stopTurn != NoHash || target.stopObservedAt.Some?;
    if target.currentTurn != turn { target.continuationTurn := NoHash; }
    target.currentTurn := turn;
    target.stopTurn := NoHash;
    target.stopObservedAt := None;
  }

  method ContinueStoppedTarget(target: StopTarget, turn: Hash) returns (changed: bool)
    modifies target
    ensures target.View() == ContinueTarget(old(target.View()), turn)
    ensures changed == ContinueChanges(old(target.View()), turn)
  {
    changed := target.currentTurn != turn || target.stopTurn != NoHash || target.stopObservedAt.Some?
               || target.continuationTurn != turn;
    if target.currentTurn != turn {
      target.currentTurn := turn;
      target.continuationTurn := NoHash;
    }
    target.stopTurn := NoHash;
    target.stopObservedAt := None;
    target.continuationTurn := turn;
  }

  /** A plain Stop of `turn`: accepted, or at most the first sight of the target. */
  method StopTargetOnce(target: StopTarget, turn: Hash, now: nat) returns (accepted: bool)
    modifies target
    ensures accepted == StopAccepted(old(target.View()), turn)
    ensures target.View() ==
      var was := old(target.View());
      if was.currentTurn != NoHash && was.currentTurn != turn then was
      else if accepted then StoppedTarget(was, turn, now)
      else was.(currentTurn := turn)
  {
    if target.currentTurn == NoHash {
      target.currentTurn := turn;
    } else if target.currentTurn != turn {
      return false;
    }
    if target.continuationTurn == target.currentTurn || target.Stopped() { return false; }
    target.stopTurn := target.currentTurn;
    target.stopObservedAt := Some(now);
    return true;
  }

  // ---------------------------------------------------------------- barrier hooks

  /** The common end of a prompt and of a continuation, after the target itself was rewritten. */
  method ResumeBarrier(job: JobRecord, changed: bool)
    modifies job
    ensures job.View() == ResumedBy(old(job.View()), changed)
  {
    hide JobRecord.Own;
    hide JobRecord.View;
    hide JobRecord.TargetViews;
    hide Requested;
    job.Fields();
    if job.Unresolved() {
      if changed || !job.cancelRequested {
        var requested := RequestPowerCancellation(job, RESUMED);
      }
      return;
    }
    if changed { Count(job); }
    ArmBarrierAfterTargetChange(job, RESUMED);
  }

  method ApplyBarrierPrompt(job: JobRecord, k: nat, input: HookInput, now: nat)
    requires job.Valid() && k < |job.targets|
    modifies job, job.targets[k]
    ensures job.View() == BarrierPrompt(old(job.View()), k, input, now)
  {
    hide JobRecord.Own;
    hide JobRecord.View;
    job.Fields();
    OwnOfView(job);
    var target := job.targets[k];
    ghost var was := job.View();
    if job.IsSettled() { return; }
    if job.ExpiredAt(now) && !job.Unresolved() { End(job, Expired, "arm_expired"); return; }
    var pinned := PinBarrierWorkspace(target, input.cwd, now);
    if !pinned {
      SameTargets(job, was, k);
      FailOrCancelBarrier(job, "target_workspace_changed");
      return;
    }
    var changed := ResumeTarget(target, input.Turn());
    OneTargetWritten(job, was, k);
    ResumeBarrier(job, changed);
  }

  method ApplyBarrierStop(job: JobRecord, k: nat, input: HookInput, now: nat)
    requires job.Valid() && k < |job.targets|
    modifies job, job.targets[k]
    ensures job.View() == BarrierStop(old(job.View()), k, input, now)
  {
    hide JobRecord.Own;
    hide JobRecord.View;
    job.Fields();
    OwnOfView(job);
    var target := job.targets[k];
    ghost var was := job.View();
    if job.IsSettled() { return; }
    if job.ExpiredAt(now) && !job.Unresolved() { End(job, Expired, "arm_expired"); return; }
    var pinned := PinBarrierWorkspace(target, input.cwd, now);
    if !pinned {
      SameTargets(job, was, k);
      FailOrCancelBarrier(job, "target_workspace_changed");
      return;
    }
    if input.stopHookActive {
      var changed := ContinueStoppedTarget(target, input.Turn());
      OneTargetWritten(job, was, k);
      ResumeBarrier(job, changed);
      return;
    }
    if job.Unresolved() { OneTargetWritten(job, was, k); return; }
    var accepted := StopTargetOnce(target, input.Turn(), now);
    OneTargetWritten(job, was, k);
    if accepted { CloseBarrier(job); }
  }

  /** The part of applyBarrierStop after a target was marked stopped. */
  method CloseBarrier(job: JobRecord)
    modifies job
    ensures job.View() == BarrierMoved(old(job.View()))
  {
    hide JobRecord.Own;
    hide JobRecord.View;
    hide JobRecord.TargetViews;
    job.Fields();
    assert job.BarrierSatisfied() == job.View().BarrierSatisfied();
    if job.fixed.indexesReady && job.fixed.armObserved && job.BarrierSatisfied() {
      if job.fixed.terms.dryRun {
        End(job, DryRunComplete, "after_all_stop_observed_no_action");
      } else {
        End(job, StopObserved, "after_all_stop_observed_awaiting_countdown");
      }
    } else if job.state != ArmPendingBind {
      End(job, Armed, "after_all_stop_barrier_partial");
    } else {
      End(job, ArmPendingBind, "awaiting_post_tool_hook");
    }
  }

  method ApplyBarrierSessionEnd(job: JobRecord, k: nat)
    requires job.Valid() && k < |job.targets|
    modifies job
    ensures job.View() == BarrierSessionEnd(old(job.View()), k)
  {
    hide JobRecord.Own;
    job.Fields();
    if job.IsSettled() || job.targets[k].Stopped() { return; }
    var requested := RequestPowerCancellation(job, "target_session_ended_before_stop");
    if !requested { End(job, Expired, "target_session_ended_before_stop"); }
  }

  // ---------------------------------------------------------------- single-session hooks

  method CancelGrant(job: JobRecord, reason: string)
    modifies job
    ensures job.View() == GrantCancelled(old(job.View()), reason)
  {
    End(job, Cancelled, reason);
    job.cancelRequested, job.cancelReason := true, reason;
  }

  method PromptLegacy(job: JobRecord, input: HookInput, now: nat)
    modifies job
    ensures job.View() == LegacyPrompt(old(job.View()), input, now)
  {
    hide JobRecord.Own;
    job.Fields();
    if job.state.IsTerminal() { return; }
    var requested := RequestPowerCancellation(job, "new_prompt_requested_power_cancel");
    if requested { return; }
    if job.ExpiredAt(now) { End(job, Expired, "arm_expired"); ClearCompletion(job); return; }
    if job.fixed.terms.policy == AfterStop { CancelGrant(job, "new_prompt_cancelled_after_stop_grant"); return; }
    End(job, Armed, "new_prompt_invalidated_evidence");
    SetCurrentTurn(job, input.turnID);
    ClearCompletion(job);
  }

  method StopLegacy(job: JobRecord, input: HookInput, now: nat)
    modifies job
    ensures job.View() == LegacyStop(old(job.View()), input, now)
  {
    hide JobRecord.Own;
    hide JobRecord.View;
    hide VerifiedStop;
    hide AfterStopStop;
    hide Ended;
    hide CompletionCleared;
    hide Requested;
    job.Fields();
    if job.state.IsTerminal() { return; }
    if job.Unresolved() {
      if job.fixed.terms.policy == AfterStop || input.turnID != job.stopTurnID {
        var requested := RequestPowerCancellation(job, "continuation_after_stop_requested_power_cancel");
      }
      return;
    }
    if job.ExpiredAt(now) { End(job, Expired, "arm_expired"); ClearCompletion(job); return; }
    if job.fixed.terms.policy == AfterStop { StopAfterStop(job, input); return; }
    StopVerified(job, input);
  }

  /** Stop at a verified_success job with no action pending. */
  method StopVerified(job: JobRecord, input: HookInput)
    modifies job
    ensures job.View() == VerifiedStop(old(job.View()), input)
  {
    hide JobRecord.Own;
    hide JobRecord.View;
    job.Fields();
    if job.state != ReadyPendingStop { return; }
    if !job.finishObserved || job.readyTurnID != input.turnID {
      End(job, Armed, "stop_turn_mismatch");
      SetCurrentTurn(job, input.turnID);
      ClearCompletion(job);
      return;
    }
    SetStopTurn(job, input.turnID);
    MoveTo(job, StopObserved, if job.fixed.terms.dryRun then "matching_stop_observed_no_action"
                              else "matching_stop_observed_awaiting_final_gate");
  }

  method StopAfterStop(job: JobRecord, input: HookInput)
    modifies job
    ensures job.View() == AfterStopStop(old(job.View()), input)
  {
    hide JobRecord.Own;
    job.Fields();
    if input.stopHookActive { CancelGrant(job, "stop_hook_continuation_cancelled_grant"); return; }
    if !job.fixed.terms.dryRun && !WorkspaceMatches(job.fixed.workspace, input.cwd) {
      End(job, HookUnavailable, "stop_workspace_mismatch");
      return;
    }
    if job.state == StopObserved { CancelGrant(job, "continuation_after_stop_cancelled_grant"); return; }
    if job.state != Armed || input.turnID != job.currentTurnID { return; }
    SetStopTurn(job, input.turnID);
    if job.fixed.terms.dryRun {
      MoveTo(job, DryRunComplete, "after_stop_observed_no_action");
    } else {
      MoveTo(job, StopObserved, "after_stop_observed_awaiting_countdown");
    }
  }

  method SessionEndLegacy(job: JobRecord)
    modifies job
    ensures job.View() == LegacySessionEnd(old(job.View()))
  {
    hide JobRecord.Own;
    job.Fields();
    if job.state.IsTerminal() { return; }
    if job.fixed.terms.policy == AfterStop && (job.state == StopObserved || job.Unresolved()) { return; }
    var requested := RequestPowerCancellation(job, "session_end_requested_power_cancel");
    if requested { return; }
    End(job, Expired, "session_ended");
    ClearCompletion(job);
  }

  // ---------------------------------------------------------------- tools

  /** PostToolUse of a DoneThen tool other than arm. */
  method PostToolUse(job: JobRecord, tool: Tool, input: HookInput, now: nat)
    modifies job
    ensures job.View() == ToolStep(old(job.View()), tool, input, now)
  {
    hide JobRecord.Own;
    job.Fields();
    if tool == CancelTool { return; }
    var controllerMatches := job.fixed.sessionID == input.sessionID;
    if job.fixed.terms.policy == AfterAllStop {
      controllerMatches := job.fixed.controllerSession == Sha256(input.sessionID);
    }
    if !controllerMatches {
      var requested := RequestPowerCancellation(job, "tool_session_mismatch_after_power_intent");
      if requested { return; }
      job.Fields();
      if job.state.IsActive() { End(job, HookUnavailable, "tool_session_mismatch"); ClearCompletion(job); }
      return;
    }
    if job.state.IsActive() && job.ExpiredAt(now) { End(job, Expired, "arm_expired"); ClearCompletion(job); return; }
    if tool == Finish && job.state == ReadyPendingStop {
      if job.readyTurnID == "" || job.readyTurnID != input.turnID {
        End(job, Armed, "finish_turn_mismatch");
        SetCurrentTurn(job, input.turnID);
        ClearCompletion(job);
        return;
      }
      ObserveFinish(job);
    }
  }
}
