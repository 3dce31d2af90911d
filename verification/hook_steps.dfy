/**
 What each lifecycle hook makes of a job, as functions on job values: the mutators of
 internal/hookobserver/observer.go.

 The turn of an input is never blank and identity hashes are injective, so a turn is its hash.
 The store has already found the target whose session the event came from.
 */
module HookSteps {
  import opened Wrappers
  import opened Actions
  import opened PluginJob

  datatype HookInput = HookInput(sessionID: string, turnID: string, cwd: Path, stopHookActive: bool)
  {
    function Turn(): Hash { Sha256(turnID) }
  }

  const RESUMED := "after_all_stop_target_resumed"

  /** Nothing is active and no power action is unresolved: every hook leaves the job alone. */
  predicate Settled(job: Job) {
    job.state.IsTerminal() && !job.Unresolved()
  }

  /** requestPowerCancellation on an unresolved job. */
  function Requested(job: Job, reason: string): Job {
    job.(generation := job.generation + 1, cancelRequested := true, cancelReason := reason, reasonCode := reason)
  }

  /** A step of the job to another state, counted by its generation. */
  function Ended(job: Job, state: State, reason: string): Job {
    job.(generation := job.generation + 1, state := state, reasonCode := reason)
  }

  function GrantCancelled(job: Job, reason: string): Job {
    Ended(job, Cancelled, reason).(cancelRequested := true, cancelReason := reason)
  }

  function CompletionCleared(job: Job): Job {
    job.(completionStatus := "", completionEvidenceHash := "", readyTurnID := "", stopTurnID := "",
         finishObserved := false, verifierPassed := false,
         hookFingerprintH1 := "", hookFingerprintH2 := "", hookFingerprintH3 := "",
         hookCompatibility := "not_evaluated", hostInstanceID := "",
         cancelRequested := false, cancelReason := "")
  }

  // ---------------------------------------------------------------- one target

  function PromptTarget(target: Target, turn: Hash): Target {
    target.(currentTurn := turn, stopTurn := NoHash, stopObservedAt := None,
            continuationTurn := if target.currentTurn != turn then NoHash else target.continuationTurn)
  }

  predicate PromptChanges(target: Target, turn: Hash) {
    target.currentTurn != turn || target.stopTurn != NoHash || target.stopObservedAt.Some?
  }

  function ContinueTarget(target: Target, turn: Hash): Target {
    target.(currentTurn := turn, stopTurn := NoHash, stopObservedAt := None, continuationTurn := turn)
  }

  predicate ContinueChanges(target: Target, turn: Hash) {
    PromptChanges(target, turn) || target.continuationTurn != turn
  }

  /** Would a plain Stop of `turn` be accepted as this target's stop? */
  predicate StopAccepted(target: Target, turn: Hash) {
    && (target.currentTurn == NoHash || target.currentTurn == turn)
    && target.continuationTurn != turn
    && !target.(currentTurn := turn).Stopped()
  }

  function StoppedTarget(target: Target, turn: Hash, now: nat): Target {
    target.(currentTurn := turn, stopTurn := turn, stopObservedAt := Some(now))
  }

  /** pinBarrierWorkspace: the target with its workspace, or None on a foreign or unusable directory. */
  function Pinned(target: Target, cwd: Path, now: nat): Option<Target> {
    if !cwd.Absolute? then None
    else if target.workspace == NoPath then Some(target.(workspace := cwd, firstSeenAt := Some(now)))
    else if WorkspaceMatches(target.workspace, cwd) then Some(target)
    else None
  }

  // ---------------------------------------------------------------- barrier jobs

  function WithTarget(job: Job, k: nat, target: Target): Job
    requires k < |job.stopTargets|
  {
    job.(stopTargets := job.stopTargets[k := target])
  }

  function FailedOrCancelled(job: Job, reason: string): Job {
    if job.Unresolved() then Requested(job, reason) else Ended(job, HookUnavailable, reason)
  }

  /** armBarrierAfterTargetChange. */
  function RearmedFor(job: Job, reason: string): Job {
    job.(state := if job.state == ArmPendingBind then ArmPendingBind else Armed, reasonCode := reason)
  }

  /** The common end of a prompt and of a continuation: target `k` runs again. */
  function TargetResumed(job: Job, k: nat, target: Target, changed: bool): Job
    requires k < |job.stopTargets|
  {
    ResumedBy(WithTarget(job, k, target), changed)
  }

  function ResumedBy(job: Job, changed: bool): Job {
    if job.Unresolved() then
      if changed || !job.cancelRequested then Requested(job, RESUMED) else job
    else RearmedFor(if changed then job.(generation := job.generation + 1) else job, RESUMED)
  }

  function BarrierPrompt(job: Job, k: nat, input: HookInput, now: nat): Job
    requires k < |job.stopTargets|
  {
    if Settled(job) then job
    else if job.ExpiredAt(now) && !job.Unresolved() then Ended(job, Expired, "arm_expired")
    else
      var pinned := Pinned(job.stopTargets[k], input.cwd, now);
      if pinned.None? then FailedOrCancelled(job, "target_workspace_changed")
      else TargetResumed(job, k, PromptTarget(pinned.value, input.Turn()), PromptChanges(pinned.value, input.Turn()))
  }

  function BarrierStop(job: Job, k: nat, input: HookInput, now: nat): Job
    requires k < |job.stopTargets|
  {
    if Settled(job) then job
    else if job.ExpiredAt(now) && !job.Unresolved() then Ended(job, Expired, "arm_expired")
    else
      var pinned := Pinned(job.stopTargets[k], input.cwd, now);
      if pinned.None? then FailedOrCancelled(job, "target_workspace_changed")
      else if input.stopHookActive then
        TargetResumed(job, k, ContinueTarget(pinned.value, input.Turn()), ContinueChanges(pinned.value, input.Turn()))
      else if job.Unresolved() then WithTarget(job, k, pinned.value)
      else PlainStop(job, k, pinned.value, input.Turn(), now)
  }

  function PlainStop(job: Job, k: nat, target: Target, turn: Hash, now: nat): Job
    requires k < |job.stopTargets|
  {
    if target.currentTurn != NoHash && target.currentTurn != turn then WithTarget(job, k, target)
    else if !StopAccepted(target, turn) then WithTarget(job, k, target.(currentTurn := turn))
    else BarrierMoved(WithTarget(job, k, StoppedTarget(target, turn, now)))
  }

  /** Where a bound barrier stands once one more target has stopped. */
  function BarrierMoved(job: Job): Job {
    if job.indexesReady && job.armObserved && job.BarrierSatisfied() then
      if job.terms.dryRun then Ended(job, DryRunComplete, "after_all_stop_observed_no_action")
      else Ended(job, StopObserved, "after_all_stop_observed_awaiting_countdown")
    else if job.state != ArmPendingBind then Ended(job, Armed, "after_all_stop_barrier_partial")
    else Ended(job, ArmPendingBind, "awaiting_post_tool_hook")
  }

  function BarrierSessionEnd(job: Job, k: nat): Job
    requires k < |job.stopTargets|
  {
    if Settled(job) || job.stopTargets[k].Stopped() then job
    else if job.Unresolved() then Requested(job, "target_session_ended_before_stop")
    else Ended(job, Expired, "target_session_ended_before_stop")
  }

  // ---------------------------------------------------------------- single-session jobs

  function LegacyPrompt(job: Job, input: HookInput, now: nat): Job {
    if job.state.IsTerminal() then job
    else if job.Unresolved() then Requested(job, "new_prompt_requested_power_cancel")
    else if job.ExpiredAt(now) then CompletionCleared(Ended(job, Expired, "arm_expired"))
    else if job.terms.policy == AfterStop then
      GrantCancelled(job, "new_prompt_cancelled_after_stop_grant")
    else CompletionCleared(Ended(job, Armed, "new_prompt_invalidated_evidence").(currentTurnID := input.turnID))
  }

  function AfterStopStop(job: Job, input: HookInput): Job {
    if input.stopHookActive then
      GrantCancelled(job, "stop_hook_continuation_cancelled_grant")
    else if !job.terms.dryRun && !WorkspaceMatches(job.workspace, input.cwd) then
      Ended(job, HookUnavailable, "stop_workspace_mismatch")
    else if job.state == StopObserved then
      GrantCancelled(job, "continuation_after_stop_cancelled_grant")
    else if job.state != Armed || input.turnID != job.currentTurnID then job
    else
      var stopped := job.(stopTurnID := input.turnID);
      if job.terms.dryRun then stopped.(state := DryRunComplete, reasonCode := "after_stop_observed_no_action")
      else stopped.(state := StopObserved, reasonCode := "after_stop_observed_awaiting_countdown")
  }

  function VerifiedStop(job: Job, input: HookInput): Job {
    if job.state != ReadyPendingStop then job
    else if !job.finishObserved || job.readyTurnID != input.turnID then
      CompletionCleared(Ended(job, Armed, "stop_turn_mismatch").(currentTurnID := input.turnID))
    else
      job.(state := StopObserved, stopTurnID := input.turnID,
           reasonCode := if job.terms.dryRun then "matching_stop_observed_no_action"
                         else "matching_stop_observed_awaiting_final_gate")
  }

  function LegacyStop(job: Job, input: HookInput, now: nat): Job {
    if job.state.IsTerminal() then job
    else if job.Unresolved() then
      if job.terms.policy == AfterStop || input.turnID != job.stopTurnID then
        Requested(job, "continuation_after_stop_requested_power_cancel")
      else job
    else if job.ExpiredAt(now) then CompletionCleared(Ended(job, Expired, "arm_expired"))
    else if job.terms.policy == AfterStop then AfterStopStop(job, input)
    else VerifiedStop(job, input)
  }

  function LegacySessionEnd(job: Job): Job {
    if job.state.IsTerminal() then job
    else if job.terms.policy == AfterStop && (job.state == StopObserved || job.Unresolved()) then job
    else if job.Unresolved() then Requested(job, "session_end_requested_power_cancel")
    else CompletionCleared(Ended(job, Expired, "session_ended"))
  }

  // ---------------------------------------------------------------- dispatch

  datatype HookEvent = Prompt | Stop | SessionEnd

  /** One observed hook event; `k` is the stop target of the session, if the job is a barrier that has it. */
  function HookStep(job: Job, event: HookEvent, k: Option<nat>, input: HookInput, now: nat): Job
    requires k.Some? ==> k.value < |job.stopTargets|
  {
    if job.terms.policy == AfterAllStop then
      if k.None? then job
      else match event
        case Prompt => BarrierPrompt(job, k.value, input, now)
        case Stop => BarrierStop(job, k.value, input, now)
        case SessionEnd => BarrierSessionEnd(job, k.value)
    else match event
      case Prompt => LegacyPrompt(job, input, now)
      case Stop => LegacyStop(job, input, now)
      case SessionEnd => LegacySessionEnd(job)
  }

  datatype Tool = Finish | Pause | CancelTool

  predicate ControllerMatches(job: Job, input: HookInput) {
    if job.terms.policy == AfterAllStop then job.controllerSession == Sha256(input.sessionID)
    else job.sessionID == input.sessionID
  }

  /** PostToolUse of finish, pause or cancel. */
  function ToolStep(job: Job, tool: Tool, input: HookInput, now: nat): Job {
    if tool == CancelTool then job
    else if !ControllerMatches(job, input) then
      if job.Unresolved() then Requested(job, "tool_session_mismatch_after_power_intent")
      else if job.state.IsActive() then CompletionCleared(Ended(job, HookUnavailable, "tool_session_mismatch"))
      else job
    else if job.state.IsActive() && job.ExpiredAt(now) then CompletionCleared(Ended(job, Expired, "arm_expired"))
    else if tool == Finish && job.state == ReadyPendingStop then
      if job.readyTurnID == "" || job.readyTurnID != input.turnID then
        CompletionCleared(Ended(job, Armed, "finish_turn_mismatch").(currentTurnID := input.turnID))
      else job.(finishObserved := true, reasonCode := "finish_hook_observed")
    else job
  }
}
