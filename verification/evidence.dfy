/**
 Completion evidence of a verified_success job: what binding, finish, the verifier, pause, the hooks, the
 supervisor and the cancel paths may do to it, and what a job that is granted a shutdown must therefore have
 (internal/pluginapi/service.go, internal/hookobserver/observer.go).

 The decision on the completion envelope and the verifier's exit are answers of the environment.
 */
module Evidence {
  import opened Wrappers
  import opened Actions
  import opened PluginJob
  import opened HookSteps
  import opened PowerWorld
  import opened SupervisorModule
  import RecoveryRecords
  import CancelPathsModule
  import StoreModule

  // ---------------------------------------------------------------- the service's writes

  /** The service's clearCompletion; unlike the observer's it leaves a request to cancel in place. */
  function EvidenceCleared(job: Job): Job {
    job.(completionStatus := "", completionEvidenceHash := "", readyTurnID := "", stopTurnID := "",
         finishObserved := false, verifierPassed := false,
         hookFingerprintH1 := "", hookFingerprintH2 := "", hookFingerprintH3 := "",
         hookCompatibility := "not_evaluated", hostInstanceID := "")
  }

  predicate Expires(job: Job, now: nat) {
    job.state.IsActive() && !job.state.IsPower() && job.ExpiredAt(now)
  }

  function ServiceExpired(job: Job): (next: Job)
    ensures next.terms == job.terms
  {
    EvidenceCleared(Ended(job, Expired, "arm_expired"))
  }

  /** What finish submits: the policy's verdict on the completion, its status text and its hash. */
  datatype Completion = Completion(done: bool, status: string, hash: string)

  function FinishNotDone(job: Job, completion: Completion): (next: Job)
    ensures next.terms == job.terms
  {
    job.(generation := job.generation + 1, completionStatus := completion.status, verifierPassed := false,
         completionEvidenceHash := "", readyTurnID := "", state := NotDone, reasonCode := "completion_policy_rejected")
  }

  /** Done, but without the independent evidence the job demands. */
  function FinishUnproven(job: Job, completion: Completion): (next: Job)
    ensures next.terms == job.terms
  {
    job.(generation := job.generation + 1, completionStatus := completion.status, verifierPassed := false,
         completionEvidenceHash := "", readyTurnID := "", stopTurnID := "", finishObserved := false,
         state := VerificationFailed, reasonCode := "independent_evidence_required")
  }

  function FinishReady(job: Job, completion: Completion, state: State, reason: string): (next: Job)
    ensures next.terms == job.terms && next.state == state && next.generation == job.generation + 1
  {
    job.(generation := job.generation + 1, completionStatus := completion.status, verifierPassed := false,
         completionEvidenceHash := completion.hash, readyTurnID := job.currentTurnID, stopTurnID := "",
         finishObserved := false, hookFingerprintH2 := "", hookFingerprintH3 := "",
         state := state, reasonCode := reason)
  }

  function FinishAccepted(job: Job, completion: Completion): (next: Job)
    ensures next.terms == job.terms
  {
    if job.terms.verifierProfile == "none" then
      FinishReady(job, completion, ReadyPendingStop, "completion_policy_passed_agent_only")
    else FinishReady(job, completion, Verifying, "verifier_started")
  }

  function FinishStarted(job: Job, completion: Completion, now: nat): (next: Job)
    ensures next.terms == job.terms
  {
    if Expires(job, now) then ServiceExpired(job)
    else if job.state != Armed && job.state != HostMonitoring then job
    else if !completion.done then FinishNotDone(job, completion)
    else if job.terms.verifierProfile == "none" && !job.terms.allowAgentOnlySuccess then FinishUnproven(job, completion)
    else FinishAccepted(job, completion)
  }

  function VerifierRejected(job: Job): (next: Job)
    ensures next.terms == job.terms && next.state == VerificationFailed
  {
    job.(state := VerificationFailed, reasonCode := "verifier_failed", verifierPassed := false,
         completionEvidenceHash := "", readyTurnID := "")
  }

  function VerifierCredited(job: Job): (next: Job)
    ensures next.terms == job.terms && next.state == ReadyPendingStop
  {
    job.(verifierPassed := true, state := ReadyPendingStop, reasonCode := "completion_and_verifier_passed")
  }

  /** The second update of finish; `expected` is the generation its first update left. */
  function VerifierFinished(job: Job, expected: nat, passed: bool, now: nat): (next: Job)
    ensures next.terms == job.terms
  {
    if Expires(job, now) then ServiceExpired(job)
    else if job.state != Verifying || job.generation != expected then job
    else if !passed then VerifierRejected(job)
    else VerifierCredited(job)
  }

  function Paused(job: Job, reason: string, now: nat): Job {
    if Expires(job, now) then ServiceExpired(job)
    else if job.state != Armed && job.state != HostMonitoring && job.state != ReadyPendingStop
            && job.state != StopObserved then job
    else EvidenceCleared(Ended(job, Waiting, reason))
  }

  // ---------------------------------------------------------------- every write of such a job

  datatype Act =
    | Finish(completion: Completion)
    | Verified(expected: nat, passed: bool)
    | Pause(reason: string)
    | Hook(event: HookEvent, input: HookInput)
    | ToolHook(tool: Tool, input: HookInput)
    | Snapshot(phase: Phase, seen: Job, snapshot: SupervisorModule.Snapshot)
    | Fail(state: State, reason: string)
    | Intend(generation: nat, receipt: Receipt, capabilities: Capabilities)
    | Schedule(generation: nat, receipt: Receipt)
    | Abort(reason: string)
    | Settle(confirmed: bool, reason: string)
    | RollBack(confirmed: bool, reason: string)
    | UnknownOutcome
    | Revoke(revocation: Revocation)
    | Bind(sessionID: string, turnID: string, workspace: Path)
    | Expire
    | Terminate(state: State, reason: string, counted: bool)

  /** What the cancel worker and the command line write. */
  datatype Revocation =
    | AskUnlocked(bindingID: string, reason: string)
    | AskByUser
    | Fence(bindingID: string, reason: string)
    | SettlePower(outcome: RecoveryRecords.Outcome, reason: string)
    | Unconfirm(reason: string)

  function Revoked(job: Job, revocation: Revocation): (next: Option<Job>)
    ensures next.Some? ==> next.value.terms == job.terms
  {
    match revocation
    case AskUnlocked(bindingID, reason) => CancelPathsModule.AskedWithoutLock(bindingID, reason, job)
    case AskByUser => CancelPathsModule.AskedByUser(job)
    case Fence(bindingID, reason) => CancelPathsModule.Fenced(bindingID, reason, job)
    case SettlePower(outcome, reason) => CancelPathsModule.SettledAs(outcome, reason, job)
    case Unconfirm(reason) => CancelPathsModule.Unconfirmed(reason, job)
  }

  /**
   power.rollback. Of itself it would take any active job to ACTION_INTENT; on the machine, an unconfirmed
   rollback only ever meets a job that has an action pending or is closed (RollbackMeetsAnAction).
   */
  predicate MeetsAnAction(job: Job, confirmed: bool) {
    confirmed || job.state.IsPower() || job.state.IsTerminal()
  }

  function RolledBackFrom(job: Job, confirmed: bool, reason: string): (next: Option<Job>)
    ensures next.Some? ==> next.value.terms == job.terms
  {
    if MeetsAnAction(job, confirmed) then RolledBack(confirmed, reason, job) else None
  }

  /** Every rollback that the shared machine lets anybody write is one of these. */
  lemma RollbackMeetsAnAction(a: Pid, w: World, confirmed: bool, reason: string)
    requires Invariant(w) && RolledBack(confirmed, reason, w.job).Some?
    requires WriteAllowed(a, w, RolledBack(confirmed, reason, w.job).value)
    ensures MeetsAnAction(w.job, confirmed)
  {
  }

  /** The arm hook, at a job that waits for it. */
  function BoundBy(job: Job, sessionID: string, turnID: string, workspace: Path): (next: Job)
    ensures next.terms == job.terms
  {
    if job.state == ArmPendingBind then StoreModule.SessionBound(job, sessionID, turnID, workspace) else job
  }

  function StoreExpired(job: Job, now: nat): (next: Job)
    ensures next.terms == job.terms
  {
    if Expires(job, now) then StoreModule.LateArm(job) else job
  }

  /**
   A failed launch; and what this model otherwise leaves out, the unlocked cancels and reconciliation: whatever
   they decide by, they only close the job.
   */
  function Terminated(job: Job, state: State, reason: string, counted: bool): (next: Job)
    ensures next.terms == job.terms && next.state == state
    ensures job.generation <= next.generation
  {
    job.(generation := if counted then job.generation + 1 else job.generation, state := state, reasonCode := reason)
  }

  lemma RequestedTerms(job: Job, reason: string)
    ensures Requested(job, reason).terms == job.terms
  {
  }

  lemma EndedTerms(job: Job, state: State, reason: string, turnID: string)
    ensures CompletionCleared(Ended(job, state, reason)).terms == job.terms
    ensures CompletionCleared(Ended(job, state, reason).(currentTurnID := turnID)).terms == job.terms
  {
  }

  lemma LegacyTerms(job: Job, event: HookEvent, input: HookInput, now: nat)
    requires job.terms.policy == VerifiedSuccess
    ensures HookStep(job, event, None, input, now).terms == job.terms
  {
    hide Ended;
    hide CompletionCleared;
    hide Requested;
    hide AfterStopStop;
    hide VerifiedStop;
    if !job.state.IsTerminal() {
      if job.Unresolved() {
        RequestedTerms(job, "new_prompt_requested_power_cancel");
        RequestedTerms(job, "continuation_after_stop_requested_power_cancel");
        RequestedTerms(job, "session_end_requested_power_cancel");
      } else if job.ExpiredAt(now) {
        EndedTerms(job, Expired, "arm_expired", "");
        EndedTerms(job, Expired, "session_ended", "");
      } else {
        EndedTerms(job, Armed, "new_prompt_invalidated_evidence", input.turnID);
        EndedTerms(job, Expired, "session_ended", "");
        MatchingStopTerms(job, input);
      }
    }
  }

  lemma MatchingStopTerms(job: Job, input: HookInput)
    ensures VerifiedStop(job, input).terms == job.terms
  {
    EndingFacts();
    hide Ended;
    hide CompletionCleared;
  }

  lemma PausedTerms(job: Job, reason: string, now: nat)
    ensures Paused(job, reason, now).terms == job.terms
  {
    EndingFacts();
    hide Ended;
    hide EvidenceCleared;
  }

  lemma ToolTerms(job: Job, tool: Tool, input: HookInput, now: nat)
    ensures ToolStep(job, tool, input, now).terms == job.terms
  {
    hide Ended;
    hide CompletionCleared;
    hide Requested;
    hide ControllerMatches;
    if tool == CancelTool {
    } else if !ControllerMatches(job, input) {
      RequestedTerms(job, "tool_session_mismatch_after_power_intent");
      EndedTerms(job, HookUnavailable, "tool_session_mismatch", "");
    } else if job.state.IsActive() && job.ExpiredAt(now) {
      EndedTerms(job, Expired, "arm_expired", "");
    } else {
      EndedTerms(job, Armed, "finish_turn_mismatch", input.turnID);
    }
  }

  lemma CapturedTerms(job: Job, phase: Phase, seen: Job, snapshot: SupervisorModule.Snapshot)
    ensures OrSame(job, Captured(phase, seen, snapshot, job)).terms == job.terms
  {
    hide CapturedH1;
    hide CapturedH2;
    hide CapturedH3;
  }

  lemma SettledTerms(job: Job, confirmed: bool, reason: string)
    ensures OrSame(job, SupervisorModule.Settled(confirmed, reason, job)).terms == job.terms
  {
    hide CountdownCancelled;
    hide CountdownUnconfirmed;
  }

  function OrSame(job: Job, next: Option<Job>): (result: Job)
    ensures next.None? || next.value.terms == job.terms ==> result.terms == job.terms
  {
    if next.Some? then next.value else job
  }

  /** The job an act asks the store to write. */
  function Wanted(job: Job, act: Act, now: nat): (next: Job)
    requires job.terms.policy == VerifiedSuccess
    ensures next.terms == job.terms
  {
    match act
    case Finish(completion) => FinishStarted(job, completion, now)
    case Verified(expected, passed) => VerifierFinished(job, expected, passed, now)
    case Pause(reason) => (PausedTerms(job, reason, now); Paused(job, reason, now))
    case Hook(event, input) => (LegacyTerms(job, event, input, now); HookStep(job, event, None, input, now))
    case ToolHook(tool, input) => (ToolTerms(job, tool, input, now); ToolStep(job, tool, input, now))
    case Snapshot(phase, seen, snapshot) =>
      (CapturedTerms(job, phase, seen, snapshot); OrSame(job, Captured(phase, seen, snapshot, job)))
    case Fail(state, reason) => OrSame(job, Closed(state, reason, job))
    case Intend(generation, receipt, capabilities) => OrSame(job, Intended(generation, receipt, now, capabilities, job))
    case Schedule(generation, receipt) => OrSame(job, Scheduled(generation, receipt, job))
    case Abort(reason) => OrSame(job, Aborted(reason, job))
    case Settle(confirmed, reason) =>
      (SettledTerms(job, confirmed, reason); OrSame(job, SupervisorModule.Settled(confirmed, reason, job)))
    case RollBack(confirmed, reason) => OrSame(job, RolledBackFrom(job, confirmed, reason))
    case UnknownOutcome => OrSame(job, OutcomeUnknown(job))
    case Revoke(revocation) => OrSame(job, Revoked(job, revocation))
    case Bind(sessionID, turnID, workspace) => BoundBy(job, sessionID, turnID, workspace)
    case Expire => StoreExpired(job, now)
    case Terminate(state, reason, counted) => Terminated(job, state, reason, counted)
  }

  /** The store writes only what Validate accepts. */
  function Done(job: Job, act: Act, now: nat): (next: Job)
    requires job.terms.policy == VerifiedSuccess
    ensures next.terms == job.terms
  {
    if Valid(Wanted(job, act, now)) then Wanted(job, act, now) else job
  }

  /** Inputs the callers have already checked. */
  predicate Sensible(act: Act) {
    match act
    case Finish(completion) => completion.hash != ""
    case Hook(_, input) => input.turnID != ""
    case ToolHook(_, input) => input.turnID != ""
    case Fail(state, _) => state.IsTerminal()
    case Terminate(state, _, _) => state.IsTerminal()
    case _ => true
  }

  predicate Granted(state: State) {
    state == StopObserved || state.IsPower()
  }

  predicate Credited(state: State) {
    state == ReadyPendingStop || Granted(state)
  }

  /** What a job's state says about the evidence behind it. */
  predicate Backed(job: Job) {
    && (job.state == Verifying || Credited(job.state) ==> job.completionEvidenceHash != "")
    && (Credited(job.state) && job.terms.verifierProfile != "none" ==> job.verifierPassed)
    && (Granted(job.state) ==> job.finishObserved && job.readyTurnID != "" && job.readyTurnID == job.stopTurnID)
  }

  /** A step that is not about evidence: it leaves it alone, and grants nothing that was not granted. */
  lemma OtherStepBacked(job: Job, next: Job)
    requires Backed(job) && next.terms == job.terms
    requires
      || (!Credited(next.state) && next.state != Verifying)
      || (&& next.completionEvidenceHash == job.completionEvidenceHash && next.verifierPassed == job.verifierPassed
          && next.finishObserved == job.finishObserved
          && next.readyTurnID == job.readyTurnID && next.stopTurnID == job.stopTurnID
          && (next.state == job.state || (Granted(job.state) && Granted(next.state))))
    ensures Backed(next)
  {
  }

  /** The writes that end a job or send it back carry no evidence to back. */
  lemma EndingFacts()
    ensures forall job: Job {:trigger EvidenceCleared(job)} ::
      EvidenceCleared(job).state == job.state && EvidenceCleared(job).terms == job.terms
    ensures forall job: Job {:trigger CompletionCleared(job)} ::
      CompletionCleared(job).state == job.state && CompletionCleared(job).terms == job.terms
    ensures forall job: Job, state: State, reason: string {:trigger Ended(job, state, reason)} ::
      Ended(job, state, reason).state == state && Ended(job, state, reason).terms == job.terms
    ensures forall job: Job, reason: string {:trigger Requested(job, reason)} ::
      Requested(job, reason).terms == job.terms
    ensures forall job: Job, reason: string {:trigger GrantCancelled(job, reason)} ::
      GrantCancelled(job, reason).terms == job.terms
  {
  }

  lemma RequestedBacked(job: Job, reason: string)
    requires Backed(job)
    ensures Backed(Requested(job, reason))
  {
  }

  lemma ReadyBacked(job: Job, completion: Completion, state: State, reason: string)
    requires completion.hash != ""
    requires state == Verifying || (state == ReadyPendingStop && job.terms.verifierProfile == "none")
    ensures Backed(FinishReady(job, completion, state, reason))
  {
  }

  lemma FinishAcceptedBacked(job: Job, completion: Completion)
    requires completion.hash != ""
    ensures Backed(FinishAccepted(job, completion))
  {
    hide FinishReady;
    hide Backed;
    if job.terms.verifierProfile == "none" {
      ReadyBacked(job, completion, ReadyPendingStop, "completion_policy_passed_agent_only");
    } else {
      ReadyBacked(job, completion, Verifying, "verifier_started");
    }
  }

  lemma FinishRejectedBacked(job: Job, completion: Completion)
    ensures Backed(FinishNotDone(job, completion)) && Backed(FinishUnproven(job, completion))
  {
  }

  lemma FinishBacked(job: Job, completion: Completion, now: nat)
    requires Backed(job) && completion.hash != ""
    ensures Backed(FinishStarted(job, completion, now))
  {
    EndingFacts();
    hide EvidenceCleared;
    hide Ended;
    hide FinishNotDone;
    hide FinishUnproven;
    hide FinishAccepted;
    FinishAcceptedBacked(job, completion);
    FinishRejectedBacked(job, completion);
  }

  lemma VerifierBacked(job: Job, expected: nat, passed: bool, now: nat)
    requires Backed(job)
    ensures Backed(VerifierFinished(job, expected, passed, now))
  {
    hide Backed;
    hide ServiceExpired;
    hide VerifierRejected;
    hide VerifierCredited;
    if Expires(job, now) {
      ServiceExpiredBacked(job);
    } else if job.state == Verifying {
      Uncredited(VerifierRejected(job));
      CreditBacked(job);
    }
  }

  lemma CreditBacked(job: Job)
    requires Backed(job) && job.state == Verifying
    ensures Backed(VerifierCredited(job))
  {
  }

  lemma ServiceExpiredBacked(job: Job)
    ensures Backed(ServiceExpired(job))
  {
  }

  lemma PauseBacked(job: Job, reason: string, now: nat)
    requires Backed(job)
    ensures Backed(Paused(job, reason, now))
  {
    hide Backed;
    hide ServiceExpired;
    hide EvidenceCleared;
    hide Ended;
    if Expires(job, now) { ServiceExpiredBacked(job); } else { WaitingBacked(job, reason); }
  }

  lemma WaitingBacked(job: Job, reason: string)
    ensures Backed(EvidenceCleared(Ended(job, Waiting, reason)))
  {
  }

  /** Prompts re-arm, and prompts at a pending action change nothing but the request. */
  lemma PromptBacked(job: Job, input: HookInput, now: nat)
    requires Backed(job) && job.terms.policy == VerifiedSuccess
    ensures Backed(LegacyPrompt(job, input, now))
  {
    hide CompletionCleared;
    hide Ended;
    hide GrantCancelled;
    hide Requested;
    hide Backed;
    if job.state.IsTerminal() {
    } else if job.Unresolved() {
      RequestedBacked(job, "new_prompt_requested_power_cancel");
    } else if job.ExpiredAt(now) {
      EndedBacked(job, Expired, "arm_expired");
    } else {
      RearmedBacked(job, "new_prompt_invalidated_evidence", input.turnID);
    }
  }

  lemma StopBacked(job: Job, input: HookInput, now: nat)
    requires Backed(job) && job.terms.policy == VerifiedSuccess && input.turnID != ""
    ensures Backed(LegacyStop(job, input, now))
  {
    hide AfterStopStop;
    hide VerifiedStop;
    hide CompletionCleared;
    hide Ended;
    hide Requested;
    hide Backed;
    if job.state.IsTerminal() {
    } else if job.Unresolved() {
      RequestedBacked(job, "continuation_after_stop_requested_power_cancel");
    } else if job.ExpiredAt(now) {
      EndedBacked(job, Expired, "arm_expired");
    } else {
      MatchingStopBacked(job, input);
    }
  }

  lemma Uncredited(job: Job)
    requires !Credited(job.state) && job.state != Verifying
    ensures Backed(job)
  {
  }

  /** The Stop that grants: finish was observed and its turn is the turn that stopped. */
  lemma MatchingStopBacked(job: Job, input: HookInput)
    requires Backed(job) && input.turnID != ""
    ensures Backed(VerifiedStop(job, input))
  {
    EndingFacts();
    hide CompletionCleared;
    hide Ended;
  }

  lemma SessionEndBacked(job: Job)
    requires Backed(job) && job.terms.policy == VerifiedSuccess
    ensures Backed(LegacySessionEnd(job))
  {
    hide CompletionCleared;
    hide Ended;
    hide Requested;
    hide Backed;
    if job.state.IsTerminal() {
    } else if job.Unresolved() {
      RequestedBacked(job, "session_end_requested_power_cancel");
    } else {
      EndedBacked(job, Expired, "session_ended");
    }
  }

  lemma ToolBacked(job: Job, tool: Tool, input: HookInput, now: nat)
    requires Backed(job)
    ensures Backed(ToolStep(job, tool, input, now))
  {
    hide CompletionCleared;
    hide Ended;
    hide Requested;
    hide Backed;
    hide ControllerMatches;
    if tool == CancelTool {
    } else if !ControllerMatches(job, input) {
      if job.Unresolved() { RequestedBacked(job, "tool_session_mismatch_after_power_intent"); }
      else { EndedBacked(job, HookUnavailable, "tool_session_mismatch"); }
    } else if job.state.IsActive() && job.ExpiredAt(now) {
      EndedBacked(job, Expired, "arm_expired");
    } else if tool == Tool.Finish && job.state == ReadyPendingStop {
      RearmedBacked(job, "finish_turn_mismatch", input.turnID);
      FinishObservedBacked(job);
    }
  }

  lemma EndedBacked(job: Job, state: State, reason: string)
    requires state.IsTerminal()
    ensures Backed(CompletionCleared(Ended(job, state, reason)))
  {
  }

  lemma RearmedBacked(job: Job, reason: string, turnID: string)
    ensures Backed(CompletionCleared(Ended(job, Armed, reason).(currentTurnID := turnID)))
  {
  }

  lemma FinishObservedBacked(job: Job)
    requires Backed(job) && job.state == ReadyPendingStop
    ensures Backed(job.(finishObserved := true, reasonCode := "finish_hook_observed"))
  {
  }

  lemma FirstSnapshotBacked(job: Job, snapshot: SupervisorModule.Snapshot)
    requires Backed(job)
    ensures Backed(CapturedH1(snapshot, job))
  {
    if job.state == Armed {
      Uncredited(CapturedH1(snapshot, job));
    } else {
      OtherStepBacked(job, CapturedH1(snapshot, job));
    }
  }

  lemma SecondSnapshotBacked(job: Job, snapshot: SupervisorModule.Snapshot)
    requires Backed(job)
    ensures Backed(CapturedH2(snapshot, job))
  {
    OtherStepBacked(job, CapturedH2(snapshot, job));
  }

  lemma ThirdSnapshotBacked(job: Job, snapshot: SupervisorModule.Snapshot)
    requires Backed(job)
    ensures Backed(CapturedH3(snapshot, job))
  {
    OtherStepBacked(job, CapturedH3(snapshot, job));
  }

  lemma CapturedBacked(job: Job, phase: Phase, seen: Job, snapshot: SupervisorModule.Snapshot)
    requires Backed(job)
    ensures Backed(OrSame(job, Captured(phase, seen, snapshot, job)))
  {
    hide CapturedH1;
    hide CapturedH2;
    hide CapturedH3;
    hide Backed;
    FirstSnapshotBacked(job, snapshot);
    SecondSnapshotBacked(job, snapshot);
    ThirdSnapshotBacked(job, snapshot);
  }

  lemma ServiceKeepsBacked(job: Job, act: Act, now: nat)
    requires Backed(job) && job.terms.policy == VerifiedSuccess && Sensible(act)
    requires act.Finish? || act.Verified? || act.Pause?
    ensures Backed(Wanted(job, act, now))
  {
    hide Backed;
    match act {
      case Finish(completion) => FinishBacked(job, completion, now);
      case Verified(expected, passed) => VerifierBacked(job, expected, passed, now);
      case Pause(reason) => PauseBacked(job, reason, now);
    }
  }

  lemma HooksKeepBacked(job: Job, act: Act, now: nat)
    requires Backed(job) && job.terms.policy == VerifiedSuccess && Sensible(act) && (act.Hook? || act.ToolHook?)
    ensures Backed(Wanted(job, act, now))
  {
    hide Backed;
    match act {
      case Hook(event, input) =>
        match event {
          case Prompt => PromptBacked(job, input, now);
          case Stop => StopBacked(job, input, now);
          case SessionEnd => SessionEndBacked(job);
        }
      case ToolHook(tool, input) => ToolBacked(job, tool, input, now);
    }
  }

  lemma MutationBacked(job: Job, next: Option<Job>)
    requires Backed(job) && (next.Some? ==> Backed(next.value))
    ensures Backed(OrSame(job, next))
  {
  }

  lemma ClosedBacked(job: Job, state: State, reason: string)
    requires Backed(job) && state.IsTerminal()
    ensures Backed(Closed(state, reason, job).value)
  {
  }

  lemma IntendedBacked(job: Job, g: nat, receipt: Receipt, now: nat, capabilities: Capabilities)
    requires Backed(job)
    ensures Backed(OrSame(job, Intended(g, receipt, now, capabilities, job)))
  {
  }

  lemma ScheduledBacked(job: Job, g: nat, receipt: Receipt)
    requires Backed(job)
    ensures Backed(OrSame(job, Scheduled(g, receipt, job)))
  {
  }

  lemma AbortedBacked(job: Job, reason: string)
    requires Backed(job)
    ensures Backed(OrSame(job, Aborted(reason, job)))
  {
  }

  lemma SettledBacked(job: Job, confirmed: bool, reason: string)
    requires Backed(job)
    ensures Backed(OrSame(job, SupervisorModule.Settled(confirmed, reason, job)))
  {
  }

  lemma RolledBackBacked(job: Job, confirmed: bool, reason: string)
    requires Backed(job)
    ensures Backed(OrSame(job, RolledBackFrom(job, confirmed, reason)))
  {
  }

  lemma UnknownOutcomeBacked(job: Job)
    requires Backed(job)
    ensures Backed(OrSame(job, OutcomeUnknown(job)))
  {
  }

  lemma RevokedBacked(job: Job, revocation: Revocation)
    requires Backed(job)
    ensures Backed(OrSame(job, Revoked(job, revocation)))
  {
  }

  lemma BoundBacked(job: Job, sessionID: string, turnID: string, workspace: Path)
    requires Backed(job)
    ensures Backed(BoundBy(job, sessionID, turnID, workspace))
  {
  }

  lemma StoreExpiredBacked(job: Job, now: nat)
    requires Backed(job)
    ensures Backed(StoreExpired(job, now))
  {
  }

  /** Binding, expiry, the cancel paths and whatever else closes a job. */
  lemma OthersKeepBacked(job: Job, act: Act, now: nat)
    requires Backed(job) && job.terms.policy == VerifiedSuccess && Sensible(act)
    requires act.Revoke? || act.Bind? || act.Expire? || act.Terminate?
    ensures Backed(Wanted(job, act, now))
  {
    hide Backed;
    hide OrSame;
    hide Revoked;
    hide BoundBy;
    hide StoreExpired;
    match act {
      case Revoke(revocation) => RevokedBacked(job, revocation);
      case Bind(sessionID, turnID, workspace) => BoundBacked(job, sessionID, turnID, workspace);
      case Expire => StoreExpiredBacked(job, now);
      case Terminate(state, reason, counted) => Uncredited(Terminated(job, state, reason, counted));
    }
  }

  predicate BySupervisor(act: Act) {
    || act.Snapshot? || act.Fail? || act.Intend? || act.Schedule? || act.Abort? || act.Settle?
    || act.RollBack? || act.UnknownOutcome?
  }

  lemma SupervisorKeepsBacked(job: Job, act: Act, now: nat)
    requires Backed(job) && job.terms.policy == VerifiedSuccess && Sensible(act) && BySupervisor(act)
    ensures Backed(Wanted(job, act, now))
  {
    hide Backed;
    hide OrSame;
    match act {
      case Snapshot(phase, seen, snapshot) => CapturedBacked(job, phase, seen, snapshot);
      case Fail(state, reason) =>
        ClosedBacked(job, state, reason);
        MutationBacked(job, Closed(state, reason, job));
      case Intend(g, receipt, capabilities) => IntendedBacked(job, g, receipt, now, capabilities);
      case Schedule(g, receipt) => ScheduledBacked(job, g, receipt);
      case Abort(reason) => AbortedBacked(job, reason);
      case Settle(confirmed, reason) => SettledBacked(job, confirmed, reason);
      case RollBack(confirmed, reason) => RolledBackBacked(job, confirmed, reason);
      case UnknownOutcome => UnknownOutcomeBacked(job);
    }
  }

  // ---------------------------------------------------------------- steps of the shared machine

  lemma SameReduces(job: Job)
    ensures ReducingWrite(job, job)
  {
  }

  lemma ServiceExpiredReduces(job: Job, now: nat)
    requires Expires(job, now)
    ensures ReducingWrite(job, ServiceExpired(job))
  {
  }

  lemma FinishReduces(job: Job, completion: Completion)
    requires job.state == Armed || job.state == HostMonitoring
    ensures ReducingWrite(job, FinishNotDone(job, completion))
    ensures ReducingWrite(job, FinishUnproven(job, completion))
    ensures ReducingWrite(job, FinishAccepted(job, completion))
  {
    hide ReducingWrite;
    hide FinishReady;
    NotDoneReduces(job, completion);
    UnprovenReduces(job, completion);
    ReadyReduces(job, completion, ReadyPendingStop, "completion_policy_passed_agent_only");
    ReadyReduces(job, completion, Verifying, "verifier_started");
  }

  lemma NotDoneReduces(job: Job, completion: Completion)
    requires job.state == Armed || job.state == HostMonitoring
    ensures ReducingWrite(job, FinishNotDone(job, completion))
  {
  }

  lemma UnprovenReduces(job: Job, completion: Completion)
    requires job.state == Armed || job.state == HostMonitoring
    ensures ReducingWrite(job, FinishUnproven(job, completion))
  {
  }

  lemma ReadyReduces(job: Job, completion: Completion, state: State, reason: string)
    requires (job.state == Armed || job.state == HostMonitoring) && (state == ReadyPendingStop || state == Verifying)
    ensures ReducingWrite(job, FinishReady(job, completion, state, reason))
  {
  }

  lemma VerifierReduces(job: Job)
    requires job.state == Verifying
    ensures ReducingWrite(job, VerifierRejected(job)) && ReducingWrite(job, VerifierCredited(job))
  {
  }

  lemma WaitingReduces(job: Job, reason: string)
    requires job.state.IsActive() && !job.state.IsPower()
    ensures ReducingWrite(job, EvidenceCleared(Ended(job, Waiting, reason)))
  {
  }

  /** Binding, finish, the verifier's result, pause and expiry only take authority away from an action. */
  lemma ServiceWriteReduces(job: Job, act: Act, now: nat)
    requires job.terms.policy == VerifiedSuccess
    requires act.Finish? || act.Verified? || act.Pause? || act.Bind? || act.Expire?
    ensures ReducingWrite(job, Wanted(job, act, now))
  {
    hide ReducingWrite;
    hide ServiceExpired;
    hide FinishNotDone;
    hide FinishUnproven;
    hide FinishAccepted;
    hide VerifierRejected;
    hide VerifierCredited;
    hide EvidenceCleared;
    hide Ended;
    SameReduces(job);
    match act {
      case Finish(completion) =>
        if Expires(job, now) { ServiceExpiredReduces(job, now); }
        else if job.state == Armed || job.state == HostMonitoring { FinishReduces(job, completion); }
      case Verified(expected, passed) =>
        if Expires(job, now) {
          ServiceExpiredReduces(job, now);
        } else if job.state == Verifying {
          VerifierReduces(job);
        }
      case Pause(reason) =>
        if Expires(job, now) { ServiceExpiredReduces(job, now); }
        else if job.state.IsActive() && !job.state.IsPower() { WaitingReduces(job, reason); }
      case Bind(sessionID, turnID, workspace) =>
        if job.state == ArmPendingBind { StoreModule.SessionBoundReduces(job, sessionID, turnID, workspace); }
      case Expire =>
        if Expires(job, now) { StoreModule.LateArmReduces(job); }
    }
  }

  /** Hence they are steps of the shared machine that need neither the lock nor ownership. */
  lemma ServiceWriteIsAStep(a: Pid, w: World, act: Act, now: nat)
    requires w.job.terms.policy == VerifiedSuccess && Valid(Wanted(w.job, act, now))
    requires act.Finish? || act.Verified? || act.Pause? || act.Bind? || act.Expire?
    ensures Step(a, w, AfterWrite(w, Wanted(w.job, act, now)))
  {
    hide Valid;
    hide Wanted;
    ServiceWriteReduces(w.job, act, now);
    AllowReducing(a, w, Wanted(w.job, act, now));
    hide WriteAllowed;
    assert WriteJob(a, w, AfterWrite(w, Wanted(w.job, act, now)));
  }

  // ---------------------------------------------------------------- runs

  /** The job after the first `n` acts, whoever's they are. */
  function At(job: Job, acts: seq<(Act, nat)>, n: nat): (now: Job)
    requires n <= |acts| && job.terms.policy == VerifiedSuccess
    ensures now.terms == job.terms
  {
    if n == 0 then job else Done(At(job, acts, n - 1), acts[n - 1].0, acts[n - 1].1)
  }

  predicate AllSensible(acts: seq<(Act, nat)>) {
    forall i :: 0 <= i < |acts| ==> Sensible(acts[i].0)
  }

  lemma WantedBacked(job: Job, act: Act, now: nat)
    requires Backed(job) && job.terms.policy == VerifiedSuccess && Sensible(act)
    ensures Backed(Wanted(job, act, now))
  {
    hide Wanted;
    hide Backed;
    if act.Finish? || act.Verified? || act.Pause? { ServiceKeepsBacked(job, act, now); }
    else if act.Hook? || act.ToolHook? { HooksKeepBacked(job, act, now); }
    else if BySupervisor(act) { SupervisorKeepsBacked(job, act, now); }
    else { OthersKeepBacked(job, act, now); }
  }

  lemma DoneBacked(job: Job, act: Act, now: nat)
    requires Backed(job) && job.terms.policy == VerifiedSuccess && Sensible(act)
    ensures Backed(Done(job, act, now))
  {
    hide Wanted;
    hide Valid;
    hide Backed;
    hide Sensible;
    WantedBacked(job, act, now);
  }

  /**
   In every reachable state of a verified_success job, from its creation on and whoever writes it, a shutdown
   that is granted, intended or counting down has its evidence: the completion was accepted, finish was observed
   in the turn that stopped, and unless the profile is `none` the verifier passed.
   */
  lemma {:induction false} EveryGrantIsBacked(job: Job, acts: seq<(Act, nat)>, n: nat)
    requires (job.state == ArmPendingBind || job.state == Armed) && job.terms.policy == VerifiedSuccess
    requires AllSensible(acts) && n <= |acts|
    ensures var now := At(job, acts, n);
      && Backed(now)
      && (Granted(now.state) ==>
            && now.completionEvidenceHash != "" && now.finishObserved
            && now.readyTurnID != "" && now.readyTurnID == now.stopTurnID
            && (now.terms.verifierProfile != "none" ==> now.verifierPassed))
  {
    hide Done;
    hide Sensible;
    if n > 0 {
      EveryGrantIsBacked(job, acts, n - 1);
      DoneBacked(At(job, acts, n - 1), acts[n - 1].0, acts[n - 1].1);
    }
  }

  // ---------------------------------------------------------------- stale verifier results

  /**
   What one act may do to a job whose verifier runs, and how a job gets there: under the generation that its
   finish left, the turn and the completion it was started for stand, and no prompt has come.
   */
  predicate VerifyingRule(job: Job, act: Act, next: Job) {
    && job.generation <= next.generation
    && (next.state == Verifying && job.state != Verifying ==> act.Finish? && job.generation < next.generation)
    && (next.state == Verifying && job.state == Verifying && next.generation == job.generation ==>
          next.readyTurnID == job.readyTurnID && next.completionEvidenceHash == job.completionEvidenceHash
          && !(act.Hook? && act.event == HookEvent.Prompt))
  }

  lemma FinishStartedRule(job: Job, completion: Completion, now: nat)
    ensures VerifyingRule(job, Act.Finish(completion), FinishStarted(job, completion, now))
  {
    hide FinishNotDone;
    hide FinishUnproven;
    hide FinishAccepted;
    hide ServiceExpired;
    ExpiredRule(job);
    FinishRule(job, completion);
  }

  lemma ExpiredRule(job: Job)
    ensures ServiceExpired(job).generation == job.generation + 1 && ServiceExpired(job).state == Expired
  {
  }

  lemma VerifierFinishedRule(job: Job, act: Act, expected: nat, passed: bool, now: nat)
    requires NotAPrompt(act)
    ensures VerifyingRule(job, act, VerifierFinished(job, expected, passed, now))
  {
    hide ServiceExpired;
    ExpiredRule(job);
  }

  lemma PausedRule(job: Job, act: Act, reason: string, now: nat)
    requires NotAPrompt(act)
    ensures VerifyingRule(job, act, Paused(job, reason, now))
  {
    hide ServiceExpired;
    hide EvidenceCleared;
    hide Ended;
    CountedFacts();
    ExpiredRule(job);
  }

  lemma ServiceRule(job: Job, act: Act, now: nat)
    requires job.terms.policy == VerifiedSuccess && (act.Finish? || act.Verified? || act.Pause?)
    ensures VerifyingRule(job, act, Wanted(job, act, now))
  {
    hide VerifyingRule;
    match act
    case Finish(completion) => FinishStartedRule(job, completion, now);
    case Verified(expected, passed) => VerifierFinishedRule(job, act, expected, passed, now);
    case Pause(reason) => PausedRule(job, act, reason, now);
  }

  lemma FinishRule(job: Job, completion: Completion)
    ensures FinishNotDone(job, completion).generation == job.generation + 1
    ensures FinishNotDone(job, completion).state == NotDone
    ensures FinishUnproven(job, completion).generation == job.generation + 1
    ensures FinishUnproven(job, completion).state == VerificationFailed
    ensures FinishAccepted(job, completion).generation == job.generation + 1
  {
  }

  lemma CountedFacts()
    ensures forall job: Job {:trigger EvidenceCleared(job)} ::
      EvidenceCleared(job).state == job.state && EvidenceCleared(job).generation == job.generation
    ensures forall job: Job, state: State, reason: string {:trigger Ended(job, state, reason)} ::
      Ended(job, state, reason).state == state && Ended(job, state, reason).generation == job.generation + 1
  {
  }

  /** A hook never starts a verifier, and one that leaves it running leaves the job alone. */
  predicate NoVerifier(job: Job, next: Job) {
    && job.generation <= next.generation
    && (next.state == Verifying ==> next == job)
  }

  lemma EndedNoVerifier(job: Job, state: State, reason: string, turnID: string)
    requires state != Verifying
    ensures NoVerifier(job, CompletionCleared(Ended(job, state, reason)))
    ensures NoVerifier(job, CompletionCleared(Ended(job, state, reason).(currentTurnID := turnID)))
    ensures CompletionCleared(Ended(job, state, reason)).state == state
    ensures CompletionCleared(Ended(job, state, reason).(currentTurnID := turnID)).state == state
  {
  }

  lemma RequestedNoVerifier(job: Job, reason: string)
    requires job.Unresolved()
    ensures NoVerifier(job, Requested(job, reason))
  {
  }

  lemma PromptNoVerifier(job: Job, input: HookInput, now: nat)
    requires job.terms.policy == VerifiedSuccess
    ensures NoVerifier(job, LegacyPrompt(job, input, now))
    ensures job.state == Verifying ==> LegacyPrompt(job, input, now).state != Verifying
  {
    hide Ended;
    hide CompletionCleared;
    hide Requested;
    hide NoVerifier;
    if job.state.IsTerminal() {
      SameNoVerifier(job);
    } else if job.Unresolved() {
      RequestedNoVerifier(job, "new_prompt_requested_power_cancel");
    } else if job.ExpiredAt(now) {
      EndedNoVerifier(job, Expired, "arm_expired", "");
    } else {
      EndedNoVerifier(job, Armed, "new_prompt_invalidated_evidence", input.turnID);
    }
  }

  lemma StopNoVerifier(job: Job, input: HookInput, now: nat)
    requires job.terms.policy == VerifiedSuccess
    ensures NoVerifier(job, LegacyStop(job, input, now))
  {
    hide Ended;
    hide CompletionCleared;
    hide Requested;
    hide AfterStopStop;
    hide VerifiedStop;
    hide NoVerifier;
    if job.state.IsTerminal() {
      SameNoVerifier(job);
    } else if job.Unresolved() {
      SameNoVerifier(job);
      RequestedNoVerifier(job, "continuation_after_stop_requested_power_cancel");
    } else if job.ExpiredAt(now) {
      EndedNoVerifier(job, Expired, "arm_expired", "");
    } else {
      MatchingStopNoVerifier(job, input);
    }
  }

  lemma SessionEndNoVerifier(job: Job)
    requires job.terms.policy == VerifiedSuccess
    ensures NoVerifier(job, LegacySessionEnd(job))
  {
    hide Ended;
    hide CompletionCleared;
    hide Requested;
    hide NoVerifier;
    if job.state.IsTerminal() {
      SameNoVerifier(job);
    } else if job.Unresolved() {
      RequestedNoVerifier(job, "session_end_requested_power_cancel");
    } else {
      EndedNoVerifier(job, Expired, "session_ended", "");
    }
  }

  lemma LegacyHookNoVerifier(job: Job, event: HookEvent, input: HookInput, now: nat)
    requires job.terms.policy == VerifiedSuccess
    ensures NoVerifier(job, HookStep(job, event, None, input, now))
    ensures event.Prompt? && job.state == Verifying ==> HookStep(job, event, None, input, now).state != Verifying
  {
    hide LegacyPrompt;
    hide LegacyStop;
    hide LegacySessionEnd;
    hide NoVerifier;
    match event
    case Prompt => PromptNoVerifier(job, input, now);
    case Stop => StopNoVerifier(job, input, now);
    case SessionEnd => SessionEndNoVerifier(job);
  }

  lemma SameNoVerifier(job: Job)
    ensures NoVerifier(job, job)
  {
  }

  lemma MatchingStopNoVerifier(job: Job, input: HookInput)
    ensures NoVerifier(job, VerifiedStop(job, input))
  {
    hide CompletionCleared;
    hide Ended;
    EndedNoVerifier(job, Armed, "stop_turn_mismatch", input.turnID);
  }

  lemma ToolNoVerifier(job: Job, tool: Tool, input: HookInput, now: nat)
    ensures NoVerifier(job, ToolStep(job, tool, input, now))
  {
    hide Ended;
    hide CompletionCleared;
    hide Requested;
    hide ControllerMatches;
    hide NoVerifier;
    SameNoVerifier(job);
    if tool == CancelTool {
    } else if !ControllerMatches(job, input) {
      if job.Unresolved() { RequestedNoVerifier(job, "tool_session_mismatch_after_power_intent"); }
      EndedNoVerifier(job, HookUnavailable, "tool_session_mismatch", "");
    } else if job.state.IsActive() && job.ExpiredAt(now) {
      EndedNoVerifier(job, Expired, "arm_expired", "");
    } else if tool == Tool.Finish && job.state == ReadyPendingStop {
      EndedNoVerifier(job, Armed, "finish_turn_mismatch", input.turnID);
      FinishObservedNoVerifier(job);
    }
  }

  lemma FinishObservedNoVerifier(job: Job)
    requires job.state == ReadyPendingStop
    ensures NoVerifier(job, job.(finishObserved := true, reasonCode := "finish_hook_observed"))
  {
  }

  lemma SnapshotRule(job: Job, phase: Phase, seen: Job, snapshot: SupervisorModule.Snapshot)
    ensures VerifyingRule(job, Act.Snapshot(phase, seen, snapshot), OrSame(job, Captured(phase, seen, snapshot, job)))
  {
  }

  predicate NotAPrompt(act: Act) {
    act.Hook? ==> act.event != HookEvent.Prompt
  }

  lemma ClosedRule(job: Job, act: Act, state: State, reason: string)
    requires NotAPrompt(act) && state.IsTerminal()
    ensures VerifyingRule(job, act, OrSame(job, Closed(state, reason, job)))
  {
  }

  lemma IntendedRule(job: Job, act: Act, g: nat, receipt: Receipt, now: nat, capabilities: Capabilities)
    requires NotAPrompt(act)
    ensures VerifyingRule(job, act, OrSame(job, Intended(g, receipt, now, capabilities, job)))
  {
  }

  lemma ScheduledRule(job: Job, act: Act, g: nat, receipt: Receipt)
    requires NotAPrompt(act)
    ensures VerifyingRule(job, act, OrSame(job, Scheduled(g, receipt, job)))
  {
  }

  lemma AbortedRule(job: Job, act: Act, reason: string)
    requires NotAPrompt(act)
    ensures VerifyingRule(job, act, OrSame(job, Aborted(reason, job)))
  {
  }

  lemma SettledRule(job: Job, act: Act, confirmed: bool, reason: string)
    requires NotAPrompt(act)
    ensures VerifyingRule(job, act, OrSame(job, SupervisorModule.Settled(confirmed, reason, job)))
  {
  }

  lemma RolledBackRule(job: Job, act: Act, confirmed: bool, reason: string)
    requires NotAPrompt(act)
    ensures VerifyingRule(job, act, OrSame(job, RolledBackFrom(job, confirmed, reason)))
  {
  }

  lemma UnknownOutcomeRule(job: Job, act: Act)
    requires NotAPrompt(act)
    ensures VerifyingRule(job, act, OrSame(job, OutcomeUnknown(job)))
  {
  }

  /** The cancel worker's request leaves a verifier running, but not its generation: its result is not credited. */
  lemma RevokedRule(job: Job, act: Act, revocation: Revocation)
    requires NotAPrompt(act)
    ensures VerifyingRule(job, act, OrSame(job, Revoked(job, revocation)))
  {
  }

  lemma BoundRule(job: Job, act: Act, sessionID: string, turnID: string, workspace: Path)
    requires NotAPrompt(act)
    ensures VerifyingRule(job, act, BoundBy(job, sessionID, turnID, workspace))
  {
  }

  lemma StoreExpiredRule(job: Job, act: Act, now: nat)
    requires NotAPrompt(act)
    ensures VerifyingRule(job, act, StoreExpired(job, now))
  {
    hide StoreModule.LateArm;
    hide Job.ExpiredAt;
  }

  lemma TerminatedRule(job: Job, act: Act, state: State, reason: string, counted: bool)
    requires state.IsTerminal()
    ensures VerifyingRule(job, act, Terminated(job, state, reason, counted))
  {
  }

  lemma OthersRule(job: Job, act: Act, now: nat)
    requires job.terms.policy == VerifiedSuccess && Sensible(act)
    requires act.Revoke? || act.Bind? || act.Expire? || act.Terminate?
    ensures VerifyingRule(job, act, Wanted(job, act, now))
  {
    hide VerifyingRule;
    hide OrSame;
    hide Revoked;
    hide BoundBy;
    hide StoreExpired;
    match act
    case Revoke(revocation) => RevokedRule(job, act, revocation);
    case Bind(sessionID, turnID, workspace) => BoundRule(job, act, sessionID, turnID, workspace);
    case Expire => StoreExpiredRule(job, act, now);
    case Terminate(state, reason, counted) => TerminatedRule(job, act, state, reason, counted);
  }

  lemma SupervisorRule(job: Job, act: Act, now: nat)
    requires job.terms.policy == VerifiedSuccess && Sensible(act)
    requires BySupervisor(act) && !act.Snapshot?
    ensures VerifyingRule(job, act, Wanted(job, act, now))
  {
    hide VerifyingRule;
    hide OrSame;
    match act
    case Fail(state, reason) => ClosedRule(job, act, state, reason);
    case Intend(g, receipt, capabilities) => IntendedRule(job, act, g, receipt, now, capabilities);
    case Schedule(g, receipt) => ScheduledRule(job, act, g, receipt);
    case Abort(reason) => AbortedRule(job, act, reason);
    case Settle(confirmed, reason) => SettledRule(job, act, confirmed, reason);
    case RollBack(confirmed, reason) => RolledBackRule(job, act, confirmed, reason);
    case UnknownOutcome => UnknownOutcomeRule(job, act);
  }

  lemma SameRule(job: Job, act: Act)
    requires !(act.Hook? && act.event == HookEvent.Prompt)
    ensures VerifyingRule(job, act, job)
  {
  }

  /** A prompt while the verifier runs is a write the store accepts. */
  lemma PromptAtVerifyingIsValid(job: Job, input: HookInput, now: nat)
    requires Valid(job) && job.terms.policy == VerifiedSuccess && job.state == Verifying
    ensures Valid(LegacyPrompt(job, input, now))
  {
    hide Ended;
    hide CompletionCleared;
    hide Valid;
    RearmedIsValid(job, Expired, "arm_expired", "");
    RearmedIsValid(job, Armed, "new_prompt_invalidated_evidence", input.turnID);
  }

  lemma RearmedIsValid(job: Job, state: State, reason: string, turnID: string)
    requires Valid(job) && job.terms.policy == VerifiedSuccess && job.state == Verifying
    requires state == Armed || state == Expired
    ensures Valid(CompletionCleared(Ended(job, state, reason)))
    ensures Valid(CompletionCleared(Ended(job, state, reason).(currentTurnID := turnID)))
  {
  }

  lemma DoneRule(job: Job, act: Act, now: nat)
    requires Valid(job) && job.terms.policy == VerifiedSuccess && Sensible(act)
    ensures VerifyingRule(job, act, Done(job, act, now)) && Valid(Done(job, act, now))
  {
    hide Valid;
    hide VerifyingRule;
    if act.Finish? || act.Verified? || act.Pause? {
      ServiceRule(job, act, now);
      SameRule(job, act);
    } else if act.Hook? {
      LegacyHookNoVerifier(job, act.event, act.input, now);
      NoVerifierRule(job, act, Wanted(job, act, now));
      if act.event.Prompt? {
        if job.state == Verifying { PromptAtVerifyingIsValid(job, act.input, now); } else { IdleRule(job, act); }
      } else { SameRule(job, act); }
    } else if act.ToolHook? {
      ToolNoVerifier(job, act.tool, act.input, now);
      NoVerifierRule(job, act, Wanted(job, act, now));
      SameRule(job, act);
    } else if act.Snapshot? {
      SnapshotRule(job, act.phase, act.seen, act.snapshot);
      SameRule(job, act);
    } else if act.Revoke? || act.Bind? || act.Expire? || act.Terminate? {
      OthersRule(job, act, now);
      SameRule(job, act);
    } else {
      SupervisorRule(job, act, now);
      SameRule(job, act);
    }
  }

  lemma NoVerifierRule(job: Job, act: Act, next: Job)
    requires NoVerifier(job, next)
    requires act.Hook? && act.event == HookEvent.Prompt && job.state == Verifying ==> next.state != Verifying
    ensures VerifyingRule(job, act, next)
  {
  }

  lemma IdleRule(job: Job, act: Act)
    requires job.state != Verifying
    ensures VerifyingRule(job, act, job)
  {
  }

  lemma {:induction false} RunRule(job: Job, acts: seq<(Act, nat)>, s: nat, n: nat)
    requires Valid(job) && job.terms.policy == VerifiedSuccess && AllSensible(acts) && s <= n <= |acts|
    ensures Valid(At(job, acts, n)) && At(job, acts, s).generation <= At(job, acts, n).generation
    ensures At(job, acts, n).state == Verifying && At(job, acts, s).state != Verifying ==>
      At(job, acts, s).generation < At(job, acts, n).generation
    ensures (At(job, acts, s).state == Verifying && At(job, acts, n).state == Verifying
             && At(job, acts, s).generation == At(job, acts, n).generation) ==>
        && At(job, acts, s).readyTurnID == At(job, acts, n).readyTurnID
        && At(job, acts, s).completionEvidenceHash == At(job, acts, n).completionEvidenceHash
  {
    hide Done;
    hide Valid;
    if s < n {
      RunRule(job, acts, s, n - 1);
      DoneRule(At(job, acts, n - 1), acts[n - 1].0, acts[n - 1].1);
    } else if n > 0 {
      RunRule(job, acts, n - 1, n - 1);
      DoneRule(At(job, acts, n - 1), acts[n - 1].0, acts[n - 1].1);
    }
  }

  /**
   A verifier result is never credited to another turn than the one it was started for: if the result of the
   verifier that act `s` started is accepted as act `i`, no prompt came in between, and the turn made ready is
   the turn that was current when that finish was called.
   */
  lemma CreditedVerifierSawNoPrompt(job: Job, acts: seq<(Act, nat)>, s: nat, i: nat, m: nat)
    requires Valid(job) && job.terms.policy == VerifiedSuccess && AllSensible(acts)
    requires s < m < i < |acts| && acts[s].0.Finish?
    requires At(job, acts, s).state != Verifying && At(job, acts, s + 1).state == Verifying
    requires acts[i].0 == Verified(At(job, acts, s + 1).generation, true)
    requires At(job, acts, i).state == Verifying && At(job, acts, i + 1).state == ReadyPendingStop
    ensures !(acts[m].0.Hook? && acts[m].0.event == HookEvent.Prompt)
    ensures At(job, acts, m).state == Verifying && At(job, acts, m).generation == At(job, acts, s + 1).generation
    ensures At(job, acts, i + 1).readyTurnID == At(job, acts, s).currentTurnID
    ensures At(job, acts, i + 1).verifierPassed
  {
    hide Done;
    hide Valid;
    hide Sensible;
    RunRule(job, acts, 0, s);
    RunRule(job, acts, s + 1, m);
    RunRule(job, acts, m, m + 1);
    RunRule(job, acts, m, i);
    RunRule(job, acts, m + 1, i);
    RunRule(job, acts, s + 1, i);
    CreditNeedsItsGeneration(At(job, acts, i), acts[i].0.expected, acts[i].1);
    FinishReadiesCurrentTurn(At(job, acts, s), acts[s].0.completion, acts[s].1);
    DoneRule(At(job, acts, m), acts[m].0, acts[m].1);
  }

  lemma CreditNeedsItsGeneration(job: Job, expected: nat, now: nat)
    requires job.terms.policy == VerifiedSuccess && job.state == Verifying
    requires Done(job, Verified(expected, true), now).state == ReadyPendingStop
    ensures job.generation == expected && Done(job, Verified(expected, true), now).readyTurnID == job.readyTurnID
    ensures Done(job, Verified(expected, true), now).verifierPassed
  {
    hide Valid;
    hide ServiceExpired;
    ExpiredRule(job);
  }

  lemma ReadyTurn(job: Job, completion: Completion, state: State, reason: string)
    ensures FinishReady(job, completion, state, reason).readyTurnID == job.currentTurnID
  {
  }

  lemma FinishReadiesCurrentTurn(job: Job, completion: Completion, now: nat)
    requires job.terms.policy == VerifiedSuccess && job.state != Verifying
    requires Done(job, Act.Finish(completion), now).state == Verifying
    ensures Done(job, Act.Finish(completion), now).readyTurnID == job.currentTurnID
  {
    hide Valid;
    hide ServiceExpired;
    hide FinishNotDone;
    hide FinishUnproven;
    hide FinishReady;
    ExpiredRule(job);
    FinishRule(job, completion);
    ReadyTurn(job, completion, ReadyPendingStop, "completion_policy_passed_agent_only");
    ReadyTurn(job, completion, Verifying, "verifier_started");
  }
}
