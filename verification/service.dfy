/**
 The state mutators of finish and pause as the MCP service runs them on a job record, field by field
 (internal/pluginapi/service.go). Each is proved to be its Evidence function.
 */
module ServiceModule {
  import opened Wrappers
  import opened Actions
  import opened PluginJob
  import opened HookSteps
  import opened HookObserver
  import opened Evidence

  /** The service's clearCompletion. */
  method ClearEvidence(job: JobRecord)
    modifies job
    ensures job.View() == EvidenceCleared(old(job.View()))
  {
    ClearFinish(job);
    ClearHostEvidence(job);
    job.verifierPassed := false;
  }

  method Expire(job: JobRecord, now: nat) returns (expired: bool)
    modifies job
    ensures expired == Expires(old(job.View()), now)
    ensures job.View() == if expired then ServiceExpired(old(job.View())) else old(job.View())
  {
    hide JobRecord.Own;
    hide JobRecord.View;
    hide EvidenceCleared;
    hide Ended;
    job.Fields();
    expired := job.state.IsActive() && job.state != ActionIntent && job.state != ActionScheduled && job.ExpiredAt(now);
    if expired {
      End(job, Expired, "arm_expired");
      ClearEvidence(job);
    }
  }

  method CountCompletion(job: JobRecord, completion: Completion)
    modifies job
    ensures job.View() == old(job.View()).(generation := old(job.View()).generation + 1,
                                           completionStatus := completion.status, verifierPassed := false)
  {
    job.generation := job.generation + 1;
    job.completionStatus := completion.status;
    job.verifierPassed := false;
  }

  method SetEvidence(job: JobRecord, hash: string, readyTurnID: string)
    modifies job
    ensures job.View() == old(job.View()).(completionEvidenceHash := hash, readyTurnID := readyTurnID)
  {
    job.completionEvidenceHash, job.readyTurnID := hash, readyTurnID;
  }

  method ForgetStop(job: JobRecord)
    modifies job
    ensures job.View() == old(job.View()).(stopTurnID := "", finishObserved := false)
  {
    job.stopTurnID := "";
    job.finishObserved := false;
  }

  method ForgetLaterSnapshots(job: JobRecord)
    modifies job
    ensures job.View() == old(job.View()).(hookFingerprintH2 := "", hookFingerprintH3 := "")
  {
    job.hookFingerprintH2, job.hookFingerprintH3 := "", "";
  }

  method RejectCompletion(job: JobRecord, completion: Completion)
    modifies job
    ensures job.View() == FinishNotDone(old(job.View()), completion)
  {
    hide JobRecord.View;
    CountCompletion(job, completion);
    MoveTo(job, NotDone, "completion_policy_rejected");
    SetEvidence(job, "", "");
  }

  method DemandEvidence(job: JobRecord, completion: Completion)
    modifies job
    ensures job.View() == FinishUnproven(old(job.View()), completion)
  {
    hide JobRecord.View;
    CountCompletion(job, completion);
    MoveTo(job, VerificationFailed, "independent_evidence_required");
    SetEvidence(job, "", "");
    ForgetStop(job);
  }

  method RecordReady(job: JobRecord, completion: Completion, state: State, reason: string)
    modifies job
    ensures job.View() == FinishReady(old(job.View()), completion, state, reason)
  {
    job.Fields();
    hide JobRecord.View;
    hide JobRecord.Own;
    var turn := job.currentTurnID;
    CountCompletion(job, completion);
    SetEvidence(job, completion.hash, turn);
    ForgetStop(job);
    ForgetLaterSnapshots(job);
    MoveTo(job, state, reason);
  }

  method AcceptCompletion(job: JobRecord, completion: Completion)
    modifies job
    ensures job.View() == FinishAccepted(old(job.View()), completion)
  {
    job.Fields();
    hide JobRecord.View;
    hide JobRecord.Own;
    hide FinishReady;
    if job.fixed.terms.verifierProfile == "none" {
      RecordReady(job, completion, ReadyPendingStop, "completion_policy_passed_agent_only");
    } else {
      RecordReady(job, completion, Verifying, "verifier_started");
    }
  }

  /** The first update of finish. */
  method StartFinish(job: JobRecord, completion: Completion, now: nat)
    modifies job
    ensures job.View() == FinishStarted(old(job.View()), completion, now)
  {
    hide JobRecord.Own;
    hide JobRecord.View;
    hide ServiceExpired;
    hide FinishNotDone;
    hide FinishUnproven;
    hide FinishAccepted;
    job.Fields();
    var expired := Expire(job, now);
    if expired { return; }
    job.Fields();
    if job.state != Armed && job.state != HostMonitoring { return; }
    if !completion.done { RejectCompletion(job, completion); return; }
    if job.fixed.terms.verifierProfile == "none" && !job.fixed.terms.allowAgentOnlySuccess {
      DemandEvidence(job, completion);
      return;
    }
    AcceptCompletion(job, completion);
  }

  method SetVerifierPassed(job: JobRecord, passed: bool)
    modifies job
    ensures job.View() == old(job.View()).(verifierPassed := passed)
  {
    job.verifierPassed := passed;
  }

  method PassVerifier(job: JobRecord)
    modifies job
    ensures job.View() == VerifierCredited(old(job.View()))
  {
    hide JobRecord.View;
    SetVerifierPassed(job, true);
    MoveTo(job, ReadyPendingStop, "completion_and_verifier_passed");
  }

  method FailVerifier(job: JobRecord)
    modifies job
    ensures job.View() == VerifierRejected(old(job.View()))
  {
    hide JobRecord.View;
    MoveTo(job, VerificationFailed, "verifier_failed");
    SetVerifierPassed(job, false);
    SetEvidence(job, "", "");
  }

  /** The second update of finish, after the verifier ran. */
  method RecordVerifier(job: JobRecord, expected: nat, passed: bool, now: nat)
    modifies job
    ensures job.View() == VerifierFinished(old(job.View()), expected, passed, now)
  {
    hide JobRecord.Own;
    hide JobRecord.View;
    hide VerifierCredited;
    hide VerifierRejected;
    hide ServiceExpired;
    var expired := Expire(job, now);
    if expired { return; }
    job.Fields();
    if job.state != Verifying || job.generation != expected { return; }
    if !passed { FailVerifier(job); return; }
    PassVerifier(job);
  }

  method PauseJob(job: JobRecord, reason: string, now: nat)
    modifies job
    ensures job.View() == Paused(old(job.View()), reason, now)
  {
    hide JobRecord.Own;
    hide JobRecord.View;
    hide ServiceExpired;
    hide EvidenceCleared;
    hide Ended;
    var expired := Expire(job, now);
    if expired { return; }
    job.Fields();
    if job.state != Armed && job.state != HostMonitoring && job.state != ReadyPendingStop && job.state != StopObserved {
      return;
    }
    End(job, Waiting, reason);
    ClearEvidence(job);
  }
}
