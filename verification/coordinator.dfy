/**
 The classic coordinator: one foreground run from ARMED to an outcome, with every answer of the agent, the
 verifier, the store and the backend arbitrary (internal/supervisor/coordinator.go, machine.go, job.go).

 A Save that reports failure may still have reached the disk. What the run has put on disk and what it asked
 of the backend is kept as a history.
 */
module ClassicCoordinator {
  import opened Wrappers
  import opened Actions

  datatype State =
    | Armed | AgentRunning | Evaluating | Verifying | IntentRecorded | Scheduled | DryRunComplete | NotDone
    | AgentFailed | InvalidCompletion | VerificationFailed | ActionFailed | ExecutionUnverified | ExecutedConfirmed
    | Cancelled | Orphaned
  {
    predicate IsTerminal() {
      match this
      case Armed | AgentRunning | Evaluating | Verifying | IntentRecorded | Scheduled => false
      case _ => true
    }
  }

  /** allowedTransitions. */
  predicate Allowed(from: State, to: State) {
    match from
    case Armed => to in {AgentRunning, Cancelled, Orphaned}
    case AgentRunning => to in {Evaluating, AgentFailed, Cancelled, Orphaned}
    case Evaluating =>
      to in {Verifying, IntentRecorded, ActionFailed, DryRunComplete, NotDone, InvalidCompletion, Cancelled, Orphaned}
    case Verifying => to in {IntentRecorded, ActionFailed, DryRunComplete, VerificationFailed, Cancelled, Orphaned}
    case IntentRecorded => to in {Scheduled, ActionFailed, Cancelled, ExecutionUnverified, ExecutedConfirmed}
    case Scheduled => to in {Cancelled, ExecutionUnverified, ExecutedConfirmed}
    case ExecutionUnverified => to == ExecutedConfirmed
    case _ => false
  }

  datatype Job = Job(
    state: State, reasonCode: string, cancelRequested: bool, receipt: Option<Receipt>, scheduledFor: Option<nat>)

  datatype ExitCode = ExitOK | ExitAgentFailed | ExitInvalid | ExitNotDone | ExitVerifier | ExitAction | ExitState
                    | ExitCancelled | ExitInterrupted

  datatype Outcome = Outcome(state: State, exit: ExitCode, mayBeScheduled: bool)

  /** What the agent, the completion and the verifier turn out to be. */
  datatype Answers = Answers(
    interrupted: bool, agentOk: bool, completionValid: bool, done: bool, verifyInterrupted: bool, verified: bool)

  datatype Event =
    | Saved(job: Job)                    // reached the disk
    | ScheduleCalled(request: PowerRequest)
    | ScheduleReturned(receipt: Option<Receipt>)
    | CancelReturned(confirmed: bool)    // nil, or no shutdown in progress

  // ---------------------------------------------------------------- histories

  function OnDisk(log: seq<Event>): Option<Job> {
    if log == [] then None
    else if log[|log| - 1].Saved? then Some(log[|log| - 1].job)
    else OnDisk(log[..|log| - 1])
  }

  /** A record may be written over what is on disk: the first is ARMED, later ones repeat the state or move legally. */
  predicate MayFollow(before: Option<Job>, job: Job) {
    if before.None? then job.state == Armed
    else before.value.state == job.state || Allowed(before.value.state, job.state)
  }

  predicate LegalAt(log: seq<Event>, i: nat)
    requires i < |log|
  {
    match log[i]
    case Saved(job) => MayFollow(OnDisk(log[..i]), job)
    case ScheduleCalled(_) =>
      && !HasScheduleCall(log[..i])
      && OnDisk(log[..i]).Some? && OnDisk(log[..i]).value.state == IntentRecorded
      && OnDisk(log[..i]).value.receipt.Some?
    case ScheduleReturned(_) => HasScheduleCall(log[..i])
    case CancelReturned(_) => HasScheduleCall(log[..i])
  }

  predicate Legal(log: seq<Event>) {
    forall i :: 0 <= i < |log| ==> LegalAt(log, i)
  }

  predicate HasScheduleCall(log: seq<Event>) {
    exists i :: 0 <= i < |log| && log[i].ScheduleCalled?
  }

  predicate HasConfirmedCancel(log: seq<Event>) {
    exists i :: 0 <= i < |log| && log[i] == CancelReturned(true)
  }

  predicate Extends(log: seq<Event>, event: Event) {
    match event
    case Saved(job) => MayFollow(OnDisk(log), job)
    case ScheduleCalled(_) =>
      && !HasScheduleCall(log)
      && OnDisk(log).Some? && OnDisk(log).value.state == IntentRecorded && OnDisk(log).value.receipt.Some?
    case ScheduleReturned(_) => HasScheduleCall(log)
    case CancelReturned(_) => HasScheduleCall(log)
  }

  lemma LegalExtends(log: seq<Event>, event: Event)
    requires Legal(log) && Extends(log, event)
    ensures Legal(log + [event])
    ensures OnDisk(log + [event]) == if event.Saved? then Some(event.job) else OnDisk(log)
    ensures HasScheduleCall(log + [event]) == (HasScheduleCall(log) || event.ScheduleCalled?)
    ensures HasConfirmedCancel(log + [event]) == (HasConfirmedCancel(log) || event == CancelReturned(true))
  {
    var longer := log + [event];
    assert longer[..|log|] == log;
    forall i | 0 <= i < |longer| ensures LegalAt(longer, i) {
      if i < |log| { assert longer[..i] == log[..i] && LegalAt(log, i); }
    }
    if HasScheduleCall(log) {
      var i :| 0 <= i < |log| && log[i].ScheduleCalled?;
      assert longer[i].ScheduleCalled?;
    }
    if event.ScheduleCalled? { assert longer[|log|].ScheduleCalled?; }
    if HasConfirmedCancel(log) {
      var i :| 0 <= i < |log| && log[i] == CancelReturned(true);
      assert longer[i] == CancelReturned(true);
    }
    if event == CancelReturned(true) { assert longer[|log|] == CancelReturned(true); }
  }

  /** The schedule call is the only one of its run, and the intent with its receipt was on disk when it was made. */
  lemma ScheduleOnceAfterIntent(log: seq<Event>, i: nat, k: nat)
    requires Legal(log) && i < |log| && k < |log| && log[i].ScheduleCalled? && log[k].ScheduleCalled?
    ensures i == k
    ensures OnDisk(log[..i]).Some? && OnDisk(log[..i]).value.state == IntentRecorded
    ensures OnDisk(log[..i]).value.receipt.Some?
  {
    assert LegalAt(log, i) && LegalAt(log, k);
    assert forall j :: 0 <= j < k ==> log[..k][j] == log[j];
    assert forall j :: 0 <= j < i ==> log[..i][j] == log[j];
  }

  // ---------------------------------------------------------------- the machine

  predicate Walk(states: seq<State>) {
    forall i :: 0 < i < |states| ==> states[i - 1] == states[i] || Allowed(states[i - 1], states[i])
  }

  /** No walk of the machine reaches a countdown from ARMED without an intent on the way. */
  lemma {:induction false} ScheduledNeedsIntent(states: seq<State>)
    requires states != [] && Walk(states) && states[0] == Armed && states[|states| - 1] == Scheduled
    ensures exists i :: 0 < i < |states| - 1 && states[i] == IntentRecorded
  {
    var n := |states| - 1;
    var before := states[..n];
    assert states[n - 1] == Scheduled || states[n - 1] == IntentRecorded;
    if states[n - 1] == Scheduled {
      assert Walk(before);
      ScheduledNeedsIntent(before);
      var i :| 0 < i < |before| - 1 && before[i] == IntentRecorded;
      assert states[i] == IntentRecorded;
    } else {
      assert n - 1 > 0;
      assert 0 < n - 1 < |states| - 1 && states[n - 1] == IntentRecorded;
    }
  }

  /** A settled job stays settled: the only way on from a terminal state confirms an execution. */
  lemma {:induction false} TerminalIsFinal(states: seq<State>, i: nat, k: nat)
    requires Walk(states) && i <= k < |states| && states[i].IsTerminal()
    ensures states[k] == states[i] || (states[i] == ExecutionUnverified && states[k] == ExecutedConfirmed)
  {
    if i < k { TerminalIsFinal(states, i, k - 1); }
  }

  /** The states the disk went through. */
  function DiskStates(log: seq<Event>): seq<State> {
    if log == [] then []
    else DiskStates(log[..|log| - 1]) + if log[|log| - 1].Saved? then [log[|log| - 1].job.state] else []
  }

  /** The disk history of a legal run is a walk of the machine that starts at ARMED. */
  lemma {:induction false} DiskWalks(log: seq<Event>)
    requires Legal(log)
    ensures Walk(DiskStates(log))
    ensures DiskStates(log) != [] ==> DiskStates(log)[0] == Armed
    ensures OnDisk(log).None? <==> DiskStates(log) == []
    ensures OnDisk(log).Some? ==> DiskStates(log)[|DiskStates(log)| - 1] == OnDisk(log).value.state
  {
    if log != [] {
      var n := |log| - 1;
      forall i | 0 <= i < n ensures LegalAt(log[..n], i) {
        assert log[..n][..i] == log[..i] && LegalAt(log, i);
      }
      DiskWalks(log[..n]);
      assert LegalAt(log, n);
    }
  }

  // ---------------------------------------------------------------- the run

  /**
   The outcome never understates: it rules a pending shutdown out only if none was asked for or a cancel was
   confirmed. It overstates only where the cancelled state could not be saved after a confirmed rollback.
   */
  predicate Honest(log: seq<Event>, outcome: Outcome) {
    && (!outcome.mayBeScheduled ==> !HasScheduleCall(log) || HasConfirmedCancel(log))
    && (outcome.mayBeScheduled ==> HasScheduleCall(log))
    && (outcome.mayBeScheduled && HasConfirmedCancel(log) ==> outcome.state == Cancelled && outcome.exit == ExitState)
  }

  class Coordinator {
    const dryRun: bool
    const hasVerifier: bool
    const jobID: string
    const delay: int
    var job: Job
    ghost var log: seq<Event>

    constructor (jobID: string, delay: int, dryRun: bool, hasVerifier: bool)
      ensures this.dryRun == dryRun && log == []
    {
      this.jobID, this.delay, this.dryRun, this.hasVerifier := jobID, delay, dryRun, hasVerifier;
      job := Job(Armed, "job_armed", false, None, None);
      log := [];
    }

    /** The history is legal and the job in hand is the one on disk. */
    ghost predicate Synced()
      reads this
    {
      Legal(log) && OnDisk(log).Some? && OnDisk(log).value.state == job.state
    }

    method Save() returns (ok: bool)
      requires Legal(log) && MayFollow(OnDisk(log), job)
      modifies this`log
      ensures Legal(log) && (log == old(log) || log == old(log) + [Saved(job)])
      ensures OnDisk(log) == old(OnDisk(log)) || OnDisk(log) == Some(job)
      ensures HasScheduleCall(log) == old(HasScheduleCall(log))
      ensures HasConfirmedCancel(log) == old(HasConfirmedCancel(log))
      ensures ok ==> OnDisk(log) == Some(job)
    {
      ok := *;
      var landed: bool := *;
      if ok || landed {
        LegalExtends(log, Saved(job));
        log := log + [Saved(job)];
      }
    }

    /**
     move. Every caller shows that the machine allows the transition, from the state in hand and from the state
     on disk should that differ, so the rejection the program guards against cannot happen.
     */
    method Move(next: State, reason: string) returns (failed: Option<Outcome>)
      requires Legal(log) && OnDisk(log).Some?
      requires Allowed(job.state, next)
      requires OnDisk(log).value.state == job.state || Allowed(OnDisk(log).value.state, next)
      modifies this
      ensures Legal(log) && OnDisk(log).Some?
      ensures job == old(job).(state := next, reasonCode := reason)
      ensures failed.None? ==> OnDisk(log) == Some(job)
      ensures failed.Some? ==> failed.value == Outcome(next, ExitState, next == Scheduled)
      ensures OnDisk(log) == Some(job) || OnDisk(log) == old(OnDisk(log))
      ensures HasScheduleCall(log) == old(HasScheduleCall(log))
      ensures HasConfirmedCancel(log) == old(HasConfirmedCancel(log))
    {
      job := job.(state := next, reasonCode := reason);
      var ok := Save();
      failed := if ok then None else Some(Outcome(next, ExitState, next == Scheduled));
    }

    /** Move, and an outcome either way: the storage failure, or the one given. */
    method Finish(next: State, reason: string, exit: ExitCode) returns (outcome: Outcome)
      requires Synced() && Allowed(job.state, next) && next != Scheduled
      modifies this
      ensures Legal(log) && !outcome.mayBeScheduled && outcome.state == next
      ensures outcome.exit == exit || outcome.exit == ExitState
      ensures job.state == next && (outcome.exit == ExitOK ==> OnDisk(log) == Some(job))
      ensures HasScheduleCall(log) == old(HasScheduleCall(log))
      ensures HasConfirmedCancel(log) == old(HasConfirmedCancel(log))
    {
      var failed := Move(next, reason);
      outcome := if failed.Some? then failed.value else Outcome(next, exit, false);
    }

    /** cancelled: a request, or an unreadable answer, ends the run. */
    method CheckCancelled(reason: string) returns (ended: Option<Outcome>)
      requires Synced() && Allowed(job.state, Cancelled)
      modifies this
      ensures Legal(log)
      ensures HasScheduleCall(log) == old(HasScheduleCall(log))
      ensures HasConfirmedCancel(log) == old(HasConfirmedCancel(log))
      ensures ended.None? ==> job == old(job) && log == old(log)
      ensures ended.Some? ==> !ended.value.mayBeScheduled && ended.value.exit != ExitOK
    {
      var unreadable: bool, requested: bool := *, *;
      if unreadable { return Some(Outcome(job.state, ExitState, false)); }
      if !requested { return None; }
      job := job.(cancelRequested := true);
      var outcome := Finish(Cancelled, reason, ExitCancelled);
      return Some(outcome);
    }

    // -------------------------------------------------------------- before any action

    /** The completion is done and, where there is a verifier, verified. */
    predicate GatesPassed(answers: Answers) {
      && answers.completionValid && answers.done
      && (hasVerifier ==> !answers.verifyInterrupted && answers.verified)
    }

    /** From Create to EVALUATING. */
    method RunAgent(answers: Answers) returns (ended: Option<Outcome>)
      requires log == [] && job == Job(Armed, "job_armed", false, None, None)
      modifies this
      ensures Legal(log) && !HasScheduleCall(log)
      ensures ended.None? ==> Synced() && job.state == Evaluating && !answers.interrupted && answers.agentOk
      ensures ended.Some? ==> !ended.value.mayBeScheduled && ended.value.exit != ExitOK
    {
      var created := Save();
      if !created { return Some(Outcome(Armed, ExitState, false)); }
      ended := CheckCancelled("cancelled_before_agent");
      if ended.Some? { return; }
      ended := Move(AgentRunning, "agent_started");
      if ended.Some? { return; }
      if answers.interrupted {
        var outcome := Finish(Cancelled, "foreground_interrupted", ExitInterrupted);
        return Some(outcome);
      }
      if !answers.agentOk {
        var outcome := Finish(AgentFailed, "agent_failed", ExitAgentFailed);
        return Some(outcome);
      }
      ended := CheckCancelled("cancelled_after_agent");
      if ended.Some? { return; }
      ended := Move(Evaluating, "agent_completed");
    }

    /** The completion and the verifier. */
    method Evaluate(answers: Answers) returns (ended: Option<Outcome>)
      requires Synced() && job.state == Evaluating && !HasScheduleCall(log)
      modifies this
      ensures Legal(log) && !HasScheduleCall(log)
      ensures ended.None? ==>
        Synced() && job.state == (if hasVerifier then Verifying else Evaluating) && GatesPassed(answers)
      ensures ended.Some? ==> !ended.value.mayBeScheduled && ended.value.exit != ExitOK
    {
      if !answers.completionValid {
        var outcome := Finish(InvalidCompletion, "invalid_completion", ExitInvalid);
        return Some(outcome);
      }
      if !answers.done {
        var outcome := Finish(NotDone, "completion_not_done", ExitNotDone);
        return Some(outcome);
      }
      if !hasVerifier { return None; }
      ended := Move(Verifying, "verifier_started");
      if ended.Some? { return; }
      ended := CheckCancelled("cancelled_before_verifier");
      if ended.Some? { return; }
      if answers.verifyInterrupted {
        var outcome := Finish(Cancelled, "foreground_interrupted", ExitInterrupted);
        return Some(outcome);
      }
      if !answers.verified {
        var outcome := Finish(VerificationFailed, "verifier_failed", ExitVerifier);
        return Some(outcome);
      }
      ended := CheckCancelled("cancelled_after_verifier");
    }

    /** Preflight and the intent; it continues only with the intent and its receipt on disk. */
    method RecordIntent(now: nat)
      returns (ended: Option<Outcome>, request: PowerRequest, capabilities: Capabilities, intent: Receipt)
      requires Synced() && (job.state == Evaluating || job.state == Verifying) && !HasScheduleCall(log)
      modifies this
      ensures Legal(log) && !HasScheduleCall(log)
      ensures ended.None? ==>
        Synced() && job.state == IntentRecorded && OnDisk(log) == Some(job) && job.receipt == Some(intent)
      ensures ended.Some? ==> !ended.value.mayBeScheduled && ended.value.exit != ExitOK
    {
      intent := *;
      request := PowerRequest(jobID, SHUTDOWN, delay, ClassicPowerComment(jobID), now);
      var preflightOk: bool := *;
      capabilities := *;
      ended := CheckCancelled("cancelled_before_action");
      if ended.Some? { return; }
      if !preflightOk || !capabilities.executeSupported {
        var outcome := Finish(ActionFailed, "platform_preflight_failed", ExitAction);
        ended := Some(outcome);
        return;
      }
      var built := BuildIntentReceipt(jobID, SHUTDOWN, now, delay, capabilities);
      if built.None? {
        var outcome := Finish(ActionFailed, "intent_recovery_receipt_failed", ExitState);
        ended := Some(outcome);
        return;
      }
      intent := built.value;
      job := job.(receipt := Some(intent), scheduledFor := Some(intent.body.deadline));
      ended := Move(IntentRecorded, "all_completion_gates_passed");
      if ended.Some? { return; }
      ended := CheckCancelled("cancelled_at_action_boundary");
    }

    // -------------------------------------------------------------- the action

    method CallSchedule(request: PowerRequest) returns (receipt: Option<Receipt>)
      requires Legal(log) && !HasScheduleCall(log) && OnDisk(log) == Some(job)
      requires job.state == IntentRecorded && job.receipt.Some?
      modifies this`log
      ensures Legal(log) && HasScheduleCall(log) && HasConfirmedCancel(log) == old(HasConfirmedCancel(log))
      ensures OnDisk(log) == old(OnDisk(log))
    {
      LegalExtends(log, ScheduleCalled(request));
      log := log + [ScheduleCalled(request)];
      receipt := *;
      LegalExtends(log, ScheduleReturned(receipt));
      log := log + [ScheduleReturned(receipt)];
    }

    method CallCancel(receipt: Receipt) returns (confirmed: bool)
      requires Legal(log) && HasScheduleCall(log)
      modifies this`log
      ensures Legal(log) && HasScheduleCall(log)
      ensures HasConfirmedCancel(log) == (old(HasConfirmedCancel(log)) || confirmed)
      ensures OnDisk(log) == old(OnDisk(log))
    {
      confirmed := *;
      LegalExtends(log, CancelReturned(confirmed));
      log := log + [CancelReturned(confirmed)];
    }

    /** Schedule came back with an error: nobody knows whether a shutdown is pending. */
    method OutcomeUnknown(intent: Receipt) returns (outcome: Outcome)
      requires Synced() && job.state == IntentRecorded && HasScheduleCall(log) && !HasConfirmedCancel(log)
      modifies this
      ensures Legal(log) && Honest(log, outcome) && outcome.exit != ExitOK
    {
      job := job.(reasonCode := "power_schedule_outcome_unknown");
      var saved := Save();
      if !saved { return Outcome(job.state, ExitState, true); }
      var unreadable: bool, requested: bool := *, *;
      if unreadable || requested {
        var confirmed := CallCancel(intent);
        if confirmed {
          job := job.(cancelRequested := true);
          outcome := Finish(Cancelled, if unreadable then "cancel_state_unreadable_unknown_action_rolled_back"
                                       else "cancelled_after_unknown_schedule_outcome",
                            if unreadable then ExitState else ExitCancelled);
          return;
        }
        job := job.(reasonCode := "unknown_schedule_cancel_unconfirmed");
        saved := Save();
        return Outcome(job.state, if saved then ExitAction else ExitState, true);
      }
      return Outcome(job.state, ExitAction, true);
    }

    /** The receipt does not answer the request: roll back with the intent's own handle. */
    method ReceiptInvalid(intent: Receipt) returns (outcome: Outcome)
      requires Synced() && job.state == IntentRecorded && HasScheduleCall(log) && !HasConfirmedCancel(log)
      modifies this
      ensures Legal(log) && Honest(log, outcome) && outcome.exit != ExitOK
    {
      var confirmed := CallCancel(intent);
      if confirmed {
        outcome := Finish(ActionFailed, "invalid_receipt_action_rolled_back", ExitState);
        return;
      }
      job := job.(reasonCode := "invalid_receipt_cancel_unconfirmed");
      var saved := Save();
      return Outcome(job.state, ExitState, true);
    }

    /** The countdown runs but could not be recorded. */
    method ScheduledUnsaved(receipt: Receipt) returns (outcome: Outcome)
      requires Legal(log) && HasScheduleCall(log) && !HasConfirmedCancel(log) && OnDisk(log).Some?
      requires job.state == Scheduled
      requires OnDisk(log).value.state == IntentRecorded || OnDisk(log).value.state == Scheduled
      modifies this
      ensures Legal(log) && Honest(log, outcome) && outcome.exit != ExitOK
    {
      var confirmed := CallCancel(receipt);
      if confirmed {
        var failed := Move(Cancelled, "scheduled_state_persist_failed_rolled_back");
        return if failed.Some? then failed.value.(mayBeScheduled := true) else Outcome(Cancelled, ExitState, false);
      }
      return Outcome(Scheduled, ExitState, true);
    }

    /** The last look at the cancellation request, with the countdown recorded. */
    method Recheck(receipt: Receipt) returns (outcome: Outcome)
      requires Synced() && job.state == Scheduled && HasScheduleCall(log) && !HasConfirmedCancel(log)
      modifies this
      ensures Legal(log) && Honest(log, outcome)
      ensures outcome.exit == ExitOK ==>
        job == old(job) && log == old(log) && outcome == Outcome(Scheduled, ExitOK, true)
    {
      var unreadable: bool, requested: bool := *, *;
      if !unreadable && !requested { return Outcome(Scheduled, ExitOK, true); }
      var confirmed := CallCancel(receipt);
      if !confirmed { return Outcome(Scheduled, if unreadable then ExitState else ExitAction, true); }
      job := job.(cancelRequested := true);
      var failed := Move(Cancelled, if unreadable then "cancel_state_unreadable_action_rolled_back"
                                    else "cancelled_after_schedule");
      if failed.Some? { return failed.value.(mayBeScheduled := !unreadable); }
      return Outcome(Cancelled, if unreadable then ExitState else ExitCancelled, false);
    }

    /** What an exit code of zero means. */
    ghost predicate Succeeded(outcome: Outcome, request: PowerRequest, capabilities: Capabilities)
      reads this
    {
      if dryRun then
        OnDisk(log) == Some(job) && job.state == DryRunComplete && !HasScheduleCall(log) && !outcome.mayBeScheduled
      else
        && OnDisk(log) == Some(job) && job.state == Scheduled && outcome.mayBeScheduled && !HasConfirmedCancel(log)
        && job.receipt.Some? && ValidReceiptForRequest(job.receipt.value, request, capabilities)
        && job.scheduledFor == Some(job.receipt.value.body.deadline)
    }

    /** Everything from the action boundary on. */
    method Act(now: nat) returns (outcome: Outcome, ghost request: PowerRequest, ghost capabilities: Capabilities)
      requires Synced() && (job.state == Evaluating || job.state == Verifying)
      requires !HasScheduleCall(log) && !HasConfirmedCancel(log) && !dryRun
      modifies this
      ensures Legal(log) && Honest(log, outcome)
      ensures outcome.exit == ExitOK ==> Succeeded(outcome, request, capabilities)
    {
      var ended, asked, answered, intent := RecordIntent(now);
      request, capabilities := asked, answered;
      if ended.Some? { return ended.value, request, capabilities; }
      NothingConfirmed(log);
      var receipt := CallSchedule(asked);
      if receipt.None? { outcome := OutcomeUnknown(intent); return; }
      if !ValidReceiptForRequest(receipt.value, asked, answered) { outcome := ReceiptInvalid(intent); return; }
      job := job.(receipt := Some(receipt.value), scheduledFor := Some(receipt.value.body.deadline));
      var failed := Move(Scheduled, "action_scheduled");
      if failed.Some? { outcome := ScheduledUnsaved(receipt.value); return; }
      outcome := Recheck(receipt.value);
    }

    /**
     Run. Whatever everybody answers: the disk walks the machine; Schedule is called at most once, with the intent
     on disk, and only after agent, completion and verifier have succeeded; an outcome that rules out a pending
     shutdown is right; and zero means what it says.
     */
    method Run(answers: Answers, now: nat)
      returns (outcome: Outcome, ghost request: PowerRequest, ghost capabilities: Capabilities)
      requires log == [] && job == Job(Armed, "job_armed", false, None, None)
      modifies this
      ensures Legal(log) && Honest(log, outcome)
      ensures HasScheduleCall(log) || outcome.exit == ExitOK ==>
        !answers.interrupted && answers.agentOk && GatesPassed(answers)
      ensures HasScheduleCall(log) ==> !dryRun
      ensures outcome.exit == ExitOK ==> Succeeded(outcome, request, capabilities)
    {
      request, capabilities := *, *;
      var ended := RunAgent(answers);
      if ended.Some? { return ended.value, request, capabilities; }
      ended := Evaluate(answers);
      if ended.Some? { return ended.value, request, capabilities; }
      if dryRun {
        outcome := Finish(DryRunComplete, "dry_run_complete", ExitOK);
        return;
      }
      NothingConfirmed(log);
      outcome, request, capabilities := Act(now);
    }
  }

  /** There is nothing to cancel before a schedule call. */
  lemma NothingConfirmed(log: seq<Event>)
    requires Legal(log) && !HasScheduleCall(log)
    ensures !HasConfirmedCancel(log)
  {
    forall i | 0 <= i < |log| ensures log[i] != CancelReturned(true) {
      assert LegalAt(log, i);
      assert forall j :: 0 <= j < i ==> log[..i][j] == log[j];
    }
  }
}
