/**
 The one-shot supervisor of an execute job (internal/pluginpower/supervisor.go).

 Between any two of its store, lock and backend accesses the other processes run, and the process may
 die. A poll loop is given the number of polls it lives to make; running out of them is a death too.
 Host snapshots, stop arbitration, policy, profiles and pending revocations are arbitrary answers.
 */
module SupervisorModule {
  import opened Wrappers
  import opened Actions
  import opened PluginJob
  import opened RecoveryRecords
  import opened PowerWorld
  import opened PowerMachineModule

  /** How a countdown watch ended. `Interrupted` and `LostTrack` come with an error. */
  datatype Watch = Unwatchable | SawTerminal | ConfirmedCancel | ReachedDeadline | Interrupted | LostTrack

  method Answer() returns (yes: bool)
  {
    yes := *;
  }

  method Now() returns (now: nat)
  {
    now := *;
  }

  /** Every acceptance is followed by a Backend.Cancel attempt or by ACTION_SCHEDULED at the intent's generation. */
  predicate NoLostCancellation(log: seq<Event>, from: nat) {
    forall i :: from <= i < |log| && log[i] == ScheduleReturned(true) ==>
      CancelAttempted(log, i) || ScheduledAfter(log, i)
  }

  /** The same, between two worlds of one job. */
  predicate NothingLost(w: World, w': World) {
    w'.job.terms == w.job.terms && w.log <= w'.log && NoLostCancellation(w'.log, |w.log|)
  }

  predicate ScheduledAfter(log: seq<Event>, from: nat) {
    exists i :: from <= i < |log| && log[i].ScheduledRecorded? && IntentRecorded(log[i].generation) in log[..i]
  }

  /** The grant seen at history position `since` is untouched for as long as the generation stands. */
  predicate GrantIntact(w: World, seen: Job, since: nat) {
    && seen.terms == w.job.terms && seen.state == StopObserved
    && (seen.terms.policy == AfterAllStop ==> seen.BarrierSatisfied())
    && since <= |w.log|
    && !w.job.state.IsPower()
    && seen.generation <= w.job.generation
    && (w.job.generation == seen.generation ==>
          && w.job.state == StopObserved && w.job.stopTargets == seen.stopTargets
          && w.job.cancelRequested == seen.cancelRequested
          && forall i :: since <= i < |w.log| ==> w.log[i] != Resumed)
  }

  lemma GrantStaysIntact(me: Pid, w: World, w': World, seen: Job, since: nat)
    requires GrantIntact(w, seen, since) && JobKept(me, w, w') && me == w.owner
    ensures GrantIntact(w', seen, since)
  {
    if w'.job.generation == seen.generation {
      forall i | since <= i < |w'.log| ensures w'.log[i] != Resumed {
        if i < |w.log| { assert w'.log[i] == w.log[i]; }
      }
    }
  }

  /** An intent recorded at generation `g` is the job's state until the job is settled. */
  predicate IntentStands(w: World, g: nat) {
    && (w.job.state.IsPower() || w.job.state.IsTerminal())
    && IntentRecorded(g) in w.log
    && (w.job.state.IsPower() ==> w.job.state == ActionIntent && w.job.powerReceipt.Some? && g <= w.job.generation)
  }

  /** ... and nobody has asked to cancel it while that generation stands. */
  predicate IntentUnrevoked(w: World, g: nat) {
    IntentStands(w, g) && (w.job.state.IsPower() && w.job.generation == g ==> !w.job.cancelRequested)
  }

  lemma IntentKeepsStanding(me: Pid, w: World, w': World, g: nat)
    requires IntentStands(w, g) && JobKept(me, w, w') && me == w.owner
    ensures IntentStands(w', g)
    ensures w.Holds(me) && IntentUnrevoked(w, g) ==> IntentUnrevoked(w', g)
  {
    EventStays(w.log, w'.log, IntentRecorded(g));
  }

  // ---------------------------------------------------------------- mutations of the job

  function Closed(state: State, reason: string, current: Job): (next: Option<Job>)
    ensures next.Some? ==> next.value.terms == current.terms
  {
    if current.state.IsTerminal() || current.state == ActionScheduled then Some(current)
    else Some(current.(state := state, reasonCode := reason))
  }

  lemma ClosedAllowed(a: Pid, w: World, state: State, reason: string)
    requires a == w.owner && !w.job.state.IsPower() && state.IsTerminal()
    ensures Closed(state, reason, w.job).Some?
    ensures var after := Closed(state, reason, w.job).value;
      WriteAllowed(a, w, after) && after.terms == w.job.terms && after.state.IsTerminal()
  {
    hide WriteAllowed;
    if w.job.state.IsTerminal() {
      AllowReducing(a, w, w.job);
    } else {
      AllowFail(a, w, w.job.(state := state, reasonCode := reason));
    }
  }

  function Aborted(reason: string, current: Job): (next: Option<Job>)
    ensures next.Some? ==> next.value.terms == current.terms
  {
    if current.state.IsTerminal() then Some(current)
    else if current.state != ActionIntent then None
    else Some(current.(cancelRequested := true, cancelReason := reason, state := Cancelled,
                       reasonCode := "pre_schedule_intent_cancelled:" + reason))
  }

  lemma AbortedAllowed(a: Pid, w: World, reason: string)
    requires w.job.state.IsPower() ==> a == w.owner && w.records.resolution.Some?
    ensures Aborted(reason, w.job).Some? ==>
      var after := Aborted(reason, w.job).value;
      WriteAllowed(a, w, after) && after.terms == w.job.terms && after.state.IsTerminal()
  {
    if Aborted(reason, w.job).Some? {
      var after := Aborted(reason, w.job).value;
      hide WriteAllowed;
      if w.job.state.IsTerminal() { AllowReducing(a, w, after); } else { AllowSettled(a, w, after); }
    }
  }

  function CountdownCancelled(reason: string, current: Job): (next: Job)
    ensures next.terms == current.terms && next.state == Cancelled
  {
    current.(cancelRequested := true, cancelReason := reason, state := Cancelled,
             reasonCode := "countdown_cancelled:" + reason)
  }

  function CountdownUnconfirmed(reason: string, current: Job): (next: Job)
    ensures next.terms == current.terms && next.state == current.state
  {
    current.(cancelRequested := true, cancelReason := reason, reasonCode := "countdown_cancel_unconfirmed:" + reason)
  }

  function Settled(confirmed: bool, reason: string, current: Job): Option<Job> {
    if current.state.IsTerminal() then Some(current)
    else if !current.Unresolved() then None
    else if confirmed then Some(CountdownCancelled(reason, current))
    else Some(CountdownUnconfirmed(reason, current))
  }

  lemma SettledAllowed(a: Pid, w: World, confirmed: bool, reason: string)
    requires a == w.owner
    requires w.job.state.IsPower() && confirmed ==> w.records.resolution.Some?
    ensures Settled(confirmed, reason, w.job).Some? ==>
      var after := Settled(confirmed, reason, w.job).value;
      && WriteAllowed(a, w, after) && after.terms == w.job.terms
      && (confirmed ==> after.state.IsTerminal())
      && (w.job.state.IsTerminal() ==> after.state.IsTerminal())
  {
    if Settled(confirmed, reason, w.job).Some? {
      var after := Settled(confirmed, reason, w.job).value;
      hide WriteAllowed;
      if w.job.state.IsTerminal() { AllowReducing(a, w, after); }
      else if confirmed { AllowSettled(a, w, after); }
      else { AllowUnconfirmed(a, w, after); }
    }
  }

  function RolledBack(confirmed: bool, reason: string, current: Job): Option<Job> {
    if current.state.IsTerminal() then Some(current)
    else if confirmed then Some(current.(state := ActionFailed, reasonCode := reason))
    else Some(current.(state := ActionIntent, reasonCode := reason + "_cancel_unconfirmed"))
  }

  lemma RolledBackAllowed(a: Pid, w: World, confirmed: bool, reason: string)
    requires a == w.owner && (w.job.state.IsPower() || w.job.state.IsTerminal())
    requires w.job.state.IsPower() && confirmed ==> w.records.resolution.Some?
    ensures RolledBack(confirmed, reason, w.job).Some?
    ensures var after := RolledBack(confirmed, reason, w.job).value;
      && WriteAllowed(a, w, after) && after.terms == w.job.terms
      && (after.state.IsPower() || after.state.IsTerminal()) && (confirmed ==> after.state.IsTerminal())
  {
    var after := RolledBack(confirmed, reason, w.job).value;
    hide WriteAllowed;
    if w.job.state.IsTerminal() { AllowReducing(a, w, after); }
    else if confirmed { AllowSettled(a, w, after); }
    else { AllowUnconfirmed(a, w, after); }
  }

  function Intended(g: nat, receipt: Receipt, now: nat, capabilities: Capabilities, current: Job): (next: Option<Job>)
    ensures next.Some? ==> next.value.terms == current.terms
  {
    if current.generation != g || current.state != StopObserved then None
    else Some(current.(state := ActionIntent, reasonCode := "action_intent_recorded", actionIntentAt := Some(now),
                       powerCapabilities := Some(capabilities), powerReceipt := Some(receipt),
                       scheduledFor := Some(receipt.body.deadline)))
  }

  lemma IntendedAllowed(a: Pid, w: World, seen: Job, since: nat, receipt: Receipt, now: nat, capabilities: Capabilities)
    requires w.Holds(a) && a == w.owner && !seen.terms.dryRun && w.inPower == {} && GrantIntact(w, seen, since)
    requires w.records.envelope.Some? && w.records.envelope.value.body.intentReceipt == receipt
    ensures Intended(seen.generation, receipt, now, capabilities, w.job).Some? ==>
      var after := Intended(seen.generation, receipt, now, capabilities, w.job).value;
      WriteAllowed(a, w, after) && after.terms == w.job.terms
  {
    if Intended(seen.generation, receipt, now, capabilities, w.job).Some? {
      hide WriteAllowed;
      AllowIntent(a, w, Intended(seen.generation, receipt, now, capabilities, w.job).value);
    }
  }

  /** An intent at generation `g` with no resumption between `since` and the intent. */
  predicate UnbrokenIntent(log: seq<Event>, since: nat, g: nat) {
    exists n :: since <= n < |log| && log[n] == IntentRecorded(g) && Unbroken(log, since, n)
  }

  predicate Unbroken(log: seq<Event>, since: nat, until: nat)
    requires until <= |log|
  {
    forall i :: since <= i < until ==> log[i] != Resumed
  }

  lemma IntentWritten(w: World, w': World, seen: Job, since: nat, receipt: Receipt, now: nat,
                      capabilities: Capabilities)
    requires GrantIntact(w, seen, since)
    requires Intended(seen.generation, receipt, now, capabilities, w.job).Some?
    requires w' == AfterWrite(w, Intended(seen.generation, receipt, now, capabilities, w.job).value)
    ensures IntentStands(w', seen.generation)
    ensures UnbrokenIntent(w'.log, since, seen.generation)
  {
    assert w'.log == w.log + [IntentRecorded(seen.generation)];
    assert w'.log[|w.log|] == IntentRecorded(seen.generation);
    assert Unbroken(w'.log, since, |w.log|);
  }

  lemma EnvelopeKept(me: Pid, w: World, w': World)
    requires Rely(me, w, w') && me == w.owner
    ensures w'.records.envelope == w.records.envelope
  {
  }

  /** Backend.Preflight: the state and reason to refuse with, or the capabilities. */
  method Preflight() returns (refusal: Option<(State, string)>, capabilities: Capabilities)
    ensures refusal.Some? ==> refusal.value.0.IsTerminal()
    ensures refusal.None? ==> capabilities.executeSupported
  {
    capabilities := *;
    var failed: bool, unsupported: bool, conflict: bool := *, *, *;
    if failed || !capabilities.executeSupported {
      refusal := Some(
        if failed && unsupported then (PlatformUnsupported, "platform_unsupported")
        else if failed && conflict then (ConcurrentConflict, "unresolved_power_job_conflict")
        else (PrivilegeUnavailable, "platform_preflight_failed"));
    } else {
      refusal := None;
    }
  }

  function Scheduled(g: nat, receipt: Receipt, current: Job): (next: Option<Job>)
    ensures next.Some? ==> next.value.terms == current.terms
  {
    if current.state != ActionIntent || current.generation != g then None
    else Some(current.(state := ActionScheduled, reasonCode := "action_scheduled",
                       powerReceipt := Some(receipt), scheduledFor := Some(receipt.body.deadline)))
  }

  predicate Sealed(w: World, receipt: Receipt) {
    w.records.receipt.Some? && w.records.receipt.value.body.receipt == receipt
  }

  lemma SealedKept(me: Pid, w: World, w': World, receipt: Receipt)
    requires JobKept(me, w, w') && Sealed(w, receipt)
    ensures Sealed(w', receipt)
  {
  }

  lemma ScheduledAllowed(a: Pid, w: World, g: nat, receipt: Receipt)
    requires w.Holds(a) && a == w.owner && IntentUnrevoked(w, g) && Sealed(w, receipt)
    ensures Scheduled(g, receipt, w.job).Some? ==>
      var after := Scheduled(g, receipt, w.job).value;
      WriteAllowed(a, w, after) && after.terms == w.job.terms
  {
    if Scheduled(g, receipt, w.job).Some? {
      hide WriteAllowed;
      AllowScheduled(a, w, Scheduled(g, receipt, w.job).value);
    }
  }

  lemma ScheduledUpdate(w: World, w': World, start: World, g: nat, receipt: Receipt)
    requires IntentUnrevoked(w, g) && Later(start, w)
    requires w' == w || (Scheduled(g, receipt, w.job).Some? && w' == AfterWrite(w, Scheduled(g, receipt, w.job).value))
    ensures Later(start, w') && Later(w, w') && w'.lock == w.lock
    ensures w'.job.state.IsPower() || w'.job.state.IsTerminal()
    ensures Scheduled(g, receipt, w.job).Some? && w' == AfterWrite(w, Scheduled(g, receipt, w.job).value) ==>
      ScheduledAfter(w'.log, |start.log|)
  {
    if Scheduled(g, receipt, w.job).Some? && w' == AfterWrite(w, Scheduled(g, receipt, w.job).value) {
      assert w'.log == w.log + [ScheduledRecorded(g)];
      assert w'.log[..|w.log|] == w.log;
      assert w'.log[|w.log|] == ScheduledRecorded(g);
      WriteIsLater(w, Scheduled(g, receipt, w.job).value);
      LaterTransitive(start, w, w');
    }
  }

  lemma GoneLater(me: Pid, w: World, mid: World, w': World)
    requires Later(w, mid) && Gone(me, mid, w')
    ensures Gone(me, w, w')
  {
  }

  function OutcomeUnknown(current: Job): Option<Job> {
    if current.state != ActionIntent then None
    else Some(current.(reasonCode := "power_schedule_outcome_unknown"))
  }

  lemma OutcomeUnknownAllowed(a: Pid, w: World)
    requires a == w.owner
    ensures OutcomeUnknown(w.job).Some? ==>
      WriteAllowed(a, w, OutcomeUnknown(w.job).value) && OutcomeUnknown(w.job).value.terms == w.job.terms
  {
    if OutcomeUnknown(w.job).Some? {
      hide WriteAllowed;
      AllowUnconfirmed(a, w, OutcomeUnknown(w.job).value);
    }
  }

  /** The receipt that came back, if it is usable for the job; otherwise the one recorded with the intent. */
  function BestHandle(rechecked: Job, receipt: Receipt): (handle: Receipt)
    requires rechecked.powerReceipt.Some?
    ensures handle == receipt || handle == rechecked.powerReceipt.value
    ensures handle == receipt <==>
      || (ValidReceipt(receipt) && receipt.body.jobID == rechecked.terms.jobID
          && receipt.body.action == rechecked.terms.action)
      || receipt == rechecked.powerReceipt.value
  {
    if ValidReceipt(receipt) && receipt.body.jobID == rechecked.terms.jobID
       && receipt.body.action == rechecked.terms.action
    then receipt else rechecked.powerReceipt.value
  }

  /** What the job and the environment must show before an accepted action may be recorded as counting down. */
  predicate MayCountDown(after: Job, g: nat, shown: Answers) {
    && !shown.pendingRevocation.Some? && ArbitrationGate(after, shown).Passed?
    && (after.terms.policy == VerifiedSuccess ==> shown.authorization.Granted?)
    && after.state == ActionIntent && after.generation == g
  }

  function ValueOr(value: string, fallback: string): string {
    if value != "" then value else fallback
  }

  // ---------------------------------------------------------------- gates

  /** What the environment answers while a gate is evaluated. */
  datatype Answers = Answers(
    now: nat,
    pendingRevocation: Option<string>,      // the reason to refuse with, if a marker is pending or unreadable
    barrierReason: string,
    policyFingerprint: string,              // the supervisor's own configuration
    currentPolicyFingerprint: Option<string>,
    profileFingerprint: Option<string>,     // the registered verifier profile, if it loads
    arbitration: Grant,
    authorization: Grant,
    snapshot: Option<Snapshot>)

  datatype Grant = Granted | GrantUnavailable | GrantInvalid

  datatype Snapshot = Snapshot(
    sameHostProven: bool, liveTargetObserved: bool, inventoryComplete: bool, eventLossDetected: bool,
    compatible: bool, fingerprint: string, hostInstanceID: string, readyForFinalGate: bool)

  datatype Gate = Passed | Refused(state: State, reason: string) | Changed

  predicate PolicyMatches(job: Job, answers: Answers) {
    && job.terms.powerPolicyFingerprint != ""
    && job.terms.powerPolicyFingerprint == answers.policyFingerprint
    && answers.currentPolicyFingerprint == Some(job.terms.powerPolicyFingerprint)
  }

  predicate ProfileCurrent(job: Job, answers: Answers) {
    job.verifierPassed && answers.profileFingerprint == Some(job.terms.verifierFingerprint)
  }

  function AuthorizationReason(grant: Grant): string {
    if grant == GrantUnavailable then "verified_success_authority_unavailable" else "verified_success_authority_invalid"
  }

  function ArbitrationReason(grant: Grant): string {
    if grant == GrantUnavailable then "stop_arbitration_unavailable" else "stop_arbitration_invalid"
  }

  function FreshnessGate(job: Job, answers: Answers): (gate: Gate)
    ensures gate.Refused? ==> gate.state.IsTerminal()
    ensures !gate.Changed?
  {
    if answers.pendingRevocation.Some? then Refused(HookUnavailable, answers.pendingRevocation.value)
    else if job.ExpiredAt(answers.now) then Refused(Expired, "arm_expired")
    else Passed
  }

  function EntryGate(job: Job, answers: Answers): (gate: Gate)
    ensures gate.Refused? ==> gate.state.IsTerminal()
  {
    if FreshnessGate(job, answers).Refused? then FreshnessGate(job, answers)
    else if job.terms.policy == AfterStop then
      if !job.terms.stopWithoutSuccessAck || job.sessionID == "" || job.stopTurnID == ""
         || job.stopTurnID != job.currentTurnID
      then Refused(HookUnavailable, "after_stop_binding_incomplete")
      else Passed
    else if job.terms.policy == AfterAllStop then Passed
    else if job.hookFingerprintH3 == "" || job.hookFingerprintH1 != job.hookFingerprintH2
            || job.hookFingerprintH2 != job.hookFingerprintH3 then Changed
    else if job.terms.powerPolicyFingerprint != answers.policyFingerprint then
      Refused(PrivilegeUnavailable, "power_policy_changed_before_action")
    else if !PolicyMatches(job, answers) then Refused(PrivilegeUnavailable, "power_policy_unavailable_before_action")
    else if job.terms.verifierProfile != "none" && !ProfileCurrent(job, answers) then
      Refused(VerificationFailed, "verifier_profile_changed_before_action")
    else if job.terms.verifierProfile == "none" && !job.terms.allowAgentOnlySuccess then
      Refused(VerificationFailed, "independent_evidence_required")
    else if !answers.authorization.Granted? then
      Refused(PrivilegeUnavailable, AuthorizationReason(answers.authorization))
    else Passed
  }

  function ArbitrationGate(job: Job, answers: Answers): (gate: Gate)
    ensures gate.Refused? ==> gate.state.IsTerminal()
    ensures !gate.Changed?
  {
    if ObservableStop(job.terms.policy) && !answers.arbitration.Granted? then
      Refused(HookUnavailable, ArbitrationReason(answers.arbitration))
    else Passed
  }

  function ClassifySnapshot(snapshot: Snapshot): (gate: Gate)
    ensures gate.Refused? ==> gate.state.IsTerminal()
    ensures !gate.Changed?
  {
    if !snapshot.sameHostProven || !snapshot.liveTargetObserved then Refused(HostUnavailable, "same_host_not_proven")
    else if !snapshot.inventoryComplete || snapshot.eventLossDetected then
      Refused(InventoryPartial, "host_inventory_incomplete")
    else if !snapshot.compatible || snapshot.fingerprint == "" then Refused(HookConflict, "hook_inventory_conflict")
    else Passed
  }

  function HostGate(job: Job, answers: Answers): (gate: Gate)
    ensures gate.Refused? ==> gate.state.IsTerminal()
    ensures !gate.Changed?
  {
    if job.terms.policy != VerifiedSuccess then Passed
    else if answers.snapshot.None? then Refused(HostUnavailable, "final_host_snapshot_failed")
    else
      var snapshot := answers.snapshot.value;
      if ClassifySnapshot(snapshot).Refused? then ClassifySnapshot(snapshot)
      else if !snapshot.readyForFinalGate || snapshot.fingerprint != job.hookFingerprintH3
              || snapshot.hostInstanceID != job.hostInstanceID then
        Refused(InventoryPartial, "final_quiescence_gate_changed")
      else if !PolicyMatches(job, answers) then Refused(PrivilegeUnavailable, "power_policy_changed_at_final_gate")
      else if !answers.authorization.Granted? then
        Refused(PrivilegeUnavailable, AuthorizationReason(answers.authorization))
      else Passed
  }

  /** What a look at a scheduled job says before the authorities are asked. */
  datatype Look = AtDeadline | Countdown(reason: string)

  function CountdownLook(job: Job, answers: Answers, deadline: nat, lateness: nat): (look: Look)
    ensures look.AtDeadline? <==> !job.cancelRequested && deadline <= answers.now <= deadline + lateness
    ensures job.cancelRequested ==> look.Countdown? && look.reason != ""
  {
    if job.cancelRequested then Countdown(ValueOr(job.cancelReason, "cancellation_requested_during_countdown"))
    else if deadline <= answers.now then
      if answers.now <= deadline + lateness then AtDeadline
      else Countdown("countdown_deadline_missed_after_sleep_or_stall")
    else if job.cancelReason != "" || job.terms.policy != VerifiedSuccess then Countdown(job.cancelReason)
    else if !PolicyMatches(job, answers) then Countdown("power_policy_changed_during_countdown")
    else if job.terms.verifierProfile != "none" && !ProfileCurrent(job, answers) then
      Countdown("verifier_profile_changed_during_countdown")
    else if !answers.authorization.Granted? then Countdown(AuthorizationReason(answers.authorization))
    else Countdown("")
  }

  /** The rest of the look, after the barrier's own authority. */
  function LateLook(job: Job, answers: Answers, reason: string): (late: string)
    ensures job.cancelRequested || reason != "" ==> late == reason
  {
    if job.cancelRequested || reason != "" then reason
    else if answers.pendingRevocation.Some? then
      ValueOr(answers.pendingRevocation.value, "revocation_channel_unavailable")
    else if ObservableStop(job.terms.policy) then
      if !answers.arbitration.Granted? then ArbitrationReason(answers.arbitration) else ""
    else if answers.snapshot.None? then "host_unavailable_during_countdown"
    else
      var snapshot := answers.snapshot.value;
      if ClassifySnapshot(snapshot).Refused? then ClassifySnapshot(snapshot).reason
      else if !snapshot.readyForFinalGate || snapshot.fingerprint != job.hookFingerprintH3
              || snapshot.hostInstanceID != job.hostInstanceID then "host_evidence_changed_during_countdown"
      else ""
  }

  /** What a countdown must show at a look that lets it run on. */
  predicate MayGoOn(job: Job, shown: Answers, deadline: nat, authority: Option<Job>) {
    && !job.cancelRequested && job.cancelReason == "" && shown.now < deadline
    && shown.pendingRevocation.None? && ArbitrationGate(job, shown).Passed?
    && (job.terms.policy == VerifiedSuccess ==>
          HostGate(job, shown).Passed? && (job.terms.verifierProfile != "none" ==> ProfileCurrent(job, shown)))
    && (job.terms.policy == AfterAllStop ==> authority.Some?)
  }

  lemma LookGoesOn(job: Job, answers: Answers, deadline: nat, lateness: nat)
    requires CountdownLook(job, answers, deadline, lateness) == Countdown("")
    ensures !job.cancelRequested && job.cancelReason == "" && answers.now < deadline
    ensures job.terms.policy == VerifiedSuccess ==>
      && PolicyMatches(job, answers) && answers.authorization.Granted?
      && (job.terms.verifierProfile != "none" ==> ProfileCurrent(job, answers))
  {
  }

  lemma LateLookGoesOn(job: Job, answers: Answers)
    requires !job.cancelRequested && LateLook(job, answers, "") == ""
    ensures answers.pendingRevocation.None? && ArbitrationGate(job, answers).Passed?
    ensures job.terms.policy == VerifiedSuccess && PolicyMatches(job, answers) && answers.authorization.Granted? ==>
      HostGate(job, answers).Passed?
  {
  }

  lemma GoesOn(job: Job, answers: Answers, deadline: nat, lateness: nat, authority: Option<Job>)
    requires CountdownLook(job, answers, deadline, lateness) == Countdown("") && LateLook(job, answers, "") == ""
    requires job.terms.policy == AfterAllStop ==> authority.Some?
    ensures MayGoOn(job, answers, deadline, authority)
  {
    hide CountdownLook;
    hide LateLook;
    hide ArbitrationGate;
    hide HostGate;
    hide PolicyMatches;
    hide ProfileCurrent;
    LookGoesOn(job, answers, deadline, lateness);
    LateLookGoesOn(job, answers);
  }

  datatype Phase = H1 | H2 | H3

  /** Whether a host snapshot may be recorded in a phase; Changed means not yet. */
  function CaptureGate(phase: Phase, job: Job, answers: Answers): (gate: Gate)
    ensures gate.Refused? ==> gate.state.IsTerminal()
    ensures gate.Passed? ==> answers.snapshot.Some?
  {
    if answers.snapshot.None? then
      Refused(HostUnavailable, match phase case H1 => "host_snapshot_h1_failed" case H2 => "host_snapshot_h2_failed"
                                           case H3 => "host_snapshot_h3_failed")
    else
      var snapshot := answers.snapshot.value;
      if phase == H1 && (!snapshot.sameHostProven || !snapshot.liveTargetObserved)
         && answers.now < job.terms.createdAt + 15 * SECOND then Changed
      else if ClassifySnapshot(snapshot).Refused? then ClassifySnapshot(snapshot)
      else if phase == H1 then Passed
      else if snapshot.fingerprint != job.hookFingerprintH1
              || (phase == H3 && snapshot.fingerprint != job.hookFingerprintH2) then
        Refused(HookConflict,
                if phase == H2 then "hook_policy_changed_between_h1_h2" else "hook_policy_changed_before_final_gate")
      else if snapshot.hostInstanceID != job.hostInstanceID then
        Refused(HostUnavailable,
                if phase == H2 then "host_instance_changed_between_h1_h2"
                else "host_instance_changed_before_final_gate")
      else if phase == H3 && !snapshot.readyForFinalGate then Changed
      else Passed
  }

  function CapturedH1(snapshot: Snapshot, current: Job): (next: Job)
    ensures next.terms == current.terms
  {
    current.(hookFingerprintH1 := snapshot.fingerprint, hostInstanceID := snapshot.hostInstanceID,
             hookCompatibility := "compatible",
             state := if current.state == Armed then HostMonitoring else current.state,
             reasonCode := if current.state == Armed then "host_monitoring" else current.reasonCode)
  }

  function CapturedH2(snapshot: Snapshot, current: Job): (next: Job)
    ensures next.terms == current.terms
  {
    current.(hookFingerprintH2 := snapshot.fingerprint)
  }

  function CapturedH3(snapshot: Snapshot, current: Job): (next: Job)
    ensures next.terms == current.terms
  {
    current.(hookFingerprintH3 := snapshot.fingerprint)
  }

  /** The write of captureH1, captureH2 or captureReadyH3. */
  function Captured(phase: Phase, seen: Job, snapshot: Snapshot, current: Job): Option<Job> {
    if current.generation != seen.generation then None
    else match phase
      case H1 =>
        if current.hookFingerprintH1 != "" || current.sessionID != seen.sessionID then None
        else Some(CapturedH1(snapshot, current))
      case H2 =>
        if current.hookFingerprintH2 != "" || current.hookFingerprintH1 != seen.hookFingerprintH1 then None
        else Some(CapturedH2(snapshot, current))
      case H3 =>
        if current.state != StopObserved || current.hookFingerprintH1 != seen.hookFingerprintH1
           || current.hookFingerprintH2 != seen.hookFingerprintH2 then None
        else Some(CapturedH3(snapshot, current))
  }

  lemma CapturedAllowed(a: Pid, w: World, phase: Phase, seen: Job, snapshot: Snapshot)
    requires !w.job.state.IsPower()
    ensures Captured(phase, seen, snapshot, w.job).Some? ==>
      var after := Captured(phase, seen, snapshot, w.job).value;
      WriteAllowed(a, w, after) && after.terms == w.job.terms && !after.state.IsPower()
  {
    if Captured(phase, seen, snapshot, w.job).Some? {
      hide WriteAllowed;
      AllowReducing(a, w, Captured(phase, seen, snapshot, w.job).value);
    }
  }

  /** What the first gates let through, policy by policy. */
  lemma EntryGateExactly(job: Job, answers: Answers)
    ensures EntryGate(job, answers).Passed? <==>
      && answers.pendingRevocation.None? && !job.ExpiredAt(answers.now)
      && (job.terms.policy == AfterStop ==>
            && job.terms.stopWithoutSuccessAck && job.sessionID != ""
            && job.stopTurnID != "" && job.stopTurnID == job.currentTurnID)
      && (job.terms.policy == VerifiedSuccess ==>
            && job.hookFingerprintH3 != "" && job.hookFingerprintH1 == job.hookFingerprintH2 == job.hookFingerprintH3
            && PolicyMatches(job, answers) && answers.authorization.Granted?
            && (if job.terms.verifierProfile == "none" then job.terms.allowAgentOnlySuccess
                else ProfileCurrent(job, answers)))
  {
  }

  /** At the final gate a verified job still faces the host it was armed on, unchanged and ready. */
  lemma HostGateExactly(job: Job, answers: Answers)
    requires job.terms.policy == VerifiedSuccess
    ensures HostGate(job, answers).Passed? <==>
      && answers.snapshot.Some?
      && var s := answers.snapshot.value;
         && s.sameHostProven && s.liveTargetObserved && s.inventoryComplete && !s.eventLossDetected
         && s.compatible && s.fingerprint != "" && s.fingerprint == job.hookFingerprintH3
         && s.readyForFinalGate && s.hostInstanceID == job.hostInstanceID
         && PolicyMatches(job, answers) && answers.authorization.Granted?
  {
  }

  /** What a step that only lets the others run leaves to the holder of the lock. */
  lemma HolderKeeps(me: Pid, w: World, w': World)
    requires JobKept(me, w, w') && me == w.owner && w.Holds(me)
    ensures Later(w, w') && w'.Holds(me) && w'.owner == w.owner && w'.job.terms == w.job.terms
    ensures !w.job.state.IsPower() ==> !w'.job.state.IsPower()
    ensures w.inPower == {} ==> w'.inPower == {}
  {
  }

  lemma InventoryIsEmpty(w: World)
    requires Invariant(w) && !w.job.state.IsPower() && w.inPower <= {w.Id()}
    ensures w.inPower == {}
  {
  }

  class Supervisor {
    const machine: PowerMachine
    const pid: Pid
    const maxCountdownLateness: nat

    constructor (machine: PowerMachine, pid: Pid, maxCountdownLateness: nat)
      ensures this.machine == machine && this.pid == pid && this.maxCountdownLateness == maxCountdownLateness
    {
      this.machine, this.pid, this.maxCountdownLateness := machine, pid, maxCountdownLateness;
    }

    /** Supervisor.fail: only ever before an intent. */
    method Fail(state: State, reason: string) returns (err: Err)
      requires Invariant(machine.View()) && pid == machine.owner
      requires !machine.job.state.IsPower() && state.IsTerminal()
      modifies machine
      ensures Invariant(machine.View()) && Later(old(machine.View()), machine.View())
      ensures machine.lock == old(machine.lock) && !machine.job.state.IsPower()
      ensures err == NoError ==> machine.job.state.IsTerminal()
    {
      hide Invariant;
      hide WriteAllowed;
      hide JobEvents;
      hide Closed;
      ghost var start := machine.View();
      ClosedAllowed(pid, start, state, reason);
      var updated;
      err, updated := machine.UpdateJob(pid, current => Closed(state, reason, current));
      WriteIsLater(start, Closed(state, reason, start.job).value);
    }

    method PersistRecoveryResolutionIfPresent(outcome: Outcome, reason: string, result: Option<CancelResult>)
      returns (life: Life, ok: bool)
      requires Invariant(machine.View()) && pid == machine.owner
      requires outcome == OutcomeNoAction ==> machine.lock == Some(pid)
      requires result.Some? ==> HasConfirmedCancel(machine.log, result.value)
      modifies machine
      ensures Invariant(machine.View())
      ensures life.Crashed? ==> Gone(pid, old(machine.View()), machine.View())
      ensures life.Alive? ==> JobKept(pid, old(machine.View()), machine.View())
      ensures life.Alive? && ok && machine.job.state.IsPower() ==> machine.records.resolution.Some?
    {
      hide Invariant;
      hide JobKept;
      ok := false;
      ghost var start := machine.View();
      var loaded;
      life, loaded := machine.LoadRecoveryAuthority(pid);
      if life.Crashed? { return; }
      ghost var read := machine.View();
      RelyKeepsJob(pid, start, read);
      PowerHasEnvelope(read);
      if loaded.NotExist? { return Alive, true; }
      if !loaded.Loaded? { return; }
      if result.Some? { ConfirmationStays(start.log, read.log, result.value); }
      var now := Now();
      var resolution;
      life, resolution := machine.PersistRecoveryResolution(pid, outcome, reason, result, now);
      if life.Crashed? { return; }
      JobKeptTransitive(pid, start, read, machine.View());
      ok := resolution.Some?;
    }

    /** An intent that is not going to be scheduled: resolved as no_action first, then cancelled. */
    method AbortIntentBeforeSchedule(reason: string) returns (life: Life, err: Err)
      requires Invariant(machine.View()) && pid == machine.owner && machine.lock == Some(pid)
      modifies machine
      ensures Invariant(machine.View())
      ensures life.Crashed? ==> Gone(pid, old(machine.View()), machine.View())
      ensures life.Alive? ==> Later(old(machine.View()), machine.View()) && machine.lock == Some(pid)
      ensures life.Alive? && err == NoError ==> machine.job.state.IsTerminal()
    {
      hide Invariant;
      hide WriteAllowed;
      hide JobEvents;
      hide JobKept;
      hide Rely;
      hide Later;
      hide Aborted;
      err := Failed;
      ghost var start := machine.View();
      var ok;
      life, ok := PersistRecoveryResolutionIfPresent(OutcomeNoAction, reason, None);
      if life.Crashed? { return; }
      ghost var resolved := machine.View();
      JobKeptIsLater(pid, start, resolved);
      if !ok { return; }
      life := machine.Interfere(pid);
      if life.Crashed? { return; }
      ghost var before := machine.View();
      RelyKeepsJob(pid, resolved, before);
      JobKeptIsLater(pid, resolved, before);
      LaterTransitive(start, resolved, before);
      StillResolved(pid, resolved, before);
      AbortedAllowed(pid, before, reason);
      var updated;
      err, updated := machine.UpdateJob(pid, current => Aborted(reason, current));
      if Aborted(reason, before.job).Some? {
        WriteIsLater(before, Aborted(reason, before.job).value);
      }
      LaterReflexive(before);
      LaterTransitive(start, before, machine.View());
    }

    /**
     What both ways of cancelling begin with: Backend.Cancel, and a cancelled resolution if the backend
     confirmed. `go` says whether the job may now be settled.
     */
    method CancelAndResolve(receipt: Receipt, reason: string) returns (life: Life, confirmed: bool, go: bool)
      requires Invariant(machine.View()) && pid == machine.owner
      modifies machine
      ensures Invariant(machine.View())
      ensures life.Crashed? ==> Gone(pid, old(machine.View()), machine.View())
      ensures life.Alive? ==>
        && Later(old(machine.View()), machine.View())
        && (machine.lock == Some(pid) <==> old(machine.lock) == Some(pid))
        && CancelAttempted(machine.log, |old(machine.log)|)
        && CancelledWith(machine.log, |old(machine.log)|, receipt)
      ensures life.Alive? && (old(machine.job).state.IsPower() || old(machine.job).state.IsTerminal()) ==>
        machine.job.state.IsPower() || machine.job.state.IsTerminal()
      ensures life.Alive? && go && confirmed && machine.job.state.IsPower() ==> machine.records.resolution.Some?
    {
      hide Invariant;
      hide JobKept;
      hide Rely;
      hide Later;
      hide CancelledWith;
      go := false;
      ghost var start := machine.View();
      var result;
      life, result, confirmed := machine.BackendCancel(pid, receipt);
      if life.Crashed? { return; }
      ghost var cancelled := machine.View();
      JobKeptIsLater(pid, start, cancelled);
      ghost var resolved := cancelled;
      if confirmed {
        var ok;
        life, ok := PersistRecoveryResolutionIfPresent(OutcomeCancelled, reason, Some(result));
        if life.Crashed? { GoneLater(pid, start, cancelled, machine.View()); return; }
        resolved := machine.View();
        JobKeptIsLater(pid, cancelled, resolved);
        LaterTransitive(start, cancelled, resolved);
        AttemptStays(cancelled, resolved, |start.log|);
        HandleKept(cancelled, resolved, |start.log|, receipt);
        if !ok { return; }
      }
      life := machine.Interfere(pid);
      if life.Crashed? { GoneLater(pid, start, resolved, machine.View()); return; }
      ghost var before := machine.View();
      RelyKeepsJob(pid, resolved, before);
      JobKeptIsLater(pid, resolved, before);
      LaterTransitive(start, resolved, before);
      AttemptStays(resolved, before, |start.log|);
      HandleKept(resolved, before, |start.log|, receipt);
      if confirmed { StillResolved(pid, resolved, before); }
      go := true;
    }

    /**
     cancelPowerForReason: cancel at the backend, resolve, then settle the job. Nil means the job is
     terminal; whatever comes back, a Backend.Cancel was attempted.
     */
    method CancelPowerForReason(receipt: Receipt, reason: string) returns (life: Life, err: Err)
      requires Invariant(machine.View()) && pid == machine.owner
      modifies machine
      ensures Invariant(machine.View())
      ensures life.Crashed? ==> Gone(pid, old(machine.View()), machine.View())
      ensures life.Alive? ==>
        && Later(old(machine.View()), machine.View())
        && (machine.lock == Some(pid) <==> old(machine.lock) == Some(pid))
        && CancelAttempted(machine.log, |old(machine.log)|)
        && CancelledWith(machine.log, |old(machine.log)|, receipt)
      ensures life.Alive? && err == NoError ==> machine.job.state.IsTerminal()
    {
      hide Invariant;
      hide WriteAllowed;
      hide JobEvents;
      hide Later;
      hide Settled;
      err := Failed;
      ghost var start := machine.View();
      var confirmed, go;
      life, confirmed, go := CancelAndResolve(receipt, reason);
      if life.Crashed? || !go { return; }
      ghost var before := machine.View();
      PowerHasEnvelope(before);
      SettledAllowed(pid, before, confirmed, reason);
      var updated;
      err, updated := machine.UpdateJob(pid, current => Settled(confirmed, reason, current));
      if Settled(confirmed, reason, before.job).Some? {
        WriteIsLater(before, Settled(confirmed, reason, before.job).value);
      }
      LaterReflexive(before);
      LaterTransitive(start, before, machine.View());
      AttemptStays(before, machine.View(), |start.log|);
      HandleKept(before, machine.View(), |start.log|, receipt);
      if err == NoError && !confirmed {
        err := Failed;
      }
    }

    /**
     cancelAcceptedAction: roll an accepted action back with the best handle there is. The job stays in intent or
     scheduled unless it is closed, and success means that it is.
     */
    method CancelAcceptedAction(rechecked: Job, receipt: Receipt, reason: string) returns (life: Life, err: Err)
      requires Invariant(machine.View()) && pid == machine.owner
      requires rechecked.powerReceipt.Some?
      requires machine.job.state.IsPower() || machine.job.state.IsTerminal()
      modifies machine
      ensures Invariant(machine.View())
      ensures life.Crashed? ==> Gone(pid, old(machine.View()), machine.View())
      ensures life.Alive? ==>
        && Later(old(machine.View()), machine.View())
        && (machine.lock == Some(pid) <==> old(machine.lock) == Some(pid))
        && CancelAttempted(machine.log, |old(machine.log)|)
        && CancelledWith(machine.log, |old(machine.log)|, BestHandle(rechecked, receipt))
        && (machine.job.state.IsPower() || machine.job.state.IsTerminal())
      ensures life.Alive? && err == NoError ==> machine.job.state.IsTerminal()
    {
      hide Invariant;
      hide WriteAllowed;
      hide JobEvents;
      hide Later;
      hide RolledBack;
      err := Failed;
      ghost var start := machine.View();
      var cancelReceipt := BestHandle(rechecked, receipt);
      var confirmed, go;
      life, confirmed, go := CancelAndResolve(cancelReceipt, reason);
      if life.Crashed? || !go { return; }
      ghost var before := machine.View();
      RolledBackAllowed(pid, before, confirmed, reason);
      var updated;
      err, updated := machine.UpdateJob(pid, current => RolledBack(confirmed, reason, current));
      WriteIsLater(before, RolledBack(confirmed, reason, before.job).value);
      LaterReflexive(before);
      LaterTransitive(start, before, machine.View());
      AttemptStays(before, machine.View(), |start.log|);
      HandleKept(before, machine.View(), |start.log|, cancelReceipt);
      if !confirmed {
        err := Failed;
      }
    }

    // ---------------------------------------------------------------- schedule

    /** Let the others run, then give up the job. */
    method Refuse(state: State, reason: string) returns (life: Life, err: Err)
      requires Invariant(machine.View()) && pid == machine.owner
      requires !machine.job.state.IsPower() && state.IsTerminal()
      modifies machine
      ensures Invariant(machine.View())
      ensures life.Crashed? ==> Gone(pid, old(machine.View()), machine.View())
      ensures life.Alive? ==>
        && Later(old(machine.View()), machine.View()) && !machine.job.state.IsPower()
        && (machine.lock == Some(pid) <==> old(machine.lock) == Some(pid))
        && (err == NoError ==> machine.job.state.IsTerminal())
    {
      hide Invariant;
      hide JobKept;
      err := Failed;
      ghost var start := machine.View();
      life := machine.Interfere(pid);
      if life.Crashed? { return; }
      ghost var mid := machine.View();
      RelyKeepsJob(pid, start, mid);
      JobKeptIsLater(pid, start, mid);
      err := Fail(state, reason);
      LaterTransitive(start, mid, machine.View());
    }

    /** Let the others run, then read the job. */
    method Reload() returns (life: Life, loaded: Option<Job>)
      requires Invariant(machine.View())
      modifies machine
      ensures Invariant(machine.View())
      ensures life.Crashed? ==> Gone(pid, old(machine.View()), machine.View())
      ensures life.Alive? ==> JobKept(pid, old(machine.View()), machine.View())
      ensures life.Alive? && loaded.Some? ==> loaded == Some(machine.job)
    {
      hide Invariant;
      hide JobKept;
      loaded := None;
      ghost var start := machine.View();
      life := machine.Interfere(pid);
      if life.Crashed? { return; }
      RelyKeepsJob(pid, start, machine.View());
      loaded := machine.Load();
    }

    method ReadBarrierAuthority() returns (life: Life, ok: bool, validated: Job)
      requires Invariant(machine.View())
      modifies machine
      ensures Invariant(machine.View())
      ensures life.Crashed? ==> Gone(pid, old(machine.View()), machine.View())
      ensures life.Alive? ==> JobKept(pid, old(machine.View()), machine.View())
      ensures life.Alive? && ok ==>
        && validated == machine.job && BarrierBound(machine.job) && machine.job.BarrierSatisfied()
        && !machine.job.cancelRequested
    {
      hide Invariant;
      hide JobKept;
      ok, validated := false, machine.job;
      ghost var start := machine.View();
      life := machine.Interfere(pid);
      if life.Crashed? { return; }
      RelyKeepsJob(pid, start, machine.View());
      ok, validated := machine.BarrierAuthority();
    }

    /**
     The first part of schedule: inventory, load, and every gate before the quiescence wait. `seen` is
     the job the gates accepted and `since` the history position at which it was read.
     */
    method FirstLook() returns (life: Life, go: bool, err: Err, seen: Job, ghost since: nat, ghost shown: Answers)
      requires Invariant(machine.View()) && pid == machine.owner && machine.lock == Some(pid)
      requires !machine.job.state.IsPower()
      modifies machine
      ensures Invariant(machine.View())
      ensures life.Crashed? ==> Gone(pid, old(machine.View()), machine.View())
      ensures life.Alive? ==>
        && Later(old(machine.View()), machine.View()) && machine.lock == Some(pid) && !machine.job.state.IsPower()
      ensures life.Alive? && go ==>
        && GrantIntact(machine.View(), seen, since) && |old(machine.log)| <= since && machine.inPower == {}
        && ArbitrationGate(seen, shown).Passed?
        && (seen.terms.policy != AfterAllStop ==> EntryGate(seen, shown).Passed?)
        && (seen.terms.policy == AfterAllStop ==> BarrierBound(seen) && !seen.cancelRequested)
    {
      hide Invariant;
      hide JobKept;
      hide Later;
      hide EntryGate;
      hide ArbitrationGate;
      ghost var start := machine.View();
      LaterReflexive(start);
      go, err, seen, since := false, Failed, machine.job, |machine.log|;
      var answers: Answers := *;
      shown := answers;
      var readable, none := machine.UnresolvedPowerJobs();
      if !readable { life, err := Refuse(ConcurrentConflict, "unresolved_power_inventory_unavailable"); return; }
      if !none { life, err := Refuse(ConcurrentConflict, "another_power_job_is_unresolved"); return; }
      InventoryIsEmpty(start);
      var loaded;
      life, loaded := Reload();
      if life.Crashed? { return; }
      ghost var read := machine.View();
      HolderKeeps(pid, start, read);
      if loaded.None? { return; }
      seen, since := loaded.value, |machine.log|;
      if seen.state != StopObserved { err := JobChanged; return; }
      var gate := EntryGate(seen, answers);
      if gate.Refused? { life, err := RefuseFrom(gate.state, gate.reason, start); return; }
      if gate.Changed? { err := JobChanged; return; }
      if seen.terms.policy == AfterAllStop {
        var ok, validated;
        life, ok, validated := ReadBarrierAuthority();
        if life.Crashed? { return; }
        ghost var authorized := machine.View();
        HolderKeeps(pid, read, authorized);
        LaterTransitive(start, read, authorized);
        if !ok { life, err := RefuseFrom(HookUnavailable, answers.barrierReason, start); return; }
        if validated.state != StopObserved { err := JobChanged; return; }
        seen, since := validated, |machine.log|;
      }
      gate := ArbitrationGate(seen, answers);
      if gate.Refused? { life, err := RefuseFrom(gate.state, gate.reason, start); return; }
      go := true;
    }

    /** Refuse at the end of a chain of steps that began in `start`. */
    method RefuseFrom(state: State, reason: string, ghost start: World) returns (life: Life, err: Err)
      requires Invariant(machine.View()) && pid == machine.owner
      requires !machine.job.state.IsPower() && state.IsTerminal()
      requires Later(start, machine.View())
      modifies machine
      ensures Invariant(machine.View())
      ensures life.Crashed? ==> Gone(pid, old(machine.View()), machine.View())
      ensures life.Alive? ==>
        && Later(start, machine.View()) && !machine.job.state.IsPower()
        && (machine.lock == Some(pid) <==> old(machine.lock) == Some(pid))
        && (err == NoError ==> machine.job.state.IsTerminal())
    {
      hide Invariant;
      hide Later;
      ghost var mid := machine.View();
      life, err := Refuse(state, reason);
      if life.Alive? { LaterTransitive(start, mid, machine.View()); }
    }

    /** The second look, after the quiescence wait: same generation, still observed, every gate again. */
    method SecondLook(seen: Job, ghost since: nat)
      returns (life: Life, go: bool, err: Err, current: Job, ghost shown: Answers)
      requires Invariant(machine.View()) && pid == machine.owner && machine.lock == Some(pid)
      requires GrantIntact(machine.View(), seen, since) && machine.inPower == {}
      modifies machine
      ensures Invariant(machine.View())
      ensures life.Crashed? ==> Gone(pid, old(machine.View()), machine.View())
      ensures life.Alive? ==>
        && Later(old(machine.View()), machine.View()) && machine.lock == Some(pid) && !machine.job.state.IsPower()
      ensures life.Alive? && go ==>
        && GrantIntact(machine.View(), seen, since) && machine.inPower == {}
        && current.terms == seen.terms && current.state == StopObserved && current.generation == seen.generation
        && ArbitrationGate(current, shown).Passed? && HostGate(current, shown).Passed?
        && (current.terms.policy != AfterAllStop ==> FreshnessGate(current, shown).Passed?)
        && (current.terms.policy == AfterAllStop ==> BarrierBound(current) && !current.cancelRequested)
    {
      hide Invariant;
      hide JobKept;
      hide Later;
      hide FreshnessGate;
      hide HostGate;
      hide ArbitrationGate;
      ghost var start := machine.View();
      LaterReflexive(start);
      life, go, err, current := Alive, false, Failed, seen;
      var answers: Answers := *;
      shown := answers;
      var interrupted := Answer();
      if interrupted { return; }
      var loaded;
      life, loaded := Reload();
      if life.Crashed? { return; }
      ghost var read := machine.View();
      HolderKeeps(pid, start, read);
      GrantStaysIntact(pid, start, read, seen, since);
      if loaded.None? { return; }
      current := loaded.value;
      if current.generation != seen.generation || current.state != StopObserved { err := JobChanged; return; }
      var gate := FreshnessGate(current, answers);
      if gate.Refused? { life, err := RefuseFrom(gate.state, gate.reason, start); return; }
      if current.terms.policy == AfterAllStop {
        var ok, validated;
        life, ok, validated := ReadBarrierAuthority();
        if life.Crashed? { return; }
        ghost var authorized := machine.View();
        HolderKeeps(pid, read, authorized);
        LaterTransitive(start, read, authorized);
        GrantStaysIntact(pid, read, authorized, seen, since);
        if !ok { life, err := RefuseFrom(HookUnavailable, answers.barrierReason, start); return; }
        if validated.generation != seen.generation || validated.state != StopObserved { err := JobChanged; return; }
        current := validated;
      }
      gate := ArbitrationGate(current, answers);
      if gate.Refused? { life, err := RefuseFrom(gate.state, gate.reason, start); return; }
      gate := HostGate(current, answers);
      if gate.Refused? { life, err := RefuseFrom(gate.state, gate.reason, start); return; }
      go := true;
    }

    /** Preflight, the intent receipt and the recovery envelope, all before the job changes. */
    method SealIntentEnvelope(seen: Job, ghost since: nat, current: Job)
      returns (life: Life, go: bool, err: Err, request: PowerRequest, capabilities: Capabilities,
               envelope: Option<Envelope>)
      requires Invariant(machine.View()) && pid == machine.owner && machine.lock == Some(pid)
      requires GrantIntact(machine.View(), seen, since) && machine.inPower == {}
      requires current.terms == seen.terms && current.state == StopObserved && current.generation == seen.generation
      modifies machine
      ensures Invariant(machine.View())
      ensures life.Crashed? ==> Gone(pid, old(machine.View()), machine.View())
      ensures life.Alive? ==> Later(old(machine.View()), machine.View()) && machine.lock == Some(pid)
      ensures life.Alive? && go ==>
        && GrantIntact(machine.View(), seen, since) && machine.inPower == {} && !seen.terms.dryRun
        && envelope.Some? && machine.records.envelope == envelope
        && capabilities.executeSupported
        && request.jobID == seen.terms.jobID && request.action == seen.terms.action
        && request.delay == seen.terms.delaySeconds * SECOND
        && BuildIntentReceipt(request.jobID, request.action, request.requestedAt, request.delay, capabilities)
           == Some(envelope.value.body.intentReceipt)
    {
      hide Invariant;
      hide JobKept;
      hide BuildIntentReceipt;
      hide Later;
      ghost var start := machine.View();
      LaterReflexive(start);
      life, go, err, envelope := Alive, false, Failed, None;
      var now := Now();
      request := PowerRequest(current.terms.jobID, current.terms.action, current.terms.delaySeconds * SECOND,
                              if ObservableStop(current.terms.policy) then AfterStopPowerComment(current.terms.jobID)
                              else PluginPowerComment(current.terms.jobID), now);
      var preflight: Option<(State, string)>;
      preflight, capabilities := Preflight();
      if preflight.Some? { life, err := RefuseFrom(preflight.value.0, preflight.value.1, start); return; }
      var intentReceipt := BuildIntentReceipt(current.terms.jobID, current.terms.action, now, request.delay,
                                              capabilities);
      if intentReceipt.None? { life, err := RefuseFrom(ActionFailed, "intent_recovery_receipt_failed", start); return; }
      life, envelope := machine.PersistRecoveryEnvelope(pid, current, intentReceipt.value, now);
      if life.Crashed? { return; }
      ghost var sealed := machine.View();
      HolderKeeps(pid, start, sealed);
      GrantStaysIntact(pid, start, sealed, seen, since);
      if envelope.None? { life, err := RefuseFrom(ActionFailed, "recovery_envelope_persist_failed", start); return; }
      go := true;
    }

    /** The intent: same generation as the gates saw, no resumption since `since`, nothing else unresolved. */
    method RecordIntent(seen: Job, ghost since: nat, capabilities: Capabilities, envelope: Envelope)
      returns (life: Life, err: Err)
      requires Invariant(machine.View()) && pid == machine.owner && machine.lock == Some(pid)
      requires GrantIntact(machine.View(), seen, since) && machine.inPower == {} && !seen.terms.dryRun
      requires machine.records.envelope == Some(envelope)
      modifies machine
      ensures Invariant(machine.View())
      ensures life.Crashed? ==> Gone(pid, old(machine.View()), machine.View())
      ensures life.Alive? ==> Later(old(machine.View()), machine.View()) && machine.lock == Some(pid)
      ensures life.Alive? && err == NoError ==>
        && IntentStands(machine.View(), seen.generation)
        && UnbrokenIntent(machine.log, since, seen.generation)
    {
      hide Invariant;
      hide JobKept;
      hide Later;
      hide Rely;
      hide WriteAllowed;
      hide JobEvents;
      hide Intended;
      ghost var start := machine.View();
      err := Failed;
      life := machine.Interfere(pid);
      if life.Crashed? { return; }
      ghost var before := machine.View();
      RelyKeepsJob(pid, start, before);
      HolderKeeps(pid, start, before);
      GrantStaysIntact(pid, start, before, seen, since);
      EnvelopeKept(pid, start, before);
      var receipt := envelope.body.intentReceipt;
      IntendedAllowed(pid, before, seen, since, receipt, envelope.body.createdAt, capabilities);
      var updated;
      err, updated := machine.UpdateJob(
        pid, job => Intended(seen.generation, receipt, envelope.body.createdAt, capabilities, job));
      if Intended(seen.generation, receipt, envelope.body.createdAt, capabilities, before.job).Some? {
        WriteIsLater(before,
                     Intended(seen.generation, receipt, envelope.body.createdAt, capabilities, before.job).value);
      }
      LaterReflexive(before);
      LaterTransitive(start, before, machine.View());
      if err == NoError {
        IntentWritten(before, machine.View(), seen, since, receipt, envelope.body.createdAt, capabilities);
      }
    }

    method AbortFrom(reason: string, ghost start: World) returns (life: Life, err: Err)
      requires Invariant(machine.View()) && pid == machine.owner && machine.lock == Some(pid)
      requires Later(start, machine.View())
      modifies machine
      ensures Invariant(machine.View())
      ensures life.Crashed? ==> Gone(pid, old(machine.View()), machine.View())
      ensures life.Alive? ==> Later(start, machine.View()) && machine.lock == Some(pid)
      ensures life.Alive? && err == NoError ==> machine.job.state.IsTerminal()
    {
      hide Invariant;
      hide Later;
      ghost var mid := machine.View();
      life, err := AbortIntentBeforeSchedule(reason);
      if life.Alive? { LaterTransitive(start, mid, machine.View()); }
    }

    /**
     Every check between the intent and the call-start record. A refusal that reports success has closed the job;
     one that finds the job unreadable or moved on reports an error and leaves it to whoever moved it.
     */
    method RecheckIntent(g: nat) returns (life: Life, go: bool, err: Err, rechecked: Job, ghost shown: Answers)
      requires Invariant(machine.View()) && pid == machine.owner && machine.lock == Some(pid)
      requires IntentStands(machine.View(), g)
      modifies machine
      ensures Invariant(machine.View())
      ensures life.Crashed? ==> Gone(pid, old(machine.View()), machine.View())
      ensures life.Alive? ==> Later(old(machine.View()), machine.View()) && machine.lock == Some(pid)
      ensures life.Alive? && go ==>
        && IntentUnrevoked(machine.View(), g) && rechecked.powerReceipt.Some? && rechecked.terms == machine.job.terms
        && rechecked.generation == g && !rechecked.cancelRequested
        && !shown.pendingRevocation.Some? && ArbitrationGate(rechecked, shown).Passed?
        && (rechecked.terms.policy == VerifiedSuccess ==> shown.authorization.Granted?)
      ensures life.Alive? && !go && err == NoError ==> machine.job.state.IsTerminal()
    {
      hide Invariant;
      hide JobKept;
      hide Later;
      hide ArbitrationGate;
      ghost var start := machine.View();
      LaterReflexive(start);
      go, err, rechecked := false, Failed, machine.job;
      var answers: Answers := *;
      shown := answers;
      var loaded;
      life, loaded := Reload();
      if life.Crashed? { return; }
      ghost var read := machine.View();
      HolderKeeps(pid, start, read);
      IntentKeepsStanding(pid, start, read, g);
      if loaded.None? { return; }
      rechecked := loaded.value;
      if rechecked.state != ActionIntent { err := JobChanged; return; }
      if answers.pendingRevocation.Some? { life, err := AbortFrom(answers.pendingRevocation.value, start); return; }
      if rechecked.cancelRequested {
        life, err := AbortFrom(ValueOr(rechecked.cancelReason, "continuation_before_schedule"), start);
        return;
      }
      if rechecked.terms.policy == AfterAllStop {
        var ok, validated;
        life, ok, validated := ReadBarrierAuthority();
        if life.Crashed? { return; }
        ghost var authorized := machine.View();
        HolderKeeps(pid, read, authorized);
        LaterTransitive(start, read, authorized);
        IntentKeepsStanding(pid, read, authorized, g);
        if !ok { life, err := AbortFrom(answers.barrierReason, start); return; }
      }
      var gate := ArbitrationGate(rechecked, answers);
      if gate.Refused? { life, err := AbortFrom(gate.reason, start); return; }
      if rechecked.terms.policy == VerifiedSuccess && !answers.authorization.Granted? {
        life, err := AbortFrom(AuthorizationReason(answers.authorization), start);
        return;
      }
      if rechecked.generation != g { life, err := AbortFrom("job_changed_before_schedule", start); return; }
      go := true;
    }

    /** Roll back and keep the promise that a Cancel was attempted. */
    method RollBackFrom(rechecked: Job, receipt: Receipt, reason: string, ghost start: World) returns (life: Life)
      requires Invariant(machine.View()) && pid == machine.owner && rechecked.powerReceipt.Some?
      requires machine.job.state.IsPower() || machine.job.state.IsTerminal()
      requires Later(start, machine.View())
      modifies machine
      ensures Invariant(machine.View())
      ensures life.Crashed? ==> Gone(pid, old(machine.View()), machine.View())
      ensures life.Alive? ==>
        && Later(start, machine.View()) && CancelAttempted(machine.log, |start.log|)
        && (machine.lock == Some(pid) <==> old(machine.lock) == Some(pid))
    {
      hide Invariant;
      ghost var mid := machine.View();
      var err;
      life, err := CancelAcceptedAction(rechecked, receipt, reason);
      if life.Alive? {
        LaterTransitive(start, mid, machine.View());
        ghost var i :| |mid.log| <= i < |machine.log| && machine.log[i].CancelCalled?;
      }
    }

    method CancelFrom(receipt: Receipt, reason: string, ghost start: World) returns (life: Life, err: Err)
      requires Invariant(machine.View()) && pid == machine.owner
      requires Later(start, machine.View())
      modifies machine
      ensures Invariant(machine.View())
      ensures life.Crashed? ==> Gone(pid, old(machine.View()), machine.View())
      ensures life.Alive? ==>
        && Later(start, machine.View()) && CancelAttempted(machine.log, |start.log|)
        && (machine.lock == Some(pid) <==> old(machine.lock) == Some(pid))
      ensures life.Alive? && err == NoError ==> machine.job.state.IsTerminal()
    {
      hide Invariant;
      ghost var mid := machine.View();
      life, err := CancelPowerForReason(receipt, reason);
      if life.Alive? {
        LaterTransitive(start, mid, machine.View());
        ghost var i :| |mid.log| <= i < |machine.log| && machine.log[i].CancelCalled?;
      }
    }

    /**
     What schedule does with an accepted action: seal the receipt, look once more, mark the job scheduled.
     Every way out has either attempted a Cancel or recorded ACTION_SCHEDULED at the intent's generation.
     */
    method SettleAcceptance(g: nat, valid: bool, envelopeHash: EnvelopeHash, callHash: CallHash, receipt: Receipt,
                            rechecked: Job)
      returns (life: Life, err: Err)
      requires Invariant(machine.View()) && pid == machine.owner && machine.lock == Some(pid)
      requires IntentUnrevoked(machine.View(), g) && ScheduleCalled in machine.log && rechecked.powerReceipt.Some?
      modifies machine
      ensures Invariant(machine.View())
      ensures life.Crashed? ==> Gone(pid, old(machine.View()), machine.View())
      ensures life.Alive? ==>
        && Later(old(machine.View()), machine.View()) && machine.lock == Some(pid)
        && (CancelAttempted(machine.log, |old(machine.log)|) || ScheduledAfter(machine.log, |old(machine.log)|))
    {
      hide Invariant;
      hide JobKept;
      hide Later;
      hide GrantIntact;
      ghost var start := machine.View();
      LaterReflexive(start);
      err := Failed;
      if !valid { life := RollBackFrom(rechecked, receipt, "invalid_power_receipt", start); return; }
      var now := Now();
      var sealed;
      life, sealed := machine.PersistScheduleReceipt(pid, envelopeHash, callHash, receipt, now);
      if life.Crashed? { return; }
      ghost var kept := machine.View();
      HolderKeeps(pid, start, kept);
      IntentKeepsStanding(pid, start, kept, g);
      if !sealed { life := RollBackFrom(rechecked, receipt, "schedule_receipt_seal_failed", start); return; }
      var loaded;
      life, loaded := Reload();
      if life.Crashed? { return; }
      ghost var read := machine.View();
      SealedKept(pid, kept, read, receipt);
      HolderKeeps(pid, kept, read);
      LaterTransitive(start, kept, read);
      IntentKeepsStanding(pid, kept, read, g);
      if loaded.None? {
        life := RollBackFrom(rechecked, receipt, "job_changed_after_schedule", start);
        return;
      }
      var after := loaded.value;
      if after.cancelRequested {
        life, err := CancelFrom(receipt, ValueOr(after.cancelReason, "continuation_during_schedule"), start);
        return;
      }
      ghost var shown;
      life, err, shown := MarkScheduled(g, receipt, rechecked, after, start);
    }

    /** The gates after sealing, and the write of ACTION_SCHEDULED. */
    method MarkScheduled(g: nat, receipt: Receipt, rechecked: Job, after: Job, ghost start: World)
      returns (life: Life, err: Err, ghost shown: Answers)
      requires Invariant(machine.View()) && pid == machine.owner && machine.lock == Some(pid)
      requires IntentUnrevoked(machine.View(), g) && rechecked.powerReceipt.Some?
      requires Sealed(machine.View(), receipt) && Later(start, machine.View())
      modifies machine
      ensures Invariant(machine.View())
      ensures life.Crashed? ==> Gone(pid, old(machine.View()), machine.View())
      ensures life.Alive? ==>
        && Later(start, machine.View()) && machine.lock == Some(pid)
        && (CancelAttempted(machine.log, |start.log|) || ScheduledAfter(machine.log, |start.log|))
      ensures life.Alive? ==> CancelAttempted(machine.log, |start.log|) || MayCountDown(after, g, shown)
    {
      hide Invariant;
      hide JobKept;
      hide Later;
      hide GrantIntact;
      hide ArbitrationGate;
      err, life := Failed, Alive;
      ghost var entry := machine.View();
      LaterReflexive(entry);
      var answers: Answers := *;
      shown := answers;
      if answers.pendingRevocation.Some? {
        life, err := CancelFrom(receipt, answers.pendingRevocation.value, start);
        return;
      }
      var authorized := true;
      ghost var read := entry;
      if after.terms.policy == AfterAllStop {
        var validated;
        life, authorized, validated := ReadBarrierAuthority();
        if life.Crashed? { return; }
        read := machine.View();
        SealedKept(pid, entry, read, receipt);
        HolderKeeps(pid, entry, read);
        LaterTransitive(start, entry, read);
        IntentKeepsStanding(pid, entry, read, g);
      }
      if !authorized { life, err := CancelFrom(receipt, answers.barrierReason, start); return; }
      var gate := ArbitrationGate(after, answers);
      if gate.Refused? { life, err := CancelFrom(receipt, gate.reason, start); return; }
      if after.terms.policy == VerifiedSuccess && !answers.authorization.Granted? {
        life, err := CancelFrom(receipt, AuthorizationReason(answers.authorization), start);
        return;
      }
      if after.state != ActionIntent || after.generation != g {
        life := RollBackFrom(rechecked, receipt, "job_changed_after_schedule", start);
        err := JobChanged;
        return;
      }
      life := WriteScheduled(g, receipt, rechecked, start);
    }

    method WriteScheduled(g: nat, receipt: Receipt, rechecked: Job, ghost start: World) returns (life: Life)
      requires Invariant(machine.View()) && pid == machine.owner && machine.lock == Some(pid)
      requires IntentUnrevoked(machine.View(), g) && rechecked.powerReceipt.Some?
      requires Sealed(machine.View(), receipt) && Later(start, machine.View())
      modifies machine
      ensures Invariant(machine.View())
      ensures life.Crashed? ==> Gone(pid, old(machine.View()), machine.View())
      ensures life.Alive? ==>
        && Later(start, machine.View()) && machine.lock == Some(pid)
        && (CancelAttempted(machine.log, |start.log|) || ScheduledAfter(machine.log, |start.log|))
    {
      hide Invariant;
      hide JobKept;
      hide Later;
      hide Rely;
      hide WriteAllowed;
      hide Scheduled;
      hide AfterWrite;
      hide Sealed;
      hide IntentStands;
      hide ScheduledAfter;
      ghost var entry := machine.View();
      life := machine.Interfere(pid);
      if life.Crashed? { return; }
      ghost var before := machine.View();
      RelyKeepsJob(pid, entry, before);
      SealedKept(pid, entry, before, receipt);
      HolderKeeps(pid, entry, before);
      LaterTransitive(start, entry, before);
      IntentKeepsStanding(pid, entry, before, g);
      ScheduledAllowed(pid, before, g, receipt);
      var err, updated := machine.UpdateJob(pid, job => Scheduled(g, receipt, job));
      ghost var written := machine.View();
      ScheduledUpdate(before, written, start, g, receipt);
      if err == NoError { return; }
      life := RollBackFrom(rechecked, receipt, "scheduled_state_persist_failed", start);
      if life.Crashed? {
        LaterTransitive(entry, before, written);
        GoneLater(pid, entry, written, machine.View());
      }
    }

    /**
     From the last check to the end of the transaction: call-start, Backend.Schedule, and what its answer
     obliges. No acceptance comes back without a Cancel attempt or ACTION_SCHEDULED after it.
     */
    method CallBackend(g: nat, request: PowerRequest, capabilities: Capabilities, envelope: Envelope, rechecked: Job)
      returns (life: Life, err: Err)
      requires Invariant(machine.View()) && pid == machine.owner && machine.lock == Some(pid)
      requires IntentUnrevoked(machine.View(), g) && rechecked.powerReceipt.Some?
      modifies machine
      ensures Invariant(machine.View())
      ensures life.Crashed? ==> Gone(pid, old(machine.View()), machine.View())
      ensures life.Alive? ==>
        machine.lock == Some(pid) && NothingLost(old(machine.View()), machine.View())
    {
      hide Invariant;
      hide JobKept;
      hide Later;
      hide Rely;
      hide NothingLost;
      ghost var start := machine.View();
      LaterReflexive(start);
      err := Failed;
      IntentIsRecorded(machine.log, g);
      var now := Now();
      var call;
      life, call := machine.PersistScheduleCallStarted(pid, envelope.hash, now);
      if life.Crashed? { return; }
      ghost var started := machine.View();
      HolderKeeps(pid, start, started);
      IntentKeepsStanding(pid, start, started, g);
      if call.None? {
        life, err := AbortFrom("schedule_call_start_persist_failed", start);
        if life.Alive? {
          NothingAccepted(start, machine.View());
        } else {
          GoneLater(pid, start, started, machine.View());
        }
        return;
      }
      life, err := EnterBackend(g, request, capabilities, envelope, call.value, rechecked);
      if life.Alive? {
        StillNothingLost(start, started, machine.View());
      } else {
        GoneLater(pid, start, started, machine.View());
      }
    }

    /** The call itself, with call-start on disk: the others may still run before it is entered. */
    method EnterBackend(g: nat, request: PowerRequest, capabilities: Capabilities, envelope: Envelope, call: Call,
                        rechecked: Job)
      returns (life: Life, err: Err)
      requires Invariant(machine.View()) && pid == machine.owner && machine.lock == Some(pid)
      requires machine.token == Some(pid)
      requires IntentUnrevoked(machine.View(), g) && rechecked.powerReceipt.Some?
      modifies machine
      ensures Invariant(machine.View())
      ensures life.Crashed? ==> Gone(pid, old(machine.View()), machine.View())
      ensures life.Alive? ==>
        machine.lock == Some(pid) && NothingLost(old(machine.View()), machine.View())
    {
      hide Invariant;
      hide JobKept;
      hide Later;
      hide Rely;
      hide NothingLost;
      err := Failed;
      ghost var start := machine.View();
      life := machine.Interfere(pid);
      if life.Crashed? { return; }
      ghost var entering := machine.View();
      EnteringKeeps(pid, start, entering, g);
      var receipt;
      ghost var returned;
      life, receipt, returned := machine.BackendSchedule(pid);
      if life.Crashed? { GoneLater(pid, start, entering, machine.View()); return; }
      ghost var answered := machine.View();
      HolderKeeps(pid, entering, returned);
      LaterTransitive(start, entering, returned);
      IntentKeepsStanding(pid, entering, returned, g);
      EventStays(returned.log, answered.log, IntentRecorded(g));
      if receipt.None? {
        ghost var unknown;
        life, err, unknown := ScheduleOutcomeUnknown(envelope.body.intentReceipt);
      } else {
        var valid := ValidReceiptForRequest(receipt.value, request, capabilities);
        life, err := SettleAcceptance(g, valid, envelope.hash, call.hash, receipt.value, rechecked);
      }
      if life.Alive? {
        AcceptanceSettled(start, returned, answered, machine.View());
      } else {
        LogGrows(start, returned);
      }
    }

    /**
     Schedule returned an error: the action may or may not be pending, so the intent stays. `unknown` is the job
     as it was marked; a request to cancel found in it is answered with a Cancel of the intent's own handle.
     */
    method ScheduleOutcomeUnknown(intentReceipt: Receipt) returns (life: Life, err: Err, ghost unknown: Option<Job>)
      requires Invariant(machine.View()) && pid == machine.owner && machine.lock == Some(pid)
      modifies machine
      ensures Invariant(machine.View())
      ensures life.Crashed? ==> Gone(pid, old(machine.View()), machine.View())
      ensures life.Alive? ==> Later(old(machine.View()), machine.View()) && machine.lock == Some(pid)
      ensures life.Alive? && unknown.Some? ==>
        && unknown.value.state == ActionIntent
        && (unknown.value.cancelRequested ==> CancelAttempted(machine.log, |old(machine.log)|))
      ensures life.Alive? && err == NoError ==>
        unknown.Some? && unknown.value.cancelRequested && machine.job.state.IsTerminal()
    {
      hide Invariant;
      hide JobKept;
      hide Later;
      hide Rely;
      hide WriteAllowed;
      hide JobEvents;
      ghost var start := machine.View();
      err, unknown := Failed, None;
      life := machine.Interfere(pid);
      if life.Crashed? { return; }
      ghost var before := machine.View();
      RelyKeepsJob(pid, start, before);
      HolderKeeps(pid, start, before);
      OutcomeUnknownAllowed(pid, before);
      var updated;
      err, updated := machine.UpdateJob(pid, job => OutcomeUnknown(job));
      ghost var written := machine.View();
      LaterReflexive(before);
      if OutcomeUnknown(before.job).Some? { WriteIsLater(before, OutcomeUnknown(before.job).value); }
      LaterTransitive(start, before, written);
      if err != NoError { return; }
      unknown := Some(updated);
      if updated.cancelRequested {
        life, err := CancelFrom(intentReceipt,
                                ValueOr(updated.cancelReason, "cancellation_during_unknown_schedule_outcome"), start);
        if life.Crashed? { GoneLater(pid, start, written, machine.View()); }
        return;
      }
      err := Failed;
    }

    /** Everything schedule does while it holds the machine lock. */
    method ScheduleLocked() returns (life: Life, err: Err)
      requires Invariant(machine.View()) && pid == machine.owner && machine.lock == Some(pid)
      requires !machine.job.state.IsPower()
      modifies machine
      ensures Invariant(machine.View())
      ensures life.Crashed? ==> Gone(pid, old(machine.View()), machine.View())
      ensures life.Alive? ==>
        machine.lock == Some(pid) && NothingLost(old(machine.View()), machine.View())
    {
      hide Invariant;
      hide JobKept;
      hide Later;
      hide Rely;
      hide NothingLost;
      hide GrantIntact;
      ghost var start := machine.View();
      var go, seen;
      ghost var since;
      ghost var shown;
      life, go, err, seen, since, shown := FirstLook();
      if life.Crashed? { return; }
      ghost var looked := machine.View();
      NothingAccepted(start, looked);
      if !go { return; }
      var current;
      ghost var shownAgain;
      life, go, err, current, shownAgain := SecondLook(seen, since);
      if life.Crashed? { GoneLater(pid, start, looked, machine.View()); return; }
      ghost var again := machine.View();
      LaterTransitive(start, looked, again);
      NothingAccepted(start, again);
      if !go { return; }
      var request, capabilities, envelope;
      life, go, err, request, capabilities, envelope := SealIntentEnvelope(seen, since, current);
      if life.Crashed? { GoneLater(pid, start, again, machine.View()); return; }
      ghost var sealed := machine.View();
      LaterTransitive(start, again, sealed);
      NothingAccepted(start, sealed);
      if !go { return; }
      life, err := RecordAndCall(seen, since, request, capabilities, envelope.value);
      if life.Crashed? { GoneLater(pid, start, sealed, machine.View()); return; }
      StillNothingLost(start, sealed, machine.View());
    }

    method RecordAndCall(seen: Job, ghost since: nat, request: PowerRequest, capabilities: Capabilities,
                         envelope: Envelope)
      returns (life: Life, err: Err)
      requires Invariant(machine.View()) && pid == machine.owner && machine.lock == Some(pid)
      requires GrantIntact(machine.View(), seen, since) && machine.inPower == {} && !seen.terms.dryRun
      requires machine.records.envelope == Some(envelope)
      modifies machine
      ensures Invariant(machine.View())
      ensures life.Crashed? ==> Gone(pid, old(machine.View()), machine.View())
      ensures life.Alive? ==>
        machine.lock == Some(pid) && NothingLost(old(machine.View()), machine.View())
    {
      hide Invariant;
      hide JobKept;
      hide Later;
      hide NothingLost;
      hide GrantIntact;
      ghost var start := machine.View();
      life, err := RecordIntent(seen, since, capabilities, envelope);
      if life.Crashed? { return; }
      ghost var intended := machine.View();
      NothingAccepted(start, intended);
      if err != NoError { return; }
      var go, rechecked;
      ghost var shown;
      life, go, err, rechecked, shown := RecheckIntent(seen.generation);
      if life.Crashed? { GoneLater(pid, start, intended, machine.View()); return; }
      ghost var checked := machine.View();
      LaterTransitive(start, intended, checked);
      NothingAccepted(start, checked);
      if !go { return; }
      life, err := CallBackend(seen.generation, request, capabilities, envelope, rechecked);
      if life.Crashed? { GoneLater(pid, start, checked, machine.View()); return; }
      StillNothingLost(start, checked, machine.View());
    }

    /** Take the machine lock, or give the job up. */
    method LockMachine() returns (life: Life, locked: bool, err: Err)
      requires Invariant(machine.View()) && pid == machine.owner && machine.lock != Some(pid)
      requires !machine.job.state.IsPower()
      modifies machine
      ensures Invariant(machine.View())
      ensures life.Crashed? ==> Gone(pid, old(machine.View()), machine.View())
      ensures life.Alive? ==>
        && Later(old(machine.View()), machine.View()) && !machine.job.state.IsPower()
        && (locked <==> machine.lock == Some(pid))
    {
      hide Invariant;
      hide JobKept;
      hide Rely;
      locked, err := false, Failed;
      ghost var start := machine.View();
      life := machine.Interfere(pid);
      if life.Crashed? { return; }
      ghost var before := machine.View();
      RelyKeepsJob(pid, start, before);
      JobKeptIsLater(pid, start, before);
      OwnerStaysOut(pid, start, before);
      locked := machine.AcquireLock(pid);
      if !locked {
        life, err := RefuseFrom(ConcurrentConflict, "machine_power_lock_held", start);
      }
    }

    /** schedule: under the machine lock from the inventory to the countdown record, or not at all. */
    method Schedule() returns (life: Life, err: Err)
      requires Invariant(machine.View()) && pid == machine.owner && machine.lock != Some(pid)
      requires !machine.job.state.IsPower()
      modifies machine
      ensures Invariant(machine.View()) && machine.lock != Some(pid)
      ensures life.Crashed? ==> Gone(pid, old(machine.View()), machine.View())
      ensures life.Alive? ==> NothingLost(old(machine.View()), machine.View())
    {
      hide Invariant;
      hide Later;
      hide NoLostCancellation;
      ghost var start := machine.View();
      var locked;
      life, locked, err := LockMachine();
      if life.Crashed? { return; }
      ghost var entered := machine.View();
      NothingAccepted(start, entered);
      LogGrows(start, entered);
      if !locked { return; }
      life, err := ScheduleLocked();
      if life.Alive? {
        StillNothingLost(start, entered, machine.View());
        machine.ReleaseLock(pid);
      }
    }

    // ---------------------------------------------------------------- countdown

    /**
     monitorScheduled. Without an error the job is terminal, or the deadline has come within the lateness
     bound and nobody has asked to cancel; every other way out has attempted a Cancel after `seen`, the
     history position of its last look at the job.
     */
    method MonitorScheduled(scheduled: Job, polls: nat) returns (life: Life, watch: Watch, now: nat, ghost seen: nat)
      requires Invariant(machine.View()) && pid == machine.owner && machine.lock != Some(pid)
      modifies machine
      ensures Invariant(machine.View())
      ensures life.Crashed? ==> Gone(pid, old(machine.View()), machine.View())
      ensures life.Alive? ==>
        && Later(old(machine.View()), machine.View()) && machine.lock != Some(pid)
        && |old(machine.log)| <= seen <= |machine.log|
      ensures life.Alive? && (scheduled.powerReceipt.None? || scheduled.scheduledFor.None?) ==> watch == Unwatchable
      ensures life.Alive? && scheduled.powerReceipt.Some? && scheduled.scheduledFor.Some? ==>
        WatchEnded(watch, now, seen, scheduled.scheduledFor.value, maxCountdownLateness, machine.View())
    {
      hide Invariant;
      hide JobKept;
      hide Later;
      hide WatchEnded;
      ghost var start := machine.View();
      LaterReflexive(start);
      life, watch, now, seen := Alive, Unwatchable, ZERO_TIME, |machine.log|;
      if scheduled.powerReceipt.None? || scheduled.scheduledFor.None? { return; }
      var deadline := scheduled.scheduledFor.value;
      var poll := polls;
      while poll > 0
        invariant Invariant(machine.View()) && machine.lock != Some(pid)
        invariant Later(start, machine.View())
      {
        poll := poll - 1;
        ghost var before := machine.View();
        var ended;
        life, ended, watch, now, seen := WatchOnce(scheduled, deadline, start);
        if life.Crashed? { LogGrows(start, before); return; }
        if ended { return; }
      }
      LogGrows(start, machine.View());
      life := Crashed;
    }

    method WatchOnce(scheduled: Job, deadline: nat, ghost start: World)
      returns (life: Life, ended: bool, watch: Watch, now: nat, ghost seen: nat)
      requires Invariant(machine.View()) && pid == machine.owner && machine.lock != Some(pid)
      requires scheduled.powerReceipt.Some? && Later(start, machine.View())
      modifies machine
      ensures Invariant(machine.View())
      ensures life.Crashed? ==> Gone(pid, old(machine.View()), machine.View())
      ensures life.Alive? ==>
        && Later(start, machine.View()) && machine.lock != Some(pid)
        && |start.log| <= seen <= |machine.log|
        && (ended ==> WatchEnded(watch, now, seen, deadline, maxCountdownLateness, machine.View()))
    {
      hide Invariant;
      hide JobKept;
      hide Later;
      hide CancelAttempted;
      hide WatchEnded;
      ended, watch, now := true, LostTrack, ZERO_TIME;
      ghost var entry := machine.View();
      var loaded;
      life, loaded := Reload();
      seen := |machine.log|;
      if life.Crashed? { return; }
      ghost var read := machine.View();
      JobKeptIsLater(pid, entry, read);
      LaterTransitive(start, entry, read);
      LogGrows(start, read);
      if loaded.Some? && loaded.value.state.IsTerminal() {
        watch := SawTerminal;
        SawTheEnd(now, seen, deadline, maxCountdownLateness, read);
        return;
      }
      if loaded.None? || loaded.value.state != ActionScheduled || loaded.value.powerReceipt.None?
         || loaded.value.powerReceipt.value.checksum != scheduled.powerReceipt.value.checksum {
        var reason := if loaded.None? then "countdown_state_unavailable" else "countdown_state_or_receipt_changed";
        var err;
        life, err := CancelWatched(scheduled.powerReceipt.value, reason, false, start);
        if life.Alive? { CancelledAfter(LostTrack, now, seen, deadline, maxCountdownLateness, machine.View()); }
      } else {
        ghost var shown, authority;
        life, ended, watch, now, shown, authority := Judge(loaded.value, deadline, start);
      }
      if life.Crashed? { GoneLater(pid, entry, read, machine.View()); }
    }

    /** The barrier's own authority during the countdown: a reason to cancel, or the barrier as it was found. */
    method AskBarrier(barrierReason: string, ghost start: World)
      returns (life: Life, reason: string, ghost authority: Option<Job>)
      requires Invariant(machine.View()) && pid == machine.owner && machine.lock != Some(pid)
      requires Later(start, machine.View())
      modifies machine
      ensures Invariant(machine.View())
      ensures life.Crashed? ==> Gone(pid, old(machine.View()), machine.View())
      ensures life.Alive? ==>
        && Later(start, machine.View()) && Later(old(machine.View()), machine.View()) && machine.lock != Some(pid)
        && (reason == "" ==> authority.Some?)
      ensures authority.Some? ==>
        BarrierBound(authority.value) && authority.value.BarrierSatisfied() && !authority.value.cancelRequested
    {
      hide Invariant;
      hide JobKept;
      hide Later;
      hide BarrierBound;
      hide Job.BarrierSatisfied;
      reason, authority := "", None;
      ghost var read := machine.View();
      var ok, validated;
      life, ok, validated := ReadBarrierAuthority();
      if life.Crashed? { return; }
      ghost var looked := machine.View();
      JobKeptIsLater(pid, read, looked);
      LaterTransitive(start, read, looked);
      if ok { return life, "", Some(validated); }
      reason := ValueOr(barrierReason, "barrier_binding_incomplete");
    }

    /**
     Everything that can end a countdown whose job still looks scheduled. The watch goes on only if every check of
     the look passed, or if a Cancel was attempted and is to be tried again. `authority` is the barrier as its own
     authority was read during the look.
     */
    method Judge(current: Job, deadline: nat, ghost start: World)
      returns (life: Life, ended: bool, watch: Watch, now: nat, ghost shown: Answers, ghost authority: Option<Job>)
      requires Invariant(machine.View()) && pid == machine.owner && machine.lock != Some(pid)
      requires current == machine.job && current.state == ActionScheduled && current.powerReceipt.Some?
      requires Later(start, machine.View())
      modifies machine
      ensures Invariant(machine.View())
      ensures life.Crashed? ==> Gone(pid, old(machine.View()), machine.View())
      ensures life.Alive? ==>
        && Later(start, machine.View()) && machine.lock != Some(pid)
        && |old(machine.log)| <= |machine.log|
        && (ended ==> WatchEnded(watch, now, |old(machine.log)|, deadline, maxCountdownLateness, machine.View()))
      ensures life.Alive? && !ended ==>
        CancelAttempted(machine.log, |old(machine.log)|) || MayGoOn(current, shown, deadline, authority)
      ensures authority.Some? ==>
        BarrierBound(authority.value) && authority.value.BarrierSatisfied() && !authority.value.cancelRequested
    {
      hide Invariant;
      hide JobKept;
      hide Later;
      hide CancelAttempted;
      hide CountdownLook;
      hide LateLook;
      hide BarrierBound;
      hide Job.BarrierSatisfied;
      hide MayGoOn;
      hide WatchEnded;
      hide ValueOr;
      ghost var read := machine.View();
      life, ended, watch := Alive, true, ReachedDeadline;
      var answers: Answers := *;
      now, shown, authority := answers.now, answers, None;
      var look := CountdownLook(current, answers, deadline, maxCountdownLateness);
      if look.AtDeadline? {
        NobodyAsked(read);
        CameToTheDeadline(now, |read.log|, deadline, maxCountdownLateness, read);
        return;
      }
      var reason := look.reason;
      LaterReflexive(read);
      if !current.cancelRequested && reason == "" && current.terms.policy == AfterAllStop {
        life, reason, authority := AskBarrier(answers.barrierReason, start);
        if life.Crashed? { return; }
      }
      ghost var asked := machine.View();
      LogGrows(read, asked);
      reason := LateLook(current, answers, reason);
      var interrupted := Answer();
      if reason == "" && !interrupted {
        GoesOn(current, answers, deadline, maxCountdownLateness, authority);
        ended := false;
        return;
      }
      life, ended, watch := StopCountdown(current.powerReceipt.value, reason, interrupted, start);
      if life.Crashed? { GoneLater(pid, read, asked, machine.View()); return; }
      CancelledAfter(watch, now, |read.log|, deadline, maxCountdownLateness, machine.View());
    }

    /** Cancel because the look found a reason, or because the wait was interrupted. */
    method StopCountdown(receipt: Receipt, reason: string, interrupted: bool, ghost start: World)
      returns (life: Life, ended: bool, watch: Watch)
      requires Invariant(machine.View()) && pid == machine.owner && machine.lock != Some(pid)
      requires Later(start, machine.View())
      modifies machine
      ensures Invariant(machine.View())
      ensures life.Crashed? ==> Gone(pid, old(machine.View()), machine.View())
      ensures life.Alive? ==>
        && Later(start, machine.View()) && machine.lock != Some(pid)
        && |old(machine.log)| <= |machine.log|
        && (watch.Interrupted? || (watch.ConfirmedCancel? && machine.job.state.IsTerminal()))
        && forall from: nat :: from <= |old(machine.log)| ==> CancelAttempted(machine.log, from)
    {
      hide Invariant;
      hide Later;
      hide CancelAttempted;
      ended, watch := true, Interrupted;
      var why := ValueOr(reason, "supervisor_interrupted_during_countdown");
      var err;
      life, err := CancelWatched(receipt, why, interrupted && reason != "", start);
      if life.Crashed? { return; }
      if err == NoError && reason != "" { watch := ConfirmedCancel; }
      ended := interrupted || err == NoError;
    }

    /**
     Cancel on behalf of the watch, a second time if that fails and the watch is to end: the attempt follows every
     earlier look.
     */
    method CancelWatched(receipt: Receipt, reason: string, retry: bool, ghost start: World) returns (life: Life,
                         err: Err)
      requires Invariant(machine.View()) && pid == machine.owner && machine.lock != Some(pid)
      requires Later(start, machine.View())
      modifies machine
      ensures Invariant(machine.View())
      ensures life.Crashed? ==> Gone(pid, old(machine.View()), machine.View())
      ensures life.Alive? ==>
        && Later(start, machine.View()) && machine.lock != Some(pid)
        && |old(machine.log)| <= |machine.log|
        && forall from: nat :: from <= |old(machine.log)| ==> CancelAttempted(machine.log, from)
      ensures life.Alive? && err == NoError ==> machine.job.state.IsTerminal()
    {
      hide Invariant;
      hide Later;
      ghost var entry := machine.View();
      life, err := CancelPowerForReason(receipt, reason);
      if life.Crashed? { return; }
      ghost var tried := machine.View();
      LaterTransitive(start, entry, tried);
      if err != NoError && retry {
        var again;
        life, again := CancelPowerForReason(receipt, reason);
        if life.Crashed? { GoneLater(pid, entry, tried, machine.View()); return; }
        AttemptStays(tried, machine.View(), |entry.log|);
        LaterTransitive(start, tried, machine.View());
        LaterTransitive(entry, tried, machine.View());
      }
      LogGrows(entry, machine.View());
      forall from: nat | from <= |entry.log| ensures CancelAttempted(machine.log, from) {
        AttemptFromEarlier(machine.log, |entry.log|, from);
      }
    }

    // ---------------------------------------------------------------- run

    /** captureH1, captureH2 and captureReadyH3: refuse, wait, or record the snapshot. */
    method Capture(phase: Phase, seen: Job) returns (life: Life, gate: Gate, err: Err)
      requires Invariant(machine.View()) && pid == machine.owner && machine.lock != Some(pid)
      requires !machine.job.state.IsPower()
      modifies machine
      ensures Invariant(machine.View())
      ensures life.Crashed? ==> Gone(pid, old(machine.View()), machine.View())
      ensures life.Alive? ==>
        && Later(old(machine.View()), machine.View()) && machine.lock != Some(pid) && !machine.job.state.IsPower()
        && (gate.Refused? && err == NoError ==> machine.job.state.IsTerminal())
    {
      hide Invariant;
      hide JobKept;
      hide Later;
      hide Rely;
      hide WriteAllowed;
      hide JobEvents;
      hide Captured;
      hide CaptureGate;
      ghost var start := machine.View();
      LaterReflexive(start);
      life, err := Alive, NoError;
      var answers: Answers := *;
      gate := CaptureGate(phase, seen, answers);
      if gate.Refused? { life, err := Refuse(gate.state, gate.reason); return; }
      if gate.Changed? { return; }
      life := machine.Interfere(pid);
      if life.Crashed? { return; }
      ghost var before := machine.View();
      RelyKeepsJob(pid, start, before);
      JobKeptIsLater(pid, start, before);
      OwnerStaysOut(pid, start, before);
      CapturedAllowed(pid, before, phase, seen, answers.snapshot.value);
      var updated;
      err, updated := machine.UpdateJob(pid, job => Captured(phase, seen, answers.snapshot.value, job));
      LaterReflexive(before);
      if Captured(phase, seen, answers.snapshot.value, before.job).Some? {
        WriteIsLater(before, Captured(phase, seen, answers.snapshot.value, before.job).value);
      }
      LaterTransitive(start, before, machine.View());
    }

    /**
     Run. It returns without an error only when the job is terminal or its countdown has come to the deadline
     with no request to cancel ever made, and over the whole run no accepted action was left without a
     Cancel attempt or a record of the countdown.
     */
    method Run(polls: nat) returns (life: Life, err: Err)
      requires Invariant(machine.View()) && machine.lock != Some(pid)
      modifies machine
      ensures Invariant(machine.View()) && machine.lock != Some(pid)
      ensures life.Crashed? ==> Gone(pid, old(machine.View()), machine.View())
      ensures life.Alive? ==> NothingLost(old(machine.View()), machine.View())
      ensures life.Alive? && err == NoError ==>
        machine.job.state.IsTerminal() || (machine.job.state == ActionScheduled && CancelAsked !in machine.log)
    {
      hide Invariant;
      hide Later;
      hide NoLostCancellation;
      ghost var start := machine.View();
      LaterReflexive(start);
      NothingAccepted(start, start);
      life, err := Alive, Failed;
      if pid != machine.owner { return; }
      var poll := polls;
      while poll > 0
        invariant Invariant(machine.View()) && machine.lock != Some(pid)
        invariant NothingLost(start, machine.View())
      {
        poll := poll - 1;
        ghost var before := machine.View();
        var ended;
        life, ended, err := Turn(polls);
        if life.Crashed? { return; }
        LosesNothing(start, before, machine.View());
        if ended { return; }
      }
      life := Crashed;
    }

    /** One round of Run's loop. */
    method Turn(polls: nat) returns (life: Life, ended: bool, err: Err)
      requires Invariant(machine.View()) && pid == machine.owner && machine.lock != Some(pid)
      modifies machine
      ensures Invariant(machine.View()) && machine.lock != Some(pid)
      ensures life.Crashed? ==> Gone(pid, old(machine.View()), machine.View())
      ensures life.Alive? ==> NothingLost(old(machine.View()), machine.View())
      ensures life.Alive? && ended && err == NoError ==>
        machine.job.state.IsTerminal() || (machine.job.state == ActionScheduled && CancelAsked !in machine.log)
    {
      hide Invariant;
      hide JobKept;
      hide Later;
      hide NothingLost;
      ended, err := true, Failed;
      ghost var start := machine.View();
      var loaded;
      life, loaded := Reload();
      if life.Crashed? { return; }
      ghost var read := machine.View();
      JobKeptIsLater(pid, start, read);
      LogGrows(start, read);
      NothingAccepted(start, read);
      if loaded.None? { return; }
      var job := loaded.value;
      if job.state.IsTerminal() { err := NoError; return; }
      DryRunsStayOut(read);
      if job.terms.dryRun {
        life, err := RefuseFrom(Orphaned, "dry_run_supervisor_not_allowed", start);
        if life.Alive? { NothingAccepted(start, machine.View()); }
        return;
      }
      if job.Unresolved() && job.state != ActionScheduled { return; }
      if job.state == ActionScheduled {
        ghost var seen;
        var watch, now;
        life, watch, now, seen := MonitorScheduled(job, polls);
        if life.Crashed? { return; }
        LaterTransitive(start, read, machine.View());
        NothingAccepted(start, machine.View());
        err := if watch.SawTerminal? || watch.ConfirmedCancel? || watch.ReachedDeadline? then NoError else Failed;
        return;
      }
      life, ended, err := Advance(job);
      if life.Alive? { StillNothingLost(start, read, machine.View()); }
    }

    /** Run's dispatch for a job that has no action pending. */
    method Advance(job: Job) returns (life: Life, ended: bool, err: Err)
      requires Invariant(machine.View()) && pid == machine.owner && machine.lock != Some(pid)
      requires job == machine.job && !job.state.IsPower()
      modifies machine
      ensures Invariant(machine.View()) && machine.lock != Some(pid)
      ensures life.Crashed? ==> Gone(pid, old(machine.View()), machine.View())
      ensures life.Alive? ==> NothingLost(old(machine.View()), machine.View())
      ensures life.Alive? && ended && err == NoError ==> machine.job.state.IsTerminal()
    {
      hide Invariant;
      hide Later;
      hide NothingLost;
      ghost var start := machine.View();
      LaterReflexive(start);
      NothingAccepted(start, start);
      life, ended, err := Alive, true, Failed;
      var now := Now();
      var answers: Answers := *;
      var refusal := RunGate(job, now, answers);
      if refusal.Refused? {
        life, err := Refuse(refusal.state, refusal.reason);
        if life.Alive? { NothingAccepted(start, machine.View()); }
        return;
      }
      var ready := job.state == StopObserved;
      if job.terms.policy == VerifiedSuccess {
        var phase := NextPhase(job);
        if phase.Some? {
          var gate;
          life, gate, err := Capture(phase.value, job);
          if life.Crashed? { return; }
          NothingAccepted(start, machine.View());
          ended := err == Failed;
          if ended { return; }
          if !gate.Passed? || err != NoError || phase.value != H3 { return; }
        }
      }
      if ready {
        ghost var before := machine.View();
        life, err := Schedule();
        if life.Crashed? { GoneLater(pid, start, before, machine.View()); return; }
        StillNothingLost(start, before, machine.View());
        ended := !(err == NoError || (err == JobChanged && ObservableStop(job.terms.policy)));
        return;
      }
      var interrupted := Answer();
      ended := interrupted;
    }
  }

  function RunGate(job: Job, now: nat, answers: Answers): (gate: Gate)
    ensures gate.Refused? ==> gate.state.IsTerminal()
  {
    if ObservableStop(job.terms.policy) then
      if job.ExpiredAt(now) then Refused(Expired, "arm_expired") else Passed
    else if answers.authorization.GrantUnavailable? then
      Refused(PrivilegeUnavailable, "verified_success_authority_unavailable")
    else if answers.policyFingerprint == "" then
      Refused(HostUnavailable, "verified_success_supervisor_configuration_unavailable")
    else if !PolicyMatches(job, answers) then Refused(PrivilegeUnavailable, "power_policy_changed_after_arm")
    else if job.hookFingerprintH1 != "" && job.hostInstanceID == "" then
      Refused(HostUnavailable, "host_instance_identity_missing")
    else if job.ExpiredAt(now) then Refused(Expired, "arm_expired")
    else Passed
  }

  /** The host snapshot a verified_success job needs next. */
  function NextPhase(job: Job): Option<Phase> {
    if job.sessionID != "" && job.hookFingerprintH1 == "" then Some(H1)
    else if job.state == ReadyPendingStop && job.finishObserved && job.hookFingerprintH2 == "" then Some(H2)
    else if job.state != StopObserved then None
    else if job.hookFingerprintH2 == "" then Some(H2)
    else Some(H3)
  }

  lemma DryRunsStayOut(w: World)
    requires Invariant(w)
    ensures w.job.terms.dryRun ==> !w.job.state.IsPower()
  {
  }

  /**
   The only ways a countdown watch may end: on a terminal job, at the deadline with no request to cancel
   ever made, or having attempted a Cancel after its last look at history position `seen`.
   */
  predicate WatchEnded(watch: Watch, now: nat, seen: nat, deadline: nat, lateness: nat, w: World) {
    match watch
    case Unwatchable => false
    case SawTerminal => w.job.state.IsTerminal()
    case ReachedDeadline =>
      w.job.state == ActionScheduled && CancelAsked !in w.log && deadline <= now <= deadline + lateness
    case ConfirmedCancel => w.job.state.IsTerminal() && CancelAttempted(w.log, seen)
    case Interrupted | LostTrack => CancelAttempted(w.log, seen)
  }

  lemma SawTheEnd(now: nat, seen: nat, deadline: nat, lateness: nat, w: World)
    requires w.job.state.IsTerminal()
    ensures WatchEnded(SawTerminal, now, seen, deadline, lateness, w)
  {
  }

  lemma CancelledAfter(watch: Watch, now: nat, seen: nat, deadline: nat, lateness: nat, w: World)
    requires watch.Interrupted? || watch.LostTrack? || (watch.ConfirmedCancel? && w.job.state.IsTerminal())
    requires CancelAttempted(w.log, seen)
    ensures WatchEnded(watch, now, seen, deadline, lateness, w)
  {
  }

  lemma CameToTheDeadline(now: nat, seen: nat, deadline: nat, lateness: nat, w: World)
    requires w.job.state == ActionScheduled && CancelAsked !in w.log && deadline <= now <= deadline + lateness
    ensures WatchEnded(ReachedDeadline, now, seen, deadline, lateness, w)
  {
  }

  lemma LosesNothing(w: World, mid: World, w': World)
    requires NothingLost(w, mid) && NothingLost(mid, w')
    ensures NothingLost(w, w')
  {
    forall i | |w.log| <= i < |w'.log| && w'.log[i] == ScheduleReturned(true)
      ensures CancelAttempted(w'.log, i) || ScheduledAfter(w'.log, i)
    {
      if i < |mid.log| {
        assert mid.log[i] == w'.log[i];
        if CancelAttempted(mid.log, i) {
          var k :| i <= k < |mid.log| && mid.log[k].CancelCalled?;
          assert w'.log[k] == mid.log[k];
        } else {
          var k :| i <= k < |mid.log| && mid.log[k].ScheduledRecorded?
                   && IntentRecorded(mid.log[k].generation) in mid.log[..k];
          assert w'.log[k] == mid.log[k] && w'.log[..k] == mid.log[..k];
        }
      }
    }
  }

  /** A request to cancel made before the last look is never left without an answer. */
  lemma NoRequestIgnored(watch: Watch, now: nat, seen: nat, deadline: nat, lateness: nat, w: World, i: nat)
    requires WatchEnded(watch, now, seen, deadline, lateness, w)
    requires i < |w.log| && i <= seen && w.log[i] == CancelAsked
    ensures w.job.state.IsTerminal() || CancelAttempted(w.log, i)
  {
    if !w.job.state.IsTerminal() {
      AttemptFromEarlier(w.log, seen, i);
    }
  }

  lemma AttemptFromEarlier(log: seq<Event>, late: nat, early: nat)
    requires CancelAttempted(log, late) && early <= late
    ensures CancelAttempted(log, early)
  {
    var i :| late <= i < |log| && log[i].CancelCalled?;
  }

  /** As long as a job in intent or scheduled shows no request, none was ever made. */
  lemma NobodyAsked(w: World)
    requires Invariant(w) && w.job.state.IsPower() && !w.job.cancelRequested
    ensures CancelAsked !in w.log
  {
  }

  /** Nothing was accepted between two worlds without a returning schedule call. */
  lemma NothingAccepted(w: World, w': World)
    requires Later(w, w')
    ensures NothingLost(w, w')
  {
  }

  lemma StillNothingLost(w: World, mid: World, w': World)
    requires Later(w, mid) && NothingLost(mid, w')
    ensures NothingLost(w, w')
  {
    assert forall j :: |w.log| <= j < |mid.log| ==> w'.log[j] == mid.log[j];
  }

  /** One schedule call came back between `w` and `w'`, and what an acceptance obliges was done. */
  lemma AcceptanceSettled(w: World, returned: World, answered: World, w': World)
    requires Later(w, returned) && Later(answered, w') && answered.job.terms == returned.job.terms
    requires returned.log <= answered.log && |answered.log| == |returned.log| + 1
    requires answered.log[|returned.log|] == ScheduleReturned(true) ==>
      CancelAttempted(w'.log, |answered.log|) || ScheduledAfter(w'.log, |answered.log|)
    ensures NothingLost(w, w')
  {
    assert forall j :: |w.log| <= j < |returned.log| ==> w'.log[j] == returned.log[j];
    forall i | |w.log| <= i < |w'.log| && w'.log[i] == ScheduleReturned(true)
      ensures CancelAttempted(w'.log, i) || ScheduledAfter(w'.log, i)
    {
      assert i == |returned.log|;
      assert answered.log[i] == w'.log[i];
      if CancelAttempted(w'.log, |answered.log|) {
        var k :| |answered.log| <= k < |w'.log| && w'.log[k].CancelCalled?;
      } else {
        var k :| |answered.log| <= k < |w'.log| && w'.log[k].ScheduledRecorded?
                 && IntentRecorded(w'.log[k].generation) in w'.log[..k];
      }
    }
  }

  lemma IntentIsRecorded(log: seq<Event>, g: nat)
    requires IntentRecorded(g) in log
    ensures HasIntent(log)
  {
    var i :| 0 <= i < |log| && log[i] == IntentRecorded(g);
    assert log[i].IntentRecorded?;
  }

  lemma LogGrows(w: World, w': World)
    requires Later(w, w')
    ensures w.log <= w'.log && w'.job.terms == w.job.terms
  {
  }

  /** The interval between the call-start record and the call: the token, the lock and the intent stay. */
  lemma EnteringKeeps(me: Pid, w: World, w': World, g: nat)
    requires Rely(me, w, w') && me == w.owner && w.Holds(me) && w.token == Some(me) && IntentUnrevoked(w, g)
    ensures Later(w, w') && w'.Holds(me) && w'.token == Some(me) && IntentUnrevoked(w', g)
  {
    RelyKeepsJob(me, w, w');
    HolderKeeps(me, w, w');
    IntentKeepsStanding(me, w, w', g);
  }

  lemma OwnerStaysOut(me: Pid, w: World, w': World)
    requires JobKept(me, w, w') && me == w.owner
    ensures !w.job.state.IsPower() ==> !w'.job.state.IsPower()
  {
  }

  lemma AttemptStays(w: World, w': World, from: nat)
    requires Later(w, w')
    ensures CancelAttempted(w.log, from) ==> CancelAttempted(w'.log, from)
  {
    if CancelAttempted(w.log, from) {
      var i :| from <= i < |w.log| && w.log[i].CancelCalled?;
      assert w'.log[i] == w.log[i];
    }
  }

  lemma HandleKept(w: World, w': World, at: nat, receipt: Receipt)
    requires Later(w, w') && CancelledWith(w.log, at, receipt)
    ensures CancelledWith(w'.log, at, receipt)
  {
    HandleStays(w.log, w'.log, at, receipt);
  }

  lemma PowerHasEnvelope(w: World)
    requires Invariant(w)
    ensures w.job.state.IsPower() ==> w.records.envelope.Some?
    ensures w.job.Unresolved() && !w.job.state.IsTerminal() ==> w.job.state.IsPower()
  {
  }
}
