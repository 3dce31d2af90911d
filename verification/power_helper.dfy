/**
 The privileged Linux helper: a single durable slot, a transient systemd timer, and the callback that may
 power the machine off (internal/powerdaemon/server_linux.go).

 Each request runs under the state lock, but the process may die between any two of its steps. What systemd,
 the disk and the clock answer comes in as a parameter; a write that reports failure may still have reached
 the disk. The timer callback may come at any time, for any job, any number of times.
 */
module PowerHelper {
  import opened Wrappers
  import opened Actions

  const MINIMUM_DELAY: int := 30 * SECOND
  const MAXIMUM_DELAY: int := HOUR
  const LATENESS_LIMIT: int := 5 * MINUTE

  const PLATFORM := "linux-systemd"
  const BACKEND := "linux-systemd-helper"

  datatype Phase = IntentPhase | ScheduleUnverified | ScheduledPhase | Firing | FireUnverified | ExpiredPhase

  datatype Active = Active(ownerUID: nat, phase: Phase, receipt: Receipt)

  datatype Response =
    | Failure(code: string)
    | NothingActive                     // no_action_in_progress, with a positive cancel result
    | Ready
    | ScheduledAs(receipt: Receipt)
    | CancelConfirmed
    | StillScheduled
    | Unverified

  /** How a write of the slot file went, and whether it reached the disk. */
  datatype Write = Write(ok: bool, landed: bool) {
    predicate Lands() { ok || landed }
  }

  /** One `systemctl is-active` answer. */
  datatype UnitAnswer = UnitAnswer(exitZero: bool, status: string, runFailed: bool)

  datatype Event =
    | TimerRequested(jobID: string)
    | StopRequested(jobID: string)               // of a timer whose acceptance could not be saved
    | Accepted(receipt: Receipt)                 // phase scheduled is on disk
    | Released(jobID: string)                    // the slot was emptied
    | FoundEmpty(jobID: string)                  // a cancel was told that nothing is in progress
    | PoweredOff(receipt: Receipt, at: nat)

  predicate ValidSystemdReceipt(receipt: Receipt) {
    && ValidReceipt(receipt)
    && receipt.body.platform == PLATFORM && receipt.body.backendID == BACKEND
    && receipt.body.cancelScope == JobScope
    && receipt.body.externalToken == SystemdUnitToken(receipt.body.jobID)
  }

  predicate ValidHelperRequest(request: PowerRequest) {
    ValidRequest(request, MINIMUM_DELAY, MAXIMUM_DELAY) && IsFixedPowerComment(request.jobID, request.comment)
  }

  function HelperReceipt(request: PowerRequest, now: nat, bootID: string): Receipt
    requires request.delay >= 0
  {
    SealReceipt(ReceiptBody(
      RECEIPT_SCHEMA, PLATFORM, BACKEND, "1", request.jobID, request.action, request.requestedAt,
      now, now + request.delay, SystemdUnitToken(request.jobID), JobScope, bootID, 0))
  }

  // ---------------------------------------------------------------- systemd

  predicate Running(answer: UnitAnswer) {
    answer.exitZero || answer.status in {"active", "activating", "reloading", "deactivating"}
  }

  predicate Stopped(answer: UnitAnswer) {
    answer.status in {"inactive", "failed", "unknown"}
  }

  /** Confirmed only if every unit answered, in order, with a state that is not running. */
  predicate AllInactive(answers: seq<UnitAnswer>) {
    forall i :: 0 <= i < |answers| ==> !Running(answers[i]) && Stopped(answers[i])
  }

  /** unitsInactive over the timer and the service. */
  method UnitsInactive(answers: seq<UnitAnswer>) returns (inactive: bool, failed: bool)
    ensures inactive ==> !failed
    ensures inactive <==> AllInactive(answers)
  {
    for i := 0 to |answers|
      invariant forall k :: 0 <= k < i ==> !Running(answers[k]) && Stopped(answers[k])
    {
      if Running(answers[i]) { return false, false; }
      if !Stopped(answers[i]) { return false, true; }
    }
    return true, false;
  }

  // ---------------------------------------------------------------- what a cancel does

  /** Everything the environment answers to one cancel request. */
  datatype CancelAnswers = CancelAnswers(
    slotReadable: bool, stopped: bool, timer: UnitAnswer, service: UnitAnswer, removal: Write)

  /** The helper's whole reaction to a cancel request: what is left in the slot, and the response. */
  function CancelOutcome(active: Option<Active>, uid: nat, receipt: Receipt, answers: CancelAnswers)
    : (Option<Active>, Response)
  {
    if !ValidSystemdReceipt(receipt) then (active, Failure("invalid_request"))
    else if !answers.slotReadable || (active.Some? && !ValidSystemdReceipt(active.value.receipt)) then
      (active, Failure("state_error"))
    else if active.None? then (None, NothingActive)
    else if active.value.ownerUID != uid || active.value.receipt.body.jobID != receipt.body.jobID
            || active.value.receipt.body.externalToken != receipt.body.externalToken then
      (active, Failure("peer_rejected"))
    else if !answers.stopped && !AllInactive([answers.timer, answers.service]) then (active, Failure("cancel_failed"))
    else (if answers.removal.Lands() then None else active,
          if answers.removal.ok then CancelConfirmed else Failure("state_error"))
  }

  /**
   The handle the client writes down before it calls the scheduler cancels exactly like the receipt it would
   have got back: for every state of the slot, every peer and every answer, the same effect and response.
   */
  lemma IntentReceiptCancelsLikeSealed(
    jobID: string, action: string, requestedAt: nat, delay: int, capabilities: Capabilities, sealed: Receipt,
    active: Option<Active>, uid: nat, answers: CancelAnswers)
    requires BuildIntentReceipt(jobID, action, requestedAt, delay, capabilities).Some?
    requires capabilities.platform == PLATFORM && capabilities.backendID == BACKEND
    requires capabilities.cancelScope == JobScope
    requires ValidSystemdReceipt(sealed) && sealed.body.jobID == jobID
    ensures var intent := BuildIntentReceipt(jobID, action, requestedAt, delay, capabilities).value;
      && ValidSystemdReceipt(intent)
      && CancelOutcome(active, uid, intent, answers) == CancelOutcome(active, uid, sealed, answers)
  {
    assert "intent-recovery-v1" != "";
  }

  // ---------------------------------------------------------------- history

  predicate Decides(event: Event) {
    event.Accepted? || event.Released? || event.FoundEmpty? || event.PoweredOff?
  }

  /** The last thing decided is that this receipt was accepted. */
  predicate Pending(log: seq<Event>, receipt: Receipt) {
    exists a :: 0 <= a < |log| && PendingSince(log, receipt, a)
  }

  predicate PendingSince(log: seq<Event>, receipt: Receipt, a: nat)
    requires a < |log|
  {
    log[a] == Accepted(receipt) && forall k :: a < k < |log| ==> !Decides(log[k])
  }

  predicate DelayInRange(receipt: Receipt) {
    MINIMUM_DELAY <= receipt.body.deadline - receipt.body.scheduledAt <= MAXIMUM_DELAY
  }

  predicate InWindow(receipt: Receipt, at: nat, lateness: int) {
    receipt.body.deadline <= at <= receipt.body.deadline + lateness
  }

  /** Every poweroff follows an acceptance that nothing has used up or taken back, in its own time window. */
  predicate Orderly(log: seq<Event>, lateness: int) {
    forall i :: 0 <= i < |log| && log[i].PoweredOff? ==> Justified(log, i, lateness)
  }

  predicate Justified(log: seq<Event>, i: nat, lateness: int)
    requires i < |log| && log[i].PoweredOff?
  {
    Pending(log[..i], log[i].receipt) && DelayInRange(log[i].receipt) && InWindow(log[i].receipt, log[i].at, lateness)
  }

  lemma OrderlyExtends(log: seq<Event>, event: Event, lateness: int)
    requires Orderly(log, lateness)
    requires event.PoweredOff? ==>
      Pending(log, event.receipt) && DelayInRange(event.receipt) && InWindow(event.receipt, event.at, lateness)
    ensures Orderly(log + [event], lateness)
  {
    var longer := log + [event];
    forall i | 0 <= i < |longer| && longer[i].PoweredOff? ensures Justified(longer, i, lateness) {
      if i < |log| {
        assert longer[..i] == log[..i] && Justified(log, i, lateness);
      } else {
        assert longer[..i] == log;
      }
    }
  }

  lemma PendingStays(log: seq<Event>, event: Event, receipt: Receipt)
    requires Pending(log, receipt) && !Decides(event)
    ensures Pending(log + [event], receipt)
  {
    var a :| 0 <= a < |log| && PendingSince(log, receipt, a);
    assert PendingSince(log + [event], receipt, a);
  }

  lemma AcceptedIsPending(log: seq<Event>, receipt: Receipt)
    ensures Pending(log + [Accepted(receipt)], receipt)
  {
    assert PendingSince(log + [Accepted(receipt)], receipt, |log|);
  }

  /** Poweroff runs at most once per accepted schedule. */
  lemma OncePerAcceptance(log: seq<Event>, lateness: int, i: nat, j: nat)
    requires Orderly(log, lateness) && i < j < |log| && log[i].PoweredOff? && log[j].PoweredOff?
    ensures exists a :: i < a < j && log[a] == Accepted(log[j].receipt)
  {
    NewAcceptanceSince(log, lateness, i, j);
  }

  /** Once the slot is released, or a cancel was told that it is empty, nothing fires without a new acceptance. */
  lemma ReleasedNeverFires(log: seq<Event>, lateness: int, r: nat, j: nat)
    requires Orderly(log, lateness) && r < j < |log| && (log[r].Released? || log[r].FoundEmpty?) && log[j].PoweredOff?
    ensures exists a :: r < a < j && log[a] == Accepted(log[j].receipt)
  {
    NewAcceptanceSince(log, lateness, r, j);
  }

  lemma NewAcceptanceSince(log: seq<Event>, lateness: int, r: nat, j: nat)
    requires Orderly(log, lateness) && r < j < |log| && log[j].PoweredOff?
    requires log[r].Released? || log[r].FoundEmpty? || log[r].PoweredOff?
    ensures exists a :: r < a < j && log[a] == Accepted(log[j].receipt)
  {
    assert Justified(log, j, lateness);
    var a :| 0 <= a < j && PendingSince(log[..j], log[j].receipt, a);
    assert log[..j][a] == log[a] && log[..j][r] == log[r];
  }

  /** The machine goes down 30 seconds at the earliest, and an hour and five minutes at the latest, after scheduling. */
  lemma FiresInTime(log: seq<Event>, lateness: int, j: nat)
    requires Orderly(log, lateness) && j < |log| && log[j].PoweredOff? && 0 <= lateness <= LATENESS_LIMIT
    ensures log[j].receipt.body.scheduledAt + MINIMUM_DELAY <= log[j].at
    ensures log[j].at <= log[j].receipt.body.scheduledAt + MAXIMUM_DELAY + LATENESS_LIMIT
    ensures log[j].at <= log[j].receipt.body.deadline + lateness
    ensures Accepted(log[j].receipt) in log[..j]
  {
    assert Justified(log, j, lateness);
    var a :| 0 <= a < j && PendingSince(log[..j], log[j].receipt, a);
    assert log[..j][a] == Accepted(log[j].receipt);
  }

  // ---------------------------------------------------------------- the helper

  /** The slot's job changes only by way of an empty slot. */
  predicate SlotStep(before: Option<Active>, after: Option<Active>) {
    before.Some? && after.Some? ==>
      after.value.receipt.body.jobID == before.value.receipt.body.jobID && after.value.ownerUID == before.value.ownerUID
  }

  class Helper {
    const maxFireLateness: nat
    var active: Option<Active>
    ghost var log: seq<Event>

    constructor (maxFireLateness: nat)
      ensures Valid() && active.None? && log == []
    {
      this.maxFireLateness := maxFireLateness;
      active, log := None, [];
    }

    ghost predicate Valid()
      reads this
    {
      && Orderly(log, maxFireLateness)
      && (active.Some? && active.value.phase == ScheduledPhase ==>
            Pending(log, active.value.receipt) && DelayInRange(active.value.receipt))
    }

    /** Save a state that is not `scheduled`; a dead process leaves what it had written. */
    method SaveQuietly(state: Active, write: Write) returns (ok: bool)
      requires Valid() && state.phase != ScheduledPhase
      modifies this
      ensures Valid() && log == old(log) && ok == write.ok
      ensures active == if write.Lands() then Some(state) else old(active)
    {
      if write.Lands() { active := Some(state); }
      return write.ok;
    }

    /** Remove the slot file. */
    method Remove(write: Write) returns (ok: bool)
      requires Valid() && active.Some?
      modifies this
      ensures Valid() && ok == write.ok
      ensures active == if write.Lands() then None else old(active)
      ensures log == if write.Lands() then old(log) + [Released(old(active).value.receipt.body.jobID)] else old(log)
    {
      if write.Lands() {
        OrderlyExtends(log, Released(active.value.receipt.body.jobID), maxFireLateness);
        log := log + [Released(active.value.receipt.body.jobID)];
        active := None;
      }
      return write.ok;
    }

    predicate Readable(slotReadable: bool)
      reads this
    {
      slotReadable && (active.Some? ==> ValidSystemdReceipt(active.value.receipt))
    }

    method Preflight(request: PowerRequest, hostReady: bool, slotReadable: bool) returns (response: Response)
      ensures response.Ready? || response.Failure?
      ensures response.Ready? <==> ValidHelperRequest(request) && hostReady && Readable(slotReadable) && active.None?
    {
      if !ValidHelperRequest(request) { return Failure("policy_rejected"); }
      if !hostReady { return Failure("platform_unsupported"); }
      if !Readable(slotReadable) { return Failure("state_error"); }
      if active.Some? { return Failure("active_job_conflict"); }
      return Ready;
    }

    /**
     schedule. While the slot is held nothing happens at all; otherwise the intent is on disk before systemd is
     asked, the receipt goes back only after the acceptance is on disk, and a timer whose acceptance could not be
     saved is asked to stop.
     */
    method Schedule(uid: nat, request: PowerRequest, hostReady: bool, slotReadable: bool, now: nat, bootID: string,
                    intentWrite: Write, timerAccepted: bool, secondWrite: Write, dies: bool)
      returns (response: Response)
      requires Valid()
      modifies this
      ensures Valid() && SlotStep(old(active), active)
      ensures old(active).Some? || !ValidHelperRequest(request) || !hostReady ==>
        active == old(active) && log == old(log)
      ensures old(log) <= log
      ensures (exists i :: |old(log)| <= i < |log| && log[i].Accepted?) ==>
        timerAccepted && old(active).None? && active.Some? && active.value.phase == ScheduledPhase
      ensures response.ScheduledAs? ==>
        && ValidHelperRequest(request) && old(active).None?
        && response.receipt == HelperReceipt(request, now, bootID)
        && active == Some(Active(uid, ScheduledPhase, response.receipt))
        && log == old(log) + [TimerRequested(request.jobID), Accepted(response.receipt)]
      ensures log != old(log) && timerAccepted && !dies && !response.ScheduledAs? ==>
        log[|log| - 1] == StopRequested(request.jobID)
    {
      var ready := Preflight(request, hostReady, slotReadable);
      if !ready.Ready? { return ready; }
      var receipt := HelperReceipt(request, now, bootID);
      var intent := Active(uid, IntentPhase, receipt);
      var saved := SaveQuietly(intent, intentWrite);
      if !saved { return Failure("state_error"); }
      OrderlyExtends(log, TimerRequested(request.jobID), maxFireLateness);
      log := log + [TimerRequested(request.jobID)];
      if dies { return Failure("died"); }
      if !timerAccepted {
        saved := SaveQuietly(intent.(phase := ScheduleUnverified), secondWrite);
        return Failure(if saved then "schedule_failed" else "state_error");
      }
      if secondWrite.Lands() {
        AcceptedIsPending(log, receipt);
        OrderlyExtends(log, Accepted(receipt), maxFireLateness);
        log := log + [Accepted(receipt)];
        active := Some(intent.(phase := ScheduledPhase));
      }
      if secondWrite.ok { return ScheduledAs(receipt); }
      if secondWrite.landed { PendingStays(log, StopRequested(request.jobID), receipt); }
      OrderlyExtends(log, StopRequested(request.jobID), maxFireLateness);
      log := log + [StopRequested(request.jobID)];
      return Failure("state_error");
    }

    /**
     cancel is its CancelOutcome. The two answers that a client counts as positive evidence, a confirmed cancel and
     nothing in progress, leave the slot empty and say so in the history.
     */
    method Cancel(uid: nat, receipt: Receipt, answers: CancelAnswers) returns (response: Response)
      requires Valid()
      modifies this
      ensures Valid() && SlotStep(old(active), active)
      ensures (active, response) == CancelOutcome(old(active), uid, receipt, answers)
      ensures response.CancelConfirmed? ==>
        && active.None? && old(active).Some? && old(active).value.receipt.body.jobID == receipt.body.jobID
        && log == old(log) + [Released(receipt.body.jobID)]
      ensures response.NothingActive? ==> active.None? && log == old(log) + [FoundEmpty(receipt.body.jobID)]
    {
      if !ValidSystemdReceipt(receipt) { return Failure("invalid_request"); }
      if !Readable(answers.slotReadable) { return Failure("state_error"); }
      if active.None? {
        OrderlyExtends(log, FoundEmpty(receipt.body.jobID), maxFireLateness);
        log := log + [FoundEmpty(receipt.body.jobID)];
        return NothingActive;
      }
      if active.value.ownerUID != uid || active.value.receipt.body.jobID != receipt.body.jobID
         || active.value.receipt.body.externalToken != receipt.body.externalToken {
        return Failure("peer_rejected");
      }
      if !answers.stopped {
        var inactive, failed := UnitsInactive([answers.timer, answers.service]);
        if failed || !inactive { return Failure("cancel_failed"); }
      }
      var removed := Remove(answers.removal);
      return if removed then CancelConfirmed else Failure("state_error");
    }

    /** reconcile: it may empty the slot once both units are confirmed inactive, and it starts nothing. */
    method Reconcile(uid: nat, receipt: Receipt, now: nat, bootID: string, slotReadable: bool,
                     timer: UnitAnswer, service: UnitAnswer, removal: Write) returns (response: Response)
      requires Valid()
      modifies this
      ensures Valid() && SlotStep(old(active), active)
      ensures active != old(active) ==> active.None? && AllInactive([timer, service])
      ensures forall i :: |old(log)| <= i < |log| ==> log[i].Released?
      ensures response.StillScheduled? ==>
        && active == old(active) && active.Some? && active.value.phase == ScheduledPhase
        && now < active.value.receipt.body.deadline && !AllInactive([timer, service])
    {
      if !ValidSystemdReceipt(receipt) { return Failure("invalid_request"); }
      if !Readable(slotReadable) { return Failure("state_error"); }
      if active.None? { return Unverified; }
      if active.value.ownerUID != uid || active.value.receipt.body.jobID != receipt.body.jobID
         || active.value.receipt.body.externalToken != receipt.body.externalToken {
        return Failure("peer_rejected");
      }
      var inactive, failed := UnitsInactive([timer, service]);
      if active.value.phase == ScheduledPhase && now < active.value.receipt.body.deadline
         && active.value.receipt.body.bootID == bootID && !failed && !inactive {
        return StillScheduled;
      }
      if failed || !inactive { return Unverified; }
      var removed := Remove(removal);
      return if removed then Unverified else Failure("state_error");
    }

    /** firePrepared, the timer callback. */
    method Fire(jobID: string, slotReadable: bool, bootID: string, now: nat, write: Write, powered: bool,
                secondWrite: Write, dies: bool) returns (ok: bool)
      requires Valid()
      modifies this
      ensures Valid() && SlotStep(old(active), active) && (active.Some? <==> old(active).Some?)
      ensures log == old(log) || (old(active).Some? && log == old(log) + [PoweredOff(old(active).value.receipt, now)])
      ensures log != old(log) ==>
        && old(active).value.phase == ScheduledPhase && old(active).value.receipt.body.jobID == jobID
        && old(active).value.receipt.body.bootID == bootID != ""
        && InWindow(old(active).value.receipt, now, maxFireLateness)
        && active.value.phase != ScheduledPhase
    {
      if !ValidJobID(jobID) || maxFireLateness > LATENESS_LIMIT { return false; }
      if !Readable(slotReadable) || active.None? { return false; }
      var state := active.value;
      if state.phase != ScheduledPhase || state.receipt.body.jobID != jobID
         || state.receipt.body.externalToken != SystemdUnitToken(jobID) {
        return false;
      }
      var saved: bool;
      if bootID == "" || state.receipt.body.bootID == "" || bootID != state.receipt.body.bootID
         || now < state.receipt.body.deadline {
        saved := SaveQuietly(state.(phase := FireUnverified), write);
        return false;
      }
      if now - state.receipt.body.deadline > maxFireLateness {
        saved := SaveQuietly(state.(phase := ExpiredPhase), write);
        return false;
      }
      saved := SaveQuietly(state.(phase := Firing), write);
      if !saved || dies { return false; }
      OrderlyExtends(log, PoweredOff(state.receipt, now), maxFireLateness);
      log := log + [PoweredOff(state.receipt, now)];
      if !powered { saved := SaveQuietly(state.(phase := FireUnverified), secondWrite); }
      return powered;
    }

    /** Any number of requests and timer callbacks, in any order and with any answers. */
    method Serve(requests: nat)
      requires Valid()
      modifies this
      ensures Valid() && Orderly(log, maxFireLateness)
    {
      for i := 0 to requests
        invariant Valid()
      {
        var uid: nat, now: nat, kind: nat, jobID: string, bootID: string := *, *, *, *, *;
        var request: PowerRequest, receipt: Receipt := *, *;
        var a: bool, b: bool, c: bool := *, *, *;
        var first: Write, second: Write, answers: CancelAnswers := *, *, *;
        if kind == 0 {
          var scheduled := Schedule(uid, request, a, b, now, bootID, first, c, second, false);
        } else if kind == 1 {
          var cancelled := Cancel(uid, receipt, answers);
        } else if kind == 2 {
          var reconciled := Reconcile(uid, receipt, now, bootID, a, answers.timer, answers.service, first);
        } else if kind == 3 {
          var fired := Fire(jobID, a, bootID, now, first, b, second, c);
        } else {
          var died := Schedule(uid, request, a, b, now, bootID, first, c, second, true);
        }
      }
    }
  }
}
