/**
 One plugin job's power attempt as a shared state machine: the machine lock, the mutable job,
 the create-once records, and the history of everything that happened to them.

 `Step` lists the atomic actions any process may take, `Invariant` what every one of them keeps,
 and `Rely` what a process may assume about the steps the others take between two of its own.
 */
module PowerWorld {
  import opened Wrappers
  import opened Actions
  import opened PluginJob
  import opened RecoveryRecords

  type Pid = nat

  /** Whether the process running a method is still there; a crash between two steps ends the method. */
  datatype Life = Alive | Crashed {
    predicate IsFailure() { Crashed? }
    function PropagateFailure(): Life requires Crashed? { this }
  }

  datatype Event =
    | EnvelopeSealed
    | IntentRecorded(generation: nat)
    | CallStarted
    | ScheduleCalled
    | ScheduleReturned(accepted: bool)
    | ReceiptSealed
    | ScheduledRecorded(generation: nat)
    | CancelCalled(receipt: Receipt)
    | CancelReturned(handle: Receipt, result: CancelResult, confirmed: bool)
    | Resolved(outcome: Outcome)
    | LeftPower(to: State)
    | CancelAsked
    | Resumed

  datatype World = World(
    job: Job,
    owner: Pid,              // the supervisor process recorded in the job
    lock: Option<Pid>,       // holder of the machine power lock
    token: Option<Pid>,      // process that wrote call-start and has not entered the backend yet
    records: Records,
    inPower: set<string>,    // ids of all jobs on this machine in intent or scheduled
    log: seq<Event>)
  {
    function Id(): string { job.terms.jobID }
    predicate Holds(a: Pid) { lock == Some(a) }
  }

  // ---------------------------------------------------------------- history

  predicate HasIntent(log: seq<Event>) {
    exists i :: 0 <= i < |log| && log[i].IntentRecorded?
  }

  predicate HasReturned(log: seq<Event>) {
    exists i :: 0 <= i < |log| && log[i].ScheduleReturned?
  }

  predicate HasConfirmedCancel(log: seq<Event>, result: CancelResult) {
    exists i :: 0 <= i < |log| && Confirms(log[i], result)
  }

  /** Backend.Cancel came back with this result and confirmed it. */
  predicate Confirms(event: Event, result: CancelResult) {
    event.CancelReturned? && event.result == result && event.confirmed
  }

  predicate HasSomeConfirmedCancel(log: seq<Event>) {
    exists i :: 0 <= i < |log| && log[i].CancelReturned? && log[i].confirmed
  }

  /** May `event` come right after `log`? */
  predicate Allowed(log: seq<Event>, event: Event) {
    match event
    case EnvelopeSealed => EnvelopeSealed !in log
    case IntentRecorded(_) => EnvelopeSealed in log
    case CallStarted =>
      HasIntent(log) && CallStarted !in log && Resolved(OutcomeNoAction) !in log && Resolved(OutcomeCancelled) !in log
    case ScheduleCalled => CallStarted in log && ScheduleCalled !in log
    case ScheduleReturned(_) => ScheduleCalled in log && !HasReturned(log)
    case ReceiptSealed => ScheduleCalled in log
    case ScheduledRecorded(g) => IntentRecorded(g) in log && ReceiptSealed in log && CancelAsked !in log
    case Resolved(outcome) =>
      && Resolved(OutcomeNoAction) !in log && Resolved(OutcomeCancelled) !in log
      && (outcome == OutcomeNoAction <==> CallStarted !in log)
      && (outcome == OutcomeCancelled ==> HasSomeConfirmedCancel(log))
    case LeftPower(to) =>
      || to.IsReconciled()
      || ((to == Cancelled || to == ActionFailed) &&
          if CallStarted in log then Resolved(OutcomeCancelled) in log else Resolved(OutcomeNoAction) in log)
    case CancelReturned(handle, _, _) => CancelCalled(handle) in log
    case _ => true
  }

  predicate AllowedAt(log: seq<Event>, i: nat)
    requires i < |log|
  {
    Allowed(log[..i], log[i])
  }

  predicate History(log: seq<Event>) {
    forall i :: 0 <= i < |log| ==> AllowedAt(log, i)
  }

  lemma HistoryExtends(log: seq<Event>, event: Event)
    requires History(log) && Allowed(log, event)
    ensures History(log + [event])
  {
    var longer := log + [event];
    forall i | 0 <= i < |longer| ensures AllowedAt(longer, i) {
      if i == |log| {
        assert longer[..i] == log;
      } else {
        assert longer[..i] == log[..i] && AllowedAt(log, i);
      }
    }
  }

  // ---------------------------------------------------------------- job writes

  /** The history entry a write of the mutable job leaves. */
  function JobEvents(before: Job, after: Job): seq<Event> {
    if !before.state.IsPower() && after.state.IsPower() then [IntentRecorded(after.generation)]
    else if before.state.IsPower() && !after.state.IsPower() then [LeftPower(after.state)]
    else if before.state.IsPower() then
      if after.cancelRequested && (before.generation < after.generation || !before.cancelRequested) then [CancelAsked]
      else if before.state == ActionIntent && after.state == ActionScheduled then [ScheduledRecorded(after.generation)]
      else []
    else if before.state == StopObserved && after.state != StopObserved then [Resumed]
    else []
  }

  predicate SamePowerFields(before: Job, after: Job) {
    && after.actionIntentAt == before.actionIntentAt
    && after.powerCapabilities == before.powerCapabilities
    && after.powerReceipt == before.powerReceipt
    && after.scheduledFor == before.scheduledFor
  }

  /** No target of a barrier is forgotten. */
  predicate TargetsStaySeen(before: Job, after: Job) {
    before.terms.policy == AfterAllStop && AllObserved(before) ==> AllObserved(after)
  }

  /**
   A write any process may make without the machine lock: arming and binding, completion, lifecycle hooks,
   cancellation requests and pre-intent fences. It can only take authority away from an action.
   */
  predicate ReducingWrite(before: Job, after: Job) {
    && before.generation <= after.generation
    && SamePowerFields(before, after)
    && TargetsStaySeen(before, after)
    && if before.state.IsPower() then
         && after.state == before.state
         && after.cancelRequested == (before.cancelRequested || before.generation < after.generation)
       else
         && !after.state.IsPower()
         && (before.state.IsTerminal() ==> after.state.IsTerminal())
         && (before.state.IsTerminal() && after.state == Orphaned ==> before.state == Orphaned)
         && (before.state == StopObserved && after.generation == before.generation ==>
               && after.state == StopObserved
               && after.cancelRequested == before.cancelRequested
               && after.stopTargets == before.stopTargets)
  }

  /** The owner gives up a job that has not recorded an intent. */
  predicate FailWrite(a: Pid, w: World, after: Job) {
    && a == w.owner
    && w.job.state.IsActive() && !w.job.state.IsPower() && after.state.IsTerminal()
    && after.generation == w.job.generation
    && SamePowerFields(w.job, after)
  }

  predicate IntentWrite(a: Pid, w: World, after: Job) {
    && w.Holds(a) && a == w.owner && !w.job.terms.dryRun
    && w.job.state == StopObserved && after.state == ActionIntent
    && after.generation == w.job.generation
    && after.cancelRequested == w.job.cancelRequested
    && after.stopTargets == w.job.stopTargets
    && w.records.envelope.Some?
    && after.powerReceipt == Some(w.records.envelope.value.body.intentReceipt)
    && after.scheduledFor == Some(w.records.envelope.value.body.intentReceipt.body.deadline)
    && w.inPower == {}
    && (after.terms.policy == AfterAllStop ==> after.BarrierSatisfied())
  }

  predicate ScheduledWrite(a: Pid, w: World, after: Job) {
    && w.Holds(a) && a == w.owner
    && w.job.state == ActionIntent && after.state == ActionScheduled
    && after.generation == w.job.generation
    && !w.job.cancelRequested && !after.cancelRequested
    && after.stopTargets == w.job.stopTargets
    && IntentRecorded(after.generation) in w.log
    && w.records.receipt.Some?
    && after.powerReceipt == Some(w.records.receipt.value.body.receipt)
    && after.scheduledFor == Some(w.records.receipt.value.body.receipt.body.deadline)
  }

  /** Leaving intent or scheduled for good needs the machine lock or ownership, and a resolution on disk. */
  predicate SettledWrite(a: Pid, w: World, after: Job) {
    && (w.Holds(a) || a == w.owner)
    && w.job.state.IsPower() && (after.state == Cancelled || after.state == ActionFailed)
    && w.job.generation <= after.generation
    && w.records.resolution.Some?
  }

  predicate UnconfirmedWrite(a: Pid, w: World, after: Job) {
    && (w.Holds(a) || a == w.owner)
    && w.job.state.IsPower()
    && (after.state == w.job.state || (a == w.owner && after.state == ActionIntent))
    && after.generation == w.job.generation
    && SamePowerFields(w.job, after)
    && after.stopTargets == w.job.stopTargets
    && (w.job.cancelRequested ==> after.cancelRequested)
  }

  predicate ReconcileWrite(before: Job, after: Job) {
    && after.state.IsReconciled()
    && (before.state.IsPower() || before.state.IsTerminal())
    && after.generation == before.generation
  }

  predicate WriteAllowed(a: Pid, w: World, after: Job) {
    && after.terms == w.job.terms
    && (|| ReducingWrite(w.job, after)
        || FailWrite(a, w, after)
        || IntentWrite(a, w, after)
        || ScheduledWrite(a, w, after)
        || SettledWrite(a, w, after)
        || UnconfirmedWrite(a, w, after)
        || ReconcileWrite(w.job, after))
  }

  function AfterWrite(w: World, after: Job): World {
    w.(job := after,
       inPower := if after.state.IsPower() then w.inPower + {w.Id()} else w.inPower - {w.Id()},
       log := w.log + JobEvents(w.job, after))
  }

  // ---------------------------------------------------------------- steps

  predicate TakeLock(a: Pid, w: World, w': World) {
    w.lock.None? && w' == w.(lock := Some(a))
  }

  /** Release, or the death of the holder. */
  predicate DropLock(a: Pid, w: World, w': World) {
    w.Holds(a) && w' == w.(lock := None, token := None)
  }

  predicate SealEnvelope(a: Pid, w: World, w': World) {
    && w.Holds(a) && a == w.owner
    && w.records == NO_RECORDS && w'.records.envelope.Some?
    && ValidEnvelope(w'.records.envelope.value) && w'.records.envelope.value.body.jobID == w.Id()
    && w' == w.(records := w.records.(envelope := w'.records.envelope), log := w.log + [EnvelopeSealed])
  }

  predicate StartCall(a: Pid, w: World, w': World) {
    && w.Holds(a) && a == w.owner
    && w.records.envelope.Some? && w.records.call.None? && w.records.resolution.None? && w'.records.call.Some?
    && ValidCall(w'.records.call.value, w.records.envelope.value)
    && HasIntent(w.log)
    && w' == w.(records := w.records.(call := w'.records.call), token := Some(a), log := w.log + [CallStarted])
  }

  predicate EnterSchedule(a: Pid, w: World, w': World) {
    w.token == Some(a) && w' == w.(token := None, log := w.log + [ScheduleCalled])
  }

  predicate LeaveSchedule(a: Pid, w: World, w': World) {
    && w.Holds(a) && a == w.owner && ScheduleCalled in w.log && !HasReturned(w.log)
    && w'.log != [] && w'.log[|w'.log| - 1].ScheduleReturned?
    && w' == w.(log := w.log + [w'.log[|w'.log| - 1]])
  }

  predicate SealReceiptRecord(a: Pid, w: World, w': World) {
    && w.Holds(a) && a == w.owner && ScheduleCalled in w.log
    && w.records.envelope.Some? && w.records.call.Some?
    && w.records.receipt.None? && w.records.resolution.None? && w'.records.receipt.Some?
    && ValidSeal(w'.records.receipt.value, w.records.envelope.value, w.records.call.value)
    && w' == w.(records := w.records.(receipt := w'.records.receipt), log := w.log + [ReceiptSealed])
  }

  /** Entering or leaving Backend.Cancel: only the lock holder or the job's own supervisor does. */
  predicate CallCancel(a: Pid, w: World, w': World) {
    && (w.Holds(a) || a == w.owner)
    && w'.log != [] && (w'.log[|w'.log| - 1].CancelCalled? || w'.log[|w'.log| - 1].CancelReturned?)
    && Allowed(w.log, w'.log[|w'.log| - 1])
    && w' == w.(log := w.log + [w'.log[|w'.log| - 1]])
  }

  predicate Resolve(a: Pid, w: World, w': World) {
    && w.records.envelope.Some? && w.records.resolution.None? && w'.records.resolution.Some?
    && LoadAuthority(w.records).Loaded?
    && ValidResolution(w'.records.resolution.value, LoadAuthority(w.records).authority)
    && (if w.records.call.None? then w.Holds(a)
        else
          && (w.Holds(a) || a == w.owner)
          && w'.records.resolution.value.body.cancelResult.Some?
          && HasConfirmedCancel(w.log, w'.records.resolution.value.body.cancelResult.value))
    && w' == w.(records := w.records.(resolution := w'.records.resolution),
                log := w.log + [Resolved(w'.records.resolution.value.body.outcome)])
  }

  predicate WriteJob(a: Pid, w: World, w': World) {
    WriteAllowed(a, w, w'.job) && Valid(w'.job) && w' == AfterWrite(w, w'.job)
  }

  /** Another job's process records an intent (under the lock, nothing unresolved) or leaves the power states. */
  predicate OtherJob(a: Pid, w: World, w': World) {
    && w' == w.(inPower := w'.inPower)
    && (w.Id() in w'.inPower <==> w.Id() in w.inPower)
    && (w'.inPower <= w.inPower || (w.Holds(a) && w.inPower == {} && AtMostOne(w'.inPower)))
  }

  predicate AtMostOne(ids: set<string>) {
    forall x, y :: x in ids && y in ids ==> x == y
  }

  predicate Step(a: Pid, w: World, w': World) {
    || TakeLock(a, w, w')
    || DropLock(a, w, w')
    || SealEnvelope(a, w, w')
    || StartCall(a, w, w')
    || EnterSchedule(a, w, w')
    || LeaveSchedule(a, w, w')
    || SealReceiptRecord(a, w, w')
    || CallCancel(a, w, w')
    || Resolve(a, w, w')
    || WriteJob(a, w, w')
    || OtherJob(a, w, w')
  }

  // ---------------------------------------------------------------- invariant

  predicate RecordsMatchHistory(w: World) {
    && Coherent(w.records)
    && (w.records.envelope.Some? ==> w.records.envelope.value.body.jobID == w.Id())
    && (w.records.envelope.Some? <==> EnvelopeSealed in w.log)
    && (w.records.call.Some? <==> CallStarted in w.log)
    && (ScheduleCalled in w.log ==> w.records.call.Some?)
    && (w.records.receipt.Some? ==> ReceiptSealed in w.log)
    && (Resolved(OutcomeNoAction) in w.log <==>
          w.records.resolution.Some? && w.records.resolution.value.body.outcome == OutcomeNoAction)
    && (Resolved(OutcomeCancelled) in w.log <==>
          w.records.resolution.Some? && w.records.resolution.value.body.outcome == OutcomeCancelled)
    && (w.records.resolution.Some? && w.records.call.Some? ==> RestsOnCancel(w.records.resolution.value, w.log))
  }

  /** The result recorded in the resolution is one that a Backend.Cancel came back with and confirmed. */
  predicate RestsOnCancel(resolution: Resolution, log: seq<Event>) {
    resolution.body.cancelResult.Some? && HasConfirmedCancel(log, resolution.body.cancelResult.value)
  }

  /** What the job's state says about intents recorded in it, and about the targets of a barrier. */
  predicate StateMatchesIntent(job: Job) {
    && ((job.state.IsActive() && !job.state.IsPower()) || job.state == Orphaned ==> NothingIntended(job))
    && (job.terms.policy == AfterAllStop && job.state.IsPower() ==> AllObserved(job))
  }

  predicate JobMatchesHistory(w: World) {
    && (w.Id() in w.inPower <==> w.job.state.IsPower())
    && (w.job.state.IsPower() ==>
          && !w.job.terms.dryRun && w.records.envelope.Some? && w.job.powerReceipt.Some?
          && HasIntent(w.log)
          && (CancelAsked in w.log ==> w.job.cancelRequested))
    && (w.job.state == ActionScheduled ==> w.records.receipt.Some? && w.job.scheduledFor.Some?)
    && (HasIntent(w.log) && !w.job.state.IsPower() ==> w.job.state.IsTerminal())
    && (CancelAsked in w.log ==> HasIntent(w.log))
  }

  predicate TokenMatchesHistory(w: World) {
    w.token.Some? ==> w.lock == w.token && w.token == Some(w.owner) && w.records.call.Some? && ScheduleCalled !in w.log
  }

  predicate Invariant(w: World) {
    && History(w.log)
    && RecordsMatchHistory(w)
    && JobMatchesHistory(w)
    && StateMatchesIntent(w.job)
    && TokenMatchesHistory(w)
    && AtMostOne(w.inPower)
  }

  /** Every write of a power job is allowed by the history so far. */
  lemma JobEventsAllowed(a: Pid, w: World, after: Job)
    requires RecordsMatchHistory(w) && JobMatchesHistory(w) && WriteAllowed(a, w, after)
    ensures |JobEvents(w.job, after)| <= 1
    ensures JobEvents(w.job, after) != [] ==> Allowed(w.log, JobEvents(w.job, after)[0])
  {
    if SettledWrite(a, w, after) {
      ResolutionNamesTheCallBoundary(w.records);
    }
  }

  lemma WriteKeepsJobMatch(a: Pid, w: World, after: Job)
    requires RecordsMatchHistory(w) && JobMatchesHistory(w) && AtMostOne(w.inPower) && WriteAllowed(a, w, after)
    ensures JobMatchesHistory(AfterWrite(w, after)) && AtMostOne(AfterWrite(w, after).inPower)
  {
    var w' := AfterWrite(w, after);
    if HasIntent(w.log) {
      var i :| 0 <= i < |w.log| && w.log[i].IntentRecorded?;
      assert w'.log[i] == w.log[i];
    }
    if !w.job.state.IsPower() && after.state.IsPower() {
      assert w'.log[|w.log|].IntentRecorded?;
    }
  }

  /** An entry that is not about the records leaves their match with the history alone. */
  lemma AppendKeepsRecordsMatch(w: World, w': World)
    requires RecordsMatchHistory(w) && w'.records == w.records && w'.job.terms == w.job.terms
    requires w'.log == w.log || (w'.log != [] && w'.log == w.log + [w'.log[|w'.log| - 1]])
    requires w'.log != w.log ==> var e := w'.log[|w'.log| - 1];
      !e.EnvelopeSealed? && !e.CallStarted? && !e.Resolved? && (e.ScheduleCalled? ==> w.records.call.Some?)
    ensures RecordsMatchHistory(w')
  {
    if w.records.resolution.Some? { StillRestsOnCancel(w.records.resolution.value, w.log, w'.log); }
  }

  lemma StillRestsOnCancel(resolution: Resolution, before: seq<Event>, after: seq<Event>)
    requires before <= after
    ensures RestsOnCancel(resolution, before) ==> RestsOnCancel(resolution, after)
  {
    if RestsOnCancel(resolution, before) {
      var i :| 0 <= i < |before| && Confirms(before[i], resolution.body.cancelResult.value);
      assert after[i] == before[i];
    }
  }

  /** A satisfied barrier has seen all its targets, and no later write of an action forgets one. */
  lemma WriteKeepsStateMatch(a: Pid, w: World, after: Job)
    requires StateMatchesIntent(w.job) && WriteAllowed(a, w, after)
    ensures StateMatchesIntent(after)
  {
  }

  lemma WriteKeepsInvariant(a: Pid, w: World, w': World)
    requires Invariant(w) && WriteJob(a, w, w')
    ensures Invariant(w')
  {
    var events := JobEvents(w.job, w'.job);
    JobEventsAllowed(a, w, w'.job);
    WriteKeepsJobMatch(a, w, w'.job);
    WriteKeepsStateMatch(a, w, w'.job);
    hide Valid;
    assert History(w'.log) by {
      if events != [] {
        assert events == [events[0]];
        HistoryExtends(w.log, events[0]);
      } else {
        assert w'.log == w.log;
      }
    }
    assert RecordsMatchHistory(w') by {
      if events != [] { assert events == [events[0]]; } else { assert w'.log == w.log; }
      AppendKeepsRecordsMatch(w, w');
    }
  }

  /** Appending one entry to the history and changing anything but the job. */
  lemma AppendKeepsJobMatch(w: World, w': World)
    requires JobMatchesHistory(w) && w'.job == w.job && w'.inPower == w.inPower
    requires |w'.log| == |w.log| + 1 && w'.log[..|w.log|] == w.log
    requires !w'.log[|w.log|].IntentRecorded? && w'.log[|w.log|] != CancelAsked
    requires w.records.envelope.Some? ==> w'.records.envelope.Some?
    requires w.records.receipt.Some? ==> w'.records.receipt.Some?
    ensures JobMatchesHistory(w')
  {
    assert w'.log == w.log + [w'.log[|w.log|]];
    if HasIntent(w.log) {
      var i :| 0 <= i < |w.log| && w.log[i].IntentRecorded?;
      assert w'.log[i] == w.log[i];
    }
    if HasIntent(w'.log) {
      var i :| 0 <= i < |w'.log| && w'.log[i].IntentRecorded?;
      assert w.log[i] == w'.log[i];
    }
  }

  lemma ResolutionOfCall(record: Resolution, authority: Authority)
    requires ValidResolution(record, authority)
    ensures authority.call.None? <==> record.body.outcome == OutcomeNoAction
    ensures authority.call.Some? ==> record.body.cancelResult.Some?
  {
  }

  lemma RecordStepAllowed(a: Pid, w: World, w': World)
    requires RecordsMatchHistory(w)
    requires SealEnvelope(a, w, w') || StartCall(a, w, w') || SealReceiptRecord(a, w, w') || Resolve(a, w, w')
    ensures w'.log == w.log + [w'.log[|w.log|]]
    ensures Allowed(w.log, w'.log[|w.log|])
  {
    var event := w'.log[|w.log|];
    if Resolve(a, w, w') && event == Resolved(OutcomeCancelled) {
      ResolutionOfCall(w'.records.resolution.value, LoadAuthority(w.records).authority);
      var i :| 0 <= i < |w.log| && Confirms(w.log[i], w'.records.resolution.value.body.cancelResult.value);
    }
  }

  lemma RecordStepKeepsRecordsMatch(a: Pid, w: World, w': World)
    requires RecordsMatchHistory(w)
    requires SealEnvelope(a, w, w') || StartCall(a, w, w') || SealReceiptRecord(a, w, w') || Resolve(a, w, w')
    ensures RecordsMatchHistory(w')
  {
    var event := w'.log[|w.log|];
    assert w'.log == w.log + [event];
    assert LoadAuthority(w'.records).Loaded?;
    if w'.records.resolution.Some? { StillRestsOnCancel(w'.records.resolution.value, w.log, w'.log); }
  }

  lemma RecordStepKeepsTheRest(a: Pid, w: World, w': World)
    requires JobMatchesHistory(w) && TokenMatchesHistory(w) && AtMostOne(w.inPower)
    requires SealEnvelope(a, w, w') || StartCall(a, w, w') || SealReceiptRecord(a, w, w') || Resolve(a, w, w')
    requires RecordsMatchHistory(w)
    ensures JobMatchesHistory(w') && TokenMatchesHistory(w') && AtMostOne(w'.inPower)
  {
    AppendKeepsJobMatch(w, w');
  }

  lemma RecordStepKeepsInvariant(a: Pid, w: World, w': World)
    requires Invariant(w)
    requires SealEnvelope(a, w, w') || StartCall(a, w, w') || SealReceiptRecord(a, w, w') || Resolve(a, w, w')
    ensures Invariant(w')
  {
    RecordStepKeepsTheRest(a, w, w');
    RecordStepKeepsRecordsMatch(a, w, w');
    assert History(w'.log) by {
      RecordStepAllowed(a, w, w');
      HistoryExtends(w.log, w'.log[|w.log|]);
    }
  }

  lemma CallStepKeepsInvariant(a: Pid, w: World, w': World)
    requires Invariant(w)
    requires EnterSchedule(a, w, w') || LeaveSchedule(a, w, w') || CallCancel(a, w, w')
    ensures Invariant(w')
  {
    var event := w'.log[|w.log|];
    assert w'.log == w.log + [event];
    HistoryExtends(w.log, event);
    AppendKeepsJobMatch(w, w');
  }

  /** Every atomic action of every process keeps the invariant. */
  lemma StepKeepsInvariant(a: Pid, w: World, w': World)
    requires Invariant(w) && Step(a, w, w')
    ensures Invariant(w')
  {
    if WriteJob(a, w, w') {
      WriteKeepsInvariant(a, w, w');
    } else if SealEnvelope(a, w, w') || StartCall(a, w, w') || SealReceiptRecord(a, w, w') || Resolve(a, w, w') {
      RecordStepKeepsInvariant(a, w, w');
    } else if EnterSchedule(a, w, w') || LeaveSchedule(a, w, w') || CallCancel(a, w, w') {
      CallStepKeepsInvariant(a, w, w');
    }
  }

  // ---------------------------------------------------------------- rely

  /** The history entries that others can add while `me` holds the lock or owns the job. */
  predicate Foreign(me: Pid, w: World, event: Event) {
    match event
    case CancelAsked | Resumed => true
    case LeftPower(to) => me == w.owner && w.Holds(me) ==> to.IsReconciled()
    case CancelCalled(_) | CancelReturned(_, _, _) | Resolved(_) => !(me == w.owner && w.Holds(me))
    case _ => false
  }

  predicate HistoryRely(me: Pid, w: World, w': World) {
    && w.log <= w'.log
    && (w.Holds(me) || me == w.owner ==>
          forall i :: |w.log| <= i < |w'.log| ==> Foreign(me, w, w'.log[i]))
    && (me == w.owner && w'.job.generation == w.job.generation ==>
          forall i :: |w.log| <= i < |w'.log| ==> w'.log[i] != Resumed)
  }

  predicate RecordsRely(me: Pid, w: World, w': World) {
    && RecordsGrow(w.records, w'.records)
    && (w.Holds(me) || me == w.owner ==>
          && w'.records.envelope == w.records.envelope
          && w'.records.call == w.records.call
          && w'.records.receipt == w.records.receipt)
    && (w.Holds(me) && (me == w.owner || w.records.call.None?) ==> w'.records.resolution == w.records.resolution)
  }

  predicate JobRely(me: Pid, w: World, w': World) {
    var before, after := w.job, w'.job;
    && before.generation <= after.generation
    && (before.state.IsTerminal() ==> after.state.IsTerminal())
    && (before.state.IsPower() ==> after.state.IsPower() || after.state.IsTerminal())
    && ((w.Holds(me) || me == w.owner) && !before.state.IsPower() ==> !after.state.IsPower())
    && (me == w.owner ==>
          && (before.state.IsPower() && after.state.IsPower() ==>
                && after.state == before.state && SamePowerFields(before, after)
                && (before.cancelRequested ==> after.cancelRequested)
                && (w.Holds(me) && after.generation == before.generation ==>
                      after.cancelRequested == before.cancelRequested))
          && (before.state == StopObserved && after.generation == before.generation ==>
                && after.state == StopObserved
                && after.cancelRequested == before.cancelRequested
                && after.stopTargets == before.stopTargets))
  }

  /** What `me` may assume about any number of steps taken by all the other processes. */
  predicate Rely(me: Pid, w: World, w': World) {
    && w'.job.terms == w.job.terms && w'.owner == w.owner
    && (w.Holds(me) <==> w'.Holds(me))
    && (w.token == Some(me) <==> w'.token == Some(me))
    && (w.Holds(me) ==> w'.inPower <= w.inPower)
    && HistoryRely(me, w, w')
    && RecordsRely(me, w, w')
    && JobRely(me, w, w')
  }

  lemma RelyReflexive(me: Pid, w: World)
    ensures Rely(me, w, w)
  {
  }

  lemma RelyTransitive(me: Pid, w0: World, w1: World, w2: World)
    requires Rely(me, w0, w1) && Rely(me, w1, w2)
    ensures Rely(me, w0, w2)
  {
    forall i | |w0.log| <= i < |w2.log|
      ensures w0.Holds(me) || me == w0.owner ==> Foreign(me, w0, w2.log[i])
      ensures me == w0.owner && w2.job.generation == w0.job.generation ==> w2.log[i] != Resumed
    {
      if i < |w1.log| { assert w2.log[i] == w1.log[i]; }
    }
  }

  lemma WriteByOthersJobRely(a: Pid, me: Pid, w: World, w': World)
    requires a != me && WriteJob(a, w, w')
    ensures JobRely(me, w, w')
  {
  }

  lemma WriteByOthersHistoryRely(a: Pid, me: Pid, w: World, w': World)
    requires a != me && WriteJob(a, w, w')
    ensures HistoryRely(me, w, w')
  {
    var events := JobEvents(w.job, w'.job);
    if events == [] {
      assert w'.log == w.log;
    } else {
      assert events == [events[0]];
      assert w'.log == w.log + [events[0]];
      assert w.Holds(me) || me == w.owner ==> Foreign(me, w, events[0]);
    }
  }

  lemma LockStepByOthersIsRely(a: Pid, me: Pid, w: World, w': World)
    requires a != me && TokenMatchesHistory(w)
    requires TakeLock(a, w, w') || DropLock(a, w, w') || OtherJob(a, w, w')
    ensures Rely(me, w, w')
  {
    assert w'.log == w.log;
  }

  lemma CallStepByOthersIsRely(a: Pid, me: Pid, w: World, w': World)
    requires a != me && TokenMatchesHistory(w)
    requires EnterSchedule(a, w, w') || LeaveSchedule(a, w, w') || CallCancel(a, w, w')
    ensures Rely(me, w, w')
  {
    var event := w'.log[|w.log|];
    assert w'.log == w.log + [event];
  }

  lemma RecordStepByOthersIsRely(a: Pid, me: Pid, w: World, w': World)
    requires a != me && TokenMatchesHistory(w)
    requires SealEnvelope(a, w, w') || StartCall(a, w, w') || SealReceiptRecord(a, w, w') || Resolve(a, w, w')
    ensures Rely(me, w, w')
  {
    var event := w'.log[|w.log|];
    assert w'.log == w.log + [event];
  }

  /** Any step of any other process is within the rely. */
  lemma StepByOthersIsRely(a: Pid, me: Pid, w: World, w': World)
    requires a != me && TokenMatchesHistory(w) && JobMatchesHistory(w) && Step(a, w, w')
    ensures Rely(me, w, w')
  {
    if WriteJob(a, w, w') {
      WriteByOthersJobRely(a, me, w, w');
      WriteByOthersHistoryRely(a, me, w, w');
    } else if TakeLock(a, w, w') || DropLock(a, w, w') || OtherJob(a, w, w') {
      LockStepByOthersIsRely(a, me, w, w');
    } else if EnterSchedule(a, w, w') || LeaveSchedule(a, w, w') || CallCancel(a, w, w') {
      CallStepByOthersIsRely(a, me, w, w');
    } else {
      RecordStepByOthersIsRely(a, me, w, w');
    }
  }

  /**
   The rely without its claim on the records: what still holds of the lock, the job and the other jobs
   after `me` has also added records and history entries of its own.
   */
  predicate JobKept(me: Pid, w: World, w': World) {
    && w'.job.terms == w.job.terms && w'.owner == w.owner
    && (w.Holds(me) <==> w'.Holds(me))
    && (w.Holds(me) ==> w'.inPower <= w.inPower)
    && w.log <= w'.log
    && (me == w.owner ==> forall i :: |w.log| <= i < |w'.log| ==> !w'.log[i].ScheduleReturned?)
    && (me == w.owner && w'.job.generation == w.job.generation ==>
          forall i :: |w.log| <= i < |w'.log| ==> w'.log[i] != Resumed)
    && RecordsGrow(w.records, w'.records)
    && JobRely(me, w, w')
  }

  /** A later world of the same job, with no schedule call coming back in between. */
  predicate Later(w: World, w': World) {
    && w'.job.terms == w.job.terms && w'.owner == w.owner
    && w.log <= w'.log
    && (forall i :: |w.log| <= i < |w'.log| ==> !w'.log[i].ScheduleReturned?)
    && RecordsGrow(w.records, w'.records)
  }

  lemma LaterReflexive(w: World)
    ensures Later(w, w)
  {
  }

  lemma LaterTransitive(w0: World, w1: World, w2: World)
    requires Later(w0, w1) && Later(w1, w2)
    ensures Later(w0, w2)
  {
    forall i | |w0.log| <= i < |w2.log| ensures !w2.log[i].ScheduleReturned? {
      if i < |w1.log| { assert w2.log[i] == w1.log[i]; }
    }
  }

  lemma JobKeptIsLater(me: Pid, w: World, w': World)
    requires JobKept(me, w, w') && me == w.owner
    ensures Later(w, w')
    ensures w.Holds(me) <==> w'.Holds(me)
    ensures w'.owner == w.owner
    ensures w.job.state.IsTerminal() ==> w'.job.state.IsTerminal()
    ensures w.job.state.IsPower() ==> w'.job.state.IsPower() || w'.job.state.IsTerminal()
  {
  }

  /** A resolution, once on disk for a job in intent or scheduled, stays there. */
  lemma StillResolved(me: Pid, w: World, w': World)
    requires JobKept(me, w, w') && (me == w.owner || w.Holds(me))
    requires w.job.state.IsPower() ==> w.records.resolution.Some?
    ensures w'.job.state.IsPower() ==> w'.records.resolution.Some?
  {
  }

  // How a write of the job is justified.

  lemma AllowReducing(a: Pid, w: World, after: Job)
    requires after.terms == w.job.terms && ReducingWrite(w.job, after)
    ensures WriteAllowed(a, w, after)
  {
  }

  lemma AllowFail(a: Pid, w: World, after: Job)
    requires after.terms == w.job.terms && FailWrite(a, w, after)
    ensures WriteAllowed(a, w, after)
  {
  }

  lemma AllowSettled(a: Pid, w: World, after: Job)
    requires after.terms == w.job.terms && SettledWrite(a, w, after)
    ensures WriteAllowed(a, w, after)
  {
  }

  lemma AllowUnconfirmed(a: Pid, w: World, after: Job)
    requires after.terms == w.job.terms && UnconfirmedWrite(a, w, after)
    ensures WriteAllowed(a, w, after)
  {
  }

  lemma AllowIntent(a: Pid, w: World, after: Job)
    requires after.terms == w.job.terms && IntentWrite(a, w, after)
    ensures WriteAllowed(a, w, after)
  {
  }

  lemma AllowScheduled(a: Pid, w: World, after: Job)
    requires after.terms == w.job.terms && ScheduledWrite(a, w, after)
    ensures WriteAllowed(a, w, after)
  {
  }

  lemma WriteIsLater(w: World, after: Job)
    requires after.terms == w.job.terms
    ensures Later(w, AfterWrite(w, after))
  {
  }

  lemma RelyKeepsJob(me: Pid, w: World, w': World)
    requires Rely(me, w, w')
    ensures JobKept(me, w, w')
  {
  }

  lemma JobKeptTransitive(me: Pid, w0: World, w1: World, w2: World)
    requires JobKept(me, w0, w1) && JobKept(me, w1, w2)
    ensures JobKept(me, w0, w2)
  {
    forall i | |w0.log| <= i < |w2.log|
      ensures me == w0.owner && w2.job.generation == w0.job.generation ==> w2.log[i] != Resumed
      ensures me == w0.owner ==> !w2.log[i].ScheduleReturned?
    {
      if i < |w1.log| { assert w2.log[i] == w1.log[i]; }
    }
  }

  /** Records written and entries other than Resumed appended by `me` keep the job. */
  lemma OwnRecordsKeepJob(me: Pid, w: World, w': World)
    requires w' == w.(records := w'.records, token := w'.token, log := w'.log)
    requires w.log <= w'.log && RecordsGrow(w.records, w'.records)
    requires forall i :: |w.log| <= i < |w'.log| ==> w'.log[i] != Resumed && !w'.log[i].ScheduleReturned?
    ensures JobKept(me, w, w')
  {
  }

  // ---------------------------------------------------------------- every run

  predicate Initial(w: World) {
    && Valid(w.job) && !w.job.state.IsPower() && NothingIntended(w.job)
    && w.records == NO_RECORDS && w.log == [] && w.lock.None? && w.token.None?
    && w.Id() !in w.inPower && AtMostOne(w.inPower)
  }

  /** A run interleaves the steps of any processes; a crashed process simply takes no more steps. */
  datatype Trace = Trace(start: World, moves: seq<(Pid, World)>)
  {
    function At(i: nat): World
      requires i <= |moves|
    {
      if i == 0 then start else moves[i - 1].1
    }

    function Last(): World {
      At(|moves|)
    }

    predicate IsRun() {
      && Initial(start)
      && forall i :: 0 <= i < |moves| ==> Step(moves[i].0, At(i), moves[i].1)
    }
  }

  lemma InitialInvariant(w: World)
    requires Initial(w)
    ensures Invariant(w)
  {
    assert History(w.log);
  }

  lemma {:induction false} RunKeepsInvariant(run: Trace, n: nat)
    requires run.IsRun() && n <= |run.moves|
    ensures Invariant(run.At(n))
  {
    hide Step;
    hide Invariant;
    if n == 0 {
      InitialInvariant(run.start);
    } else {
      RunKeepsInvariant(run, n - 1);
      MoveIsStep(run, n);
      hide Trace.IsRun;
      StepKeepsInvariant(run.moves[n - 1].0, run.At(n - 1), run.At(n));
    }
  }

  lemma StepKeepsValid(a: Pid, w: World, w': World)
    requires Step(a, w, w') && Valid(w.job)
    ensures Valid(w'.job)
  {
    hide Valid;
  }

  /** What the store holds has passed Validate. */
  lemma {:induction false} EveryJobIsValid(run: Trace, n: nat)
    requires run.IsRun() && n <= |run.moves|
    ensures Valid(run.At(n).job)
  {
    hide Step;
    hide Valid;
    if n > 0 {
      EveryJobIsValid(run, n - 1);
      MoveIsStep(run, n);
      hide Trace.IsRun;
      StepKeepsValid(run.moves[n - 1].0, run.At(n - 1), run.At(n));
    }
  }

  /** A run goes on with any step from where it stands. */
  lemma RunExtends(run: Trace, a: Pid, next: World)
    requires run.IsRun() && Step(a, run.Last(), next)
    ensures Trace(run.start, run.moves + [(a, next)]).IsRun()
    ensures Trace(run.start, run.moves + [(a, next)]).Last() == next
  {
    hide Step;
    hide Initial;
    var longer := Trace(run.start, run.moves + [(a, next)]);
    forall i | 0 <= i < |longer.moves| ensures Step(longer.moves[i].0, longer.At(i), longer.moves[i].1) {
      assert longer.At(i) == run.At(i);
    }
  }

  /**
   Machine-fenced settlement: in every interleaving, a no_action resolution and a call-start record
   never both exist, and a job resolved as no_action has not entered Backend.Schedule.
   */
  lemma FencedSettlement(run: Trace)
    requires run.IsRun()
    ensures var w := run.Last();
      w.records.resolution.Some? && w.records.resolution.value.body.outcome == OutcomeNoAction ==>
        w.records.call.None? && ScheduleCalled !in w.log
  {
    var w := run.Last();
    RunKeepsInvariant(run, |run.moves|);
    if w.records.resolution.Some? {
      ResolutionNamesTheCallBoundary(w.records);
    }
  }

  /** One schedule call per history, with envelope, intent and call-start before it, in that order. */
  lemma OneCallPerHistory(log: seq<Event>, i: nat, k: nat)
    requires History(log) && i < |log| && k < |log| && log[i] == ScheduleCalled && log[k] == ScheduleCalled
    ensures i == k
    ensures exists e, n, c :: EnvelopeIntentCall(log, e, n, c, i)
  {
    assert AllowedAt(log, i) && AllowedAt(log, k);
    assert forall j :: 0 <= j < k ==> log[..k][j] == log[j];
    assert forall j :: 0 <= j < i ==> log[..i][j] == log[j];
    var c :| 0 <= c < i && log[..i][c] == CallStarted;
    assert AllowedAt(log, c);
    var n :| 0 <= n < c && log[..c][n].IntentRecorded?;
    assert AllowedAt(log, n);
    var e :| 0 <= e < n && log[..n][e] == EnvelopeSealed;
    assert EnvelopeIntentCall(log, e, n, c, i);
  }

  /**
   Backend.Schedule is entered at most once in the whole life of a job, whichever processes try, and
   only after the envelope, the intent and the call-start record were durable, in that order.
   */
  lemma ScheduleAtMostOnce(run: Trace, i: nat, k: nat)
    requires run.IsRun()
    requires i < |run.Last().log| && k < |run.Last().log|
    requires run.Last().log[i] == ScheduleCalled && run.Last().log[k] == ScheduleCalled
    ensures i == k
    ensures exists e, n, c :: EnvelopeIntentCall(run.Last().log, e, n, c, i)
  {
    RunKeepsInvariant(run, |run.moves|);
    OneCallPerHistory(run.Last().log, i, k);
  }

  predicate EnvelopeIntentCall(log: seq<Event>, e: int, n: int, c: int, i: int) {
    && 0 <= e < n < c < i <= |log|
    && log[e] == EnvelopeSealed && log[n].IntentRecorded? && log[c] == CallStarted
  }

  /**
   Confirmed-inert exit: a job leaves intent or scheduled only for a reconcile state, or for CANCELLED or
   ACTION_FAILED with the record that proves it harmless: without a call-start record a no_action
   resolution, with one a cancelled resolution whose recorded result is what a Backend.Cancel call had come
   back with, confirmed, before the exit.
   */
  lemma ConfirmedInertExit(run: Trace, i: nat)
    requires run.IsRun()
    requires i < |run.Last().log| && run.Last().log[i].LeftPower?
    requires !run.Last().log[i].to.IsReconciled()
    ensures run.Last().log[i].to == Cancelled || run.Last().log[i].to == ActionFailed
    ensures ProvenInert(run.Last(), run.Last().log[..i])
  {
    var n := StepOfEntry(run, |run.moves|, i);
    RunKeepsInvariant(run, n);
    RunKeepsInvariant(run, |run.moves|);
    MoveIsStep(run, n + 1);
    hide Trace.IsRun;
    ExitIsSettled(run.moves[n].0, run.At(n), run.At(n + 1));
    ExitIsProven(run.At(n), run.Last());
  }

  /** One step on: at most one more history entry, and a resolution stays what it is. */
  predicate Grows(w: World, w': World) {
    && w.log <= w'.log && |w'.log| <= |w.log| + 1
    && (w.records.resolution.Some? ==> w'.records.resolution == w.records.resolution)
  }

  lemma StepGrows(a: Pid, w: World, w': World)
    requires Step(a, w, w')
    ensures Grows(w, w')
  {
    hide Valid;
  }

  lemma StartIsEmpty(run: Trace)
    requires run.IsRun()
    ensures run.At(0).log == []
  {
  }

  /** The step from `w` to `next` made entry `i` of the history of `last`. */
  predicate Made(w: World, next: World, last: World, i: nat) {
    && i < |last.log| && w.log == last.log[..i] && next.log == last.log[..i + 1]
    && (w.records.resolution.Some? ==> last.records.resolution == w.records.resolution)
  }

  lemma MadeNow(w: World, next: World, i: nat)
    requires Grows(w, next) && |w.log| <= i < |next.log|
    ensures Made(w, next, next, i)
  {
  }

  lemma StaysMade(w: World, next: World, before: World, after: World, i: nat)
    requires Made(w, next, before, i) && Grows(before, after)
    ensures Made(w, next, after, i)
  {
  }

  /** Every history entry of a run was made by one of its steps. */
  lemma {:induction false} StepOfEntry(run: Trace, m: nat, i: nat) returns (n: nat)
    requires run.IsRun() && m <= |run.moves| && i < |run.At(m).log|
    ensures n < m && Made(run.At(n), run.At(n + 1), run.At(m), i)
  {
    hide *;
    StartIsEmpty(run);
    MoveIsStep(run, m);
    StepGrows(run.moves[m - 1].0, run.At(m - 1), run.At(m));
    if i < |run.At(m - 1).log| {
      n := StepOfEntry(run, m - 1, i);
      StaysMade(run.At(n), run.At(n + 1), run.At(m - 1), run.At(m), i);
    } else {
      n := m - 1;
      MadeNow(run.At(m - 1), run.At(m), i);
    }
  }

  /** The only step that takes a job out of the power states for good finds its resolution on disk. */
  lemma ExitIsSettled(a: Pid, w: World, w': World)
    requires Step(a, w, w') && w.log <= w'.log && |w'.log| == |w.log| + 1
    requires w'.log[|w.log|].LeftPower? && !w'.log[|w.log|].to.IsReconciled()
    ensures w'.log[|w.log|].to == Cancelled || w'.log[|w.log|].to == ActionFailed
    ensures w.records.resolution.Some?
  {
    hide Valid;
    assert WriteJob(a, w, w');
  }

  lemma ExitIsProven(w: World, last: World)
    requires Invariant(w) && Invariant(last) && w.records.resolution.Some?
    requires last.records.resolution == w.records.resolution
    ensures ProvenInert(last, w.log)
  {
    ResolutionNamesTheCallBoundary(w.records);
    ResolutionNamesTheCallBoundary(last.records);
    if w.records.call.Some? {
      var result := w.records.resolution.value.body.cancelResult.value;
      var j :| 0 <= j < |w.log| && Confirms(w.log[j], result);
      assert AllowedAt(w.log, j);
      var c :| 0 <= c < j && w.log[..j][c] == CancelCalled(w.log[j].handle);
      assert CalledAndConfirmed(w.log, c, j, result);
    }
  }

  /** Entry `c` is a call of Backend.Cancel, and entry `j` its confirmation with this result. */
  predicate CalledAndConfirmed(log: seq<Event>, c: int, j: int, result: CancelResult) {
    0 <= c < j < |log| && log[c].CancelCalled? && log[j] == CancelReturned(log[c].receipt, result, true)
  }

  /** The resolution on disk proves the action harmless; `before` holds the Cancel call its result came from. */
  ghost predicate ProvenInert(w: World, before: seq<Event>) {
    && LoadAuthority(w.records).Loaded?
    && w.records.resolution.Some?
    && (w.records.call.None? <==> w.records.resolution.value.body.outcome == OutcomeNoAction)
    && (w.records.call.Some? ==>
          var result := w.records.resolution.value.body.cancelResult;
          && result.Some?
          && PositiveInertEvidence(result, LoadAuthority(w.records).authority.CancellationReceipt())
          && exists c, j :: CalledAndConfirmed(before, c, j, result.value))
  }

  lemma ExitBacked(log: seq<Event>, i: nat)
    requires History(log) && i < |log| && log[i].LeftPower? && !log[i].to.IsReconciled()
    ensures log[i].to == Cancelled || log[i].to == ActionFailed
    ensures Resolved(OutcomeNoAction) in log || Resolved(OutcomeCancelled) in log
    ensures Resolved(OutcomeCancelled) in log ==> HasSomeConfirmedCancel(log[..i])
  {
    assert AllowedAt(log, i);
    var outcome := if CallStarted in log[..i] then OutcomeCancelled else OutcomeNoAction;
    var r :| 0 <= r < i && log[..i][r] == Resolved(outcome);
    assert log[r] == Resolved(outcome);
    assert AllowedAt(log, r);
    if outcome == OutcomeCancelled {
      var c :| 0 <= c < r && log[..r][c].CancelReturned? && log[..r][c].confirmed;
      assert log[..i][c] == log[..r][c];
    } else if Resolved(OutcomeCancelled) in log {
      var q :| 0 <= q < |log| && log[q] == Resolved(OutcomeCancelled);
      ResolvedOnce(log, q, r);
    }
  }

  lemma ResolvedOnce(log: seq<Event>, q: nat, r: nat)
    requires History(log) && q < |log| && r < |log| && log[q].Resolved? && log[r].Resolved?
    ensures q == r
  {
    assert AllowedAt(log, q) && AllowedAt(log, r);
    assert forall j :: 0 <= j < q ==> log[..q][j] == log[j];
    assert forall j :: 0 <= j < r ==> log[..r][j] == log[j];
    assert log[q].outcome == OutcomeNoAction || log[q].outcome == OutcomeCancelled;
  }

  predicate Granting(w: World, seen: Job) {
    && w.job.state == StopObserved && w.job.generation == seen.generation
    && w.job.stopTargets == seen.stopTargets && w.job.cancelRequested == seen.cancelRequested
  }

  lemma StepFromGrant(a: Pid, w: World, w': World, seen: Job)
    requires Step(a, w, w') && Granting(w, seen)
    ensures seen.generation <= w'.job.generation
    ensures
      || Granting(w', seen) || seen.generation < w'.job.generation
      || w'.job.state.IsPower() || w'.job.state.IsTerminal()
  {
  }

  lemma NeverBackToGrant(a: Pid, w: World, w': World)
    requires Step(a, w, w')
    ensures w.job.generation <= w'.job.generation
    ensures w.job.state.IsPower() || w.job.state.IsTerminal() ==> w'.job.state.IsPower() || w'.job.state.IsTerminal()
  {
  }

  /**
   The generation check is not fooled by a job that came back: if a job is STOP_OBSERVED at two moments of a
   run with the same generation, it was STOP_OBSERVED with the same targets at every moment in between.
   */
  lemma {:induction false} EqualGenerationsGuardTheGrant(run: Trace, p: nat, q: nat, r: nat)
    requires run.IsRun() && p <= r <= q <= |run.moves|
    requires run.At(p).job.state == StopObserved && run.At(q).job.state == StopObserved
    requires run.At(q).job.generation == run.At(p).job.generation
    ensures Granting(run.At(r), run.At(p).job)
  {
    GrantOrGone(run, p, r);
    GrantOrGone(run, p, q);
    GoneStaysGone(run, r, q);
  }

  lemma MoveIsStep(run: Trace, r: nat)
    requires run.IsRun() && 0 < r <= |run.moves|
    ensures Step(run.moves[r - 1].0, run.At(r - 1), run.At(r))
  {
    hide Step;
    assert run.At(r) == run.moves[r - 1].1;
  }

  predicate GrantedOrPast(w: World, seen: Job) {
    && seen.generation <= w.job.generation
    && (Granting(w, seen) || seen.generation < w.job.generation || w.job.state.IsPower() || w.job.state.IsTerminal())
  }

  lemma StepFromGrantOrPast(a: Pid, w: World, w': World, seen: Job)
    requires Step(a, w, w') && GrantedOrPast(w, seen)
    ensures GrantedOrPast(w', seen)
  {
    NeverBackToGrant(a, w, w');
    if Granting(w, seen) { StepFromGrant(a, w, w', seen); }
    hide Step;
  }

  lemma {:induction false} GrantOrGone(run: Trace, p: nat, r: nat)
    requires run.IsRun() && p <= r <= |run.moves| && run.At(p).job.state == StopObserved
    ensures GrantedOrPast(run.At(r), run.At(p).job)
  {
    hide Step;
    hide Trace.IsRun;
    if p < r {
      hide GrantedOrPast;
      GrantOrGone(run, p, r - 1);
      MoveIsStep(run, r);
      StepFromGrantOrPast(run.moves[r - 1].0, run.At(r - 1), run.At(r), run.At(p).job);
    }
  }

  lemma {:induction false} GoneStaysGone(run: Trace, r: nat, q: nat)
    requires run.IsRun() && r <= q <= |run.moves|
    ensures run.At(r).job.generation <= run.At(q).job.generation
    ensures run.At(r).job.state.IsPower() || run.At(r).job.state.IsTerminal() ==>
      run.At(q).job.state.IsPower() || run.At(q).job.state.IsTerminal()
  {
    hide Step;
    hide Trace.IsRun;
    if r < q {
      GoneStaysGone(run, r, q - 1);
      MoveIsStep(run, q);
      NeverBackToGrant(run.moves[q - 1].0, run.At(q - 1), run.At(q));
    }
  }

  /**
   Seen from another job of the machine that shares the lock and the inventory, every write of this job is
   what OtherJob allows: the entry rule is the same on both sides.
   */
  lemma WriteIsOtherJobsStep(a: Pid, w: World, w': World, other: World)
    requires Invariant(w) && WriteJob(a, w, w')
    requires other.Id() != w.Id() && other.lock == w.lock && other.inPower == w.inPower
    ensures OtherJob(a, other, other.(inPower := w'.inPower))
  {
    hide Valid;
    if w.job.state.IsPower() { assert w'.inPower <= w.inPower; }
  }

  /** In present code ORPHANED means that no intent was ever recorded: it never holds an unresolved action. */
  lemma OrphansAreResolved(run: Trace, n: nat)
    requires run.IsRun() && n <= |run.moves|
    ensures run.At(n).job.Unresolved() <==> run.At(n).job.state.IsPower()
  {
    RunKeepsInvariant(run, n);
  }

  /** At most one job of the machine is in intent or scheduled, and this job is exactly when its state says so. */
  lemma OneUnresolvedJobPerMachine(run: Trace, other: string)
    requires run.IsRun()
    requires run.Last().job.state.IsPower() && other in run.Last().inPower
    ensures other == run.Last().Id()
  {
    RunKeepsInvariant(run, |run.moves|);
  }
}
