/**
 The store, the machine lock and the backend as one process sees them: every method below is one
 atomic action of PowerWorld or a sequence of them with the other processes let in between
 (internal/pluginstate/recovery.go, internal/pluginstate/store.go).

 Reads and writes may fail for reasons of their own, and a failed write may still have reached the
 disk. A record torn by a crash is a record whose every later read fails.
 */
module PowerMachineModule {
  import opened Wrappers
  import opened Actions
  import opened PluginJob
  import opened RecoveryRecords
  import opened PowerWorld

  datatype Err = NoError | JobChanged | Failed

  class PowerMachine {
    const owner: Pid
    var job: Job
    var lock: Option<Pid>
    var records: Records
    // History variables, and the ids a scan of every job file would report.
    var token: Option<Pid>
    var inPower: set<string>
    var log: seq<Event>

    constructor (owner: Pid, job: Job)
      requires Valid(job) && !job.state.IsPower() && NothingIntended(job)
      ensures Invariant(View()) && Initial(View()) && this.job == job && this.owner == owner
    {
      this.owner := owner;
      this.job := job;
      lock, records, token, inPower, log := None, NO_RECORDS, None, {}, [];
      new;
      InitialInvariant(View());
    }

    function View(): World
      reads this
    {
      World(job, owner, lock, token, records, inPower, log)
    }

    /** The other processes run; then this one goes on or dies, and a dead holder loses the lock. */
    method Interfere(me: Pid) returns (life: Life)
      requires Invariant(View())
      modifies this
      ensures Invariant(View())
      ensures life.Alive? ==> Rely(me, old(View()), View())
      ensures life.Crashed? ==> Gone(me, old(View()), View())
    {
      var next: World := *;
      if Invariant(next) && Rely(me, View(), next) {
        job, lock, records, token, inPower, log :=
          next.job, next.lock, next.records, next.token, next.inPower, next.log;
        assert View() == next;
      }
      var dies: bool := *;
      if dies {
        if lock == Some(me) {
          ghost var before := View();
          lock, token := None, None;
          StepKeepsInvariant(me, before, View());
        }
        return Crashed;
      }
      return Alive;
    }

    method AcquireLock(me: Pid) returns (ok: bool)
      requires Invariant(View()) && lock != Some(me)
      modifies this
      ensures Invariant(View())
      ensures ok ==> old(lock).None? && View() == old(View()).(lock := Some(me))
      ensures !ok ==> View() == old(View())
    {
      ok := *;
      ok := ok && lock.None?;
      if ok {
        ghost var before := View();
        lock := Some(me);
        StepKeepsInvariant(me, before, View());
      }
    }

    method ReleaseLock(me: Pid)
      requires Invariant(View()) && lock == Some(me)
      modifies this
      ensures Invariant(View()) && View() == old(View()).(lock := None, token := None)
    {
      ghost var before := View();
      lock, token := None, None;
      StepKeepsInvariant(me, before, View());
    }

    /** Store.Load. */
    method Load() returns (loaded: Option<Job>)
      ensures loaded.Some? ==> loaded == Some(job)
    {
      var readable: bool := *;
      loaded := if readable then Some(job) else None;
    }

    /** The supervisor's UnresolvedPowerJobs: `none` if the readable inventory names no other job. */
    method UnresolvedPowerJobs() returns (readable: bool, none: bool)
      ensures readable && none ==> inPower <= {job.terms.jobID}
    {
      readable := *;
      var othersActive: bool := *;
      none := !othersActive && inPower <= {job.terms.jobID};
    }

    /**
     Store.UpdateJob: the whole load, mutate, Validate, write sequence runs under the store lock. The
     mutation refuses by returning None. An error does not say whether the write reached the disk.
     */
    method UpdateJob(me: Pid, mutate: Job -> Option<Job>) returns (err: Err, updated: Job)
      requires Invariant(View())
      requires mutate(job).Some? ==> WriteAllowed(me, View(), mutate(job).value)
      modifies this
      ensures Invariant(View())
      ensures
        || View() == old(View())
        || (mutate(old(job)).Some? && View() == AfterWrite(old(View()), mutate(old(job)).value))
      ensures err == NoError ==>
        && mutate(old(job)).Some? && updated == mutate(old(job)).value
        && View() == AfterWrite(old(View()), updated)
      ensures err == JobChanged ==> View() == old(View())
      ensures job.terms == old(job.terms)
    {
      updated := job;
      var storeFails: bool := *;
      if storeFails {
        return Failed, job;
      }
      var next := mutate(job);
      if next.None? {
        return JobChanged, job;
      }
      if !Valid(next.value) {
        return Failed, job;
      }
      var written: bool := *;
      if !written {
        return Failed, job;
      }
      ghost var before := View();
      log := log + JobEvents(job, next.value);
      inPower := if next.value.state.IsPower() then inPower + {job.terms.jobID} else inPower - {job.terms.jobID};
      job := next.value;
      assert View() == AfterWrite(before, next.value);
      StepKeepsInvariant(me, before, View());
      updated := next.value;
      var logged: bool := *;
      err := if logged then NoError else Failed;
    }

    /** LoadRecoveryAuthority: four separate reads, each of which may fail. */
    method LoadRecoveryAuthority(me: Pid) returns (life: Life, result: LoadResult)
      requires Invariant(View()) && (lock == Some(me) || me == owner)
      modifies this
      ensures Invariant(View())
      ensures life.Alive? ==> Rely(me, old(View()), View())
      ensures life.Crashed? ==> Gone(me, old(View()), View())
      ensures life.Alive? && result.NotExist? ==> records.envelope.None?
      ensures life.Alive? && result.Loaded? ==>
        var a := result.authority;
        && records.envelope == Some(a.envelope) && records.call == a.call && records.receipt == a.receipt
        && (a.resolution.Some? || (lock == Some(me) && (me == owner || records.call.None?)) ==>
              records.resolution == a.resolution)
    {
      hide Invariant;
      hide Rely;
      result := Unreadable;
      ghost var start := View();
      RelyReflexive(me, start);
      var readable: bool := *;
      if !readable { return Alive, Unreadable; }
      var envelope := records.envelope;
      if envelope.None? { return Alive, NotExist; }
      life := Interfere(me);
      if life.Crashed? { return; }
      ghost var second := View();
      var call := records.call;
      life := Interfere(me);
      if life.Crashed? { GoneSince(me, start, second, View()); return; }
      ghost var third := View();
      RelyTransitive(me, start, second, third);
      var receipt := records.receipt;
      life := Interfere(me);
      if life.Crashed? { GoneSince(me, start, third, View()); return; }
      RelyTransitive(me, start, third, View());
      RecordsKept(me, start, second);
      RecordsKept(me, second, third);
      RecordsKept(me, third, View());
      readable := *;
      if !readable { return Alive, Unreadable; }
      var resolution := records.resolution;
      result := LoadAuthority(Records(envelope, call, receipt, resolution));
    }

    /**
     Store.BarrierAuthority, read under the store lock. The session indexes and the pending revocations
     are answers of the environment here; see the reservation model for the indexes.
     */
    method BarrierAuthority() returns (ok: bool, validated: Job)
      ensures ok ==> validated == job && BarrierBound(job) && job.BarrierSatisfied() && !job.cancelRequested
    {
      validated := job;
      var readable: bool := *;
      if !readable || !BarrierBound(job) || !job.BarrierSatisfied() { return false, job; }
      if exists i :: 0 <= i < |job.stopTargets| && !job.stopTargets[i].workspace.Absolute? { return false, job; }
      var indexesMatch: bool, nothingPending: bool := *, *;
      ok := indexesMatch && nothingPending && !job.cancelRequested;
    }

    // ------------------------------------------------------------ atomic writes

    /** Append a record or an entry of this process as one atomic step. */
    method Commit(me: Pid, newRecords: Records, newToken: Option<Pid>, event: Event)
      requires Invariant(View())
      requires event != Resumed && !event.ScheduleReturned? && RecordsGrow(records, newRecords)
      requires var next := View().(records := newRecords, token := newToken, log := log + [event]);
        || SealEnvelope(me, View(), next) || StartCall(me, View(), next) || SealReceiptRecord(me, View(), next)
        || Resolve(me, View(), next) || EnterSchedule(me, View(), next)
        || CallCancel(me, View(), next)
      modifies this
      ensures View() == old(View()).(records := newRecords, token := newToken, log := old(log) + [event])
      ensures Invariant(View()) && JobKept(me, old(View()), View())
    {
      hide Invariant;
      hide JobKept;
      ghost var before := View();
      records, token, log := newRecords, newToken, log + [event];
      StepKeepsInvariant(me, before, View());
      OwnRecordsKeepJob(me, before, View());
    }

    // ------------------------------------------------------------ create-once records

    /** PersistRecoveryEnvelope under the machine lock. */
    method PersistRecoveryEnvelope(me: Pid, current: Job, receipt: Receipt, createdAt: nat)
      returns (life: Life, envelope: Option<Envelope>)
      requires Invariant(View()) && lock == Some(me) && me == owner
      requires current.terms == job.terms
      modifies this
      ensures Invariant(View())
      ensures life.Crashed? ==> Gone(me, old(View()), View())
      ensures life.Alive? ==> JobKept(me, old(View()), View())
      ensures life.Alive? && envelope.Some? ==>
        && !current.terms.dryRun && current.state == StopObserved
        && records.envelope == envelope && envelope.value.body.intentReceipt == receipt
    {
      hide Invariant;
      hide JobKept;
      ghost var start := View();
      envelope := None;
      life := Interfere(me);
      if life.Crashed? { return; }
      RelyKeepsJob(me, start, View());
      if !Valid(current) || current.terms.dryRun || current.state != StopObserved { return; }
      if !ValidReceipt(receipt) || receipt.body.jobID != current.terms.jobID
         || receipt.body.action != current.terms.action {
        return;
      }
      var body := EnvelopeBody(current.terms.jobID, ObservedBindingID(current), current.terms.action,
                               current.terms.policy, createdAt, receipt);
      var record := Envelope(body, EnvelopeHashOf(body));
      if !ValidEnvelope(record) { return; }
      if records.envelope.Some? {
        return Alive, if records.envelope == Some(record) then Some(record) else None;
      }
      var written: bool := *;
      if !written { return; }
      InvariantRecords(View());
      ghost var before := View();
      Commit(me, records.(envelope := Some(record)), token, EnvelopeSealed);
      JobKeptTransitive(me, start, before, View());
      var durable: bool := *;
      envelope := if durable then Some(record) else None;
    }

    /** PersistScheduleCallStarted: the durable no-retry boundary. */
    method PersistScheduleCallStarted(me: Pid, envelopeHash: EnvelopeHash, startedAt: nat)
      returns (life: Life, call: Option<Call>)
      requires Invariant(View()) && lock == Some(me) && me == owner && HasIntent(log)
      modifies this
      ensures Invariant(View())
      ensures life.Crashed? ==> Gone(me, old(View()), View())
      ensures life.Alive? ==> JobKept(me, old(View()), View())
      ensures life.Alive? && call.Some? ==> records.call == call && records.resolution.None? && token == Some(me)
    {
      hide Invariant;
      hide JobKept;
      ghost var start := View();
      call := None;
      var loaded: LoadResult;
      life, loaded := LoadRecoveryAuthority(me);
      if life.Crashed? { return; }
      ghost var before := View();
      RelyKeepsJob(me, start, before);
      if !loaded.Loaded? { return; }
      var authority := loaded.authority;
      if authority.envelope.hash != envelopeHash { return; }
      if authority.resolution.Some? { return; }
      if authority.call.Some? { return; }
      var body := CallBody(job.terms.jobID, envelopeHash, startedAt);
      var record := Call(body, CallHashOf(body));
      if !ValidCall(record, authority.envelope) { return; }
      var written: bool := *;
      if !written { return; }
      IntentStays(start.log, log);
      Commit(me, records.(call := Some(record)), Some(me), CallStarted);
      JobKeptTransitive(me, start, before, View());
      var durable: bool := *;
      call := if durable then Some(record) else None;
    }

    /** PersistScheduleReceipt: the backend's receipt, kept apart from the mutable job. */
    method PersistScheduleReceipt(me: Pid, envelopeHash: EnvelopeHash, callHash: CallHash, receipt: Receipt,
                                  sealedAt: nat)
      returns (life: Life, ok: bool)
      requires Invariant(View()) && lock == Some(me) && me == owner && ScheduleCalled in log
      modifies this
      ensures Invariant(View())
      ensures life.Crashed? ==> Gone(me, old(View()), View())
      ensures life.Alive? ==> JobKept(me, old(View()), View())
      ensures life.Alive? && ok ==> records.receipt.Some? && records.receipt.value.body.receipt == receipt
    {
      hide Invariant;
      hide JobKept;
      ghost var start := View();
      ok := false;
      var loaded: LoadResult;
      life, loaded := LoadRecoveryAuthority(me);
      if life.Crashed? { return; }
      ghost var before := View();
      RelyKeepsJob(me, start, before);
      if !ValidReceipt(receipt) || receipt.body.jobID != job.terms.jobID { return; }
      if !loaded.Loaded? { return; }
      var authority := loaded.authority;
      if authority.resolution.Some? || authority.call.None? || authority.envelope.hash != envelopeHash
         || authority.call.value.hash != callHash {
        return;
      }
      var body := SealBody(job.terms.jobID, envelopeHash, callHash, sealedAt, receipt);
      var record := Seal(body, SealHashOf(body));
      if !ValidSeal(record, authority.envelope, authority.call.value) { return; }
      if records.receipt.Some? { return Alive, records.receipt == Some(record); }
      var written: bool := *;
      if !written { return; }
      EventStays(start.log, log, ScheduleCalled);
      Commit(me, records.(receipt := Some(record)), token, ReceiptSealed);
      JobKeptTransitive(me, start, before, View());
      ok := *;
    }

    /**
     PersistRecoveryResolution. An existing resolution is returned as it is; a new one passes
     validateRecoveryResolution against the authority just read.
     */
    method PersistRecoveryResolution(me: Pid, outcome: Outcome, reason: string, result: Option<CancelResult>,
                                     resolvedAt: nat)
      returns (life: Life, resolution: Option<Resolution>)
      requires Invariant(View()) && (lock == Some(me) || me == owner)
      requires outcome == OutcomeNoAction ==> lock == Some(me)
      requires result.Some? ==> HasConfirmedCancel(log, result.value)
      modifies this
      ensures Invariant(View())
      ensures life.Crashed? ==> Gone(me, old(View()), View())
      ensures life.Alive? ==> JobKept(me, old(View()), View())
      ensures life.Alive? && resolution.Some? ==> records.resolution == resolution
    {
      hide Invariant;
      hide JobKept;
      hide ValidResolution;
      hide SealEnvelope;
      hide StartCall;
      hide SealReceiptRecord;
      hide EnterSchedule;
      hide CallCancel;
      hide Resolve;
      ghost var start := View();
      resolution := None;
      var loaded: LoadResult;
      life, loaded := LoadRecoveryAuthority(me);
      if life.Crashed? { return; }
      ghost var before := View();
      RelyKeepsJob(me, start, before);
      if !loaded.Loaded? { return; }
      var authority := loaded.authority;
      if authority.resolution.Some? { return Alive, authority.resolution; }
      if Blank(reason) || |reason| > 256 || resolvedAt == ZERO_TIME { return; }
      var body := ResolutionBody(
        job.terms.jobID, authority.envelope.hash,
        if authority.call.Some? then Some(authority.call.value.hash) else None,
        if authority.receipt.Some? then Some(authority.receipt.value.hash) else None,
        outcome, reason, resolvedAt, result);
      var record := Resolution(body, ResolutionHashOf(body));
      if !ValidResolution(record, authority) { return; }
      if records.resolution.Some? {
        return Alive, if records.resolution == Some(record) then Some(record) else None;
      }
      var written: bool := *;
      if !written { return; }
      if result.Some? { ConfirmationStays(start.log, log, result.value); }
      InvariantRecords(View());
      ResolutionFits(record, authority, records);
      ResolveStep(me, View(), record);
      Commit(me, records.(resolution := Some(record)), token, Resolved(outcome));
      JobKeptTransitive(me, start, before, View());
      var durable: bool := *;
      resolution := if durable then Some(record) else None;
    }

    // ------------------------------------------------------------ backend

    /**
     Backend.Schedule: entered once, by the process that just wrote call-start. `returned` is the world
     in which the answer arrives.
     */
    method BackendSchedule(me: Pid) returns (life: Life, receipt: Option<Receipt>, ghost returned: World)
      requires Invariant(View()) && token == Some(me) && lock == Some(me) && me == owner
      modifies this
      ensures Invariant(View())
      ensures life.Crashed? ==> Gone(me, old(View()), View())
      ensures life.Alive? ==>
        && JobKept(me, old(View()), returned)
        && View() == returned.(log := returned.log + [ScheduleReturned(receipt.Some?)])
        && ScheduleCalled in log
    {
      hide Invariant;
      hide JobKept;
      receipt := None;
      ghost var start := View();
      NotYetReturned(start);
      Commit(me, records, None, ScheduleCalled);
      ghost var entered := View();
      life := Interfere(me);
      returned := View();
      if life.Crashed? { return; }
      RelyKeepsJob(me, entered, returned);
      JobKeptTransitive(me, start, entered, returned);
      EventStays(entered.log, log, ScheduleCalled);
      assert !HasReturned(log);
      receipt := *;
      log := log + [ScheduleReturned(receipt.Some?)];
      assert LeaveSchedule(me, returned, View());
      StepKeepsInvariant(me, returned, View());
      EventStays(returned.log, log, ScheduleCalled);
    }

    /** Backend.Cancel: the result is arbitrary; `confirmed` is a nil error or "no shutdown in progress". */
    method BackendCancel(me: Pid, receipt: Receipt) returns (life: Life, result: CancelResult, confirmed: bool)
      requires Invariant(View()) && (lock == Some(me) || me == owner)
      modifies this
      ensures Invariant(View())
      ensures life.Crashed? ==> Gone(me, old(View()), View())
      ensures life.Alive? ==> JobKept(me, old(View()), View())
      ensures life.Alive? ==> CancelledWith(log, |old(log)|, receipt) && CancelAttempted(log, |old(log)|)
      ensures life.Alive? && confirmed ==> HasConfirmedCancel(log, result)
    {
      hide Invariant;
      hide JobKept;
      hide SealEnvelope;
      hide StartCall;
      hide SealReceiptRecord;
      hide EnterSchedule;
      hide Resolve;
      hide CallCancel;
      result, confirmed := CancelResult(false, false, JobScope), false;
      ghost var start := View();
      CancelSteps(me, start, receipt);
      Commit(me, records, token, CancelCalled(receipt));
      ghost var entered := View();
      life := Interfere(me);
      if life.Crashed? { return; }
      ghost var before := View();
      RelyKeepsJob(me, entered, before);
      JobKeptTransitive(me, start, entered, before);
      result, confirmed := *, *;
      CalledStays(entered.log, before.log, |start.log|, receipt);
      CancelSteps(me, before, receipt);
      Commit(me, records, token, CancelReturned(receipt, result, confirmed));
      JobKeptTransitive(me, start, before, View());
      CalledStays(before.log, log, |start.log|, receipt);
      if confirmed { LastConfirms(before.log, receipt, result); }
    }
  }

  /** As long as the token is out, no schedule call has been entered, so none has returned. */
  lemma NotYetReturned(w: World)
    requires Invariant(w) && w.token.Some?
    ensures !HasReturned(w.log)
  {
    if HasReturned(w.log) {
      var i :| 0 <= i < |w.log| && w.log[i].ScheduleReturned?;
      assert AllowedAt(w.log, i);
      EventStays(w.log[..i], w.log, ScheduleCalled);
    }
  }

  lemma InvariantRecords(w: World)
    requires Invariant(w)
    ensures w.records.envelope.None? ==> w.records == NO_RECORDS
    ensures w.records.envelope.Some? ==> LoadAuthority(w.records).Loaded?
  {
  }

  lemma ResolveStep(me: Pid, w: World, record: Resolution)
    requires w.records.envelope.Some? && w.records.resolution.None? && LoadAuthority(w.records).Loaded?
    requires ValidResolution(record, LoadAuthority(w.records).authority)
    requires w.Holds(me) || me == w.owner
    requires record.body.outcome == OutcomeNoAction ==> w.Holds(me)
    requires record.body.cancelResult.Some? ==> HasConfirmedCancel(w.log, record.body.cancelResult.value)
    ensures Resolve(me, w, w.(records := w.records.(resolution := Some(record)),
                              log := w.log + [Resolved(record.body.outcome)]))
  {
    ResolutionOfCall(record, LoadAuthority(w.records).authority);
  }

  /** A resolution that fits the authority just read fits the files, as long as they are still the same. */
  lemma ResolutionFits(record: Resolution, authority: Authority, records: Records)
    requires ValidResolution(record, authority)
    requires records.envelope == Some(authority.envelope) && records.call == authority.call
    requires records.receipt == authority.receipt
    requires LoadAuthority(records).Loaded?
    ensures ValidResolution(record, LoadAuthority(records).authority)
  {
  }

  /** The hook binding a barrier must carry before it has any authority. */
  predicate BarrierBound(job: Job) {
    && job.terms.policy == AfterAllStop && job.terms.stopWithoutSuccessAck
    && job.controllerSession != NoHash && job.controllerArmTurn != NoHash && job.armObserved
    && job.reservationsCommitted && job.indexesReady
  }

  /** The records that others leave alone while `me` holds the lock or owns the job. */
  lemma RecordsKept(me: Pid, w: World, w': World)
    requires Rely(me, w, w') && (w.Holds(me) || me == w.owner)
    ensures w'.owner == w.owner && (w.Holds(me) <==> w'.Holds(me))
    ensures w'.records.(resolution := None) == w.records.(resolution := None)
    ensures w.records.resolution.Some? ==> w'.records.resolution == w.records.resolution
  {
  }

  lemma GoneSince(me: Pid, w: World, mid: World, w': World)
    requires Rely(me, w, mid) && Gone(me, mid, w')
    ensures Gone(me, w, w')
  {
  }

  /** What is known after the process running a method has died. */
  predicate Gone(me: Pid, w: World, w': World) {
    !w'.Holds(me) && w'.job.terms == w.job.terms && w.log <= w'.log
  }

  /** The entry at `at` is a Cancel with this very handle. */
  predicate CancelledWith(log: seq<Event>, at: nat, receipt: Receipt) {
    at < |log| && log[at] == CancelCalled(receipt)
  }

  /** Whoever may call Backend.Cancel may enter it, and come back once it has entered. */
  lemma CancelSteps(me: Pid, w: World, receipt: Receipt)
    requires w.Holds(me) || me == w.owner
    ensures CallCancel(me, w, w.(log := w.log + [CancelCalled(receipt)]))
    ensures CancelCalled(receipt) in w.log ==> forall result: CancelResult, confirmed: bool ::
      CallCancel(me, w, w.(log := w.log + [CancelReturned(receipt, result, confirmed)]))
  {
  }

  lemma CalledStays(before: seq<Event>, after: seq<Event>, at: nat, receipt: Receipt)
    requires before <= after && CancelledWith(before, at, receipt)
    ensures CancelledWith(after, at, receipt) && CancelCalled(receipt) in after && CancelAttempted(after, at)
  {
    assert after[at] == before[at];
  }

  lemma LastConfirms(log: seq<Event>, receipt: Receipt, result: CancelResult)
    ensures HasConfirmedCancel(log + [CancelReturned(receipt, result, true)], result)
  {
    var longer := log + [CancelReturned(receipt, result, true)];
    assert Confirms(longer[|log|], result);
  }

  lemma HandleStays(before: seq<Event>, after: seq<Event>, at: nat, receipt: Receipt)
    requires before <= after && CancelledWith(before, at, receipt)
    ensures CancelledWith(after, at, receipt)
  {
  }

  predicate CancelAttempted(log: seq<Event>, from: nat) {
    exists i :: from <= i < |log| && log[i].CancelCalled?
  }

  lemma EventStays(before: seq<Event>, after: seq<Event>, event: Event)
    requires before <= after && event in before
    ensures event in after
  {
    var i :| 0 <= i < |before| && before[i] == event;
    assert after[i] == event;
  }

  lemma ConfirmationStays(before: seq<Event>, after: seq<Event>, result: CancelResult)
    requires before <= after && HasConfirmedCancel(before, result)
    ensures HasConfirmedCancel(after, result)
  {
    var i :| 0 <= i < |before| && Confirms(before[i], result);
    assert after[i] == before[i];
  }

  lemma IntentStays(before: seq<Event>, after: seq<Event>)
    requires before <= after && HasIntent(before)
    ensures HasIntent(after)
  {
    var i :| 0 <= i < |before| && before[i].IntentRecorded?;
    assert after[i] == before[i];
  }
}
