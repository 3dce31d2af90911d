/**
 The processes that may only take authority away: the cancel worker, the command line's cancel of an
 unresolved plugin job, and its recovery without a readable job
 (internal/cli/cancel_worker.go, internal/cli/plugin_cancel.go, internal/cli/cancel.go).

 They share the machine with the supervisor under the rely of PowerWorld. A retry loop is given the
 number of tries it lives to make. Completing pending revocation markers is not part of this model.
 */
module CancelPathsModule {
  import opened Wrappers
  import opened Actions
  import opened PluginJob
  import opened RecoveryRecords
  import opened PowerWorld
  import opened PowerMachineModule

  datatype Exit = Done | NotSettled

  /** What an exit code of zero promises: the job is terminal, or its power attempt is resolved on disk. */
  predicate Inert(w: World) {
    w.job.state.IsTerminal() || w.records.resolution.Some?
  }

  /** The revocation names this job's binding, as its mutable record or its envelope has it. */
  predicate NamesBinding(w: World, bindingID: string) {
    || ObservedBindingID(w.job) == bindingID
    || (w.records.envelope.Some? && w.records.envelope.value.body.bindingID == bindingID)
  }

  // ---------------------------------------------------------------- mutations of the job

  /** cancel_worker.lock_unavailable: ask for the cancellation that has to wait for the lock. */
  function AskedWithoutLock(bindingID: string, reason: string, current: Job): Option<Job> {
    if ObservedBindingID(current) == bindingID && (!current.state.IsTerminal() || current.Unresolved()) then
      Some(current.(generation := current.generation + 1, cancelRequested := true, cancelReason := reason,
                    reasonCode := "cancel_worker_unavailable:machine_power_lock_held"))
    else Some(current)
  }

  lemma AskedWithoutLockAllowed(a: Pid, w: World, bindingID: string, reason: string)
    ensures AskedWithoutLock(bindingID, reason, w.job).Some?
    ensures WriteAllowed(a, w, AskedWithoutLock(bindingID, reason, w.job).value)
  {
    hide WriteAllowed;
    AllowReducing(a, w, AskedWithoutLock(bindingID, reason, w.job).value);
  }

  /** cli.cancel.requested. */
  function AskedByUser(current: Job): Option<Job> {
    if !current.Unresolved() then Some(current)
    else Some(current.(generation := current.generation + 1, cancelRequested := true,
                       cancelReason := "cli_cancelled_by_user", reasonCode := "power_cancel_requested"))
  }

  lemma AskedByUserAllowed(a: Pid, w: World)
    ensures AskedByUser(w.job).Some? && WriteAllowed(a, w, AskedByUser(w.job).value)
  {
    hide WriteAllowed;
    AllowReducing(a, w, AskedByUser(w.job).value);
  }

  /** cancel_worker.fence. */
  function Fenced(bindingID: string, reason: string, current: Job): Option<Job> {
    if ObservedBindingID(current) != bindingID then None
    else if current.state.IsTerminal() && !current.Unresolved() then Some(current)
    else if current.Unresolved() then None
    else Some(current.(generation := current.generation + 1, cancelRequested := true, cancelReason := reason,
                       state := Cancelled, reasonCode := "revocation_channel_unavailable:" + reason))
  }

  lemma FencedAllowed(a: Pid, w: World, bindingID: string, reason: string)
    requires Invariant(w)
    ensures Fenced(bindingID, reason, w.job).Some? ==>
      var after := Fenced(bindingID, reason, w.job).value;
      WriteAllowed(a, w, after) && after.state.IsTerminal()
  {
    PowerIsUnresolved(w);
    if Fenced(bindingID, reason, w.job).Some? {
      hide WriteAllowed;
      hide Invariant;
      AllowReducing(a, w, Fenced(bindingID, reason, w.job).value);
    }
  }

  function PowerSettled(outcome: Outcome, reason: string, current: Job): (next: Job)
    ensures next.terms == current.terms && next.state == Cancelled && next.generation == current.generation + 1
    ensures SamePowerFields(current, next) && next.stopTargets == current.stopTargets
  {
    current.(generation := current.generation + 1, cancelRequested := true, cancelReason := reason,
             state := Cancelled, reasonCode := SettlementReason(outcome, reason))
  }

  /** The update of persistPluginPowerSettlement. */
  function SettledAs(outcome: Outcome, reason: string, current: Job): Option<Job> {
    if current.state.IsTerminal() && !current.Unresolved() then Some(current)
    else if !current.Unresolved() then None
    else Some(PowerSettled(outcome, reason, current))
  }

  function SettlementReason(outcome: Outcome, reason: string): string {
    if outcome == OutcomeNoAction then "pre_schedule_intent_cancelled:" + reason else "countdown_cancelled:" + reason
  }

  lemma SettledAsAllowed(a: Pid, w: World, outcome: Outcome, reason: string)
    requires w.Holds(a) && (w.job.state.IsPower() ==> w.records.resolution.Some?)
    ensures SettledAs(outcome, reason, w.job).Some? ==>
      var after := SettledAs(outcome, reason, w.job).value;
      WriteAllowed(a, w, after) && after.state.IsTerminal()
  {
    hide WriteAllowed;
    hide PowerSettled;
    if SettledAs(outcome, reason, w.job).Some? {
      if !w.job.Unresolved() {
        AllowReducing(a, w, w.job);
      } else if w.job.state.IsPower() {
        AllowSettled(a, w, PowerSettled(outcome, reason, w.job));
      } else {
        AllowReducing(a, w, PowerSettled(outcome, reason, w.job));
      }
    }
  }

  /** cancel_worker.receipt_unavailable: the settlement failed, the request stays. */
  function Unconfirmed(reason: string, current: Job): Option<Job> {
    if !current.Unresolved() then Some(current)
    else Some(current.(cancelRequested := true, cancelReason := reason,
                       reasonCode := "countdown_cancel_unconfirmed:" + reason))
  }

  lemma UnconfirmedAllowed(a: Pid, w: World, reason: string)
    requires w.Holds(a)
    ensures Unconfirmed(reason, w.job).Some? && WriteAllowed(a, w, Unconfirmed(reason, w.job).value)
  {
    hide WriteAllowed;
    var after := Unconfirmed(reason, w.job).value;
    if w.job.state.IsPower() && w.job.Unresolved() {
      AllowUnconfirmed(a, w, after);
    } else {
      AllowReducing(a, w, after);
    }
  }

  lemma UnconfirmedKeepsRequest(job: Job, reason: string)
    ensures Unconfirmed(reason, job).Some?
    ensures Unconfirmed(reason, job).value.Unresolved() ==> Unconfirmed(reason, job).value.cancelRequested
  {
  }

  /** The job asks to be cancelled, and if an action is pending the history says so for good. */
  predicate RequestRecorded(w: World, bindingID: string) {
    ObservedBindingID(w.job) == bindingID && w.job.cancelRequested && (w.job.state.IsPower() ==> CancelAsked in w.log)
  }

  lemma AskedIsRecorded(w: World, bindingID: string, reason: string)
    ensures AskedWithoutLock(bindingID, reason, w.job).Some?
    ensures ObservedBindingID(w.job) == bindingID && (!w.job.state.IsTerminal() || w.job.Unresolved()) ==>
      RequestRecorded(AfterWrite(w, AskedWithoutLock(bindingID, reason, w.job).value), bindingID)
  {
  }

  lemma PowerIsUnresolved(w: World)
    requires Invariant(w)
    ensures w.job.state.IsPower() ==> w.job.Unresolved()
    ensures w.job.state.IsPower() ==> w.records.envelope.Some?
    ensures w.records.envelope.None? ==> w.records.resolution.None?
  {
  }

  lemma HolderKeepsJob(me: Pid, w: World, w': World)
    requires JobKept(me, w, w')
    ensures w.Holds(me) <==> w'.Holds(me)
    ensures w.Holds(me) && !w.job.state.IsPower() ==> !w'.job.state.IsPower()
    ensures w'.job.terms == w.job.terms && w.log <= w'.log
    ensures w.records.resolution.Some? ==> w'.records.resolution == w.records.resolution
    ensures w.job.state.IsTerminal() ==> w'.job.state.IsTerminal()
    ensures w.records.envelope.Some? ==> w'.records.envelope == w.records.envelope
  {
  }

  class CancelActor {
    const machine: PowerMachine
    const me: Pid

    constructor (machine: PowerMachine, me: Pid)
      ensures this.machine == machine && this.me == me
    {
      this.machine, this.me := machine, me;
    }

    /**
     What every cancel path does with a readable authority: an existing resolution is the answer, an
     attempt without a call-start record is resolved as no_action without touching the backend, and
     anything else needs a confirmed Backend.Cancel first.
     */
    method ResolveAuthority(authority: Authority, reason: string) returns (life: Life, outcome: Option<Outcome>)
      requires Invariant(machine.View()) && machine.lock == Some(me)
      requires authority.resolution.Some? ==> machine.records.resolution == authority.resolution
      requires machine.records.call == authority.call
      modifies machine
      ensures Invariant(machine.View())
      ensures life.Crashed? ==> Gone(me, old(machine.View()), machine.View())
      ensures life.Alive? ==> JobKept(me, old(machine.View()), machine.View())
      ensures life.Alive? && outcome.Some? ==> ResolvedAs(machine.View(), outcome.value)
      ensures life.Alive? && outcome.Some? && authority.resolution.None? && authority.call.Some? ==>
        CancelledWith(machine.log, |old(machine.log)|, authority.CancellationReceipt())
    {
      hide Invariant;
      hide JobKept;
      life, outcome := Alive, None;
      ghost var start := machine.View();
      var now: nat := *;
      var resolution;
      if authority.resolution.Some? {
        JobKeptReflexive(me, start);
        outcome := Some(authority.resolution.value.body.outcome);
        ResolutionIsTrue(start);
        return;
      }
      if authority.call.None? {
        life, resolution := machine.PersistRecoveryResolution(me, OutcomeNoAction, reason, None, now);
      } else {
        var result, confirmed;
        life, result, confirmed := machine.BackendCancel(me, authority.CancellationReceipt());
        if life.Crashed? { return; }
        ghost var cancelled := machine.View();
        HolderKeepsJob(me, start, cancelled);
        if !confirmed { return; }
        life, resolution := machine.PersistRecoveryResolution(me, OutcomeCancelled, reason, Some(result), now);
        if life.Alive? {
          HolderKeepsJob(me, cancelled, machine.View());
          HandleStays(cancelled.log, machine.log, |start.log|, authority.CancellationReceipt());
          JobKeptTransitive(me, start, cancelled, machine.View());
        }
      }
      if life.Crashed? || resolution.None? { return; }
      outcome := Some(resolution.value.body.outcome);
      ResolutionIsTrue(machine.View());
    }

    /** settlePluginPowerLocked. */
    method SettlePluginPowerLocked(job: Job, reason: string) returns (life: Life, outcome: Option<Outcome>)
      requires Invariant(machine.View()) && machine.lock == Some(me)
      modifies machine
      ensures Invariant(machine.View())
      ensures life.Crashed? ==> Gone(me, old(machine.View()), machine.View())
      ensures life.Alive? ==> JobKept(me, old(machine.View()), machine.View())
      ensures life.Alive? && outcome.Some? ==> ResolvedAs(machine.View(), outcome.value) || !machine.job.state.IsPower()
    {
      hide Invariant;
      hide JobKept;
      hide Rely;
      hide ResolvedAs;
      outcome := None;
      ghost var start := machine.View();
      var loaded;
      life, loaded := machine.LoadRecoveryAuthority(me);
      if life.Crashed? { return; }
      ghost var read := machine.View();
      RelyKeepsJob(me, start, read);
      HolderKeepsJob(me, start, read);
      PowerIsUnresolved(read);
      if loaded.Loaded? {
        var body := loaded.authority.envelope.body;
        if body.bindingID != ObservedBindingID(job) || body.action != job.terms.action
           || body.policy != job.terms.policy {
          return;
        }
        life, outcome := ResolveAuthority(loaded.authority, reason);
        if life.Alive? {
          JobKeptTransitive(me, start, read, machine.View());
        }
        return;
      }
      var receipt := RecoveryReceipt(job);
      if receipt.None? { return; }
      var result, confirmed;
      life, result, confirmed := machine.BackendCancel(me, receipt.value);
      if life.Crashed? { return; }
      JobKeptTransitive(me, start, read, machine.View());
      if loaded.NotExist? && confirmed {
        outcome := Some(OutcomeCancelled);
        NoEnvelopeNoPower(me, read, machine.View());
      }
    }

    /** persistPluginPowerSettlement. */
    method PersistPluginPowerSettlement(outcome: Outcome, reason: string) returns (life: Life, ok: bool)
      requires Invariant(machine.View()) && machine.lock == Some(me)
      requires machine.job.state.IsPower() ==> machine.records.resolution.Some?
      modifies machine
      ensures Invariant(machine.View())
      ensures life.Crashed? ==> Gone(me, old(machine.View()), machine.View())
      ensures life.Alive? ==> machine.lock == Some(me) && machine.job.terms == old(machine.job.terms)
      ensures life.Alive? && ok ==> machine.job.state.IsTerminal()
    {
      hide Invariant;
      hide JobKept;
      hide WriteAllowed;
      hide Rely;
      hide SettledAs;
      ok := false;
      ghost var start := machine.View();
      life := machine.Interfere(me);
      if life.Crashed? { return; }
      ghost var before := machine.View();
      RelyKeepsJob(me, start, before);
      HolderKeepsJob(me, start, before);
      StillResolved(me, start, before);
      SettledAsAllowed(me, before, outcome, reason);
      var err, updated := machine.UpdateJob(me, current => SettledAs(outcome, reason, current));
      ok := err == NoError;
    }

    /** persistPreIntentRevocationFence: keeps the machine lock until the job is inert, or gives up on its expiry. */
    method PersistPreIntentRevocationFence(initial: Job, bindingID: string, reason: string, tries: nat)
      returns (life: Life, ok: bool)
      requires Invariant(machine.View()) && machine.lock == Some(me)
      modifies machine
      ensures Invariant(machine.View())
      ensures life.Crashed? ==> machine.lock != Some(me)
      ensures life.Alive? ==> machine.lock == Some(me) && machine.job.terms == old(machine.job.terms)
      ensures life.Alive? && ok ==> machine.job.state.IsTerminal()
    {
      hide Invariant;
      hide JobKept;
      hide WriteAllowed;
      hide Rely;
      hide Fenced;
      life, ok := Alive, false;
      var expiresAt := initial.terms.expiresAt;
      var left := tries;
      while left > 0
        invariant Invariant(machine.View()) && machine.lock == Some(me) && machine.job.terms == old(machine.job.terms)
        invariant life.Alive? && !ok
      {
        left := left - 1;
        ghost var start := machine.View();
        life := machine.Interfere(me);
        if life.Crashed? { return; }
        ghost var before := machine.View();
        RelyKeepsJob(me, start, before);
        HolderKeepsJob(me, start, before);
        FencedAllowed(me, before, bindingID, reason);
        var err, updated := machine.UpdateJob(me, current => Fenced(bindingID, reason, current));
        if err == NoError && updated.state.IsTerminal() && !updated.Unresolved() { return life, true; }
        ghost var tried := machine.View();
        life := machine.Interfere(me);
        if life.Crashed? { return; }
        RelyKeepsJob(me, tried, machine.View());
        HolderKeepsJob(me, tried, machine.View());
        var current := machine.Load();
        if current.Some? {
          if ObservedBindingID(current.value) != bindingID { return; }
          expiresAt := current.value.terms.expiresAt;
          if current.value.state.IsTerminal() && !current.value.Unresolved() { return life, true; }
        }
        var now: nat, interrupted: bool := *, *;
        if (expiresAt != ZERO_TIME && expiresAt <= now) || interrupted { return; }
      }
      machine.ReleaseLock(me);
      life := Crashed;
    }

    /**
     The worker's wait for the machine lock. `asked` is the world right after the request to cancel was written,
     which is before the first wait; it is missing if the lock was free, if the job was unreadable, already closed
     or of another binding, or if the store failed.
     */
    method LockForWorker(bindingID: string, reason: string, tries: nat)
      returns (life: Life, locked: bool, ghost asked: Option<World>)
      requires Invariant(machine.View()) && machine.lock != Some(me)
      modifies machine
      ensures Invariant(machine.View())
      ensures life.Crashed? ==> machine.lock != Some(me)
      ensures locked <==> machine.lock == Some(me)
      ensures life.Alive? && asked.Some? ==> RequestRecorded(asked.value, bindingID) && asked.value.log <= machine.log
    {
      hide Invariant;
      hide RequestRecorded;
      hide RecordsRely;
      hide JobRely;
      asked := None;
      locked := machine.AcquireLock(me);
      if locked { return Alive, true, None; }
      life, asked := AskBeforeWaiting(bindingID, reason);
      if life.Crashed? { return; }
      var left := tries;
      while left > 0 && !locked
        invariant Invariant(machine.View()) && life.Alive?
        invariant locked <==> machine.lock == Some(me)
        invariant asked.Some? ==> RequestRecorded(asked.value, bindingID) && asked.value.log <= machine.log
      {
        left := left - 1;
        life := machine.Interfere(me);
        if life.Crashed? { return; }
        locked := machine.AcquireLock(me);
      }
    }

    /** cancel_worker.lock_unavailable. */
    method AskBeforeWaiting(bindingID: string, reason: string) returns (life: Life, ghost asked: Option<World>)
      requires Invariant(machine.View()) && machine.lock != Some(me)
      modifies machine
      ensures Invariant(machine.View()) && machine.lock != Some(me)
      ensures life.Alive? && asked.Some? ==> RequestRecorded(asked.value, bindingID) && asked.value == machine.View()
    {
      hide Invariant;
      hide WriteAllowed;
      hide AskedWithoutLock;
      hide RequestRecorded;
      hide RecordsRely;
      hide HistoryRely;
      hide JobRely;
      asked := None;
      life := machine.Interfere(me);
      if life.Crashed? { return; }
      var job := machine.Load();
      if job.Some? && ObservedBindingID(job.value) == bindingID
         && (!job.value.state.IsTerminal() || job.value.Unresolved()) {
        life := machine.Interfere(me);
        if life.Crashed? { return; }
        ghost var before := machine.View();
        AskedWithoutLockAllowed(me, before, bindingID, reason);
        var err, updated := machine.UpdateJob(me, current => AskedWithoutLock(bindingID, reason, current));
        if err == NoError && ObservedBindingID(before.job) == bindingID
           && (!before.job.state.IsTerminal() || before.job.Unresolved()) {
          AskedIsRecorded(before, bindingID, reason);
          asked := Some(machine.View());
        }
      }
    }

    /**
     cancelWorkerCommand. It never enters Backend.Schedule, it never leaves while holding the lock, and an
     exit code of zero means there is nothing left to cancel.
     */
    method CancelWorker(bindingID: string, reason: string, tries: nat) returns (life: Life, exit: Exit)
      requires Invariant(machine.View()) && machine.lock != Some(me)
      modifies machine
      ensures Invariant(machine.View()) && machine.lock != Some(me)
      ensures life.Alive? && exit.Done? ==> Inert(machine.View()) && NamesBinding(machine.View(), bindingID)
    {
      hide Invariant;
      hide Inert;
      hide NamesBinding;
      exit := NotSettled;
      life := Alive;
      if !ValidJobID(bindingID) || Blank(reason) || |reason| > 256 { return; }
      var locked;
      ghost var asked;
      life, locked, asked := LockForWorker(bindingID, reason, tries);
      if life.Crashed? || !locked { return; }
      life, exit := WorkLocked(bindingID, reason, tries);
      if life.Alive? {
        InertWithoutLock(machine.View(), bindingID);
        machine.ReleaseLock(me);
      }
    }

    method WorkLocked(bindingID: string, reason: string, tries: nat) returns (life: Life, exit: Exit)
      requires Invariant(machine.View()) && machine.lock == Some(me)
      modifies machine
      ensures Invariant(machine.View())
      ensures life.Crashed? ==> machine.lock != Some(me)
      ensures life.Alive? ==>
        machine.lock == Some(me) && (exit.Done? ==> Inert(machine.View()) && NamesBinding(machine.View(), bindingID))
    {
      hide Invariant;
      hide JobKept;
      hide RecordsRely;
      hide HistoryRely;
      hide JobRely;
      hide Inert;
      hide NamesBinding;
      hide Job.Unresolved;
      exit := NotSettled;
      life := machine.Interfere(me);
      if life.Crashed? { return; }
      var loaded := machine.Load();
      if loaded.None? {
        life, exit := RecoverWithoutJob(Some(bindingID), reason);
        if life.Alive? && exit.Done? { InertByRecords(machine.View(), bindingID); }
        return;
      }
      var job := loaded.value;
      if ObservedBindingID(job) != bindingID { return; }
      if job.state.IsTerminal() && !job.Unresolved() {
        InertByJob(machine.View(), bindingID);
        return Alive, Done;
      }
      if !job.Unresolved() {
        var ok;
        life, ok := PersistPreIntentRevocationFence(job, bindingID, reason, tries);
        exit := if ok then Done else NotSettled;
        if life.Alive? && ok { InertByJob(machine.View(), bindingID); }
        return;
      }
      ghost var recorded;
      life, exit, recorded := SettleAndPersist(job, reason, true);
      if life.Alive? && exit.Done? { InertByJob(machine.View(), bindingID); }
    }

    /** The branch of the cancel worker, and of cancelPluginRecoveryAuthority, that has no readable job. */
    method RecoverWithoutJob(bindingID: Option<string>, reason: string) returns (life: Life, exit: Exit)
      requires Invariant(machine.View()) && machine.lock == Some(me)
      modifies machine
      ensures Invariant(machine.View())
      ensures life.Crashed? ==> machine.lock != Some(me)
      ensures life.Alive? ==> machine.lock == Some(me)
      ensures life.Alive? && exit.Done? ==> machine.records.resolution.Some?
      ensures life.Alive? && exit.Done? && bindingID.Some? ==>
        machine.records.envelope.Some? && machine.records.envelope.value.body.bindingID == bindingID.value
    {
      hide Invariant;
      hide JobKept;
      hide ResolvedAs;
      exit := NotSettled;
      ghost var start := machine.View();
      var authority;
      life, authority := machine.LoadRecoveryAuthority(me);
      if life.Crashed? { return; }
      if !authority.Loaded? { return; }
      if bindingID.Some? && authority.authority.envelope.body.bindingID != bindingID.value { return; }
      ghost var read := machine.View();
      var outcome;
      life, outcome := ResolveAuthority(authority.authority, reason);
      if life.Crashed? { return; }
      HolderKeepsJob(me, read, machine.View());
      if outcome.Some? {
        ResolvedMeansOnDisk(machine.View(), outcome.value);
        exit := Done;
      }
    }

    /** Settle the power attempt, then the job; `recorded` says that a failure to settle was written down. */
    method SettleAndPersist(job: Job, reason: string, recordFailure: bool)
      returns (life: Life, exit: Exit, ghost recorded: bool)
      requires Invariant(machine.View()) && machine.lock == Some(me)
      modifies machine
      ensures Invariant(machine.View())
      ensures life.Crashed? ==> machine.lock != Some(me)
      ensures life.Alive? ==> machine.lock == Some(me) && (exit.Done? ==> machine.job.state.IsTerminal())
      ensures life.Alive? ==> machine.job.terms == old(machine.job.terms)
      ensures life.Alive? && recorded ==>
        recordFailure && exit.NotSettled? && (machine.job.Unresolved() ==> machine.job.cancelRequested)
    {
      hide Invariant;
      hide JobKept;
      hide WriteAllowed;
      hide Unconfirmed;
      recorded := false;
      hide RecordsRely;
      hide HistoryRely;
      hide JobRely;
      exit := NotSettled;
      ghost var start := machine.View();
      var outcome;
      life, outcome := SettlePluginPowerLocked(job, reason);
      if life.Crashed? { return; }
      HolderKeepsJob(me, start, machine.View());
      if outcome.None? {
        if recordFailure {
          life := machine.Interfere(me);
          if life.Crashed? { return; }
          UnconfirmedAllowed(me, machine.View(), reason);
          UnconfirmedKeepsRequest(machine.job, reason);
          var err, updated := machine.UpdateJob(me, current => Unconfirmed(reason, current));
          recorded := err == NoError;
        }
        return;
      }
      var ok;
      life, ok := PersistPluginPowerSettlement(outcome.value, reason);
      exit := if ok then Done else NotSettled;
    }

    /** The unresolved branch of cancelPluginJob: the request is recorded before the lock is tried. */
    method CancelPluginJob() returns (life: Life, exit: Exit)
      requires Invariant(machine.View()) && machine.lock != Some(me)
      modifies machine
      ensures Invariant(machine.View()) && machine.lock != Some(me)
      ensures life.Alive? && exit.Done? ==> machine.job.state.IsTerminal()
    {
      hide Invariant;
      hide WriteAllowed;
      hide AskedByUser;
      hide RecordsRely;
      hide HistoryRely;
      hide JobRely;
      exit := NotSettled;
      life := machine.Interfere(me);
      if life.Crashed? { return; }
      AskedByUserAllowed(me, machine.View());
      var err, job := machine.UpdateJob(me, current => AskedByUser(current));
      if err != NoError { return; }
      life := machine.Interfere(me);
      if life.Crashed? { return; }
      var locked := machine.AcquireLock(me);
      if !locked { return; }
      ghost var recorded;
      life, exit, recorded := SettleAndPersist(job, "cli_cancelled_by_user", false);
      if life.Alive? { machine.ReleaseLock(me); }
    }

    /** cancelPluginRecoveryAuthority: settle from the records alone. */
    method CancelPluginRecoveryAuthority() returns (life: Life, exit: Exit)
      requires Invariant(machine.View()) && machine.lock != Some(me)
      modifies machine
      ensures Invariant(machine.View()) && machine.lock != Some(me)
      ensures life.Alive? && exit.Done? ==> machine.records.resolution.Some?
    {
      hide Invariant;
      exit, life := NotSettled, Alive;
      var locked := machine.AcquireLock(me);
      if !locked { return; }
      life, exit := RecoverWithoutJob(None, "cli_recovered_before_schedule_call");
      if life.Alive? { machine.ReleaseLock(me); }
    }
  }

  /** The settlement reported is the one on disk; `no_action` means the schedule call was never entered. */
  predicate ResolvedAs(w: World, outcome: Outcome) {
    && w.records.resolution.Some? && w.records.resolution.value.body.outcome == outcome
    && (outcome == OutcomeNoAction ==> w.records.call.None? && ScheduleCalled !in w.log)
    && (outcome == OutcomeCancelled ==> HasSomeConfirmedCancel(w.log))
  }

  lemma ResolvedMeansOnDisk(w: World, outcome: Outcome)
    requires ResolvedAs(w, outcome)
    ensures w.records.resolution.Some?
  {
  }

  lemma ResolutionIsTrue(w: World)
    requires Invariant(w) && w.records.resolution.Some?
    ensures ResolvedAs(w, w.records.resolution.value.body.outcome)
  {
    ResolutionNamesTheCallBoundary(w.records);
    var outcome := w.records.resolution.value.body.outcome;
    var r :| 0 <= r < |w.log| && w.log[r] == Resolved(outcome);
    assert AllowedAt(w.log, r);
    if outcome == OutcomeCancelled {
      var c :| 0 <= c < r && w.log[..r][c].CancelReturned? && w.log[..r][c].confirmed;
      assert w.log[c] == w.log[..r][c];
    }
  }

  lemma JobKeptReflexive(me: Pid, w: World)
    ensures JobKept(me, w, w)
  {
  }

  lemma InertByJob(w: World, bindingID: string)
    requires w.job.state.IsTerminal() && ObservedBindingID(w.job) == bindingID
    ensures Inert(w) && NamesBinding(w, bindingID)
  {
  }

  lemma InertByRecords(w: World, bindingID: string)
    requires w.records.resolution.Some?
    requires w.records.envelope.Some? && w.records.envelope.value.body.bindingID == bindingID
    ensures Inert(w) && NamesBinding(w, bindingID)
  {
  }

  lemma InertWithoutLock(w: World, bindingID: string)
    ensures Inert(w.(lock := None, token := None)) <==> Inert(w)
    ensures NamesBinding(w.(lock := None, token := None), bindingID) <==> NamesBinding(w, bindingID)
  {
  }

  /** While the lock is held by a process that is not starting an attempt, a missing envelope stays missing. */
  lemma NoEnvelopeNoPower(me: Pid, w: World, w': World)
    requires Invariant(w) && Invariant(w') && w.Holds(me) && w.records.envelope.None?
    requires JobKept(me, w, w')
    ensures !w'.job.state.IsPower()
  {
  }
}
