/**
 The multi-session Stop barrier as a whole: what the hook steps keep, what the generation counter is worth,
 and what a barrier amounts to in terms of each target's own history
 (internal/hookobserver/observer.go, internal/pluginstate/job.go).
 */
module Barrier {
  import opened Wrappers
  import opened Actions
  import opened PluginJob
  import opened HookSteps
  import opened PowerWorld

  /** One hook event at one target; the whole event but for the target it is for. */
  datatype Seen = Seen(event: HookEvent, input: HookInput, now: nat)

  datatype Move = Move(target: nat, seen: Seen)

  /** A hook event at a target of the barrier; an index the job does not have is an unknown session. */
  function StepOf(job: Job, move: Move): Job {
    var k := if move.target < |job.stopTargets| then Some(move.target) else None;
    HookStep(job, move.seen.event, k, move.seen.input, move.seen.now)
  }

  function RunHooks(job: Job, moves: seq<Move>): Job {
    if moves == [] then job else StepOf(RunHooks(job, moves[..|moves| - 1]), moves[|moves| - 1])
  }

  predicate ClockRuns(moves: seq<Move>) {
    forall i :: 0 <= i < |moves| ==> moves[i].seen.now != ZERO_TIME
  }

  // ---------------------------------------------------------------- validity

  /** Every job the store holds: accepted by Validate, and a barrier with an action pending has seen all its targets. */
  predicate Kept(job: Job) {
    Valid(job) && (job.terms.policy == AfterAllStop && job.Unresolved() ==> AllObserved(job))
  }

  lemma PinnedTargetValid(target: Target, cwd: Path, now: nat)
    requires ValidTarget(target) && Pinned(target, cwd, now).Some? && now != ZERO_TIME
    ensures var pinned := Pinned(target, cwd, now).value;
      && pinned.workspace.Absolute? && pinned.firstSeenAt.Some? && pinned.firstSeenAt != Some(ZERO_TIME)
      && pinned.sessionHash == target.sessionHash
      && (target.currentTurn != NoHash ==> pinned == target)
  {
  }

  lemma AdvancedTargetValid(target: Target, input: HookInput, now: nat)
    requires ValidTarget(target) && Pinned(target, input.cwd, now).Some? && now != ZERO_TIME
    ensures var pinned := Pinned(target, input.cwd, now).value;
      && Replaces(PromptTarget(pinned, input.Turn()), target)
      && Replaces(ContinueTarget(pinned, input.Turn()), target)
      && (StopAccepted(pinned, input.Turn()) ==> Replaces(StoppedTarget(pinned, input.Turn(), now), target))
      && (target.currentTurn != NoHash || !StopAccepted(pinned, input.Turn()) ==> pinned == target)
  {
    PinnedTargetValid(target, input.cwd, now);
  }

  predicate Replaces(target: Target, was: Target) {
    ValidTarget(target) && target.sessionHash == was.sessionHash && target.currentTurn != NoHash
  }

  /** Validate without the part that ties the state to the targets. */
  predicate Sound(job: Job) {
    && ValidTerms(job.terms) && job.updatedAt != ZERO_TIME && job.generation != 0 && job.hookCompatibility != ""
    && (!job.terms.dryRun ==> job.workspace.Absolute?)
    && ValidBinding(job) && ValidPowerFields(job) && ValidEventKeys(job)
  }

  lemma SoundWithTarget(job: Job, k: nat, target: Target)
    requires Sound(job) && job.terms.policy == AfterAllStop && k < |job.stopTargets|
    requires Replaces(target, job.stopTargets[k])
    ensures Sound(WithTarget(job, k, target))
    ensures WithTarget(job, k, target).state == job.state
    ensures WithTarget(job, k, target).Unresolved() == job.Unresolved()
    ensures WithTarget(job, k, target).terms == job.terms
  {
  }

  lemma NotBlank(reason: string)
    requires reason != "" && !IsSpace(reason[0])
    ensures !Blank(reason)
  {
  }

  lemma RequestedKeeps(job: Job, reason: string)
    requires Sound(job) && job.terms.policy == AfterAllStop && job.Unresolved() && reason != "" && !IsSpace(reason[0])
    ensures Valid(Requested(job, reason))
  {
    NotBlank(reason);
  }

  lemma EndedKeeps(job: Job, state: State, reason: string)
    requires Sound(job) && job.terms.policy == AfterAllStop && (state == Expired || state == HookUnavailable)
    ensures Valid(Ended(job, state, reason))
  {
  }

  lemma RearmedKeeps(job: Job)
    requires Sound(job) && job.terms.policy == AfterAllStop && job.state.IsActive() && !job.Unresolved()
    ensures Valid(RearmedFor(job, RESUMED))
  {
  }

  lemma CountedSound(job: Job)
    requires Sound(job)
    ensures Sound(job.(generation := job.generation + 1))
  {
  }

  lemma UnresolvedSound(job: Job)
    requires Sound(job) && job.terms.policy == AfterAllStop && job.Unresolved()
    ensures Valid(job)
  {
  }

  lemma ResumedKeeps(job: Job, changed: bool)
    requires Sound(job) && job.terms.policy == AfterAllStop && !Settled(job)
    ensures Valid(ResumedBy(job, changed))
  {
    hide Sound;
    hide Valid;
    hide RearmedFor;
    hide Requested;
    if job.Unresolved() {
      if changed || !job.cancelRequested { RequestedKeeps(job, RESUMED); } else { UnresolvedSound(job); }
    } else if changed {
      CountedSound(job);
      RearmedKeeps(job.(generation := job.generation + 1));
    } else {
      RearmedKeeps(job);
    }
  }

  lemma StateKeeps(job: Job, state: State, reason: string)
    requires Sound(job) && job.terms.policy == AfterAllStop && job.state.IsActive() && !job.Unresolved()
    requires
      || ((state == StopObserved || state == DryRunComplete) && job.state != ArmPendingBind && job.BarrierSatisfied())
      || (state == Armed && job.state != ArmPendingBind)
      || (state == ArmPendingBind && job.state == ArmPendingBind)
    ensures Valid(Ended(job, state, reason))
  {
  }

  lemma MovedKeeps(job: Job)
    requires Sound(job) && job.terms.policy == AfterAllStop && job.state.IsActive() && !job.Unresolved()
    ensures Valid(BarrierMoved(job))
  {
    PendingIsUnbound(job);
    hide Sound;
    hide Valid;
    hide Ended;
    var next := BarrierMoved(job);
    if job.indexesReady && job.armObserved && job.BarrierSatisfied() {
      if job.terms.dryRun { StateKeeps(job, DryRunComplete, "after_all_stop_observed_no_action"); }
      else { StateKeeps(job, StopObserved, "after_all_stop_observed_awaiting_countdown"); }
    } else if job.state != ArmPendingBind {
      StateKeeps(job, Armed, "after_all_stop_barrier_partial");
    } else {
      StateKeeps(job, ArmPendingBind, "awaiting_post_tool_hook");
    }
  }

  lemma PendingIsUnbound(job: Job)
    requires Sound(job) && job.terms.policy == AfterAllStop
    ensures job.state == ArmPendingBind ==> !job.armObserved
  {
  }

  lemma BarrierPromptKeeps(job: Job, k: nat, input: HookInput, now: nat)
    requires Kept(job) && job.terms.policy == AfterAllStop && k < |job.stopTargets| && now != ZERO_TIME
    ensures Valid(BarrierPrompt(job, k, input, now))
  {
    hide Valid;
    hide Sound;
    hide Kept;
    hide ResumedBy;
    hide FailedOrCancelled;
    hide Pinned;
    hide PromptTarget;
    hide PromptChanges;
    hide Ended;
    hide Replaces;
    hide WithTarget;
    ValidIsSound(job);
    var pinned := Pinned(job.stopTargets[k], input.cwd, now);
    if Settled(job) {
    } else if job.ExpiredAt(now) && !job.Unresolved() {
      EndedKeeps(job, Expired, "arm_expired");
    } else if pinned.None? {
      FailedOrCancelledKeeps(job);
    } else {
      AdvancedTargetValid(job.stopTargets[k], input, now);
      var target := PromptTarget(pinned.value, input.Turn());
      SoundWithTarget(job, k, target);
      ResumedKeeps(WithTarget(job, k, target), PromptChanges(pinned.value, input.Turn()));
    }
  }

  lemma FailedOrCancelledKeeps(job: Job)
    requires Sound(job) && job.terms.policy == AfterAllStop
    ensures Valid(FailedOrCancelled(job, "target_workspace_changed"))
  {
    if job.Unresolved() { RequestedKeeps(job, "target_workspace_changed"); }
    else { EndedKeeps(job, HookUnavailable, "target_workspace_changed"); }
  }

  lemma ValidIsSound(job: Job)
    requires Kept(job)
    ensures Valid(job) && Sound(job)
    ensures job.terms.policy == AfterAllStop ==>
      forall i :: 0 <= i < |job.stopTargets| ==> ValidTarget(job.stopTargets[i])
    ensures job.terms.policy == AfterAllStop && job.Unresolved() ==> AllObserved(job)
  {
  }

  lemma BarrierStopKeeps(job: Job, k: nat, input: HookInput, now: nat)
    requires Kept(job) && job.terms.policy == AfterAllStop && k < |job.stopTargets| && now != ZERO_TIME
    ensures Valid(BarrierStop(job, k, input, now))
  {
    hide Valid;
    hide Sound;
    hide Kept;
    hide ResumedBy;
    hide FailedOrCancelled;
    hide Pinned;
    hide ContinueTarget;
    hide ContinueChanges;
    hide PlainStop;
    hide Ended;
    hide Replaces;
    hide WithTarget;
    ValidIsSound(job);
    var target := job.stopTargets[k];
    var pinned := Pinned(target, input.cwd, now);
    if Settled(job) {
    } else if job.ExpiredAt(now) && !job.Unresolved() {
      EndedKeeps(job, Expired, "arm_expired");
    } else if pinned.None? {
      FailedOrCancelledKeeps(job);
    } else {
      AdvancedTargetValid(target, input, now);
      if input.stopHookActive {
        var next := ContinueTarget(pinned.value, input.Turn());
        SoundWithTarget(job, k, next);
        ResumedKeeps(WithTarget(job, k, next), ContinueChanges(pinned.value, input.Turn()));
      } else if job.Unresolved() {
        SameTargetSameJob(job, k);
      } else {
        PlainStopKeeps(job, k, pinned.value, input, now);
      }
    }
  }

  lemma SameTargetSameJob(job: Job, k: nat)
    requires k < |job.stopTargets|
    ensures WithTarget(job, k, job.stopTargets[k]) == job
  {
    assert job.stopTargets[k := job.stopTargets[k]] == job.stopTargets;
  }

  lemma PlainStopKeeps(job: Job, k: nat, pinned: Target, input: HookInput, now: nat)
    requires Valid(job) && Sound(job) && job.terms.policy == AfterAllStop && !Settled(job) && !job.Unresolved()
    requires k < |job.stopTargets| && ValidTarget(job.stopTargets[k]) && now != ZERO_TIME
    requires Pinned(job.stopTargets[k], input.cwd, now) == Some(pinned)
    ensures Valid(PlainStop(job, k, pinned, input.Turn(), now))
  {
    hide Valid;
    hide Sound;
    hide Pinned;
    hide BarrierMoved;
    hide StoppedTarget;
    hide WithTarget;
    hide Replaces;
    AdvancedTargetValid(job.stopTargets[k], input, now);
    if StopAccepted(pinned, input.Turn()) {
      var next := StoppedTarget(pinned, input.Turn(), now);
      SoundWithTarget(job, k, next);
      MovedKeeps(WithTarget(job, k, next));
    } else {
      SameTargetSameJob(job, k);
      UnacceptedIsSeen(pinned, input.Turn());
    }
  }

  lemma UnacceptedIsSeen(target: Target, turn: Hash)
    requires ValidTarget(target) && !StopAccepted(target, turn) && turn != NoHash
    ensures target.currentTurn != NoHash
    ensures target.currentTurn == turn ==> target.(currentTurn := turn) == target
  {
  }

  lemma BarrierSessionEndKeeps(job: Job, k: nat)
    requires Kept(job) && job.terms.policy == AfterAllStop && k < |job.stopTargets|
    ensures Valid(BarrierSessionEnd(job, k))
  {
    ValidIsSound(job);
    if !Settled(job) && !job.stopTargets[k].Stopped() {
      if job.Unresolved() { RequestedKeeps(job, "target_session_ended_before_stop"); }
      else { EndedKeeps(job, Expired, "target_session_ended_before_stop"); }
    }
  }

  // ---------------------------------------------------------------- what a hook step may do

  /**
   A hook step takes authority away or leaves the job alone: it never lowers the generation, and under an
   unchanged generation the targets and the request flag are what they were, and so is a state that grants.
   */
  predicate Reduces(job: Job, next: Job) {
    && next.terms == job.terms && SamePowerFields(job, next)
    && SameTargetSessions(job, next) && next.reservationsCommitted == job.reservationsCommitted
    && next.eventKeys == job.eventKeys
    && (AllObserved(job) ==> AllObserved(next))
    && job.generation <= next.generation
    && (job.Unresolved() ==>
          && next.state == job.state
          && next.cancelRequested == (job.cancelRequested || job.generation < next.generation))
    && (!job.Unresolved() ==> next == job || (!next.state.IsPower() && next.state != Orphaned))
    && (job.state.IsTerminal() ==> next.state.IsTerminal())
    && (next.generation == job.generation ==>
          && next.stopTargets == job.stopTargets
          && next.cancelRequested == job.cancelRequested
          && (job.state == StopObserved ==> next.state == StopObserved))
  }

  predicate SameTargetSessions(job: Job, next: Job) {
    && |next.stopTargets| == |job.stopTargets|
    && forall i :: 0 <= i < |job.stopTargets| ==> next.stopTargets[i].sessionHash == job.stopTargets[i].sessionHash
  }

  lemma ReducesIsReducingWrite(job: Job, next: Job)
    requires Reduces(job, next) && (job.state.IsPower() ==> !job.terms.dryRun)
    ensures ReducingWrite(job, next)
  {
  }

  lemma EndedReduces(job: Job, state: State, reason: string)
    requires !Settled(job) && !job.Unresolved() && state.IsTerminal() && state != Orphaned
    ensures Reduces(job, Ended(job, state, reason))
  {
  }

  /** The same target, observed. */
  predicate SeenAs(target: Target, was: Target) {
    target.currentTurn != NoHash && target.sessionHash == was.sessionHash
  }

  lemma CountedReduces(job: Job, k: nat, target: Target, state: State, reason: string)
    requires k < |job.stopTargets| && SeenAs(target, job.stopTargets[k])
    requires job.state.IsActive() && !job.Unresolved() && !state.IsPower() && state != Orphaned
    ensures Reduces(job, Ended(WithTarget(job, k, target), state, reason))
  {
  }

  lemma RequestedForTargetReduces(job: Job, k: nat, target: Target, reason: string)
    requires k < |job.stopTargets| && SeenAs(target, job.stopTargets[k]) && job.Unresolved()
    ensures Reduces(job, Requested(WithTarget(job, k, target), reason))
  {
  }

  lemma RequestedReduces(job: Job, reason: string)
    requires job.Unresolved()
    ensures Reduces(job, Requested(job, reason))
  {
  }

  lemma FailedReduces(job: Job, reason: string)
    requires !Settled(job)
    ensures Reduces(job, FailedOrCancelled(job, reason))
  {
    if job.Unresolved() { RequestedReduces(job, reason); } else { EndedReduces(job, HookUnavailable, reason); }
  }

  /** A target that runs again: either something changed, and is counted, or nothing did. */
  lemma ResumedReduces(job: Job, k: nat, target: Target, changed: bool)
    requires k < |job.stopTargets| && !Settled(job) && SeenAs(target, job.stopTargets[k])
    requires !changed ==> target == job.stopTargets[k] && job.state != StopObserved
    ensures Reduces(job, TargetResumed(job, k, target, changed))
  {
    hide Reduces;
    var next := WithTarget(job, k, target);
    if job.Unresolved() {
      RequestedForTargetReduces(job, k, target, RESUMED);
      if !changed { SameTargetSameJob(job, k); NothingReduces(job); }
    } else if changed {
      var state := if job.state == ArmPendingBind then ArmPendingBind else Armed;
      CountedReduces(job, k, target, state, RESUMED);
      assert TargetResumed(job, k, target, changed) == Ended(next, state, RESUMED);
    } else {
      SameTargetSameJob(job, k);
      RearmedReduces(job);
    }
  }

  lemma RearmedReduces(job: Job)
    requires job.state.IsActive() && job.state != StopObserved && !job.Unresolved()
    ensures Reduces(job, RearmedFor(job, RESUMED))
  {
  }

  lemma MovedReduces(job: Job, k: nat, target: Target)
    requires k < |job.stopTargets| && !Settled(job) && !job.Unresolved() && SeenAs(target, job.stopTargets[k])
    ensures Reduces(job, BarrierMoved(WithTarget(job, k, target)))
  {
    hide Reduces;
    hide Ended;
    CountedReduces(job, k, target, DryRunComplete, "after_all_stop_observed_no_action");
    CountedReduces(job, k, target, StopObserved, "after_all_stop_observed_awaiting_countdown");
    CountedReduces(job, k, target, Armed, "after_all_stop_barrier_partial");
    CountedReduces(job, k, target, ArmPendingBind, "awaiting_post_tool_hook");
  }

  /** In a valid barrier a target that is not stopped means the barrier is not counting as observed. */
  lemma UnstoppedMeansUnobserved(job: Job, k: nat)
    requires Valid(job) && job.terms.policy == AfterAllStop && k < |job.stopTargets| && !job.stopTargets[k].Stopped()
    ensures job.state != StopObserved
  {
  }

  /** Which prompts and continuations are not counted: only those that find the target exactly as they leave it. */
  lemma UncountedChangesNothing(target: Target, cwd: Path, turn: Hash, now: nat)
    requires ValidTarget(target) && turn.Sha256? && Pinned(target, cwd, now).Some?
    ensures var pinned := Pinned(target, cwd, now).value;
      && SeenAs(PromptTarget(pinned, turn), target) && SeenAs(ContinueTarget(pinned, turn), target)
      && (!PromptChanges(pinned, turn) ==> PromptTarget(pinned, turn) == target && !target.Stopped())
      && (!ContinueChanges(pinned, turn) ==> ContinueTarget(pinned, turn) == target && !target.Stopped())
  {
  }

  lemma BarrierPromptReduces(job: Job, k: nat, input: HookInput, now: nat)
    requires Kept(job) && job.terms.policy == AfterAllStop && k < |job.stopTargets| && now != ZERO_TIME
    ensures Reduces(job, BarrierPrompt(job, k, input, now))
  {
    hide Reduces;
    hide TargetResumed;
    hide PromptTarget;
    hide PromptChanges;
    hide FailedOrCancelled;
    hide Ended;
    hide Pinned;
    hide Valid;
    ValidIsSound(job);
    var pinned := Pinned(job.stopTargets[k], input.cwd, now);
    if Settled(job) {
      NothingReduces(job);
    } else if job.ExpiredAt(now) && !job.Unresolved() {
      EndedReduces(job, Expired, "arm_expired");
    } else if pinned.None? {
      FailedReduces(job, "target_workspace_changed");
    } else {
      UncountedChangesNothing(job.stopTargets[k], input.cwd, input.Turn(), now);
      if !job.stopTargets[k].Stopped() { UnstoppedMeansUnobserved(job, k); }
      ResumedReduces(job, k, PromptTarget(pinned.value, input.Turn()), PromptChanges(pinned.value, input.Turn()));
    }
  }

  lemma NothingReduces(job: Job)
    ensures Reduces(job, job)
  {
  }

  lemma BarrierStopReduces(job: Job, k: nat, input: HookInput, now: nat)
    requires Kept(job) && job.terms.policy == AfterAllStop && k < |job.stopTargets| && now != ZERO_TIME
    ensures Reduces(job, BarrierStop(job, k, input, now))
  {
    hide Reduces;
    hide TargetResumed;
    hide ContinueTarget;
    hide ContinueChanges;
    hide FailedOrCancelled;
    hide Ended;
    hide Pinned;
    hide Valid;
    hide PlainStop;
    hide WithTarget;
    hide Replaces;
    ValidIsSound(job);
    var target := job.stopTargets[k];
    var pinned := Pinned(target, input.cwd, now);
    if Settled(job) {
      NothingReduces(job);
    } else if job.ExpiredAt(now) && !job.Unresolved() {
      EndedReduces(job, Expired, "arm_expired");
    } else if pinned.None? {
      FailedReduces(job, "target_workspace_changed");
    } else if input.stopHookActive {
      UncountedChangesNothing(target, input.cwd, input.Turn(), now);
      if !target.Stopped() { UnstoppedMeansUnobserved(job, k); }
      ResumedReduces(job, k, ContinueTarget(pinned.value, input.Turn()), ContinueChanges(pinned.value, input.Turn()));
    } else if job.Unresolved() {
      AdvancedTargetValid(target, input, now);
      SameTargetSameJob(job, k);
      NothingReduces(job);
    } else {
      PlainStopReduces(job, k, pinned.value, input, now);
    }
  }

  lemma PlainStopReduces(job: Job, k: nat, pinned: Target, input: HookInput, now: nat)
    requires Valid(job) && job.terms.policy == AfterAllStop && !Settled(job) && !job.Unresolved()
    requires k < |job.stopTargets| && ValidTarget(job.stopTargets[k]) && now != ZERO_TIME
    requires Pinned(job.stopTargets[k], input.cwd, now) == Some(pinned)
    ensures Reduces(job, PlainStop(job, k, pinned, input.Turn(), now))
  {
    hide Valid;
    hide Pinned;
    hide Reduces;
    hide BarrierMoved;
    hide StoppedTarget;
    hide Replaces;
    AdvancedTargetValid(job.stopTargets[k], input, now);
    if StopAccepted(pinned, input.Turn()) {
      StoppedIsObserved(job.stopTargets[k], input, now);
      MovedReduces(job, k, StoppedTarget(pinned, input.Turn(), now));
    } else {
      SameTargetSameJob(job, k);
      UnacceptedIsSeen(pinned, input.Turn());
      NothingReduces(job);
    }
  }

  lemma StoppedIsObserved(target: Target, input: HookInput, now: nat)
    requires Pinned(target, input.cwd, now).Some?
    ensures SeenAs(StoppedTarget(Pinned(target, input.cwd, now).value, input.Turn(), now), target)
  {
  }

  lemma BarrierSessionEndReduces(job: Job, k: nat)
    requires k < |job.stopTargets|
    ensures Reduces(job, BarrierSessionEnd(job, k))
  {
    if Settled(job) || job.stopTargets[k].Stopped() { NothingReduces(job); }
    else if job.Unresolved() { RequestedReduces(job, "target_session_ended_before_stop"); }
    else { EndedReduces(job, Expired, "target_session_ended_before_stop"); }
  }

  /** Every hook at a barrier only takes authority away, and says so in the generation. */
  lemma BarrierHookReduces(job: Job, event: HookEvent, k: nat, input: HookInput, now: nat)
    requires Kept(job) && job.terms.policy == AfterAllStop && k < |job.stopTargets| && now != ZERO_TIME
    ensures Reduces(job, HookStep(job, event, Some(k), input, now))
  {
    hide Reduces;
    match event
    case Prompt => BarrierPromptReduces(job, k, input, now);
    case Stop => BarrierStopReduces(job, k, input, now);
    case SessionEnd => BarrierSessionEndReduces(job, k);
  }

  lemma UnresolvedBefore(job: Job, next: Job)
    requires Reduces(job, next)
    ensures next.Unresolved() ==> job.Unresolved()
    ensures next.terms == job.terms && (AllObserved(job) ==> AllObserved(next))
  {
  }

  /**
   A hook at a barrier job yields a job that Validate accepts, so persisting it is never rejected; and the
   same can be said of the next hook.
   */
  lemma BarrierHookKeepsValid(job: Job, event: HookEvent, k: Option<nat>, input: HookInput, now: nat)
    requires Kept(job) && job.terms.policy == AfterAllStop && now != ZERO_TIME
    requires k.Some? ==> k.value < |job.stopTargets|
    ensures Kept(HookStep(job, event, k, input, now))
  {
    hide Valid;
    if k.Some? {
      match event {
        case Prompt => BarrierPromptKeeps(job, k.value, input, now);
        case Stop => BarrierStopKeeps(job, k.value, input, now);
        case SessionEnd => BarrierSessionEndKeeps(job, k.value);
      }
      hide HookStep;
      hide Reduces;
      BarrierHookReduces(job, event, k.value, input, now);
      UnresolvedBefore(job, HookStep(job, event, k, input, now));
    }
  }

  /**
   Whoever writes, and whatever is written: intent, countdown, rollback, an unconfirmed cancel, a request, a
   binding or a hook, an unresolved barrier has seen all its targets before and after.
   */
  lemma EveryWriteKeeps(a: Pid, w: World, after: Job)
    requires Invariant(w) && WriteAllowed(a, w, after) && Valid(after)
    ensures Kept(after)
  {
    WriteKeepsStateMatch(a, w, after);
    hide Valid;
    hide WriteAllowed;
    hide Invariant;
    hide AllObserved;
  }

  /** Hence every job of every run is one the hooks can rely on. */
  lemma EveryJobIsKept(run: Trace, n: nat)
    requires run.IsRun() && n <= |run.moves|
    ensures Kept(run.At(n).job)
  {
    RunKeepsInvariant(run, n);
    EveryJobIsValid(run, n);
    hide Valid;
    hide AllObserved;
  }

  /**
   From every reachable state of a barrier, any hook at any of its sessions yields a job that Validate accepts:
   the write is never rejected, and the run goes on with it.
   */
  lemma EveryHookIsAccepted(run: Trace, a: Pid, move: Move)
    requires run.IsRun() && run.Last().job.terms.policy == AfterAllStop && move.seen.now != ZERO_TIME
    ensures Valid(StepOf(run.Last().job, move))
    ensures Trace(run.start, run.moves + [(a, AfterWrite(run.Last(), StepOf(run.Last().job, move)))]).IsRun()
  {
    hide Valid;
    hide Step;
    hide StepOf;
    RunKeepsInvariant(run, |run.moves|);
    EveryJobIsKept(run, |run.moves|);
    MoveReduces(run.Last().job, move);
    BarrierHookIsAStep(a, run.Last(), move);
    RunExtends(run, a, AfterWrite(run.Last(), StepOf(run.Last().job, move)));
  }

  // ---------------------------------------------------------------- the generation counter

  lemma MoveReduces(job: Job, move: Move)
    requires Kept(job) && job.terms.policy == AfterAllStop && move.seen.now != ZERO_TIME
    ensures Kept(StepOf(job, move)) && Reduces(job, StepOf(job, move))
  {
    hide Kept;
    hide Reduces;
    if move.target < |job.stopTargets| {
      BarrierHookReduces(job, move.seen.event, move.target, move.seen.input, move.seen.now);
      BarrierHookKeepsValid(job, move.seen.event, Some(move.target), move.seen.input, move.seen.now);
    } else {
      NothingReduces(job);
    }
  }

  /**
   Whatever sequence of hooks runs, the generation never falls; and if it is the same at the end as at the
   start, then at every moment in between the targets, the request flag and a granting state were untouched.
   */
  lemma {:induction false} EqualGenerationsMeanUntouched(job: Job, moves: seq<Move>, m: nat)
    requires Kept(job) && job.terms.policy == AfterAllStop && ClockRuns(moves) && m <= |moves|
    ensures Kept(RunHooks(job, moves)) && RunHooks(job, moves).terms == job.terms
    ensures |RunHooks(job, moves).stopTargets| == |job.stopTargets|
    ensures job.generation <= RunHooks(job, moves[..m]).generation <= RunHooks(job, moves).generation
    ensures RunHooks(job, moves).generation == job.generation ==>
      var between := RunHooks(job, moves[..m]);
      && between.stopTargets == job.stopTargets && between.cancelRequested == job.cancelRequested
      && (job.state == StopObserved ==> between.state == StopObserved)
  {
    hide Kept;
    hide StepOf;
    hide HookStep;
    var n := |moves|;
    if n > 0 {
      var most := moves[..n - 1];
      var before := RunHooks(job, most);
      EqualGenerationsMeanUntouched(job, most, if m < n then m else n - 1);
      MoveReduces(before, moves[n - 1]);
      ReducesInShort(before, StepOf(before, moves[n - 1]));
      if m < n { assert most[..m] == moves[..m]; } else { assert moves[..m] == moves; assert most[..n - 1] == most; }
    } else {
      assert moves[..m] == moves;
    }
  }

  lemma ReducesInShort(job: Job, next: Job)
    requires Reduces(job, next)
    ensures next.terms == job.terms && |next.stopTargets| == |job.stopTargets| && job.generation <= next.generation
    ensures next.generation == job.generation ==>
      && next.stopTargets == job.stopTargets && next.cancelRequested == job.cancelRequested
      && (job.state == StopObserved ==> next.state == StopObserved)
  {
  }

  /** A hook that un-stops a target, or takes the barrier out of its granting state, raises the generation. */
  lemma WithdrawalIsCounted(job: Job, move: Move, i: nat)
    requires Kept(job) && job.terms.policy == AfterAllStop && move.seen.now != ZERO_TIME && i < |job.stopTargets|
    ensures |StepOf(job, move).stopTargets| == |job.stopTargets|
    ensures job.stopTargets[i].Stopped() && !StepOf(job, move).stopTargets[i].Stopped() ==>
      job.generation < StepOf(job, move).generation
    ensures job.state == StopObserved && StepOf(job, move).state != StopObserved ==>
      job.generation < StepOf(job, move).generation
    ensures job.Unresolved() && job.stopTargets[i].Stopped() && !StepOf(job, move).stopTargets[i].Stopped() ==>
      StepOf(job, move).cancelRequested
  {
    hide Kept;
    hide StepOf;
    MoveReduces(job, move);
  }

  /** In the shared machine a hook at a barrier is a write that needs neither the lock nor ownership. */
  lemma BarrierHookIsAStep(a: Pid, w: World, move: Move)
    requires Invariant(w) && Kept(w.job) && w.job.terms.policy == AfterAllStop && move.seen.now != ZERO_TIME
    ensures Step(a, w, AfterWrite(w, StepOf(w.job, move)))
    ensures Invariant(AfterWrite(w, StepOf(w.job, move)))
  {
    var after := StepOf(w.job, move);
    PowerJobsExecute(w);
    hide Kept;
    hide StepOf;
    hide Invariant;
    MoveReduces(w.job, move);
    ReducesIsReducingWrite(w.job, after);
    ReducesInShort(w.job, after);
    AllowReducing(a, w, after);
    hide WriteAllowed;
    hide Reduces;
    assert WriteJob(a, w, AfterWrite(w, after));
    StepKeepsInvariant(a, w, AfterWrite(w, after));
  }

  lemma PowerJobsExecute(w: World)
    requires Invariant(w)
    ensures w.job.state.IsPower() ==> !w.job.terms.dryRun
  {
  }

  // ---------------------------------------------------------------- hooks of the other policies and of the tools

  /** A step that is counted and leaves the power states alone takes authority away, whatever else it clears. */
  lemma CountedIsReducing(before: Job, after: Job)
    requires !before.state.IsPower() && !after.state.IsPower() && before.generation < after.generation
    requires before.state.IsTerminal() ==>
      after.state.IsTerminal() && (after.state == Orphaned ==> before.state == Orphaned)
    requires SamePowerFields(before, after) && TargetsStaySeen(before, after)
    ensures ReducingWrite(before, after)
  {
  }

  lemma ClearedIsReducing(before: Job, state: State, reason: string, turnID: string)
    requires !before.state.IsPower() && !before.state.IsTerminal() && !state.IsPower()
    ensures ReducingWrite(before, CompletionCleared(Ended(before, state, reason)))
    ensures ReducingWrite(before, CompletionCleared(Ended(before, state, reason).(currentTurnID := turnID)))
  {
    CountedIsReducing(before, CompletionCleared(Ended(before, state, reason)));
    CountedIsReducing(before, CompletionCleared(Ended(before, state, reason).(currentTurnID := turnID)));
  }

  lemma RequestedIsReducing(before: Job, reason: string)
    requires before.Unresolved()
    ensures ReducingWrite(before, Requested(before, reason))
  {
  }

  lemma SameIsReducing(before: Job)
    ensures ReducingWrite(before, before)
  {
  }

  lemma LegacyPromptReduces(job: Job, input: HookInput, now: nat)
    requires job.state.IsPower() ==> !job.terms.dryRun
    ensures ReducingWrite(job, LegacyPrompt(job, input, now))
  {
    hide ReducingWrite;
    hide CompletionCleared;
    SameIsReducing(job);
    if !job.state.IsTerminal() {
      if job.Unresolved() {
        RequestedIsReducing(job, "new_prompt_requested_power_cancel");
      } else {
        ClearedIsReducing(job, Expired, "arm_expired", "");
        ClearedIsReducing(job, Armed, "new_prompt_invalidated_evidence", input.turnID);
        GrantCancelledReduces(job, "new_prompt_cancelled_after_stop_grant");
      }
    }
  }

  lemma GrantCancelledReduces(job: Job, reason: string)
    requires job.state.IsActive() && !job.state.IsPower()
    ensures ReducingWrite(job, GrantCancelled(job, reason))
  {
    CountedIsReducing(job, GrantCancelled(job, reason));
  }

  lemma AfterStopAcceptanceReduces(job: Job, input: HookInput)
    requires !input.stopHookActive && job.state == Armed && input.turnID == job.currentTurnID
    requires job.terms.dryRun || WorkspaceMatches(job.workspace, input.cwd)
    ensures ReducingWrite(job, AfterStopStop(job, input))
  {
    hide ReducingWrite;
    StopIsReducing(job, AfterStopStop(job, input));
  }

  lemma AfterStopContinuationReduces(job: Job, input: HookInput)
    requires job.state.IsActive() && !job.state.IsPower()
    requires
      || input.stopHookActive || job.state == StopObserved
      || (!job.terms.dryRun && !WorkspaceMatches(job.workspace, input.cwd))
    ensures ReducingWrite(job, AfterStopStop(job, input))
  {
    hide ReducingWrite;
    hide GrantCancelled;
    if input.stopHookActive {
      GrantCancelledReduces(job, "stop_hook_continuation_cancelled_grant");
    } else if !job.terms.dryRun && !WorkspaceMatches(job.workspace, input.cwd) {
      CountedIsReducing(job, Ended(job, HookUnavailable, "stop_workspace_mismatch"));
    } else {
      GrantCancelledReduces(job, "continuation_after_stop_cancelled_grant");
    }
  }

  lemma AfterStopStopReduces(job: Job, input: HookInput)
    requires job.state.IsActive() && !job.state.IsPower()
    ensures ReducingWrite(job, AfterStopStop(job, input))
  {
    hide ReducingWrite;
    hide GrantCancelled;
    if input.stopHookActive || job.state == StopObserved
       || (!job.terms.dryRun && !WorkspaceMatches(job.workspace, input.cwd)) {
      AfterStopContinuationReduces(job, input);
    } else if job.state == Armed && input.turnID == job.currentTurnID {
      AfterStopAcceptanceReduces(job, input);
    } else {
      SameIsReducing(job);
    }
  }

  lemma StopIsReducing(before: Job, after: Job)
    requires before.state != StopObserved && !before.state.IsPower() && before.state.IsActive()
    requires !after.state.IsPower()
    requires after.generation == before.generation
    requires SamePowerFields(before, after) && TargetsStaySeen(before, after)
    ensures ReducingWrite(before, after)
  {
  }

  lemma VerifiedStopReduces(job: Job, input: HookInput)
    requires job.state.IsActive() && !job.state.IsPower()
    ensures ReducingWrite(job, VerifiedStop(job, input))
  {
    hide ReducingWrite;
    hide CompletionCleared;
    hide Ended;
    if job.state != ReadyPendingStop {
      SameIsReducing(job);
    } else if !job.finishObserved || job.readyTurnID != input.turnID {
      ClearedIsReducing(job, Armed, "stop_turn_mismatch", input.turnID);
    } else {
      StopIsReducing(job, VerifiedStop(job, input));
    }
  }

  lemma LegacyStopReduces(job: Job, input: HookInput, now: nat)
    requires job.state.IsPower() ==> !job.terms.dryRun
    ensures ReducingWrite(job, LegacyStop(job, input, now))
  {
    hide ReducingWrite;
    hide CompletionCleared;
    hide AfterStopStop;
    hide VerifiedStop;
    SameIsReducing(job);
    if !job.state.IsTerminal() {
      if job.Unresolved() {
        RequestedIsReducing(job, "continuation_after_stop_requested_power_cancel");
      } else {
        ClearedIsReducing(job, Expired, "arm_expired", "");
        AfterStopStopReduces(job, input);
        VerifiedStopReduces(job, input);
      }
    }
  }

  /** The hooks of a single-session job only take authority away too. */
  lemma LegacyHookReduces(job: Job, event: HookEvent, input: HookInput, now: nat)
    requires job.terms.policy != AfterAllStop && (job.state.IsPower() ==> !job.terms.dryRun)
    ensures ReducingWrite(job, HookStep(job, event, None, input, now))
  {
    hide ReducingWrite;
    match event {
      case Prompt => LegacyPromptReduces(job, input, now);
      case Stop => LegacyStopReduces(job, input, now);
      case SessionEnd =>
        SameIsReducing(job);
        if !job.state.IsTerminal() {
          if job.Unresolved() { RequestedIsReducing(job, "session_end_requested_power_cancel"); }
          else { ClearedIsReducing(job, Expired, "session_ended", ""); }
        }
    }
  }

  /** The job is closed or, if an action is pending, asked to be cancelled; and it is counted. */
  predicate Revoked(job: Job, next: Job) {
    && job.generation < next.generation
    && if job.Unresolved() then next.state == job.state && next.cancelRequested else next.state.IsTerminal()
  }

  lemma EndedRevokes(job: Job, state: State, reason: string)
    requires !job.Unresolved() && state.IsTerminal()
    ensures Revoked(job, Ended(job, state, reason))
    ensures Revoked(job, CompletionCleared(Ended(job, state, reason)))
    ensures state == Cancelled ==> Revoked(job, GrantCancelled(job, reason))
  {
  }

  lemma RequestedRevokes(job: Job, reason: string)
    requires job.Unresolved()
    ensures Revoked(job, Requested(job, reason))
  {
  }

  lemma AfterStopPromptRevokes(job: Job, input: HookInput, now: nat)
    requires job.terms.policy == AfterStop && job.state.IsActive()
    ensures Revoked(job, LegacyPrompt(job, input, now))
  {
    hide Ended;
    hide CompletionCleared;
    hide GrantCancelled;
    hide Requested;
    hide Revoked;
    if job.Unresolved() {
      RequestedRevokes(job, "new_prompt_requested_power_cancel");
    } else if job.ExpiredAt(now) {
      EndedRevokes(job, Expired, "arm_expired");
    } else {
      EndedRevokes(job, Cancelled, "new_prompt_cancelled_after_stop_grant");
    }
  }

  lemma AfterStopStopRevokes(job: Job, input: HookInput, now: nat)
    requires job.terms.policy == AfterStop && !job.terms.dryRun
    requires (job.state == StopObserved || job.Unresolved()) && job.state.IsActive()
    ensures Revoked(job, LegacyStop(job, input, now))
  {
    hide Ended;
    hide CompletionCleared;
    hide GrantCancelled;
    hide Requested;
    hide Revoked;
    hide WorkspaceMatches;
    if job.Unresolved() {
      RequestedRevokes(job, "continuation_after_stop_requested_power_cancel");
    } else if job.ExpiredAt(now) {
      EndedRevokes(job, Expired, "arm_expired");
    } else if input.stopHookActive {
      EndedRevokes(job, Cancelled, "stop_hook_continuation_cancelled_grant");
    } else if !WorkspaceMatches(job.workspace, input.cwd) {
      EndedRevokes(job, HookUnavailable, "stop_workspace_mismatch");
    } else {
      EndedRevokes(job, Cancelled, "continuation_after_stop_cancelled_grant");
    }
  }

  /**
   An after_stop grant does not outlive any further sign of life: once its Stop was observed, every prompt and
   every other Stop closes the job or, with the action pending, asks to cancel it. Only closing the session
   leaves it alone.
   */
  lemma AfterStopActivityRevokes(job: Job, event: HookEvent, input: HookInput, now: nat)
    requires job.terms.policy == AfterStop && !job.terms.dryRun
    requires job.state == StopObserved || job.state.IsPower()
    ensures if event == HookEvent.SessionEnd then HookStep(job, event, None, input, now) == job
            else Revoked(job, HookStep(job, event, None, input, now))
  {
    hide LegacyPrompt;
    hide LegacyStop;
    hide Revoked;
    match event
    case Prompt => AfterStopPromptRevokes(job, input, now);
    case Stop => AfterStopStopRevokes(job, input, now);
    case SessionEnd =>
  }

  /**
   PostToolUse keeps to that rule exactly when it does not meet an expired countdown: the expiry branch of
   finish and pause does not ask whether an action is unresolved, and closes the job as expired.
   */
  lemma ToolStepReducesExactly(job: Job, tool: Tool, input: HookInput, now: nat)
    requires job.state.IsPower() && !job.terms.dryRun
    ensures ReducingWrite(job, ToolStep(job, tool, input, now))
      <==> tool == CancelTool || !ControllerMatches(job, input) || !job.ExpiredAt(now)
  {
    hide ReducingWrite;
    hide CompletionCleared;
    SameIsReducing(job);
    RequestedIsReducing(job, "tool_session_mismatch_after_power_intent");
    ExpiryIsNotReducing(job);
  }

  lemma ExpiryIsNotReducing(job: Job)
    requires job.state.IsPower()
    ensures !ReducingWrite(job, CompletionCleared(Ended(job, Expired, "arm_expired")))
  {
  }
}
