/**
 A Stop barrier is nothing but its targets' own histories: each target record is a fold over the events
 of that target alone, and STOP_OBSERVED is exactly "every target has a live stop"
 (internal/hookobserver/observer.go, internal/pluginstate/job.go).
 */
module TargetHistory {
  import opened Wrappers
  import opened Actions
  import opened PluginJob
  import opened HookSteps
  import opened Barrier

  // ---------------------------------------------------------------- one target

  /** What one event of its own makes of a target. */
  function Advance(target: Target, seen: Seen): Target {
    var pinned := Pinned(target, seen.input.cwd, seen.now);
    var turn := seen.input.Turn();
    if seen.event.SessionEnd? || pinned.None? then target
    else if seen.event.Prompt? then PromptTarget(pinned.value, turn)
    else if seen.input.stopHookActive then ContinueTarget(pinned.value, turn)
    else if StopAccepted(pinned.value, turn) then StoppedTarget(pinned.value, turn, seen.now)
    else pinned.value
  }

  /** Is the event one that raises the generation of its barrier? */
  predicate Counts(target: Target, seen: Seen) {
    var pinned := Pinned(target, seen.input.cwd, seen.now);
    var turn := seen.input.Turn();
    && !seen.event.SessionEnd? && pinned.Some?
    && if seen.event.Prompt? then PromptChanges(pinned.value, turn)
       else if seen.input.stopHookActive then ContinueChanges(pinned.value, turn)
       else StopAccepted(pinned.value, turn)
  }

  function Fold(target: Target, seen: seq<Seen>): Target {
    if seen == [] then target else Advance(Fold(target, seen[..|seen| - 1]), seen[|seen| - 1])
  }

  function Count(target: Target, seen: seq<Seen>): nat {
    if seen == [] then 0
    else Count(target, seen[..|seen| - 1]) + if Counts(Fold(target, seen[..|seen| - 1]), seen[|seen| - 1]) then 1 else 0
  }

  /** Every event but a session end comes from the target's own workspace. */
  predicate AllPinned(target: Target, seen: seq<Seen>) {
    seen == [] ||
    var before := seen[..|seen| - 1];
    var last := seen[|seen| - 1];
    && AllPinned(target, before)
    && (last.event.SessionEnd? || Pinned(Fold(target, before), last.input.cwd, last.now).Some?)
  }

  // ---------------------------------------------------------------- the barrier as its targets

  /** The events of one target. */
  function Project(moves: seq<Move>, i: nat): seq<Seen> {
    if moves == [] then []
    else Project(moves[..|moves| - 1], i) + if moves[|moves| - 1].target == i then [moves[|moves| - 1].seen] else []
  }

  function Total(targets: seq<Target>, moves: seq<Move>, n: nat): nat
    requires n <= |targets|
  {
    if n == 0 then 0 else Total(targets, moves, n - 1) + Count(targets[n - 1], Project(moves, n - 1))
  }

  /** An execute-mode barrier bound to its controller, before any intent. */
  predicate Bound(job: Job) {
    && Kept(job) && job.terms.policy == AfterAllStop && !job.terms.dryRun
    && StateMatches(job)
  }

  predicate StateMatches(job: Job) {
    (job.state == Armed || job.state == StopObserved) && (job.state == StopObserved <==> job.BarrierSatisfied())
  }

  /** No hook of the run ends the job. */
  predicate Undisturbed(job: Job, moves: seq<Move>) {
    forall m :: 0 <= m <= |moves| ==> RunHooks(job, moves[..m]).state.IsActive()
  }

  lemma BoundFacts(job: Job)
    requires Bound(job)
    ensures Kept(job) && job.terms.policy == AfterAllStop && !job.terms.dryRun && !job.Unresolved() && !Settled(job)
    ensures job.indexesReady && job.armObserved && MINIMUM_STOP_TARGETS <= |job.stopTargets| <= MAXIMUM_STOP_TARGETS
    ensures forall i :: 0 <= i < |job.stopTargets| ==> ValidTarget(job.stopTargets[i])
    ensures StateMatches(job)
  {
  }

  lemma ResumedFacts(job: Job, k: nat, target: Target, changed: bool)
    requires k < |job.stopTargets| && !job.Unresolved()
    ensures var next := TargetResumed(job, k, target, changed);
      && next.stopTargets == job.stopTargets[k := target]
      && next.generation == job.generation + if changed then 1 else 0
  {
  }

  lemma EndedFacts()
    ensures forall job: Job, state: State, reason: string {:trigger Ended(job, state, reason)} ::
      var next := Ended(job, state, reason);
      && next.stopTargets == job.stopTargets && next.generation == job.generation + 1 && next.state == state
  {
  }

  lemma MovedFacts(job: Job, k: nat, target: Target)
    requires k < |job.stopTargets|
    ensures var next := BarrierMoved(WithTarget(job, k, target));
      next.stopTargets == job.stopTargets[k := target] && next.generation == job.generation + 1
  {
    MovedIsCounted(WithTarget(job, k, target));
    hide BarrierMoved;
  }

  lemma EndedIsCounted(job: Job, state: State, reason: string)
    ensures Ended(job, state, reason).stopTargets == job.stopTargets
    ensures Ended(job, state, reason).generation == job.generation + 1
  {
  }

  lemma MovedIsCounted(job: Job)
    ensures BarrierMoved(job).stopTargets == job.stopTargets && BarrierMoved(job).generation == job.generation + 1
  {
    hide Ended;
    hide Job.BarrierSatisfied;
    if job.indexesReady && job.armObserved && job.BarrierSatisfied() {
      if job.terms.dryRun {
        EndedIsCounted(job, DryRunComplete, "after_all_stop_observed_no_action");
      } else {
        EndedIsCounted(job, StopObserved, "after_all_stop_observed_awaiting_countdown");
      }
    } else if job.state != ArmPendingBind {
      EndedIsCounted(job, Armed, "after_all_stop_barrier_partial");
    } else {
      EndedIsCounted(job, ArmPendingBind, "awaiting_post_tool_hook");
    }
  }

  /** What a prompt comes down to when it does not end the job. */
  lemma PromptAdvances(job: Job, k: nat, input: HookInput, now: nat)
    requires k < |job.stopTargets| && !Settled(job) && !job.Unresolved()
    requires BarrierPrompt(job, k, input, now).state.IsActive()
    ensures var pinned := Pinned(job.stopTargets[k], input.cwd, now);
      && pinned.Some?
      && BarrierPrompt(job, k, input, now)
         == TargetResumed(job, k, PromptTarget(pinned.value, input.Turn()), PromptChanges(pinned.value, input.Turn()))
  {
    hide TargetResumed;
    hide Pinned;
    hide Ended;
    EndedFacts();
  }

  lemma StopAdvances(job: Job, k: nat, input: HookInput, now: nat)
    requires k < |job.stopTargets| && !Settled(job) && !job.Unresolved()
    requires BarrierStop(job, k, input, now).state.IsActive()
    ensures var pinned := Pinned(job.stopTargets[k], input.cwd, now);
      && pinned.Some?
      && BarrierStop(job, k, input, now)
         == (if input.stopHookActive then
               TargetResumed(job, k, ContinueTarget(pinned.value, input.Turn()),
                             ContinueChanges(pinned.value, input.Turn()))
             else PlainStop(job, k, pinned.value, input.Turn(), now))
  {
    hide TargetResumed;
    hide PlainStop;
    hide Pinned;
    hide Ended;
    EndedFacts();
  }

  lemma PlainStopAdvances(job: Job, k: nat, input: HookInput, now: nat)
    requires k < |job.stopTargets| && ValidTarget(job.stopTargets[k]) && now != ZERO_TIME
    requires Pinned(job.stopTargets[k], input.cwd, now).Some?
    ensures var pinned := Pinned(job.stopTargets[k], input.cwd, now).value;
      var next := PlainStop(job, k, pinned, input.Turn(), now);
      if StopAccepted(pinned, input.Turn()) then
        && next.stopTargets == job.stopTargets[k := StoppedTarget(pinned, input.Turn(), now)]
        && next.generation == job.generation + 1
      else next == job && pinned == job.stopTargets[k]
  {
    hide Pinned;
    hide BarrierMoved;
    hide Replaces;
    var pinned := Pinned(job.stopTargets[k], input.cwd, now).value;
    AdvancedTargetValid(job.stopTargets[k], input, now);
    if StopAccepted(pinned, input.Turn()) {
      MovedFacts(job, k, StoppedTarget(pinned, input.Turn(), now));
    } else {
      SameTargetSameJob(job, k);
      UnacceptedIsSeen(pinned, input.Turn());
    }
  }

  /** `next` is the job with target `k` advanced by one event, and nothing else moved but the count. */
  predicate Advanced(job: Job, k: nat, seen: Seen, next: Job)
    requires k < |job.stopTargets|
  {
    var target := job.stopTargets[k];
    && next.stopTargets == job.stopTargets[k := Advance(target, seen)]
    && next.generation == job.generation + (if Counts(target, seen) then 1 else 0)
    && (seen.event.SessionEnd? || Pinned(target, seen.input.cwd, seen.now).Some?)
  }

  lemma PromptIsAdvance(job: Job, k: nat, input: HookInput, now: nat)
    requires k < |job.stopTargets| && !Settled(job) && !job.Unresolved()
    requires BarrierPrompt(job, k, input, now).state.IsActive()
    ensures Advanced(job, k, Seen(Prompt, input, now), BarrierPrompt(job, k, input, now))
  {
    hide BarrierPrompt;
    hide TargetResumed;
    hide PromptTarget;
    hide PromptChanges;
    hide Pinned;
    PromptAdvances(job, k, input, now);
    var pinned := Pinned(job.stopTargets[k], input.cwd, now).value;
    ResumedFacts(job, k, PromptTarget(pinned, input.Turn()), PromptChanges(pinned, input.Turn()));
  }

  lemma StopIsAdvance(job: Job, k: nat, input: HookInput, now: nat)
    requires k < |job.stopTargets| && !Settled(job) && !job.Unresolved()
    requires ValidTarget(job.stopTargets[k]) && now != ZERO_TIME
    requires BarrierStop(job, k, input, now).state.IsActive()
    ensures Advanced(job, k, Seen(Stop, input, now), BarrierStop(job, k, input, now))
  {
    hide BarrierStop;
    hide TargetResumed;
    hide PlainStop;
    hide ValidTarget;
    hide ContinueTarget;
    hide ContinueChanges;
    hide StoppedTarget;
    hide StopAccepted;
    hide Pinned;
    StopAdvances(job, k, input, now);
    var pinned := Pinned(job.stopTargets[k], input.cwd, now).value;
    if input.stopHookActive {
      ResumedFacts(job, k, ContinueTarget(pinned, input.Turn()), ContinueChanges(pinned, input.Turn()));
    } else {
      PlainStopAdvances(job, k, input, now);
      assert job.stopTargets[k := job.stopTargets[k]] == job.stopTargets;
    }
  }

  lemma SessionEndIsAdvance(job: Job, k: nat, input: HookInput, now: nat)
    requires k < |job.stopTargets| && !Settled(job) && !job.Unresolved()
    requires BarrierSessionEnd(job, k).state.IsActive()
    ensures Advanced(job, k, Seen(SessionEnd, input, now), BarrierSessionEnd(job, k))
  {
    EndedFacts();
    hide Ended;
    assert job.stopTargets[k := job.stopTargets[k]] == job.stopTargets;
  }

  /** One hook at a bound barrier, if it does not end the job, advances its target and nothing else. */
  lemma StepAdvancesOneTarget(job: Job, move: Move)
    requires Bound(job) && move.target < |job.stopTargets| && move.seen.now != ZERO_TIME
    requires StepOf(job, move).state.IsActive()
    ensures Advanced(job, move.target, move.seen, StepOf(job, move))
  {
    BoundFacts(job);
    hide Bound;
    hide Kept;
    hide BarrierPrompt;
    hide BarrierStop;
    hide BarrierSessionEnd;
    hide ValidTarget;
    hide Advanced;
    match move.seen.event {
      case Prompt => PromptIsAdvance(job, move.target, move.seen.input, move.seen.now);
      case Stop => StopIsAdvance(job, move.target, move.seen.input, move.seen.now);
      case SessionEnd => SessionEndIsAdvance(job, move.target, move.seen.input, move.seen.now);
    }
  }

  /** ... and the job is a bound barrier again: STOP_OBSERVED exactly when every target is stopped. */
  lemma StepKeepsBound(job: Job, move: Move)
    requires Bound(job) && move.target < |job.stopTargets| && move.seen.now != ZERO_TIME
    requires StepOf(job, move).state.IsActive()
    ensures Bound(StepOf(job, move))
  {
    BoundFacts(job);
    MoveReduces(job, move);
    hide Bound;
    hide Kept;
    hide Reduces;
    StepStateMatches(job, move);
    assert StepOf(job, move).terms == job.terms by { ReducesInShort(job, StepOf(job, move)); }
    BoundAgain(StepOf(job, move));
  }

  lemma BoundAgain(job: Job)
    requires Kept(job) && job.terms.policy == AfterAllStop && !job.terms.dryRun
    requires StateMatches(job)
    ensures Bound(job)
  {
  }

  lemma ResumedMatches(job: Job, k: nat, target: Target, changed: bool)
    requires k < |job.stopTargets| && !job.Unresolved() && job.state != ArmPendingBind && !target.Stopped()
    ensures StateMatches(TargetResumed(job, k, target, changed))
  {
    var next := TargetResumed(job, k, target, changed);
    assert next.stopTargets[k] == target;
  }

  lemma MovedMatches(job: Job)
    requires job.indexesReady && job.armObserved && !job.terms.dryRun && job.state != ArmPendingBind
    ensures StateMatches(BarrierMoved(job))
  {
    EndedFacts();
    hide Ended;
    assert BarrierMoved(job).BarrierSatisfied() == job.BarrierSatisfied();
  }

  lemma WithTargetFacts(job: Job, k: nat, target: Target)
    requires k < |job.stopTargets|
    ensures var next := WithTarget(job, k, target);
      && next.indexesReady == job.indexesReady && next.armObserved == job.armObserved
      && next.terms == job.terms && next.state == job.state
  {
  }

  lemma StopMatches(job: Job, k: nat, input: HookInput, now: nat)
    requires Bound(job) && k < |job.stopTargets| && now != ZERO_TIME
    requires BarrierStop(job, k, input, now).state.IsActive()
    ensures StateMatches(BarrierStop(job, k, input, now))
  {
    BoundFacts(job);
    hide Bound;
    hide Kept;
    hide BarrierStop;
    hide TargetResumed;
    hide BarrierMoved;
    hide WithTarget;
    hide ValidTarget;
    hide Pinned;
    hide Replaces;
    hide StateMatches;
    StopAdvances(job, k, input, now);
    var pinned := Pinned(job.stopTargets[k], input.cwd, now).value;
    if input.stopHookActive {
      ResumedMatches(job, k, ContinueTarget(pinned, input.Turn()), ContinueChanges(pinned, input.Turn()));
    } else {
      PlainStopAdvances(job, k, input, now);
      if StopAccepted(pinned, input.Turn()) {
        WithTargetFacts(job, k, StoppedTarget(pinned, input.Turn(), now));
        MovedMatches(WithTarget(job, k, StoppedTarget(pinned, input.Turn(), now)));
      }
    }
  }

  lemma PromptMatches(job: Job, k: nat, input: HookInput, now: nat)
    requires Bound(job) && k < |job.stopTargets| && now != ZERO_TIME
    requires BarrierPrompt(job, k, input, now).state.IsActive()
    ensures StateMatches(BarrierPrompt(job, k, input, now))
  {
    BoundFacts(job);
    hide Bound;
    hide Kept;
    hide BarrierPrompt;
    hide TargetResumed;
    hide ValidTarget;
    hide Pinned;
    PromptAdvances(job, k, input, now);
    var pinned := Pinned(job.stopTargets[k], input.cwd, now).value;
    ResumedMatches(job, k, PromptTarget(pinned, input.Turn()), PromptChanges(pinned, input.Turn()));
  }

  lemma StepStateMatches(job: Job, move: Move)
    requires Bound(job) && move.target < |job.stopTargets| && move.seen.now != ZERO_TIME
    requires StepOf(job, move).state.IsActive()
    ensures StateMatches(StepOf(job, move))
  {
    BoundFacts(job);
    hide Bound;
    hide Kept;
    hide BarrierPrompt;
    hide BarrierStop;
    hide ValidTarget;
    hide StateMatches;
    match move.seen.event {
      case Prompt => PromptMatches(job, move.target, move.seen.input, move.seen.now);
      case Stop => StopMatches(job, move.target, move.seen.input, move.seen.now);
      case SessionEnd =>
        EndedFacts();
        hide Ended;
    }
  }

  /** What ends a barrier that has no action pending. */
  predicate Ends(job: Job, move: Move)
    requires move.target < |job.stopTargets|
  {
    var target := job.stopTargets[move.target];
    if move.seen.event.SessionEnd? then !target.Stopped()
    else job.ExpiredAt(move.seen.now) || Pinned(target, move.seen.input.cwd, move.seen.now).None?
  }

  /**
   A hook ends a bound barrier exactly if the arm has expired, if it comes from another directory than the
   target's own, or if it is the end of a session that has not stopped.
   */
  lemma StepEndsExactly(job: Job, move: Move)
    requires Bound(job) && move.target < |job.stopTargets| && move.seen.now != ZERO_TIME
    ensures StepOf(job, move).state.IsTerminal() <==> Ends(job, move)
  {
    BoundFacts(job);
    hide Bound;
    hide Kept;
    hide ValidTarget;
    hide Pinned;
    hide Ended;
    hide BarrierPrompt;
    hide BarrierStop;
    EndedFacts();
    match move.seen.event {
      case Prompt => PromptEndsExactly(job, move.target, move.seen.input, move.seen.now);
      case Stop => StopEndsExactly(job, move.target, move.seen.input, move.seen.now);
      case SessionEnd =>
    }
  }

  lemma PromptEndsExactly(job: Job, k: nat, input: HookInput, now: nat)
    requires k < |job.stopTargets| && !Settled(job) && !job.Unresolved() && StateMatches(job)
    ensures BarrierPrompt(job, k, input, now).state.IsTerminal()
      <==> job.ExpiredAt(now) || Pinned(job.stopTargets[k], input.cwd, now).None?
  {
    EndedFacts();
    hide Ended;
    hide Pinned;
    hide TargetResumed;
    var pinned := Pinned(job.stopTargets[k], input.cwd, now);
    if pinned.Some? {
      ResumedStaysActive(job, k, PromptTarget(pinned.value, input.Turn()), PromptChanges(pinned.value, input.Turn()));
    }
  }

  lemma ResumedStaysActive(job: Job, k: nat, target: Target, changed: bool)
    requires k < |job.stopTargets| && !job.Unresolved()
    ensures TargetResumed(job, k, target, changed).state.IsActive()
  {
  }

  lemma StopEndsExactly(job: Job, k: nat, input: HookInput, now: nat)
    requires k < |job.stopTargets| && !Settled(job) && !job.Unresolved() && StateMatches(job) && !job.terms.dryRun
    ensures BarrierStop(job, k, input, now).state.IsTerminal()
      <==> job.ExpiredAt(now) || Pinned(job.stopTargets[k], input.cwd, now).None?
  {
    EndedFacts();
    hide Ended;
    hide Pinned;
    hide TargetResumed;
    hide PlainStop;
    hide ContinueTarget;
    hide ContinueChanges;
    var pinned := Pinned(job.stopTargets[k], input.cwd, now);
    if pinned.Some? {
      ResumedStaysActive(job, k, ContinueTarget(pinned.value, input.Turn()),
                         ContinueChanges(pinned.value, input.Turn()));
      PlainStopStaysActive(job, k, pinned.value, input.Turn(), now);
    }
  }

  lemma PlainStopStaysActive(job: Job, k: nat, target: Target, turn: Hash, now: nat)
    requires k < |job.stopTargets| && job.state.IsActive() && !job.terms.dryRun
    ensures PlainStop(job, k, target, turn, now).state.IsActive()
  {
    hide BarrierMoved;
    hide StopAccepted;
    MovedStaysActive(WithTarget(job, k, StoppedTarget(target, turn, now)));
  }

  lemma MovedStaysActive(job: Job)
    requires !job.terms.dryRun
    ensures BarrierMoved(job).state.IsActive()
  {
    EndedFacts();
    hide Ended;
    hide Job.BarrierSatisfied;
  }

  // ---------------------------------------------------------------- refinement

  lemma CountStep(target: Target, seen: seq<Seen>, last: Seen)
    ensures Count(target, seen + [last]) == Count(target, seen) + if Counts(Fold(target, seen), last) then 1 else 0
  {
    hide Counts;
    hide Fold;
    assert (seen + [last])[..|seen|] == seen;
  }

  lemma CountOfProject(target: Target, moves: seq<Move>, i: nat)
    requires moves != []
    ensures var before, last := moves[..|moves| - 1], moves[|moves| - 1];
      Count(target, Project(moves, i)) == Count(target, Project(before, i))
        + if last.target == i && Counts(Fold(target, Project(before, i)), last.seen) then 1 else 0
  {
    hide Counts;
    hide Fold;
    hide Count;
    var before, last := moves[..|moves| - 1], moves[|moves| - 1];
    if last.target == i {
      CountStep(target, Project(before, i), last.seen);
    } else {
      assert Project(moves, i) == Project(before, i);
    }
  }

  lemma {:induction false} TotalStep(targets: seq<Target>, moves: seq<Move>, n: nat)
    requires n <= |targets| && moves != []
    ensures var before, last := moves[..|moves| - 1], moves[|moves| - 1];
      Total(targets, moves, n) == Total(targets, before, n)
        + if last.target < n && Counts(Fold(targets[last.target], Project(before, last.target)), last.seen) then 1
          else 0
  {
    hide Counts;
    hide Fold;
    hide Count;
    hide Project;
    if n > 0 {
      TotalStep(targets, moves, n - 1);
      CountOfProject(targets[n - 1], moves, n - 1);
    }
  }

  lemma FoldStep(target: Target, seen: seq<Seen>, last: Seen)
    ensures Fold(target, seen + [last]) == Advance(Fold(target, seen), last)
    ensures AllPinned(target, seen + [last]) <==>
      AllPinned(target, seen) && (last.event.SessionEnd? || Pinned(Fold(target, seen), last.input.cwd, last.now).Some?)
  {
    assert (seen + [last])[..|seen|] == seen;
  }

  /** The barrier after `moves`, put together from its targets. */
  predicate IsFold(job: Job, moves: seq<Move>, end: Job) {
    var n := |job.stopTargets|;
    && |end.stopTargets| == n
    && (forall i :: 0 <= i < n ==>
          && end.stopTargets[i] == Fold(job.stopTargets[i], Project(moves, i))
          && AllPinned(job.stopTargets[i], Project(moves, i)))
    && end.generation == job.generation + Total(job.stopTargets, moves, n)
  }

  lemma UndisturbedPrefix(job: Job, moves: seq<Move>)
    requires Undisturbed(job, moves) && moves != []
    ensures Undisturbed(job, moves[..|moves| - 1]) && RunHooks(job, moves).state.IsActive()
  {
    var before := moves[..|moves| - 1];
    forall m | 0 <= m <= |before| ensures RunHooks(job, before[..m]).state.IsActive() {
      assert before[..m] == moves[..m];
    }
    assert moves[..|moves|] == moves;
  }

  /**
   A bound barrier refines its targets' histories: over any run no hook of which ends the job, every target
   record is the fold of its own events, the generation counts the events that changed something, and the
   state is STOP_OBSERVED exactly when all targets are stopped.
   */
  lemma {:induction false} BarrierIsFold(job: Job, moves: seq<Move>)
    requires Bound(job) && ClockRuns(moves) && Undisturbed(job, moves)
    ensures Bound(RunHooks(job, moves)) && IsFold(job, moves, RunHooks(job, moves))
  {
    hide Bound;
    hide StepOf;
    hide IsFold;
    hide Advanced;
    if moves == [] {
      NothingRun(job);
    } else {
      var before, last := moves[..|moves| - 1], moves[|moves| - 1];
      UndisturbedPrefix(job, moves);
      BarrierIsFold(job, before);
      var mid := RunHooks(job, before);
      if last.target < |mid.stopTargets| {
        StepAdvancesOneTarget(mid, last);
        StepKeepsBound(mid, last);
        FoldOneMore(job, moves, mid, RunHooks(job, moves));
      } else {
        UnknownSession(mid, last);
        FoldNoMore(job, moves, mid);
      }
    }
  }

  lemma FoldOneMore(job: Job, moves: seq<Move>, mid: Job, end: Job)
    requires moves != [] && IsFold(job, moves[..|moves| - 1], mid)
    requires moves[|moves| - 1].target < |mid.stopTargets|
    requires Advanced(mid, moves[|moves| - 1].target, moves[|moves| - 1].seen, end)
    ensures IsFold(job, moves, end)
  {
    hide Advance;
    hide Counts;
    hide Pinned;
    hide Fold;
    hide AllPinned;
    hide Total;
    var before, last := moves[..|moves| - 1], moves[|moves| - 1];
    TotalStep(job.stopTargets, moves, |job.stopTargets|);
    forall i | 0 <= i < |job.stopTargets|
      ensures end.stopTargets[i] == Fold(job.stopTargets[i], Project(moves, i))
      ensures AllPinned(job.stopTargets[i], Project(moves, i))
    {
      if i == last.target {
        FoldStep(job.stopTargets[i], Project(before, i), last.seen);
      } else {
        assert Project(moves, i) == Project(before, i);
      }
    }
  }

  lemma FoldNoMore(job: Job, moves: seq<Move>, mid: Job)
    requires moves != [] && IsFold(job, moves[..|moves| - 1], mid) && moves[|moves| - 1].target >= |mid.stopTargets|
    ensures IsFold(job, moves, mid)
  {
    TotalStep(job.stopTargets, moves, |job.stopTargets|);
    forall i | 0 <= i < |job.stopTargets| ensures Project(moves, i) == Project(moves[..|moves| - 1], i) {
    }
  }

  lemma UnknownSession(job: Job, move: Move)
    requires Bound(job) && move.target >= |job.stopTargets|
    ensures StepOf(job, move) == job
  {
  }

  lemma NothingRun(job: Job)
    ensures IsFold(job, [], job)
  {
    NothingCounted(job.stopTargets, |job.stopTargets|);
  }

  lemma NothingCounted(targets: seq<Target>, n: nat)
    requires n <= |targets|
    ensures Total(targets, [], n) == 0
  {
  }

  /** Only the order within each target matters. */
  lemma InterleavingsAgree(job: Job, a: seq<Move>, b: seq<Move>)
    requires Bound(job) && ClockRuns(a) && ClockRuns(b) && Undisturbed(job, a) && Undisturbed(job, b)
    requires forall i :: 0 <= i < |job.stopTargets| ==> Project(a, i) == Project(b, i)
    ensures RunHooks(job, a).stopTargets == RunHooks(job, b).stopTargets
    ensures RunHooks(job, a).generation == RunHooks(job, b).generation
    ensures RunHooks(job, a).state == RunHooks(job, b).state
  {
    hide *;
    BarrierIsFold(job, a);
    BarrierIsFold(job, b);
    FoldsAgree(job, a, b, RunHooks(job, a), RunHooks(job, b));
    StatesAgree(RunHooks(job, a), RunHooks(job, b));
  }

  lemma FoldsAgree(job: Job, a: seq<Move>, b: seq<Move>, endA: Job, endB: Job)
    requires IsFold(job, a, endA) && IsFold(job, b, endB)
    requires forall i :: 0 <= i < |job.stopTargets| ==> Project(a, i) == Project(b, i)
    ensures endA.stopTargets == endB.stopTargets && endA.generation == endB.generation
  {
    hide Fold;
    hide AllPinned;
    hide Project;
    TotalsAgree(job.stopTargets, a, b, |job.stopTargets|);
    hide Total;
    assert endA.stopTargets == endB.stopTargets;
  }

  lemma StatesAgree(a: Job, b: Job)
    requires Bound(a) && Bound(b) && a.stopTargets == b.stopTargets
    ensures a.state == b.state
  {
    BoundFacts(a);
    BoundFacts(b);
    hide Bound;
  }

  lemma TotalsAgree(targets: seq<Target>, a: seq<Move>, b: seq<Move>, n: nat)
    requires n <= |targets|
    requires forall i :: 0 <= i < n ==> Project(a, i) == Project(b, i)
    ensures Total(targets, a, n) == Total(targets, b, n)
  {
  }

  // ---------------------------------------------------------------- when a target is stopped

  predicate Continues(seen: Seen) {
    seen.event.Stop? && seen.input.stopHookActive
  }

  /** The event says the session is running. */
  predicate Runs(seen: Seen) {
    seen.event.Prompt? || Continues(seen)
  }

  predicate Stops(seen: Seen) {
    seen.event.Stop? && !seen.input.stopHookActive
  }

  /** The turn of the last prompt or continuation, or of the first Stop if there was none. */
  function CurrentTurn(seen: seq<Seen>): Hash {
    if seen == [] then NoHash
    else
      var before, last := CurrentTurn(seen[..|seen| - 1]), seen[|seen| - 1];
      if Runs(last) || (Stops(last) && before == NoHash) then last.input.Turn() else before
  }

  /** `turn` was continued by a stop hook, and no other turn has run since. */
  predicate Tombstoned(seen: seq<Seen>, turn: Hash) {
    exists j :: 0 <= j < |seen| && Continued(seen, turn, j)
  }

  predicate Continued(seen: seq<Seen>, turn: Hash, j: nat)
    requires j < |seen|
  {
    && Continues(seen[j]) && seen[j].input.Turn() == turn
    && forall m :: j < m < |seen| && Runs(seen[m]) ==> seen[m].input.Turn() == turn
  }

  /** Event `j` is a plain Stop of the turn current when it came, not of a continued one, and nothing has run since. */
  predicate LiveStop(seen: seq<Seen>, j: nat)
    requires j < |seen|
  {
    && AcceptableStop(seen[..j], seen[j])
    && forall m :: j < m < |seen| ==> !Runs(seen[m])
  }

  predicate AcceptableStop(before: seq<Seen>, stop: Seen) {
    && Stops(stop)
    && (CurrentTurn(before) == NoHash || CurrentTurn(before) == stop.input.Turn())
    && !Tombstoned(before, stop.input.Turn())
  }

  predicate HasLiveStop(seen: seq<Seen>) {
    exists j :: 0 <= j < |seen| && LiveStop(seen, j)
  }

  lemma TombstoneStep(seen: seq<Seen>, last: Seen, turn: Hash)
    ensures Tombstoned(seen + [last], turn) <==>
      || (Continues(last) && last.input.Turn() == turn)
      || (Tombstoned(seen, turn) && (Runs(last) ==> last.input.Turn() == turn))
  {
    var longer := seen + [last];
    if Tombstoned(longer, turn) {
      var j :| 0 <= j < |longer| && Continued(longer, turn, j);
      if j < |seen| {
        assert longer[|seen|] == last;
        forall m | j < m < |seen| && Runs(seen[m]) ensures seen[m].input.Turn() == turn { assert longer[m] == seen[m]; }
        assert Continued(seen, turn, j);
      }
    }
    if Continues(last) && last.input.Turn() == turn { assert Continued(longer, turn, |seen|); }
    if Tombstoned(seen, turn) && (Runs(last) ==> last.input.Turn() == turn) {
      var j :| 0 <= j < |seen| && Continued(seen, turn, j);
      assert Continued(longer, turn, j);
    }
  }

  lemma LiveStopStep(seen: seq<Seen>, last: Seen)
    ensures HasLiveStop(seen + [last]) <==> AcceptableStop(seen, last) || (HasLiveStop(seen) && !Runs(last))
  {
    var longer := seen + [last];
    assert longer[..|seen|] == seen;
    if HasLiveStop(longer) {
      var j :| 0 <= j < |longer| && LiveStop(longer, j);
      if j < |seen| {
        assert longer[..j] == seen[..j] && longer[|seen|] == last;
        forall m | j < m < |seen| ensures !Runs(seen[m]) { assert longer[m] == seen[m]; }
        assert LiveStop(seen, j);
      }
    }
    if AcceptableStop(seen, last) { assert LiveStop(longer, |seen|); }
    if HasLiveStop(seen) && !Runs(last) {
      var j :| 0 <= j < |seen| && LiveStop(seen, j);
      assert longer[..j] == seen[..j];
      assert LiveStop(longer, j);
    }
  }

  lemma {:induction false} TombstoneIsCurrent(seen: seq<Seen>, turn: Hash)
    requires Tombstoned(seen, turn)
    ensures CurrentTurn(seen) == turn
  {
    if seen != [] {
      var before, last := seen[..|seen| - 1], seen[|seen| - 1];
      assert seen == before + [last];
      TombstoneStep(before, last, turn);
      if !Runs(last) { TombstoneIsCurrent(before, turn); }
      assert turn != NoHash by { var j :| 0 <= j < |seen| && Continued(seen, turn, j); }
    }
  }

  predicate Fresh(target: Target) {
    target.currentTurn == NoHash && target.stopTurn == NoHash && target.continuationTurn == NoHash
  }

  /** The three turns of a target record say of its history what they are meant to say. */
  predicate Tells(target: Target, seen: seq<Seen>) {
    && target.currentTurn == CurrentTurn(seen)
    && (target.stopTurn == NoHash || target.stopTurn == target.currentTurn)
    && (target.continuationTurn == NoHash || target.continuationTurn == target.currentTurn)
    && (target.continuationTurn != NoHash <==> Tombstoned(seen, target.currentTurn))
    && (target.stopTurn != NoHash <==> HasLiveStop(seen))
    && (target.stopTurn != NoHash ==> target.continuationTurn == NoHash)
  }

  lemma TurnStep(seen: seq<Seen>, last: Seen)
    ensures CurrentTurn(seen + [last]) ==
      if Runs(last) || (Stops(last) && CurrentTurn(seen) == NoHash) then last.input.Turn() else CurrentTurn(seen)
  {
    assert (seen + [last])[..|seen|] == seen;
  }

  /** What one more event does to everything a target record tells of its history. */
  lemma HistoryStep(target: Target, seen: seq<Seen>, last: Seen)
    requires Tells(target, seen)
    ensures var longer, turn := seen + [last], last.input.Turn();
      && (Tombstoned(longer, turn) <==> Continues(last) || Tombstoned(seen, turn))
      && (Tombstoned(seen, turn) ==> target.currentTurn == turn)
      && (Tombstoned(longer, target.currentTurn) <==>
            (Continues(last) && turn == target.currentTurn)
            || (Tombstoned(seen, target.currentTurn) && (Runs(last) ==> turn == target.currentTurn)))
      && (HasLiveStop(longer) <==> AcceptableStop(seen, last) || (HasLiveStop(seen) && !Runs(last)))
  {
    hide HasLiveStop;
    TombstoneStep(seen, last, last.input.Turn());
    TombstoneStep(seen, last, target.currentTurn);
    LiveStopStep(seen, last);
    if Tombstoned(seen, last.input.Turn()) { TombstoneIsCurrent(seen, last.input.Turn()); }
  }

  lemma TellsRun(target: Target, seen: seq<Seen>, last: Seen)
    requires Tells(target, seen) && Runs(last) && Pinned(target, last.input.cwd, last.now).Some?
    ensures Tells(Advance(target, last), seen + [last])
  {
    TurnStep(seen, last);
    HistoryStep(target, seen, last);
    hide Tombstoned;
    hide HasLiveStop;
    hide CurrentTurn;
  }

  lemma TellsStop(target: Target, seen: seq<Seen>, last: Seen)
    requires Tells(target, seen) && !Runs(last)
    requires last.event.SessionEnd? || Pinned(target, last.input.cwd, last.now).Some?
    ensures Tells(Advance(target, last), seen + [last])
  {
    TurnStep(seen, last);
    HistoryStep(target, seen, last);
    hide Tombstoned;
    hide HasLiveStop;
    hide CurrentTurn;
  }

  lemma TellsStep(target: Target, seen: seq<Seen>, last: Seen)
    requires Tells(target, seen)
    requires last.event.SessionEnd? || Pinned(target, last.input.cwd, last.now).Some?
    ensures Tells(Advance(target, last), seen + [last])
  {
    hide Tells;
    hide Advance;
    hide Pinned;
    if Runs(last) { TellsRun(target, seen, last); } else { TellsStop(target, seen, last); }
  }

  lemma {:induction false} TargetTellsItsHistory(target: Target, seen: seq<Seen>)
    requires Fresh(target) && AllPinned(target, seen)
    ensures Tells(Fold(target, seen), seen)
  {
    if seen != [] {
      var before, last := seen[..|seen| - 1], seen[|seen| - 1];
      TargetTellsItsHistory(target, before);
      assert seen == before + [last];
      hide Advance;
      hide Tells;
      TellsStep(Fold(target, before), before, last);
    }
  }

  /** A target is stopped exactly by a live stop. */
  lemma StoppedExactly(target: Target, seen: seq<Seen>)
    requires Fresh(target) && AllPinned(target, seen)
    ensures Fold(target, seen).Stopped() <==> HasLiveStop(seen)
  {
    TargetTellsItsHistory(target, seen);
    if HasLiveStop(seen) { LiveStopHasTurn(seen); }
  }

  lemma {:induction false} LiveStopHasTurn(seen: seq<Seen>)
    requires HasLiveStop(seen)
    ensures CurrentTurn(seen) != NoHash
  {
    if seen != [] {
      var before, last := seen[..|seen| - 1], seen[|seen| - 1];
      assert seen == before + [last];
      LiveStopStep(before, last);
      if !Stops(last) && !Runs(last) { LiveStopHasTurn(before); }
    }
  }

  /**
   The shutdown condition of a barrier in terms of what was observed: from a freshly bound barrier, the job is
   STOP_OBSERVED after a run no hook of which ends it if and only if every target has a live stop.
   */
  lemma ObservedExactly(job: Job, moves: seq<Move>)
    requires Bound(job) && ClockRuns(moves) && Undisturbed(job, moves)
    requires forall i :: 0 <= i < |job.stopTargets| ==> Fresh(job.stopTargets[i])
    ensures RunHooks(job, moves).state == StopObserved
      <==> forall i :: 0 <= i < |job.stopTargets| ==> HasLiveStop(Project(moves, i))
  {
    hide *;
    BarrierIsFold(job, moves);
    var end := RunHooks(job, moves);
    ObservedMeansAllStopped(end);
    SizeOfFold(job, moves, end);
    forall i | 0 <= i < |job.stopTargets| ensures end.stopTargets[i].Stopped() <==> HasLiveStop(Project(moves, i)) {
      StoppedInTheFold(job, moves, end, i);
    }
    if end.state != StopObserved {
      var i :| 0 <= i < |end.stopTargets| && !end.stopTargets[i].Stopped();
      assert !HasLiveStop(Project(moves, i));
    }
  }

  lemma ObservedMeansAllStopped(job: Job)
    requires Bound(job)
    ensures job.state == StopObserved <==> forall i :: 0 <= i < |job.stopTargets| ==> job.stopTargets[i].Stopped()
  {
    BoundFacts(job);
    hide Bound;
  }

  lemma SizeOfFold(job: Job, moves: seq<Move>, end: Job)
    requires IsFold(job, moves, end)
    ensures |end.stopTargets| == |job.stopTargets|
  {
  }

  lemma StoppedInTheFold(job: Job, moves: seq<Move>, end: Job, i: nat)
    requires IsFold(job, moves, end) && i < |job.stopTargets| && Fresh(job.stopTargets[i])
    ensures |end.stopTargets| == |job.stopTargets| && (end.stopTargets[i].Stopped() <==> HasLiveStop(Project(moves, i)))
  {
    hide Fresh;
    hide Fold;
    hide AllPinned;
    hide HasLiveStop;
    hide Total;
    StoppedExactly(job.stopTargets[i], Project(moves, i));
  }

  /** A continued turn cannot be stopped for as long as no other turn runs ... */
  lemma TombstonedTurnStaysUnstopped(target: Target, seen: seq<Seen>, last: Seen)
    requires Fresh(target) && AllPinned(target, seen + [last])
    requires Stops(last) && Tombstoned(seen, last.input.Turn())
    ensures !Fold(target, seen + [last]).Stopped()
  {
    StoppedExactly(target, seen + [last]);
    LiveStopStep(seen, last);
    if HasLiveStop(seen) {
      FoldStep(target, seen, last);
      TargetTellsItsHistory(target, seen);
      TombstoneIsCurrent(seen, last.input.Turn());
    }
  }

  /** ... but a turn id that comes back after another turn has lost its tombstone, and its Stop counts. */
  lemma ReturningTurnIsStoppable(target: Target, cwd: Path, now: nat)
    requires Fresh(target) && target.workspace == NoPath && cwd.Absolute?
    ensures var a := HookInput("s", "a", cwd, false);
      var seen := [Seen(Stop, a.(stopHookActive := true), now), Seen(Prompt, a.(turnID := "b"), now),
                   Seen(Prompt, a, now), Seen(Stop, a, now)];
      Fold(target, seen).Stopped() && Continues(seen[0]) && seen[0].input.Turn() == seen[3].input.Turn()
  {
    var a := HookInput("s", "a", cwd, false);
    var b := a.(turnID := "b");
    var s0, s1, s2, s3 :=
      Seen(Stop, a.(stopHookActive := true), now), Seen(Prompt, b, now), Seen(Prompt, a, now), Seen(Stop, a, now);
    FoldStep(target, [], s0);
    FoldStep(target, [s0], s1);
    FoldStep(target, [s0, s1], s2);
    FoldStep(target, [s0, s1, s2], s3);
    assert [] + [s0] == [s0] && [s0] + [s1] == [s0, s1] && [s0, s1] + [s2] == [s0, s1, s2];
    assert [s0, s1, s2] + [s3] == [s0, s1, s2, s3];
    assert "a" != "b" by { assert "a"[0] != "b"[0]; }
  }
}
