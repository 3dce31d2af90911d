/**
 The plugin job store: job files and session indexes under one writer lock (internal/pluginstate/store.go).

 Each operation runs alone, but the process may die between any two of its writes; what is on disk then
 is what the next operation finds. A file read or written here is atomic. Log appends have no effect on
 these files; a failed write leaves the file as it was.
 */
module StoreModule {
  import opened Wrappers
  import opened Actions
  import opened PluginJob
  import opened HookSteps
  import opened EventKeys
  import opened Barrier
  import opened PowerWorld

  /** A session index: of a single-session job, or the reservation of one barrier target. */
  datatype SessionIndex = Legacy(jobID: string) | Reserved(jobID: string, bindingID: string)

  datatype Error = NoError | NotFound | Invalid | Conflict | Unwritable

  /** A committed barrier that is active or has an action pending. */
  predicate Owning(job: Job) {
    job.terms.policy == AfterAllStop && job.reservationsCommitted && (job.state.IsActive() || job.Unresolved())
  }

  predicate HasTarget(job: Job, session: Hash) {
    exists i :: 0 <= i < |job.stopTargets| && job.stopTargets[i].sessionHash == session
  }

  /** The index of session `h` is the job's own reservation. */
  predicate HoldsIndex(job: Job, index: map<Hash, SessionIndex>, h: Hash) {
    h in index && index[h] == Reserved(job.terms.jobID, job.terms.targetBindingID)
  }

  predicate OwnsTargets(job: Job, index: map<Hash, SessionIndex>) {
    forall i :: 0 <= i < |job.stopTargets| ==> HoldsIndex(job, index, job.stopTargets[i].sessionHash)
  }

  predicate Ownership(jobs: map<string, Job>, index: map<Hash, SessionIndex>) {
    forall id :: id in jobs ==> jobs[id].terms.jobID == id && (Owning(jobs[id]) ==> OwnsTargets(jobs[id], index))
  }

  /** Two committed barriers that are active or unresolved never share a target. */
  lemma NoSharedTarget(jobs: map<string, Job>, index: map<Hash, SessionIndex>, a: string, b: string, session: Hash)
    requires Ownership(jobs, index) && a in jobs && b in jobs && Owning(jobs[a]) && Owning(jobs[b])
    requires HasTarget(jobs[a], session) && HasTarget(jobs[b], session)
    ensures a == b
  {
    var i :| 0 <= i < |jobs[a].stopTargets| && jobs[a].stopTargets[i].sessionHash == session;
    var k :| 0 <= k < |jobs[b].stopTargets| && jobs[b].stopTargets[k].sessionHash == session;
    assert HoldsIndex(jobs[a], index, session) && HoldsIndex(jobs[b], index, session);
  }

  /** No owning barrier holds the index of session `h`. */
  predicate Unowned(jobs: map<string, Job>, h: Hash) {
    forall id :: id in jobs && Owning(jobs[id]) ==> !HasTarget(jobs[id], h)
  }

  /** Everything a write of an existing job keeps: its identity, its targets and what it does not own. */
  predicate SameReservation(before: Job, after: Job) {
    && after.terms == before.terms
    && after.reservationsCommitted == before.reservationsCommitted
    && |after.stopTargets| == |before.stopTargets|
    && (forall i :: 0 <= i < |before.stopTargets| ==>
          after.stopTargets[i].sessionHash == before.stopTargets[i].sessionHash)
    && (Owning(after) ==> Owning(before))
  }

  predicate ShouldRelease(job: Job) {
    job.terms.policy == AfterAllStop && job.state.IsTerminal() && !job.Unresolved()
  }

  function Committed(job: Job, now: nat): Job {
    job.(reservationsCommitted := true, updatedAt := now)
  }

  function PartialReservation(job: Job): Job {
    job.(generation := job.generation + 1, state := HookUnavailable, reasonCode := "barrier_reservation_partial")
  }

  // ---------------------------------------------------------------- single writes

  lemma WriteIndexKeeps(jobs: map<string, Job>, index: map<Hash, SessionIndex>, h: Hash, entry: SessionIndex)
    requires Ownership(jobs, index) && Unowned(jobs, h)
    ensures Ownership(jobs, index[h := entry])
  {
    forall id | id in jobs && Owning(jobs[id]) ensures OwnsTargets(jobs[id], index[h := entry]) {
      forall i | 0 <= i < |jobs[id].stopTargets|
        ensures HoldsIndex(jobs[id], index[h := entry], jobs[id].stopTargets[i].sessionHash)
      {
        assert HoldsIndex(jobs[id], index, jobs[id].stopTargets[i].sessionHash);
      }
    }
  }

  lemma RemoveIndexKeeps(jobs: map<string, Job>, index: map<Hash, SessionIndex>, h: Hash)
    requires Ownership(jobs, index) && Unowned(jobs, h)
    ensures Ownership(jobs, index - {h})
  {
    forall id | id in jobs && Owning(jobs[id]) ensures OwnsTargets(jobs[id], index - {h}) {
      forall i | 0 <= i < |jobs[id].stopTargets|
        ensures HoldsIndex(jobs[id], index - {h}, jobs[id].stopTargets[i].sessionHash)
      {
        assert HoldsIndex(jobs[id], index, jobs[id].stopTargets[i].sessionHash);
      }
    }
  }

  lemma WriteJobKeeps(jobs: map<string, Job>, index: map<Hash, SessionIndex>, job: Job)
    requires Ownership(jobs, index) && (Owning(job) ==> OwnsTargets(job, index))
    ensures Ownership(jobs[job.terms.jobID := job], index)
  {
  }

  lemma SameReservationOwns(before: Job, after: Job, index: map<Hash, SessionIndex>)
    requires SameReservation(before, after) && OwnsTargets(before, index)
    ensures OwnsTargets(after, index)
  {
    forall i | 0 <= i < |after.stopTargets| ensures HoldsIndex(after, index, after.stopTargets[i].sessionHash) {
      assert HoldsIndex(before, index, before.stopTargets[i].sessionHash);
    }
  }

  /** An index that names a job which owns nothing is nobody's reservation. */
  lemma IndexOfNonOwner(jobs: map<string, Job>, index: map<Hash, SessionIndex>, h: Hash)
    requires Ownership(jobs, index)
    requires h in index ==> index[h].jobID in jobs && !Owning(jobs[index[h].jobID])
    ensures Unowned(jobs, h)
  {
    forall id | id in jobs && Owning(jobs[id]) && HasTarget(jobs[id], h) ensures HoldsIndex(jobs[id], index, h) {
      OwnerHoldsIndex(jobs, index, id, h);
    }
  }

  lemma OwnerHoldsIndex(jobs: map<string, Job>, index: map<Hash, SessionIndex>, id: string, h: Hash)
    requires Ownership(jobs, index) && id in jobs && Owning(jobs[id]) && HasTarget(jobs[id], h)
    ensures HoldsIndex(jobs[id], index, h)
  {
    var i :| 0 <= i < |jobs[id].stopTargets| && jobs[id].stopTargets[i].sessionHash == h;
  }

  lemma NewJobIsUnowned(jobs: map<string, Job>, job: Job, h: Hash)
    requires Unowned(jobs, h) && !Owning(job)
    ensures Unowned(jobs[job.terms.jobID := job], h)
  {
  }

  // ---------------------------------------------------------------- the store

  class Store {
    var jobs: map<string, Job>
    var index: map<Hash, SessionIndex>

    constructor ()
      ensures jobs == map[] && index == map[] && Ownership(jobs, index)
    {
      jobs, index := map[], map[];
    }

    /** removeMatchingSessionIndexUnlocked. */
    method RemoveMatchingIndex(h: Hash, jobID: string, bindingID: string)
      requires Ownership(jobs, index) && jobID in jobs && !Owning(jobs[jobID])
      modifies this`index
      ensures Ownership(jobs, index)
      ensures index ==
        if h in old(index) && old(index)[h] == Reserved(jobID, bindingID) then old(index) - {h} else old(index)
    {
      if h in index && index[h] == Reserved(jobID, bindingID) {
        IndexOfNonOwner(jobs, index, h);
        RemoveIndexKeeps(jobs, index, h);
        index := index - {h};
      }
    }

    /**
     releaseBarrierIndexesUnlocked, with a death possible after every removal: only reservations of this job
     and binding are removed, so a late release never takes another job's index.
     */
    method ReleaseIndexes(jobID: string) returns (life: Life)
      requires Ownership(jobs, index) && jobID in jobs && !Owning(jobs[jobID])
      modifies this`index
      ensures Ownership(jobs, index)
      ensures forall h :: h in index ==> h in old(index) && index[h] == old(index)[h]
      ensures forall h :: h in old(index) && old(index)[h] != Reserved(jobID, jobs[jobID].terms.targetBindingID) ==>
        h in index
      ensures life.Alive? ==> forall i :: 0 <= i < |jobs[jobID].stopTargets| ==>
        !HoldsIndex(jobs[jobID], index, jobs[jobID].stopTargets[i].sessionHash)
    {
      var job := jobs[jobID];
      var i := 0;
      while i < |job.stopTargets|
        invariant 0 <= i <= |job.stopTargets| && Ownership(jobs, index)
        invariant forall h :: h in index ==> h in old(index) && index[h] == old(index)[h]
        invariant forall h :: h in old(index) && old(index)[h] != Reserved(jobID, job.terms.targetBindingID) ==>
          h in index
        invariant forall k :: 0 <= k < i ==> !HoldsIndex(job, index, job.stopTargets[k].sessionHash)
      {
        var dies: bool := *;
        if dies { return Crashed; }
        RemoveMatchingIndex(job.stopTargets[i].sessionHash, jobID, job.terms.targetBindingID);
        i := i + 1;
      }
      return Alive;
    }

    /** Validate, write the job file, and release its indexes once it is closed. */
    method Persist(id: string, next: Job) returns (life: Life, err: Error)
      requires Ownership(jobs, index) && id in jobs && SameReservation(jobs[id], next)
      modifies this
      ensures Ownership(jobs, index)
      ensures jobs == old(jobs) || (Valid(next) && jobs == old(jobs)[id := next])
      ensures life.Alive? && err == NoError ==> jobs == old(jobs)[id := next]
      ensures !ShouldRelease(next) ==> index == old(index)
      ensures forall h :: h in old(index) && old(index)[h] != Reserved(id, next.terms.targetBindingID) ==>
        h in index && index[h] == old(index)[h]
    {
      if !Valid(next) { return Alive, Invalid; }
      var written: bool := *;
      if !written { return Alive, Unwritable; }
      if Owning(next) { SameReservationOwns(jobs[id], next, index); }
      WriteJobKeeps(jobs, index, next);
      jobs := jobs[id := next];
      life, err := Alive, NoError;
      if ShouldRelease(next) {
        life := ReleaseIndexes(id);
      }
    }

    /** UpdateJob: at most one application of an event key, and only what Validate accepts. */
    method UpdateJob(id: string, key: Option<Hash>, mutate: Job -> Option<Job>, now: nat)
      returns (life: Life, err: Error, applied: bool)
      requires Ownership(jobs, index)
      requires id in jobs && mutate(jobs[id]).Some? ==> SameReservation(jobs[id], mutate(jobs[id]).value)
      modifies this
      ensures Ownership(jobs, index)
      ensures life.Alive? && applied && key.Some? ==>
        id in old(jobs) && Applies(old(jobs)[id].terms.policy, old(jobs)[id].eventKeys, key.value)
      ensures life.Alive? && applied ==>
        && id in old(jobs) && mutate(old(jobs)[id]).Some? && id in jobs
        && jobs[id] == Stamped(mutate(old(jobs)[id]).value, old(jobs)[id].eventKeys, key, now).value
      ensures !applied && life.Alive? && err == NoError ==> jobs == old(jobs) && index == old(index)
      ensures jobs == old(jobs) ||
        (&& id in old(jobs) && mutate(old(jobs)[id]).Some?
         && (key.Some? ==> key.value !in old(jobs)[id].eventKeys)
         && Stamped(mutate(old(jobs)[id]).value, old(jobs)[id].eventKeys, key, now).Some?
         && jobs == old(jobs)[id := Stamped(mutate(old(jobs)[id]).value, old(jobs)[id].eventKeys, key, now).value])
    {
      life, err, applied := Alive, NotFound, false;
      if id !in jobs { return; }
      var job := jobs[id];
      err := NoError;
      if key.Some? && key.value in job.eventKeys { return; }
      var next := mutate(job);
      if next.None? { err := Invalid; return; }
      var stamped := Stamped(next.value, job.eventKeys, key, now);
      if stamped.None? { err := Invalid; return; }
      StampedReservation(job, next.value, key, now);
      life, err := Persist(id, stamped.value);
      applied := err == NoError;
    }

    // -------------------------------------------------------------- reservations

    /**
     The first loop of CreateBarrierReservations. It refuses exactly over an index of an active or unresolved
     job; only the reservation of a barrier that never committed is swept aside.
     */
    method InspectTargets(job: Job) returns (life: Life, err: Error)
      requires Ownership(jobs, index)
      modifies this`index
      ensures Ownership(jobs, index)
      ensures life.Alive? && err == NoError ==>
        forall k :: 0 <= k < |job.stopTargets| ==>
          Unowned(jobs, job.stopTargets[k].sessionHash) && !Refuses(jobs, old(index), job.stopTargets[k].sessionHash)
      ensures life.Alive? && err == Conflict ==>
        exists k :: 0 <= k < |job.stopTargets| && Refuses(jobs, old(index), job.stopTargets[k].sessionHash)
      ensures forall h :: h in index ==> h in old(index) && index[h] == old(index)[h]
    {
      hide Ownership;
      hide Unowned;
      hide OwnsTargets;
      life, err := Alive, NoError;
      var i := 0;
      while i < |job.stopTargets|
        invariant 0 <= i <= |job.stopTargets| && Ownership(jobs, index) && life.Alive? && err == NoError
        invariant forall k :: 0 <= k < i ==>
          Unowned(jobs, job.stopTargets[k].sessionHash) && !Refuses(jobs, old(index), job.stopTargets[k].sessionHash)
        invariant forall h :: h in index ==> h in old(index) && index[h] == old(index)[h]
        invariant forall h :: h in old(index) && h !in index ==> !Refuses(jobs, old(index), h)
      {
        var h := job.stopTargets[i].sessionHash;
        if h in index {
          var entry := index[h];
          if entry.jobID !in jobs { return Alive, Invalid; }
          var existing := jobs[entry.jobID];
          if existing.terms.policy == AfterAllStop && !existing.reservationsCommitted
             && entry == Reserved(entry.jobID, existing.terms.targetBindingID) {
            IndexOfNonOwner(jobs, index, h);
            RemoveMatchingIndex(h, entry.jobID, existing.terms.targetBindingID);
            var dies: bool := *;
            if dies { return Crashed, NoError; }
          } else if existing.state.IsActive() || existing.Unresolved() {
            assert Refuses(jobs, old(index), h);
            return Alive, Conflict;
          }
        }
        IndexOfNonOwner(jobs, index, h);
        i := i + 1;
      }
    }

    /**
     CreateBarrierReservations: the job file, one index per target, then the commit. The process may die after
     any write and any write may fail, and still a committed barrier owns every one of its targets.
     */
    method CreateBarrierReservations(job: Job, sessions: seq<string>, now: nat) returns (life: Life, err: Error)
      requires Ownership(jobs, index)
      modifies this
      ensures Ownership(jobs, index)
      ensures OnlyAt(job.terms.jobID, old(jobs), jobs)
      ensures life.Alive? && err == NoError ==> job.terms.jobID !in old(jobs) && Reserves(job, now, jobs, index)
      ensures life.Alive? && err == Conflict ==>
        exists k :: 0 <= k < |job.stopTargets| && Refuses(old(jobs), old(index), job.stopTargets[k].sessionHash)
      ensures life.Alive? && err == NoError ==>
        forall k :: 0 <= k < |job.stopTargets| ==> !Refuses(old(jobs), old(index), job.stopTargets[k].sessionHash)
      ensures job.terms.jobID in old(jobs) ==> jobs == old(jobs)
      ensures job.terms.jobID in jobs && jobs != old(jobs) ==> OpenOwner(jobs[job.terms.jobID])
    {
      hide Ownership;
      hide Reserves;
      hide Unowned;
      hide Refuses;
      hide OpenOwner;
      life, err := Alive, Invalid;
      if job.terms.policy != AfterAllStop || job.state != ArmPendingBind { return; }
      if job.reservationsCommitted || job.indexesReady || |sessions| != |job.stopTargets| { return; }
      if exists i :: 0 <= i < |sessions| && Sha256(sessions[i]) != job.stopTargets[i].sessionHash { return; }
      if !Valid(job) || job.terms.jobID in jobs { return; }
      life, err := InspectTargets(job);
      if life.Crashed? || err != NoError { return; }
      life, err := Reserve(job, now);
    }

    /** The writes of CreateBarrierReservations, once every target is known to be free. */
    method Reserve(job: Job, now: nat) returns (life: Life, err: Error)
      requires Ownership(jobs, index) && job.terms.jobID !in jobs
      requires job.terms.policy == AfterAllStop && job.state == ArmPendingBind && !job.reservationsCommitted
      requires forall k :: 0 <= k < |job.stopTargets| ==> Unowned(jobs, job.stopTargets[k].sessionHash)
      modifies this
      ensures Ownership(jobs, index)
      ensures OnlyAt(job.terms.jobID, old(jobs), jobs)
      ensures life.Alive? ==> err == NoError || err == Unwritable
      ensures life.Alive? && err == NoError ==> Reserves(job, now, jobs, index)
      ensures job.terms.jobID in jobs ==> OpenOwner(jobs[job.terms.jobID])
    {
      hide OpenOwner;
      ReservationIsOpen(job, now);
      hide Ownership;
      hide Unowned;
      hide Valid;
      hide Owning;
      hide Reserves;
      life, err := Alive, Unwritable;
      var written: bool := *;
      if !written { return; }
      assert !Owning(job) by { UncommittedOwnsNothing(job); }
      WriteJobKeeps(jobs, index, job);
      forall k | 0 <= k < |job.stopTargets|
        ensures Unowned(jobs[job.terms.jobID := job], job.stopTargets[k].sessionHash)
      {
        NewJobIsUnowned(jobs, job, job.stopTargets[k].sessionHash);
      }
      jobs := jobs[job.terms.jobID := job];
      var dies: bool := *;
      if dies { return Crashed, NoError; }
      life, err := ReserveTargets(job, now);
    }

    /** One index per target, then the commit. */
    method ReserveTargets(job: Job, now: nat) returns (life: Life, err: Error)
      requires Ownership(jobs, index) && job.terms.jobID in jobs && jobs[job.terms.jobID] == job
      requires job.terms.policy == AfterAllStop && job.state == ArmPendingBind && !job.reservationsCommitted
      requires forall k :: 0 <= k < |job.stopTargets| ==> Unowned(jobs, job.stopTargets[k].sessionHash)
      modifies this
      ensures Ownership(jobs, index)
      ensures OnlyAt(job.terms.jobID, old(jobs), jobs)
      ensures life.Alive? ==> err == NoError || err == Unwritable
      ensures life.Alive? && err == NoError ==> Reserves(job, now, jobs, index)
      ensures job.terms.jobID in jobs && OpenOwner(jobs[job.terms.jobID])
    {
      hide OpenOwner;
      ReservationIsOpen(job, now);
      hide Ownership;
      hide Committed;
      hide PartialReservation;
      hide Unowned;
      hide Valid;
      hide HoldsIndex;
      hide Owning;
      err := Unwritable;
      var count;
      life, count := WriteReservations(job);
      if life.Crashed? { return; }
      var committed: bool := *;
      if count < |job.stopTargets| || !Valid(Committed(job, now)) || !committed {
        life := FailReservation(job, count);
        return;
      }
      CommittedOwns(job, now, index);
      WriteJobKeeps(jobs, index, Committed(job, now));
      jobs := jobs[job.terms.jobID := Committed(job, now)];
      var dies: bool := *;
      life, err := if dies then Crashed else Alive, NoError;
    }

    /** The second loop: how many indexes were written before the first failure. */
    method WriteReservations(job: Job) returns (life: Life, count: nat)
      requires Ownership(jobs, index)
      requires forall k :: 0 <= k < |job.stopTargets| ==> Unowned(jobs, job.stopTargets[k].sessionHash)
      modifies this`index
      ensures Ownership(jobs, index) && count <= |job.stopTargets|
      ensures forall k :: 0 <= k < count ==> HoldsIndex(job, index, job.stopTargets[k].sessionHash)
    {
      life, count := Alive, 0;
      while count < |job.stopTargets|
        invariant count <= |job.stopTargets| && Ownership(jobs, index) && life.Alive?
        invariant forall k :: 0 <= k < count ==> HoldsIndex(job, index, job.stopTargets[k].sessionHash)
      {
        var written: bool := *;
        if !written { return; }
        var h := job.stopTargets[count].sessionHash;
        WriteIndexKeeps(jobs, index, h, Reserved(job.terms.jobID, job.terms.targetBindingID));
        index := index[h := Reserved(job.terms.jobID, job.terms.targetBindingID)];
        count := count + 1;
        var dies: bool := *;
        if dies { return Crashed, count; }
      }
    }

    /** failBarrierReservationUnlocked: close the job if it can be written, and take back what was reserved. */
    method FailReservation(job: Job, count: nat) returns (life: Life)
      requires Ownership(jobs, index) && job.terms.jobID in jobs && jobs[job.terms.jobID] == job
      requires !job.reservationsCommitted
      requires count <= |job.stopTargets|
      modifies this
      ensures Ownership(jobs, index)
      ensures OnlyAt(job.terms.jobID, old(jobs), jobs)
      ensures job.terms.jobID in jobs
      ensures jobs[job.terms.jobID] == job || jobs[job.terms.jobID] == PartialReservation(job)
    {
      var id := job.terms.jobID;
      var written: bool := *;
      if written {
        WriteJobKeeps(jobs, index, PartialReservation(job));
        jobs := jobs[id := PartialReservation(job)];
      }
      ghost var after := jobs;
      var i := 0;
      while i < count
        invariant Ownership(jobs, index) && jobs == after
      {
        var dies: bool := *;
        if dies { return Crashed; }
        RemoveMatchingIndex(job.stopTargets[i].sessionHash, id, job.terms.targetBindingID);
        i := i + 1;
      }
      return Alive;
    }

    // -------------------------------------------------------------- binding

    /** findBySessionUnlocked. */
    function FindBySession(sessionID: string): Found
      reads this
    {
      var h := Sha256(sessionID);
      if h !in index then Missing
      else if index[h].jobID !in jobs then Broken
      else
        var job := jobs[index[h].jobID];
        if index[h].Legacy? then
          if job.sessionID != sessionID || job.terms.policy == AfterAllStop then Broken else FoundJob(job)
        else if job.terms.policy != AfterAllStop || job.terms.targetBindingID != index[h].bindingID
                || !HasTarget(job, h) then Broken
        else FoundJob(job)
    }

    /**
     BindSession of a single-session job. The arm hook that binds it for the first time takes over the session
     index only from a job that is no longer active: every barrier keeps its targets if and only if no ORPHANED
     barrier with an action pending has that session. A later hook of the same arm rewrites the index whoever has
     it by then: ownership survives exactly if no committed barrier owned that session.
     */
    method BindSession(id: string, sessionID: string, turnID: string, workspace: Path, key: Option<Hash>, now: nat)
      returns (life: Life, err: Error, ghost rewrote: bool)
      requires Ownership(jobs, index) && sessionID != "" && turnID != ""
      requires id in jobs ==> jobs[id].terms.policy != AfterAllStop
      modifies this
      ensures !rewrote ==> Ownership(jobs, index)
      ensures rewrote ==>
        && id in old(jobs) && index == old(index)[Sha256(sessionID) := Legacy(id)]
        && (Ownership(jobs, index) <==> Unowned(old(jobs), Sha256(sessionID)))
      ensures rewrote && AwaitsBind(old(jobs)[id]) ==>
        && OwnersAreTerminal(old(jobs), Sha256(sessionID))
        && (Ownership(jobs, index) <==> NoOrphanOwns(old(jobs), Sha256(sessionID)))
      ensures ChangesAt(id, old(jobs), jobs)
    {
      hide Ownership;
      hide Unowned;
      hide OwnersAreTerminal;
      hide NoOrphanOwns;
      hide ChangesAt;
      hide Valid;
      hide Stamped;
      life, err, rewrote := Alive, NotFound, false;
      ChangesNothing(jobs, id);
      if id !in jobs { return; }
      var job := jobs[id];
      var h := Sha256(sessionID);
      if key.Some? && key.value in job.eventKeys {
        err := NoError;
        if job.sessionID == sessionID { rewrote := WriteSessionIndex(h, id); }
        return;
      }
      IdentityKept(jobs, index, id);
      var next;
      err, next := NextBinding(job, sessionID, turnID, workspace, now);
      if err != NoError { return; }
      var stamped := Stamped(next, job.eventKeys, key, now);
      if stamped.None? || !Valid(stamped.value) { err := Invalid; return; }
      var written: bool := *;
      if !written { err := Unwritable; return; }
      StampedKeeps(next, job.eventKeys, key, now);
      LegacyOwnsNothing(jobs, index, job, stamped.value, h);
      ChangesOne(jobs, id, stamped.value);
      if AwaitsBind(job) && next.sessionID != "" { OnlyOrphansAreDisplaced(jobs, h); }
      jobs := jobs[id := stamped.value];
      var dies: bool := *;
      if dies { return Crashed, NoError, false; }
      if stamped.value.sessionID != "" { rewrote := WriteSessionIndex(h, id); }
    }

    /** What an arm hook makes of the job it names. */
    method NextBinding(job: Job, sessionID: string, turnID: string, workspace: Path, now: nat)
      returns (err: Error, next: Job)
      requires Ownership(jobs, index) && sessionID != ""
      requires job.terms.policy != AfterAllStop && job.terms.jobID in jobs && jobs[job.terms.jobID] == job
      ensures err == NoError ==> next.terms == job.terms
      ensures err == NoError && AwaitsBind(job) ==>
        next.sessionID == "" || OwnersAreTerminal(jobs, Sha256(sessionID))
    {
      hide Ownership;
      hide OwnersAreTerminal;
      hide HasTarget;
      next := job;
      if job.state.IsActive() && !job.state.IsPower() && job.ExpiredAt(now) { return NoError, LateArm(job); }
      if job.state == ArmPendingBind {
        if job.terms.policy == AfterStop && !job.terms.dryRun && !workspace.Absolute? { return Invalid, job; }
        if job.terms.policy == VerifiedSuccess && !WorkspaceMatches(job.workspace, workspace) { return Invalid, job; }
        var found := FindBySession(sessionID);
        if found.Broken? { return Invalid, job; }
        if found.FoundJob? && found.job.terms.jobID != job.terms.jobID && found.job.state.IsActive() {
          return Conflict, job;
        }
        FirstBindDisplaces(this, job, sessionID);
        return NoError, SessionBound(job, sessionID, turnID, workspace);
      }
      err := if job.sessionID != sessionID || job.armTurnID != turnID then Invalid else NoError;
    }

    method WriteSessionIndex(h: Hash, id: string) returns (rewrote: bool)
      requires Ownership(jobs, index)
      modifies this`index
      ensures rewrote ==> index == old(index)[h := Legacy(id)] && (Ownership(jobs, index) <==> Unowned(jobs, h))
      ensures !rewrote ==> index == old(index)
    {
      rewrote := *;
      if rewrote {
        LegacyIndexKeepsExactly(jobs, index, h, id);
        index := index[h := Legacy(id)];
      }
    }

    /** bindBarrierControllerUnlocked: the arm hook opens a barrier whose indexes are all still its own. */
    method BindBarrierController(id: string, sessionID: string, turnID: string, workspace: Path, key: Option<Hash>,
                                 now: nat)
      returns (life: Life, err: Error)
      requires Ownership(jobs, index) && id in jobs && jobs[id].terms.policy == AfterAllStop
      modifies this
      ensures Ownership(jobs, index)
      ensures life.Alive? && err == NoError && !(key.Some? && key.value in old(jobs)[id].eventKeys) ==>
        id in jobs &&
        (old(jobs)[id].state == ArmPendingBind && !old(jobs)[id].indexesReady && !old(jobs)[id].ExpiredAt(now) ==>
          (jobs[id].indexesReady <==>
             old(jobs)[id].reservationsCommitted && workspace.Absolute? && OwnsTargets(old(jobs)[id], old(index)))
          && (jobs[id].indexesReady ==> jobs[id].controllerSession == Sha256(sessionID) && jobs[id].armObserved)
          && (jobs[id].indexesReady || jobs[id].state.IsTerminal()))
      ensures ChangesAt(id, old(jobs), jobs)
    {
      hide ChangesAt;
      hide GrowsFrom;
      hide OpenOwner;
      ChangesNothing(jobs, id);
      hide Ownership;
      hide OwnsTargets;
      hide SameReservation;
      hide KeepsKeys;
      hide Stamped;
      hide Valid;
      life, err := Alive, NoError;
      var job := jobs[id];
      if key.Some? && key.value in job.eventKeys { return; }
      var next;
      err, next := NextController(job, Sha256(sessionID), Sha256(turnID), workspace, now);
      if err != NoError { return; }
      var stamped := Stamped(next, job.eventKeys, key, now);
      if stamped.None? { err := Invalid; return; }
      StampedReservation(job, next, key, now);
      StampedGrows(job, next, key, now);
      ChangesOne(jobs, id, stamped.value);
      StampedIndexesReady(next, job.eventKeys, key, now);
      life, err := Persist(id, stamped.value);
    }

    /** What an arm hook makes of the barrier it names. */
    method NextController(job: Job, session: Hash, turn: Hash, workspace: Path, now: nat) returns (err: Error, next: Job)
      requires job.terms.policy == AfterAllStop
      ensures err == NoError ==> SameReservation(job, next) && KeepsKeys(job, next)
      ensures err == NoError && job.state == ArmPendingBind && !job.indexesReady && !job.ExpiredAt(now) ==>
        && (next.indexesReady <==> job.reservationsCommitted && workspace.Absolute? && OwnsTargets(job, index))
        && (next.indexesReady ==> next.controllerSession == session && next.armObserved)
        && (next.indexesReady || next.state.IsTerminal())
    {
      hide SameReservation;
      hide KeepsKeys;
      hide OwnsTargets;
      hide LateArm;
      hide ControllerIncomplete;
      hide ControllerBound;
      hide Opened;
      ControllerReservation(job, session, turn, workspace);
      ControllerKeeps(job, session, turn, workspace);
      err, next := NoError, job;
      if job.state.IsActive() && !job.state.IsPower() && job.ExpiredAt(now) {
        next := LateArm(job);
      } else if job.state == ArmPendingBind {
        if !job.reservationsCommitted || !workspace.Absolute? || !OwnsTargets(job, index) {
          next := ControllerIncomplete(job);
        } else {
          next := Opened(ControllerBound(job, session, turn, workspace));
        }
      } else if job.controllerSession != session || job.controllerArmTurn != turn {
        err := Invalid;
      }
    }

    // -------------------------------------------------------------- observed events

    /** LookupObservedSession: what a hook captures before it does anything. */
    method LookupObservedSession(sessionID: string) returns (captured: Option<Captured>)
      ensures captured.Some? ==>
        && captured.value.jobID in jobs
        && ObservedBindingID(jobs[captured.value.jobID]) == captured.value.bindingID
        && Observable(jobs[captured.value.jobID])
    {
      captured := None;
      var readable: bool := *;
      var found := FindBySession(sessionID);
      if !readable || !found.FoundJob? || !Observable(found.job) { return; }
      var id := index[Sha256(sessionID)].jobID;
      captured := Some(Captured(id, ObservedBindingID(found.job)));
    }

    /** UpdateObservedSessionBinding: nothing happens unless the job is the captured one, and open. */
    method UpdateObservedSession(sessionID: string, captured: Option<Captured>, key: Option<Hash>,
                                 mutate: Job -> Option<Job>, now: nat)
      returns (life: Life, err: Error, applied: bool, ghost at: string)
      requires Ownership(jobs, index)
      requires forall id :: id in jobs && mutate(jobs[id]).Some? ==> SameReservation(jobs[id], mutate(jobs[id]).value)
      modifies this
      ensures Ownership(jobs, index)
      ensures life.Alive? && !applied && err == NoError ==> jobs == old(jobs) && index == old(index)
      ensures life.Alive? && applied ==>
        && at in old(jobs) && captured == Some(Captured(at, ObservedBindingID(old(jobs)[at])))
        && Observable(old(jobs)[at])
        && at in jobs
        && (key.Some? ==> key.value !in old(jobs)[at].eventKeys)
        && Observed(old(jobs)[at], mutate(old(jobs)[at]), key, now) == Some(jobs[at])
      ensures jobs == old(jobs) ||
        (&& at in old(jobs) && (key.Some? ==> key.value !in old(jobs)[at].eventKeys)
         && Observed(old(jobs)[at], mutate(old(jobs)[at]), key, now).Some?
         && jobs == old(jobs)[at := Observed(old(jobs)[at], mutate(old(jobs)[at]), key, now).value])
    {
      life, err, applied, at := Alive, NoError, false, "";
      var found := FindBySession(sessionID);
      if found.Broken? { err := Invalid; return; }
      if found.Missing? { return; }
      var job := found.job;
      var id := index[Sha256(sessionID)].jobID;
      at := id;
      if captured != Some(Captured(id, ObservedBindingID(job))) { return; }
      if !Observable(job) { return; }
      if key.Some? && key.value in job.eventKeys { return; }
      var stamped: Option<Job>;
      if key.Some? && job.terms.policy == AfterAllStop && |job.eventKeys| >= MAXIMUM_BARRIER_EVENT_KEYS {
        CapacityReservation(job, now);
        stamped := Some(CapacityExhausted(job).(updatedAt := now));
      } else {
        var next := mutate(job);
        if next.None? { err := Invalid; return; }
        stamped := Stamped(next.value, job.eventKeys, key, now);
        if stamped.None? { err := Invalid; return; }
        StampedReservation(job, next.value, key, now);
      }
      life, err := Persist(id, stamped.value);
      applied := err == NoError;
    }

    /** Other processes use the store; jobs and their bindings stay what they are. */
    method OthersRun()
      requires Ownership(jobs, index)
      modifies this
      ensures Ownership(jobs, index) && SameBindings(old(jobs), jobs)
    {
      var laterJobs: map<string, Job>, laterIndex: map<Hash, SessionIndex> := *, *;
      if Ownership(laterJobs, laterIndex) && SameBindings(jobs, laterJobs) {
        jobs, index := laterJobs, laterIndex;
      }
    }

    /**
     A hook event from capture to update, with the others in between. If it had any effect, then already at
     the moment of the lookup the job it changed was open: a barrier's controller had bound that very binding.
     An event captured before arm is never credited to a job created since.
     */
    method ObserveEvent(sessionID: string, key: Option<Hash>, mutate: Job -> Option<Job>, now: nat)
      returns (life: Life, err: Error, applied: bool, ghost at: string, ghost lookedUp: map<string, Job>)
      requires Ownership(jobs, index)
      requires forall job: Job :: mutate(job).Some? ==> SameReservation(job, mutate(job).value)
      modifies this
      ensures Ownership(jobs, index) && lookedUp == old(jobs)
      ensures life.Alive? && applied ==>
        && at in lookedUp && at in jobs && Observable(lookedUp[at])
        && ObservedBindingID(lookedUp[at]) == ObservedBindingID(jobs[at])
    {
      lookedUp := jobs;
      var captured := LookupObservedSession(sessionID);
      OthersRun();
      life, err, applied, at := UpdateObservedSession(sessionID, captured, key, mutate, now);
    }

    // -------------------------------------------------------------- every run

    /** What every run keeps; `applied` lists the event keys that barriers have applied so far, in order. */
    ghost predicate Serving(applied: seq<(string, Hash)>)
      reads this
    {
      Ownership(jobs, index) && OpenOwners(jobs) && KeysKnown(applied, jobs) && DistinctPairs(applied)
    }

    method ServeReservation(job: Job, sessions: seq<string>, now: nat, ghost applied: seq<(string, Hash)>)
      requires Serving(applied)
      modifies this
      ensures Serving(applied)
    {
      hide Ownership;
      hide OpenOwner;
      hide DistinctPairs;
      var life, err := CreateBarrierReservations(job, sessions, now);
    }

    /** The first arm hook of a single-session job. */
    method ServeBind(id: string, sessionID: string, turnID: string, workspace: Path, key: Option<Hash>, now: nat,
                     ghost applied: seq<(string, Hash)>)
      requires Serving(applied) && sessionID != "" && turnID != ""
      requires id in jobs && jobs[id].terms.policy != AfterAllStop && AwaitsBind(jobs[id])
      modifies this
      ensures Serving(applied)
    {
      hide Ownership;
      hide OpenOwner;
      hide DistinctPairs;
      hide ChangesAt;
      hide KeysKnown;
      hide OwnersAreTerminal;
      hide OpenOwners;
      hide NoOrphanOwns;
      ghost var before := jobs;
      var life, err;
      ghost var rewrote;
      life, err, rewrote := BindSession(id, sessionID, turnID, workspace, key, now);
      ChangeServed(applied, id, before, jobs);
      OpenOwnersAreNoOrphans(before, Sha256(sessionID));
    }

    method ServeController(id: string, sessionID: string, turnID: string, workspace: Path, key: Option<Hash>, now: nat,
                           ghost applied: seq<(string, Hash)>)
      requires Serving(applied) && id in jobs && jobs[id].terms.policy == AfterAllStop
      modifies this
      ensures Serving(applied)
    {
      hide Ownership;
      hide OpenOwners;
      hide DistinctPairs;
      hide ChangesAt;
      hide KeysKnown;
      hide OwnsTargets;
      ghost var before := jobs;
      var life, err := BindBarrierController(id, sessionID, turnID, workspace, key, now);
      ChangeServed(applied, id, before, jobs);
    }

    method ServeUpdate(id: string, key: Option<Hash>, mutate: Job -> Option<Job>, now: nat,
                       ghost applied: seq<(string, Hash)>)
      returns (ghost later: seq<(string, Hash)>)
      requires Serving(applied)
      requires forall job: Job :: mutate(job).Some? ==> Maintains(job, mutate(job).value)
      modifies this
      ensures Serving(later)
      ensures later == applied || (key.Some? && later == applied + [(id, key.value)])
    {
      hide Ownership;
      hide OpenOwners;
      hide DistinctPairs;
      hide KeysKnown;
      hide Stamped;
      hide SameReservation;
      hide KeepsKeys;
      ghost var before := jobs;
      var life, err, did := UpdateJob(id, key, mutate, now);
      later := applied;
      if jobs != before {
        UpdateServed(before[id], mutate(before[id]).value, key, now);
        later := NewlyApplied(applied, id, key, before, jobs);
      }
    }

    method ServeEvent(sessionID: string, captured: Option<Captured>, key: Option<Hash>, mutate: Job -> Option<Job>,
                      now: nat,
                      ghost applied: seq<(string, Hash)>)
      returns (ghost later: seq<(string, Hash)>)
      requires Serving(applied)
      requires forall job: Job :: mutate(job).Some? ==> Maintains(job, mutate(job).value)
      modifies this
      ensures Serving(later)
    {
      hide Ownership;
      hide OpenOwners;
      hide DistinctPairs;
      hide KeysKnown;
      hide Observed;
      hide SameReservation;
      hide KeepsKeys;
      ghost var before := jobs;
      var life, err, did;
      ghost var at;
      life, err, did, at := UpdateObservedSession(sessionID, captured, key, mutate, now);
      later := applied;
      if jobs != before {
        EventServed(before[at], mutate(before[at]), key, now);
        later := NewlyApplied(applied, at, key, before, jobs);
      }
    }

    /**
     Any number of operations of any processes, each of which may die between two of its writes: reservations,
     first binds, controller binds, updates, and hook events whose lookup may be any number of operations old.
     Every committed barrier that is active or has an action pending owns all its targets throughout, and no
     barrier ever applies an event key twice.
     */
    method Serve(requests: nat, mutations: seq<Job -> Option<Job>>) returns (ghost applied: seq<(string, Hash)>)
      requires Ownership(jobs, index) && OpenOwners(jobs)
      requires forall i, job: Job :: 0 <= i < |mutations| && mutations[i](job).Some? ==>
        Maintains(job, mutations[i](job).value)
      modifies this
      ensures Serving(applied)
    {
      hide Serving;
      hide Maintains;
      applied := [];
      StartServing(this);
      var lookups: seq<(string, Option<Captured>)> := [];
      for r := 0 to requests
        invariant Serving(applied)
      {
        var kind: nat, i: nat, k: nat, now: nat := *, *, *, *;
        var id: string, sessionID: string, turnID: string, workspace: Path, key: Option<Hash> := *, *, *, *, *;
        if kind == 0 {
          var job: Job, sessions: seq<string> := *, *;
          ServeReservation(job, sessions, now, applied);
        } else if kind == 1 && id in jobs && jobs[id].terms.policy != AfterAllStop && AwaitsBind(jobs[id])
                  && sessionID != "" && turnID != "" {
          ServeBind(id, sessionID, turnID, workspace, key, now, applied);
        } else if kind == 2 && id in jobs && jobs[id].terms.policy == AfterAllStop {
          ServeController(id, sessionID, turnID, workspace, key, now, applied);
        } else if kind == 3 && k < |mutations| {
          applied := ServeUpdate(id, key, mutations[k], now, applied);
        } else if kind == 4 {
          var captured := LookupObservedSession(sessionID);
          lookups := lookups + [(sessionID, captured)];
        } else if kind == 5 && k < |mutations| && i < |lookups| {
          applied := ServeEvent(lookups[i].0, lookups[i].1, key, mutations[k], now, applied);
        }
      }
    }
  }

  datatype Found = Missing | Broken | FoundJob(job: Job)

  datatype Captured = Captured(jobID: string, bindingID: string)

  /** Reservations do not make events causal: a barrier is observable once its controller's arm hook opened it. */
  predicate Observable(job: Job) {
    job.terms.policy == AfterAllStop ==> job.reservationsCommitted && job.indexesReady && job.armObserved
  }

  /** What an event makes of the job it was captured for: a barrier with a full key list takes no more of them. */
  function Observed(job: Job, next: Option<Job>, key: Option<Hash>, now: nat): Option<Job> {
    if key.Some? && job.terms.policy == AfterAllStop && |job.eventKeys| >= MAXIMUM_BARRIER_EVENT_KEYS then
      Some(CapacityExhausted(job).(updatedAt := now))
    else if next.None? then None
    else Stamped(next.value, job.eventKeys, key, now)
  }

  predicate SameBindings(before: map<string, Job>, after: map<string, Job>) {
    forall id :: id in before ==> id in after && after[id].terms == before[id].terms
  }

  /** The session's index belongs to a job that is active or has an action pending. */
  predicate Claimed(jobs: map<string, Job>, index: map<Hash, SessionIndex>, h: Hash) {
    h in index && index[h].jobID in jobs && (jobs[index[h].jobID].state.IsActive() || jobs[index[h].jobID].Unresolved())
  }

  /** ... and is not merely the leftover of a barrier that never committed its reservations. */
  predicate Refuses(jobs: map<string, Job>, index: map<Hash, SessionIndex>, h: Hash) {
    && Claimed(jobs, index, h)
    && var job := jobs[index[h].jobID];
       !(job.terms.policy == AfterAllStop && !job.reservationsCommitted
         && index[h] == Reserved(index[h].jobID, job.terms.targetBindingID))
  }

  /** A store step that touches no other job's file. */
  ghost predicate OnlyAt(id: string, before: map<string, Job>, after: map<string, Job>) {
    forall x :: x != id ==> (x in after <==> x in before) && (x in after ==> after[x] == before[x])
  }

  predicate Reserves(job: Job, now: nat, jobs: map<string, Job>, index: map<Hash, SessionIndex>) {
    && job.terms.jobID in jobs && jobs[job.terms.jobID] == Committed(job, now)
    && Owning(Committed(job, now)) && OwnsTargets(Committed(job, now), index)
  }

  lemma UncommittedOwnsNothing(job: Job)
    requires !job.reservationsCommitted
    ensures !Owning(job)
  {
  }

  /** Whatever stage a reservation dies at, its job is active or owns nothing. */
  lemma ReservationIsOpen(job: Job, now: nat)
    requires job.state == ArmPendingBind && !job.reservationsCommitted
    ensures OpenOwner(job) && OpenOwner(Committed(job, now)) && OpenOwner(PartialReservation(job))
  {
  }

  lemma CommittedOwns(job: Job, now: nat, index: map<Hash, SessionIndex>)
    requires job.terms.policy == AfterAllStop && job.state == ArmPendingBind && OwnsTargets(job, index)
    ensures Owning(Committed(job, now)) && OwnsTargets(Committed(job, now), index)
    ensures Committed(job, now).terms == job.terms
  {
    forall i | 0 <= i < |job.stopTargets|
      ensures HoldsIndex(Committed(job, now), index, job.stopTargets[i].sessionHash)
    {
      assert HoldsIndex(job, index, job.stopTargets[i].sessionHash);
    }
  }

  /** A single-session index in the place of a reservation: harmless exactly if nobody owned the session. */
  lemma LegacyIndexKeepsExactly(jobs: map<string, Job>, index: map<Hash, SessionIndex>, h: Hash, id: string)
    requires Ownership(jobs, index)
    ensures Ownership(jobs, index[h := Legacy(id)]) <==> Unowned(jobs, h)
  {
    var rewritten := index[h := Legacy(id)];
    if Unowned(jobs, h) {
      WriteIndexKeeps(jobs, index, h, Legacy(id));
    } else {
      var x :| x in jobs && Owning(jobs[x]) && HasTarget(jobs[x], h);
      var i :| 0 <= i < |jobs[x].stopTargets| && jobs[x].stopTargets[i].sessionHash == h;
      assert !HoldsIndex(jobs[x], rewritten, jobs[x].stopTargets[i].sessionHash);
      assert !OwnsTargets(jobs[x], rewritten);
    }
  }

  /** The session a first bind takes over has no active owner. */
  lemma FirstBindDisplaces(store: Store, job: Job, sessionID: string)
    requires Ownership(store.jobs, store.index)
    requires job.terms.policy != AfterAllStop && job.terms.jobID in store.jobs && store.jobs[job.terms.jobID] == job
    requires var found := store.FindBySession(sessionID);
      found.Missing? || (found.FoundJob? && (found.job.terms.jobID == job.terms.jobID || !found.job.state.IsActive()))
    ensures OwnersAreTerminal(store.jobs, Sha256(sessionID))
  {
    OwnerIsFound(store, sessionID);
  }

  predicate OwnersAreTerminal(jobs: map<string, Job>, h: Hash) {
    forall x :: x in jobs && Owning(jobs[x]) && HasTarget(jobs[x], h) ==> jobs[x].state.IsTerminal()
  }

  lemma IdentityKept(jobs: map<string, Job>, index: map<Hash, SessionIndex>, id: string)
    requires Ownership(jobs, index) && id in jobs
    ensures jobs[id].terms.jobID == id
  {
  }

  lemma StampedKeeps(job: Job, keys: seq<Hash>, key: Option<Hash>, now: nat)
    requires Stamped(job, keys, key, now).Some?
    ensures Stamped(job, keys, key, now).value.terms == job.terms
    ensures Stamped(job, keys, key, now).value.sessionID == job.sessionID
  {
    hide AppendKey;
  }

  lemma LegacyOwnsNothing(jobs: map<string, Job>, index: map<Hash, SessionIndex>, job: Job, next: Job, h: Hash)
    requires Ownership(jobs, index) && job.terms.jobID in jobs && jobs[job.terms.jobID] == job
    requires job.terms.policy != AfterAllStop && next.terms == job.terms
    ensures Ownership(jobs[job.terms.jobID := next], index)
    ensures Unowned(jobs[job.terms.jobID := next], h) <==> Unowned(jobs, h)
  {
    hide OwnsTargets;
    hide HasTarget;
    hide Job.Unresolved;
    var later := jobs[job.terms.jobID := next];
    assert forall x :: x in later ==> x in jobs && (x != job.terms.jobID ==> later[x] == jobs[x]);
  }

  /** expire of the store, for an arm hook that comes too late. */
  function LateArm(job: Job): (next: Job)
    ensures next.terms == job.terms && next.sessionID == job.sessionID
    ensures next.state == Expired && job.generation < next.generation
  {
    job.(generation := job.generation + 1, state := Expired, reasonCode := "arm_expired",
         completionEvidenceHash := "", readyTurnID := "", stopTurnID := "")
  }

  function SessionBound(job: Job, sessionID: string, turnID: string, workspace: Path): (next: Job)
    ensures next.terms == job.terms
  {
    job.(sessionID := sessionID, armTurnID := turnID, currentTurnID := turnID, armObserved := true, state := Armed,
         reasonCode := "hook_bound",
         hookCompatibility := if job.terms.policy == AfterStop then "session_bound" else job.hookCompatibility,
         workspace := if job.terms.policy == AfterStop && !job.terms.dryRun then workspace else job.workspace)
  }

  function ControllerIncomplete(job: Job): Job {
    job.(generation := job.generation + 1, state := HookUnavailable, reasonCode := "barrier_binding_incomplete",
         indexesReady := false)
  }

  function ControllerBound(job: Job, session: Hash, turn: Hash, workspace: Path): Job {
    job.(controllerSession := session, controllerArmTurn := turn, workspace := workspace, armObserved := true,
         indexesReady := true, hookCompatibility := "multi_session_bound")
  }

  /** Where a barrier stands when its controller binds. */
  function Opened(job: Job): Job {
    if !job.BarrierSatisfied() then Ended(job, Armed, "after_all_stop_barrier_partial")
    else if job.terms.dryRun then Ended(job, DryRunComplete, "after_all_stop_observed_no_action")
    else Ended(job, StopObserved, "after_all_stop_observed_awaiting_countdown")
  }

  /** A barrier whose key list is full fails closed. */
  function CapacityExhausted(job: Job): Job {
    if job.Unresolved() then Requested(job, "barrier_event_capacity_exhausted")
    else Ended(job, HookUnavailable, "barrier_event_capacity_exhausted")
  }

  // Seen from the shared machine of one power attempt, these writes take authority away or leave it alone.

  lemma LateArmReduces(job: Job)
    requires job.state.IsActive() && !job.state.IsPower()
    ensures ReducingWrite(job, LateArm(job))
  {
  }

  lemma SessionBoundReduces(job: Job, sessionID: string, turnID: string, workspace: Path)
    requires job.state == ArmPendingBind
    ensures ReducingWrite(job, SessionBound(job, sessionID, turnID, workspace))
  {
  }

  lemma EndedIsReducing(job: Job, next: Job, state: State, reason: string)
    requires !job.state.IsPower() && !state.IsPower()
    requires job.state.IsTerminal() ==> state.IsTerminal() && state != Orphaned
    requires next.terms == job.terms && next.stopTargets == job.stopTargets && SamePowerFields(job, next)
    requires next.generation == job.generation
    ensures ReducingWrite(job, Ended(next, state, reason)) && Ended(next, state, reason).terms == job.terms
  {
    EndedFields(next, state, reason);
    hide Ended;
    CountedIsReducing(job, Ended(next, state, reason));
  }

  lemma EndedFields(job: Job, state: State, reason: string)
    ensures var next := Ended(job, state, reason);
      && next.terms == job.terms && next.stopTargets == job.stopTargets && SamePowerFields(job, next)
      && next.generation == job.generation + 1 && next.state == state
  {
  }

  lemma ControllerBoundReduces(job: Job, session: Hash, turn: Hash, workspace: Path)
    requires job.state == ArmPendingBind
    ensures ReducingWrite(job, Opened(ControllerBound(job, session, turn, workspace)))
    ensures Opened(ControllerBound(job, session, turn, workspace)).terms == job.terms
  {
    var bound := ControllerBound(job, session, turn, workspace);
    EndedIsReducing(job, bound, Armed, "after_all_stop_barrier_partial");
    EndedIsReducing(job, bound, DryRunComplete, "after_all_stop_observed_no_action");
    EndedIsReducing(job, bound, StopObserved, "after_all_stop_observed_awaiting_countdown");
    hide Ended;
    hide ReducingWrite;
  }

  lemma IncompleteReduces(job: Job)
    requires job.state == ArmPendingBind
    ensures ReducingWrite(job, ControllerIncomplete(job)) && ControllerIncomplete(job).terms == job.terms
  {
  }

  lemma CapacityReduces(job: Job)
    requires job.state.IsPower() ==> !job.terms.dryRun
    ensures ReducingWrite(job, CapacityExhausted(job)) && CapacityExhausted(job).terms == job.terms
  {
    hide ReducingWrite;
    hide Ended;
    hide Requested;
    if job.Unresolved() {
      RequestedIsReducing(job, "barrier_event_capacity_exhausted");
      RequestedKeepsTerms(job, "barrier_event_capacity_exhausted");
    } else {
      EndedIsReducing(job, job, HookUnavailable, "barrier_event_capacity_exhausted");
    }
  }

  lemma RequestedKeepsTerms(job: Job, reason: string)
    ensures Requested(job, reason).terms == job.terms
  {
  }

  lemma StampedReduces(before: Job, next: Job, key: Option<Hash>, now: nat)
    requires ReducingWrite(before, next) && Stamped(next, before.eventKeys, key, now).Some?
    ensures ReducingWrite(before, Stamped(next, before.eventKeys, key, now).value)
  {
  }

  /** What the store itself makes of a job when an arm hook binds it or its key list is full. */
  predicate StoreWrite(job: Job, next: Job, sessionID: string, turnID: string, workspace: Path) {
    || (job.state.IsActive() && !job.state.IsPower() && next == LateArm(job))
    || (job.state == ArmPendingBind && job.terms.policy != AfterAllStop
        && next == SessionBound(job, sessionID, turnID, workspace))
    || (job.state == ArmPendingBind
        && (next == ControllerIncomplete(job)
            || next == Opened(ControllerBound(job, Sha256(sessionID), Sha256(turnID), workspace))))
    || next == CapacityExhausted(job)
  }

  /** The store's writes, stamped or not, are steps that need neither the machine lock nor ownership. */
  lemma StoreWriteIsAStep(a: Pid, w: World, next: Job, sessionID: string, turnID: string, workspace: Path,
                          key: Option<Hash>, now: nat)
    requires Invariant(w) && StoreWrite(w.job, next, sessionID, turnID, workspace)
    requires Stamped(next, w.job.eventKeys, key, now).Some?
    requires Valid(Stamped(next, w.job.eventKeys, key, now).value)
    ensures Step(a, w, AfterWrite(w, Stamped(next, w.job.eventKeys, key, now).value))
  {
    PowerJobsExecute(w);
    hide Valid;
    hide Invariant;
    StoreWriteReduces(w.job, next, sessionID, turnID, workspace);
    hide StoreWrite;
    StampedReduces(w.job, next, key, now);
    var after := Stamped(next, w.job.eventKeys, key, now).value;
    StampedKeeps(next, w.job.eventKeys, key, now);
    hide Stamped;
    AllowReducing(a, w, after);
    hide WriteAllowed;
    assert WriteJob(a, w, AfterWrite(w, after));
  }

  lemma StoreWriteReduces(job: Job, next: Job, sessionID: string, turnID: string, workspace: Path)
    requires StoreWrite(job, next, sessionID, turnID, workspace) && (job.state.IsPower() ==> !job.terms.dryRun)
    ensures ReducingWrite(job, next) && next.terms == job.terms
  {
    hide ReducingWrite;
    hide SessionBound;
    hide ControllerBound;
    hide ControllerIncomplete;
    hide Opened;
    hide CapacityExhausted;
    hide LateArm;
    CapacityReduces(job);
    if job.state.IsActive() && !job.state.IsPower() { LateArmReduces(job); }
    if job.state == ArmPendingBind {
      SessionBoundReduces(job, sessionID, turnID, workspace);
      ControllerBoundReduces(job, Sha256(sessionID), Sha256(turnID), workspace);
      IncompleteReduces(job);
    }
  }

  lemma EndedReservation(job: Job, state: State, reason: string)
    requires Owning(job) || state.IsTerminal()
    requires state.IsTerminal() ==> state != Orphaned
    ensures SameReservation(job, Ended(job, state, reason))
  {
  }

  lemma CapacityReservation(job: Job, now: nat)
    requires job.terms.policy == AfterAllStop
    ensures SameReservation(job, CapacityExhausted(job).(updatedAt := now))
  {
    if job.Unresolved() {
      assert Requested(job, "barrier_event_capacity_exhausted").(updatedAt := now).state == job.state;
    }
  }

  lemma LateArmReservation(job: Job)
    ensures SameReservation(job, LateArm(job))
    ensures LateArm(job).indexesReady == job.indexesReady
  {
  }

  lemma IncompleteReservation(job: Job)
    ensures SameReservation(job, ControllerIncomplete(job)) && !ControllerIncomplete(job).indexesReady
    ensures ControllerIncomplete(job).state.IsTerminal()
  {
  }

  lemma BoundReservation(job: Job, session: Hash, turn: Hash, workspace: Path)
    requires job.terms.policy == AfterAllStop && job.state == ArmPendingBind && job.reservationsCommitted
    ensures var next := Opened(ControllerBound(job, session, turn, workspace));
      SameReservation(job, next) && next.indexesReady && next.armObserved && next.controllerSession == session
  {
    var bound := ControllerBound(job, session, turn, workspace);
    assert SameReservation(job, bound) && Owning(bound);
    OpenedKeeps(bound);
    hide ControllerBound;
    hide Ended;
    EndedReservation(bound, Armed, "after_all_stop_barrier_partial");
    EndedReservation(bound, DryRunComplete, "after_all_stop_observed_no_action");
    EndedReservation(bound, StopObserved, "after_all_stop_observed_awaiting_countdown");
    SameReservationTransitive(job, bound, Opened(bound));
  }

  lemma OpenedKeeps(job: Job)
    ensures var next := Opened(job);
      && next.indexesReady == job.indexesReady && next.armObserved == job.armObserved
      && next.controllerSession == job.controllerSession
  {
    hide Ended;
    EndedKeepsBinding(job, Armed, "after_all_stop_barrier_partial");
    EndedKeepsBinding(job, DryRunComplete, "after_all_stop_observed_no_action");
    EndedKeepsBinding(job, StopObserved, "after_all_stop_observed_awaiting_countdown");
  }

  lemma EndedKeepsBinding(job: Job, state: State, reason: string)
    ensures var next := Ended(job, state, reason);
      && next.indexesReady == job.indexesReady && next.armObserved == job.armObserved
      && next.controllerSession == job.controllerSession
  {
  }

  lemma SameReservationTransitive(a: Job, b: Job, c: Job)
    requires SameReservation(a, b) && SameReservation(b, c)
    ensures SameReservation(a, c)
  {
  }

  lemma ControllerReservation(job: Job, session: Hash, turn: Hash, workspace: Path)
    requires job.terms.policy == AfterAllStop
    ensures SameReservation(job, job)
    ensures SameReservation(job, LateArm(job)) && LateArm(job).indexesReady == job.indexesReady
    ensures SameReservation(job, ControllerIncomplete(job)) && !ControllerIncomplete(job).indexesReady
    ensures ControllerIncomplete(job).state.IsTerminal()
    ensures job.state == ArmPendingBind && job.reservationsCommitted ==>
      var next := Opened(ControllerBound(job, session, turn, workspace));
      SameReservation(job, next) && next.indexesReady && next.armObserved && next.controllerSession == session
  {
    hide LateArm;
    hide ControllerIncomplete;
    LateArmReservation(job);
    IncompleteReservation(job);
    if job.state == ArmPendingBind && job.reservationsCommitted { BoundReservation(job, session, turn, workspace); }
  }

  /** The arm hooks of a barrier leave its event keys alone, and close it or leave it active. */
  lemma ControllerKeeps(job: Job, session: Hash, turn: Hash, workspace: Path)
    ensures KeepsKeys(job, job)
    ensures KeepsKeys(job, LateArm(job)) && KeepsKeys(job, ControllerIncomplete(job))
    ensures KeepsKeys(job, Opened(ControllerBound(job, session, turn, workspace)))
  {
    LateArmKeepsKeys(job);
    IncompleteKeepsKeys(job);
    var bound := ControllerBound(job, session, turn, workspace);
    assert bound.terms == job.terms && bound.eventKeys == job.eventKeys;
    hide ControllerBound;
    hide LateArm;
    hide ControllerIncomplete;
    EndedKeepsKeys(bound, Armed, "after_all_stop_barrier_partial");
    EndedKeepsKeys(bound, DryRunComplete, "after_all_stop_observed_no_action");
    EndedKeepsKeys(bound, StopObserved, "after_all_stop_observed_awaiting_countdown");
    hide Ended;
  }

  /** The same event keys, and still open. */
  predicate KeepsKeys(job: Job, next: Job) {
    next.terms == job.terms && next.eventKeys == job.eventKeys && (OpenOwner(job) ==> OpenOwner(next))
  }

  lemma LateArmKeepsKeys(job: Job)
    ensures KeepsKeys(job, LateArm(job))
  {
  }

  lemma IncompleteKeepsKeys(job: Job)
    ensures KeepsKeys(job, ControllerIncomplete(job))
  {
  }

  lemma EndedKeepsKeys(job: Job, state: State, reason: string)
    requires !state.IsPower() && state != Orphaned
    ensures KeepsKeys(job, Ended(job, state, reason)) && OpenOwner(Ended(job, state, reason))
  {
  }

  lemma CapacityGrows(job: Job, now: nat)
    requires job.terms.policy == AfterAllStop
    ensures GrowsFrom(job, CapacityExhausted(job).(updatedAt := now))
    ensures CapacityExhausted(job).(updatedAt := now).eventKeys == job.eventKeys
  {
    hide Ended;
    hide Requested;
    hide OpenOwner;
    CapacityKeepsKeys(job);
    EndedKeepsKeys(job, HookUnavailable, "barrier_event_capacity_exhausted");
    UpdatedIsOpen(CapacityExhausted(job), now);
  }

  lemma CapacityKeepsKeys(job: Job)
    ensures job.Unresolved() ==> KeepsKeys(job, Requested(job, "barrier_event_capacity_exhausted"))
  {
  }

  lemma UpdatedIsOpen(job: Job, now: nat)
    ensures OpenOwner(job.(updatedAt := now)) <==> OpenOwner(job)
  {
  }

  lemma StampedIndexesReady(job: Job, keys: seq<Hash>, key: Option<Hash>, now: nat)
    requires Stamped(job, keys, key, now).Some?
    ensures var stamped := Stamped(job, keys, key, now).value;
      && stamped.indexesReady == job.indexesReady && stamped.state == job.state
      && stamped.controllerSession == job.controllerSession && stamped.armObserved == job.armObserved
  {
    hide AppendKey;
  }

  /** The barrier hooks are mutations of the kind every run of the store is made of. */
  lemma BarrierHookKeepsReservation(job: Job, move: Move)
    requires Kept(job) && job.terms.policy == AfterAllStop && move.seen.now != ZERO_TIME
    ensures Maintains(job, StepOf(job, move))
  {
    hide Kept;
    hide StepOf;
    MoveReduces(job, move);
  }

  /** An active job that owns a session is what findBySession finds there. */
  lemma OwnerIsFound(store: Store, sessionID: string)
    requires Ownership(store.jobs, store.index)
    ensures forall x :: x in store.jobs && Owning(store.jobs[x]) && HasTarget(store.jobs[x], Sha256(sessionID)) ==>
      store.FindBySession(sessionID) == FoundJob(store.jobs[x])
  {
    forall x | x in store.jobs && Owning(store.jobs[x]) && HasTarget(store.jobs[x], Sha256(sessionID))
      ensures store.FindBySession(sessionID) == FoundJob(store.jobs[x])
    {
      OwnerHoldsIndex(store.jobs, store.index, x, Sha256(sessionID));
    }
  }

  /** The mutated job with its event key and its time; None when a barrier has no room for the key. */
  function Stamped(job: Job, keys: seq<Hash>, key: Option<Hash>, now: nat): Option<Job> {
    if key.None? then Some(job.(updatedAt := now))
    else if AppendKey(job.terms.policy, keys, key.value).None? then None
    else Some(job.(eventKeys := AppendKey(job.terms.policy, keys, key.value).value, updatedAt := now))
  }

  lemma StampedReservation(before: Job, next: Job, key: Option<Hash>, now: nat)
    requires SameReservation(before, next) && Stamped(next, before.eventKeys, key, now).Some?
    ensures SameReservation(before, Stamped(next, before.eventKeys, key, now).value)
  {
  }

  /** A single-session job that no arm hook has bound yet. */
  predicate AwaitsBind(job: Job) {
    job.state == ArmPendingBind && job.sessionID == ""
  }

  /** No ORPHANED barrier that still has an action pending has this session among its targets. */
  predicate NoOrphanOwns(jobs: map<string, Job>, h: Hash) {
    forall id :: id in jobs && Owning(jobs[id]) && jobs[id].state == Orphaned ==> !HasTarget(jobs[id], h)
  }

  /** An owner that is not active has an action pending all the same, and that takes an orphan. */
  lemma OnlyOrphansAreDisplaced(jobs: map<string, Job>, h: Hash)
    requires OwnersAreTerminal(jobs, h)
    ensures Unowned(jobs, h) <==> NoOrphanOwns(jobs, h)
  {
  }

  /** A granted barrier as it would be left if it were called ORPHANED with an intent recorded. */
  function OrphanedWithIntent(job: Job, at: nat, capabilities: Capabilities): (next: Job)
    ensures next.terms == job.terms && next.stopTargets == job.stopTargets
  {
    job.(state := Orphaned, actionIntentAt := Some(at), powerCapabilities := Some(capabilities))
  }

  /**
   Such a record is what stands between a first bind and ownership. Validate accepts it and it owns its targets,
   but it is terminal, which is all that a bind asks: any index that gives one of its sessions to a
   single-session job breaks its ownership. Schema-2 supervisors left such records; by OrphansAreResolved no
   present code does.
   */
  lemma OrphanIsDisplaced(job: Job, at: nat, capabilities: Capabilities, index: map<Hash, SessionIndex>, id: string)
    requires Valid(job) && job.terms.policy == AfterAllStop && !job.terms.dryRun && job.state == StopObserved
    ensures var orphan := OrphanedWithIntent(job, at, capabilities);
      && Valid(orphan) && Owning(orphan) && orphan.state.IsTerminal()
      && !OwnsTargets(orphan, index[orphan.stopTargets[0].sessionHash := Legacy(id)])
  {
    var orphan := OrphanedWithIntent(job, at, capabilities);
    var h := orphan.stopTargets[0].sessionHash;
    assert !HoldsIndex(orphan, index[h := Legacy(id)], orphan.stopTargets[0].sessionHash);
  }

  // ---------------------------------------------------------------- what every operation leaves alone

  /** An owning barrier is active: nothing has called it ORPHANED with an action pending. */
  predicate OpenOwner(job: Job) {
    Owning(job) ==> job.state.IsActive()
  }

  predicate OpenOwners(jobs: map<string, Job>) {
    forall id :: id in jobs ==> OpenOwner(jobs[id])
  }

  /** The same job later: same terms, no event key of a barrier forgotten, and still open if it owns anything. */
  predicate GrowsFrom(before: Job, after: Job) {
    && after.terms == before.terms
    && (before.terms.policy == AfterAllStop ==> before.eventKeys <= after.eventKeys)
    && (OpenOwner(before) ==> OpenOwner(after))
  }

  /** At most the job named `id` has changed, and it has only grown. */
  predicate ChangesAt(id: string, before: map<string, Job>, after: map<string, Job>) {
    || after == before
    || (id in before && id in after && after == before[id := after[id]] && GrowsFrom(before[id], after[id]))
  }

  lemma ChangesNothing(jobs: map<string, Job>, id: string)
    ensures ChangesAt(id, jobs, jobs)
  {
  }

  lemma ChangesOne(jobs: map<string, Job>, id: string, next: Job)
    requires id in jobs && GrowsFrom(jobs[id], next)
    ensures ChangesAt(id, jobs, jobs[id := next])
  {
  }

  /** A mutation of a job's owner, a hook or a canceller, as the store needs it. */
  predicate Maintains(job: Job, next: Job) {
    SameReservation(job, next) && KeepsKeys(job, next)
  }

  predicate KeysKnown(applied: seq<(string, Hash)>, jobs: map<string, Job>) {
    forall i :: 0 <= i < |applied| ==> KnownKey(applied[i], jobs)
  }

  predicate KnownKey(pair: (string, Hash), jobs: map<string, Job>) {
    pair.0 in jobs && jobs[pair.0].terms.policy == AfterAllStop && pair.1 in jobs[pair.0].eventKeys
  }

  predicate DistinctPairs(applied: seq<(string, Hash)>) {
    forall i, k :: 0 <= i < k < |applied| ==> applied[i] != applied[k]
  }

  lemma StartServing(store: Store)
    requires Ownership(store.jobs, store.index) && OpenOwners(store.jobs)
    ensures store.Serving([])
  {
  }

  lemma ChangeServed(applied: seq<(string, Hash)>, id: string, before: map<string, Job>, after: map<string, Job>)
    requires KeysKnown(applied, before) && OpenOwners(before) && ChangesAt(id, before, after)
    ensures KeysKnown(applied, after) && OpenOwners(after)
  {
    hide OpenOwner;
    forall i | 0 <= i < |applied| ensures KnownKey(applied[i], after) {
      assert KnownKey(applied[i], before);
    }
  }

  lemma OpenOwnersAreNoOrphans(jobs: map<string, Job>, h: Hash)
    requires OpenOwners(jobs)
    ensures NoOrphanOwns(jobs, h)
  {
  }

  /** The job has grown, and a key it did not know is the last one it knows now, if it is a barrier with room. */
  predicate Served(before: Job, after: Job, key: Option<Hash>) {
    && GrowsFrom(before, after)
    && (before.terms.policy == AfterAllStop ==>
          after.eventKeys == before.eventKeys || (key.Some? && after.eventKeys == before.eventKeys + [key.value]))
  }

  lemma UpdateServed(before: Job, next: Job, key: Option<Hash>, now: nat)
    requires Maintains(before, next) && Stamped(next, before.eventKeys, key, now).Some?
    ensures Served(before, Stamped(next, before.eventKeys, key, now).value, key)
  {
    hide SameReservation;
    hide OpenOwner;
    StampedGrows(before, next, key, now);
  }

  lemma EventServed(before: Job, next: Option<Job>, key: Option<Hash>, now: nat)
    requires next.Some? ==> Maintains(before, next.value)
    requires Observed(before, next, key, now).Some?
    ensures Served(before, Observed(before, next, key, now).value, key)
  {
    hide Maintains;
    hide Stamped;
    hide GrowsFrom;
    hide CapacityExhausted;
    if key.Some? && before.terms.policy == AfterAllStop && |before.eventKeys| >= MAXIMUM_BARRIER_EVENT_KEYS {
      CapacityGrows(before, now);
    } else {
      UpdateServed(before, next.value, key, now);
    }
  }

  /** The list of applied keys after a job has been written. */
  ghost function NewlyApplied(applied: seq<(string, Hash)>, id: string, key: Option<Hash>,
                              before: map<string, Job>, after: map<string, Job>): (later: seq<(string, Hash)>)
    requires id in before && id in after && after == before[id := after[id]] && Served(before[id], after[id], key)
    requires key.Some? ==> key.value !in before[id].eventKeys
    requires KeysKnown(applied, before) && DistinctPairs(applied) && OpenOwners(before)
    ensures KeysKnown(later, after) && DistinctPairs(later) && OpenOwners(after)
    ensures later == applied || (key.Some? && later == applied + [(id, key.value)])
  {
    ChangeServed(applied, id, before, after);
    if before[id].terms.policy == AfterAllStop && after[id].eventKeys != before[id].eventKeys then
      NewPairIsDistinct(applied, id, key.value, before, after);
      applied + [(id, key.value)]
    else applied
  }

  lemma NewPairIsDistinct(applied: seq<(string, Hash)>, id: string, key: Hash,
                          before: map<string, Job>, after: map<string, Job>)
    requires id in before && id in after && after[id].eventKeys == before[id].eventKeys + [key]
    requires after[id].terms.policy == AfterAllStop && key !in before[id].eventKeys
    requires KeysKnown(applied, before) && KeysKnown(applied, after) && DistinctPairs(applied)
    ensures KeysKnown(applied + [(id, key)], after) && DistinctPairs(applied + [(id, key)])
  {
    forall i | 0 <= i < |applied| ensures applied[i] != (id, key) {
      assert KnownKey(applied[i], before);
    }
    assert after[id].eventKeys[|before[id].eventKeys|] == key;
    assert KnownKey((id, key), after);
  }

  lemma StampedGrows(before: Job, next: Job, key: Option<Hash>, now: nat)
    requires KeepsKeys(before, next)
    requires Stamped(next, before.eventKeys, key, now).Some?
    ensures GrowsFrom(before, Stamped(next, before.eventKeys, key, now).value)
    ensures key.Some? && before.terms.policy == AfterAllStop ==>
      Stamped(next, before.eventKeys, key, now).value.eventKeys == before.eventKeys + [key.value]
  {
  }
}
