/** The synchronization lock of a Skill Catalog and the explicit recovery of a
    dead owner, as one process performs them undisturbed (sync_recovery.go). */
module SyncLock {
  import opened Text

  type Pid = nat
  type OwnerId = nat

  /** The record in a lock file and in a lock candidate. */
  datatype Owner = Owner(pid: Pid, id: OwnerId)

  /** What a reader of a file sees: its whole content, or a torn write. */
  datatype File<T> = Partial | Whole(content: T)

  datatype Liveness = Unknown | Alive | Dead
  datatype RecoveryState = Nothing | InProgress | Orphaned | Unverifiable

  /* publishLockCandidate links the target, then removes its source. */
  datatype PublishFault = NoFault | LinkFails | RemoveFails

  /** `cleanup` says that the removals after a failure fail too; nobody is told. */
  datatype Faults = Faults(
    write: bool, candidate: PublishFault, candidateSync: bool, lock: PublishFault, lockSync: bool, cleanup: bool)

  predicate NothingFails(f: Faults) { !f.write && f.candidate.NoFault? && !f.candidateSync && f.lock.NoFault? && !f.lockSync }

  datatype Acquisition = Acquired | Busy(owner: Owner) | AcquireFailed
  datatype Recovery = Recovered | StillRunning | LivenessUnverifiable | RecoveryFailed

  function Compare(lock: Option<File<Owner>>, id: OwnerId): Option<File<Owner>> {
    if lock.Some? && lock.value.Whole? && lock.value.content.id == id then None else lock
  }

  /** How a set of recorded processes is reported: one that cannot be judged
      outweighs a live one, and a live one outweighs the dead. */
  function Reported(liveness: Pid -> Liveness, pids: seq<Pid>): RecoveryState {
    if exists p | p in pids :: liveness(p).Unknown? then Unverifiable
    else if exists p | p in pids :: liveness(p).Alive? then InProgress
    else Orphaned
  }

  method ReportState(liveness: Pid -> Liveness, pids: seq<Pid>) returns (state: RecoveryState)
    ensures state == Reported(liveness, pids)
    ensures state.Orphaned? <==> forall p | p in pids :: liveness(p).Dead?
  {
    state := Orphaned;
    for i := 0 to |pids|
      invariant state == Reported(liveness, pids[..i])
    {
      match liveness(pids[i])
      case Unknown => state := Unverifiable;
      case Alive => if !state.Unverifiable? { state := InProgress; }
      case Dead =>
      assert pids[..i + 1] == pids[..i] + [pids[i]];
      assert forall p | p in pids[..i] :: p in pids[..i + 1];
      assert pids[i] in pids[..i + 1];
    }
    assert pids[..|pids|] == pids;
  }

  class CatalogDirectory {
    var temporaries: map<OwnerId, File<Owner>>
    var candidates: map<OwnerId, File<Owner>>
    var lock: Option<File<Owner>>
    var staging: map<OwnerId, Option<Owner>>

    constructor ()
      ensures temporaries == map[] && candidates == map[] && lock == None && staging == map[]
    {
      temporaries, candidates, lock, staging := map[], map[], None, map[];
    }

    /** An acquisition holds the lock exactly when it was free and nothing failed.
        Whatever fails, it touches no file of another; it leaves nothing of its
        own behind unless its clean-up fails as well, and then no torn candidate
        and no torn lock. */
    method Acquire(owner: Owner, faults: Faults) returns (r: Acquisition)
      requires owner.id !in temporaries && owner.id !in candidates
      modifies this
      ensures r.Acquired? <==> old(lock).None? && NothingFails(faults)
      ensures r.Acquired? ==> lock == Some(Whole(owner))
      ensures r.Busy? ==> old(lock) == Some(Whole(r.owner))
      ensures staging == old(staging)
      ensures r.Acquired? || !faults.cleanup ==> temporaries == old(temporaries) && candidates == old(candidates)
      ensures !r.Acquired? && !faults.cleanup ==> lock == old(lock)
      ensures temporaries - {owner.id} == old(temporaries)
      ensures candidates == old(candidates) || candidates == old(candidates)[owner.id := Whole(owner)]
      ensures lock == old(lock) || (old(lock).None? && lock == Some(Whole(owner)))
    {
      ghost var t, c := temporaries, candidates;
      temporaries := temporaries[owner.id := Partial];
      assert temporaries - {owner.id} == t;
      if faults.write {
        DropTemporary(owner.id, faults.cleanup);
        return AcquireFailed;
      }
      temporaries := temporaries[owner.id := Whole(owner)];
      assert temporaries - {owner.id} == t;
      if !faults.candidate.LinkFails? {
        candidates := candidates[owner.id := temporaries[owner.id]];
      }
      assert candidates - {owner.id} == c;
      if !faults.candidate.NoFault? {
        DropTemporary(owner.id, faults.cleanup);
        DropCandidate(owner.id, faults.cleanup);
        return AcquireFailed;
      }
      DropTemporary(owner.id, false);
      if faults.candidateSync {
        DropCandidate(owner.id, faults.cleanup);
        return AcquireFailed;
      }
      if lock.Some? {
        var existing := lock.value;
        DropCandidate(owner.id, faults.cleanup);
        return if existing.Whole? && !faults.lock.LinkFails? then Busy(existing.content) else AcquireFailed;
      }
      if !faults.lock.LinkFails? {
        lock := Some(candidates[owner.id]);
      }
      DropCandidate(owner.id, !faults.lock.NoFault? && faults.cleanup);
      if !faults.lock.NoFault? || faults.lockSync {
        if !faults.cleanup {
          Release(owner);
        }
        return AcquireFailed;
      }
      return Acquired;
    }

    method DropTemporary(id: OwnerId, fails: bool)
      modifies this`temporaries
      ensures temporaries == if fails then old(temporaries) else old(temporaries) - {id}
    {
      if !fails {
        temporaries := temporaries - {id};
      }
    }

    method DropCandidate(id: OwnerId, fails: bool)
      modifies this`candidates
      ensures candidates == if fails then old(candidates) else old(candidates) - {id}
    {
      if !fails {
        candidates := candidates - {id};
      }
    }

    method Release(owner: Owner)
      modifies this`lock
      ensures lock == Compare(old(lock), owner.id)
    {
      if lock.Some? && lock.value.Whole? && lock.value.content.id == owner.id {
        lock := None;
      }
    }

    /** The candidates whose records can be read; a torn or misnamed one stops
        the recovery. `order` lists the candidate files as the directory does. */
    ghost predicate Readable()
      reads this
    {
      && (forall id | id in candidates :: candidates[id].Whole? && candidates[id].content.id == id)
      && (lock.Some? ==> lock.value.Whole?)
    }

    ghost predicate AllDead(liveness: Pid -> Liveness)
      reads this
      requires Readable()
    {
      && (forall id | id in candidates :: liveness(candidates[id].content.pid).Dead?)
      && (lock.Some? ==> liveness(lock.value.content.pid).Dead?)
    }

    ghost predicate StagingAgrees()
      reads this
      requires Readable()
    {
      lock.Some? && lock.value.content.id in staging && staging[lock.value.content.id].Some? ==>
        staging[lock.value.content.id].value == lock.value.content
    }

    method ReadCandidates(order: seq<OwnerId>) returns (ok: bool, owners: seq<Owner>)
      requires forall id | id in order :: id in candidates
      ensures ok <==> forall id | id in order :: candidates[id].Whole? && candidates[id].content.id == id
      ensures ok ==> |owners| == |order| && forall k | 0 <= k < |order| :: candidates[order[k]] == Whole(owners[k])
    {
      owners := [];
      for i := 0 to |order|
        invariant forall k | 0 <= k < i :: candidates[order[k]].Whole? && candidates[order[k]].content.id == order[k]
        invariant |owners| == i && forall k | 0 <= k < i :: candidates[order[k]] == Whole(owners[k])
      {
        var file := candidates[order[i]];
        if !file.Whole? || file.content.id != order[i] {
          return false, [];
        }
        owners := owners + [file.content];
      }
      return true, owners;
    }

    method RemoveCandidates(order: seq<OwnerId>)
      modifies this`candidates
      ensures forall id :: id in candidates <==> id in old(candidates) && id !in order
      ensures forall id | id in candidates :: candidates[id] == old(candidates)[id]
    {
      for i := 0 to |order|
        invariant forall id :: id in candidates <==> id in old(candidates) && id !in order[..i]
        invariant forall id | id in candidates :: candidates[id] == old(candidates)[id]
      {
        candidates := candidates - {order[i]};
        assert order[..i + 1] == order[..i] + [order[i]];
      }
      assert order[..|order|] == order;
    }

    /** Recovery is all or nothing: it clears every recorded owner when all of
        them are dead, and changes nothing otherwise. */
    method RecoverOrphanedSync(liveness: Pid -> Liveness, order: seq<OwnerId>) returns (r: Recovery)
      requires forall id | id in candidates :: id in order
      requires forall id | id in order :: id in candidates
      modifies this
      ensures r.Recovered? <==> old(Readable() && AllDead(liveness) && StagingAgrees())
      ensures r.Recovered? ==> candidates == map[] && lock == None && temporaries == old(temporaries)
      ensures r.Recovered? ==>
        staging == if old(lock).Some? then old(staging) - {old(lock).value.content.id} else old(staging)
      ensures !r.Recovered? ==>
        candidates == old(candidates) && lock == old(lock) && staging == old(staging) && temporaries == old(temporaries)
    {
      var ok, owners := ReadCandidates(order);
      assert ok <==> forall id | id in candidates :: candidates[id].Whole? && candidates[id].content.id == id;
      if !ok || (lock.Some? && !lock.value.Whole?) {
        return RecoveryFailed;
      }
      if lock.Some? {
        r := Probe(liveness, [lock.value.content]);
        assert r.Recovered? <==> liveness([lock.value.content][0].pid).Dead?;
        if !r.Recovered? { return; }
      }
      r := Probe(liveness, owners);
      assert r.Recovered? <==> forall id | id in candidates :: liveness(candidates[id].content.pid).Dead? by {
        assert forall k | 0 <= k < |order| :: candidates[order[k]].content == owners[k];
        assert r.Recovered? <==> forall k | 0 <= k < |order| :: liveness(candidates[order[k]].content.pid).Dead?;
        assert forall k | 0 <= k < |order| :: order[k] in candidates;
      }
      if !r.Recovered? { return; }
      if lock.Some? {
        var owner := lock.value.content;
        if owner.id in staging && staging[owner.id].Some? && staging[owner.id].value != owner {
          return RecoveryFailed;
        }
        staging := staging - {owner.id};
      }
      RemoveCandidates(order);
      assert candidates.Keys == {};
      if lock.Some? {
        Release(lock.value.content);
      }
    }
  }

  method Probe(liveness: Pid -> Liveness, owners: seq<Owner>) returns (r: Recovery)
    ensures r.Recovered? <==> forall k | 0 <= k < |owners| :: liveness(owners[k].pid).Dead?
    ensures r.StillRunning? ==> exists k | 0 <= k < |owners| :: liveness(owners[k].pid).Alive?
    ensures r.LivenessUnverifiable? ==> exists k | 0 <= k < |owners| :: liveness(owners[k].pid).Unknown?
    ensures !r.RecoveryFailed?
  {
    for i := 0 to |owners|
      invariant forall k | 0 <= k < i :: liveness(owners[k].pid).Dead?
    {
      match liveness(owners[i].pid)
      case Alive => return StillRunning;
      case Unknown => return LivenessUnverifiable;
      case Dead =>
    }
    return Recovered;
  }
}
