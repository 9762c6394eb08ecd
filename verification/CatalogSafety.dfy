/** What every run of catalog synchronization and recovery keeps. */
module CatalogSafety {
  import opened Text
  import opened SyncLock
  import opened CatalogProtocol

  // ---- the invariant -------------------------------------------------------------

  /* The record is that of an operation that has begun. */
  ghost predicate Known(ops: Ops, r: Owner) { r.id in ops && ops[r.id].pid == r.pid }

  ghost predicate RecordsOk(w: World) {
    && (forall id | id in w.candidates :: id in w.ops && w.candidates[id] == Whole(Record(id, w.ops[id])))
    && (w.lock.Some? ==> w.lock.value.Whole? && Known(w.ops, w.lock.value.content))
    && (forall id | id in w.staging :: id in w.ops && (w.staging[id].owner.Some? ==> w.staging[id].owner.value == Record(id, w.ops[id])))
  }

  ghost predicate StoreOk(store: map<string, Object>) {
    forall h | h in store :: Complete(store[h]) && store[h].package.identity.hash == h
  }

  ghost predicate IndexOk(w: World) {
    w.index.Some? ==> w.index.value.Whole? && AllStored(w.store, w.index.value.content) && Distinct(w.index.value.content)
  }

  /* No two entries have the same source and name. */
  ghost predicate Distinct(index: Index) {
    forall i, j | 0 <= i < j < |index| ::
      index[i].identity.source != index[j].identity.source || index[i].identity.name != index[j].identity.name
  }

  ghost predicate ListOk(w: World, o: OwnerId, pc: Pc) {
    && (pc.Loading? || pc.Building? || pc.StagingIndex? ==> Distinct(pc.entries))
    && ((pc.Verifying? || pc.OpeningIndex?) && StagedIndex(w, o) ==> Distinct(w.staging[o].index.value))
    && (pc.WritingIndex? || pc.RenamingIndex? ==> Distinct(pc.index))
  }

  ghost predicate Holding(pc: Pc) {
    || (pc.DroppingCandidate? && pc.locked)
    || pc.MakingStaging? || pc.WritingStagingOwner? || pc.Loading? || pc.Building? || pc.StagingIndex? || pc.Verifying?
    || pc.OpeningIndex? || pc.WritingIndex? || pc.RenamingIndex? || pc.Cleaning? || pc.Releasing?
  }

  ghost predicate AllDead(dead: set<Pid>, owners: seq<Owner>) {
    forall r | r in owners :: r.pid in dead
  }

  ghost predicate Judged(w: World, owner: Option<Owner>, found: seq<Owner>) {
    && (forall r | r in Owners(owner, found) :: Known(w.ops, r))
    && AllDead(w.dead, Owners(owner, found))
  }

  ghost predicate SyncOk(w: World, o: OwnerId, op: Op) {
    && (op.pc.LinkingCandidate? ==> o in w.temporaries && w.temporaries[o] == Whole(Record(o, op)))
    && ((op.pc.DroppingTemporary? && op.pc.linked) || op.pc.LinkingLock? ==> o in w.candidates)
    && (Holding(op.pc) ==> w.lock == Some(Whole(Record(o, op))))
    && (op.pc.OpeningIndex? ==> StagedIndex(w, o) && AllStored(w.store, w.staging[o].index.value))
    && (op.pc.WritingIndex? ==> AllStored(w.store, op.pc.index))
    && (op.pc.RenamingIndex? ==>
          AllStored(w.store, op.pc.index) && o in w.indexTemporaries && w.indexTemporaries[o] == Whole(op.pc.index))
  }

  ghost predicate RecoveryOk(w: World, pc: Pc) {
    match pc
    case Discovering(found) => forall r | r in found :: Known(w.ops, r)
    case ReadingLock(found) => forall r | r in found :: Known(w.ops, r)
    case Probing(owner, found, next) =>
      && (forall r | r in Owners(owner, found) :: Known(w.ops, r))
      && next <= |Owners(owner, found)| && AllDead(w.dead, Owners(owner, found)[..next])
    case CheckingStaging(owner, found) => Judged(w, owner, found)
    case RemovingStaging(owner, found) => Judged(w, owner, found)
    case RemovingCandidates(owner, found) => Judged(w, owner, found)
    case ClearingLock(r) => Known(w.ops, r) && r.pid in w.dead
    case _ => true
  }

  ghost predicate OpOk(w: World, o: OwnerId) {
    o in w.ops && SyncOk(w, o, w.ops[o]) && RecoveryOk(w, w.ops[o].pc) && ListOk(w, o, w.ops[o].pc)
  }

  ghost predicate Inv(w: World) {
    RecordsOk(w) && StoreOk(w.store) && IndexOk(w) && forall o | Running(w, o) :: OpOk(w, o)
  }

  // ---- frames ---------------------------------------------------------------------

  ghost predicate SameAt<T>(m: map<OwnerId, T>, n: map<OwnerId, T>, id: OwnerId) {
    (id in m <==> id in n) && (id in m ==> m[id] == n[id])
  }

  ghost predicate StoreGrows(w: World, v: World) {
    forall h | h in w.store :: h in v.store && v.store[h] == w.store[h]
  }

  /* Everything that is `id`'s alone is as it was. */
  ghost predicate Untouched(w: World, v: World, id: OwnerId) {
    && SameAt(w.temporaries, v.temporaries, id) && SameAt(w.candidates, v.candidates, id)
    && SameAt(w.staging, v.staging, id) && SameAt(w.indexTemporaries, v.indexTemporaries, id)
    && (w.lock.Some? && w.lock.value.Whole? && w.lock.value.content.id == id ==> v.lock == w.lock)
  }

  /* `v` is `w` after an effect of `o` alone. */
  ghost predicate StepOf(w: World, v: World, o: OwnerId) {
    && o in w.ops && o in v.ops && v.ops == w.ops[o := v.ops[o]] && v.ops[o].pid == w.ops[o].pid && v.dead == w.dead
    && StoreGrows(w, v)
    && forall id | id != o && Running(w, id) :: Untouched(w, v, id)
  }

  lemma StoredGrows(w: World, v: World, index: Index)
    requires StoreGrows(w, v) && AllStored(w.store, index)
    ensures AllStored(v.store, index)
  {
    forall e | e in index ensures EntryStored(v.store, e) {
      assert EntryStored(w.store, e);
    }
  }

  lemma OthersStay(w: World, v: World, o: OwnerId, other: OwnerId)
    requires StepOf(w, v, o) && other != o && Running(v, other) && OpOk(w, other)
    ensures OpOk(v, other)
  {
    hide AllStored, StoreGrows, EntryStored, Distinct;
    assert Running(w, other) && Untouched(w, v, other);
    var pc := w.ops[other].pc;
    if pc.OpeningIndex? { StoredGrows(w, v, w.staging[other].index.value); }
    if pc.WritingIndex? || pc.RenamingIndex? { StoredGrows(w, v, pc.index); }
  }

  lemma StepKeepsInv(w: World, v: World, o: OwnerId)
    requires Inv(w) && StepOf(w, v, o)
    requires RecordsOk(v) && StoreOk(v.store) && IndexOk(v) && (Running(v, o) ==> OpOk(v, o))
    ensures Inv(v)
  {
    hide OpOk, RecordsOk, StoreOk, IndexOk, StepOf;
    forall other | Running(v, other) ensures OpOk(v, other) {
      if other != o {
        StillRunning(w, v, o, other);
        OthersStay(w, v, o, other);
      }
    }
  }

  lemma StillRunning(w: World, v: World, o: OwnerId, other: OwnerId)
    requires StepOf(w, v, o) && other != o && Running(v, other)
    ensures Running(w, other)
  {}

  /* Two running operations that hold the lock are one. */
  lemma OneHolder(w: World, a: OwnerId, b: OwnerId)
    requires Inv(w) && Running(w, a) && Running(w, b) && Holding(w.ops[a].pc) && Holding(w.ops[b].pc)
    ensures a == b
  {
    assert OpOk(w, a) && OpOk(w, b);
  }

  // ---- an effect of an operation ----------------------------------------------------

  lemma DeadIsNotRunning(w: World, r: Owner)
    requires Known(w.ops, r) && r.pid in w.dead
    ensures !Running(w, r.id)
  {}

  lemma AdvanceStep(w: World, o: OwnerId)
    requires Inv(w) && Running(w, o)
    ensures StepOf(w, Advance(w, o), o)
  {
    hide Inv, AllStored, AfterSuccess, Judged, Complete;
    var v := Advance(w, o);
    AdvanceStore(w, o);
    forall id | id != o && Running(w, id) ensures Untouched(w, v, id) {
      AdvanceTouches(w, o, id);
    }
  }

  lemma AdvanceStore(w: World, o: OwnerId)
    requires o in w.ops
    ensures StoreGrows(w, Advance(w, o))
  {
    hide AfterSuccess;
  }

  lemma RunningOk(w: World, o: OwnerId)
    requires Inv(w) && Running(w, o)
    ensures OpOk(w, o)
  {
    hide OpOk;
  }

  lemma StagingIsOwn(w: World, o: OwnerId, id: OwnerId)
    requires o in w.ops && RecoveryOk(w, w.ops[o].pc) && Running(w, id) && id != o
    ensures SameAt(w.staging, StagingAfter(w, o), id)
  {
    hide Complete;
    var pc := w.ops[o].pc;
    if pc.RemovingStaging? && pc.owner.Some? {
      assert pc.owner.value in Owners(pc.owner, pc.found);
      DeadIsNotRunning(w, pc.owner.value);
    }
  }

  lemma CandidatesAreOwn(w: World, o: OwnerId, id: OwnerId)
    requires o in w.ops && RecoveryOk(w, w.ops[o].pc) && Running(w, id) && id != o
    ensures SameAt(w.candidates, CandidatesAfter(w, o), id)
  {
    var pc := w.ops[o].pc;
    if pc.RemovingCandidates? && pc.found != [] {
      assert pc.found[0] in Owners(pc.owner, pc.found);
      DeadIsNotRunning(w, pc.found[0]);
    }
  }

  lemma LockIsOwn(w: World, o: OwnerId, id: OwnerId)
    requires o in w.ops && RecoveryOk(w, w.ops[o].pc) && Running(w, id) && id != o
    requires w.lock.Some? && w.lock.value.Whole? && w.lock.value.content.id == id
    ensures LockAfter(w, o) == w.lock
  {
    var pc := w.ops[o].pc;
    if pc.ClearingLock? { DeadIsNotRunning(w, pc.record); }
  }

  lemma AdvanceTouches(w: World, o: OwnerId, id: OwnerId)
    requires Inv(w) && Running(w, o) && Running(w, id) && id != o
    ensures Untouched(w, Advance(w, o), id)
  {
    hide Inv, AfterSuccess, StagingAfter, CandidatesAfter, LockAfter, StoreAfter, IndexAfter, SyncOk, RecoveryOk;
    RunningOk(w, o);
    StagingIsOwn(w, o, id);
    CandidatesAreOwn(w, o, id);
    if w.lock.Some? && w.lock.value.Whole? && w.lock.value.content.id == id { LockIsOwn(w, o, id); }
  }

  lemma AdvanceRecords(w: World, o: OwnerId)
    requires Inv(w) && Running(w, o)
    ensures RecordsOk(Advance(w, o))
  {
    hide AllStored, AfterSuccess, RecoveryOk, StoreOk, IndexOk, Complete;
    RunningOk(w, o);
  }

  lemma AdvanceStoreOk(w: World, o: OwnerId)
    requires Inv(w) && Running(w, o)
    ensures StoreOk(Advance(w, o).store)
  {
    hide AllStored, AfterSuccess, RecoveryOk, RecordsOk, IndexOk, OpOk;
  }

  lemma AdvanceIndexOk(w: World, o: OwnerId)
    requires Inv(w) && Running(w, o)
    ensures IndexOk(Advance(w, o))
  {
    hide AllStored, AfterSuccess, RecoveryOk, StoreOk, RecordsOk, StoreAfter, StoreGrows, Distinct;
    var v := Advance(w, o);
    AdvanceStore(w, o);
    RunningOk(w, o);
    if v.index.Some? { StoredGrows(w, v, v.index.value.content); }
  }

  lemma AdvanceSyncOk(w: World, o: OwnerId)
    requires Inv(w) && Running(w, o)
    ensures var v := Advance(w, o); Running(v, o) ==> SyncOk(v, o, v.ops[o])
  {
    hide AllStored, RecoveryOk, StoreOk, IndexOk, StoreGrows, Complete, Duplicate, AllDead;
    var v := Advance(w, o);
    RunningOk(w, o);
    AdvanceStore(w, o);
    var pc := w.ops[o].pc;
    if pc.Verifying? && StagedIndex(w, o) { StoredSame(w, v, w.staging[o].index.value); }
    if pc.OpeningIndex? { StoredGrows(w, v, w.staging[o].index.value); }
    if pc.WritingIndex? { StoredGrows(w, v, pc.index); }
  }

  lemma StoredSame(w: World, v: World, index: Index)
    requires StoreGrows(w, v)
    ensures AllStored(w.store, index) ==> AllStored(v.store, index)
  {
    hide StoreGrows, AllStored;
    if AllStored(w.store, index) { StoredGrows(w, v, index); }
  }

  lemma ProbingGoesOn(w: World, owner: Option<Owner>, found: seq<Owner>, next: nat)
    requires RecoveryOk(w, Probing(owner, found, next))
    ensures var owners := Owners(owner, found);
            if next >= |owners| then Judged(w, owner, found)
            else owners[next].pid in w.dead ==> RecoveryOk(w, Probing(owner, found, next + 1))
  {
    hide Owners;
    var owners := Owners(owner, found);
    if next < |owners| {
      assert owners[..next + 1] == owners[..next] + [owners[next]];
    } else {
      assert owners[..next] == owners;
    }
  }

  lemma RemovingGoesOn(w: World, owner: Option<Owner>, found: seq<Owner>)
    requires Judged(w, owner, found)
    ensures found != [] ==> Judged(w, owner, found[1..])
    ensures owner.Some? ==> Known(w.ops, owner.value) && owner.value.pid in w.dead
  {
    if found != [] { assert forall r | r in Owners(owner, found[1..]) :: r in Owners(owner, found); }
    if owner.Some? { assert owner.value in Owners(owner, found); }
  }

  lemma OwnersKnown(w: World, found: seq<Owner>)
    requires RecordsOk(w) && forall r | r in found :: Known(w.ops, r)
    ensures RecoveryOk(w, Probing(None, found, 0))
    ensures w.lock.Some? ==> RecoveryOk(w, Probing(Some(w.lock.value.content), found, 0))
  {}

  lemma NextRecovery(w: World, o: OwnerId)
    requires OpOk(w, o) && RecordsOk(w)
    ensures RecoveryOk(w, AfterSuccess(w, o))
  {
    hide AllStored, SyncOk, Complete, Duplicate, StagedIndex, Judged, Owners;
    match w.ops[o].pc {
      case ReadingLock(found) => OwnersKnown(w, found);
      case Probing(owner, found, next) => ProbingGoesOn(w, owner, found, next);
      case RemovingCandidates(owner, found) => RemovingGoesOn(w, owner, found);
      case _ =>
    }
  }

  lemma RecoveryStays(w: World, v: World, pc: Pc)
    requires RecoveryOk(w, pc) && v.dead == w.dead && forall id | id in w.ops :: id in v.ops && v.ops[id].pid == w.ops[id].pid
    ensures RecoveryOk(v, pc)
  {
    hide Owners, AllDead;
  }

  lemma DistinctMore(entries: Index, e: Entry)
    requires Distinct(entries) && !Duplicate(entries, e)
    ensures Distinct(entries + [e])
  {
    forall i | 0 <= i < |entries|
      ensures entries[i].identity.source != e.identity.source || entries[i].identity.name != e.identity.name
    {
      assert entries[i] in entries;
    }
  }

  lemma AddIsDistinct(w: World, o: OwnerId, entries: Index, e: Entry)
    requires Distinct(entries)
    ensures ListOk(w, o, Add(entries, e))
  {
    hide Distinct, Duplicate;
    if !Duplicate(entries, e) { DistinctMore(entries, e); }
  }

  lemma AdvanceListOk(w: World, o: OwnerId)
    requires Inv(w) && Running(w, o)
    ensures var v := Advance(w, o); ListOk(v, o, v.ops[o].pc)
  {
    hide Distinct, Duplicate, AllStored, SyncOk, RecoveryOk, RecordsOk, StoreOk, IndexOk, Complete;
    hide TemporariesAfter, CandidatesAfter, LockAfter, StoreAfter, IndexTemporariesAfter, IndexAfter;
    RunningOk(w, o);
    DistinctNothing();
    var pc := w.ops[o].pc;
    if pc.Building? && o in w.staging && w.staging[o].building.Some? {
      AddIsDistinct(Advance(w, o), o, pc.entries, Entry(w.staging[o].building.value.package.identity, true));
    }
  }

  lemma DistinctNothing()
    ensures Distinct([])
  {}

  lemma AdvanceRecoveryOk(w: World, o: OwnerId)
    requires Inv(w) && Running(w, o)
    ensures var v := Advance(w, o); RecoveryOk(v, v.ops[o].pc)
  {
    hide OpOk, RecordsOk, RecoveryOk, AfterSuccess, TemporariesAfter, CandidatesAfter, LockAfter, StagingAfter, StoreAfter, IndexTemporariesAfter, IndexAfter;
    RunningOk(w, o);
    NextRecovery(w, o);
    RecoveryStays(w, Advance(w, o), AfterSuccess(w, o));
  }

  lemma AdvanceKeepsInv(w: World, o: OwnerId)
    requires Inv(w) && Running(w, o)
    ensures Inv(Advance(w, o))
  {
    hide Inv, Advance, SyncOk, RecoveryOk, ListOk, RecordsOk, StoreOk, IndexOk, StepOf;
    var v := Advance(w, o);
    AdvanceStep(w, o);
    AdvanceRecords(w, o);
    AdvanceStoreOk(w, o);
    AdvanceIndexOk(w, o);
    AdvanceSyncOk(w, o);
    AdvanceRecoveryOk(w, o);
    AdvanceListOk(w, o);
    StepKeepsInv(w, v, o);
  }

  // ---- the other events ------------------------------------------------------------------

  /* An operation that only moves. */
  lemma MoveKeepsInv(w: World, o: OwnerId, pc: Pc)
    requires Inv(w) && Running(w, o)
    requires var v := w.(ops := At(w, o, pc)); pc.Done? || OpOk(v, o)
    ensures Inv(w.(ops := At(w, o, pc)))
  {
    hide OpOk, StoreOk, IndexOk, RecordsOk;
    var v := w.(ops := At(w, o, pc));
    MoveKeepsRecords(w, o, pc);
    StepKeepsInv(w, v, o);
  }

  lemma MoveKeepsRecords(w: World, o: OwnerId, pc: Pc)
    requires o in w.ops
    ensures var v := w.(ops := At(w, o, pc)); RecordsOk(w) ==> RecordsOk(v)
    ensures var v := w.(ops := At(w, o, pc)); IndexOk(w) ==> IndexOk(v)
  {}

  lemma FailKeepsInv(w: World, o: OwnerId)
    requires Inv(w) && Running(w, o)
    ensures Inv(w.(ops := At(w, o, AfterFailure(w.ops[o].pc))))
  {
    hide Inv, Distinct;
    RunningOk(w, o);
    MoveKeepsInv(w, o, AfterFailure(w.ops[o].pc));
  }

  lemma AddKeepsInv(w: World, o: OwnerId, e: Entry)
    requires Inv(w) && Running(w, o) && w.ops[o].pc.Loading?
    ensures Inv(w.(ops := At(w, o, Add(w.ops[o].pc.entries, e))))
  {
    hide Inv, Duplicate, Distinct;
    RunningOk(w, o);
    AddIsDistinct(w, o, w.ops[o].pc.entries, e);
    AddIsDistinct(w.(ops := At(w, o, Add(w.ops[o].pc.entries, e))), o, w.ops[o].pc.entries, e);
    MoveKeepsInv(w, o, Add(w.ops[o].pc.entries, e));
  }

  lemma LoadKeepsInv(w: World, o: OwnerId, p: Package)
    requires Inv(w) && Running(w, o) && w.ops[o].pc.Loading?
    ensures Inv(AfterLoad(w, o, p))
  {
    hide StoreOk, AllStored, Duplicate, Distinct;
    RunningOk(w, o);
    if p.identity.hash in w.store {
      AddKeepsInv(w, o, Entry(p.identity, true));
    } else {
      StepKeepsInv(w, AfterLoad(w, o, p), o);
    }
  }

  lemma ReadKeepsInv(w: World, o: OwnerId, candidate: OwnerId)
    requires Inv(w) && Running(w, o) && w.ops[o].pc.Discovering? && candidate in w.candidates
    ensures Inv(w.(ops := At(w, o, AfterRead(w, o, candidate))))
  {
    hide StoreOk, IndexOk, Distinct;
    RunningOk(w, o);
    MoveKeepsInv(w, o, AfterRead(w, o, candidate));
  }

  lemma CrashKeepsInv(w: World, pid: Pid)
    requires Inv(w)
    ensures Inv(w.(dead := w.dead + {pid}))
  {
    hide StoreOk, AllStored, SyncOk, Distinct;
    var v := w.(dead := w.dead + {pid});
    forall o | Running(v, o) ensures OpOk(v, o) {
      assert Running(w, o) && OpOk(w, o);
      CrashKeepsSync(w, v, o);
    }
  }

  lemma CrashKeepsSync(w: World, v: World, o: OwnerId)
    requires o in w.ops && SyncOk(w, o, w.ops[o]) && v == w.(dead := v.dead)
    ensures SyncOk(v, o, v.ops[o])
  {
    hide AllStored;
  }

  lemma BeginKeepsOp(w: World, o: OwnerId, op: Op, other: OwnerId)
    requires OpOk(w, other) && o !in w.ops
    ensures OpOk(w.(ops := w.ops[o := op]), other)
  {
    hide StoreOk, AllStored, Distinct;
  }

  lemma NewOpOk(w: World, o: OwnerId, pid: Pid, recovery: bool)
    requires RecordsOk(w) && o !in w.ops
    ensures OpOk(w.(ops := w.ops[o := Op(pid, if recovery then Discovering([]) else CreatingTemporary)]), o)
  {
    hide StoreOk, AllStored, Distinct;
  }

  lemma BeginKeepsRecords(w: World, o: OwnerId, op: Op)
    requires RecordsOk(w) && IndexOk(w) && o !in w.ops
    ensures RecordsOk(w.(ops := w.ops[o := op])) && IndexOk(w.(ops := w.ops[o := op]))
  {
    hide AllStored, Distinct;
  }

  lemma BeginKeepsInv(w: World, o: OwnerId, pid: Pid, recovery: bool)
    requires Inv(w) && o !in w.ops
    ensures Inv(w.(ops := w.ops[o := Op(pid, if recovery then Discovering([]) else CreatingTemporary)]))
  {
    hide StoreOk, RecordsOk, IndexOk, OpOk;
    var op := Op(pid, if recovery then Discovering([]) else CreatingTemporary);
    var v := w.(ops := w.ops[o := op]);
    NewOpOk(w, o, pid, recovery);
    BeginKeepsRecords(w, o, op);
    forall other | Running(v, other) ensures OpOk(v, other) {
      if other != o {
        assert Running(w, other);
        BeginKeepsOp(w, o, op, other);
      }
    }
  }

  lemma StepKeepsTheInvariant(w: World, e: Event)
    requires Inv(w)
    ensures Inv(Step(w, e))
  {
    hide Inv, Advance, AfterFailure, Add, AfterLoad, AfterRead;
    match e {
      case Begin(o, pid, recovery) => if o !in w.ops { BeginKeepsInv(w, o, pid, recovery); }
      case Proceed(o) => if Running(w, o) { AdvanceKeepsInv(w, o); }
      case Fail(o) => if Running(w, o) { FailKeepsInv(w, o); }
      case Unsupported(o, identity) =>
        if Running(w, o) && w.ops[o].pc.Loading? { AddKeepsInv(w, o, Entry(identity, false)); }
      case Load(o, p) => if Running(w, o) && w.ops[o].pc.Loading? { LoadKeepsInv(w, o, p); }
      case Read(o, candidate) =>
        if Running(w, o) && w.ops[o].pc.Discovering? && candidate in w.candidates { ReadKeepsInv(w, o, candidate); }
      case Crash(pid) => CrashKeepsInv(w, pid);
    }
  }

  lemma {:induction false} RunKeepsInv(events: seq<Event>)
    ensures Inv(Run(events))
  {
    if events != [] {
      RunKeepsInv(events[..|events| - 1]);
      StepKeepsTheInvariant(Run(events[..|events| - 1]), events[|events| - 1]);
    }
  }
}
