/** Catalog synchronization and orphan recovery as processes that take one file
    effect at a time, with crashes between any two effects (sync_recovery.go,
    catalog.go). Owner IDs are fresh; a dead process stays dead. */
module CatalogProtocol {
  import opened Text
  import opened SyncLock

  datatype Identity = Identity(source: string, name: string, hash: string)

  /** A package as loaded from a Skill Source; `files` are its declared files. */
  datatype Package = Package(identity: Identity, files: seq<(string, string)>)

  /** A store object: the package it was made from, and how many of its parts
      (package.json, then each file) are completely written. */
  datatype Object = Object(package: Package, written: nat)

  datatype Entry = Entry(identity: Identity, ready: bool)
  type Index = seq<Entry>

  datatype Staging = Staging(owner: Option<Owner>, building: Option<Object>, index: Option<Index>)

  datatype Pc =
    // acquiring the lock
    | CreatingTemporary | WritingTemporary | LinkingCandidate | DroppingTemporary(linked: bool)
    | LinkingLock | DroppingCandidate(locked: bool)
    // synchronizing
    | MakingStaging | WritingStagingOwner
    | Loading(entries: Index) | Building(entries: Index)
    | StagingIndex(entries: Index) | Verifying | OpeningIndex | WritingIndex(index: Index) | RenamingIndex(index: Index)
    | Cleaning | Releasing
    // recovering
    | Discovering(found: seq<Owner>) | ReadingLock(found: seq<Owner>)
    | Probing(owner: Option<Owner>, found: seq<Owner>, next: nat)
    | CheckingStaging(owner: Option<Owner>, found: seq<Owner>)
    | RemovingStaging(owner: Option<Owner>, found: seq<Owner>)
    | RemovingCandidates(owner: Option<Owner>, found: seq<Owner>)
    | ClearingLock(record: Owner)
    | Done

  datatype Op = Op(pid: Pid, pc: Pc)
  type Ops = map<OwnerId, Op>

  datatype World = World(
    temporaries: map<OwnerId, File<Owner>>, candidates: map<OwnerId, File<Owner>>, lock: Option<File<Owner>>,
    staging: map<OwnerId, Staging>, store: map<string, Object>,
    indexTemporaries: map<OwnerId, File<Index>>, index: Option<File<Index>>,
    ops: Ops, dead: set<Pid>)

  /** `Unsupported` and `Load` are what a Skill Source yields next; `Read` names
      the next candidate file a recovery comes to. */
  datatype Event =
    | Begin(op: OwnerId, pid: Pid, recovery: bool)
    | Proceed(op: OwnerId)
    | Fail(op: OwnerId)
    | Unsupported(op: OwnerId, identity: Identity)
    | Load(op: OwnerId, package: Package)
    | Read(op: OwnerId, candidate: OwnerId)
    | Crash(pid: Pid)

  ghost predicate Running(w: World, o: OwnerId) {
    o in w.ops && w.ops[o].pid !in w.dead && !w.ops[o].pc.Done?
  }

  ghost function Record(o: OwnerId, op: Op): Owner { Owner(op.pid, o) }

  function Parts(p: Package): nat { 1 + |p.files| }

  predicate Complete(o: Object) { o.written == Parts(o.package) }

  /* verifyStagedIndex, for one entry. */
  predicate EntryStored(store: map<string, Object>, e: Entry) {
    e.ready ==> e.identity.hash in store && store[e.identity.hash].package.identity == e.identity
  }

  ghost predicate AllStored(store: map<string, Object>, index: Index) {
    forall e | e in index :: EntryStored(store, e)
  }

  /* addUniqueEntry, on the qualified name. */
  ghost predicate Duplicate(index: Index, e: Entry) {
    exists f | f in index :: f.identity.source == e.identity.source && f.identity.name == e.identity.name
  }

  ghost function Add(entries: Index, e: Entry): Pc {
    if Duplicate(entries, e) then Cleaning else Loading(entries + [e])
  }

  ghost function Owners(owner: Option<Owner>, found: seq<Owner>): seq<Owner> {
    (if owner.Some? then [owner.value] else []) + found
  }

  ghost predicate StagedIndex(w: World, o: OwnerId) { o in w.staging && w.staging[o].index.Some? }

  ghost predicate CanPublishObject(w: World, o: OwnerId) {
    o in w.staging && w.staging[o].building.Some? && Complete(w.staging[o].building.value)
    && w.staging[o].building.value.package.identity.hash !in w.store
  }

  // ---- the next effect succeeds ----------------------------------------------

  ghost function AfterSuccess(w: World, o: OwnerId): Pc
    requires o in w.ops
  {
    match w.ops[o].pc
    case CreatingTemporary => WritingTemporary
    case WritingTemporary => LinkingCandidate
    case LinkingCandidate => DroppingTemporary(o in w.temporaries)
    case DroppingTemporary(linked) => if linked then LinkingLock else Done
    case LinkingLock => DroppingCandidate(w.lock.None? && o in w.candidates)
    case DroppingCandidate(locked) => if locked then MakingStaging else Done
    case MakingStaging => WritingStagingOwner
    case WritingStagingOwner => Loading([])
    case Loading(entries) => StagingIndex(entries)
    case Building(entries) =>
      if o !in w.staging || w.staging[o].building.None? then Cleaning
      else
        var made := w.staging[o].building.value;
        if !Complete(made) then Building(entries)
        else if made.package.identity.hash in w.store then Cleaning
        else Add(entries, Entry(made.package.identity, true))
    case StagingIndex(_) => Verifying
    case Verifying => if StagedIndex(w, o) && AllStored(w.store, w.staging[o].index.value) then OpeningIndex else Cleaning
    case OpeningIndex => if StagedIndex(w, o) then WritingIndex(w.staging[o].index.value) else Cleaning
    case WritingIndex(index) => RenamingIndex(index)
    case RenamingIndex(_) => Cleaning
    case Cleaning => Releasing
    case Releasing => Done
    case Discovering(found) => ReadingLock(found)
    case ReadingLock(found) =>
      (match w.lock
       case None => if found == [] then Done else Probing(None, found, 0)
       case Some(Whole(owner)) => Probing(Some(owner), found, 0)
       case Some(Partial) => Done)
    case Probing(owner, found, next) =>
      var owners := Owners(owner, found);
      if next >= |owners| then CheckingStaging(owner, found)
      else if owners[next].pid in w.dead then Probing(owner, found, next + 1)
      else Done
    case CheckingStaging(owner, found) =>
      if owner.Some? && owner.value.id in w.staging && w.staging[owner.value.id].owner.Some?
        && w.staging[owner.value.id].owner.value != owner.value
      then Done
      else RemovingStaging(owner, found)
    case RemovingStaging(owner, found) => RemovingCandidates(owner, found)
    case RemovingCandidates(owner, found) =>
      if found != [] then RemovingCandidates(owner, found[1..])
      else if owner.Some? then ClearingLock(owner.value) else Done
    case ClearingLock(_) => Done
    case Done => Done
  }

  ghost function TemporariesAfter(t: map<OwnerId, File<Owner>>, o: OwnerId, op: Op): map<OwnerId, File<Owner>> {
    match op.pc
    case CreatingTemporary => t[o := Partial]
    case WritingTemporary => t[o := Whole(Record(o, op))]
    case DroppingTemporary(_) => t - {o}
    case _ => t
  }

  ghost function CandidatesAfter(w: World, o: OwnerId): map<OwnerId, File<Owner>>
    requires o in w.ops
  {
    match w.ops[o].pc
    case LinkingCandidate => if o in w.temporaries then w.candidates[o := w.temporaries[o]] else w.candidates
    case DroppingCandidate(_) => w.candidates - {o}
    case RemovingCandidates(_, found) => if found == [] then w.candidates else w.candidates - {found[0].id}
    case _ => w.candidates
  }

  ghost function LockAfter(w: World, o: OwnerId): Option<File<Owner>>
    requires o in w.ops
  {
    match w.ops[o].pc
    case LinkingLock => if w.lock.None? && o in w.candidates then Some(w.candidates[o]) else w.lock
    case Releasing => Compare(w.lock, o)
    case ClearingLock(record) => Compare(w.lock, record.id)
    case _ => w.lock
  }

  ghost function Staged(s: map<OwnerId, Staging>, o: OwnerId): Staging {
    if o in s then s[o] else Staging(None, None, None)
  }

  ghost function StagingAfter(w: World, o: OwnerId): map<OwnerId, Staging>
    requires o in w.ops
  {
    var s := w.staging;
    match w.ops[o].pc
    case MakingStaging => s[o := Staged(s, o)]
    case WritingStagingOwner => s[o := Staged(s, o).(owner := Some(Record(o, w.ops[o])))]
    case Building(_) =>
      if o !in s || s[o].building.None? then s
      else
        var made := s[o].building.value;
        if Complete(made) then s[o := s[o].(building := None)]
        else s[o := s[o].(building := Some(made.(written := made.written + 1)))]
    case StagingIndex(entries) => s[o := Staged(s, o).(index := Some(entries))]
    case Cleaning => s - {o}
    case RemovingStaging(owner, _) => if owner.Some? then s - {owner.value.id} else s
    case _ => s
  }

  ghost function StoreAfter(w: World, o: OwnerId): map<string, Object>
    requires o in w.ops
  {
    if w.ops[o].pc.Building? && CanPublishObject(w, o) then
      var made := w.staging[o].building.value;
      w.store[made.package.identity.hash := made]
    else w.store
  }

  ghost function IndexTemporariesAfter(w: World, o: OwnerId): map<OwnerId, File<Index>>
    requires o in w.ops
  {
    match w.ops[o].pc
    case OpeningIndex => if StagedIndex(w, o) then w.indexTemporaries[o := Partial] else w.indexTemporaries
    case WritingIndex(index) => w.indexTemporaries[o := Whole(index)]
    case RenamingIndex(_) => w.indexTemporaries - {o}
    case _ => w.indexTemporaries
  }

  ghost function IndexAfter(w: World, o: OwnerId): Option<File<Index>>
    requires o in w.ops
  {
    if w.ops[o].pc.RenamingIndex? && o in w.indexTemporaries then Some(w.indexTemporaries[o]) else w.index
  }

  ghost function At(w: World, o: OwnerId, pc: Pc): Ops
    requires o in w.ops
  {
    w.ops[o := w.ops[o].(pc := pc)]
  }

  ghost function Advance(w: World, o: OwnerId): World
    requires o in w.ops
  {
    World(TemporariesAfter(w.temporaries, o, w.ops[o]), CandidatesAfter(w, o), LockAfter(w, o),
          StagingAfter(w, o), StoreAfter(w, o), IndexTemporariesAfter(w, o), IndexAfter(w, o),
          At(w, o, AfterSuccess(w, o)), w.dead)
  }

  // ---- the next effect fails -----------------------------------------------------

  ghost function AfterFailure(pc: Pc): Pc {
    match pc
    case WritingTemporary => DroppingTemporary(false)
    case LinkingCandidate => DroppingTemporary(false)
    case DroppingTemporary(linked) => if linked then DroppingCandidate(false) else Done
    case LinkingLock => DroppingCandidate(false)
    case DroppingCandidate(locked) => if locked then Releasing else Done
    case MakingStaging => Releasing
    case WritingStagingOwner => Cleaning
    case Loading(_) => Cleaning
    case Building(_) => Cleaning
    case StagingIndex(_) => Cleaning
    case Verifying => Cleaning
    case OpeningIndex => Cleaning
    case WritingIndex(_) => Cleaning
    case RenamingIndex(_) => Cleaning
    case _ => Done
  }

  /** What an operation may meet in a Skill Source or in the lock directory. */
  ghost function AfterLoad(w: World, o: OwnerId, p: Package): World
    requires o in w.ops && w.ops[o].pc.Loading?
  {
    var entries := w.ops[o].pc.entries;
    if p.identity.hash in w.store then w.(ops := At(w, o, Add(entries, Entry(p.identity, true))))
    else
      w.(ops := At(w, o, Building(entries)),
         staging := w.staging[o := Staged(w.staging, o).(building := Some(Object(p, 0)))])
  }

  ghost function AfterRead(w: World, o: OwnerId, candidate: OwnerId): Pc
    requires o in w.ops && w.ops[o].pc.Discovering? && candidate in w.candidates
  {
    match w.candidates[candidate]
    case Whole(owner) => if owner.id == candidate then Discovering(w.ops[o].pc.found + [owner]) else Done
    case Partial => Done
  }

  /** One event; an event that is not possible in `w` leaves it as it is. */
  ghost function Step(w: World, e: Event): World {
    match e
    case Begin(o, pid, recovery) =>
      if o in w.ops || pid in w.dead then w
      else w.(ops := w.ops[o := Op(pid, if recovery then Discovering([]) else CreatingTemporary)])
    case Proceed(o) => if Running(w, o) then Advance(w, o) else w
    case Fail(o) => if Running(w, o) then w.(ops := At(w, o, AfterFailure(w.ops[o].pc))) else w
    case Unsupported(o, identity) =>
      if Running(w, o) && w.ops[o].pc.Loading? then w.(ops := At(w, o, Add(w.ops[o].pc.entries, Entry(identity, false)))) else w
    case Load(o, p) => if Running(w, o) && w.ops[o].pc.Loading? then AfterLoad(w, o, p) else w
    case Read(o, candidate) =>
      if Running(w, o) && w.ops[o].pc.Discovering? && candidate in w.candidates
      then w.(ops := At(w, o, AfterRead(w, o, candidate))) else w
    case Crash(pid) => w.(dead := w.dead + {pid})
  }

  const INITIAL := World(map[], map[], None, map[], map[], map[], None, map[], {})

  ghost function Run(events: seq<Event>): World {
    if events == [] then INITIAL else Step(Run(events[..|events| - 1]), events[|events| - 1])
  }
}
