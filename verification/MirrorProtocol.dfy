/** Mirror, Recover, Status and Resolve of GitHub Issues as processes that take
    one local or remote effect at a time, over a remote that other people edit
    between any two effects, with crashes between any two effects
    (issues_semantics.go, storage/recovery.go, rest.go). */
module MirrorProtocol {
  import opened Text
  import opened Decimal
  import opened Markers
  import opened IssueSemantics
  import opened EffectiveDocument
  import opened MirrorStores

  type OpId = nat   // an operation; it is also the lock owner ID, which is fresh
  type Pid = nat

  datatype Kind = Mirror | Recover | Status | Resolve(choice: Choice, observed: string)
  datatype Call = Call(kind: Kind, key: string, content: string)

  /** Where an operation stands: the effect it is about to perform. A request
      that changes the remote may be sent again; `resends` counts that. */
  datatype Pc =
    | Acquiring
    | WritingOwner
    | Loading
    | GettingIssue(binding: Binding)
    | ScanningMarked
    | EnsuringLabels
    | Creating(resends: nat)
    | SavingProvisional(made: Issue)
    | Closing(made: Issue, saved: bool, resends: nat)
    | ClosingExisting(seen: Issue, resends: nat)
    | ReadingCorrection(binding: Binding)
    | ReadingPredecessor(binding: Binding, correction: Effective, recorded: string)
    | ScanningCorrections(binding: Binding, number: int, effective: Effective, next: nat)
    | WritingCorrection(binding: Binding, number: int, effective: Effective, resends: nat)
    | SavingSnapshot(result: Result)
    | SavingBinding(result: Result)
    | Releasing
    | Finished

  datatype Op = Op(pid: Pid, call: Call, pc: Pc)

  /** History: which operation created an Issue, and for which key. */
  datatype Creation = Creation(key: string, op: OpId)

  /** The rest is history too: `lost` has the Issues that the operation which
      created them did not record, by a crash, a failed save or a lost answer;
      `authors` names the operation that posted the comment at a position; and
      `resent` has the operations that sent a stored correction again. */
  datatype World = World(
    remote: Remote, created: map<int, Creation>,
    bindings: Bindings, locks: Locks, snapshots: Snapshots,
    ops: map<OpId, Op>, dead: set<Pid>,
    lost: set<int>, authors: map<nat, OpId>, resent: set<OpId>)

  /** What the client hears of a change the remote has made: that it is made, a
      status for which it sends the request again, or nothing it can use. */
  datatype Reply = Success | Transient | Unusable

  /** `Refused` is a status for which the client sends a request again that the
      remote has not acted on. */
  datatype Event =
    | Begin(op: OpId, pid: Pid, call: Call)
    | Proceed(op: OpId)
    | Fail(op: OpId, failure: State)
    | Found(op: OpId, number: int)
    | Created(op: OpId, number: int, at: Instant, reply: Reply)
    | Closed(op: OpId, at: Instant, reply: Reply)
    | Commented(op: OpId, id: int, at: Instant, reply: Reply)
    | Refused(op: OpId)
    | Crash(pid: Pid)
    | ClearOrphan(key: string)
    | HumanOpensIssue(issue: Issue)
    | HumanEditsIssue(number: int, body: string, at: Instant)
    | HumanSetsState(number: int, closed: bool, completed: bool, at: Instant)
    | HumanDeletesIssue(number: int)
    | HumanComments(comment: Comment)
    | HumanEditsComment(index: nat, body: string, at: Instant)

  // ---- what one effect does ----------------------------------------------

  ghost predicate Running(w: World, o: OpId) {
    o in w.ops && w.ops[o].pid !in w.dead && !w.ops[o].pc.Finished?
  }

  ghost function To(w: World, o: OpId, pc: Pc): World
    requires o in w.ops
  {
    w.(ops := w.ops[o := w.ops[o].(pc := pc)])
  }

  /* The end of ManagedMirror.run: only a mirrored or a conflicting result is
     recorded. Status takes no lock and records nothing. */
  ghost function Ending(kind: Kind, r: Result): Pc {
    if kind.Status? then Finished
    else match r.state
      case Mirrored => SavingBinding(r)
      case SyncConflict => SavingSnapshot(r)
      case _ => Releasing
  }

  ghost function EndingWithout(kind: Kind): Pc { Ending(kind, FailedResult(SyncPending)) }

  ghost function Existing(hash: Hasher, call: Call, i: Issue): Pc {
    var compared := CompareIssue(hash, call.key, call.content, i);
    if compared.state == Mirrored && !(i.closed && i.completed) then ClosingExisting(i, 0)
    else Ending(call.kind, compared)
  }

  ghost function Resolving(hash: Hasher, call: Call, b: Binding, e: Effective): Pc
    requires call.kind.Resolve?
  {
    if call.kind.observed == "" || call.kind.observed != e.revision then
      Ending(call.kind, Result(SyncConflict, b.remoteId, e.revision, e.content, hash(e.content)))
    else if call.kind.choice.KeepRemote? then
      Ending(call.kind, Result(Mirrored, b.remoteId, e.revision, e.content, hash(e.content)))
    else if e.exact && e.content == call.content then
      Ending(call.kind, Result(Mirrored, b.remoteId, e.revision, "", hash(e.content)))
    else
      match Atoi(b.remoteId)
      case Some(n) => if n > 0 then ScanningCorrections(b, n, e, 0) else EndingWithout(call.kind)
      case None => EndingWithout(call.kind)
  }

  ghost function AtEffective(hash: Hasher, call: Call, b: Binding, e: Effective): Pc {
    if call.kind.Resolve? then Resolving(hash, call, b, e)
    else Ending(call.kind, CompareEffective(hash, call.content, b.remoteId, e))
  }

  ghost function AtIssue(hash: Hasher, call: Call, b: Binding, i: Issue): Pc {
    match call.kind
    case Resolve(_, _) => Resolving(hash, call, b, DecodeIssue(hash, i, call.key))
    case Status => Finished
    case _ => Existing(hash, call, i)
  }

  ghost function AtLoad(w: World, call: Call): Pc {
    var bound := call.key in w.bindings;
    if (call.kind.Mirror? || call.kind.Recover?) && call.content == "" then EndingWithout(call.kind)
    else if call.kind.Resolve? && call.kind.choice.OtherChoice? then Ending(call.kind, FailedResult(SyncConflict))
    else if bound then
      var b := w.bindings[call.key];
      if AtCorrection(b) then ReadingCorrection(b) else GettingIssue(b)
    else match call.kind
      case Mirror => EnsuringLabels
      case Recover => ScanningMarked
      case _ => EndingWithout(call.kind)
  }

  /* findCorrection's test. */
  ghost predicate SameCorrection(hash: Hasher, body: string, call: Call, e: Effective) {
    ParseCorrection(hash, body, call.key) == Some(CorrectionMarker(call.content, hash(call.content), e.revision))
  }

  ghost function EffectiveFailure(hash: Hasher, state: State, b: Binding, e: Effective): Result {
    Result(state, b.remoteId, e.revision, e.content, hash(e.content))
  }

  /* Where a read leads. The effects that need the server's own numbers and
     instants have events of their own; until then the operation waits. */
  ghost function AfterRead(hash: Hasher, w: World, call: Call, pc: Pc): Pc {
    match pc
    case Loading => AtLoad(w, call)
    case GettingIssue(b) =>
      (match GetIssue(w.remote, b.remoteId)
       case Ok(i) => AtIssue(hash, call, b, i)
       case Err(_) => Ending(call.kind, FailedResult(PrerequisiteMissing)))
    case ScanningMarked => EnsuringLabels
    case EnsuringLabels => Creating(0)
    case ReadingCorrection(b) =>
      (match RestCorrection(w.remote, b)
       case Err(_) => Ending(call.kind, FailedResult(PrerequisiteMissing))
       case Ok(c) =>
         var e := DecodeComment(hash, c, call.key);
         match ParseCorrection(hash, c.body, call.key)
         case None => AtEffective(hash, call, b, e)
         case Some(m) => ReadingPredecessor(b, e, m.predecessor))
    case ReadingPredecessor(b, correction, recorded) =>
      (match RestPredecessor(hash, w.remote, call.key, b.remoteId, recorded)
       case Err(_) => Ending(call.kind, FailedResult(PrerequisiteMissing))
       case Ok(p) => AtEffective(hash, call, b, Choose(correction, recorded, p)))
    case ScanningCorrections(b, n, e, next) =>
      if next >= |w.remote.comments| then WritingCorrection(b, n, e, 0)
      else
        var c := w.remote.comments[next];
        if c.issue == n && SameCorrection(hash, c.body, call, e) then
          Ending(call.kind, Result(Mirrored, b.remoteId, CommentRevision(hash, c), e.content, hash(call.content)))
        else ScanningCorrections(b, n, e, next + 1)
    case _ => pc
  }

  ghost function AfterSuccess(hash: Hasher, w: World, call: Call, pc: Pc): Pc {
    match pc
    case Acquiring => if call.key in w.locks then Finished else WritingOwner
    case WritingOwner => Loading
    case SavingProvisional(i) => Closing(i, true, 0)
    case SavingSnapshot(r) => if r.revision == "" then Releasing else SavingBinding(r)
    case SavingBinding(_) => Releasing
    case Releasing => Finished
    case _ => AfterRead(hash, w, call, pc)
  }

  ghost function LocksAfter(locks: Locks, o: OpId, op: Op): Locks {
    var key := op.call.key;
    if op.pc.Acquiring? && key !in locks then locks[key := Unwritten(o)]
    else if op.pc.WritingOwner? then locks[key := Owned(LockOwner(op.pid, o))]
    else if op.pc.Releasing? then ReleaseLock(locks, key, o)
    else locks
  }

  /* The provisional record of a new Issue, or the result of the operation. */
  ghost function BindingsAfter(hash: Hasher, bindings: Bindings, call: Call, pc: Pc): Bindings {
    if pc.SavingProvisional? then
      SaveBinding(bindings, call.key, BindingOf(hash, call.content, ObservedIssue(hash, SyncPending, pc.made, call.content)))
    else if pc.SavingBinding? then SaveBinding(bindings, call.key, BindingOf(hash, call.content, pc.result))
    else bindings
  }

  ghost function SnapshotsAfter(snapshots: Snapshots, call: Call, pc: Pc): Snapshots {
    if pc.SavingSnapshot? then WriteSnapshot(snapshots, call.key, pc.result.revision, pc.result.content) else snapshots
  }

  /** The next effect succeeds. */
  ghost function Advance(hash: Hasher, w: World, o: OpId): World
    requires o in w.ops
  {
    var op := w.ops[o];
    To(w, o, AfterSuccess(hash, w, op.call, op.pc)).(
      locks := LocksAfter(w.locks, o, op),
      bindings := BindingsAfter(hash, w.bindings, op.call, op.pc),
      snapshots := SnapshotsAfter(w.snapshots, op.call, op.pc))
  }

  ghost function AfterFailure(hash: Hasher, call: Call, pc: Pc, failure: State): Pc {
    match pc
    case Acquiring => Finished
    case WritingOwner => Finished
    case Loading => EndingWithout(call.kind)
    case SavingProvisional(i) => Closing(i, false, 0)
    case Closing(i, _, _) => Ending(call.kind, ObservedIssue(hash, failure, i, call.content))
    case ClosingExisting(i, _) => Ending(call.kind, ObservedIssue(hash, failure, i, call.content))
    case ScanningCorrections(b, _, e, _) => Ending(call.kind, EffectiveFailure(hash, failure, b, e))
    case WritingCorrection(b, _, e, _) => Ending(call.kind, EffectiveFailure(hash, failure, b, e))
    case SavingSnapshot(_) => Releasing
    case SavingBinding(_) => Releasing
    case Releasing => Finished
    case _ => Ending(call.kind, FailedResult(failure))
  }

  /** The next effect fails and has had no effect. */
  ghost function Failed(hash: Hasher, w: World, o: OpId, failure: State): World
    requires o in w.ops
  {
    var op := w.ops[o];
    To(w, o, AfterFailure(hash, op.call, op.pc, failure)).(
      locks := if op.pc.WritingOwner? then w.locks - {op.call.key} else w.locks,
      lost := if op.pc.SavingProvisional? then w.lost + {op.pc.made.number} else w.lost)
  }

  ghost function NewIssue(w: World, o: OpId, number: int, at: Instant): Issue
    requires o in w.ops
  {
    Issue(number, DiaryBody(w.ops[o].call.content, w.ops[o].call.key), at, false, false, false)
  }

  /* A change of the remote that is sent again, at most three times in all. */
  const MAX_RESENDS := 2

  ghost predicate Mutates(pc: Pc) { pc.Creating? || pc.Closing? || pc.ClosingExisting? || pc.WritingCorrection? }

  ghost predicate Resendable(pc: Pc) { Mutates(pc) && pc.resends < MAX_RESENDS }

  ghost function Resending(pc: Pc): Pc
    requires Mutates(pc)
  {
    pc.(resends := pc.resends + 1)
  }

  /* After a reply other than success. */
  ghost function AfterReply(call: Call, pc: Pc, reply: Reply): Pc {
    if reply.Transient? && Resendable(pc) then Resending(pc) else EndingWithout(call.kind)
  }

  ghost function AfterCreated(hash: Hasher, w: World, o: OpId, number: int, at: Instant, reply: Reply): World
    requires o in w.ops
  {
    var i := NewIssue(w, o, number, at);
    var w1 := w.(remote := w.remote.(issues := w.remote.issues[number := i]),
                 created := w.created[number := Creation(w.ops[o].call.key, o)]);
    if reply.Success? then To(w1, o, SavingProvisional(i))
    else To(w1, o, AfterReply(w.ops[o].call, w.ops[o].pc, reply)).(lost := w.lost + {number})
  }

  /* Without its provisional record, a new Issue is not reported as mirrored. */
  ghost function ClosedPc(hash: Hasher, call: Call, pc: Pc, i: Issue, reply: Reply): Pc {
    if !reply.Success? then AfterReply(call, pc, reply)
    else if pc.Closing? && !pc.saved then EndingWithout(call.kind)
    else Ending(call.kind, MirroredIssue(hash, i, call.content))
  }

  ghost function AfterClosed(hash: Hasher, w: World, o: OpId, number: int, at: Instant, reply: Reply): World
    requires o in w.ops && number in w.remote.issues
  {
    var i := w.remote.issues[number].(closed := true, completed := true, updatedAt := at);
    To(w.(remote := w.remote.(issues := w.remote.issues[number := i])), o, ClosedPc(hash, w.ops[o].call, w.ops[o].pc, i, reply))
  }

  ghost function NewComment(hash: Hasher, call: Call, number: int, e: Effective, id: int, at: Instant): Comment {
    Comment(id, number, CorrectionBody(hash, call.content, call.key, e.revision), at)
  }

  ghost function AfterCommented(hash: Hasher, w: World, o: OpId, id: int, at: Instant, reply: Reply): World
    requires o in w.ops && w.ops[o].pc.WritingCorrection?
  {
    var call, pc := w.ops[o].call, w.ops[o].pc;
    var c := NewComment(hash, call, pc.number, pc.effective, id, at);
    var w1 := w.(remote := w.remote.(comments := w.remote.comments + [c]), authors := w.authors[|w.remote.comments| := o]);
    if reply.Success? then
      To(w1, o, Ending(call.kind, Result(Mirrored, pc.binding.remoteId, CommentRevision(hash, c), pc.effective.content, hash(call.content))))
    else
      To(w1, o, AfterReply(call, pc, reply)).(resent := if reply.Transient? && Resendable(pc) then w.resent + {o} else w.resent)
  }

  ghost predicate FreshComment(w: World, id: int) {
    forall c | c in w.remote.comments :: c.id != id
  }

  ghost predicate IssueNumber(number: int) { 0 < number <= MAX_INT64 }

  ghost predicate FreshIssue(w: World, number: int) {
    IssueNumber(number) && number !in w.remote.issues && number !in w.created
  }

  // ---- what other people may write ----------------------------------------

  /* Their text brings no diary marker that was not in the old text. */
  ghost predicate AddsNoMarker(was: string, body: string) {
    forall key | IsKey(key) :: HasDiaryMarker(body, key) ==> HasDiaryMarker(was, key)
  }

  ghost predicate NoMarker(body: string) {
    forall key | IsKey(key) :: !HasDiaryMarker(body, key)
  }

  ghost predicate AddsNoCorrection(hash: Hasher, was: string, body: string) {
    forall key | IsKey(key) :: ParseCorrection(hash, body, key).Some? ==>
      ParseCorrection(hash, body, key) == ParseCorrection(hash, was, key)
  }

  ghost predicate NoCorrection(hash: Hasher, body: string) {
    forall key | IsKey(key) :: ParseCorrection(hash, body, key).None?
  }

  ghost predicate ByPerson(e: Event) {
    e.HumanOpensIssue? || e.HumanEditsIssue? || e.HumanSetsState? || e.HumanDeletesIssue? || e.HumanComments? || e.HumanEditsComment?
  }

  ghost function Edited(hash: Hasher, r: Remote, w: World, e: Event): Remote {
    match e
    case HumanOpensIssue(i) =>
      if FreshIssue(w, i.number) && NoMarker(i.body) then r.(issues := r.issues[i.number := i]) else r
    case HumanEditsIssue(n, body, at) =>
      if n in r.issues && AddsNoMarker(r.issues[n].body, body)
      then r.(issues := r.issues[n := r.issues[n].(body := body, updatedAt := at)]) else r
    case HumanSetsState(n, closed, completed, at) =>
      if n in r.issues
      then r.(issues := r.issues[n := r.issues[n].(closed := closed, completed := completed, updatedAt := at)]) else r
    case HumanDeletesIssue(n) => r.(issues := r.issues - {n})
    case HumanComments(c) =>
      if FreshComment(w, c.id) && NoCorrection(hash, c.body) then r.(comments := r.comments + [c]) else r
    case HumanEditsComment(j, body, at) =>
      if j < |r.comments| && AddsNoCorrection(hash, r.comments[j].body, body)
      then r.(comments := r.comments[j := r.comments[j].(body := body, updatedAt := at)]) else r
    case _ => r
  }

  /* The remote answers the operation, or acts for it without an answer. */
  ghost function Answered(hash: Hasher, w: World, o: OpId, e: Event): World
    requires Running(w, o)
  {
    var op := w.ops[o];
    match e
    case Found(_, n) =>
      if op.pc.ScanningMarked? && n in w.remote.issues && w.remote.issues[n].closed && !w.remote.issues[n].pullRequest
        && HasDiaryMarker(w.remote.issues[n].body, op.call.key)
      then To(w, o, Existing(hash, op.call, w.remote.issues[n])) else w
    case Created(_, n, at, reply) =>
      if op.pc.Creating? && FreshIssue(w, n) then AfterCreated(hash, w, o, n, at, reply) else w
    case Closed(_, at, reply) =>
      var i := if op.pc.Closing? then Some(op.pc.made.number) else if op.pc.ClosingExisting? then Some(op.pc.seen.number) else None;
      if i.Some? && i.value in w.remote.issues then AfterClosed(hash, w, o, i.value, at, reply) else w
    case Commented(_, id, at, reply) =>
      if op.pc.WritingCorrection? && FreshComment(w, id) then AfterCommented(hash, w, o, id, at, reply) else w
    case Refused(_) =>
      if Resendable(op.pc) then To(w, o, Resending(op.pc)) else w
    case _ => w
  }

  /** One event; an event that is not possible in `w` leaves it as it is. */
  ghost function Step(hash: Hasher, w: World, e: Event): World {
    match e
    case Begin(o, pid, call) =>
      if o in w.ops || pid in w.dead || !IsKey(call.key) || !Unmarked(call.content) then w
      else w.(ops := w.ops[o := Op(pid, call, if call.kind.Status? then Loading else Acquiring)])
    case Proceed(o) => if Running(w, o) then Advance(hash, w, o) else w
    case Fail(o, failure) => if Running(w, o) && failure != Mirrored then Failed(hash, w, o, failure) else w
    case Crash(pid) =>
      w.(dead := w.dead + {pid},
         lost := w.lost + set o | o in w.ops && Running(w, o) && w.ops[o].pid == pid && w.ops[o].pc.SavingProvisional? :: w.ops[o].pc.made.number)
    case ClearOrphan(key) => w.(locks := ClearOrphanLock(w.locks, key, w.dead))
    case Found(o, _) => if Running(w, o) then Answered(hash, w, o, e) else w
    case Created(o, _, _, _) => if Running(w, o) then Answered(hash, w, o, e) else w
    case Closed(o, _, _) => if Running(w, o) then Answered(hash, w, o, e) else w
    case Commented(o, _, _, _) => if Running(w, o) then Answered(hash, w, o, e) else w
    case Refused(o) => if Running(w, o) then Answered(hash, w, o, e) else w
    case _ => w.(remote := Edited(hash, w.remote, w, e))
  }

  const INITIAL := World(Remote(map[], []), map[], map[], map[], map[], map[], {}, {}, map[], {})

  ghost function Run(hash: Hasher, events: seq<Event>): World {
    if events == [] then INITIAL
    else Step(hash, Run(hash, events[..|events| - 1]), events[|events| - 1])
  }
}
