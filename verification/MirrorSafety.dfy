/** What every run of the Issues mirror keeps. */
module MirrorSafety {
  import opened Text
  import opened Decimal
  import opened Markers
  import opened IssueSemantics
  import opened EffectiveDocument
  import opened MirrorStores
  import opened MirrorProtocol

  // ---- the invariant -------------------------------------------------------

  /* `id` is the number of an Issue that was created for `key`. */
  ghost predicate Named(w: World, key: string, id: string) {
    Atoi(id).Some? && Atoi(id).value in w.created && w.created[Atoi(id).value].key == key
  }

  ghost predicate CreatedFor(w: World, key: string, number: int) {
    IssueNumber(number) && number in w.created && w.created[number].key == key
  }

  ghost predicate MarkersTell(w: World) {
    forall n | n in w.remote.issues ::
      w.remote.issues[n].number == n && IssueNumber(n)
      && forall key | IsKey(key) && HasDiaryMarker(w.remote.issues[n].body, key) :: CreatedFor(w, key, n)
  }

  ghost predicate BindingsName(w: World) {
    forall key | key in w.bindings :: Named(w, key, w.bindings[key].remoteId)
  }

  /* The new Issue of `o` is being recorded. */
  ghost predicate InWindow(w: World, o: OpId, n: int) {
    Running(w, o) && w.ops[o].pc.SavingProvisional? && w.ops[o].pc.made.number == n
  }

  ghost predicate CreationsKept(w: World) {
    forall n | n in w.created ::
      var c := w.created[n];
      IssueNumber(n) && c.op in w.ops && w.ops[c.op].call.key == c.key
      && (n in w.lost || c.key in w.bindings || InWindow(w, c.op, n))
  }

  ghost predicate OneCreation(w: World) {
    forall n, m | n in w.created && m in w.created && w.created[n].key == w.created[m].key
      && n !in w.lost && m !in w.lost :: n == m
  }

  /* The correction that a keep-local posts. */
  ghost function Posted(hash: Hasher, call: Call): CorrectionMarker
    requires call.kind.Resolve?
  {
    CorrectionMarker(call.content, hash(call.content), call.kind.observed)
  }

  ghost predicate IsPostOf(hash: Hasher, w: World, j: nat, key: string, m: CorrectionMarker) {
    j in w.authors && w.authors[j] in w.ops &&
    var call := w.ops[w.authors[j]].call;
    call.key == key && call.kind.Resolve? && m == Posted(hash, call)
  }

  /* Every correction was posted by an operation, and equal ones by the same. */
  ghost predicate CorrectionsTell(hash: Hasher, w: World) {
    && (forall j, key | 0 <= j < |w.remote.comments| && IsKey(key) && ParseCorrection(hash, w.remote.comments[j].body, key).Some? ::
          IsPostOf(hash, w, j, key, ParseCorrection(hash, w.remote.comments[j].body, key).value))
    && (forall i, j, key | 0 <= i < j < |w.remote.comments| && IsKey(key)
          && w.remote.comments[i].issue == w.remote.comments[j].issue
          && ParseCorrection(hash, w.remote.comments[i].body, key).Some?
          && ParseCorrection(hash, w.remote.comments[i].body, key) == ParseCorrection(hash, w.remote.comments[j].body, key) ::
          i in w.authors && j in w.authors && w.authors[i] == w.authors[j])
  }

  /* Past the last request that an operation may send. */
  ghost predicate Over(pc: Pc) { pc.SavingSnapshot? || pc.SavingBinding? || pc.Releasing? || pc.Finished? }

  /* Only an operation that sent a stored correction again may post another. */
  ghost predicate PostsKept(w: World) {
    && (forall j | j in w.authors ::
          j < |w.remote.comments| && w.authors[j] in w.ops
          && (w.authors[j] in w.resent || Over(w.ops[w.authors[j]].pc)))
    && (forall i, j | i in w.authors && j in w.authors && i != j && w.authors[i] == w.authors[j] :: w.authors[i] in w.resent)
  }

  /* Of the first `until` comments only own ones are the correction that `o` is after. */
  ghost predicate NotYet(hash: Hasher, w: World, o: OpId, call: Call, n: int, e: Effective, until: nat) {
    forall j | 0 <= j < until && j < |w.remote.comments| && w.remote.comments[j].issue == n
      && SameCorrection(hash, w.remote.comments[j].body, call, e) ::
      j in w.authors && w.authors[j] == o
  }

  ghost predicate Correcting(w: World, call: Call, b: Binding, n: int, e: Effective) {
    && Named(w, call.key, b.remoteId) && Atoi(b.remoteId) == Some(n)
    && call.kind.Resolve? && call.kind.choice.KeepLocal?
    && call.kind.observed == e.revision && e.revision != "" && OneLine(e.revision)
  }

  /* The remote document an operation is bound to. */
  ghost function Bound(pc: Pc): Option<string> {
    match pc
    case GettingIssue(b) => Some(b.remoteId)
    case ReadingCorrection(b) => Some(b.remoteId)
    case ReadingPredecessor(b, _, _) => Some(b.remoteId)
    case ScanningCorrections(b, _, _, _) => Some(b.remoteId)
    case WritingCorrection(b, _, _, _) => Some(b.remoteId)
    case SavingSnapshot(r) => if r.revision == "" then None else Some(r.remoteId)
    case SavingBinding(r) => Some(r.remoteId)
    case _ => None
  }

  /* An operation that found no binding, until it has recorded one. */
  ghost predicate Unbound(pc: Pc) {
    pc.ScanningMarked? || pc.EnsuringLabels? || pc.Creating? || pc.SavingProvisional?
  }

  /* The Issue whose number an operation is about to record. */
  ghost function Seen(pc: Pc): Option<int> {
    match pc
    case SavingProvisional(i) => Some(i.number)
    case Closing(i, _, _) => Some(i.number)
    case ClosingExisting(i, _) => Some(i.number)
    case _ => None
  }

  ghost predicate ReadEffective(pc: Pc) {
    pc.ReadingPredecessor? ==> pc.correction.revision != "" && OneLine(pc.correction.revision)
  }

  ghost predicate Scanned(hash: Hasher, w: World, o: OpId, call: Call, pc: Pc) {
    && (pc.ScanningCorrections? ==>
          Correcting(w, call, pc.binding, pc.number, pc.effective)
          && NotYet(hash, w, o, call, pc.number, pc.effective, pc.next))
    && (pc.WritingCorrection? ==>
          Correcting(w, call, pc.binding, pc.number, pc.effective)
          && NotYet(hash, w, o, call, pc.number, pc.effective, |w.remote.comments|))
  }

  /* A resolution that has read its binding has a known choice. */
  ghost predicate ChoiceKnown(call: Call, pc: Pc) {
    call.kind.Resolve? && (pc.GettingIssue? || pc.ReadingCorrection? || pc.ReadingPredecessor?) ==> !call.kind.choice.OtherChoice?
  }

  ghost predicate PcOk(hash: Hasher, w: World, o: OpId, op: Op) {
    var key, pc := op.call.key, op.pc;
    && ChoiceKnown(op.call, pc)
    && (Bound(pc).Some? ==> Named(w, key, Bound(pc).value))
    && (Unbound(pc) ==> key !in w.bindings)
    && (Seen(pc).Some? ==> CreatedFor(w, key, Seen(pc).value))
    && (pc.SavingProvisional? ==> w.created[pc.made.number].op == o)
    && ReadEffective(pc)
    && Scanned(hash, w, o, op.call, pc)
  }

  ghost predicate Locking(op: Op) { !op.call.kind.Status? && !op.pc.Acquiring? }

  ghost predicate HoldsLock(w: World, o: OpId, op: Op) {
    Locking(op) ==>
      op.call.key in w.locks
      && w.locks[op.call.key] == if op.pc.WritingOwner? then Unwritten(o) else Owned(LockOwner(op.pid, o))
  }

  /* Only an operation that holds the lock gets to these points. */
  ghost predicate UnlockedPc(op: Op) {
    op.call.kind.Status? ==>
      op.pc.Loading? || op.pc.GettingIssue? || op.pc.ReadingCorrection? || op.pc.ReadingPredecessor? || op.pc.Finished?
  }

  ghost predicate OpOk(hash: Hasher, w: World, o: OpId) {
    o in w.ops &&
    var op := w.ops[o];
    IsKey(op.call.key) && Unmarked(op.call.content) && HoldsLock(w, o, op) && UnlockedPc(op) && PcOk(hash, w, o, op)
  }

  ghost predicate OpsOk(hash: Hasher, w: World) {
    forall o | Running(w, o) :: OpOk(hash, w, o)
  }

  ghost predicate Inv(hash: Hasher, w: World) {
    MarkersTell(w) && BindingsName(w) && CreationsKept(w) && OneCreation(w) && CorrectionsTell(hash, w) && PostsKept(w)
    && w.lost <= w.created.Keys && OpsOk(hash, w)
  }

  // ---- mutual exclusion ----------------------------------------------------

  lemma OneInside(hash: Hasher, w: World, a: OpId, b: OpId)
    requires OpsOk(hash, w) && Running(w, a) && Running(w, b)
    requires Locking(w.ops[a]) && Locking(w.ops[b]) && w.ops[a].call.key == w.ops[b].call.key
    ensures a == b
  {
    assert OpOk(hash, w, a) && OpOk(hash, w, b);
  }

  // ---- frames --------------------------------------------------------------

  ghost predicate Grows(w: World, v: World) {
    && (forall n | n in w.created :: n in v.created && v.created[n] == w.created[n])
    && (forall j | j in w.authors :: j in v.authors && v.authors[j] == w.authors[j])
  }

  lemma NamedGrows(w: World, v: World, key: string, id: string)
    requires Grows(w, v) && Named(w, key, id)
    ensures Named(v, key, id)
  {
    assert Atoi(id).value in w.created;
  }

  /* What a step of `o`, or of a person, may do to the world of the others. */
  ghost predicate QuietFor(hash: Hasher, w: World, v: World, key: string) {
    && Grows(w, v)
    && (key !in w.bindings ==> key !in v.bindings)
    && (key in w.locks ==> key in v.locks && v.locks[key] == w.locks[key])
    && |w.remote.comments| <= |v.remote.comments|
    && (forall j | 0 <= j < |w.remote.comments| :: v.remote.comments[j].issue == w.remote.comments[j].issue
          && AddsNoCorrection(hash, w.remote.comments[j].body, v.remote.comments[j].body))
    && (forall j | |w.remote.comments| <= j < |v.remote.comments| ::
          ParseCorrection(hash, v.remote.comments[j].body, key).None?)
  }

  lemma QuietKeepsNotYet(hash: Hasher, w: World, v: World, o: OpId, call: Call, n: int, e: Effective, until: nat, newUntil: nat)
    requires IsKey(call.key) && QuietFor(hash, w, v, call.key) && NotYet(hash, w, o, call, n, e, until)
    requires newUntil == until || (until == |w.remote.comments| && newUntil == |v.remote.comments|)
    ensures NotYet(hash, v, o, call, n, e, newUntil)
  {
    hide ParseCorrection;
    forall j | 0 <= j < newUntil && j < |v.remote.comments| && v.remote.comments[j].issue == n
      && SameCorrection(hash, v.remote.comments[j].body, call, e)
      ensures j in v.authors && v.authors[j] == o
    {
      assert AddsNoCorrection(hash, w.remote.comments[j].body, v.remote.comments[j].body);
      assert SameCorrection(hash, w.remote.comments[j].body, call, e);
    }
  }

  lemma QuietKeepsPc(hash: Hasher, w: World, v: World, o: OpId, op: Op)
    requires PcOk(hash, w, o, op) && IsKey(op.call.key) && QuietFor(hash, w, v, op.call.key)
    ensures PcOk(hash, v, o, op)
  {
    hide ParseCorrection, HasDiaryMarker, Atoi, Unmarked, IsSha256, OneLine, NotYet, AddsNoCorrection;
    var pc := op.pc;
    if Bound(pc).Some? {
      NamedGrows(w, v, op.call.key, Bound(pc).value);
    }
    if Seen(pc).Some? {
      assert Seen(pc).value in w.created;
    }
    if pc.ScanningCorrections? || pc.WritingCorrection? {
      NamedGrows(w, v, op.call.key, pc.binding.remoteId);
    }
    if pc.ScanningCorrections? {
      QuietKeepsNotYet(hash, w, v, o, op.call, pc.number, pc.effective, pc.next, pc.next);
    }
    if pc.WritingCorrection? {
      QuietKeepsNotYet(hash, w, v, o, op.call, pc.number, pc.effective, |w.remote.comments|, |v.remote.comments|);
    }
  }

  /** An operation that did not move keeps its claims over a quiet step. */
  lemma QuietKeepsOp(hash: Hasher, w: World, v: World, o: OpId)
    requires OpOk(hash, w, o) && o in v.ops && v.ops[o] == w.ops[o]
    requires QuietFor(hash, w, v, w.ops[o].call.key)
    ensures OpOk(hash, v, o)
  {
    hide Unmarked, IsSha256, PcOk, AddsNoCorrection;
    QuietKeepsPc(hash, w, v, o, w.ops[o]);
  }

  /* An operation that needs no lock claims only what never becomes false. */
  lemma UnlockedKeepsOp(hash: Hasher, w: World, v: World, o: OpId)
    requires OpOk(hash, w, o) && o in v.ops && v.ops[o] == w.ops[o] && !Locking(w.ops[o])
    requires Grows(w, v)
    ensures OpOk(hash, v, o)
  {
    hide Unmarked, IsSha256, Atoi, OneLine, NotYet, Grows, Named;
    var op := w.ops[o];
    if Bound(op.pc).Some? {
      NamedGrows(w, v, op.call.key, Bound(op.pc).value);
    }
  }

  /* `v` is `w` after a step of `o` alone. */
  ghost predicate StepOf(hash: Hasher, w: World, v: World, o: OpId) {
    && Running(w, o) && o in v.ops && v.ops == w.ops[o := v.ops[o]]
    && v.ops[o].call == w.ops[o].call && v.ops[o].pid == w.ops[o].pid
    && v.dead == w.dead
    && Grows(w, v)
    && (forall key | IsKey(key) && key != w.ops[o].call.key :: QuietFor(hash, w, v, key))
    && (Locking(w.ops[o]) || w.ops[o].call.key !in w.locks || QuietFor(hash, w, v, w.ops[o].call.key))
  }

  lemma StepKeepsOthers(hash: Hasher, w: World, v: World, o: OpId, other: OpId)
    requires OpsOk(hash, w) && StepOf(hash, w, v, o)
    requires other != o && Running(v, other)
    ensures OpOk(hash, v, other)
  {
    hide ParseCorrection, HasDiaryMarker, Atoi, QuietFor, PcOk;
    assert Running(w, other) && OpOk(hash, w, other);
    assert IsKey(w.ops[other].call.key);
    var key := w.ops[o].call.key;
    if w.ops[other].call.key != key || QuietFor(hash, w, v, key) {
      QuietKeepsOp(hash, w, v, other);
    } else {
      if Locking(w.ops[other]) {
        assert HoldsLock(w, other, w.ops[other]);
        OneInside(hash, w, o, other);
      }
      UnlockedKeepsOp(hash, w, v, other);
    }
  }

  lemma StepKeepsInv(hash: Hasher, w: World, v: World, o: OpId)
    requires OpsOk(hash, w) && StepOf(hash, w, v, o)
    requires MarkersTell(v) && BindingsName(v) && CreationsKept(v) && OneCreation(v) && CorrectionsTell(hash, v) && PostsKept(v)
    requires v.lost <= v.created.Keys && (Running(v, o) ==> OpOk(hash, v, o))
    ensures Inv(hash, v)
  {
    hide MarkersTell, BindingsName, CreationsKept, OneCreation, CorrectionsTell, PostsKept, StepOf, OpOk;
    forall other | Running(v, other) ensures OpOk(hash, v, other) {
      if other != o {
        StepKeepsOthers(hash, w, v, o, other);
      }
    }
  }

  // ---- steps that only move the operation -----------------------------------

  /* `pc` may follow for an operation whose lock record is written. */
  ghost predicate MayMove(hash: Hasher, w: World, o: OpId, pc: Pc)
    requires o in w.ops
  {
    var op := w.ops[o].(pc := pc);
    !pc.Acquiring? && !pc.WritingOwner? && UnlockedPc(op) && PcOk(hash, w, o, op)
  }

  lemma QuietSame(hash: Hasher, w: World, v: World)
    requires v.created == w.created && v.authors == w.authors
    requires v.bindings == w.bindings && v.locks == w.locks && v.remote.comments == w.remote.comments
    ensures forall key :: QuietFor(hash, w, v, key)
  {
    hide ParseCorrection;
  }

  lemma MoveIsStep(hash: Hasher, w: World, o: OpId, pc: Pc, lost: set<int>)
    requires Running(w, o)
    ensures StepOf(hash, w, To(w, o, pc).(lost := lost), o)
  {
    hide QuietFor;
    QuietSame(hash, w, To(w, o, pc).(lost := lost));
  }

  lemma MoveKeepsCreations(w: World, o: OpId, pc: Pc, lost: set<int>)
    requires Running(w, o) && CreationsKept(w) && OneCreation(w) && w.lost <= lost
    requires w.ops[o].pc.SavingProvisional? ==> w.ops[o].pc.made.number in lost
    ensures CreationsKept(To(w, o, pc).(lost := lost)) && OneCreation(To(w, o, pc).(lost := lost))
  {}

  /* The calls of operations are as they were, and a finished one stays so. */
  ghost predicate SameCalls(w: World, v: World) {
    forall o | o in w.ops :: o in v.ops && v.ops[o].call == w.ops[o].call && (Over(w.ops[o].pc) ==> Over(v.ops[o].pc))
  }

  lemma SamePosts(hash: Hasher, w: World, v: World)
    requires v.remote.comments == w.remote.comments && v.authors == w.authors && v.resent == w.resent && SameCalls(w, v)
    requires CorrectionsTell(hash, w) && PostsKept(w)
    ensures CorrectionsTell(hash, v) && PostsKept(v)
  {
    hide ParseCorrection, IsSha256, Over;
    forall j, key | 0 <= j < |v.remote.comments| && IsKey(key) && ParseCorrection(hash, v.remote.comments[j].body, key).Some?
      ensures IsPostOf(hash, v, j, key, ParseCorrection(hash, v.remote.comments[j].body, key).value)
    {
      assert IsPostOf(hash, w, j, key, ParseCorrection(hash, w.remote.comments[j].body, key).value);
    }
  }

  lemma SameRemoteClaims(hash: Hasher, w: World, v: World)
    requires v.created == w.created && v.bindings == w.bindings && v.remote == w.remote
    requires v.authors == w.authors && v.resent == w.resent && SameCalls(w, v)
    requires MarkersTell(w) && BindingsName(w) && CorrectionsTell(hash, w) && PostsKept(w)
    ensures MarkersTell(v) && BindingsName(v) && CorrectionsTell(hash, v) && PostsKept(v)
  {
    hide ParseCorrection, HasDiaryMarker, CorrectionsTell, PostsKept, SameCalls;
    SamePosts(hash, w, v);
  }

  lemma SameWorldPc(hash: Hasher, w: World, v: World, o: OpId, op: Op)
    requires v.created == w.created && v.bindings == w.bindings && v.remote == w.remote && v.authors == w.authors
    requires PcOk(hash, w, o, op)
    ensures PcOk(hash, v, o, op)
  {
    hide ParseCorrection, HasDiaryMarker, OneLine;
  }

  lemma Move(hash: Hasher, w: World, o: OpId, pc: Pc, lost: set<int>)
    requires Inv(hash, w) && Running(w, o) && !w.ops[o].pc.Acquiring? && !w.ops[o].pc.WritingOwner?
    requires MayMove(hash, w, o, pc) && w.lost <= lost <= w.created.Keys
    requires w.ops[o].pc.SavingProvisional? ==> w.ops[o].pc.made.number in lost
    requires Over(w.ops[o].pc) ==> Over(pc)
    ensures Inv(hash, To(w, o, pc).(lost := lost))
  {
    hide MarkersTell, BindingsName, CreationsKept, OneCreation, CorrectionsTell, PostsKept, StepOf, PcOk, Unmarked, IsSha256, Ending, Over;
    var v := To(w, o, pc).(lost := lost);
    MoveIsStep(hash, w, o, pc, lost);
    MoveKeepsCreations(w, o, pc, lost);
    SameRemoteClaims(hash, w, v);
    assert OpOk(hash, w, o);
    SameWorldPc(hash, w, v, o, w.ops[o].(pc := pc));
    assert OpOk(hash, v, o);
    StepKeepsInv(hash, w, v, o);
  }

  lemma MoveOn(hash: Hasher, w: World, o: OpId, pc: Pc)
    requires Inv(hash, w) && Running(w, o) && !w.ops[o].pc.Acquiring? && !w.ops[o].pc.WritingOwner?
    requires MayMove(hash, w, o, pc) && !w.ops[o].pc.SavingProvisional?
    requires Over(w.ops[o].pc) ==> Over(pc)
    ensures Inv(hash, To(w, o, pc))
  {
    hide MayMove, MarkersTell, BindingsName, CreationsKept, OneCreation, CorrectionsTell, PostsKept, OpsOk, Over;
    Move(hash, w, o, pc, w.lost);
    assert To(w, o, pc).(lost := w.lost) == To(w, o, pc);
  }

  // ---- where the reads lead -------------------------------------------------

  lemma NamedByNumber(w: World, key: string, n: int)
    requires CreatedFor(w, key, n)
    ensures Named(w, key, Itoa(n))
  {
    AtoiOfItoa(n);
  }

  lemma MayFinish(hash: Hasher, w: World, o: OpId)
    requires o in w.ops
    ensures MayMove(hash, w, o, Finished)
  {
    hide Named, NotYet, CreatedFor, OneLine;
  }

  lemma MayRelease(hash: Hasher, w: World, o: OpId)
    requires o in w.ops && !w.ops[o].call.kind.Status?
    ensures MayMove(hash, w, o, Releasing)
  {
    hide Named, NotYet, CreatedFor, OneLine;
  }

  lemma MaySave(hash: Hasher, w: World, o: OpId, r: Result)
    requires o in w.ops && !w.ops[o].call.kind.Status? && Named(w, w.ops[o].call.key, r.remoteId)
    ensures MayMove(hash, w, o, SavingBinding(r))
  {
    hide Named, NotYet, CreatedFor, OneLine;
  }

  lemma MaySaveSnapshot(hash: Hasher, w: World, o: OpId, r: Result)
    requires o in w.ops && !w.ops[o].call.kind.Status?
    requires r.revision == "" || Named(w, w.ops[o].call.key, r.remoteId)
    ensures MayMove(hash, w, o, SavingSnapshot(r))
  {
    hide Named, NotYet, CreatedFor, OneLine;
  }

  lemma MayEnd(hash: Hasher, w: World, o: OpId, r: Result)
    requires o in w.ops
    requires r.state == Mirrored || (r.state == SyncConflict && r.revision != "") ==> Named(w, w.ops[o].call.key, r.remoteId)
    ensures MayMove(hash, w, o, Ending(w.ops[o].call.kind, r))
  {
    hide Named, MayMove;
    if w.ops[o].call.kind.Status? {
      MayFinish(hash, w, o);
    } else {
      match r.state {
        case Mirrored => MaySave(hash, w, o, r);
        case SyncConflict => MaySaveSnapshot(hash, w, o, r);
        case _ => MayRelease(hash, w, o);
      }
    }
  }

  lemma MayEndWithout(hash: Hasher, w: World, o: OpId, state: State)
    requires o in w.ops && state != Mirrored
    ensures MayMove(hash, w, o, Ending(w.ops[o].call.kind, FailedResult(state)))
  {
    MayEnd(hash, w, o, FailedResult(state));
  }

  lemma MayClose(hash: Hasher, w: World, o: OpId, i: Issue)
    requires o in w.ops && CreatedFor(w, w.ops[o].call.key, i.number) && !w.ops[o].call.kind.Status?
    ensures MayMove(hash, w, o, ClosingExisting(i, 0))
  {
    hide CreatedFor;
  }

  lemma MayExist(hash: Hasher, w: World, o: OpId, i: Issue)
    requires o in w.ops && CreatedFor(w, w.ops[o].call.key, i.number) && !w.ops[o].call.kind.Status?
    ensures MayMove(hash, w, o, Existing(hash, w.ops[o].call, i))
  {
    hide DecodeIssue, IssueRevision, Named, CreatedFor, Itoa, Ending, MayMove;
    NamedByNumber(w, w.ops[o].call.key, i.number);
    MayClose(hash, w, o, i);
    MayEnd(hash, w, o, CompareIssue(hash, w.ops[o].call.key, w.ops[o].call.content, i));
  }

  lemma MayScan(hash: Hasher, w: World, o: OpId, b: Binding, n: int, e: Effective)
    requires o in w.ops && Correcting(w, w.ops[o].call, b, n, e)
    ensures MayMove(hash, w, o, ScanningCorrections(b, n, e, 0))
  {
    hide Named, OneLine, SameCorrection;
  }

  lemma MayResolve(hash: Hasher, w: World, o: OpId, b: Binding, e: Effective)
    requires o in w.ops && w.ops[o].call.kind.Resolve? && !w.ops[o].call.kind.choice.OtherChoice?
    requires Named(w, w.ops[o].call.key, b.remoteId) && e.revision != "" && OneLine(e.revision)
    ensures MayMove(hash, w, o, Resolving(hash, w.ops[o].call, b, e))
  {
    hide MayMove, Named, OneLine, Ending;
    var call := w.ops[o].call;
    if Atoi(b.remoteId).Some? && call.kind.observed == e.revision && call.kind.choice.KeepLocal? {
      MayScan(hash, w, o, b, Atoi(b.remoteId).value, e);
    }
    MayEnd(hash, w, o, Result(SyncConflict, b.remoteId, e.revision, e.content, hash(e.content)));
    MayEnd(hash, w, o, Result(Mirrored, b.remoteId, e.revision, e.content, hash(e.content)));
    MayEnd(hash, w, o, Result(Mirrored, b.remoteId, e.revision, "", hash(e.content)));
    MayEndWithout(hash, w, o, SyncPending);
  }

  lemma MayCompare(hash: Hasher, w: World, o: OpId, b: Binding, e: Effective)
    requires o in w.ops && Named(w, w.ops[o].call.key, b.remoteId) && e.revision != "" && OneLine(e.revision)
    requires w.ops[o].call.kind.Resolve? ==> !w.ops[o].call.kind.choice.OtherChoice?
    ensures MayMove(hash, w, o, AtEffective(hash, w.ops[o].call, b, e))
  {
    hide Named, OneLine, Resolving, MayMove;
    if w.ops[o].call.kind.Resolve? {
      MayResolve(hash, w, o, b, e);
    } else {
      MayEnd(hash, w, o, CompareEffective(hash, w.ops[o].call.content, b.remoteId, e));
    }
  }
}
