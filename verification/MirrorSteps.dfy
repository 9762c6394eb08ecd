/** Each step of the Issues mirror, and each edit by a person, keeps the
    invariant of MirrorSafety. */
module MirrorSteps {
  import opened Text
  import opened Decimal
  import opened Markers
  import opened IssueSemantics
  import opened EffectiveDocument
  import opened MirrorStores
  import opened MirrorProtocol
  import opened MirrorSafety

  // ---- claims of the operation that moves -----------------------------------

  lemma RunningOk(hash: Hasher, w: World, o: OpId)
    requires OpsOk(hash, w) && Running(w, o)
    ensures OpOk(hash, w, o)
  {}

  lemma BoundIsNamed(hash: Hasher, w: World, o: OpId)
    requires OpOk(hash, w, o) && Bound(w.ops[o].pc).Some?
    ensures Named(w, w.ops[o].call.key, Bound(w.ops[o].pc).value)
  {
    hide Unmarked, IsSha256, Scanned, ReadEffective, HoldsLock, Named;
  }

  lemma SeenIsCreated(hash: Hasher, w: World, o: OpId)
    requires OpOk(hash, w, o) && Seen(w.ops[o].pc).Some?
    ensures CreatedFor(w, w.ops[o].call.key, Seen(w.ops[o].pc).value) && !w.ops[o].call.kind.Status?
  {
    hide Unmarked, IsSha256, Scanned, ReadEffective, HoldsLock, CreatedFor, Named;
  }

  lemma KnownChoice(hash: Hasher, w: World, o: OpId)
    requires OpOk(hash, w, o) && w.ops[o].call.kind.Resolve?
    requires var pc := w.ops[o].pc; pc.GettingIssue? || pc.ReadingCorrection? || pc.ReadingPredecessor?
    ensures !w.ops[o].call.kind.choice.OtherChoice?
  {
    hide Unmarked, IsSha256, Scanned, ReadEffective, HoldsLock, Named;
  }

  /* Only an operation that takes the lock writes. */
  lemma WriterLocks(hash: Hasher, w: World, o: OpId)
    requires OpOk(hash, w, o) && !w.ops[o].pc.Acquiring?
    requires var pc := w.ops[o].pc;
             !pc.Loading? && !pc.GettingIssue? && !pc.ReadingCorrection? && !pc.ReadingPredecessor? && !pc.Finished?
    ensures Locking(w.ops[o])
  {
    hide Unmarked, IsSha256, PcOk, HoldsLock;
  }

  // ---- reads ----------------------------------------------------------------

  lemma BoundIssueIsCreated(w: World, key: string, id: string)
    requires MarkersTell(w) && Named(w, key, id) && GetIssue(w.remote, id).Ok?
    ensures CreatedFor(w, key, GetIssue(w.remote, id).value.number)
  {}

  lemma MayRead(hash: Hasher, w: World, o: OpId, b: Binding)
    requires o in w.ops && Named(w, w.ops[o].call.key, b.remoteId)
    requires w.ops[o].call.kind.Resolve? ==> !w.ops[o].call.kind.choice.OtherChoice?
    ensures MayMove(hash, w, o, GettingIssue(b)) && MayMove(hash, w, o, ReadingCorrection(b))
  {
    hide Named, NotYet, CreatedFor, OneLine;
  }

  lemma MaySearch(hash: Hasher, w: World, o: OpId)
    requires o in w.ops && w.ops[o].call.key !in w.bindings && !w.ops[o].call.kind.Status?
    ensures MayMove(hash, w, o, ScanningMarked) && MayMove(hash, w, o, EnsuringLabels) && MayMove(hash, w, o, Creating(0))
  {
    hide Named, NotYet, CreatedFor, OneLine;
  }

  lemma MayLoad(hash: Hasher, w: World, o: OpId)
    requires o in w.ops && BindingsName(w)
    ensures MayMove(hash, w, o, AtLoad(w, w.ops[o].call))
  {
    hide Named, MayMove, Ending;
    var call := w.ops[o].call;
    MayEndWithout(hash, w, o, SyncPending);
    MayEndWithout(hash, w, o, SyncConflict);
    if call.key in w.bindings {
      if !(call.kind.Resolve? && call.kind.choice.OtherChoice?) {
        MayRead(hash, w, o, w.bindings[call.key]);
      }
    } else if !call.kind.Status? {
      MaySearch(hash, w, o);
    }
  }

  lemma DecodedRevision(hash: Hasher, i: Issue, key: string)
    ensures DecodeIssue(hash, i, key).revision == IssueRevision(hash, i)
    ensures IssueRevision(hash, i) != "" && OneLine(IssueRevision(hash, i))
  {
    IssueRevisionFacts(hash, i);
  }

  lemma MayGet(hash: Hasher, w: World, o: OpId)
    requires o in w.ops && OpOk(hash, w, o) && MarkersTell(w) && w.ops[o].pc.GettingIssue?
    ensures var b := w.ops[o].pc.binding;
            var i := GetIssue(w.remote, b.remoteId);
            i.Ok? ==> MayMove(hash, w, o, AtIssue(hash, w.ops[o].call, b, i.value))
  {
    hide Named, CreatedFor, MayMove, MarkersTell, Existing, Resolving, DecodeIssue, OpOk, IssueRevision, OneLine;
    var b := w.ops[o].pc.binding;
    if GetIssue(w.remote, b.remoteId).Ok? {
      var i := GetIssue(w.remote, b.remoteId).value;
      BoundIsNamed(hash, w, o);
      BoundIssueIsCreated(w, w.ops[o].call.key, b.remoteId);
      DecodedRevision(hash, i, w.ops[o].call.key);
      match w.ops[o].call.kind {
        case Resolve(_, _) =>
          KnownChoice(hash, w, o);
          MayResolve(hash, w, o, b, DecodeIssue(hash, i, w.ops[o].call.key));
        case Status => MayFinish(hash, w, o);
        case _ => MayExist(hash, w, o, i);
      }
    }
  }

  /* The next effect is on a local store. */
  ghost predicate Writes(pc: Pc) {
    pc.Acquiring? || pc.WritingOwner? || pc.SavingProvisional? || pc.SavingSnapshot? || pc.SavingBinding? || pc.Releasing?
  }

  lemma AdvanceReads(hash: Hasher, w: World, o: OpId)
    requires o in w.ops && !Writes(w.ops[o].pc)
    ensures Advance(hash, w, o) == To(w, o, AfterRead(hash, w, w.ops[o].call, w.ops[o].pc))
  {
    hide AfterRead;
  }

  lemma MayReadPredecessor(hash: Hasher, w: World, o: OpId, b: Binding, e: Effective, recorded: string)
    requires o in w.ops && Named(w, w.ops[o].call.key, b.remoteId) && e.revision != "" && OneLine(e.revision)
    requires w.ops[o].call.kind.Resolve? ==> !w.ops[o].call.kind.choice.OtherChoice?
    ensures MayMove(hash, w, o, ReadingPredecessor(b, e, recorded))
  {
    hide Named, NotYet, CreatedFor, OneLine;
  }

  lemma DecodedCommentRevision(hash: Hasher, c: Comment, key: string)
    ensures DecodeComment(hash, c, key).revision == CommentRevision(hash, c)
    ensures CommentRevision(hash, c) != "" && OneLine(CommentRevision(hash, c))
  {
    hide ParseCorrection;
    CommentRevisionFacts(hash, c);
  }

  lemma StepReadingCorrection(hash: Hasher, w: World, o: OpId)
    requires Inv(hash, w) && Running(w, o) && w.ops[o].pc.ReadingCorrection?
    ensures Inv(hash, Advance(hash, w, o))
  {
    hide Inv, OpsOk, OpOk, Advance, MayMove, ParseCorrection, DecodeComment, CommentRevision, Named, OneLine, Ending, AtEffective;
    hide RestCorrection;
    InvParts(hash, w, o);
    AdvanceReads(hash, w, o);
    var call, b := w.ops[o].call, w.ops[o].pc.binding;
    BoundIsNamed(hash, w, o);
    if call.kind.Resolve? { KnownChoice(hash, w, o); }
    match RestCorrection(w.remote, b) {
      case Err(_) =>
        MayEndWithout(hash, w, o, PrerequisiteMissing);
        MoveOn(hash, w, o, Ending(call.kind, FailedResult(PrerequisiteMissing)));
      case Ok(c) =>
        DecodedCommentRevision(hash, c, call.key);
        var e := DecodeComment(hash, c, call.key);
        match ParseCorrection(hash, c.body, call.key) {
          case None =>
            MayCompare(hash, w, o, b, e);
            MoveOn(hash, w, o, AtEffective(hash, call, b, e));
          case Some(m) =>
            MayReadPredecessor(hash, w, o, b, e, m.predecessor);
            MoveOn(hash, w, o, ReadingPredecessor(b, e, m.predecessor));
        }
    }
  }

  lemma CorrectionRead(hash: Hasher, w: World, o: OpId)
    requires OpOk(hash, w, o) && w.ops[o].pc.ReadingPredecessor?
    ensures var e := w.ops[o].pc.correction; e.revision != "" && OneLine(e.revision)
  {
    hide Unmarked, IsSha256, Scanned, HoldsLock, Named, OneLine;
  }

  lemma InvParts(hash: Hasher, w: World, o: OpId)
    requires Inv(hash, w) && Running(w, o)
    ensures MarkersTell(w) && BindingsName(w) && CreationsKept(w) && OneCreation(w) && CorrectionsTell(hash, w) && OpsOk(hash, w)
    ensures PostsKept(w) && OpOk(hash, w, o) && w.lost <= w.created.Keys
  {
    hide MarkersTell, BindingsName, CreationsKept, OneCreation, CorrectionsTell, PostsKept, OpOk;
  }

  lemma StepReadingPredecessor(hash: Hasher, w: World, o: OpId)
    requires Inv(hash, w) && Running(w, o) && w.ops[o].pc.ReadingPredecessor?
    ensures Inv(hash, Advance(hash, w, o))
  {
    hide Inv, OpsOk, OpOk, Advance, MayMove, RestPredecessor, Named, OneLine, Ending, AtEffective, Intact;
    hide AtLoad, AtIssue, RestCorrection, ParseCorrection, DecodeComment, SameCorrection, GetIssue;
    InvParts(hash, w, o);
    AdvanceReads(hash, w, o);
    var call, pc := w.ops[o].call, w.ops[o].pc;
    BoundIsNamed(hash, w, o);
    CorrectionRead(hash, w, o);
    if call.kind.Resolve? { KnownChoice(hash, w, o); }
    match RestPredecessor(hash, w.remote, call.key, pc.binding.remoteId, pc.recorded) {
      case Err(_) =>
        MayEndWithout(hash, w, o, PrerequisiteMissing);
        MoveOn(hash, w, o, Ending(call.kind, FailedResult(PrerequisiteMissing)));
      case Ok(p) =>
        PredecessorIsIntact(hash, w.remote, call.key, pc.binding.remoteId, pc.recorded);
        var e := Choose(pc.correction, pc.recorded, p);
        MayCompare(hash, w, o, pc.binding, e);
        MoveOn(hash, w, o, AtEffective(hash, call, pc.binding, e));
    }
  }

  lemma ScanClaims(hash: Hasher, w: World, o: OpId)
    requires OpOk(hash, w, o) && (w.ops[o].pc.ScanningCorrections? || w.ops[o].pc.WritingCorrection?)
    ensures var call, pc := w.ops[o].call, w.ops[o].pc;
            && Correcting(w, call, pc.binding, pc.number, pc.effective)
            && NotYet(hash, w, o, call, pc.number, pc.effective,
                      if pc.ScanningCorrections? then pc.next else |w.remote.comments|)
            && Locking(w.ops[o]) && IsKey(call.key) && Unmarked(call.content)
  {
    hide Unmarked, IsSha256, HoldsLock, Correcting, NotYet, Named;
  }

  lemma MayContinue(hash: Hasher, w: World, o: OpId, b: Binding, n: int, e: Effective, next: nat)
    requires o in w.ops && Correcting(w, w.ops[o].call, b, n, e) && NotYet(hash, w, o, w.ops[o].call, n, e, next)
    ensures MayMove(hash, w, o, ScanningCorrections(b, n, e, next))
    ensures next >= |w.remote.comments| ==> MayMove(hash, w, o, WritingCorrection(b, n, e, 0))
  {
    hide Named, OneLine, SameCorrection, CreatedFor;
  }

  lemma OneMore(hash: Hasher, w: World, o: OpId, call: Call, n: int, e: Effective, next: nat)
    requires next < |w.remote.comments| && NotYet(hash, w, o, call, n, e, next)
    requires w.remote.comments[next].issue == n ==> !SameCorrection(hash, w.remote.comments[next].body, call, e)
    ensures NotYet(hash, w, o, call, n, e, next + 1)
  {
    hide SameCorrection;
  }

  lemma StepScanningCorrections(hash: Hasher, w: World, o: OpId)
    requires Inv(hash, w) && Running(w, o) && w.ops[o].pc.ScanningCorrections?
    ensures Inv(hash, Advance(hash, w, o))
  {
    hide Inv, OpsOk, OpOk, Advance, MayMove, Named, OneLine, Ending, SameCorrection, CommentRevision, Unmarked, IsSha256, NotYet;
    InvParts(hash, w, o);
    AdvanceReads(hash, w, o);
    ScanClaims(hash, w, o);
    var call, pc := w.ops[o].call, w.ops[o].pc;
    var b, n, e, next := pc.binding, pc.number, pc.effective, pc.next;
    if next >= |w.remote.comments| {
      MayContinue(hash, w, o, b, n, e, next);
      MoveOn(hash, w, o, WritingCorrection(b, n, e, 0));
    } else {
      var c := w.remote.comments[next];
      if c.issue == n && SameCorrection(hash, c.body, call, e) {
        var r := Result(Mirrored, b.remoteId, CommentRevision(hash, c), e.content, hash(call.content));
        MayEnd(hash, w, o, r);
        MoveOn(hash, w, o, Ending(call.kind, r));
      } else {
        OneMore(hash, w, o, call, n, e, next);
        MayContinue(hash, w, o, b, n, e, next + 1);
        MoveOn(hash, w, o, ScanningCorrections(b, n, e, next + 1));
      }
    }
  }

  lemma StepReading(hash: Hasher, w: World, o: OpId)
    requires Inv(hash, w) && Running(w, o)
    requires var pc := w.ops[o].pc; pc.Loading? || pc.GettingIssue? || pc.ScanningMarked? || pc.EnsuringLabels?
    ensures Inv(hash, Advance(hash, w, o))
  {
    hide Inv, OpsOk, OpOk, Advance, MayMove, AtLoad, AtIssue, Ending, GetIssue;
    InvParts(hash, w, o);
    AdvanceReads(hash, w, o);
    var call := w.ops[o].call;
    var pc := w.ops[o].pc;
    if pc.Loading? {
      MayLoad(hash, w, o);
      MoveOn(hash, w, o, AtLoad(w, call));
    } else if pc.GettingIssue? {
      MayGet(hash, w, o);
      if GetIssue(w.remote, pc.binding.remoteId).Ok? {
        MoveOn(hash, w, o, AtIssue(hash, call, pc.binding, GetIssue(w.remote, pc.binding.remoteId).value));
      } else {
        MayEndWithout(hash, w, o, PrerequisiteMissing);
        MoveOn(hash, w, o, Ending(call.kind, FailedResult(PrerequisiteMissing)));
      }
    } else {
      StillUnbound(hash, w, o);
      MaySearch(hash, w, o);
      MoveOn(hash, w, o, if pc.ScanningMarked? then EnsuringLabels else Creating(0));
    }
  }

  lemma StillUnbound(hash: Hasher, w: World, o: OpId)
    requires OpOk(hash, w, o) && Unbound(w.ops[o].pc)
    ensures w.ops[o].call.key !in w.bindings && !w.ops[o].call.kind.Status?
    ensures IsKey(w.ops[o].call.key) && Unmarked(w.ops[o].call.content)
  {
    hide Unmarked, IsSha256, HoldsLock, Scanned, Named, CreatedFor;
  }

  // ---- steps on the lock ------------------------------------------------------

  /* An operation that moves outside the recording window leaves history as it was. */
  lemma KeepsCreations(w: World, v: World, o: OpId)
    requires CreationsKept(w) && OneCreation(w) && Running(w, o) && !w.ops[o].pc.SavingProvisional?
    requires o in v.ops && v.ops == w.ops[o := v.ops[o]] && v.ops[o].call == w.ops[o].call
    requires v.dead == w.dead && v.lost == w.lost && v.created == w.created
    requires forall key | key in w.bindings :: key in v.bindings
    ensures CreationsKept(v) && OneCreation(v)
  {}

  lemma OthersSeeNoLock(hash: Hasher, w: World, v: World, mine: string)
    requires v.created == w.created && v.bindings == w.bindings && v.remote == w.remote && v.authors == w.authors
    requires forall key | key != mine && key in w.locks :: key in v.locks && v.locks[key] == w.locks[key]
    ensures Grows(w, v) && forall key | key != mine :: QuietFor(hash, w, v, key)
  {
    hide ParseCorrection;
  }

  lemma LockStep(hash: Hasher, w: World, v: World, o: OpId)
    requires Inv(hash, w) && Running(w, o) && !w.ops[o].pc.SavingProvisional?
    requires v == w.(ops := v.ops, locks := v.locks) && o in v.ops
    requires v.ops == w.ops[o := v.ops[o]] && v.ops[o].call == w.ops[o].call && v.ops[o].pid == w.ops[o].pid
    requires forall key | key != w.ops[o].call.key && key in w.locks :: key in v.locks && v.locks[key] == w.locks[key]
    requires Locking(w.ops[o]) || w.ops[o].call.key !in w.locks || v.locks == w.locks
    requires Over(w.ops[o].pc) ==> Over(v.ops[o].pc)
    requires Running(v, o) ==> OpOk(hash, v, o)
    ensures Inv(hash, v)
  {
    hide MarkersTell, BindingsName, CreationsKept, OneCreation, CorrectionsTell, PostsKept, Over, OpsOk, OpOk, Grows, QuietFor;
    SameRemoteClaims(hash, w, v);
    KeepsCreations(w, v, o);
    OthersSeeNoLock(hash, w, v, w.ops[o].call.key);
    if v.locks == w.locks { QuietSame(hash, w, v); }
    StepKeepsInv(hash, w, v, o);
  }

  /* What an operation claims when it is about to write its lock record, or to
     read its binding. */
  lemma LockClaims(hash: Hasher, w: World, o: OpId, v: World)
    requires OpOk(hash, w, o) && o in v.ops && v.ops[o].call == w.ops[o].call
    requires v.ops[o].pc.WritingOwner? || v.ops[o].pc.Loading?
    requires !v.ops[o].call.kind.Status? && HoldsLock(v, o, v.ops[o])
    ensures OpOk(hash, v, o)
  {
    hide Unmarked, IsSha256, HoldsLock, NotYet, Named, CreatedFor, OneLine;
  }

  lemma AcquiringTakesLock(hash: Hasher, w: World, o: OpId)
    requires OpOk(hash, w, o) && (w.ops[o].pc.Acquiring? || w.ops[o].pc.WritingOwner?)
    ensures !w.ops[o].call.kind.Status? && IsKey(w.ops[o].call.key) && Unmarked(w.ops[o].call.content)
  {
    hide Unmarked, IsSha256, HoldsLock, PcOk;
  }

  lemma AdvanceAcquiring(hash: Hasher, w: World, o: OpId)
    requires o in w.ops && w.ops[o].pc.Acquiring?
    ensures Advance(hash, w, o) ==
            if w.ops[o].call.key in w.locks then To(w, o, Finished)
            else To(w, o, WritingOwner).(locks := w.locks[w.ops[o].call.key := Unwritten(o)])
  {
    hide AfterRead, SaveBinding, WriteSnapshot;
  }

  lemma AdvanceWritingOwner(hash: Hasher, w: World, o: OpId)
    requires o in w.ops && w.ops[o].pc.WritingOwner?
    ensures Advance(hash, w, o)
         == To(w, o, Loading).(locks := w.locks[w.ops[o].call.key := Owned(LockOwner(w.ops[o].pid, o))])
  {
    hide AfterRead, SaveBinding, WriteSnapshot;
  }

  lemma AdvanceReleasing(hash: Hasher, w: World, o: OpId)
    requires o in w.ops && w.ops[o].pc.Releasing?
    ensures Advance(hash, w, o) == To(w, o, Finished).(locks := ReleaseLock(w.locks, w.ops[o].call.key, o))
  {
    hide AfterRead, SaveBinding, WriteSnapshot, ReleaseLock;
  }

  lemma FailedLock(hash: Hasher, w: World, o: OpId, failure: State)
    requires o in w.ops && (w.ops[o].pc.Acquiring? || w.ops[o].pc.WritingOwner? || w.ops[o].pc.Releasing?)
    ensures Failed(hash, w, o, failure)
         == To(w, o, Finished).(locks := if w.ops[o].pc.WritingOwner? then w.locks - {w.ops[o].call.key} else w.locks)
  {
    hide Ending, EndingWithout, ObservedIssue, EffectiveFailure;
  }

  lemma StepAcquiring(hash: Hasher, w: World, o: OpId)
    requires Inv(hash, w) && Running(w, o) && w.ops[o].pc.Acquiring?
    ensures Inv(hash, Advance(hash, w, o))
  {
    hide Inv, OpsOk, OpOk, IsSha256, Unmarked, Advance;
    InvParts(hash, w, o);
    AcquiringTakesLock(hash, w, o);
    AdvanceAcquiring(hash, w, o);
    var v := Advance(hash, w, o);
    if w.ops[o].call.key !in w.locks {
      LockClaims(hash, w, o, v);
    }
    LockStep(hash, w, v, o);
  }

  lemma StepWritingOwner(hash: Hasher, w: World, o: OpId)
    requires Inv(hash, w) && Running(w, o) && w.ops[o].pc.WritingOwner?
    ensures Inv(hash, Advance(hash, w, o))
  {
    hide Inv, OpsOk, OpOk, IsSha256, Unmarked, Advance;
    InvParts(hash, w, o);
    AcquiringTakesLock(hash, w, o);
    AdvanceWritingOwner(hash, w, o);
    LockClaims(hash, w, o, Advance(hash, w, o));
    LockStep(hash, w, Advance(hash, w, o), o);
  }

  lemma StepReleasing(hash: Hasher, w: World, o: OpId)
    requires Inv(hash, w) && Running(w, o) && w.ops[o].pc.Releasing?
    ensures Inv(hash, Advance(hash, w, o))
  {
    hide Inv, OpsOk, OpOk, Advance;
    InvParts(hash, w, o);
    WriterLocks(hash, w, o);
    AdvanceReleasing(hash, w, o);
    LockStep(hash, w, Advance(hash, w, o), o);
  }

  lemma FailLock(hash: Hasher, w: World, o: OpId, failure: State)
    requires Inv(hash, w) && Running(w, o)
    requires w.ops[o].pc.Acquiring? || w.ops[o].pc.WritingOwner? || w.ops[o].pc.Releasing?
    ensures Inv(hash, Failed(hash, w, o, failure))
  {
    hide Inv, OpsOk, OpOk, Failed;
    InvParts(hash, w, o);
    if !w.ops[o].pc.Acquiring? { WriterLocks(hash, w, o); }
    FailedLock(hash, w, o, failure);
    LockStep(hash, w, Failed(hash, w, o, failure), o);
  }

  // ---- recording ----------------------------------------------------------------

  lemma ProvisionalIsValid(hash: Hasher, content: string, i: Issue)
    ensures ValidBinding(BindingOf(hash, content, ObservedIssue(hash, SyncPending, i, content)))
  {
    hide IsSha256, ValidRevision;
    IssueRevisionFacts(hash, i);
    assert IsSha256(hash(content));
  }

  lemma SaveIsQuiet(hash: Hasher, w: World, v: World, mine: string)
    requires v.created == w.created && v.locks == w.locks && v.remote.comments == w.remote.comments && v.authors == w.authors
    requires forall key | key in v.bindings :: key in w.bindings || key == mine
    ensures Grows(w, v) && forall key | key != mine :: QuietFor(hash, w, v, key)
  {
    hide ParseCorrection;
  }

  lemma SaveNames(w: World, v: World, key: string, b: Binding)
    requires BindingsName(w) && Named(w, key, b.remoteId) && v.created == w.created
    requires v.bindings == SaveBinding(w.bindings, key, b)
    ensures BindingsName(v)
  {
    hide IsKey, ValidBinding;
  }

  lemma ReleasingClaims(hash: Hasher, w: World, v: World, o: OpId)
    requires OpOk(hash, w, o) && Locking(w.ops[o]) && !w.ops[o].pc.WritingOwner?
    requires o in v.ops && v.ops[o] == w.ops[o].(pc := Releasing) && v.locks == w.locks
    ensures OpOk(hash, v, o)
  {
    hide Unmarked, IsSha256, NotYet, Named, OneLine, CreatedFor;
  }

  lemma SaveStep(hash: Hasher, w: World, o: OpId, b: Binding)
    requires Inv(hash, w) && Running(w, o) && w.ops[o].pc.SavingBinding? && Locking(w.ops[o])
    requires Named(w, w.ops[o].call.key, b.remoteId)
    requires OpOk(hash, w, o)
    ensures Inv(hash, To(w, o, Releasing).(bindings := SaveBinding(w.bindings, w.ops[o].call.key, b)))
  {
    hide MarkersTell, BindingsName, CreationsKept, OneCreation, CorrectionsTell, PostsKept, OpsOk, OpOk, Grows, QuietFor, ValidBinding, IsSha256, Unmarked, Named;
    var key := w.ops[o].call.key;
    var v := To(w, o, Releasing).(bindings := SaveBinding(w.bindings, key, b));
    SaveIsQuiet(hash, w, v, key);
    SaveNames(w, v, key, b);
    KeepsCreations(w, v, o);
    SameRemote(hash, w, v);
    ReleasingClaims(hash, w, v, o);
    StepKeepsInv(hash, w, v, o);
  }

  lemma SameRemote(hash: Hasher, w: World, v: World)
    requires v.created == w.created && v.remote == w.remote && v.authors == w.authors && v.resent == w.resent && SameCalls(w, v)
    requires MarkersTell(w) && CorrectionsTell(hash, w) && PostsKept(w)
    ensures MarkersTell(v) && CorrectionsTell(hash, v) && PostsKept(v)
  {
    hide HasDiaryMarker, CorrectionsTell, PostsKept, SameCalls;
    SamePosts(hash, w, v);
  }

  lemma AdvanceSavingBinding(hash: Hasher, w: World, o: OpId)
    requires o in w.ops && w.ops[o].pc.SavingBinding?
    ensures var call, r := w.ops[o].call, w.ops[o].pc.result;
            Advance(hash, w, o)
            == To(w, o, Releasing).(bindings := SaveBinding(w.bindings, call.key, BindingOf(hash, call.content, r)))
  {
    hide AfterRead, SaveBinding, WriteSnapshot, BindingOf;
  }

  lemma StepSavingBinding(hash: Hasher, w: World, o: OpId)
    requires Inv(hash, w) && Running(w, o) && w.ops[o].pc.SavingBinding?
    ensures Inv(hash, Advance(hash, w, o))
  {
    hide Inv, OpsOk, OpOk, IsSha256, Unmarked, Named, SaveBinding, ValidBinding, Advance;
    InvParts(hash, w, o);
    WriterLocks(hash, w, o);
    BoundIsNamed(hash, w, o);
    AdvanceSavingBinding(hash, w, o);
    SaveStep(hash, w, o, BindingOf(hash, w.ops[o].call.content, w.ops[o].pc.result));
  }

  lemma RecordingWasOpen(hash: Hasher, w: World, o: OpId)
    requires OpOk(hash, w, o) && w.ops[o].pc.SavingProvisional?
    ensures Locking(w.ops[o]) && IsKey(w.ops[o].call.key) && Unmarked(w.ops[o].call.content)
    ensures CreatedFor(w, w.ops[o].call.key, w.ops[o].pc.made.number) && HoldsLock(w, o, w.ops[o])
  {
    hide Unmarked, IsSha256, NotYet, Named, OneLine, CreatedFor;
  }

  /* The record closes the window of its own Issue. */
  lemma RecordKeepsCreations(w: World, v: World, o: OpId)
    requires CreationsKept(w) && OneCreation(w) && Running(w, o) && w.ops[o].call.key in v.bindings
    requires o in v.ops && v.ops == w.ops[o := v.ops[o]] && v.ops[o].call == w.ops[o].call
    requires v.dead == w.dead && v.lost == w.lost && v.created == w.created
    requires forall key | key in w.bindings :: key in v.bindings
    ensures CreationsKept(v) && OneCreation(v)
  {}

  lemma ClosingClaims(hash: Hasher, w: World, v: World, o: OpId, i: Issue)
    requires OpOk(hash, w, o) && w.ops[o].pc.SavingProvisional? && w.ops[o].pc.made == i
    requires o in v.ops && v.ops[o] == w.ops[o].(pc := Closing(i, true, 0)) && v.created == w.created && v.locks == w.locks
    ensures OpOk(hash, v, o)
  {
    hide Unmarked, IsSha256, NotYet, Named, OneLine;
    RecordingWasOpen(hash, w, o);
  }

  lemma AdvanceSavingProvisional(hash: Hasher, w: World, o: OpId)
    requires o in w.ops && w.ops[o].pc.SavingProvisional?
    ensures var call, i := w.ops[o].call, w.ops[o].pc.made;
            Advance(hash, w, o)
            == To(w, o, Closing(i, true, 0)).(
                 bindings := SaveBinding(w.bindings, call.key, BindingOf(hash, call.content, ObservedIssue(hash, SyncPending, i, call.content))))
  {
    hide AfterRead, SaveBinding, WriteSnapshot, BindingOf, ObservedIssue;
  }

  lemma RecordStep(hash: Hasher, w: World, o: OpId, i: Issue, b: Binding)
    requires Inv(hash, w) && OpOk(hash, w, o) && Running(w, o) && w.ops[o].pc == SavingProvisional(i) && Locking(w.ops[o])
    requires Named(w, w.ops[o].call.key, b.remoteId) && IsKey(w.ops[o].call.key) && ValidBinding(b)
    ensures Inv(hash, To(w, o, Closing(i, true, 0)).(bindings := SaveBinding(w.bindings, w.ops[o].call.key, b)))
  {
    hide MarkersTell, BindingsName, CreationsKept, OneCreation, CorrectionsTell, PostsKept, OpsOk, OpOk, Grows, QuietFor, ValidBinding, IsSha256, Unmarked, Named;
    var key := w.ops[o].call.key;
    var v := To(w, o, Closing(i, true, 0)).(bindings := SaveBinding(w.bindings, key, b));
    SaveIsQuiet(hash, w, v, key);
    SaveNames(w, v, key, b);
    RecordKeepsCreations(w, v, o);
    SameRemote(hash, w, v);
    ClosingClaims(hash, w, v, o, i);
    StepKeepsInv(hash, w, v, o);
  }

  lemma StepSavingProvisional(hash: Hasher, w: World, o: OpId)
    requires Inv(hash, w) && Running(w, o) && w.ops[o].pc.SavingProvisional?
    ensures Inv(hash, Advance(hash, w, o))
  {
    hide Inv, OpsOk, OpOk, IsSha256, Unmarked, ValidBinding, Advance, Named, CreatedFor, SaveBinding, HoldsLock;
    InvParts(hash, w, o);
    AdvanceSavingProvisional(hash, w, o);
    var call, i := w.ops[o].call, w.ops[o].pc.made;
    ProvisionalIsValid(hash, call.content, i);
    RecordingWasOpen(hash, w, o);
    NamedByNumber(w, call.key, i.number);
    RecordStep(hash, w, o, i, BindingOf(hash, call.content, ObservedIssue(hash, SyncPending, i, call.content)));
  }

  // ---- snapshots --------------------------------------------------------------

  /* No claim is about a snapshot. */
  lemma SnapshotsFree(hash: Hasher, w: World, s: Snapshots)
    requires Inv(hash, w)
    ensures Inv(hash, w.(snapshots := s))
  {
    hide MarkersTell, BindingsName, CreationsKept, OneCreation, CorrectionsTell, PostsKept, OpOk;
    var v := w.(snapshots := s);
    SameRemoteClaims(hash, w, v);
    assert CreationsKept(v) && OneCreation(v) by { SnapshotsOutsideHistory(w, s); }
    QuietSame(hash, w, v);
    forall o | Running(v, o) ensures OpOk(hash, v, o) {
      assert Running(w, o);
      QuietKeepsOp(hash, w, v, o);
    }
  }

  lemma SnapshotsOutsideHistory(w: World, s: Snapshots)
    requires CreationsKept(w) && OneCreation(w)
    ensures CreationsKept(w.(snapshots := s)) && OneCreation(w.(snapshots := s))
  {}

  lemma AdvanceSavesSnapshot(hash: Hasher, w: World, o: OpId)
    requires o in w.ops && w.ops[o].pc.SavingSnapshot?
    ensures var call, r := w.ops[o].call, w.ops[o].pc.result;
            Advance(hash, w, o) ==
            To(w, o, if r.revision == "" then Releasing else SavingBinding(r)).(
              snapshots := WriteSnapshot(w.snapshots, call.key, r.revision, r.content))
  {
    hide AfterRead, SaveBinding, WriteSnapshot;
  }

  lemma StepSavingSnapshot(hash: Hasher, w: World, o: OpId)
    requires Inv(hash, w) && Running(w, o) && w.ops[o].pc.SavingSnapshot?
    ensures Inv(hash, Advance(hash, w, o))
  {
    hide Inv, OpsOk, OpOk, MayMove, IsSha256, Unmarked, Named, Advance, WriteSnapshot;
    InvParts(hash, w, o);
    WriterLocks(hash, w, o);
    AdvanceSavesSnapshot(hash, w, o);
    var call, r := w.ops[o].call, w.ops[o].pc.result;
    var next := if r.revision == "" then Releasing else SavingBinding(r);
    if r.revision == "" {
      MayRelease(hash, w, o);
    } else {
      BoundIsNamed(hash, w, o);
      MaySave(hash, w, o, r);
    }
    MoveOn(hash, w, o, next);
    SnapshotsFree(hash, To(w, o, next), WriteSnapshot(w.snapshots, call.key, r.revision, r.content));
  }
}
