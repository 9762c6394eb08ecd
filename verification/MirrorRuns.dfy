/** Every run of the Issues mirror keeps the invariant of MirrorSafety, and what
    follows for all runs. */
module MirrorRuns {
  import opened Text
  import opened Decimal
  import opened Markers
  import opened IssueSemantics
  import opened EffectiveDocument
  import opened MirrorStores
  import opened MirrorProtocol
  import opened MirrorSafety
  import opened MirrorSteps

  // ---- failed effects ---------------------------------------------------------

  lemma FailClosing(hash: Hasher, w: World, o: OpId, failure: State)
    requires Inv(hash, w) && Running(w, o) && failure != Mirrored && (w.ops[o].pc.Closing? || w.ops[o].pc.ClosingExisting?)
    ensures Inv(hash, Failed(hash, w, o, failure))
  {
    hide Inv, OpsOk, OpOk, MayMove, Named, Ending, Itoa, IssueRevision;
    InvParts(hash, w, o);
    SeenIsCreated(hash, w, o);
    var call, n := w.ops[o].call, Seen(w.ops[o].pc).value;
    NamedByNumber(w, call.key, n);
    var i := if w.ops[o].pc.Closing? then w.ops[o].pc.made else w.ops[o].pc.seen;
    var r := ObservedIssue(hash, failure, i, call.content);
    MayEnd(hash, w, o, r);
    MoveOn(hash, w, o, Ending(call.kind, r));
  }

  lemma FailedCorrecting(hash: Hasher, w: World, o: OpId, failure: State)
    requires o in w.ops && (w.ops[o].pc.ScanningCorrections? || w.ops[o].pc.WritingCorrection?)
    ensures var call, pc := w.ops[o].call, w.ops[o].pc;
            Failed(hash, w, o, failure) == To(w, o, Ending(call.kind, EffectiveFailure(hash, failure, pc.binding, pc.effective)))
  {
    hide Ending, EffectiveFailure;
  }

  lemma FailCorrecting(hash: Hasher, w: World, o: OpId, failure: State)
    requires Inv(hash, w) && Running(w, o) && (w.ops[o].pc.ScanningCorrections? || w.ops[o].pc.WritingCorrection?)
    ensures Inv(hash, Failed(hash, w, o, failure))
  {
    hide Inv, OpsOk, OpOk, MayMove, Named, Ending, Failed;
    InvParts(hash, w, o);
    BoundIsNamed(hash, w, o);
    FailedCorrecting(hash, w, o, failure);
    var call, pc := w.ops[o].call, w.ops[o].pc;
    var r := EffectiveFailure(hash, failure, pc.binding, pc.effective);
    MayEnd(hash, w, o, r);
    MoveOn(hash, w, o, Ending(call.kind, r));
  }

  lemma FailSaving(hash: Hasher, w: World, o: OpId, failure: State)
    requires Inv(hash, w) && Running(w, o)
    requires w.ops[o].pc.SavingSnapshot? || w.ops[o].pc.SavingBinding?
    ensures Inv(hash, Failed(hash, w, o, failure))
  {
    hide Inv, OpsOk, OpOk, MayMove;
    InvParts(hash, w, o);
    WriterLocks(hash, w, o);
    MayRelease(hash, w, o);
    MoveOn(hash, w, o, Releasing);
  }

  lemma MayCloseUnsaved(hash: Hasher, w: World, o: OpId, i: Issue)
    requires o in w.ops && CreatedFor(w, w.ops[o].call.key, i.number) && !w.ops[o].call.kind.Status?
    ensures MayMove(hash, w, o, Closing(i, false, 0))
  {
    hide CreatedFor, Named, NotYet, OneLine;
  }

  lemma FailProvisional(hash: Hasher, w: World, o: OpId, failure: State)
    requires Inv(hash, w) && Running(w, o) && w.ops[o].pc.SavingProvisional?
    ensures Inv(hash, Failed(hash, w, o, failure))
  {
    hide Inv, OpsOk, OpOk, MayMove;
    InvParts(hash, w, o);
    SeenIsCreated(hash, w, o);
    var i := w.ops[o].pc.made;
    assert i.number in w.created by { assert CreatedFor(w, w.ops[o].call.key, i.number); }
    MayCloseUnsaved(hash, w, o, i);
    Move(hash, w, o, Closing(i, false, 0), w.lost + {i.number});
  }

  lemma FailReading(hash: Hasher, w: World, o: OpId, failure: State)
    requires Inv(hash, w) && Running(w, o) && failure != Mirrored
    requires var pc := w.ops[o].pc;
             pc.Loading? || pc.GettingIssue? || pc.ScanningMarked? || pc.EnsuringLabels? || pc.Creating?
             || pc.ReadingCorrection? || pc.ReadingPredecessor?
    ensures Inv(hash, Failed(hash, w, o, failure))
  {
    hide Inv, OpsOk, OpOk, MayMove, Ending;
    InvParts(hash, w, o);
    MayEndWithout(hash, w, o, failure);
    MayEndWithout(hash, w, o, SyncPending);
    MoveOn(hash, w, o, Ending(w.ops[o].call.kind, FailedResult(if w.ops[o].pc.Loading? then SyncPending else failure)));
  }

  lemma FailKeepsInv(hash: Hasher, w: World, o: OpId, failure: State)
    requires Inv(hash, w) && Running(w, o) && failure != Mirrored
    ensures Inv(hash, Failed(hash, w, o, failure))
  {
    hide Inv, Failed;
    match w.ops[o].pc {
      case Acquiring => FailLock(hash, w, o, failure);
      case WritingOwner => FailLock(hash, w, o, failure);
      case Releasing => FailLock(hash, w, o, failure);
      case Closing(_, _, _) => FailClosing(hash, w, o, failure);
      case ClosingExisting(_, _) => FailClosing(hash, w, o, failure);
      case ScanningCorrections(_, _, _, _) => FailCorrecting(hash, w, o, failure);
      case WritingCorrection(_, _, _, _) => FailCorrecting(hash, w, o, failure);
      case SavingSnapshot(_) => FailSaving(hash, w, o, failure);
      case SavingBinding(_) => FailSaving(hash, w, o, failure);
      case SavingProvisional(_) => FailProvisional(hash, w, o, failure);
      case _ => FailReading(hash, w, o, failure);
    }
  }

  lemma WaitingReads(hash: Hasher, w: World, call: Call, pc: Pc)
    requires Mutates(pc)
    ensures AfterRead(hash, w, call, pc) == pc
  {
    hide AtLoad, AtIssue, AtEffective, GetIssue, RestCorrection, RestPredecessor, ParseCorrection, SameCorrection, Ending;
  }

  lemma WaitingStays(hash: Hasher, w: World, o: OpId)
    requires Running(w, o) && Mutates(w.ops[o].pc)
    ensures Advance(hash, w, o) == w
  {
    hide Advance, AfterRead;
    AdvanceReads(hash, w, o);
    WaitingReads(hash, w, w.ops[o].call, w.ops[o].pc);
    assert w.ops[o := w.ops[o]] == w.ops;
  }

  lemma AdvanceKeepsInv(hash: Hasher, w: World, o: OpId)
    requires Inv(hash, w) && Running(w, o)
    ensures Inv(hash, Advance(hash, w, o))
  {
    hide Inv, Advance;
    match w.ops[o].pc {
      case Acquiring => StepAcquiring(hash, w, o);
      case WritingOwner => StepWritingOwner(hash, w, o);
      case ReadingCorrection(_) => StepReadingCorrection(hash, w, o);
      case ReadingPredecessor(_, _, _) => StepReadingPredecessor(hash, w, o);
      case ScanningCorrections(_, _, _, _) => StepScanningCorrections(hash, w, o);
      case SavingProvisional(_) => StepSavingProvisional(hash, w, o);
      case SavingSnapshot(_) => StepSavingSnapshot(hash, w, o);
      case SavingBinding(_) => StepSavingBinding(hash, w, o);
      case Releasing => StepReleasing(hash, w, o);
      case Loading => StepReading(hash, w, o);
      case GettingIssue(_) => StepReading(hash, w, o);
      case ScanningMarked => StepReading(hash, w, o);
      case EnsuringLabels => StepReading(hash, w, o);
      case _ => WaitingStays(hash, w, o);
    }
  }

  // ---- the remote's answers ------------------------------------------------------

  lemma MayResend(hash: Hasher, w: World, o: OpId)
    requires OpOk(hash, w, o) && Mutates(w.ops[o].pc)
    ensures MayMove(hash, w, o, Resending(w.ops[o].pc))
  {
    hide Unmarked, IsSha256, NotYet, Named, OneLine, CreatedFor, HoldsLock;
  }

  lemma RefusedKeepsInv(hash: Hasher, w: World, o: OpId)
    requires Inv(hash, w) && Running(w, o) && Resendable(w.ops[o].pc)
    ensures Inv(hash, To(w, o, Resending(w.ops[o].pc)))
  {
    hide Inv, OpsOk, OpOk, MayMove;
    InvParts(hash, w, o);
    MayResend(hash, w, o);
    MoveOn(hash, w, o, Resending(w.ops[o].pc));
  }

  lemma FoundKeepsInv(hash: Hasher, w: World, o: OpId, n: int)
    requires Inv(hash, w) && Running(w, o) && w.ops[o].pc.ScanningMarked? && n in w.remote.issues
    requires HasDiaryMarker(w.remote.issues[n].body, w.ops[o].call.key)
    ensures Inv(hash, To(w, o, Existing(hash, w.ops[o].call, w.remote.issues[n])))
  {
    hide Inv, OpsOk, OpOk, MayMove, Existing, HasDiaryMarker, CreatedFor;
    InvParts(hash, w, o);
    StillUnbound(hash, w, o);
    var i := w.remote.issues[n];
    assert CreatedFor(w, w.ops[o].call.key, i.number);
    MayExist(hash, w, o, i);
    MoveOn(hash, w, o, Existing(hash, w.ops[o].call, i));
  }

  /* `w` after a new Issue, before its author moves. */
  ghost function WithIssue(w: World, n: int, i: Issue, c: Creation): World {
    w.(remote := w.remote.(issues := w.remote.issues[n := i]), created := w.created[n := c])
  }

  lemma NewIssueIsMarked(hash: Hasher, w: World, n: int, i: Issue, c: Creation, content: string)
    requires MarkersTell(w) && FreshIssue(w, n) && i.number == n && IsKey(c.key) && Unmarked(content)
    requires i.body == DiaryBody(content, c.key)
    ensures MarkersTell(WithIssue(w, n, i, c))
  {
    hide HasDiaryMarker, DiaryBody, Unmarked, IsSha256;
    forall key | IsKey(key) && HasDiaryMarker(i.body, key) ensures key == c.key {
      DiaryBodyMarks(content, c.key, key);
    }
  }

  lemma NewIssueIsQuiet(hash: Hasher, w: World, v: World)
    requires Grows(w, v) && v.bindings == w.bindings && v.locks == w.locks && v.remote.comments == w.remote.comments
    ensures forall key :: QuietFor(hash, w, v, key)
  {
    hide ParseCorrection;
  }

  lemma NamesStay(hash: Hasher, w: World, v: World)
    requires Grows(w, v) && v.bindings == w.bindings && v.remote.comments == w.remote.comments
    requires v.authors == w.authors && v.resent == w.resent && SameCalls(w, v)
    requires BindingsName(w) && CorrectionsTell(hash, w) && PostsKept(w)
    ensures BindingsName(v) && CorrectionsTell(hash, v) && PostsKept(v)
  {
    hide CorrectionsTell, PostsKept, SameCalls, Named, Grows;
    SamePosts(hash, w, v);
    forall key | key in v.bindings ensures Named(v, key, v.bindings[key].remoteId) {
      NamedGrows(w, v, key, v.bindings[key].remoteId);
    }
  }

  /* Nobody else is recording an Issue for the key, and no earlier one was recorded. */
  lemma NoEarlierCreation(hash: Hasher, w: World, o: OpId, n: int)
    requires Inv(hash, w) && Running(w, o) && w.ops[o].pc.Creating?
    requires n in w.created && w.created[n].key == w.ops[o].call.key
    ensures n in w.lost
  {
    hide MarkersTell, BindingsName, OneCreation, CorrectionsTell, PostsKept, OpOk;
    RunningOk(hash, w, o);
    StillUnbound(hash, w, o);
    WriterLocks(hash, w, o);
    var c := w.created[n];
    if InWindow(w, c.op, n) {
      RunningOk(hash, w, c.op);
      WriterLocks(hash, w, c.op);
      OneInside(hash, w, o, c.op);
    }
  }

  lemma CreationIsKept(hash: Hasher, w: World, v: World, o: OpId, n: int)
    requires Inv(hash, w) && Running(w, o) && w.ops[o].pc.Creating? && FreshIssue(w, n)
    requires v.created == w.created[n := Creation(w.ops[o].call.key, o)]
    requires o in v.ops && v.ops == w.ops[o := v.ops[o]] && v.ops[o].call == w.ops[o].call && v.ops[o].pid == w.ops[o].pid
    requires v.bindings == w.bindings && v.dead == w.dead && w.lost <= v.lost
    requires n in v.lost || InWindow(v, o, n)
    ensures CreationsKept(v) && OneCreation(v)
  {
    hide MarkersTell, BindingsName, CorrectionsTell, OpsOk;
    forall m | m in v.created && m != n && v.created[m].key == w.ops[o].call.key ensures m in v.lost {
      NoEarlierCreation(hash, w, o, m);
    }
  }

  lemma ProvisionalClaims(hash: Hasher, w: World, v: World, o: OpId, i: Issue)
    requires OpOk(hash, w, o) && w.ops[o].pc.Creating? && v.locks == w.locks && v.bindings == w.bindings
    requires o in v.ops && v.ops[o] == w.ops[o].(pc := SavingProvisional(i))
    requires IssueNumber(i.number) && i.number in v.created && v.created[i.number] == Creation(w.ops[o].call.key, o)
    ensures OpOk(hash, v, o)
  {
    hide Unmarked, IsSha256, NotYet, Named, OneLine;
    StillUnbound(hash, w, o);
  }

  lemma EndingClaims(hash: Hasher, w: World, v: World, o: OpId)
    requires OpOk(hash, w, o) && Locking(w.ops[o]) && !w.ops[o].pc.WritingOwner?
    requires o in v.ops && v.ops[o] == w.ops[o].(pc := EndingWithout(w.ops[o].call.kind)) && v.locks == w.locks
    ensures OpOk(hash, v, o)
  {
    hide Unmarked, IsSha256, NotYet, Named, OneLine, CreatedFor;
  }

  lemma ReplyClaims(hash: Hasher, w: World, v: World, o: OpId, reply: Reply)
    requires OpOk(hash, w, o) && w.ops[o].pc.Creating? && v.locks == w.locks && v.bindings == w.bindings
    requires o in v.ops && v.ops[o] == w.ops[o].(pc := AfterReply(w.ops[o].call, w.ops[o].pc, reply))
    ensures OpOk(hash, v, o)
  {
    hide Unmarked, IsSha256, NotYet, Named, OneLine, CreatedFor, EndingWithout;
    StillUnbound(hash, w, o);
    WriterLocks(hash, w, o);
    if !(reply.Transient? && Resendable(w.ops[o].pc)) { EndingClaims(hash, w, v, o); }
  }

  lemma CreatedKeepsInv(hash: Hasher, w: World, o: OpId, n: int, at: Instant, reply: Reply)
    requires Inv(hash, w) && Running(w, o) && w.ops[o].pc.Creating? && FreshIssue(w, n)
    ensures Inv(hash, AfterCreated(hash, w, o, n, at, reply))
  {
    hide MarkersTell, BindingsName, CreationsKept, OneCreation, CorrectionsTell, PostsKept, OpsOk, OpOk, QuietFor, Unmarked, IsSha256;
    hide DiaryBody, Ending, EndingWithout, AfterReply;
    InvParts(hash, w, o);
    StillUnbound(hash, w, o);
    WriterLocks(hash, w, o);
    var i, c := NewIssue(w, o, n, at), Creation(w.ops[o].call.key, o);
    var v := AfterCreated(hash, w, o, n, at, reply);
    NewIssueIsMarked(hash, w, n, i, c, w.ops[o].call.content);
    SameMarkers(WithIssue(w, n, i, c), v);
    NewIssueIsQuiet(hash, w, v);
    NamesStay(hash, w, v);
    CreationIsKept(hash, w, v, o, n);
    if reply.Success? { ProvisionalClaims(hash, w, v, o, i); } else { ReplyClaims(hash, w, v, o, reply); }
    StepKeepsInv(hash, w, v, o);
  }

  lemma SameMarkers(w: World, v: World)
    requires v.created == w.created && v.remote.issues == w.remote.issues && MarkersTell(w)
    ensures MarkersTell(v)
  {
    hide HasDiaryMarker;
  }

  // ---- edits by people -----------------------------------------------------------

  /* `v` differs from `w` by what is on the remote. */
  ghost predicate RemoteOnly(w: World, v: World) { v == w.(remote := v.remote) }

  lemma EditKeepsHistory(w: World, v: World)
    requires CreationsKept(w) && OneCreation(w) && BindingsName(w) && RemoteOnly(w, v)
    ensures CreationsKept(v) && OneCreation(v) && BindingsName(v)
  {}

  lemma EditKeepsInv(hash: Hasher, w: World, v: World)
    requires Inv(hash, w) && RemoteOnly(w, v) && MarkersTell(v) && CorrectionsTell(hash, v) && PostsKept(v)
    requires forall key :: QuietFor(hash, w, v, key)
    ensures Inv(hash, v)
  {
    hide MarkersTell, BindingsName, CreationsKept, OneCreation, CorrectionsTell, PostsKept, OpOk, QuietFor;
    EditKeepsHistory(w, v);
    forall o | Running(v, o) ensures OpOk(hash, v, o) {
      assert Running(w, o);
      QuietKeepsOp(hash, w, v, o);
    }
  }

  lemma SameCorrections(hash: Hasher, w: World, v: World)
    requires CorrectionsTell(hash, w) && PostsKept(w) && RemoteOnly(w, v) && v.remote.comments == w.remote.comments
    ensures CorrectionsTell(hash, v) && PostsKept(v)
  {
    hide CorrectionsTell, PostsKept, Over;
    SamePosts(hash, w, v);
  }

  lemma EditedIssueTells(w: World, v: World, n: int, i: Issue)
    requires MarkersTell(w) && n in w.remote.issues && i.number == n && AddsNoMarker(w.remote.issues[n].body, i.body)
    requires v.created == w.created && v.remote.issues == w.remote.issues[n := i]
    ensures MarkersTell(v)
  {
    hide HasDiaryMarker, IsSha256;
  }

  lemma IssueEdit(hash: Hasher, w: World, n: int, i: Issue)
    requires Inv(hash, w) && n in w.remote.issues && i.number == w.remote.issues[n].number
    requires AddsNoMarker(w.remote.issues[n].body, i.body)
    ensures Inv(hash, w.(remote := w.remote.(issues := w.remote.issues[n := i])))
  {
    hide BindingsName, CreationsKept, OneCreation, CorrectionsTell, PostsKept, OpsOk, QuietFor, AddsNoMarker, HasDiaryMarker;
    var v := w.(remote := w.remote.(issues := w.remote.issues[n := i]));
    EditedIssueTells(w, v, n, i);
    SameCorrections(hash, w, v);
    QuietSame(hash, w, v);
    EditKeepsInv(hash, w, v);
  }

  lemma IssueAdded(hash: Hasher, w: World, i: Issue)
    requires Inv(hash, w) && FreshIssue(w, i.number) && NoMarker(i.body)
    ensures Inv(hash, w.(remote := w.remote.(issues := w.remote.issues[i.number := i])))
  {
    hide BindingsName, CreationsKept, OneCreation, CorrectionsTell, PostsKept, OpsOk, QuietFor, HasDiaryMarker, IsSha256;
    var v := w.(remote := w.remote.(issues := w.remote.issues[i.number := i]));
    SameCorrections(hash, w, v);
    QuietSame(hash, w, v);
    EditKeepsInv(hash, w, v);
  }

  lemma IssueDeleted(hash: Hasher, w: World, n: int)
    requires Inv(hash, w)
    ensures Inv(hash, w.(remote := w.remote.(issues := w.remote.issues - {n})))
  {
    hide BindingsName, CreationsKept, OneCreation, CorrectionsTell, PostsKept, OpsOk, QuietFor, HasDiaryMarker, IsSha256;
    var v := w.(remote := w.remote.(issues := w.remote.issues - {n}));
    SameCorrections(hash, w, v);
    QuietSame(hash, w, v);
    EditKeepsInv(hash, w, v);
  }

  /* A comment that opens no correction repeats none. */
  lemma PlainComment(hash: Hasher, w: World, v: World, c: Comment)
    requires CorrectionsTell(hash, w) && PostsKept(w) && NoCorrection(hash, c.body)
    requires RemoteOnly(w, v) && v.remote.comments == w.remote.comments + [c]
    ensures CorrectionsTell(hash, v) && PostsKept(v)
  {
    hide ParseCorrection, IsSha256, Over;
    forall j, key | 0 <= j < |v.remote.comments| && IsKey(key) && ParseCorrection(hash, v.remote.comments[j].body, key).Some?
      ensures IsPostOf(hash, v, j, key, ParseCorrection(hash, v.remote.comments[j].body, key).value)
    {
      assert IsPostOf(hash, w, j, key, ParseCorrection(hash, w.remote.comments[j].body, key).value);
    }
  }

  lemma CommentAdded(hash: Hasher, w: World, c: Comment)
    requires Inv(hash, w) && NoCorrection(hash, c.body)
    ensures Inv(hash, w.(remote := w.remote.(comments := w.remote.comments + [c])))
  {
    hide BindingsName, CreationsKept, OneCreation, CorrectionsTell, PostsKept, QuietFor, MarkersTell, ParseCorrection, OpOk, IsSha256, Unmarked;
    var v := w.(remote := w.remote.(comments := w.remote.comments + [c]));
    PlainComment(hash, w, v, c);
    SameMarkers(w, v);
    EditKeepsHistory(w, v);
    forall o | Running(v, o) ensures OpOk(hash, v, o) {
      RunningOk(hash, w, o);
      OpKeys(hash, w, o);
      AppendIsQuiet(hash, w, v, c, w.ops[o].call.key);
      QuietKeepsOp(hash, w, v, o);
    }
  }

  lemma OpKeys(hash: Hasher, w: World, o: OpId)
    requires OpOk(hash, w, o)
    ensures IsKey(w.ops[o].call.key) && Unmarked(w.ops[o].call.content)
  {
    hide IsSha256, Unmarked, HoldsLock, PcOk;
  }

  lemma AppendIsQuiet(hash: Hasher, w: World, v: World, c: Comment, key: string)
    requires IsKey(key) && ParseCorrection(hash, c.body, key).None?
    requires Grows(w, v) && v.bindings == w.bindings && v.locks == w.locks && v.remote.comments == w.remote.comments + [c]
    ensures QuietFor(hash, w, v, key)
  {
    hide ParseCorrection, Grows, IsSha256;
  }

  lemma CommentEdited(hash: Hasher, w: World, j: nat, body: string, at: Instant)
    requires Inv(hash, w) && j < |w.remote.comments| && AddsNoCorrection(hash, w.remote.comments[j].body, body)
    ensures Inv(hash, w.(remote := w.remote.(comments := w.remote.comments[j := w.remote.comments[j].(body := body, updatedAt := at)])))
  {
    hide BindingsName, CreationsKept, OneCreation, CorrectionsTell, PostsKept, OpsOk, QuietFor, MarkersTell, AddsNoCorrection;
    var v := w.(remote := w.remote.(comments := w.remote.comments[j := w.remote.comments[j].(body := body, updatedAt := at)]));
    EditIsQuiet(hash, w, v, j, body, at);
    EditRepeatsNothing(hash, w, v, j, body, at);
    SameMarkers(w, v);
    EditKeepsInv(hash, w, v);
  }

  lemma EditIsQuiet(hash: Hasher, w: World, v: World, j: nat, body: string, at: Instant)
    requires j < |w.remote.comments| && AddsNoCorrection(hash, w.remote.comments[j].body, body)
    requires v.created == w.created && v.authors == w.authors && v.bindings == w.bindings && v.locks == w.locks
    requires v.remote.comments == w.remote.comments[j := w.remote.comments[j].(body := body, updatedAt := at)]
    ensures forall key :: QuietFor(hash, w, v, key)
  {
    hide ParseCorrection, IsSha256;
  }

  lemma EditRepeatsNothing(hash: Hasher, w: World, v: World, j: nat, body: string, at: Instant)
    requires CorrectionsTell(hash, w) && PostsKept(w)
    requires j < |w.remote.comments| && AddsNoCorrection(hash, w.remote.comments[j].body, body)
    requires RemoteOnly(w, v) && v.remote.comments == w.remote.comments[j := w.remote.comments[j].(body := body, updatedAt := at)]
    ensures CorrectionsTell(hash, v) && PostsKept(v)
  {
    hide ParseCorrection, IsSha256, Over;
    forall k, key | 0 <= k < |v.remote.comments| && IsKey(key) && ParseCorrection(hash, v.remote.comments[k].body, key).Some?
      ensures IsPostOf(hash, v, k, key, ParseCorrection(hash, v.remote.comments[k].body, key).value)
    {
      assert IsPostOf(hash, w, k, key, ParseCorrection(hash, w.remote.comments[k].body, key).value);
    }
  }

  // ---- closing and correcting -------------------------------------------------------

  lemma MayHaveClosed(hash: Hasher, w: World, o: OpId, i: Issue, reply: Reply)
    requires o in w.ops && OpOk(hash, w, o)
    requires (w.ops[o].pc.Closing? || w.ops[o].pc.ClosingExisting?) && Seen(w.ops[o].pc) == Some(i.number)
    ensures MayMove(hash, w, o, ClosedPc(hash, w.ops[o].call, w.ops[o].pc, i, reply))
  {
    hide OpOk, MayMove, Named, CreatedFor, Ending, EndingWithout, IssueRevision, Resendable;
    var call := w.ops[o].call;
    SeenIsCreated(hash, w, o);
    NamedByNumber(w, call.key, i.number);
    MayEndAgain(hash, w, o);
    MayEnd(hash, w, o, MirroredIssue(hash, i, call.content));
    MayResend(hash, w, o);
  }

  lemma ClosedKeepsInv(hash: Hasher, w: World, o: OpId, n: int, at: Instant, reply: Reply)
    requires Inv(hash, w) && Running(w, o) && (w.ops[o].pc.Closing? || w.ops[o].pc.ClosingExisting?)
    requires Seen(w.ops[o].pc) == Some(n) && n in w.remote.issues
    ensures Inv(hash, AfterClosed(hash, w, o, n, at, reply))
  {
    hide Inv, OpsOk, OpOk, MayMove, ClosedPc;
    InvParts(hash, w, o);
    var i := w.remote.issues[n].(closed := true, completed := true, updatedAt := at);
    var w1 := w.(remote := w.remote.(issues := w.remote.issues[n := i]));
    SameTextAddsNothing(i.body);
    IssueEdit(hash, w, n, i);
    InvParts(hash, w1, o);
    NumberOf(hash, w, o, n);
    MayHaveClosed(hash, w1, o, i, reply);
    MoveOn(hash, w1, o, ClosedPc(hash, w.ops[o].call, w.ops[o].pc, i, reply));
  }

  lemma NumberOf(hash: Hasher, w: World, o: OpId, n: int)
    requires MarkersTell(w) && n in w.remote.issues
    ensures w.remote.issues[n].number == n
  {
    hide HasDiaryMarker, CreatedFor, IsSha256;
  }

  lemma MayEndAgain(hash: Hasher, w: World, o: OpId)
    requires o in w.ops
    ensures MayMove(hash, w, o, EndingWithout(w.ops[o].call.kind))
  {
    hide MayMove;
    MayEndWithout(hash, w, o, SyncPending);
  }

  lemma NewCorrectionIsNew(hash: Hasher, w: World, v: World, o: OpId, c: Comment)
    requires o in w.ops && CorrectionsTell(hash, w) && PostsKept(w) && OpOk(hash, w, o) && w.ops[o].pc.WritingCorrection?
    requires var call, pc := w.ops[o].call, w.ops[o].pc;
             c.issue == pc.number && c.body == CorrectionBody(hash, call.content, call.key, pc.effective.revision)
    requires v.remote.comments == w.remote.comments + [c] && v.authors == w.authors[|w.remote.comments| := o] && SameCalls(w, v)
    ensures CorrectionsTell(hash, v)
    ensures forall key | IsKey(key) && key != w.ops[o].call.key :: ParseCorrection(hash, c.body, key).None?
  {
    hide ParseCorrection, CorrectionBody, Unmarked, IsSha256, OneLine, Named, OpOk, CorrectionsTell, SameCalls;
    ScanClaims(hash, w, o);
    var call, e := w.ops[o].call, w.ops[o].pc.effective;
    KeyIsOneLine(call.key);
    ParsePrintedCorrection(hash, call.content, call.key, e.revision);
    forall key | IsKey(key) && key != call.key ensures ParseCorrection(hash, c.body, key).None? {
      CorrectionBodyMarks(hash, call.content, call.key, e.revision, key);
    }
    NewCorrectionTells(hash, w, v, o, e, c);
  }

  /* `v` is `w` with `c` posted by `o`, the correction that it asked for. */
  ghost predicate Corrected(hash: Hasher, w: World, v: World, o: OpId, e: Effective, c: Comment) {
    o in w.ops &&
    var call := w.ops[o].call;
    && NotYet(hash, w, o, call, c.issue, e, |w.remote.comments|) && SameCorrection(hash, c.body, call, e)
    && call.kind.Resolve? && call.kind.observed == e.revision
    && (forall key | IsKey(key) && key != call.key :: ParseCorrection(hash, c.body, key).None?)
    && v.remote.comments == w.remote.comments + [c] && v.authors == w.authors[|w.remote.comments| := o] && SameCalls(w, v)
  }

  lemma CorrectionIsPosted(hash: Hasher, w: World, v: World, o: OpId, e: Effective, c: Comment, j: nat, key: string)
    requires CorrectionsTell(hash, w) && PostsKept(w) && Corrected(hash, w, v, o, e, c)
    requires j < |v.remote.comments| && IsKey(key) && ParseCorrection(hash, v.remote.comments[j].body, key).Some?
    ensures IsPostOf(hash, v, j, key, ParseCorrection(hash, v.remote.comments[j].body, key).value)
  {
    hide ParseCorrection, IsSha256, Over, NotYet;
    if j < |w.remote.comments| { assert IsPostOf(hash, w, j, key, ParseCorrection(hash, w.remote.comments[j].body, key).value); }
  }

  lemma SameCorrectionSameAuthor(hash: Hasher, w: World, v: World, o: OpId, e: Effective, c: Comment, i: nat, j: nat, key: string)
    requires CorrectionsTell(hash, w) && PostsKept(w) && Corrected(hash, w, v, o, e, c)
    requires i < j < |v.remote.comments| && IsKey(key) && v.remote.comments[i].issue == v.remote.comments[j].issue
    requires ParseCorrection(hash, v.remote.comments[i].body, key).Some?
    requires ParseCorrection(hash, v.remote.comments[i].body, key) == ParseCorrection(hash, v.remote.comments[j].body, key)
    ensures i in v.authors && j in v.authors && v.authors[i] == v.authors[j]
  {
    hide ParseCorrection, IsSha256, Over, SameCalls;
    assert IsPostOf(hash, w, i, key, ParseCorrection(hash, w.remote.comments[i].body, key).value);
    if j == |w.remote.comments| {
      assert key == w.ops[o].call.key && SameCorrection(hash, w.remote.comments[i].body, w.ops[o].call, e);
    }
  }

  lemma NewCorrectionTells(hash: Hasher, w: World, v: World, o: OpId, e: Effective, c: Comment)
    requires CorrectionsTell(hash, w) && PostsKept(w) && Corrected(hash, w, v, o, e, c)
    ensures CorrectionsTell(hash, v)
  {
    hide ParseCorrection, IsSha256, PostsKept, Corrected, IsPostOf;
    forall j, key | 0 <= j < |v.remote.comments| && IsKey(key) && ParseCorrection(hash, v.remote.comments[j].body, key).Some?
      ensures IsPostOf(hash, v, j, key, ParseCorrection(hash, v.remote.comments[j].body, key).value)
    {
      CorrectionIsPosted(hash, w, v, o, e, c, j, key);
    }
    forall i, j, key | 0 <= i < j < |v.remote.comments| && IsKey(key)
      && v.remote.comments[i].issue == v.remote.comments[j].issue
      && ParseCorrection(hash, v.remote.comments[i].body, key).Some?
      && ParseCorrection(hash, v.remote.comments[i].body, key) == ParseCorrection(hash, v.remote.comments[j].body, key)
      ensures i in v.authors && j in v.authors && v.authors[i] == v.authors[j]
    {
      SameCorrectionSameAuthor(hash, w, v, o, e, c, i, j, key);
    }
  }

  lemma CommentedIsQuiet(hash: Hasher, w: World, v: World, c: Comment, mine: string)
    requires Grows(w, v) && v.bindings == w.bindings && v.locks == w.locks && v.remote.comments == w.remote.comments + [c]
    requires forall key | IsKey(key) && key != mine :: ParseCorrection(hash, c.body, key).None?
    ensures forall key | IsKey(key) && key != mine :: QuietFor(hash, w, v, key)
  {
    hide ParseCorrection, Grows, IsSha256, QuietFor;
    forall key | IsKey(key) && key != mine ensures QuietFor(hash, w, v, key) {
      AppendIsQuiet(hash, w, v, c, key);
    }
  }

  lemma MovedClaims(hash: Hasher, w: World, w1: World, o: OpId, pc: Pc, resent: set<OpId>)
    requires OpOk(hash, w, o) && !w.ops[o].pc.Acquiring? && !w.ops[o].pc.WritingOwner?
    requires w1.ops == w.ops && w1.locks == w.locks && MayMove(hash, w1, o, pc)
    ensures OpOk(hash, To(w1, o, pc).(resent := resent), o)
  {
    hide Unmarked, IsSha256, PcOk;
    SameWorldPc(hash, w1, To(w1, o, pc).(resent := resent), o, w.ops[o].(pc := pc));
  }

  /* `w` with the correction that `o` posts, before `o` moves. */
  ghost function WithComment(w: World, o: OpId, c: Comment): World {
    w.(remote := w.remote.(comments := w.remote.comments + [c]), authors := w.authors[|w.remote.comments| := o])
  }

  /* Its own correction does not stop an operation from sending it again. */
  lemma MayWriteAgain(hash: Hasher, w: World, o: OpId, c: Comment)
    requires OpOk(hash, w, o) && w.ops[o].pc.WritingCorrection? && |w.remote.comments| !in w.authors
    ensures MayMove(hash, WithComment(w, o, c), o, Resending(w.ops[o].pc))
  {
    hide Unmarked, IsSha256, OneLine, SameCorrection, HoldsLock, NotYet;
    ScanClaims(hash, w, o);
    var v, call, pc := WithComment(w, o, c), w.ops[o].call, w.ops[o].pc;
    NamedGrows(w, v, call.key, pc.binding.remoteId);
    StillNotYet(hash, w, o, c, call, pc.number, pc.effective);
  }

  lemma StillNotYet(hash: Hasher, w: World, o: OpId, c: Comment, call: Call, n: int, e: Effective)
    requires NotYet(hash, w, o, call, n, e, |w.remote.comments|)
    ensures NotYet(hash, WithComment(w, o, c), o, call, n, e, |w.remote.comments| + 1)
  {
    hide SameCorrection;
  }

  lemma CommentedKeepsPosts(w: World, v: World, o: OpId, c: Comment)
    requires PostsKept(w) && o in w.ops && w.ops[o].pc.WritingCorrection? && w.resent <= v.resent && SameCalls(w, v)
    requires v.remote.comments == w.remote.comments + [c] && v.authors == w.authors[|w.remote.comments| := o]
    requires o in v.resent || Over(v.ops[o].pc)
    ensures PostsKept(v)
  {}

  lemma EndingIsOver(kind: Kind, r: Result)
    ensures Over(Ending(kind, r))
  {}

  lemma CommentedKeepsInv(hash: Hasher, w: World, o: OpId, id: int, at: Instant, reply: Reply)
    requires Inv(hash, w) && Running(w, o) && w.ops[o].pc.WritingCorrection?
    ensures Inv(hash, AfterCommented(hash, w, o, id, at, reply))
  {
    hide MarkersTell, BindingsName, CreationsKept, OneCreation, CorrectionsTell, PostsKept, OpsOk, OpOk, QuietFor, MayMove, Over;
    hide Unmarked, IsSha256, CorrectionBody, CommentRevision, Ending, ParseCorrection, Named, Correcting, NotYet;
    InvParts(hash, w, o);
    WriterLocks(hash, w, o);
    var call, pc := w.ops[o].call, w.ops[o].pc;
    var c := NewComment(hash, call, pc.number, pc.effective, id, at);
    var w1 := WithComment(w, o, c);
    var r := Result(Mirrored, pc.binding.remoteId, CommentRevision(hash, c), pc.effective.content, hash(call.content));
    var next := if reply.Success? then Ending(call.kind, r) else AfterReply(call, pc, reply);
    var v := AfterCommented(hash, w, o, id, at, reply);
    NewPosition(w);
    BoundIsNamed(hash, w, o);
    NamedGrows(w, w1, call.key, pc.binding.remoteId);
    MayEnd(hash, w1, o, r);
    MayEndAgain(hash, w1, o);
    MayWriteAgain(hash, w, o, c);
    EndingIsOver(call.kind, r);
    EndingIsOver(call.kind, FailedResult(SyncPending));
    MovedClaims(hash, w, w1, o, next, v.resent);
    NotOver(w, v, o);
    NewCorrectionIsNew(hash, w, v, o, c);
    CommentedKeepsPosts(w, v, o, c);
    CommentedIsQuiet(hash, w, v, c, call.key);
    SameMarkers(w, v);
    KeepsCreations(w, v, o);
    SameNames(w, v);
    StepKeepsInv(hash, w, v, o);
  }

  lemma NewPosition(w: World)
    requires PostsKept(w)
    ensures |w.remote.comments| !in w.authors
  {
    hide Over;
  }

  lemma NotOver(w: World, v: World, o: OpId)
    requires o in w.ops && w.ops[o].pc.WritingCorrection?
    requires o in v.ops && v.ops == w.ops[o := v.ops[o]] && v.ops[o].call == w.ops[o].call
    ensures SameCalls(w, v)
  {}

  lemma SameNames(w: World, v: World)
    requires BindingsName(w) && v.bindings == w.bindings && v.created == w.created
    ensures BindingsName(v)
  {}

  // ---- starts, crashes and orphans ---------------------------------------------------

  lemma NewOpClaims(hash: Hasher, w: World, v: World, o: OpId, pid: Pid, call: Call)
    requires IsKey(call.key) && Unmarked(call.content)
    requires o in v.ops && v.ops[o] == Op(pid, call, if call.kind.Status? then Loading else Acquiring)
    ensures OpOk(hash, v, o)
  {
    hide Unmarked, IsSha256, NotYet, Named, OneLine, CreatedFor;
  }

  lemma BeginKeepsHistory(w: World, o: OpId, op: Op)
    requires CreationsKept(w) && OneCreation(w) && o !in w.ops
    ensures CreationsKept(w.(ops := w.ops[o := op])) && OneCreation(w.(ops := w.ops[o := op]))
  {}

  lemma BeginKeepsInv(hash: Hasher, w: World, o: OpId, pid: Pid, call: Call)
    requires Inv(hash, w) && o !in w.ops && IsKey(call.key) && Unmarked(call.content)
    ensures Inv(hash, w.(ops := w.ops[o := Op(pid, call, if call.kind.Status? then Loading else Acquiring)]))
  {
    hide MarkersTell, BindingsName, CreationsKept, OneCreation, CorrectionsTell, PostsKept, OpOk, QuietFor, Unmarked, IsSha256;
    var op := Op(pid, call, if call.kind.Status? then Loading else Acquiring);
    var v := w.(ops := w.ops[o := op]);
    BeginKeepsHistory(w, o, op);
    SameRemoteClaims(hash, w, v);
    QuietSame(hash, w, v);
    NewOpClaims(hash, w, v, o, pid, call);
    forall other | Running(v, other) ensures OpOk(hash, v, other) {
      if other != o {
        assert Running(w, other);
        QuietKeepsOp(hash, w, v, other);
      }
    }
  }

  ghost function Crashed(w: World, pid: Pid): World {
    w.(dead := w.dead + {pid},
       lost := w.lost + set o | o in w.ops && Running(w, o) && w.ops[o].pid == pid && w.ops[o].pc.SavingProvisional? :: w.ops[o].pc.made.number)
  }

  lemma CrashKeepsHistory(w: World, pid: Pid)
    requires CreationsKept(w) && OneCreation(w)
    ensures CreationsKept(Crashed(w, pid)) && OneCreation(Crashed(w, pid))
  {
    var v := Crashed(w, pid);
    forall n | n in w.created && InWindow(w, w.created[n].op, n) && !InWindow(v, w.created[n].op, n)
      ensures n in v.lost
    {
      assert w.created[n].op in w.ops && w.ops[w.created[n].op].pc.made.number == n;
    }
  }

  lemma CrashLosesCreated(hash: Hasher, w: World, pid: Pid)
    requires OpsOk(hash, w) && w.lost <= w.created.Keys
    ensures Crashed(w, pid).lost <= w.created.Keys
  {
    hide OpOk;
    forall o | Running(w, o) && w.ops[o].pc.SavingProvisional? ensures w.ops[o].pc.made.number in w.created {
      RunningOk(hash, w, o);
      SeenIsCreated(hash, w, o);
    }
  }

  lemma CrashKeepsInv(hash: Hasher, w: World, pid: Pid)
    requires Inv(hash, w)
    ensures Inv(hash, Crashed(w, pid))
  {
    hide MarkersTell, BindingsName, CreationsKept, OneCreation, CorrectionsTell, PostsKept, OpOk, QuietFor;
    var v := Crashed(w, pid);
    CrashLosesCreated(hash, w, pid);
    CrashKeepsHistory(w, pid);
    SameRemoteClaims(hash, w, v);
    QuietSame(hash, w, v);
    forall o | Running(v, o) ensures OpOk(hash, v, o) {
      assert Running(w, o);
      QuietKeepsOp(hash, w, v, o);
    }
  }

  lemma ClearKeepsLocks(hash: Hasher, w: World, v: World, key: string, o: OpId)
    requires OpOk(hash, w, o) && Running(w, o) && v == w.(locks := ClearOrphanLock(w.locks, key, w.dead))
    ensures OpOk(hash, v, o)
  {
    hide Unmarked, IsSha256, PcOk;
    SameWorldPc(hash, w, v, o, w.ops[o]);
  }

  lemma ClearKeepsInv(hash: Hasher, w: World, key: string)
    requires Inv(hash, w)
    ensures Inv(hash, w.(locks := ClearOrphanLock(w.locks, key, w.dead)))
  {
    hide MarkersTell, BindingsName, CreationsKept, OneCreation, CorrectionsTell, PostsKept, OpOk, ClearOrphanLock;
    var v := w.(locks := ClearOrphanLock(w.locks, key, w.dead));
    ClearKeepsHistory(w, v);
    SameRemoteClaims(hash, w, v);
    forall o | Running(v, o) ensures OpOk(hash, v, o) {
      assert Running(w, o);
      ClearKeepsLocks(hash, w, v, key, o);
    }
  }

  lemma ClearKeepsHistory(w: World, v: World)
    requires CreationsKept(w) && OneCreation(w) && v == w.(locks := v.locks)
    ensures CreationsKept(v) && OneCreation(v)
  {}

  // ---- all runs -------------------------------------------------------------------------

  lemma IssueEventKeepsInv(hash: Hasher, w: World, e: Event)
    requires Inv(hash, w)
    requires e.HumanOpensIssue? || e.HumanEditsIssue? || e.HumanSetsState? || e.HumanDeletesIssue?
    ensures Inv(hash, Step(hash, w, e))
  {
    hide Inv, AddsNoMarker, NoMarker, Running, FreshIssue, FreshComment, AddsNoCorrection, NoCorrection;
    hide Advance, Failed, Answered, Unmarked, IsSha256, ClearOrphanLock;
    match e {
      case HumanOpensIssue(i) =>
        if FreshIssue(w, i.number) && NoMarker(i.body) { IssueAdded(hash, w, i); }
      case HumanEditsIssue(n, body, at) =>
        if n in w.remote.issues && AddsNoMarker(w.remote.issues[n].body, body) {
          IssueEdit(hash, w, n, w.remote.issues[n].(body := body, updatedAt := at));
        }
      case HumanSetsState(n, closed, completed, at) =>
        if n in w.remote.issues {
          SameTextAddsNothing(w.remote.issues[n].body);
          IssueEdit(hash, w, n, w.remote.issues[n].(closed := closed, completed := completed, updatedAt := at));
        }
      case HumanDeletesIssue(n) => IssueDeleted(hash, w, n);
      case _ =>
    }
  }

  lemma CommentEventKeepsInv(hash: Hasher, w: World, e: Event)
    requires Inv(hash, w) && (e.HumanComments? || e.HumanEditsComment?)
    ensures Inv(hash, Step(hash, w, e))
  {
    hide Inv, AddsNoCorrection, NoCorrection, Running, FreshComment, FreshIssue, AddsNoMarker, NoMarker;
    hide Advance, Failed, Answered, Unmarked, IsSha256, ClearOrphanLock;
    match e {
      case HumanComments(c) =>
        if NoCorrection(hash, c.body) { CommentAdded(hash, w, c); }
      case HumanEditsComment(j, body, at) =>
        if j < |w.remote.comments| && AddsNoCorrection(hash, w.remote.comments[j].body, body) { CommentEdited(hash, w, j, body, at); }
      case _ =>
    }
  }

  lemma SameTextAddsNothing(body: string)
    ensures AddsNoMarker(body, body)
  {}

  lemma StepKeepsTheInvariant(hash: Hasher, w: World, e: Event)
    requires Inv(hash, w)
    ensures Inv(hash, Step(hash, w, e))
  {
    hide Inv, Advance, Failed, AfterCreated, AfterClosed, AfterCommented, Existing, HasDiaryMarker, Unmarked, IsSha256, Running, Seen;
    hide ClearOrphanLock, Edited, FreshIssue, FreshComment;
    match e {
      case Begin(o, pid, call) =>
        if o !in w.ops && IsKey(call.key) && Unmarked(call.content) { BeginKeepsInv(hash, w, o, pid, call); }
      case Proceed(o) => if Running(w, o) { AdvanceKeepsInv(hash, w, o); }
      case Fail(o, failure) => if Running(w, o) && failure != Mirrored { FailKeepsInv(hash, w, o, failure); }
      case Found(o, n) =>
        if Running(w, o) {
          RunningIsThere(w, o);
          if w.ops[o].pc.ScanningMarked? && n in w.remote.issues && HasDiaryMarker(w.remote.issues[n].body, w.ops[o].call.key) {
            FoundKeepsInv(hash, w, o, n);
          }
        }
      case Created(o, n, at, reply) =>
        if Running(w, o) {
          RunningIsThere(w, o);
          if w.ops[o].pc.Creating? && FreshIssue(w, n) { CreatedKeepsInv(hash, w, o, n, at, reply); }
        }
      case Closed(o, at, reply) =>
        if Running(w, o) { ClosedStep(hash, w, o, at, reply); }
      case Commented(o, id, at, reply) =>
        if Running(w, o) {
          RunningIsThere(w, o);
          if w.ops[o].pc.WritingCorrection? { CommentedKeepsInv(hash, w, o, id, at, reply); }
        }
      case Refused(o) =>
        if Running(w, o) {
          RunningIsThere(w, o);
          if Resendable(w.ops[o].pc) { RefusedKeepsInv(hash, w, o); }
        }
      case Crash(pid) => CrashKeepsInv(hash, w, pid);
      case ClearOrphan(key) => ClearKeepsInv(hash, w, key);
      case HumanComments(_) => CommentEventKeepsInv(hash, w, e);
      case HumanEditsComment(_, _, _) => CommentEventKeepsInv(hash, w, e);
      case _ => IssueEventKeepsInv(hash, w, e);
    }
  }

  lemma RunningIsThere(w: World, o: OpId)
    requires Running(w, o)
    ensures o in w.ops
  {}

  lemma ClosedAnswer(hash: Hasher, w: World, o: OpId, e: Event)
    requires Running(w, o) && e.Closed?
    ensures Answered(hash, w, o, e)
         == if Seen(w.ops[o].pc).Some? && !w.ops[o].pc.SavingProvisional? && Seen(w.ops[o].pc).value in w.remote.issues
            then AfterClosed(hash, w, o, Seen(w.ops[o].pc).value, e.at, e.reply) else w
  {
    hide AfterClosed;
  }

  lemma ClosedStep(hash: Hasher, w: World, o: OpId, at: Instant, reply: Reply)
    requires Inv(hash, w) && Running(w, o)
    ensures Inv(hash, Step(hash, w, Closed(o, at, reply)))
  {
    hide Inv, AfterClosed, Answered;
    ClosedAnswer(hash, w, o, Closed(o, at, reply));
    var pc := w.ops[o].pc;
    if pc.Closing? || pc.ClosingExisting? {
      var n := Seen(pc).value;
      if n in w.remote.issues { ClosedKeepsInv(hash, w, o, n, at, reply); }
    }
  }

  lemma InitialInv(hash: Hasher)
    ensures Inv(hash, INITIAL)
  {}

  lemma {:induction false} RunKeepsInv(hash: Hasher, events: seq<Event>)
    ensures Inv(hash, Run(hash, events))
  {
    hide Inv, Step;
    if events == [] {
      InitialInv(hash);
    } else {
      RunKeepsInv(hash, events[..|events| - 1]);
      StepKeepsTheInvariant(hash, Run(hash, events[..|events| - 1]), events[|events| - 1]);
    }
  }
}
