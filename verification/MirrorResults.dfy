/** What holds in every reachable state of the Issues mirror. */
module MirrorResults {
  import opened Text
  import opened Decimal
  import opened Markers
  import opened IssueSemantics
  import opened EffectiveDocument
  import opened MirrorStores
  import opened MirrorProtocol
  import opened MirrorSafety
  import opened MirrorSteps
  import opened MirrorRuns

  // ---- one Issue a diary ------------------------------------------------------

  /* Every Issue created for the key got as far as its provisional record. */
  ghost predicate NoneLost(w: World, key: string) {
    forall n | n in w.lost && n in w.created :: w.created[n].key != key
  }

  ghost predicate Made(w: World, key: string, n: int) {
    n in w.created && w.created[n].key == key
  }

  /* An Issue on the remote that says it mirrors the diary. */
  ghost predicate Marked(w: World, key: string, n: int) {
    n in w.remote.issues && HasDiaryMarker(w.remote.issues[n].body, key)
  }

  lemma CreationsUnique(hash: Hasher, w: World, key: string)
    requires Inv(hash, w) && NoneLost(w, key)
    ensures forall n, m | Made(w, key, n) && Made(w, key, m) :: n == m
  {
    hide MarkersTell, BindingsName, CorrectionsTell, PostsKept, OpsOk;
    forall n, m | Made(w, key, n) && Made(w, key, m) ensures n == m {
      assert n !in w.lost && m !in w.lost;
    }
  }

  /** However operations, people's edits, crashes and orphan clearings
      interleave: unless a new Issue of this diary was left unrecorded, the diary
      has at most one Issue, at most one Issue carries its marker, and the
      binding names that Issue. */
  lemma OneIssueADiary(hash: Hasher, events: seq<Event>, key: string)
    requires IsKey(key) && NoneLost(Run(hash, events), key)
    ensures var w := Run(hash, events);
            && (forall n, m | Made(w, key, n) && Made(w, key, m) :: n == m)
            && (forall n, m | Marked(w, key, n) && Marked(w, key, m) :: n == m)
            && (key in w.bindings ==> forall n | Made(w, key, n) || Marked(w, key, n) :: Atoi(w.bindings[key].remoteId) == Some(n))
  {
    hide Run, HasDiaryMarker, Atoi, IsSha256, OneCreation, CreationsKept, CorrectionsTell, PostsKept, OpsOk, NoneLost;
    var w := Run(hash, events);
    RunKeepsInv(hash, events);
    CreationsUnique(hash, w, key);
    forall n | Marked(w, key, n) ensures Made(w, key, n) {
      assert CreatedFor(w, key, n);
    }
    if key in w.bindings {
      assert Named(w, key, w.bindings[key].remoteId);
      assert Made(w, key, Atoi(w.bindings[key].remoteId).value);
    }
  }

  /** Even then, a binding always names an Issue created for its diary. */
  lemma BindingsNameOwnIssues(hash: Hasher, events: seq<Event>, key: string)
    requires key in Run(hash, events).bindings
    ensures var w := Run(hash, events);
            Atoi(w.bindings[key].remoteId).Some? && Made(w, key, Atoi(w.bindings[key].remoteId).value)
  {
    hide Run, OneCreation, CreationsKept, CorrectionsTell, PostsKept, OpsOk, MarkersTell;
    RunKeepsInv(hash, events);
    assert Named(Run(hash, events), key, Run(hash, events).bindings[key].remoteId);
  }

  lemma AdvanceLosesNothing(hash: Hasher, w: World, o: OpId)
    requires o in w.ops
    ensures Advance(hash, w, o).lost == w.lost
  {
    hide AfterSuccess, BindingsAfter, SnapshotsAfter;
  }

  lemma FailureLoses(hash: Hasher, w: World, o: OpId, failure: State)
    requires o in w.ops
    ensures Failed(hash, w, o, failure).lost == if w.ops[o].pc.SavingProvisional? then w.lost + {w.ops[o].pc.made.number} else w.lost
  {
    hide AfterFailure;
  }

  // ---- what the provider writes ---------------------------------------------------

  /* Bodies stay as they were, and comments are only appended. */
  ghost predicate Appends(r: Remote, s: Remote) {
    && (forall n | n in r.issues :: n in s.issues && s.issues[n].body == r.issues[n].body && s.issues[n].number == r.issues[n].number)
    && r.comments <= s.comments
  }

  lemma AdvanceWritesNothing(hash: Hasher, w: World, o: OpId)
    requires o in w.ops
    ensures Advance(hash, w, o).remote == w.remote
  {
    hide AfterSuccess, BindingsAfter, SnapshotsAfter;
  }

  lemma FailureWritesNothing(hash: Hasher, w: World, o: OpId, failure: State)
    requires o in w.ops
    ensures Failed(hash, w, o, failure).remote == w.remote
  {
    hide AfterFailure;
  }

  lemma AppendsNothing(r: Remote)
    ensures Appends(r, r)
  {}

  /* What the remote's answer to an operation leaves: texts, locks and processes. */
  ghost predicate Answers(w: World, v: World) {
    Appends(w.remote, v.remote) && v.locks == w.locks && v.dead == w.dead
    && forall o | o in w.ops :: o in v.ops && v.ops[o].pid == w.ops[o].pid
  }

  lemma AnswersNothing(w: World)
    ensures Answers(w, w)
  {}

  lemma MoveAnswers(w: World, o: OpId, pc: Pc)
    requires o in w.ops
    ensures var v := To(w, o, pc); Answers(w, v) && v.lost == w.lost && v.resent == w.resent
  {}

  lemma CreationAnswers(hash: Hasher, w: World, o: OpId, n: int, at: Instant, reply: Reply)
    requires o in w.ops && n !in w.remote.issues
    ensures var v := AfterCreated(hash, w, o, n, at, reply);
            && Answers(w, v) && v.resent == w.resent
            && v.lost == if reply.Success? then w.lost else w.lost + {n}
  {
    hide AfterReply, DiaryBody;
  }

  lemma ClosingAnswers(hash: Hasher, w: World, o: OpId, n: int, at: Instant, reply: Reply)
    requires o in w.ops && n in w.remote.issues
    ensures var v := AfterClosed(hash, w, o, n, at, reply); Answers(w, v) && v.resent == w.resent && v.lost == w.lost
  {
    hide ClosedPc;
  }

  /* Stored, and about to be sent again. */
  ghost predicate SendsAgain(w: World, o: OpId, reply: Reply)
    requires o in w.ops
  {
    reply.Transient? && Resendable(w.ops[o].pc)
  }

  lemma CommentAnswers(hash: Hasher, w: World, o: OpId, id: int, at: Instant, reply: Reply)
    requires o in w.ops && w.ops[o].pc.WritingCorrection?
    ensures var v := AfterCommented(hash, w, o, id, at, reply);
            && Answers(w, v) && v.lost == w.lost && v.resent == if SendsAgain(w, o, reply) then w.resent + {o} else w.resent
    ensures var call, pc := w.ops[o].call, w.ops[o].pc;
            AfterCommented(hash, w, o, id, at, reply).remote.comments
            == w.remote.comments + [NewComment(hash, call, pc.number, pc.effective, id, at)]
  {
    hide AfterReply, Ending, NewComment, CommentRevision, Resendable;
  }

  ghost predicate ByRemote(e: Event) { e.Found? || e.Created? || e.Closed? || e.Commented? || e.Refused? }

  lemma ClosedAnswers(hash: Hasher, w: World, o: OpId, e: Event)
    requires Running(w, o) && e.Closed?
    ensures var v := Answered(hash, w, o, e); Answers(w, v) && v.lost == w.lost && v.resent == w.resent
  {
    hide AfterClosed, Answers, Answered;
    AnswersNothing(w);
    ClosedAnswer(hash, w, o, e);
    var pc := w.ops[o].pc;
    if (pc.Closing? || pc.ClosingExisting?) && Seen(pc).value in w.remote.issues {
      ClosingAnswers(hash, w, o, Seen(pc).value, e.at, e.reply);
    }
  }

  lemma CommentedAnswers(hash: Hasher, w: World, o: OpId, e: Event)
    requires Running(w, o) && e.Commented?
    ensures var v := Answered(hash, w, o, e);
            && Answers(w, v) && v.lost == w.lost
            && v.resent == if w.ops[o].pc.WritingCorrection? && FreshComment(w, e.id) && SendsAgain(w, o, e.reply)
                           then w.resent + {o} else w.resent
  {
    hide AfterCommented, FreshComment, Answers, NewComment, SendsAgain;
    AnswersNothing(w);
    if w.ops[o].pc.WritingCorrection? { CommentAnswers(hash, w, o, e.id, e.at, e.reply); }
  }

  lemma CreatedAnswers(hash: Hasher, w: World, o: OpId, e: Event)
    requires Running(w, o) && e.Created?
    ensures var v := Answered(hash, w, o, e);
            && Answers(w, v) && v.resent == w.resent
            && v.lost == if w.ops[o].pc.Creating? && FreshIssue(w, e.number) && !e.reply.Success? then w.lost + {e.number} else w.lost
  {
    hide AfterCreated, Answers, NewIssue;
    AnswersNothing(w);
    if FreshIssue(w, e.number) { CreationAnswers(hash, w, o, e.number, e.at, e.reply); }
  }

  lemma FoundAnswers(hash: Hasher, w: World, o: OpId, e: Event)
    requires Running(w, o) && e.Found?
    ensures var v := Answered(hash, w, o, e); Answers(w, v) && v.lost == w.lost && v.resent == w.resent
  {
    hide Existing, HasDiaryMarker, To, Answers;
    AnswersNothing(w);
    if e.number in w.remote.issues { MoveAnswers(w, o, Existing(hash, w.ops[o].call, w.remote.issues[e.number])); }
  }

  lemma RefusedAnswers(hash: Hasher, w: World, o: OpId, e: Event)
    requires Running(w, o) && e.Refused?
    ensures var v := Answered(hash, w, o, e); Answers(w, v) && v.lost == w.lost && v.resent == w.resent
  {
    hide To, Answers;
    AnswersNothing(w);
    if Resendable(w.ops[o].pc) { MoveAnswers(w, o, Resending(w.ops[o].pc)); }
  }

  lemma AnswersKeep(hash: Hasher, w: World, o: OpId, e: Event)
    requires Running(w, o) && ByRemote(e)
    ensures var v := Answered(hash, w, o, e);
            Answers(w, v) && (!e.Created? ==> v.lost == w.lost) && (!e.Commented? ==> v.resent == w.resent)
  {
    hide Answered, Answers;
    match e {
      case Closed(_, _, _) => ClosedAnswers(hash, w, o, e);
      case Commented(_, _, _, _) => CommentedAnswers(hash, w, o, e);
      case Created(_, _, _, _) => CreatedAnswers(hash, w, o, e);
      case Refused(_) => RefusedAnswers(hash, w, o, e);
      case _ => FoundAnswers(hash, w, o, e);
    }
  }

  lemma ProviderAppends(hash: Hasher, w: World, e: Event)
    requires !ByPerson(e)
    ensures Appends(w.remote, Step(hash, w, e).remote)
  {
    hide Advance, Failed, Answered, Unmarked, IsSha256, ClearOrphanLock;
    if e.Proceed? && Running(w, e.op) { AdvanceWritesNothing(hash, w, e.op); }
    if e.Fail? && Running(w, e.op) { FailureWritesNothing(hash, w, e.op, e.failure); }
    if ByRemote(e) && Running(w, e.op) { AnswersKeep(hash, w, e.op, e); }
  }

  /** An Issue is lost in three ways only: the process dies before the
      provisional record, the record fails, or the answer to the creation is
      not a success, be the creation sent again or not. */
  lemma LostOnlyInTheWindow(hash: Hasher, w: World, e: Event, n: int)
    requires n !in w.lost
    ensures n in Step(hash, w, e).lost <==>
      || (e.Crash? && exists o :: InWindow(w, o, n) && w.ops[o].pid == e.pid)
      || (e.Fail? && e.failure != Mirrored && InWindow(w, e.op, n))
      || (e.Created? && e.number == n && !e.reply.Success? && Running(w, e.op) && w.ops[e.op].pc.Creating? && FreshIssue(w, n))
  {
    hide Advance, Failed, Answered, FreshIssue, Edited, Unmarked, IsSha256, ClearOrphanLock;
    if e.Proceed? && Running(w, e.op) { AdvanceLosesNothing(hash, w, e.op); }
    if e.Fail? && Running(w, e.op) { FailureLoses(hash, w, e.op, e.failure); }
    if ByRemote(e) && Running(w, e.op) {
      AnswersKeep(hash, w, e.op, e);
      if e.Created? { CreatedAnswers(hash, w, e.op, e); }
    }
    if e.Crash? && n in Step(hash, w, e).lost {
      var o :| o in w.ops && Running(w, o) && w.ops[o].pid == e.pid && w.ops[o].pc.SavingProvisional? && w.ops[o].pc.made.number == n;
      assert InWindow(w, o, n);
    }
  }

  lemma RunLast(hash: Hasher, events: seq<Event>)
    requires events != []
    ensures Run(hash, events) == Step(hash, Run(hash, events[..|events| - 1]), events[|events| - 1])
  {
    hide Step;
  }

  lemma RunAppended(hash: Hasher, before: seq<Event>, after: seq<Event>)
    requires after != []
    ensures var k := |after| - 1; Run(hash, before + after) == Step(hash, Run(hash, before + after[..k]), after[k])
  {
    hide Run, Step;
    RunLast(hash, before + after);
    var k := |after| - 1;
    assert (before + after)[..|before + after| - 1] == before + after[..k];
  }

  lemma AppendsTransitive(a: Remote, b: Remote, c: Remote)
    requires Appends(a, b) && Appends(b, c)
    ensures Appends(a, c)
  {}

  /** Whatever the provider does next, crashes included, it changes no Issue body
      and no comment that is already there. */
  lemma {:induction false} ProviderOnlyAppends(hash: Hasher, before: seq<Event>, after: seq<Event>)
    requires forall e | e in after :: !ByPerson(e)
    ensures Appends(Run(hash, before).remote, Run(hash, before + after).remote)
  {
    hide Run, Step, ByPerson, Appends;
    var was := Run(hash, before);
    if after == [] {
      assert before + after == before;
      AppendsNothing(was.remote);
    } else {
      var k := |after| - 1;
      var w := Run(hash, before + after[..k]);
      ProviderOnlyAppends(hash, before, after[..k]);
      RunAppended(hash, before, after);
      ProviderAppends(hash, w, after[k]);
      AppendsTransitive(was.remote, w.remote, Step(hash, w, after[k]).remote);
    }
  }

  // ---- repeated corrections ---------------------------------------------------------

  lemma LocalHashIsOfContent(hash: Hasher, body: string, key: string)
    requires ParseCorrection(hash, body, key).Some?
    ensures var m := ParseCorrection(hash, body, key).value; m.localHash == hash(m.content)
  {}

  /* Two comments of one Issue that are corrections of the diary. */
  ghost predicate BothCorrect(hash: Hasher, w: World, key: string, i: nat, j: nat) {
    var cs := w.remote.comments;
    && i < |cs| && j < |cs| && i != j && cs[i].issue == cs[j].issue
    && ParseCorrection(hash, cs[i].body, key).Some? && ParseCorrection(hash, cs[j].body, key).Some?
  }

  ghost predicate SameText(hash: Hasher, w: World, key: string, i: nat, j: nat)
    requires BothCorrect(hash, w, key, i, j)
  {
    var a := ParseCorrection(hash, w.remote.comments[i].body, key).value;
    var b := ParseCorrection(hash, w.remote.comments[j].body, key).value;
    a.content == b.content && a.predecessor == b.predecessor
  }

  lemma SameTextSameAuthor(hash: Hasher, w: World, key: string, i: nat, j: nat)
    requires CorrectionsTell(hash, w) && PostsKept(w) && IsKey(key) && BothCorrect(hash, w, key, i, j)
    ensures i in w.authors && j in w.authors
    ensures SameText(hash, w, key, i, j) <==> w.authors[i] == w.authors[j]
    ensures SameText(hash, w, key, i, j) ==> w.authors[i] in w.resent
  {
    hide ParseCorrection, IsSha256, Over;
    var a := ParseCorrection(hash, w.remote.comments[i].body, key).value;
    var b := ParseCorrection(hash, w.remote.comments[j].body, key).value;
    LocalHashIsOfContent(hash, w.remote.comments[i].body, key);
    LocalHashIsOfContent(hash, w.remote.comments[j].body, key);
    assert IsPostOf(hash, w, i, key, a) && IsPostOf(hash, w, j, key, b);
  }

  /** Wherever processes died in between: two corrections of a diary on one
      Issue have the same content and predecessor if and only if they are one
      request, stored twice; and then the client has sent that request again
      although the remote had stored it. */
  lemma CorrectionsRepeatByResending(hash: Hasher, events: seq<Event>, key: string, i: nat, j: nat)
    requires IsKey(key) && BothCorrect(hash, Run(hash, events), key, i, j)
    ensures var w := Run(hash, events);
            && i in w.authors && j in w.authors
            && (SameText(hash, w, key, i, j) <==> w.authors[i] == w.authors[j])
            && (SameText(hash, w, key, i, j) ==> w.authors[i] in w.resent)
  {
    hide Run, IsSha256, BothCorrect, SameText, CorrectionsTell, PostsKept;
    RunKeepsInv(hash, events);
    SameTextSameAuthor(hash, Run(hash, events), key, i, j);
  }

  /* No operation on the diary sent a stored correction again. */
  ghost predicate NoneResent(w: World, key: string) {
    forall o | o in w.resent && o in w.ops :: w.ops[o].call.key != key
  }

  /** While no operation on the diary sends a stored correction again, no Issue
      holds two corrections with its key, the same predecessor and the same
      content. */
  lemma NoRepeatedCorrection(hash: Hasher, events: seq<Event>, key: string, i: nat, j: nat)
    requires IsKey(key) && BothCorrect(hash, Run(hash, events), key, i, j) && NoneResent(Run(hash, events), key)
    ensures !SameText(hash, Run(hash, events), key, i, j)
  {
    hide Run, IsSha256, BothCorrect, SameText;
    RunKeepsInv(hash, events);
    AuthorIsOfKey(hash, Run(hash, events), key, i, j);
    CorrectionsRepeatByResending(hash, events, key, i, j);
  }

  lemma AuthorIsOfKey(hash: Hasher, w: World, key: string, i: nat, j: nat)
    requires CorrectionsTell(hash, w) && IsKey(key) && BothCorrect(hash, w, key, i, j)
    ensures i in w.authors && w.authors[i] in w.ops && w.ops[w.authors[i]].call.key == key
  {
    hide ParseCorrection, IsSha256;
    assert IsPostOf(hash, w, i, key, ParseCorrection(hash, w.remote.comments[i].body, key).value);
  }

  /** A stored correction is sent again exactly when its answer is a status
      that the client takes for transient, and fewer than three sends were made. */
  lemma ResentOnlyWhenTransient(hash: Hasher, w: World, e: Event, o: OpId)
    requires o !in w.resent
    ensures o in Step(hash, w, e).resent <==>
      && e.Commented? && e.op == o && e.reply.Transient? && Running(w, o) && FreshComment(w, e.id)
      && w.ops[o].pc.WritingCorrection? && w.ops[o].pc.resends < MAX_RESENDS
  {
    hide Advance, Failed, Answered, FreshComment, Edited, Unmarked, IsSha256, ClearOrphanLock;
    if e.Proceed? && Running(w, e.op) { AdvanceResendsNothing(hash, w, e.op); }
    if e.Fail? && Running(w, e.op) { FailureResendsNothing(hash, w, e.op, e.failure); }
    if ByRemote(e) && Running(w, e.op) {
      AnswersKeep(hash, w, e.op, e);
      if e.Commented? { CommentedAnswers(hash, w, e.op, e); }
    }
  }

  lemma AdvanceResendsNothing(hash: Hasher, w: World, o: OpId)
    requires o in w.ops
    ensures Advance(hash, w, o).resent == w.resent
  {
    hide AfterSuccess, BindingsAfter, SnapshotsAfter;
  }

  lemma FailureResendsNothing(hash: Hasher, w: World, o: OpId, failure: State)
    requires o in w.ops
    ensures Failed(hash, w, o, failure).resent == w.resent
  {
    hide AfterFailure;
  }

  lemma NumberIsNamed(w: World, call: Call, b: Binding, n: int, e: Effective)
    requires Correcting(w, call, b, n, e) && CreationsKept(w)
    ensures Named(w, call.key, Itoa(n))
  {
    hide OneLine;
    NamedByNumber(w, call.key, n);
  }

  /** A correction is written only for a keep-local that observed the document
      it corrects: the comment records that revision and the caller's diary. */
  lemma CorrectionsAreAsked(hash: Hasher, events: seq<Event>, e: Event)
    requires e.Commented? && Running(Run(hash, events), e.op)
    requires Step(hash, Run(hash, events), e).remote.comments != Run(hash, events).remote.comments
    ensures var w := Run(hash, events);
            var call, n := w.ops[e.op].call, |w.remote.comments|;
            var after := Step(hash, w, e).remote.comments;
            && call.kind.Resolve? && call.kind.choice.KeepLocal? && call.kind.observed != ""
            && |after| == n + 1 && Named(w, call.key, Itoa(after[n].issue))
            && ParseCorrection(hash, after[n].body, call.key)
               == Some(CorrectionMarker(call.content, hash(call.content), call.kind.observed))
  {
    hide Run, Inv, Step, Named, ParseCorrection, CorrectionBody, Unmarked, IsSha256, OneLine, NotYet, OpOk;
    var w := Run(hash, events);
    RunKeepsInv(hash, events);
    InvParts(hash, w, e.op);
    CommentedWrites(hash, w, e);
    ScanClaims(hash, w, e.op);
    var call, pc := w.ops[e.op].call, w.ops[e.op].pc;
    KeyIsOneLine(call.key);
    ParsePrintedCorrection(hash, call.content, call.key, pc.effective.revision);
    NumberIsNamed(w, call, pc.binding, pc.number, pc.effective);
  }

  lemma CommentedWrites(hash: Hasher, w: World, e: Event)
    requires e.Commented? && Running(w, e.op) && Step(hash, w, e).remote.comments != w.remote.comments
    ensures var call, pc := w.ops[e.op].call, w.ops[e.op].pc;
            pc.WritingCorrection? && Step(hash, w, e).remote.comments
            == w.remote.comments + [NewComment(hash, call, pc.number, pc.effective, e.id, e.at)]
  {
    hide AfterCommented, NewComment, FreshComment;
    if w.ops[e.op].pc.WritingCorrection? { CommentAnswers(hash, w, e.op, e.id, e.at, e.reply); }
  }

  // ---- locks --------------------------------------------------------------------------

  /** At most one running operation is past taking the lock of a diary. */
  lemma MutualExclusion(hash: Hasher, events: seq<Event>, a: OpId, b: OpId)
    requires var w := Run(hash, events);
             Running(w, a) && Running(w, b) && Locking(w.ops[a]) && Locking(w.ops[b]) && w.ops[a].call.key == w.ops[b].call.key
    ensures a == b
  {
    hide Run, MarkersTell, BindingsName, CreationsKept, OneCreation, CorrectionsTell, PostsKept;
    RunKeepsInv(hash, events);
    OneInside(hash, Run(hash, events), a, b);
  }

  lemma AdvanceLocks(hash: Hasher, w: World, o: OpId, key: string)
    requires o in w.ops && key in w.locks && key !in Advance(hash, w, o).locks
    ensures w.ops[o].pc.Releasing? && w.ops[o].call.key == key
  {
    hide AfterSuccess, BindingsAfter, SnapshotsAfter;
  }

  lemma FailureLocks(hash: Hasher, w: World, o: OpId, failure: State, key: string)
    requires o in w.ops && key in w.locks && key !in Failed(hash, w, o, failure).locks
    ensures w.ops[o].pc.WritingOwner? && w.ops[o].call.key == key
  {
    hide AfterFailure;
  }

  /* `o` is the running operation that the lock file of its diary is about. */
  ghost predicate Owns(w: World, o: OpId) {
    && Running(w, o) && w.ops[o].call.key in w.locks
    && w.locks[w.ops[o].call.key] == if w.ops[o].pc.WritingOwner? then Unwritten(o) else Owned(LockOwner(w.ops[o].pid, o))
  }

  /* The lock of `key` names a process that is dead. */
  ghost predicate Orphaned(w: World, key: string) {
    key in w.locks && w.locks[key].Owned? && w.locks[key].owner.pid in w.dead
  }

  ghost predicate FreesOwn(w: World, e: Event, key: string) {
    && (e.Proceed? || e.Fail?) && Running(w, e.op) && w.ops[e.op].call.key == key
    && (w.ops[e.op].pc.Releasing? || w.ops[e.op].pc.WritingOwner?)
  }

  lemma OwnStep(hash: Hasher, w: World, e: Event)
    requires e.Proceed? || e.Fail?
    ensures Step(hash, w, e) ==
      if !Running(w, e.op) || (e.Fail? && e.failure == Mirrored) then w
      else if e.Proceed? then Advance(hash, w, e.op) else Failed(hash, w, e.op, e.failure)
  {
    hide Advance, Failed, Running;
  }

  lemma RemoteStep(hash: Hasher, w: World, e: Event)
    requires ByRemote(e)
    ensures Step(hash, w, e) == if Running(w, e.op) then Answered(hash, w, e.op, e) else w
  {
    hide Answered, Running;
  }

  lemma OtherStep(hash: Hasher, w: World, e: Event)
    requires !e.Proceed? && !e.Fail? && !ByRemote(e)
    ensures Step(hash, w, e).locks == if e.ClearOrphan? then ClearOrphanLock(w.locks, e.key, w.dead) else w.locks
  {
    hide Edited, Unmarked, IsSha256, ClearOrphanLock, Running;
  }

  /* Which steps touch a lock file. */
  lemma LocksAfterStep(hash: Hasher, w: World, e: Event)
    ensures Step(hash, w, e).locks ==
      match e
      case Proceed(o) => if Running(w, o) then Advance(hash, w, o).locks else w.locks
      case Fail(o, failure) => if Running(w, o) && failure != Mirrored then Failed(hash, w, o, failure).locks else w.locks
      case ClearOrphan(key) => ClearOrphanLock(w.locks, key, w.dead)
      case _ => w.locks
  {
    hide Step, Advance, Failed, Answered, ClearOrphanLock, Appends;
    if e.Proceed? || e.Fail? {
      OwnStep(hash, w, e);
    } else if ByRemote(e) {
      RemoteStep(hash, w, e);
      if Running(w, e.op) { AnswersKeep(hash, w, e.op, e); }
    } else {
      OtherStep(hash, w, e);
    }
  }

  lemma LockRemovals(hash: Hasher, w: World, e: Event, key: string)
    requires key in w.locks && key !in Step(hash, w, e).locks
    ensures (e.ClearOrphan? && e.key == key && Orphaned(w, key)) || FreesOwn(w, e, key)
  {
    hide Step, Advance, Failed;
    LocksAfterStep(hash, w, e);
    if e.Proceed? {
      AdvanceLocks(hash, w, e.op, key);
    } else if e.Fail? {
      FailureLocks(hash, w, e.op, e.failure, key);
    }
  }

  /** A lock file disappears only by its owner's own hand, or, by an explicit
      clearing, after the process in its record has died. */
  lemma LocksAreNotStolen(hash: Hasher, events: seq<Event>, e: Event, key: string)
    requires key in Run(hash, events).locks && key !in Step(hash, Run(hash, events), e).locks
    ensures var w := Run(hash, events);
            || (e.ClearOrphan? && e.key == key && Orphaned(w, key))
            || ((e.Proceed? || e.Fail?) && Owns(w, e.op) && w.ops[e.op].call.key == key)
  {
    hide Run, Step, Owns, Orphaned;
    var w := Run(hash, events);
    LockRemovals(hash, w, e, key);
    if e.Proceed? || e.Fail? { OwnerActs(hash, events, e.op); }
  }

  lemma OwnerActs(hash: Hasher, events: seq<Event>, o: OpId)
    requires var w := Run(hash, events); Running(w, o) && (w.ops[o].pc.Releasing? || w.ops[o].pc.WritingOwner?)
    ensures Owns(Run(hash, events), o)
  {
    hide Run, Inv, OpOk, Owns;
    RunKeepsInv(hash, events);
    InvParts(hash, Run(hash, events), o);
    WriterOwns(hash, Run(hash, events), o);
  }

  lemma WriterOwns(hash: Hasher, w: World, o: OpId)
    requires OpOk(hash, w, o) && Running(w, o) && (w.ops[o].pc.Releasing? || w.ops[o].pc.WritingOwner?)
    ensures Owns(w, o)
  {
    hide Unmarked, IsSha256, PcOk;
  }

  // ---- a lock that nobody can clear -------------------------------------------------------

  /* The lock of `key` was created by `o`, which died before its record. */
  ghost predicate Stuck(w: World, key: string, o: OpId) {
    && key in w.locks && w.locks[key] == Unwritten(o)
    && o in w.ops && w.ops[o].pid in w.dead
  }

  lemma AdvanceKeepsUnwritten(hash: Hasher, w: World, o: OpId, key: string)
    requires o in w.ops && key in w.locks && w.locks[key].Unwritten?
    requires !(w.ops[o].pc.WritingOwner? && w.ops[o].call.key == key)
    ensures var v := Advance(hash, w, o); key in v.locks && v.locks[key] == w.locks[key]
  {
    hide AfterSuccess, BindingsAfter, SnapshotsAfter;
  }

  lemma NobodyWrites(hash: Hasher, w: World, key: string, o: OpId, other: OpId)
    requires OpsOk(hash, w) && Stuck(w, key, o) && Running(w, other)
    ensures !(w.ops[other].pc.WritingOwner? && w.ops[other].call.key == key)
  {
    hide PcOk, Unmarked, IsSha256;
    assert OpOk(hash, w, other);
  }

  ghost predicate SamePids(w: World, v: World) {
    w.dead <= v.dead && forall o | o in w.ops :: o in v.ops && v.ops[o].pid == w.ops[o].pid
  }

  lemma AdvanceKeepsPids(hash: Hasher, w: World, o: OpId)
    requires o in w.ops
    ensures SamePids(w, Advance(hash, w, o))
  {
    hide AfterSuccess, BindingsAfter, SnapshotsAfter, LocksAfter;
  }

  lemma FailureKeepsPids(hash: Hasher, w: World, o: OpId, failure: State)
    requires o in w.ops
    ensures SamePids(w, Failed(hash, w, o, failure))
  {
    hide AfterFailure;
  }

  lemma PidsStay(hash: Hasher, w: World, e: Event)
    ensures SamePids(w, Step(hash, w, e))
  {
    hide Advance, Failed, Edited, Unmarked, IsSha256, ClearOrphanLock, Answered, Appends;
    if e.Proceed? && Running(w, e.op) { AdvanceKeepsPids(hash, w, e.op); }
    if e.Fail? && Running(w, e.op) { FailureKeepsPids(hash, w, e.op, e.failure); }
    if ByRemote(e) && Running(w, e.op) { AnswersKeep(hash, w, e.op, e); }
  }

  lemma StuckStays(w: World, v: World, key: string, o: OpId)
    requires Stuck(w, key, o) && SamePids(w, v) && key in v.locks && key in w.locks && v.locks[key] == w.locks[key]
    ensures Stuck(v, key, o)
  {}

  lemma StepKeepsUnwritten(hash: Hasher, w: World, e: Event, key: string, o: OpId)
    requires OpsOk(hash, w) && Stuck(w, key, o)
    ensures var v := Step(hash, w, e); key in v.locks && key in w.locks && v.locks[key] == w.locks[key]
  {
    hide Step, Advance, Failed, OpsOk;
    LocksAfterStep(hash, w, e);
    if (e.Proceed? || e.Fail?) && Running(w, e.op) {
      NobodyWrites(hash, w, key, o, e.op);
      AdvanceKeepsUnwritten(hash, w, e.op, key);
      FailureKeepsLocks(hash, w, e);
    }
  }

  lemma StepKeepsStuck(hash: Hasher, w: World, e: Event, key: string, o: OpId)
    requires OpsOk(hash, w) && Stuck(w, key, o)
    ensures Stuck(Step(hash, w, e), key, o)
  {
    hide Step, OpsOk, SamePids, Stuck;
    PidsStay(hash, w, e);
    StepKeepsUnwritten(hash, w, e, key, o);
    StuckStays(w, Step(hash, w, e), key, o);
  }

  lemma FailureKeepsLocks(hash: Hasher, w: World, e: Event)
    requires (e.Proceed? || e.Fail?) && e.op in w.ops
    ensures e.Fail? ==> Failed(hash, w, e.op, e.failure).locks
                        == if w.ops[e.op].pc.WritingOwner? then w.locks - {w.ops[e.op].call.key} else w.locks
  {
    hide AfterFailure;
  }

  /** When a process dies between creating its lock file and writing its record,
      the lock stays for ever, whatever happens: clearing orphans needs the
      record. The diary is never mirrored again. */
  lemma {:induction false} CrashBeforeRecordBlocks(hash: Hasher, before: seq<Event>, after: seq<Event>, key: string, o: OpId)
    requires Stuck(Run(hash, before), key, o)
    ensures var w := Run(hash, before + after);
            Stuck(w, key, o) && forall other | Running(w, other) && w.ops[other].call.key == key :: !Locking(w.ops[other])
    decreases |after|
  {
    hide Run, Step, Stuck, Inv;
    if after == [] {
      assert before + after == before;
    } else {
      var k := |after| - 1;
      CrashBeforeRecordBlocks(hash, before, after[..k], key, o);
      RunKeepsInv(hash, before + after[..k]);
      OpsAreOk(hash, Run(hash, before + after[..k]));
      StepKeepsStuck(hash, Run(hash, before + after[..k]), after[k], key, o);
      RunAppended(hash, before, after);
    }
    RunKeepsInv(hash, before + after);
    OpsAreOk(hash, Run(hash, before + after));
    NobodyLocks(hash, Run(hash, before + after), key, o);
  }

  lemma OpsAreOk(hash: Hasher, w: World)
    requires Inv(hash, w)
    ensures OpsOk(hash, w)
  {
    hide OpsOk, MarkersTell, BindingsName, CreationsKept, OneCreation, CorrectionsTell, PostsKept;
  }

  lemma NobodyLocks(hash: Hasher, w: World, key: string, o: OpId)
    requires OpsOk(hash, w) && Stuck(w, key, o)
    ensures forall other | Running(w, other) && w.ops[other].call.key == key :: !Locking(w.ops[other])
  {
    hide PcOk, Unmarked, IsSha256;
    forall other | Running(w, other) && w.ops[other].call.key == key ensures !Locking(w.ops[other]) {
      assert OpOk(hash, w, other);
    }
  }
}
