/** The values that pass between the shared Issues semantics and its two
    transports, and the comparisons that classify what was read
    (issues_semantics.go, rest.go). */
module IssueSemantics {
  import opened Text
  import opened Decimal
  import opened Markers

  datatype State = Mirrored | SyncPending | SyncConflict | PrerequisiteMissing
  datatype Choice = KeepLocal | KeepRemote | OtherChoice

  datatype Issue = Issue(number: int, body: string, updatedAt: Instant, closed: bool, completed: bool, pullRequest: bool)
  datatype Comment = Comment(id: int, issue: int, body: string, updatedAt: Instant)

  /** What a provider reports. `content` is the remote text kept as evidence. */
  datatype Result = Result(state: State, remoteId: string, revision: string, content: string, effectiveHash: string)
  datatype Binding = Binding(remoteId: string, revision: string, localHash: string, effectiveHash: string)

  /** The document a binding currently denotes. */
  datatype Effective = Effective(revision: string, content: string, exact: bool)

  function IssueRevision(hash: Hasher, i: Issue): string {
    Revision(hash, ISSUE, i.number, i.updatedAt, i.body)
  }

  function CommentRevision(hash: Hasher, c: Comment): string {
    Revision(hash, COMMENT, c.id, c.updatedAt, c.body)
  }

  predicate AtCorrection(b: Binding) { COMMENT + ":" <= b.revision }

  /* Binding.Validate; the key is checked by the store. */
  predicate ValidBinding(b: Binding) {
    b.remoteId != "" && ValidRevision(b.revision) && IsSha256(b.localHash) && IsSha256(b.effectiveHash)
  }

  function BindingOf(hash: Hasher, local: string, r: Result): Binding {
    Binding(r.remoteId, r.revision, hash(local), r.effectiveHash)
  }

  /* base and failed: a result that names no remote document. */
  function FailedResult(state: State): Result { Result(state, "", "", "", "") }

  /* observedIssue */
  function ObservedIssue(hash: Hasher, state: State, i: Issue, local: string): Result {
    Result(state, Itoa(i.number), IssueRevision(hash, i), "", hash(local))
  }

  function MirroredIssue(hash: Hasher, i: Issue, local: string): Result {
    ObservedIssue(hash, Mirrored, i, local)
  }

  function DecodeIssue(hash: Hasher, i: Issue, key: string): Effective {
    match StripDiaryMarker(i.body, key)
    case Some(content) => Effective(IssueRevision(hash, i), content, true)
    case None => Effective(IssueRevision(hash, i), i.body, false)
  }

  function DecodeComment(hash: Hasher, c: Comment, key: string): Effective {
    match ParseCorrection(hash, c.body, key)
    case Some(m) => Effective(CommentRevision(hash, c), m.content, true)
    case None => Effective(CommentRevision(hash, c), c.body, false)
  }

  function CompareIssue(hash: Hasher, key: string, local: string, i: Issue): Result {
    var remote := DecodeIssue(hash, i, key);
    if remote.exact && remote.content == local then
      Result(Mirrored, Itoa(i.number), IssueRevision(hash, i), "", hash(local))
    else
      Result(SyncConflict, Itoa(i.number), IssueRevision(hash, i), remote.content, hash(remote.content))
  }

  /* compareEffective, after the read. */
  function CompareEffective(hash: Hasher, local: string, remoteId: string, e: Effective): Result {
    if e.exact && e.content == local then Result(Mirrored, remoteId, e.revision, "", hash(e.content))
    else Result(SyncConflict, remoteId, e.revision, e.content, hash(e.content))
  }

  lemma IssueRevisionFacts(hash: Hasher, i: Issue)
    ensures ValidRevision(IssueRevision(hash, i)) && OneLine(IssueRevision(hash, i)) && IssueRevision(hash, i) != ""
    ensures ISSUE + ":" <= IssueRevision(hash, i) && !(COMMENT + ":" <= IssueRevision(hash, i))
  {
    PrintedRevisionIsValid(hash, ISSUE, i.number, i.updatedAt, i.body);
    RevisionShape(hash, ISSUE, i.number, i.updatedAt, i.body);
    assert IssueRevision(hash, i)[0] == 'i';
  }

  lemma CommentRevisionFacts(hash: Hasher, c: Comment)
    ensures ValidRevision(CommentRevision(hash, c)) && OneLine(CommentRevision(hash, c)) && CommentRevision(hash, c) != ""
    ensures COMMENT + ":" <= CommentRevision(hash, c) && !(ISSUE + ":" <= CommentRevision(hash, c))
    ensures RevisionId(CommentRevision(hash, c), COMMENT) == Some(Itoa(c.id))
  {
    PrintedRevisionIsValid(hash, COMMENT, c.id, c.updatedAt, c.body);
    RevisionShape(hash, COMMENT, c.id, c.updatedAt, c.body);
    assert CommentRevision(hash, c)[0] == 'c';
  }
}
