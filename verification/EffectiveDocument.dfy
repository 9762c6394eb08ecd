/** Which remote document a binding denotes, over REST (rest.go) and over MCP
    (mcp.go), and what Mirror, Status and Resolve answer from it. */
module EffectiveDocument {
  import opened Text
  import opened Decimal
  import opened Markers
  import opened IssueSemantics

  /** Comments stand in the order in which GitHub lists them. */
  datatype Remote = Remote(issues: map<int, Issue>, comments: seq<Comment>)

  datatype Error = BadBinding | NotVisible | NotFound | UnsupportedPredecessor
  datatype Outcome<+T> = Ok(value: T) | Err(error: Error)

  // ---- reads -------------------------------------------------------------

  function GetIssue(remote: Remote, id: string): Outcome<Issue> {
    match Atoi(id)
    case Some(n) => if n in remote.issues then Ok(remote.issues[n]) else Err(NotVisible)
    case None => Err(NotVisible)
  }

  /* The first listed comment whose ID prints as `id`. */
  function FindById(comments: seq<Comment>, id: string): (r: Option<Comment>)
    ensures r.Some? ==> r.value in comments && Itoa(r.value.id) == id
    ensures r.None? ==> forall c | c in comments :: Itoa(c.id) != id
  {
    if comments == [] then None
    else if Itoa(comments[0].id) == id then Some(comments[0])
    else FindById(comments[1..], id)
  }

  /* rest.go: getComment looks in the whole repository. */
  function GetComment(remote: Remote, id: string): Outcome<Comment> {
    match FindById(remote.comments, id)
    case Some(c) => Ok(c)
    case None => Err(NotVisible)
  }

  /* mcp.go: listComments sees one Issue. */
  function CommentsOf(comments: seq<Comment>, number: int): seq<Comment> {
    if comments == [] then []
    else (if comments[0].issue == number then [comments[0]] else []) + CommentsOf(comments[1..], number)
  }

  // ---- REST --------------------------------------------------------------

  function RestPredecessor(hash: Hasher, remote: Remote, key: string, remoteId: string, revision: string): Outcome<Effective> {
    if ISSUE + ":" <= revision then
      match GetIssue(remote, remoteId)
      case Ok(i) => Ok(DecodeIssue(hash, i, key))
      case Err(e) => Err(e)
    else if COMMENT + ":" <= revision then
      match RevisionId(revision, COMMENT)
      case None => Err(BadBinding)
      case Some(id) =>
        match GetComment(remote, id)
        case Ok(c) => Ok(DecodeComment(hash, c, key))
        case Err(e) => Err(e)
    else Err(UnsupportedPredecessor)
  }

  function RestCorrection(remote: Remote, b: Binding): Outcome<Comment> {
    match RevisionId(b.revision, COMMENT)
    case None => Err(BadBinding)
    case Some(id) => GetComment(remote, id)
  }

  /* The correction counts while the document it corrected is as recorded. */
  function Choose(correction: Effective, recorded: string, predecessor: Effective): Effective {
    if predecessor.revision == recorded then correction else predecessor
  }

  function RestEffective(hash: Hasher, remote: Remote, key: string, b: Binding): Outcome<Effective> {
    if AtCorrection(b) then
      match RestCorrection(remote, b)
      case Err(e) => Err(e)
      case Ok(c) =>
        match ParseCorrection(hash, c.body, key)
        case None => Ok(DecodeComment(hash, c, key))
        case Some(m) =>
          match RestPredecessor(hash, remote, key, b.remoteId, m.predecessor)
          case Err(e) => Err(e)
          case Ok(p) => Ok(Choose(DecodeComment(hash, c, key), m.predecessor, p))
    else
      match GetIssue(remote, b.remoteId)
      case Err(e) => Err(e)
      case Ok(i) => Ok(DecodeIssue(hash, i, key))
  }

  // ---- MCP ---------------------------------------------------------------

  function McpPredecessor(hash: Hasher, remote: Remote, key: string, remoteId: string, listed: seq<Comment>, revision: string): Outcome<Effective> {
    if ISSUE + ":" <= revision then
      match GetIssue(remote, remoteId)
      case Ok(i) => Ok(DecodeIssue(hash, i, key))
      case Err(e) => Err(e)
    else if COMMENT + ":" <= revision then
      match RevisionId(revision, COMMENT)
      case None => Err(BadBinding)
      case Some(id) =>
        match FindById(listed, id)
        case Some(c) => Ok(DecodeComment(hash, c, key))
        case None => Err(NotFound)
    else Err(UnsupportedPredecessor)
  }

  function McpEffective(hash: Hasher, remote: Remote, key: string, b: Binding): Outcome<Effective> {
    if AtCorrection(b) then
      match RevisionId(b.revision, COMMENT)
      case None => Err(BadBinding)
      case Some(id) =>
        match Atoi(b.remoteId)
        case None => Err(BadBinding)
        case Some(number) =>
          var listed := CommentsOf(remote.comments, number);
          match FindById(listed, id)
          case None => Err(NotFound)
          case Some(c) =>
            match ParseCorrection(hash, c.body, key)
            case None => Ok(DecodeComment(hash, c, key))
            case Some(m) =>
              match McpPredecessor(hash, remote, key, b.remoteId, listed, m.predecessor)
              case Err(e) => Err(e)
              case Ok(p) => Ok(Choose(DecodeComment(hash, c, key), m.predecessor, p))
    else
      match GetIssue(remote, b.remoteId)
      case Err(e) => Err(e)
      case Ok(i) => Ok(DecodeIssue(hash, i, key))
  }

  // ---- the two transports agree -----------------------------------------

  ghost predicate UniqueIds(comments: seq<Comment>) {
    forall i, j | 0 <= i < j < |comments| :: comments[i].id != comments[j].id
  }

  lemma {:induction false} InCommentsOf(comments: seq<Comment>, number: int, c: Comment)
    ensures c in CommentsOf(comments, number) <==> c in comments && c.issue == number
  {
    if comments != [] {
      InCommentsOf(comments[1..], number, c);
      assert comments == [comments[0]] + comments[1..];
    }
  }

  lemma SameById(comments: seq<Comment>, c: Comment, d: Comment)
    requires UniqueIds(comments) && c in comments && d in comments && Itoa(c.id) == Itoa(d.id)
    ensures c == d
  {
    ItoaInjective(c.id, d.id);
  }

  /** Looking a comment up in the bound Issue's list finds what the repository
      lookup finds exactly when that comment belongs to the Issue. */
  lemma FindOnIssue(comments: seq<Comment>, number: int, id: string)
    requires UniqueIds(comments)
    ensures var all, listed := FindById(comments, id), FindById(CommentsOf(comments, number), id);
            && (listed.Some? ==> all == listed)
            && (listed.Some? <==> all.Some? && all.value.issue == number)
  {
    var all, listed := FindById(comments, id), FindById(CommentsOf(comments, number), id);
    if listed.Some? {
      InCommentsOf(comments, number, listed.value);
      SameById(comments, all.value, listed.value);
    }
    if all.Some? && all.value.issue == number {
      InCommentsOf(comments, number, all.value);
    }
  }

  /* The comment a typed revision names is on Issue `number`. */
  ghost predicate NamedOnIssue(remote: Remote, number: int, revision: string) {
    COMMENT + ":" <= revision ==>
      forall id :: RevisionId(revision, COMMENT) == Some(id) ==>
        forall c :: FindById(remote.comments, id) == Some(c) ==> c.issue == number
  }

  /* Every comment the binding leads to is on the bound Issue. */
  ghost predicate ChainOnIssue(hash: Hasher, remote: Remote, key: string, b: Binding) {
    AtCorrection(b) ==>
      && Atoi(b.remoteId).Some?
      && NamedOnIssue(remote, Atoi(b.remoteId).value, b.revision)
      && (var c := RestCorrection(remote, b);
          c.Ok? && ParseCorrection(hash, c.value.body, key).Some? ==>
            NamedOnIssue(remote, Atoi(b.remoteId).value, ParseCorrection(hash, c.value.body, key).value.predecessor))
  }

  lemma PredecessorsAgree(hash: Hasher, remote: Remote, key: string, remoteId: string, number: int, p: string)
    requires UniqueIds(remote.comments)
    ensures var rest := RestPredecessor(hash, remote, key, remoteId, p);
            var mcp := McpPredecessor(hash, remote, key, remoteId, CommentsOf(remote.comments, number), p);
            && (mcp.Ok? ==> rest == mcp)
            && (rest.Ok? ==> (mcp.Ok? <==> NamedOnIssue(remote, number, p)))
  {
    if ISSUE + ":" <= p {
      assert p[0] == 'i' && (COMMENT + ":")[0] == 'c';
    } else if COMMENT + ":" <= p && RevisionId(p, COMMENT).Some? {
      FindOnIssue(remote.comments, number, RevisionId(p, COMMENT).value);
    }
  }

  /** What MCP answers, REST answers too; and REST's answer is MCP's exactly
      when the comments on the way to it are on the bound Issue. */
  lemma TransportsAgree(hash: Hasher, remote: Remote, key: string, b: Binding)
    requires UniqueIds(remote.comments)
    ensures var rest, mcp := RestEffective(hash, remote, key, b), McpEffective(hash, remote, key, b);
            && (mcp.Ok? ==> rest == mcp)
            && (rest.Ok? ==> (mcp.Ok? <==> ChainOnIssue(hash, remote, key, b)))
  {
    hide ParseCorrection, StripDiaryMarker, Revision, RevisionId, Atoi, Itoa;
    if AtCorrection(b) && RevisionId(b.revision, COMMENT).Some? && Atoi(b.remoteId).Some? {
      var number, id := Atoi(b.remoteId).value, RevisionId(b.revision, COMMENT).value;
      FindOnIssue(remote.comments, number, id);
      assert NamedOnIssue(remote, number, b.revision) <==>
             forall c :: FindById(remote.comments, id) == Some(c) ==> c.issue == number;
      var c := RestCorrection(remote, b);
      if c.Ok? && ParseCorrection(hash, c.value.body, key).Some? {
        PredecessorsAgree(hash, remote, key, b.remoteId, number, ParseCorrection(hash, c.value.body, key).value.predecessor);
      }
    }
  }

  // ---- what Mirror and Status answer at a correction ----------------------

  function StatusOf(hash: Hasher, remote: Remote, key: string, local: string, b: Binding): Outcome<Result> {
    if AtCorrection(b) then
      match RestEffective(hash, remote, key, b)
      case Err(e) => Err(e)
      case Ok(e) => Ok(CompareEffective(hash, local, b.remoteId, e))
    else
      match GetIssue(remote, b.remoteId)
      case Err(e) => Err(e)
      case Ok(i) => Ok(CompareIssue(hash, key, local, i))
  }

  ghost predicate AnswersMirrored(hash: Hasher, remote: Remote, key: string, local: string, b: Binding) {
    var r := StatusOf(hash, remote, key, local, b);
    r.Ok? && r.value.state == Mirrored
  }

  ghost predicate IsCorrectionOf(hash: Hasher, text: string, key: string, local: string, predecessor: string) {
    text == CorrectionBody(hash, local, key, predecessor)
  }

  /** The document at `revision`, the bound Issue or a comment, is the diary under
      its own marker, and nothing else. */
  ghost predicate Carries(hash: Hasher, remote: Remote, key: string, local: string, remoteId: string, revision: string) {
    || (var i := GetIssue(remote, remoteId);
        i.Ok? && IssueRevision(hash, i.value) == revision && i.value.body == DiaryBody(local, key))
    || (exists c, p :: c in remote.comments && CommentRevision(hash, c) == revision && IsCorrectionOf(hash, c.body, key, local, p))
  }

  lemma ExactIssue(hash: Hasher, i: Issue, key: string, local: string)
    ensures var e := DecodeIssue(hash, i, key);
            e.exact && e.content == local <==> i.body == DiaryBody(local, key)
  {
    if StripDiaryMarker(i.body, key).Some? { DiaryBodyOfStripped(i.body, key); }
    StripDiaryBody(local, key);
  }

  lemma IssueCarries(hash: Hasher, remote: Remote, key: string, local: string, remoteId: string, i: Issue)
    requires GetIssue(remote, remoteId) == Ok(i) && DecodeIssue(hash, i, key).exact && DecodeIssue(hash, i, key).content == local
    ensures Carries(hash, remote, key, local, remoteId, DecodeIssue(hash, i, key).revision)
  {
    ExactIssue(hash, i, key, local);
  }

  lemma CommentCarries(hash: Hasher, remote: Remote, key: string, local: string, remoteId: string, c: Comment)
    requires c in remote.comments && DecodeComment(hash, c, key).exact && DecodeComment(hash, c, key).content == local
    ensures Carries(hash, remote, key, local, remoteId, DecodeComment(hash, c, key).revision)
  {
    PrintParsedCorrection(hash, c.body, key);
    assert IsCorrectionOf(hash, c.body, key, local, ParseCorrection(hash, c.body, key).value.predecessor);
  }

  lemma PredecessorCarries(hash: Hasher, remote: Remote, key: string, local: string, remoteId: string, p: string)
    requires var e := RestPredecessor(hash, remote, key, remoteId, p);
             e.Ok? && e.value.exact && e.value.content == local
    ensures Carries(hash, remote, key, local, remoteId, RestPredecessor(hash, remote, key, remoteId, p).value.revision)
  {
    if ISSUE + ":" <= p {
      IssueCarries(hash, remote, key, local, remoteId, GetIssue(remote, remoteId).value);
    } else {
      CommentCarries(hash, remote, key, local, remoteId, GetComment(remote, RevisionId(p, COMMENT).value).value);
    }
  }

  lemma EffectiveCarries(hash: Hasher, remote: Remote, key: string, local: string, b: Binding)
    requires RestEffective(hash, remote, key, b).Ok?
    requires var e := RestEffective(hash, remote, key, b).value; e.exact && e.content == local
    ensures Carries(hash, remote, key, local, b.remoteId, RestEffective(hash, remote, key, b).value.revision)
  {
    hide Carries, DecodeIssue, DecodeComment, ParseCorrection, RevisionId;
    if !AtCorrection(b) {
      IssueCarries(hash, remote, key, local, b.remoteId, GetIssue(remote, b.remoteId).value);
    } else {
      var c := RestCorrection(remote, b).value;
      var m := ParseCorrection(hash, c.body, key);
      if m.Some? && RestPredecessor(hash, remote, key, b.remoteId, m.value.predecessor).value.revision != m.value.predecessor {
        PredecessorCarries(hash, remote, key, local, b.remoteId, m.value.predecessor);
      } else {
        CommentCarries(hash, remote, key, local, b.remoteId, c);
      }
    }
  }

  lemma MirroredMeans(hash: Hasher, remote: Remote, key: string, local: string, b: Binding)
    ensures var e := RestEffective(hash, remote, key, b);
            && (AnswersMirrored(hash, remote, key, local, b) <==> e.Ok? && e.value.exact && e.value.content == local)
            && (e.Ok? ==> StatusOf(hash, remote, key, local, b).Ok? && StatusOf(hash, remote, key, local, b).value.revision == e.value.revision)
  {
    hide RestCorrection, RestPredecessor, ParseCorrection, StripDiaryMarker, DecodeComment, GetIssue;
  }

  /** Mirrored is answered at the revision of the document taken as effective,
      and that document is exactly the diary. */
  lemma MirroredIsExact(hash: Hasher, remote: Remote, key: string, local: string, b: Binding)
    requires AnswersMirrored(hash, remote, key, local, b)
    ensures var e := RestEffective(hash, remote, key, b);
            && e.Ok? && StatusOf(hash, remote, key, local, b).value.revision == e.value.revision
            && Carries(hash, remote, key, local, b.remoteId, e.value.revision)
  {
    hide AnswersMirrored, StatusOf, RestEffective, Carries;
    MirroredMeans(hash, remote, key, local, b);
    EffectiveCarries(hash, remote, key, local, b);
  }

  /* The document `revision` names is on the remote with that very revision. */
  ghost predicate Intact(hash: Hasher, remote: Remote, key: string, remoteId: string, revision: string) {
    var p := RestPredecessor(hash, remote, key, remoteId, revision);
    p.Ok? && p.value.revision == revision
  }

  lemma IntactCorrectionIsEffective(hash: Hasher, remote: Remote, key: string, local: string, b: Binding, c: Comment, p: string)
    requires RestCorrection(remote, b) == Ok(c)
    requires IsKey(key) && OneLine(p) && p != ""
    requires c.body == CorrectionBody(hash, local, key, p) && Intact(hash, remote, key, b.remoteId, p)
    ensures RestEffective(hash, remote, key, b) == Ok(Effective(CommentRevision(hash, c), local, true))
  {
    KeyIsOneLine(key);
    ParsePrintedCorrection(hash, local, key, p);
  }

  /** At a correction whose comment and predecessor are as written, the answer
      is Mirrored; and it says that the comment still holds the diary. */
  lemma IntactCorrectionIsMirrored(hash: Hasher, remote: Remote, key: string, local: string, b: Binding, c: Comment, p: string)
    requires AtCorrection(b) && RestCorrection(remote, b) == Ok(c)
    requires IsKey(key) && OneLine(p) && p != ""
    requires c.body == CorrectionBody(hash, local, key, p) && Intact(hash, remote, key, b.remoteId, p)
    ensures AnswersMirrored(hash, remote, key, local, b)
    ensures RestEffective(hash, remote, key, b) == Ok(Effective(CommentRevision(hash, c), local, true))
  {
    hide Intact, RestEffective, RestCorrection, CorrectionBody, CommentRevision, OneLine;
    IntactCorrectionIsEffective(hash, remote, key, local, b, c, p);
  }

  lemma IntactIssue(hash: Hasher, remote: Remote, key: string, remoteId: string, was: Issue)
    requires Intact(hash, remote, key, remoteId, IssueRevision(hash, was))
    ensures var i := GetIssue(remote, remoteId);
            i.Ok? && i.value.number == was.number && i.value.updatedAt == was.updatedAt && hash(i.value.body) == hash(was.body)
  {
    IssueRevisionFacts(hash, was);
    var i := GetIssue(remote, remoteId).value;
    assert DecodeIssue(hash, i, key).revision == IssueRevision(hash, i);
    RevisionInjective(hash, ISSUE, i.number, i.updatedAt, i.body, was.number, was.updatedAt, was.body);
  }

  /** An intact predecessor is, without collisions, the same text at the same instant. */
  lemma IntactIssueIsUnchanged(hash: Hasher, remote: Remote, key: string, remoteId: string, was: Issue)
    requires Injective(hash) && Intact(hash, remote, key, remoteId, IssueRevision(hash, was))
    ensures var i := GetIssue(remote, remoteId);
            i.Ok? && i.value.number == was.number && i.value.updatedAt == was.updatedAt && i.value.body == was.body
  {
    IntactIssue(hash, remote, key, remoteId, was);
  }

  // ---- resolve, then look again --------------------------------------------

  lemma {:induction false} FindAppended(comments: seq<Comment>, c: Comment, id: string)
    requires forall d | d in comments :: d.id != c.id
    ensures FindById(comments + [c], id) ==
            if FindById(comments, id).Some? then FindById(comments, id)
            else if Itoa(c.id) == id then Some(c) else None
    ensures FindById(comments + [c], Itoa(c.id)) == Some(c)
  {
    if comments != [] {
      assert (comments + [c])[1..] == comments[1..] + [c];
      if Itoa(comments[0].id) == Itoa(c.id) { ItoaInjective(comments[0].id, c.id); }
      FindAppended(comments[1..], c, id);
    }
  }

  /** What keep-local writes: a correction of the document it observed. */
  function Corrected(hash: Hasher, remote: Remote, key: string, local: string, observed: Effective, number: int, id: int, at: Instant): Remote {
    remote.(comments := remote.comments + [Comment(id, number, CorrectionBody(hash, local, key, observed.revision), at)])
  }

  lemma AppendKeepsPredecessor(hash: Hasher, remote: Remote, key: string, remoteId: string, p: string, c: Comment)
    requires forall d | d in remote.comments :: d.id != c.id
    requires RestPredecessor(hash, remote, key, remoteId, p).Ok?
    ensures RestPredecessor(hash, remote.(comments := remote.comments + [c]), key, remoteId, p)
         == RestPredecessor(hash, remote, key, remoteId, p)
  {
    if COMMENT + ":" <= p && RevisionId(p, COMMENT).Some? {
      FindAppended(remote.comments, c, RevisionId(p, COMMENT).value);
    }
  }

  /* The revision of an effective document is that of a document on the remote. */
  lemma EffectiveIsIntact(hash: Hasher, remote: Remote, key: string, b: Binding)
    requires RestEffective(hash, remote, key, b).Ok?
    ensures var e := RestEffective(hash, remote, key, b).value;
            && OneLine(e.revision) && e.revision != ""
            && Intact(hash, remote, key, b.remoteId, e.revision)
  {
    hide ParseCorrection, StripDiaryMarker, Revision, RevisionId, Atoi, Itoa, FindById, OneLine, ValidRevision;
    var e := RestEffective(hash, remote, key, b).value;
    if !AtCorrection(b) {
      IssueRevisionFacts(hash, GetIssue(remote, b.remoteId).value);
    } else {
      var c := RestCorrection(remote, b).value;
      CommentRevisionFacts(hash, c);
      CommentIsFoundByItsId(remote, b, c);
      if e.revision != CommentRevision(hash, c) {
        var m := ParseCorrection(hash, c.body, key).value;
        PredecessorIsIntact(hash, remote, key, b.remoteId, m.predecessor);
      }
    }
  }

  lemma CommentIsFoundByItsId(remote: Remote, b: Binding, c: Comment)
    requires RestCorrection(remote, b) == Ok(c)
    ensures GetComment(remote, Itoa(c.id)) == Ok(c)
  {
    assert RevisionId(b.revision, COMMENT) == Some(Itoa(c.id));
  }

  lemma PredecessorIsIntact(hash: Hasher, remote: Remote, key: string, remoteId: string, p: string)
    requires RestPredecessor(hash, remote, key, remoteId, p).Ok?
    ensures var e := RestPredecessor(hash, remote, key, remoteId, p).value;
            && OneLine(e.revision) && e.revision != "" && Intact(hash, remote, key, remoteId, e.revision)
  {
    if ISSUE + ":" <= p {
      IssueRevisionFacts(hash, GetIssue(remote, remoteId).value);
    } else {
      var c := GetComment(remote, RevisionId(p, COMMENT).value).value;
      CommentRevisionFacts(hash, c);
    }
  }

  /** After keep-local has appended its correction, Mirror and Status at the new
      revision answer Mirrored, over both transports, while nobody edits. */
  lemma KeepLocalThenMirror(hash: Hasher, remote: Remote, key: string, local: string, b: Binding, id: int, at: Instant)
    requires IsKey(key) && UniqueIds(remote.comments) && RestEffective(hash, remote, key, b).Ok?
    requires Atoi(b.remoteId).Some? && forall d | d in remote.comments :: d.id != id
    ensures var e := RestEffective(hash, remote, key, b).value;
            var number := Atoi(b.remoteId).value;
            var after := Corrected(hash, remote, key, local, e, number, id, at);
            var revision := CommentRevision(hash, after.comments[|remote.comments|]);
            forall lh, eh :: AnswersMirrored(hash, after, key, local, Binding(b.remoteId, revision, lh, eh))
  {
    var e := RestEffective(hash, remote, key, b).value;
    var number := Atoi(b.remoteId).value;
    var c := Comment(id, number, CorrectionBody(hash, local, key, e.revision), at);
    var after := Corrected(hash, remote, key, local, e, number, id, at);
    assert after.comments[|remote.comments|] == c;
    EffectiveIsIntact(hash, remote, key, b);
    AppendKeepsPredecessor(hash, remote, key, b.remoteId, e.revision, c);
    CommentRevisionFacts(hash, c);
    FindAppended(remote.comments, c, Itoa(id));
    forall lh, eh ensures AnswersMirrored(hash, after, key, local, Binding(b.remoteId, CommentRevision(hash, c), lh, eh)) {
      IntactCorrectionIsMirrored(hash, after, key, local, Binding(b.remoteId, CommentRevision(hash, c), lh, eh), c, e.revision);
    }
  }

  /* Bound to the correction `p`: it holds the diary over what it recorded, or
     what it recorded has changed and holds the diary itself. */
  ghost predicate HoldsAtComment(hash: Hasher, remote: Remote, key: string, local: string, remoteId: string, p: Comment) {
    var m := ParseCorrection(hash, p.body, key);
    m.Some? &&
    var back := RestPredecessor(hash, remote, key, remoteId, m.value.predecessor);
    back.Ok? &&
    if back.value.revision == m.value.predecessor then m.value.content == local
    else back.value.exact && back.value.content == local
  }

  /* What keep-remote acknowledges is the edited comment that the bound
     correction corrected. */
  ghost predicate AtEditedPredecessor(hash: Hasher, remote: Remote, b: Binding, revision: string) {
    AtCorrection(b) && COMMENT + ":" <= revision
    && RestCorrection(remote, b).Ok? && revision != CommentRevision(hash, RestCorrection(remote, b).value)
  }

  /** keep-remote only records what it acknowledged. Looking again then answers
      Mirrored exactly when the acknowledged document held the diary, unless that
      is an edited predecessor comment, whose own predecessor is now looked at. */
  lemma KeepRemoteThenMirror(hash: Hasher, remote: Remote, key: string, local: string, b: Binding, after: Binding)
    requires RestEffective(hash, remote, key, b).Ok?
    requires after.remoteId == b.remoteId && after.revision == RestEffective(hash, remote, key, b).value.revision
    ensures var e := RestEffective(hash, remote, key, b).value;
            if AtEditedPredecessor(hash, remote, b, e.revision) then
              && RestCorrection(remote, after).Ok? && e == DecodeComment(hash, RestCorrection(remote, after).value, key)
              && (AnswersMirrored(hash, remote, key, local, after)
                  <==> HoldsAtComment(hash, remote, key, local, b.remoteId, RestCorrection(remote, after).value))
            else
              AnswersMirrored(hash, remote, key, local, after) <==> e.exact && e.content == local
  {
    hide ParseCorrection, StripDiaryMarker, Revision, RevisionId, Atoi, Itoa, AnswersMirrored, HoldsAtComment;
    MirroredMeans(hash, remote, key, local, after);
    if !AtCorrection(b) {
      IssueRevisionFacts(hash, GetIssue(remote, b.remoteId).value);
    } else {
      var c := RestCorrection(remote, b).value;
      CommentRevisionFacts(hash, c);
      if !AtCorrection(after) {
        AtIssueAgain(hash, remote, key, b);
      } else if after.revision == CommentRevision(hash, c) {
        CommentIsFoundByItsId(remote, b, c);
        SameCorrectionSameDocument(hash, remote, key, b, after);
      } else {
        AtPredecessorComment(hash, remote, key, b, after);
        MirroredAtComment(hash, remote, key, local, after);
      }
    }
  }

  lemma AtPredecessorComment(hash: Hasher, remote: Remote, key: string, b: Binding, after: Binding)
    requires RestEffective(hash, remote, key, b).Ok? && AtCorrection(b) && AtCorrection(after)
    requires after.revision == RestEffective(hash, remote, key, b).value.revision
    requires after.revision != CommentRevision(hash, RestCorrection(remote, b).value)
    ensures RestCorrection(remote, after).Ok?
    ensures RestEffective(hash, remote, key, b).value == DecodeComment(hash, RestCorrection(remote, after).value, key)
  {
    hide ParseCorrection, StripDiaryMarker, Revision, RevisionId, Atoi, Itoa;
    var p := ParseCorrection(hash, RestCorrection(remote, b).value.body, key).value.predecessor;
    if ISSUE + ":" <= p {
      IssueRevisionFacts(hash, GetIssue(remote, b.remoteId).value);
    } else {
      CommentRevisionFacts(hash, GetComment(remote, RevisionId(p, COMMENT).value).value);
    }
  }

  lemma MirroredAtComment(hash: Hasher, remote: Remote, key: string, local: string, b: Binding)
    requires AtCorrection(b) && RestCorrection(remote, b).Ok?
    ensures AnswersMirrored(hash, remote, key, local, b)
       <==> HoldsAtComment(hash, remote, key, local, b.remoteId, RestCorrection(remote, b).value)
  {
    hide ParseCorrection, StripDiaryMarker, Revision, RevisionId, Atoi, Itoa, RestPredecessor, AnswersMirrored, RestCorrection;
    MirroredMeans(hash, remote, key, local, b);
  }

  lemma SameCorrectionSameDocument(hash: Hasher, remote: Remote, key: string, a: Binding, b: Binding)
    requires AtCorrection(a) && AtCorrection(b) && a.remoteId == b.remoteId
    requires RestCorrection(remote, a) == RestCorrection(remote, b)
    ensures RestEffective(hash, remote, key, a) == RestEffective(hash, remote, key, b)
  {
    hide RestCorrection, RestPredecessor, ParseCorrection, DecodeComment, AtCorrection, GetIssue;
  }

  /* A correction whose document is no comment has fallen back to its Issue. */
  lemma AtIssueAgain(hash: Hasher, remote: Remote, key: string, b: Binding)
    requires AtCorrection(b) && RestEffective(hash, remote, key, b).Ok?
    requires !(COMMENT + ":" <= RestEffective(hash, remote, key, b).value.revision)
    ensures var i := GetIssue(remote, b.remoteId);
            i.Ok? && RestEffective(hash, remote, key, b) == Ok(DecodeIssue(hash, i.value, key))
  {
    hide ParseCorrection, StripDiaryMarker, Revision, RevisionId, Atoi, Itoa;
    var c := RestCorrection(remote, b).value;
    CommentRevisionFacts(hash, c);
    var p := ParseCorrection(hash, c.body, key).value.predecessor;
    if !(ISSUE + ":" <= p) {
      CommentRevisionFacts(hash, GetComment(remote, RevisionId(p, COMMENT).value).value);
    }
  }

  // ---- where keep-remote does not settle -------------------------------------

  /* The diary's Issue was corrected by comment 1, and that by comment 2. Then
     somebody emptied the Issue, and saved comment 1 again without a change. */
  ghost function Reedited(hash: Hasher, key: string, local: string, other: string, t: Instant, u: Instant): Remote {
    var was := Issue(1, DiaryBody(local, key), t, true, true, false);
    var first := Comment(1, 1, CorrectionBody(hash, local, key, IssueRevision(hash, was)), t);
    var second := Comment(2, 1, CorrectionBody(hash, other, key, CommentRevision(hash, first)), t);
    Remote(map[1 := was.(body := "", updatedAt := u)], [first.(updatedAt := u), second])
  }

  lemma FoundComments(first: Comment, second: Comment)
    requires first.id == 1 && second.id == 2
    ensures FindById([first, second], Itoa(1)) == Some(first) && FindById([first, second], Itoa(2)) == Some(second)
  {
    if Itoa(1) == Itoa(2) { ItoaInjective(1, 2); }
    assert [first, second][1..] == [second];
  }

  lemma EmptyIsInexact(hash: Hasher, key: string, i: Issue)
    requires i.body == ""
    ensures !DecodeIssue(hash, i, key).exact
  {}

  lemma LaterRevision(hash: Hasher, c: Comment, u: Instant)
    requires u != c.updatedAt
    ensures CommentRevision(hash, c.(updatedAt := u)) != CommentRevision(hash, c)
  {
    if CommentRevision(hash, c.(updatedAt := u)) == CommentRevision(hash, c) {
      RevisionInjective(hash, COMMENT, c.id, u, c.body, c.id, c.updatedAt, c.body);
    }
  }

  lemma LaterIssue(hash: Hasher, i: Issue, j: Issue)
    requires i.updatedAt != j.updatedAt
    ensures IssueRevision(hash, i) != IssueRevision(hash, j)
  {
    if IssueRevision(hash, i) == IssueRevision(hash, j) {
      RevisionInjective(hash, ISSUE, i.number, i.updatedAt, i.body, j.number, j.updatedAt, j.body);
    }
  }

  lemma CorrectionChooses(hash: Hasher, remote: Remote, key: string, b: Binding, c: Comment, m: CorrectionMarker, p: Effective)
    requires AtCorrection(b) && RestCorrection(remote, b) == Ok(c) && ParseCorrection(hash, c.body, key) == Some(m)
    requires RestPredecessor(hash, remote, key, b.remoteId, m.predecessor) == Ok(p)
    ensures RestEffective(hash, remote, key, b) == Ok(Choose(DecodeComment(hash, c, key), m.predecessor, p))
  {
    hide AtCorrection, RestCorrection, RestPredecessor, ParseCorrection, DecodeComment;
  }

  /* A binding or a marker that names a listed comment leads to it. */
  lemma NamesComment(hash: Hasher, remote: Remote, key: string, remoteId: string, was: Comment, c: Comment)
    requires was.id == c.id && FindById(remote.comments, Itoa(c.id)) == Some(c)
    ensures var r := CommentRevision(hash, was);
            && COMMENT + ":" <= r && RestPredecessor(hash, remote, key, remoteId, r) == Ok(DecodeComment(hash, c, key))
            && forall lh, eh :: RestCorrection(remote, Binding(remoteId, r, lh, eh)) == Ok(c)
  {
    hide CommentRevision, DecodeComment, FindById, RevisionId, ParseCorrection;
    CommentRevisionFacts(hash, was);
  }

  lemma NamesIssue(hash: Hasher, remote: Remote, key: string, remoteId: string, was: Issue, i: Issue)
    requires GetIssue(remote, remoteId) == Ok(i)
    ensures RestPredecessor(hash, remote, key, remoteId, IssueRevision(hash, was)) == Ok(DecodeIssue(hash, i, key))
  {
    hide IssueRevision, DecodeIssue, GetIssue;
    IssueRevisionFacts(hash, was);
  }

  lemma DecodesCorrection(hash: Hasher, c: Comment, key: string, local: string, p: string)
    requires IsKey(key) && OneLine(p) && p != "" && c.body == CorrectionBody(hash, local, key, p)
    ensures ParseCorrection(hash, c.body, key) == Some(CorrectionMarker(local, hash(local), p))
    ensures DecodeComment(hash, c, key) == Effective(CommentRevision(hash, c), local, true)
  {
    hide ParseCorrection, CorrectionBody, CommentRevision;
    KeyIsOneLine(key);
    ParsePrintedCorrection(hash, local, key, p);
  }

  /** There the acknowledged document is exactly the diary, and yet looking again
      after keep-remote reports a conflict with the emptied Issue. */
  lemma KeepRemoteMayConflict(hash: Hasher, key: string, local: string, other: string, t: Instant, u: Instant, b: Binding, after: Binding)
    requires IsKey(key) && t != u
    requires var remote := Reedited(hash, key, local, other, t, u);
             && b.remoteId == "1" && b.revision == CommentRevision(hash, remote.comments[1])
             && after == b.(revision := CommentRevision(hash, remote.comments[0]))
    ensures var remote := Reedited(hash, key, local, other, t, u);
            && RestEffective(hash, remote, key, b) == Ok(Effective(after.revision, local, true))
            && !AnswersMirrored(hash, remote, key, local, after)
  {
    hide ParseCorrection, CorrectionBody, DiaryBody, FindById, DecodeComment, DecodeIssue, CommentRevision, IssueRevision;
    hide RestCorrection, RestPredecessor, RestEffective, AnswersMirrored, StatusOf, IsSha256, OneLine;
    var remote := Reedited(hash, key, local, other, t, u);
    var was := Issue(1, DiaryBody(local, key), t, true, true, false);
    var first, second, now := remote.comments[0], remote.comments[1], remote.issues[1];
    var earlier := first.(updatedAt := t);
    assert Atoi("1") == Some(1);
    IssueRevisionFacts(hash, was);
    CommentRevisionFacts(hash, earlier);
    FoundComments(first, second);
    NamesComment(hash, remote, key, "1", second, second);
    NamesComment(hash, remote, key, "1", earlier, first);
    NamesComment(hash, remote, key, "1", first, first);
    NamesIssue(hash, remote, key, "1", was, now);
    DecodesCorrection(hash, first, key, local, IssueRevision(hash, was));
    DecodesCorrection(hash, second, key, other, CommentRevision(hash, earlier));
    CorrectionChooses(hash, remote, key, b, second, CorrectionMarker(other, hash(other), CommentRevision(hash, earlier)), DecodeComment(hash, first, key));
    CorrectionChooses(hash, remote, key, after, first, CorrectionMarker(local, hash(local), IssueRevision(hash, was)), DecodeIssue(hash, now, key));
    LaterRevision(hash, earlier, u);
    LaterIssue(hash, now, was);
    IssueDecoded(hash, now, key);
    EmptyIsInexact(hash, key, now);
    MirroredMeans(hash, remote, key, local, after);
  }

  lemma IssueDecoded(hash: Hasher, i: Issue, key: string)
    ensures DecodeIssue(hash, i, key).revision == IssueRevision(hash, i)
  {}
}
