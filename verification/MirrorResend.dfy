/** What happens when the client sends a stored request again: every state that is
    about to write a correction, or to create an Issue, can do so twice, and every
    diary can get there. */
module MirrorResend {
  import opened Text
  import opened Decimal
  import opened Markers
  import opened IssueSemantics
  import opened EffectiveDocument
  import opened MirrorStores
  import opened MirrorProtocol
  import opened MirrorSafety
  import opened MirrorSteps
  import opened MirrorRuns
  import opened MirrorResults
  import opened MirrorDelivery
  import opened MirrorWindow

  // ---- up to the correction -----------------------------------------------------------

  ghost function Times(e: Event, count: nat): seq<Event> {
    if count == 0 then [] else [e] + Times(e, count - 1)
  }

  lemma TimesOnce(e: Event, count: nat)
    ensures Times(e, 0) == [] && Times(e, count + 1) == [e] + Times(e, count)
  {}

  /* No comment on Issue `n` is the correction that the call asks for. */
  ghost predicate NotPosted(hash: Hasher, w: World, call: Call, n: int, e: Effective) {
    forall c | c in w.remote.comments && c.issue == n :: !SameCorrection(hash, c.body, call, e)
  }

  /* The binding `b` names Issue `n`, which no longer holds the diary, and the
     caller observed it. No comment there is the correction asked for. */
  ghost predicate Corrects(hash: Hasher, w: World, call: Call, b: Binding, n: int) {
    && TakesLock(call) && call.key in w.bindings && w.bindings[call.key] == b && !AtCorrection(b)
    && Atoi(b.remoteId) == Some(n) && 0 < n && n in w.remote.issues
    && var e := DecodeIssue(hash, w.remote.issues[n], call.key);
       && call.kind == Resolve(KeepLocal, e.revision) && !(e.exact && e.content == call.content)
       && NotPosted(hash, w, call, n, e)
  }

  lemma ScanMoves(hash: Hasher, w: World, call: Call, b: Binding, n: int, e: Effective, next: nat)
    requires next <= |w.remote.comments| && NotPosted(hash, w, call, n, e)
    ensures AfterRead(hash, w, call, ScanningCorrections(b, n, e, next))
         == if next == |w.remote.comments| then WritingCorrection(b, n, e, 0) else ScanningCorrections(b, n, e, next + 1)
  {
    hide SameCorrection, Ending, AtLoad, AtIssue, AtEffective, GetIssue, RestCorrection, RestPredecessor, ParseCorrection;
    if next < |w.remote.comments| { assert w.remote.comments[next] in w.remote.comments; }
  }

  lemma ScansOn(hash: Hasher, w: World, o: OpId, pid: Pid, call: Call, b: Binding, n: int, e: Effective, next: nat)
    requires pid !in w.dead && next < |w.remote.comments| && NotPosted(hash, w, call, n, e)
    ensures Step(hash, At(w, o, pid, call, ScanningCorrections(b, n, e, next)), Proceed(o))
         == At(w, o, pid, call, ScanningCorrections(b, n, e, next + 1))
  {
    hide Step, SameCorrection, AfterRead;
    Reads(hash, w, o, pid, call, ScanningCorrections(b, n, e, next));
    ScanMoves(hash, At(w, o, pid, call, ScanningCorrections(b, n, e, next)), call, b, n, e, next);
  }

  lemma ScansOut(hash: Hasher, w: World, o: OpId, pid: Pid, call: Call, b: Binding, n: int, e: Effective)
    requires pid !in w.dead && NotPosted(hash, w, call, n, e)
    ensures Step(hash, At(w, o, pid, call, ScanningCorrections(b, n, e, |w.remote.comments|)), Proceed(o))
         == At(w, o, pid, call, WritingCorrection(b, n, e, 0))
  {
    hide Step, SameCorrection, AfterRead;
    var pc := ScanningCorrections(b, n, e, |w.remote.comments|);
    Reads(hash, w, o, pid, call, pc);
    ScanMoves(hash, At(w, o, pid, call, pc), call, b, n, e, |w.remote.comments|);
  }

  /* `worlds` follow each other by the event `e`. */
  ghost predicate Follows(hash: Hasher, worlds: seq<World>, e: Event) {
    worlds != [] && forall i | 0 <= i < |worlds| - 1 :: Step(hash, worlds[i], e) == worlds[i + 1]
  }

  lemma {:induction false} Repeated(hash: Hasher, worlds: seq<World>, e: Event)
    requires Follows(hash, worlds, e)
    ensures From(hash, worlds[0], Times(e, |worlds| - 1)) == worlds[|worlds| - 1]
    decreases |worlds|
  {
    hide Step, From, Times;
    TimesOnce(e, if |worlds| == 1 then 0 else |worlds| - 2);
    if |worlds| == 1 {
      FromNothing(hash, worlds[0]);
    } else {
      FromFirst(hash, worlds[0], e, Times(e, |worlds| - 2));
      Repeated(hash, worlds[1..], e);
    }
  }

  ghost function ScanningPc(b: Binding, n: int, e: Effective, comments: nat, next: nat): Pc {
    if next <= comments then ScanningCorrections(b, n, e, next) else WritingCorrection(b, n, e, 0)
  }

  /* From the first comment to the request. */
  ghost function ScanWorlds(w: World, o: OpId, pid: Pid, call: Call, b: Binding, n: int, e: Effective): (ws: seq<World>)
    ensures |ws| == |w.remote.comments| + 2
    ensures forall i | 0 <= i < |ws| :: ws[i] == At(w, o, pid, call, ScanningPc(b, n, e, |w.remote.comments|, i))
  {
    seq(|w.remote.comments| + 2, i requires 0 <= i => At(w, o, pid, call, ScanningPc(b, n, e, |w.remote.comments|, i)))
  }

  lemma ScansNext(hash: Hasher, w: World, o: OpId, pid: Pid, call: Call, b: Binding, n: int, e: Effective, i: nat)
    requires pid !in w.dead && i <= |w.remote.comments| && NotPosted(hash, w, call, n, e)
    ensures Step(hash, At(w, o, pid, call, ScanningPc(b, n, e, |w.remote.comments|, i)), Proceed(o))
         == At(w, o, pid, call, ScanningPc(b, n, e, |w.remote.comments|, i + 1))
  {
    hide Step, At, NotPosted;
    if i < |w.remote.comments| {
      ScansOn(hash, w, o, pid, call, b, n, e, i);
    } else {
      ScansOut(hash, w, o, pid, call, b, n, e);
    }
  }

  lemma Scans(hash: Hasher, w: World, o: OpId, pid: Pid, call: Call, b: Binding, n: int, e: Effective)
    requires pid !in w.dead && NotPosted(hash, w, call, n, e)
    ensures From(hash, At(w, o, pid, call, ScanningCorrections(b, n, e, 0)), Times(Proceed(o), |w.remote.comments| + 1))
         == At(w, o, pid, call, WritingCorrection(b, n, e, 0))
  {
    hide Step, From, Times, At, NotPosted, ScanWorlds;
    var ws := ScanWorlds(w, o, pid, call, b, n, e);
    forall i | 0 <= i < |ws| - 1 ensures Step(hash, ws[i], Proceed(o)) == ws[i + 1] {
      ScansNext(hash, w, o, pid, call, b, n, e, i);
    }
    Repeated(hash, ws, Proceed(o));
  }

  ghost function Correction(o: OpId, pid: Pid, call: Call, comments: nat): seq<Event> {
    [Begin(o, pid, call)] + ([Proceed(o)] + ([Proceed(o)] + ([Proceed(o)] + ([Proceed(o)] + Times(Proceed(o), comments + 1)))))
  }

  lemma LoadLeads(hash: Hasher, w: World, call: Call, b: Binding)
    requires call.kind.Resolve? && call.kind.choice.KeepLocal? && call.key in w.bindings && w.bindings[call.key] == b && !AtCorrection(b)
    ensures AfterRead(hash, w, call, Loading) == GettingIssue(b)
  {
    hide AtIssue, AtEffective, GetIssue, RestCorrection, RestPredecessor, ParseCorrection, SameCorrection, Ending, AtCorrection;
  }

  lemma LoadsBinding(hash: Hasher, w: World, o: OpId, pid: Pid, call: Call, b: Binding, n: int)
    requires Idle(w, o, pid, call.key) && Corrects(hash, w, call, b, n)
    ensures Step(hash, At(w, o, pid, call, Loading), Proceed(o)) == At(w, o, pid, call, GettingIssue(b))
  {
    hide Step, TakesLock, NotPosted, DecodeIssue, AtCorrection, AfterRead, Atoi;
    Reads(hash, w, o, pid, call, Loading);
    LoadLeads(hash, At(w, o, pid, call, Loading), call, b);
  }

  lemma IssueResolves(hash: Hasher, w: World, call: Call, b: Binding, n: int)
    requires Corrects(hash, w, call, b, n)
    ensures n in w.remote.issues
    ensures AtIssue(hash, call, b, w.remote.issues[n]) == ScanningCorrections(b, n, DecodeIssue(hash, w.remote.issues[n], call.key), 0)
  {
    hide TakesLock, NotPosted, DecodeIssue, Existing, Ending, AtCorrection;
    ObservedRevision(hash, w.remote.issues[n], call.key);
  }

  lemma FindsIssue(hash: Hasher, w: World, v: World, call: Call, b: Binding, n: int)
    requires Corrects(hash, w, call, b, n) && v.remote == w.remote
    ensures GetIssue(v.remote, b.remoteId) == Ok(w.remote.issues[n])
  {
    hide TakesLock, NotPosted, DecodeIssue, AtCorrection;
  }

  lemma GettingLeads(hash: Hasher, w: World, call: Call, b: Binding, i: Issue)
    requires GetIssue(w.remote, b.remoteId) == Ok(i)
    ensures AfterRead(hash, w, call, GettingIssue(b)) == AtIssue(hash, call, b, i)
  {
    hide AtIssue, GetIssue, AtLoad, AtEffective, ParseCorrection, RestCorrection, RestPredecessor, SameCorrection, Ending;
  }

  lemma ResolvesIssue(hash: Hasher, w: World, o: OpId, pid: Pid, call: Call, b: Binding, n: int)
    requires Idle(w, o, pid, call.key) && Corrects(hash, w, call, b, n)
    ensures n in w.remote.issues
    ensures var e := DecodeIssue(hash, w.remote.issues[n], call.key);
            Step(hash, At(w, o, pid, call, GettingIssue(b)), Proceed(o)) == At(w, o, pid, call, ScanningCorrections(b, n, e, 0))
  {
    hide Step, Corrects, DecodeIssue, AtIssue, AfterRead, GetIssue;
    var v := At(w, o, pid, call, GettingIssue(b));
    Reads(hash, w, o, pid, call, GettingIssue(b));
    IssueResolves(hash, w, call, b, n);
    FindsIssue(hash, w, v, call, b, n);
    GettingLeads(hash, v, call, b, w.remote.issues[n]);
  }

  lemma ObservedRevision(hash: Hasher, i: Issue, key: string)
    ensures DecodeIssue(hash, i, key).revision != ""
  {
    IssueRevisionFacts(hash, i);
  }

  lemma CorrectsParts(hash: Hasher, w: World, o: OpId, pid: Pid, call: Call, b: Binding, n: int)
    requires Idle(w, o, pid, call.key) && Corrects(hash, w, call, b, n)
    ensures pid !in w.dead && TakesLock(call) && n in w.remote.issues
    ensures NotPosted(hash, w, call, n, DecodeIssue(hash, w.remote.issues[n], call.key))
  {
    hide TakesLock, NotPosted, DecodeIssue;
  }

  lemma ReachesCorrection(hash: Hasher, w: World, o: OpId, pid: Pid, call: Call, b: Binding, n: int)
    requires Idle(w, o, pid, call.key) && Corrects(hash, w, call, b, n)
    ensures n in w.remote.issues
    ensures var e := DecodeIssue(hash, w.remote.issues[n], call.key);
            From(hash, w, Correction(o, pid, call, |w.remote.comments|)) == At(w, o, pid, call, WritingCorrection(b, n, e, 0))
  {
    hide Step, From, At, Idle, TakesLock, NotPosted, DecodeIssue, Times, Corrects;
    CorrectsParts(hash, w, o, pid, call, b, n);
    var p, scan := Proceed(o), Times(Proceed(o), |w.remote.comments| + 1);
    var e := DecodeIssue(hash, w.remote.issues[n], call.key);
    Enters(hash, w, o, pid, call, [p] + ([p] + scan));
    FromFirst(hash, At(w, o, pid, call, Loading), p, [p] + scan);
    LoadsBinding(hash, w, o, pid, call, b, n);
    FromFirst(hash, At(w, o, pid, call, GettingIssue(b)), p, scan);
    ResolvesIssue(hash, w, o, pid, call, b, n);
    Scans(hash, w, o, pid, call, b, n, e);
  }

  // ---- the same request twice -------------------------------------------------------------

  lemma Posts(hash: Hasher, w: World, o: OpId, id: int, at: Instant, reply: Reply)
    requires Running(w, o) && w.ops[o].pc.WritingCorrection? && FreshComment(w, id)
    ensures Step(hash, w, Commented(o, id, at, reply)) == AfterCommented(hash, w, o, id, at, reply)
  {
    hide AfterCommented, FreshComment;
  }

  lemma StaysToResend(hash: Hasher, w: World, o: OpId, id: int, at: Instant)
    requires Running(w, o) && w.ops[o].pc.WritingCorrection? && w.ops[o].pc.resends < MAX_RESENDS
    ensures var v := AfterCommented(hash, w, o, id, at, Transient);
            Running(v, o) && v.ops[o] == w.ops[o].(pc := Resending(w.ops[o].pc))
  {
    hide NewComment, CommentRevision;
  }

  lemma RunTwo(hash: Hasher, events: seq<Event>, a: Event, b: Event)
    ensures Run(hash, events + [a, b]) == Step(hash, Step(hash, Run(hash, events), a), b)
  {
    hide Run, From, Step;
    RunIsFrom(hash, events, [a, b]);
    FromTwo(hash, Run(hash, events), a, b);
  }

  /** In every reachable state that is about to write a correction and may send it
      again: if the first request is stored and answered with a transient status,
      the next stored one puts a second correction of the same diary, with the same
      predecessor and the same content, on the same Issue. */
  lemma ResendingRepeats(hash: Hasher, events: seq<Event>, o: OpId, id: int, at: Instant, again: int, later: Instant, reply: Reply)
    requires var w := Run(hash, events);
             && Running(w, o) && w.ops[o].pc.WritingCorrection? && w.ops[o].pc.resends < MAX_RESENDS
             && FreshComment(w, id) && FreshComment(w, again) && id != again
    ensures var w := Run(hash, events);
            var v := Run(hash, events + [Commented(o, id, at, Transient), Commented(o, again, later, reply)]);
            var key, k := w.ops[o].call.key, |w.remote.comments|;
            BothCorrect(hash, v, key, k, k + 1) && SameText(hash, v, key, k, k + 1)
  {
    hide Run, Step, Inv, OpOk, AfterCommented, ParseCorrection, CorrectionBody, Unmarked, IsSha256, OneLine, NotYet;
    var w := Run(hash, events);
    RunTwo(hash, events, Commented(o, id, at, Transient), Commented(o, again, later, reply));
    RunKeepsInv(hash, events);
    InvParts(hash, w, o);
    ScanClaims(hash, w, o);
    var call, e := w.ops[o].call, w.ops[o].pc.effective;
    KeyIsOneLine(call.key);
    ParsePrintedCorrection(hash, call.content, call.key, e.revision);
    var w1 := AfterCommented(hash, w, o, id, at, Transient);
    Posts(hash, w, o, id, at, Transient);
    StaysToResend(hash, w, o, id, at);
    CommentAnswers(hash, w, o, id, at, Transient);
    Posts(hash, w1, o, again, later, reply);
    CommentAnswers(hash, w1, o, again, later, reply);
  }

  lemma Makes(hash: Hasher, w: World, o: OpId, n: int, at: Instant, reply: Reply)
    requires Running(w, o) && w.ops[o].pc.Creating? && FreshIssue(w, n)
    ensures var v, i := Step(hash, w, Created(o, n, at, reply)), NewIssue(w, o, n, at);
            && v.created == w.created[n := Creation(w.ops[o].call.key, o)] && v.remote == w.remote.(issues := w.remote.issues[n := i])
            && o in v.ops && v.ops[o].call == w.ops[o].call
            && (reply.Transient? && Resendable(w.ops[o].pc) ==> Running(v, o) && v.ops[o].pc.Creating?)
  {
    hide FreshIssue, DiaryBody, EndingWithout;
    assert Step(hash, w, Created(o, n, at, reply)) == AfterCreated(hash, w, o, n, at, reply);
  }

  lemma StaysFresh(w: World, v: World, n: int, i: Issue, c: Creation, m: int)
    requires FreshIssue(w, m) && m != n && v.created == w.created[n := c] && v.remote == w.remote.(issues := w.remote.issues[n := i])
    ensures FreshIssue(v, m)
  {
    hide IssueNumber;
  }

  lemma BothMade(u: World, v: World, key: string, o: OpId, n: int, i: Issue, m: int, j: Issue)
    requires v.created == u.created[n := Creation(key, o)][m := Creation(key, o)] && n != m
    requires v.remote.issues == u.remote.issues[n := i][m := j] && HasDiaryMarker(i.body, key) && HasDiaryMarker(j.body, key)
    ensures Made(v, key, n) && Made(v, key, m) && Marked(v, key, n) && Marked(v, key, m)
  {
    hide HasDiaryMarker;
  }

  lemma CreatesTwice(hash: Hasher, w: World, o: OpId, n: int, at: Instant, m: int, later: Instant, reply: Reply)
    requires Inv(hash, w) && Running(w, o) && w.ops[o].pc.Creating? && w.ops[o].pc.resends < MAX_RESENDS
    requires FreshIssue(w, n) && FreshIssue(w, m) && n != m
    ensures var key, v := w.ops[o].call.key, Step(hash, Step(hash, w, Created(o, n, at, Transient)), Created(o, m, later, reply));
            Made(v, key, n) && Made(v, key, m) && Marked(v, key, n) && Marked(v, key, m)
  {
    hide Step, Inv, OpOk, HasDiaryMarker, DiaryBody, Unmarked, IsSha256, FreshIssue, Made, Marked;
    InvParts(hash, w, o);
    StillUnbound(hash, w, o);
    var key, w1 := w.ops[o].call.key, Step(hash, w, Created(o, n, at, Transient));
    DiaryBodyMarks(w.ops[o].call.content, key, key);
    Makes(hash, w, o, n, at, Transient);
    StaysFresh(w, w1, n, NewIssue(w, o, n, at), Creation(key, o), m);
    Makes(hash, w1, o, m, later, reply);
    BothMade(w, Step(hash, w1, Created(o, m, later, reply)), key, o, n, NewIssue(w, o, n, at), m, NewIssue(w1, o, m, later));
  }

  /** Likewise every reachable state that is about to create an Issue, and may send
      the request again, can create two Issues of the diary at once. */
  lemma ResendingCreatesTwice(hash: Hasher, events: seq<Event>, o: OpId, n: int, at: Instant, m: int, later: Instant, reply: Reply)
    requires var w := Run(hash, events);
             && Running(w, o) && w.ops[o].pc.Creating? && w.ops[o].pc.resends < MAX_RESENDS
             && FreshIssue(w, n) && FreshIssue(w, m) && n != m
    ensures var key := Run(hash, events).ops[o].call.key;
            var v := Run(hash, events + [Created(o, n, at, Transient), Created(o, m, later, reply)]);
            Made(v, key, n) && Made(v, key, m) && Marked(v, key, n) && Marked(v, key, m)
  {
    hide Run, Step, Inv, FreshIssue, Made, Marked;
    RunTwo(hash, events, Created(o, n, at, Transient), Created(o, m, later, reply));
    RunKeepsInv(hash, events);
    CreatesTwice(hash, Run(hash, events), o, n, at, m, later, reply);
  }

  // ---- every diary can get there -------------------------------------------------------------

  /* The mirrored diary, after somebody emptied its Issue. */
  ghost function Emptied(hash: Hasher, key: string, content: string, at: Instant): World {
    var call := Asked(Mirror, key, content);
    var i := Complete(Opened(call, 1, at), at);
    var w := Delivered(hash, INITIAL, 0, 1, call, i);
    w.(remote := w.remote.(issues := w.remote.issues[1 := i.(body := "")]))
  }

  ghost function KeepLocalOver(hash: Hasher, key: string, content: string, at: Instant): Call {
    Call(Resolve(KeepLocal, IssueRevision(hash, Issue(1, "", at, true, true, false))), key, content)
  }

  /** Mirror, an edit by somebody, and keep-local up to its request. */
  ghost function UpToCorrection(hash: Hasher, key: string, content: string, at: Instant): seq<Event> {
    Delivery(0, 1, Asked(Mirror, key, content), 1, at, at)
    + ([HumanEditsIssue(1, "", at)] + Correction(1, 2, KeepLocalOver(hash, key, content, at), 0))
  }

  lemma NoMarkerInNothing(was: string)
    ensures AddsNoMarker(was, "")
  {}

  lemma Empties(hash: Hasher, key: string, content: string, at: Instant)
    ensures var call := Asked(Mirror, key, content);
            Step(hash, Delivered(hash, INITIAL, 0, 1, call, Complete(Opened(call, 1, at), at)), HumanEditsIssue(1, "", at))
            == Emptied(hash, key, content, at)
  {
    hide AddsNoMarker, Final, DiaryBody;
    var i := Complete(Opened(Asked(Mirror, key, content), 1, at), at);
    NoMarkerInNothing(i.body);
  }

  lemma EmptiedCorrects(hash: Hasher, key: string, content: string, at: Instant)
    requires Diary(key, content)
    ensures var w, call := Emptied(hash, key, content, at), KeepLocalOver(hash, key, content, at);
            && Idle(w, 1, 2, key) && key in w.bindings && w.remote.comments == []
            && Corrects(hash, w, call, w.bindings[key], 1)
  {
    hide DiaryBody, Unmarked, IsSha256, Revision, Atoi, Itoa;
    var i := Complete(Opened(Asked(Mirror, key, content), 1, at), at);
    IssueRevisionFacts(hash, i);
    AtoiOfItoa(1);
    EmptyIsInexact(hash, key, i.(body := ""));
  }

  lemma AfterUpToCorrection(hash: Hasher, key: string, content: string, at: Instant)
    requires Diary(key, content)
    ensures var w, call := Emptied(hash, key, content, at), KeepLocalOver(hash, key, content, at);
            && key in w.bindings && w.remote.comments == [] && 1 in w.remote.issues && 2 !in w.dead
            && Run(hash, UpToCorrection(hash, key, content, at))
               == At(w, 1, 2, call, WritingCorrection(w.bindings[key], 1, DecodeIssue(hash, w.remote.issues[1], key), 0))
  {
    hide Run, Step, From, At, Correction, Delivery, Delivered, Emptied, KeepLocalOver, Corrects, DecodeIssue, Complete, Opened, Unmarked, IsSha256;
    hide AnswersMirrored, Free, IssueRevision;
    var mirror, call := Asked(Mirror, key, content), KeepLocalOver(hash, key, content, at);
    var deliver, edit, correct := Delivery(0, 1, mirror, 1, at, at), HumanEditsIssue(1, "", at), Correction(1, 2, call, 0);
    assert [] + UpToCorrection(hash, key, content, at) == deliver + ([edit] + correct);
    assert [] + UpToCorrection(hash, key, content, at) == UpToCorrection(hash, key, content, at);
    RunIsFrom(hash, [], UpToCorrection(hash, key, content, at));
    RunOfNothing(hash);
    FromConcat(hash, INITIAL, deliver, [edit] + correct);
    InitialIsFree(key);
    MirrorDelivers(hash, INITIAL, 0, 1, mirror, 1, at, at);
    var w := Delivered(hash, INITIAL, 0, 1, mirror, Complete(Opened(mirror, 1, at), at));
    FromFirst(hash, w, edit, correct);
    Empties(hash, key, content, at);
    EmptiedCorrects(hash, key, content, at);
    CallKey(hash, key, content, at);
    CorrectsParts(hash, Emptied(hash, key, content, at), 1, 2, call, Emptied(hash, key, content, at).bindings[key], 1);
    ReachesCorrection(hash, Emptied(hash, key, content, at), 1, 2, call, Emptied(hash, key, content, at).bindings[key], 1);
  }

  lemma CallKey(hash: Hasher, key: string, content: string, at: Instant)
    ensures KeepLocalOver(hash, key, content, at).key == key
  {}

  /** For every diary there is a run after which its Issue holds the same
      correction twice, in consecutive comments. */
  lemma CorrectionMayRepeat(hash: Hasher, key: string, content: string, at: Instant)
    requires Diary(key, content)
    ensures var w := Run(hash, UpToCorrection(hash, key, content, at) + [Commented(1, 1, at, Transient), Commented(1, 2, at, Success)]);
            BothCorrect(hash, w, key, 0, 1) && SameText(hash, w, key, 0, 1)
  {
    hide Run, UpToCorrection, Emptied, KeepLocalOver, DecodeIssue, BothCorrect, SameText, Diary;
    AfterUpToCorrection(hash, key, content, at);
    CallKey(hash, key, content, at);
    ResendingRepeats(hash, UpToCorrection(hash, key, content, at), 1, 1, at, 2, at, Success);
  }
}
