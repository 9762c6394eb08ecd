/** The Wiki mirror as processes that fetch, commit and push, interleaved with
    other committers (wiki.go). Commits are numbered in the order in which they
    are made; the remote accepts a push only as a fast-forward. */
module WikiProtocol {
  import opened Text

  type Id = nat
  type OpId = nat

  /** `parent` is a smaller number: history has no cycles. */
  datatype Commit = Commit(parent: Option<Id>, pages: map<string, string>)
  type Commits = c: seq<Commit> | forall i | 0 <= i < |c| :: c[i].parent.Some? ==> c[i].parent.value < i

  datatype Mode = Create | Bound | Recover | Status | KeepLocal | KeepRemote

  /** `marked` tells whether a page carries the diary's marker in its
      frontmatter; `expected` is the page that the diary renders to. A
      resolution that names no Git revision is refused before anything else. */
  datatype Call = Call(mode: Mode, observed: Option<Id>, path: string, expected: string, marked: string -> bool)

  datatype Answer = Mirrored(revision: Id) | Conflict(unverified: bool) | Pending

  datatype Decision = Answers(answer: Answer) | Writes

  function PageAt(c: Commit, path: string): Option<string> { if path in c.pages then Some(c.pages[path]) else None }

  predicate Resolving(mode: Mode) { mode.KeepLocal? || mode.KeepRemote? }

  /* Resolve accepts only a "git:" revision; the other modes observe nothing. */
  predicate ValidCall(call: Call) { call.observed.Some? <==> Resolving(call.mode) }

  /** The branches of apply, in their order, once the remote head is fetched. */
  function Decide(call: Call, head: Id, page: Option<string>): Decision {
    if page.Some? && !call.marked(page.value) && call.mode in {Bound, Status, Recover} then Answers(Conflict(true))
    else if page.Some? && call.mode.Create? then Answers(Pending)
    else if call.observed.Some? && call.observed.value != head then Answers(Conflict(false))
    else if call.mode.KeepRemote? then Answers(if page.None? then Conflict(false) else Mirrored(head))
    else if page == Some(call.expected) then Answers(Mirrored(head))
    else if page.Some? && !call.mode.KeepLocal? then Answers(Conflict(false))
    else if call.mode.Status? || (call.mode.KeepLocal? && page.None?) then Answers(Pending)
    else Writes
  }

  /** When a page is written: a new one by the mirroring modes, and another
      one's only by a keep-local that observed the very head. */
  ghost predicate MayWrite(call: Call, head: Id, page: Option<string>) {
    if page.None? then call.mode in {Create, Bound, Recover}
    else call.mode.KeepLocal? && call.observed == Some(head) && page.value != call.expected
  }

  lemma WritesExactly(call: Call, head: Id, page: Option<string>)
    requires ValidCall(call)
    ensures Decide(call, head, page).Writes? <==> MayWrite(call, head, page)
  {}

  /** Mirrored is answered over the expected page, or as the acknowledgement of
      the page at the head that the caller observed. */
  ghost predicate Justified(call: Call, head: Id, page: Option<string>) {
    page == Some(call.expected) || (call.mode.KeepRemote? && page.Some? && call.observed == Some(head))
  }

  lemma MirroredIsJustified(call: Call, head: Id, page: Option<string>)
    requires ValidCall(call)
    ensures Decide(call, head, page) == Answers(Mirrored(head)) ==> Justified(call, head, page)
    ensures Decide(call, head, page).Answers? && Decide(call, head, page).answer.Mirrored? ==>
      Decide(call, head, page).answer.revision == head
  {}

  // ---- runs ------------------------------------------------------------------------

  datatype Pc =
    | Fetching
    | Committing(head: Id)
    | Pushing(head: Id, made: Id)
    | Refreshing
    | Done(answer: Answer)

  /** `forced` is history: the remote was moved back, or sideways, since the fetch. */
  datatype Op = Op(call: Call, pc: Pc, forced: bool)
  datatype World = World(commits: Commits, remote: Option<Id>, ops: map<OpId, Op>)

  /** `Other` is somebody's fast-forward; `OtherForces` rewrites the branch. */
  datatype Event =
    | Begin(op: OpId, call: Call)
    | Proceed(op: OpId, answered: bool)
    | Fail(op: OpId)
    | Other(pages: map<string, string>)
    | OtherForces(id: Id)

  predicate Ancestor(commits: Commits, a: Id, c: Id)
    requires c < |commits|
  {
    a == c || (commits[c].parent.Some? && Ancestor(commits, a, commits[c].parent.value))
  }

  ghost function To(w: World, o: OpId, pc: Pc): World
    requires o in w.ops
  {
    w.(ops := w.ops[o := w.ops[o].(pc := pc)])
  }

  ghost function AfterFetch(w: World, o: OpId, head: Id): World
    requires o in w.ops && head < |w.commits|
  {
    var op := w.ops[o];
    match Decide(op.call, head, PageAt(w.commits[head], op.call.path))
    case Answers(answer) => To(w, o, Done(answer))
    case Writes => w.(ops := w.ops[o := op.(pc := Committing(head), forced := false)])
  }

  ghost function NewCommit(w: World, call: Call, head: Id): Commit
    requires head < |w.commits|
  {
    Commit(Some(head), w.commits[head].pages[call.path := call.expected])
  }

  ghost predicate Accepts(w: World, made: Id) {
    made < |w.commits| && w.remote.Some? && w.remote.value < |w.commits| && Ancestor(w.commits, w.remote.value, made)
  }

  /* A push whose answer is lost has still moved the remote. */
  ghost function AfterPush(w: World, o: OpId, made: Id, answered: bool): World
    requires o in w.ops
  {
    if Accepts(w, made) then To(w, o, Done(if answered then Mirrored(made) else Pending)).(remote := Some(made))
    else To(w, o, Refreshing)
  }

  ghost function Advance(w: World, o: OpId, answered: bool): World
    requires o in w.ops
  {
    match w.ops[o].pc
    case Fetching =>
      if w.remote.Some? && w.remote.value < |w.commits| then AfterFetch(w, o, w.remote.value) else To(w, o, Done(Pending))
    case Committing(head) =>
      if head < |w.commits|
      then To(w, o, Pushing(head, |w.commits|)).(commits := w.commits + [NewCommit(w, w.ops[o].call, head)])
      else w
    case Pushing(_, made) => AfterPush(w, o, made, answered)
    case Refreshing => To(w, o, Done(Conflict(false)))
    case Done(_) => w
  }

  ghost function Step(w: World, e: Event): World {
    match e
    case Begin(o, call) => if o in w.ops || !ValidCall(call) then w else w.(ops := w.ops[o := Op(call, Fetching, false)])
    case Proceed(o, answered) => if o in w.ops then Advance(w, o, answered) else w
    case Fail(o) => if o in w.ops && !w.ops[o].pc.Done? then To(w, o, Done(Pending)) else w
    case Other(pages) =>
      if w.remote.Some? && w.remote.value >= |w.commits| then w
      else w.(commits := w.commits + [Commit(w.remote, pages)], remote := Some(|w.commits|))
    case OtherForces(id) =>
      if id < |w.commits| then w.(remote := Some(id), ops := map o | o in w.ops :: w.ops[o].(forced := true)) else w
  }

  const INITIAL := World([], None, map[])

  ghost function Run(events: seq<Event>): World {
    if events == [] then INITIAL else Step(Run(events[..|events| - 1]), events[|events| - 1])
  }

  // ---- what every run keeps ------------------------------------------------------------

  /* The commit that an operation has made, or is about to make. */
  ghost predicate Made(w: World, call: Call, head: Id, made: Id) {
    && head < made < |w.commits| && w.commits[made].parent == Some(head)
    && w.commits[made].pages == w.commits[head].pages[call.path := call.expected]
  }

  ghost predicate AnswerOk(w: World, call: Call, answer: Answer) {
    answer.Mirrored? ==>
      answer.revision < |w.commits| && Justified(call, answer.revision, PageAt(w.commits[answer.revision], call.path))
  }

  /* Unless somebody forced the branch, the remote has only gone forward. */
  ghost predicate Forward(w: World, op: Op, head: Id) {
    head < |w.commits| && w.remote.Some? && w.remote.value < |w.commits|
    && (!op.forced ==> Ancestor(w.commits, head, w.remote.value))
  }

  ghost predicate OpOk(w: World, op: Op) {
    ValidCall(op.call) &&
    match op.pc
    case Committing(head) => Forward(w, op, head) && MayWrite(op.call, head, PageAt(w.commits[head], op.call.path))
    case Pushing(head, made) =>
      Forward(w, op, head) && MayWrite(op.call, head, PageAt(w.commits[head], op.call.path)) && Made(w, op.call, head, made)
    case Done(answer) => AnswerOk(w, op.call, answer)
    case _ => true
  }

  ghost predicate Inv(w: World) {
    && (w.remote.Some? ==> w.remote.value < |w.commits|)
    && forall o | o in w.ops :: OpOk(w, w.ops[o])
  }

  lemma {:induction false} AncestorIsOlder(commits: Commits, a: Id, c: Id)
    requires c < |commits| && Ancestor(commits, a, c)
    ensures a <= c
    decreases c
  {
    if a != c { AncestorIsOlder(commits, a, commits[c].parent.value); }
  }

  lemma {:induction false} AncestorTransitive(commits: Commits, a: Id, b: Id, c: Id)
    requires c < |commits| && b < |commits| && Ancestor(commits, a, b) && Ancestor(commits, b, c)
    ensures Ancestor(commits, a, c)
    decreases c
  {
    if b != c { AncestorTransitive(commits, a, b, commits[c].parent.value); }
  }

  lemma {:induction false} AncestorStays(commits: Commits, more: Commits, a: Id, c: Id)
    requires c < |commits| && commits <= more
    ensures Ancestor(more, a, c) <==> Ancestor(commits, a, c)
    decreases c
  {
    if commits[c].parent.Some? { AncestorStays(commits, more, a, commits[c].parent.value); }
  }

  /* Commits are only added, and the remote only goes forward, or by force. */
  ghost predicate Onward(w: World, v: World) {
    && w.commits <= v.commits && (v.remote.Some? ==> v.remote.value < |v.commits|)
    && (w.remote.Some? ==> v.remote.Some?)
    && (w.remote.Some? && w.remote.value < |w.commits| ==> Ancestor(v.commits, w.remote.value, v.remote.value))
  }

  lemma OnwardKeepsOp(w: World, v: World, op: Op)
    requires OpOk(w, op) && Onward(w, v)
    ensures OpOk(v, op)
  {
    if op.pc.Committing? || op.pc.Pushing? {
      var head := op.pc.head;
      assert v.commits[head] == w.commits[head];
      if !op.forced {
        AncestorStays(w.commits, v.commits, head, w.remote.value);
        AncestorTransitive(v.commits, head, w.remote.value, v.remote.value);
      }
    }
    if op.pc.Done? && op.pc.answer.Mirrored? {
      assert v.commits[op.pc.answer.revision] == w.commits[op.pc.answer.revision];
    }
  }

  lemma ForcedKeepsOp(w: World, op: Op, id: Id)
    requires OpOk(w, op) && id < |w.commits|
    ensures OpOk(w.(remote := Some(id)), op.(forced := true))
  {}

  lemma FetchKeepsOp(w: World, o: OpId)
    requires Inv(w) && o in w.ops && w.remote.Some?
    ensures OpOk(w, AfterFetch(w, o, w.remote.value).ops[o])
  {
    var call, head := w.ops[o].call, w.remote.value;
    assert OpOk(w, w.ops[o]);
    WritesExactly(call, head, PageAt(w.commits[head], call.path));
    MirroredIsJustified(call, head, PageAt(w.commits[head], call.path));
  }

  lemma AdvanceMovesOnward(w: World, o: OpId, answered: bool)
    requires Inv(w) && o in w.ops
    ensures Onward(w, Advance(w, o, answered))
  {
    hide Decide;
  }

  lemma AdvanceKeepsOp(w: World, o: OpId, answered: bool)
    requires Inv(w) && o in w.ops
    ensures var v := Advance(w, o, answered); o in v.ops && OpOk(v, v.ops[o])
  {
    var op, v := w.ops[o], Advance(w, o, answered);
    AdvanceMovesOnward(w, o, answered);
    OnwardKeepsOp(w, v, op);
    if op.pc.Fetching? && w.remote.Some? {
      hide Decide, OpOk;
      FetchKeepsOp(w, o);
      assert v == AfterFetch(w, o, w.remote.value);
      SameRemoteOp(w, v, v.ops[o]);
    }
  }

  lemma SameRemoteOp(w: World, v: World, op: Op)
    requires v.commits == w.commits && v.remote == w.remote && OpOk(w, op)
    ensures OpOk(v, op)
  {}

  lemma StepKeepsInv(w: World, e: Event)
    requires Inv(w)
    ensures Inv(Step(w, e))
  {
    hide OpOk, Advance;
    var v := Step(w, e);
    match e {
      case Proceed(o, answered) =>
        if o in w.ops {
          AdvanceMovesOnward(w, o, answered);
          AdvanceKeepsOp(w, o, answered);
          AdvanceKeepsOthers(w, o, answered);
        }
      case OtherForces(id) =>
        if id < |w.commits| {
          forall o | o in v.ops ensures OpOk(v, v.ops[o]) {
            ForcedKeepsOp(w, w.ops[o], id);
            SameRemoteOp(w.(remote := Some(id)), v, v.ops[o]);
          }
        }
      case _ =>
        OtherMovesOnward(w, e);
        forall o | o in v.ops ensures OpOk(v, v.ops[o]) {
          if o in w.ops { OnwardKeepsOp(w, v, w.ops[o]); }
          StartOrFailure(v, v.ops[o]);
        }
    }
  }

  lemma OtherMovesOnward(w: World, e: Event)
    requires Inv(w) && !e.Proceed? && !e.OtherForces?
    ensures Onward(w, Step(w, e))
  {
    var v := Step(w, e);
    if e.Other? && w.remote.Some? {
      assert v.commits[|w.commits|].parent == w.remote;
      assert Ancestor(v.commits, w.remote.value, w.remote.value);
    }
  }

  lemma StartOrFailure(w: World, op: Op)
    ensures ValidCall(op.call) && (op.pc.Fetching? || op.pc == Done(Pending)) ==> OpOk(w, op)
    ensures OpOk(w, op) ==> ValidCall(op.call)
  {}

  lemma AdvanceKeepsOthers(w: World, o: OpId, answered: bool)
    requires Inv(w) && o in w.ops
    ensures var v := Advance(w, o, answered); v.ops.Keys == w.ops.Keys && forall p | p in v.ops && p != o :: OpOk(v, v.ops[p])
  {
    hide OpOk, Decide;
    var v := Advance(w, o, answered);
    AdvanceMovesOnward(w, o, answered);
    forall p | p in v.ops && p != o ensures OpOk(v, v.ops[p]) {
      OnwardKeepsOp(w, v, w.ops[p]);
    }
  }

  lemma {:induction false} RunKeepsInv(events: seq<Event>)
    ensures Inv(Run(events))
  {
    if events != [] {
      RunKeepsInv(events[..|events| - 1]);
      StepKeepsInv(Run(events[..|events| - 1]), events[|events| - 1]);
    }
  }

  // ---- results --------------------------------------------------------------------------

  /* The next step of `o` moves the remote to a commit of its own. */
  ghost predicate Pushes(w: World, e: Event) {
    e.Proceed? && e.op in w.ops && w.ops[e.op].pc.Pushing? && Accepts(w, w.ops[e.op].pc.made)
  }

  /** A pushed head has the fetched head as its parent, and differs from it by
      one page: a page that was not there, or one that a keep-local replaces
      after observing that very head. */
  lemma PushedHeads(events: seq<Event>, e: Event)
    requires Pushes(Run(events), e)
    ensures var w := Run(events);
            var call, head, made := w.ops[e.op].call, w.ops[e.op].pc.head, w.ops[e.op].pc.made;
            && Step(w, e).remote == Some(made) && made < |w.commits| && w.commits[made].parent == Some(head) && head < |w.commits|
            && w.commits[made].pages == w.commits[head].pages[call.path := call.expected]
            && MayWrite(call, head, PageAt(w.commits[head], call.path))
  {
    hide Run;
    RunKeepsInv(events);
    assert OpOk(Run(events), Run(events).ops[e.op]);
  }

  /** Whatever happened to the branch since the fetch: a push leaves the remote's
      page at a path as it is, or absent, exactly when the remote then agrees
      there with the fetched head; and at the call's own path exactly when the
      remote then holds the expected page. */
  lemma PageStaysExactly(events: seq<Event>, e: Event, path: string)
    requires Pushes(Run(events), e)
    ensures var w := Run(events);
            var call, pc := w.ops[e.op].call, w.ops[e.op].pc;
            && pc.head < |w.commits|
            && var before, after := w.commits[w.remote.value], w.commits[pc.made];
               PageAt(after, path) == PageAt(before, path)
               <==> PageAt(before, path) == if path == call.path then Some(call.expected) else PageAt(w.commits[pc.head], path)
  {
    hide Run;
    RunKeepsInv(events);
    assert OpOk(Run(events), Run(events).ops[e.op]);
  }

  /* The push starts where the remote stands, or changes nothing. */
  ghost predicate FromRemote(w: World, pc: Pc) {
    pc.Pushing? && (w.remote == Some(pc.head) || w.remote == Some(pc.made))
  }

  /** A push from where the remote stands replaces no page, except for a
      keep-local that observed that very head. */
  lemma ExistingPagesStay(events: seq<Event>, e: Event, path: string)
    requires var w := Run(events);
             && Pushes(w, e) && FromRemote(w, w.ops[e.op].pc) && path in w.commits[w.remote.value].pages
    ensures var w := Run(events);
            var call, before, after := w.ops[e.op].call, w.commits[w.remote.value], w.commits[w.ops[e.op].pc.made];
            && path in after.pages
            && (after.pages[path] != before.pages[path] ==>
                  path == call.path && call.mode.KeepLocal? && call.observed == w.remote && after.pages[path] == call.expected)
  {
    hide Run;
    RunKeepsInv(events);
    assert OpOk(Run(events), Run(events).ops[e.op]);
  }

  lemma FastForwardIsExact(w: World, op: Op)
    requires OpOk(w, op) && op.pc.Pushing? && !op.forced && Accepts(w, op.pc.made)
    ensures FromRemote(w, op.pc)
  {
    if w.remote != Some(op.pc.made) {
      var head, r := op.pc.head, w.remote.value;
      assert Ancestor(w.commits, r, head);
      AncestorIsOlder(w.commits, r, head);
      AncestorIsOlder(w.commits, head, r);
    }
  }

  /** While other committers only add to the branch, every accepted push is such
      a push. */
  lemma UnforcedPushIsFromRemote(events: seq<Event>, e: Event)
    requires var w := Run(events); Pushes(w, e) && !w.ops[e.op].forced
    ensures var w := Run(events); FromRemote(w, w.ops[e.op].pc)
  {
    hide Run;
    var w := Run(events);
    RunKeepsInv(events);
    assert OpOk(w, w.ops[e.op]);
    FastForwardIsExact(w, w.ops[e.op]);
  }

  ghost function RemotePage(w: World, path: string): Option<string> {
    if w.remote.Some? && w.remote.value < |w.commits| then PageAt(w.commits[w.remote.value], path) else None
  }

  /** A create that fetched a head without the page. */
  ghost function ForcedBack(call: Call, was: string): seq<Event> {
    [Other(map[call.path := was]), Other(map[]), Begin(0, call), Proceed(0, true), Proceed(0, true), OtherForces(0)]
  }

  lemma {:induction false} RunOne(before: seq<Event>, e: Event)
    ensures Run(before + [e]) == Step(Run(before), e)
  {
    assert (before + [e])[..|before|] == before;
  }

  /** When the branch is forced back to a head that still has the page, the
      create's push is a fast-forward, does not start there, and replaces it. */
  lemma ForcedBranchLosesPage(call: Call, was: string)
    requires call.mode.Create? && call.observed.None? && was != call.expected
    ensures var w := Run(ForcedBack(call, was));
            var v := Step(w, Proceed(0, true));
            RemotePage(w, call.path) == Some(was) && RemotePage(v, call.path) == Some(call.expected)
  {
    hide Run;
    var es := ForcedBack(call, was);
    assert Run([]) == INITIAL by { RunOfNothing(); }
    RunOne([], es[0]);
    RunOne([es[0]], es[1]);
    RunOne([es[0], es[1]], es[2]);
    RunOne([es[0], es[1], es[2]], es[3]);
    RunOne([es[0], es[1], es[2], es[3]], es[4]);
    RunOne([es[0], es[1], es[2], es[3], es[4]], es[5]);
    assert [] + [es[0]] == [es[0]] && [es[0]] + [es[1]] == [es[0], es[1]] && [es[0], es[1]] + [es[2]] == [es[0], es[1], es[2]];
    assert [es[0], es[1], es[2]] + [es[3]] == [es[0], es[1], es[2], es[3]];
    assert [es[0], es[1], es[2], es[3]] + [es[4]] == [es[0], es[1], es[2], es[3], es[4]];
    assert es == [es[0], es[1], es[2], es[3], es[4]] + [es[5]];
    ForcedBackRuns(call, was);
  }

  lemma RunOfNothing()
    ensures Run([]) == INITIAL
  {}

  lemma ForcedBackRuns(call: Call, was: string)
    requires call.mode.Create? && call.observed.None? && was != call.expected
    ensures var es := ForcedBack(call, was);
            var w := Step(Step(Step(Step(Step(Step(INITIAL, es[0]), es[1]), es[2]), es[3]), es[4]), es[5]);
            var v := Step(w, Proceed(0, true));
            RemotePage(w, call.path) == Some(was) && RemotePage(v, call.path) == Some(call.expected)
  {
    var es := ForcedBack(call, was);
    var w0 := Step(INITIAL, es[0]);
    var first, second := Commit(None, map[call.path := was]), Commit(Some(0), map[]);
    assert w0.commits == [first] && w0.remote == Some(0);
    var w1 := Step(w0, es[1]);
    assert w1.commits == [first, second] && w1.remote == Some(1);
    var w2 := Step(w1, es[2]);
    assert w2.ops[0] == Op(call, Fetching, false);
    var w3 := Step(w2, es[3]);
    assert w3.ops[0] == Op(call, Committing(1), false);
    var w4 := Step(w3, es[4]);
    var made := Commit(Some(1), map[call.path := call.expected]);
    assert w4.commits == [first, second, made] && w4.ops[0].pc == Pushing(1, 2);
    var w5 := Step(w4, es[5]);
    assert w5.remote == Some(0) && w5.ops[0].pc == Pushing(1, 2) && w5.commits == w4.commits;
    assert Ancestor(w5.commits, 0, 0) && Ancestor(w5.commits, 0, 1) && Ancestor(w5.commits, 0, 2);
  }

  /** Whatever the interleaving, Mirrored names a commit that holds the expected
      page, or the head that a keep-remote acknowledged. */
  lemma MirroredNamesThePage(events: seq<Event>, o: OpId)
    requires var w := Run(events); o in w.ops && w.ops[o].pc.Done? && w.ops[o].pc.answer.Mirrored?
    ensures var w := Run(events);
            var call, revision := w.ops[o].call, w.ops[o].pc.answer.revision;
            revision < |w.commits| && Justified(call, revision, PageAt(w.commits[revision], call.path))
  {
    hide Run;
    RunKeepsInv(events);
    assert OpOk(Run(events), Run(events).ops[o]);
  }
}
