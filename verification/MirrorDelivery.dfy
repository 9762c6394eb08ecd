/** What an undisturbed Mirror, or Recover whose scan finds nothing, achieves:
    one closed Issue, a binding that names it, and a free lock. */
module MirrorDelivery {
  import opened Text
  import opened Decimal
  import opened Markers
  import opened IssueSemantics
  import opened EffectiveDocument
  import opened MirrorStores
  import opened MirrorProtocol
  import opened MirrorSafety
  import opened MirrorSteps
  import opened MirrorRuns
  import opened MirrorResults

  /* An operation that takes the lock, on a diary that carries no marker and under
     a hashed key. */
  ghost predicate TakesLock(call: Call) { !call.kind.Status? && IsKey(call.key) && Unmarked(call.content) }

  ghost predicate Mirrors(call: Call) {
    (call.kind.Mirror? || call.kind.Recover?) && TakesLock(call) && call.content != ""
  }

  /* The diary's lock is free; `o` and its process are new. */
  ghost predicate Idle(w: World, o: OpId, pid: Pid, key: string) {
    o !in w.ops && pid !in w.dead && key !in w.locks
  }

  ghost predicate Free(w: World, o: OpId, pid: Pid, key: string) {
    Idle(w, o, pid, key) && key !in w.bindings
  }

  ghost function From(hash: Hasher, w: World, events: seq<Event>): World
    decreases |events|
  {
    if events == [] then w else From(hash, Step(hash, w, events[0]), events[1..])
  }

  lemma {:induction false} RunIsFrom(hash: Hasher, before: seq<Event>, events: seq<Event>)
    ensures From(hash, Run(hash, before), events) == Run(hash, before + events)
    decreases |events|
  {
    hide Step;
    if events == [] {
      assert before + events == before;
    } else {
      assert (before + [events[0]])[..|before|] == before;
      assert before + events == (before + [events[0]]) + events[1..];
      RunIsFrom(hash, before + [events[0]], events[1..]);
    }
  }

  lemma FromNothing(hash: Hasher, w: World)
    ensures From(hash, w, []) == w
  {}

  lemma FromFirst(hash: Hasher, w: World, e: Event, rest: seq<Event>)
    ensures From(hash, w, [e] + rest) == From(hash, Step(hash, w, e), rest)
  {
    hide Step;
    assert ([e] + rest)[1..] == rest;
  }

  lemma FromOne(hash: Hasher, w: World, e: Event)
    ensures From(hash, w, [e]) == Step(hash, w, e)
  {
    hide Step;
    assert [e] == [e] + [];
    FromFirst(hash, w, e, []);
    FromNothing(hash, Step(hash, w, e));
  }

  lemma {:induction false} FromConcat(hash: Hasher, w: World, a: seq<Event>, b: seq<Event>)
    ensures From(hash, w, a + b) == From(hash, From(hash, w, a), b)
    decreases |a|
  {
    hide Step;
    if a == [] {
      assert a + b == b;
    } else {
      assert (a + b)[1..] == a[1..] + b;
      FromConcat(hash, Step(hash, w, a[0]), a[1..], b);
    }
  }

  // ---- up to the creation ---------------------------------------------------------

  /* `w` with operation `o` of process `pid` at `pc`, holding the lock. */
  ghost function At(w: World, o: OpId, pid: Pid, call: Call, pc: Pc): World {
    w.(ops := w.ops[o := Op(pid, call, pc)], locks := w.locks[call.key := Owned(LockOwner(pid, o))])
  }

  ghost function Acquired(w: World, o: OpId, pid: Pid, call: Call): World {
    w.(ops := w.ops[o := Op(pid, call, WritingOwner)], locks := w.locks[call.key := Unwritten(o)])
  }

  lemma Starts(hash: Hasher, w: World, o: OpId, pid: Pid, call: Call)
    requires Idle(w, o, pid, call.key) && TakesLock(call)
    ensures Step(hash, w, Begin(o, pid, call)) == w.(ops := w.ops[o := Op(pid, call, Acquiring)])
  {
    hide Unmarked, IsSha256;
  }

  lemma Acquires(hash: Hasher, w: World, o: OpId, pid: Pid, call: Call)
    requires Idle(w, o, pid, call.key)
    ensures Step(hash, w.(ops := w.ops[o := Op(pid, call, Acquiring)]), Proceed(o)) == Acquired(w, o, pid, call)
  {
    hide Step, Advance;
    var v := w.(ops := w.ops[o := Op(pid, call, Acquiring)]);
    OwnStep(hash, v, Proceed(o));
    AdvanceAcquiring(hash, v, o);
    assert v.ops[o := Op(pid, call, WritingOwner)] == w.ops[o := Op(pid, call, WritingOwner)];
  }

  /* Overwriting an entry forgets the old one. */
  lemma Overwrites<K, V>(m: map<K, V>, key: K, was: V, value: V)
    ensures m[key := was][key := value] == m[key := value]
  {}

  lemma WritesOwner(hash: Hasher, w: World, o: OpId, pid: Pid, call: Call)
    requires Idle(w, o, pid, call.key)
    ensures Step(hash, Acquired(w, o, pid, call), Proceed(o)) == At(w, o, pid, call, Loading)
  {
    hide Step, Advance;
    var v := Acquired(w, o, pid, call);
    OwnStep(hash, v, Proceed(o));
    AdvanceWritingOwner(hash, v, o);
    Overwrites(w.ops, o, Op(pid, call, WritingOwner), Op(pid, call, Loading));
    Overwrites(w.locks, call.key, Unwritten(o), Owned(LockOwner(pid, o)));
  }

  lemma Reads(hash: Hasher, w: World, o: OpId, pid: Pid, call: Call, pc: Pc)
    requires pid !in w.dead && !Writes(pc) && !pc.Finished?
    ensures Step(hash, At(w, o, pid, call, pc), Proceed(o))
         == At(w, o, pid, call, AfterRead(hash, At(w, o, pid, call, pc), call, pc))
  {
    hide AfterRead, Step, Advance;
    var v := At(w, o, pid, call, pc);
    OwnStep(hash, v, Proceed(o));
    AdvanceReads(hash, v, o);
    assert v.ops[o := Op(pid, call, AfterRead(hash, v, call, pc))] == w.ops[o := Op(pid, call, AfterRead(hash, v, call, pc))];
  }

  lemma LoadsUnbound(hash: Hasher, w: World, o: OpId, pid: Pid, call: Call)
    requires Free(w, o, pid, call.key) && Mirrors(call)
    ensures Step(hash, At(w, o, pid, call, Loading), Proceed(o))
         == At(w, o, pid, call, if call.kind.Recover? then ScanningMarked else EnsuringLabels)
  {
    hide Step, Unmarked, IsSha256;
    Reads(hash, w, o, pid, call, Loading);
  }

  lemma ScansNothing(hash: Hasher, w: World, o: OpId, pid: Pid, call: Call)
    requires pid !in w.dead
    ensures Step(hash, At(w, o, pid, call, ScanningMarked), Proceed(o)) == At(w, o, pid, call, EnsuringLabels)
    ensures Step(hash, At(w, o, pid, call, EnsuringLabels), Proceed(o)) == At(w, o, pid, call, Creating(0))
  {
    hide Step;
    Reads(hash, w, o, pid, call, ScanningMarked);
    Reads(hash, w, o, pid, call, EnsuringLabels);
  }

  ghost function Searching(o: OpId, kind: Kind): seq<Event> {
    [Proceed(o)] + ([Proceed(o)] + if kind.Recover? then [Proceed(o)] else [])
  }

  ghost function Approach(o: OpId, pid: Pid, call: Call): seq<Event> {
    [Begin(o, pid, call)] + ([Proceed(o)] + ([Proceed(o)] + Searching(o, call.kind)))
  }

  lemma CreationFollows(hash: Hasher, w: World, o: OpId, pid: Pid, call: Call)
    requires Free(w, o, pid, call.key) && Mirrors(call)
    ensures From(hash, At(w, o, pid, call, Loading), Searching(o, call.kind)) == At(w, o, pid, call, Creating(0))
  {
    hide Step, From, At, Unmarked, IsSha256;
    var p := Proceed(o);
    var tail := if call.kind.Recover? then [p] else [];
    FromFirst(hash, At(w, o, pid, call, Loading), p, [p] + tail);
    LoadsUnbound(hash, w, o, pid, call);
    ScansNothing(hash, w, o, pid, call);
    if call.kind.Recover? {
      FromFirst(hash, At(w, o, pid, call, ScanningMarked), p, [p]);
    }
    assert [p] + [] == [p];
    FromOne(hash, At(w, o, pid, call, EnsuringLabels), p);
  }

  /* The lock is taken, and its record written. */
  lemma Enters(hash: Hasher, w: World, o: OpId, pid: Pid, call: Call, rest: seq<Event>)
    requires Idle(w, o, pid, call.key) && TakesLock(call)
    ensures From(hash, w, [Begin(o, pid, call)] + ([Proceed(o)] + ([Proceed(o)] + rest))) == From(hash, At(w, o, pid, call, Loading), rest)
  {
    hide Step, From, At, Acquired, Idle, TakesLock;
    var p := Proceed(o);
    FromFirst(hash, w, Begin(o, pid, call), [p] + ([p] + rest));
    Starts(hash, w, o, pid, call);
    FromFirst(hash, w.(ops := w.ops[o := Op(pid, call, Acquiring)]), p, [p] + rest);
    Acquires(hash, w, o, pid, call);
    FromFirst(hash, Acquired(w, o, pid, call), p, rest);
    WritesOwner(hash, w, o, pid, call);
  }

  lemma ReachesCreation(hash: Hasher, w: World, o: OpId, pid: Pid, call: Call)
    requires Free(w, o, pid, call.key) && Mirrors(call)
    ensures From(hash, w, Approach(o, pid, call)) == At(w, o, pid, call, Creating(0))
  {
    hide Step, From, At, Idle, TakesLock, Searching;
    Enters(hash, w, o, pid, call, Searching(o, call.kind));
    CreationFollows(hash, w, o, pid, call);
  }

  // ---- the creation ------------------------------------------------------------------

  ghost function Opened(call: Call, n: int, at: Instant): Issue {
    Issue(n, DiaryBody(call.content, call.key), at, false, false, false)
  }

  /* `w` with the diary's Issue `n`, whose author stands at `pc`. */
  ghost function Opening(w: World, o: OpId, pid: Pid, call: Call, i: Issue, pc: Pc): World {
    At(WithIssue(w, i.number, i, Creation(call.key, o)), o, pid, call, pc)
  }

  lemma CreatesIssue(hash: Hasher, w: World, o: OpId, pid: Pid, call: Call, n: int, at: Instant)
    ensures AfterCreated(hash, At(w, o, pid, call, Creating(0)), o, n, at, Success)
         == Opening(w, o, pid, call, Opened(call, n, at), SavingProvisional(Opened(call, n, at)))
  {
    hide DiaryBody;
    var v, next := At(w, o, pid, call, Creating(0)), SavingProvisional(Opened(call, n, at));
    assert v.ops[o := Op(pid, call, next)] == w.ops[o := Op(pid, call, next)];
  }

  lemma AnswersCreation(hash: Hasher, w: World, o: OpId, n: int, at: Instant)
    requires Running(w, o) && w.ops[o].pc.Creating? && FreshIssue(w, n)
    ensures Answered(hash, w, o, Created(o, n, at, Success)) == AfterCreated(hash, w, o, n, at, Success)
  {
    hide AfterCreated, FreshIssue;
  }

  lemma Creates(hash: Hasher, w: World, o: OpId, pid: Pid, call: Call, n: int, at: Instant)
    requires pid !in w.dead && FreshIssue(w, n)
    ensures Step(hash, At(w, o, pid, call, Creating(0)), Created(o, n, at, Success))
         == Opening(w, o, pid, call, Opened(call, n, at), SavingProvisional(Opened(call, n, at)))
  {
    hide AfterCreated, Opening, Opened, Step, Answered;
    var v := At(w, o, pid, call, Creating(0));
    RemoteStep(hash, v, Created(o, n, at, Success));
    AnswersCreation(hash, v, o, n, at);
    CreatesIssue(hash, w, o, pid, call, n, at);
  }

  lemma ApproachAndCreate(hash: Hasher, w: World, o: OpId, pid: Pid, call: Call, n: int, at: Instant)
    requires Free(w, o, pid, call.key) && Mirrors(call) && FreshIssue(w, n)
    ensures From(hash, w, Approach(o, pid, call) + [Created(o, n, at, Success)])
         == Opening(w, o, pid, call, Opened(call, n, at), SavingProvisional(Opened(call, n, at)))
  {
    hide Step, From, At, FreshIssue, Approach, Opening, Opened, Mirrors;
    ReachesCreation(hash, w, o, pid, call);
    FromConcat(hash, w, Approach(o, pid, call), [Created(o, n, at, Success)]);
    Creates(hash, w, o, pid, call, n, at);
    FromOne(hash, At(w, o, pid, call, Creating(0)), Created(o, n, at, Success));
  }

  // ---- record, close, record, release --------------------------------------------------

  ghost function Provisional(hash: Hasher, call: Call, i: Issue): Binding {
    BindingOf(hash, call.content, ObservedIssue(hash, SyncPending, i, call.content))
  }

  lemma Records(hash: Hasher, w: World, o: OpId, pid: Pid, call: Call, i: Issue)
    requires pid !in w.dead && IsKey(call.key)
    ensures Step(hash, Opening(w, o, pid, call, i, SavingProvisional(i)), Proceed(o))
         == Opening(w, o, pid, call, i, Closing(i, true, 0)).(bindings := w.bindings[call.key := Provisional(hash, call, i)])
  {
    hide Step, Advance, ValidBinding, IsSha256, BindingOf, ObservedIssue;
    ProvisionalIsValid(hash, call.content, i);
    var v := Opening(w, o, pid, call, i, SavingProvisional(i));
    OwnStep(hash, v, Proceed(o));
    AdvanceSavingProvisional(hash, v, o);
    assert v.ops[o := Op(pid, call, Closing(i, true, 0))] == w.ops[o := Op(pid, call, Closing(i, true, 0))];
  }

  ghost function Complete(i: Issue, at: Instant): Issue { i.(closed := true, completed := true, updatedAt := at) }

  lemma AnswersClosing(hash: Hasher, w: World, o: OpId, at: Instant)
    requires Running(w, o) && w.ops[o].pc.Closing? && w.ops[o].pc.made.number in w.remote.issues
    ensures Answered(hash, w, o, Closed(o, at, Success)) == AfterClosed(hash, w, o, w.ops[o].pc.made.number, at, Success)
  {
    hide AfterClosed;
  }

  lemma Closes(hash: Hasher, w: World, o: OpId, pid: Pid, call: Call, i: Issue, at: Instant, bindings: Bindings)
    requires pid !in w.dead && !call.kind.Status?
    ensures Step(hash, Opening(w, o, pid, call, i, Closing(i, true, 0)).(bindings := bindings), Closed(o, at, Success))
         == Opening(w, o, pid, call, Complete(i, at), SavingBinding(MirroredIssue(hash, Complete(i, at), call.content))).(bindings := bindings)
  {
    hide Step, Answered, ObservedIssue;
    var v := Opening(w, o, pid, call, i, Closing(i, true, 0)).(bindings := bindings);
    var c := Complete(i, at);
    var next := SavingBinding(MirroredIssue(hash, c, call.content));
    RemoteStep(hash, v, Closed(o, at, Success));
    AnswersClosing(hash, v, o, at);
    assert v.remote.issues[i.number := c] == w.remote.issues[i.number := c];
    assert v.ops[o := Op(pid, call, next)] == w.ops[o := Op(pid, call, next)];
    MirroredState(hash, c, call.content);
  }

  lemma MirroredState(hash: Hasher, i: Issue, content: string)
    ensures MirroredIssue(hash, i, content).state == Mirrored
  {}

  ghost function Final(hash: Hasher, call: Call, i: Issue): Binding {
    BindingOf(hash, call.content, MirroredIssue(hash, i, call.content))
  }

  lemma FinalIsValid(hash: Hasher, call: Call, i: Issue)
    ensures ValidBinding(Final(hash, call, i))
  {
    hide IsSha256, ValidRevision;
    IssueRevisionFacts(hash, i);
    assert IsSha256(hash(call.content));
  }

  lemma SavesAgain(bindings: Bindings, key: string, was: Binding, b: Binding)
    requires IsKey(key) && ValidBinding(b)
    ensures SaveBinding(bindings[key := was], key, b) == bindings[key := b]
  {
    hide ValidBinding, IsSha256;
    Overwrites(bindings, key, was, b);
  }

  lemma Binds(hash: Hasher, w: World, o: OpId, pid: Pid, call: Call, i: Issue, b: Binding)
    requires pid !in w.dead && IsKey(call.key)
    ensures Step(hash, Opening(w, o, pid, call, i, SavingBinding(MirroredIssue(hash, i, call.content))).(bindings := w.bindings[call.key := b]), Proceed(o))
         == Opening(w, o, pid, call, i, Releasing).(bindings := w.bindings[call.key := Final(hash, call, i)])
  {
    hide Step, Advance, ValidBinding, IsSha256, MirroredIssue, SaveBinding, BindingOf;
    FinalIsValid(hash, call, i);
    var v := Opening(w, o, pid, call, i, SavingBinding(MirroredIssue(hash, i, call.content))).(bindings := w.bindings[call.key := b]);
    OwnStep(hash, v, Proceed(o));
    AdvanceSavingBinding(hash, v, o);
    assert v.ops[o := Op(pid, call, Releasing)] == w.ops[o := Op(pid, call, Releasing)];
    SavesAgain(w.bindings, call.key, b, Final(hash, call, i));
  }

  /* `w` after the mirror: nothing but the Issue, its binding and the history differ. */
  ghost function Delivered(hash: Hasher, w: World, o: OpId, pid: Pid, call: Call, i: Issue): World {
    WithIssue(w, i.number, i, Creation(call.key, o)).(
      ops := w.ops[o := Op(pid, call, Finished)], bindings := w.bindings[call.key := Final(hash, call, i)])
  }

  lemma Releases(hash: Hasher, w: World, o: OpId, pid: Pid, call: Call, i: Issue)
    requires pid !in w.dead && call.key !in w.locks
    ensures Step(hash, Opening(w, o, pid, call, i, Releasing).(bindings := w.bindings[call.key := Final(hash, call, i)]), Proceed(o))
         == Delivered(hash, w, o, pid, call, i)
  {
    hide Step, Advance, Final, ReleaseLock;
    var v := Opening(w, o, pid, call, i, Releasing).(bindings := w.bindings[call.key := Final(hash, call, i)]);
    OwnStep(hash, v, Proceed(o));
    AdvanceReleasing(hash, v, o);
    assert v.ops[o := Op(pid, call, Finished)] == w.ops[o := Op(pid, call, Finished)];
    LockIsBack(w.locks, call.key, LockOwner(pid, o));
  }

  lemma LockIsBack(locks: Locks, key: string, owner: LockOwner)
    requires key !in locks
    ensures ReleaseLock(locks[key := Owned(owner)], key, owner.id) == locks
  {
    assert locks[key := Owned(owner)] - {key} == locks;
  }

  ghost function Delivery(o: OpId, pid: Pid, call: Call, n: int, at: Instant, closedAt: Instant): seq<Event> {
    (Approach(o, pid, call) + [Created(o, n, at, Success)])
    + ([Proceed(o)] + ([Closed(o, closedAt, Success)] + ([Proceed(o)] + [Proceed(o)])))
  }

  lemma RecordCloseRelease(hash: Hasher, w: World, o: OpId, pid: Pid, call: Call, i: Issue, at: Instant)
    requires Free(w, o, pid, call.key) && Mirrors(call)
    ensures From(hash, Opening(w, o, pid, call, i, SavingProvisional(i)),
                 [Proceed(o)] + ([Closed(o, at, Success)] + ([Proceed(o)] + [Proceed(o)])))
         == Delivered(hash, w, o, pid, call, Complete(i, at))
  {
    hide Step, From, Opening, Unmarked, IsSha256, MirroredIssue, Provisional, Final, Complete, Delivered;
    var p, c := Proceed(o), Complete(i, at);
    var provisional := w.bindings[call.key := Provisional(hash, call, i)];
    var next := SavingBinding(MirroredIssue(hash, c, call.content));
    FromFirst(hash, Opening(w, o, pid, call, i, SavingProvisional(i)), p, [Closed(o, at, Success)] + ([p] + [p]));
    Records(hash, w, o, pid, call, i);
    FromFirst(hash, Opening(w, o, pid, call, i, Closing(i, true, 0)).(bindings := provisional), Closed(o, at, Success), [p] + [p]);
    Closes(hash, w, o, pid, call, i, at, provisional);
    FromFirst(hash, Opening(w, o, pid, call, c, next).(bindings := provisional), p, [p]);
    Binds(hash, w, o, pid, call, c, Provisional(hash, call, i));
    FromOne(hash, Opening(w, o, pid, call, c, Releasing).(bindings := w.bindings[call.key := Final(hash, call, c)]), p);
    Releases(hash, w, o, pid, call, c);
  }

  /** An undisturbed mirror of an unbound diary, or a recovery whose scan of the
      closed Issues finds nothing, leaves one new Issue, closed as
      completed, with the diary under its marker, and a binding at that Issue's
      revision; its lock is gone and nothing else has changed. Looking again
      answers Mirrored. */
  lemma MirrorDelivers(hash: Hasher, w: World, o: OpId, pid: Pid, call: Call, n: int, at: Instant, closedAt: Instant)
    requires Free(w, o, pid, call.key) && Mirrors(call) && FreshIssue(w, n)
    ensures var i := Complete(Opened(call, n, at), closedAt);
            var v := From(hash, w, Delivery(o, pid, call, n, at, closedAt));
            && v == Delivered(hash, w, o, pid, call, i)
            && v.bindings[call.key].remoteId == Itoa(n) && v.bindings[call.key].revision == IssueRevision(hash, i)
            && AnswersMirrored(hash, v.remote, call.key, call.content, v.bindings[call.key])
  {
    hide Step, From, Opening, Approach, Unmarked, IsSha256, IssueRevision, DiaryBody, StripDiaryMarker, Itoa, Atoi;
    var first := Opened(call, n, at);
    var i := Complete(first, closedAt);
    ApproachAndCreate(hash, w, o, pid, call, n, at);
    FromConcat(hash, w, Approach(o, pid, call) + [Created(o, n, at, Success)],
               [Proceed(o)] + ([Closed(o, closedAt, Success)] + ([Proceed(o)] + [Proceed(o)])));
    RecordCloseRelease(hash, w, o, pid, call, first, closedAt);
    AtoiOfItoa(n);
    ExactIssue(hash, i, call.key, call.content);
    IssueRevisionFacts(hash, i);
  }
}
