/** Creation is not unique across a crash between the creation of an Issue and
    its provisional record: explicit recovery looks for the marker among closed
    Issues only, and the new Issue is still open. */
module MirrorWindow {
  import opened Text
  import opened Decimal
  import opened Markers
  import opened IssueSemantics
  import opened EffectiveDocument
  import opened MirrorStores
  import opened MirrorProtocol
  import opened MirrorSafety
  import opened MirrorSteps
  import opened MirrorRuns
  import opened MirrorResults
  import opened MirrorDelivery

  ghost function Asked(kind: Kind, key: string, content: string): Call { Call(kind, key, content) }

  ghost predicate Diary(key: string, content: string) { IsKey(key) && Unmarked(content) && content != "" }

  /** A process mirrors the diary and dies with its new Issue unrecorded; its
      orphaned lock is cleared, and a second process recovers. */
  ghost function WindowCrash(key: string, content: string, at: Instant): seq<Event> {
    (Approach(0, 1, Asked(Mirror, key, content)) + [Created(0, 1, at, Success)])
    + ([Crash(1), ClearOrphan(key)] + (Approach(1, 2, Asked(Recover, key, content)) + [Created(1, 2, at, Success)]))
  }

  /* `w` after a process has created the diary's Issue `n` and not yet recorded it. */
  ghost function Unrecorded(w: World, o: OpId, pid: Pid, call: Call, n: int, at: Instant): World {
    Opening(w, o, pid, call, Opened(call, n, at), SavingProvisional(Opened(call, n, at)))
  }

  ghost function Cleared(hash: Hasher, w: World, key: string): World {
    Step(hash, Step(hash, w, Crash(1)), ClearOrphan(key))
  }

  lemma ClearedFields(hash: Hasher, w: World, key: string)
    ensures var v := Cleared(hash, w, key);
            && v.remote == w.remote && v.created == w.created && v.ops == w.ops && v.bindings == w.bindings
            && v.dead == w.dead + {1} && v.locks == ClearOrphanLock(w.locks, key, w.dead + {1})
  {
    hide Advance, Failed, Answered, Edited, ClearOrphanLock, Running;
  }

  /* After the crash and the clearing, the diary is unbound and its lock free. */
  lemma CrashFrees(hash: Hasher, key: string, content: string, at: Instant)
    ensures var w := Unrecorded(INITIAL, 0, 1, Asked(Mirror, key, content), 1, at);
            var v := Cleared(hash, w, key);
            Free(v, 1, 2, key) && FreshIssue(v, 2) && v.remote == w.remote && v.created == w.created
  {
    hide Cleared, DiaryBody;
    var w := Unrecorded(INITIAL, 0, 1, Asked(Mirror, key, content), 1, at);
    ClearedFields(hash, w, key);
    assert w.locks == map[key := Owned(LockOwner(1, 0))];
  }

  lemma FromTwo(hash: Hasher, w: World, a: Event, b: Event)
    ensures From(hash, w, [a, b]) == Step(hash, Step(hash, w, a), b)
  {
    hide Step;
    assert [a, b] == [a] + [b];
    FromFirst(hash, w, a, [b]);
    FromOne(hash, Step(hash, w, a), b);
  }

  lemma RunOfNothing(hash: Hasher)
    ensures Run(hash, []) == INITIAL
  {}

  lemma InitialIsFree(key: string)
    ensures Free(INITIAL, 0, 1, key) && FreshIssue(INITIAL, 1)
  {}

  lemma AfterWindowCrash(hash: Hasher, key: string, content: string, at: Instant)
    requires Diary(key, content)
    ensures Run(hash, WindowCrash(key, content, at))
         == Unrecorded(Cleared(hash, Unrecorded(INITIAL, 0, 1, Asked(Mirror, key, content), 1, at), key),
                       1, 2, Asked(Recover, key, content), 2, at)
  {
    hide Step, Run, From, Opening, Opened, Approach, Free, FreshIssue, Unmarked, IsSha256;
    var first := Approach(0, 1, Asked(Mirror, key, content)) + [Created(0, 1, at, Success)];
    var middle := [Crash(1), ClearOrphan(key)];
    var last := Approach(1, 2, Asked(Recover, key, content)) + [Created(1, 2, at, Success)];
    assert [] + WindowCrash(key, content, at) == WindowCrash(key, content, at);
    RunIsFrom(hash, [], WindowCrash(key, content, at));
    RunOfNothing(hash);
    FromConcat(hash, INITIAL, first, middle + last);
    InitialIsFree(key);
    ApproachAndCreate(hash, INITIAL, 0, 1, Asked(Mirror, key, content), 1, at);
    var w := Unrecorded(INITIAL, 0, 1, Asked(Mirror, key, content), 1, at);
    FromConcat(hash, w, middle, last);
    FromTwo(hash, w, Crash(1), ClearOrphan(key));
    CrashFrees(hash, key, content, at);
    ApproachAndCreate(hash, Cleared(hash, w, key), 1, 2, Asked(Recover, key, content), 2, at);
  }

  /** For every diary there is such a run: two Issues are created for it, both
      carry its marker, and the first is open, so that no scan of closed Issues
      can find it. */
  lemma CreationIsNotUnique(hash: Hasher, key: string, content: string, at: Instant)
    requires Diary(key, content)
    ensures var w := Run(hash, WindowCrash(key, content, at));
            && Made(w, key, 1) && Made(w, key, 2)
            && Marked(w, key, 1) && Marked(w, key, 2) && !w.remote.issues[1].closed
  {
    hide DiaryBody, HasDiaryMarker, IsSha256, Unmarked, Run, Cleared, Free;
    AfterWindowCrash(hash, key, content, at);
    CrashFrees(hash, key, content, at);
    DiaryBodyMarks(content, key, key);
  }

  // ---- mirroring again ---------------------------------------------------------------------

  lemma LostIfFree(hash: Hasher, w: World, key: string, n: int)
    requires Inv(hash, w) && key !in w.bindings && key !in w.locks && Made(w, key, n)
    ensures n in w.lost
  {
    hide MarkersTell, BindingsName, OneCreation, CorrectionsTell, PostsKept, OpOk, HasDiaryMarker;
    var c := w.created[n];
    if InWindow(w, c.op, n) {
      RunningOk(hash, w, c.op);
      RecordingHolds(hash, w, c.op);
    }
  }

  lemma RecordingHolds(hash: Hasher, w: World, o: OpId)
    requires OpOk(hash, w, o) && w.ops[o].pc.SavingProvisional?
    ensures w.ops[o].call.key in w.locks
  {
    hide Unmarked, IsSha256, PcOk;
  }

  ghost predicate MadeTwice(w: World, key: string) {
    exists a, b :: a != b && Made(w, key, a) && Made(w, key, b)
  }

  lemma OneMoreMakesTwo(w: World, v: World, key: string, n: int, o: OpId)
    requires n !in w.created && v.created == w.created[n := Creation(key, o)]
    requires forall a | Made(w, key, a) :: a in w.lost
    ensures MadeTwice(v, key) <==> !NoneLost(w, key)
  {
    if !NoneLost(w, key) {
      var a :| a in w.lost && a in w.created && w.created[a].key == key;
      assert Made(v, key, a) && Made(v, key, n) && a != n;
    }
    if MadeTwice(v, key) {
      var a, b :| a != b && Made(v, key, a) && Made(v, key, b);
      assert a != n ==> Made(w, key, a);
      assert b != n ==> Made(w, key, b);
    }
  }

  /** The other direction of uniqueness: in every reachable state in which the
      diary is unbound and its lock free, mirroring it once more, undisturbed,
      makes a second Issue of it if and only if one was left unrecorded. */
  lemma MirroringAgainMakesTwo(hash: Hasher, events: seq<Event>, o: OpId, pid: Pid, call: Call, n: int, at: Instant, closedAt: Instant)
    requires var w := Run(hash, events); Free(w, o, pid, call.key) && Mirrors(call) && FreshIssue(w, n)
    ensures MadeTwice(Run(hash, events + Delivery(o, pid, call, n, at, closedAt)), call.key) <==> !NoneLost(Run(hash, events), call.key)
  {
    hide Run, From, Step, Delivery, Inv, Made, MadeTwice, NoneLost, Mirrors, AnswersMirrored, Final, Opened, IssueNumber;
    var w := Run(hash, events);
    RunKeepsInv(hash, events);
    RunIsFrom(hash, events, Delivery(o, pid, call, n, at, closedAt));
    MirrorDelivers(hash, w, o, pid, call, n, at, closedAt);
    forall a | Made(w, call.key, a) ensures a in w.lost { LostIfFree(hash, w, call.key, a); }
    OpenedNumber(call, n, at, closedAt);
    OneMoreMakesTwo(w, Run(hash, events + Delivery(o, pid, call, n, at, closedAt)), call.key, n, o);
  }

  lemma OpenedNumber(call: Call, n: int, at: Instant, closedAt: Instant)
    ensures Complete(Opened(call, n, at), closedAt).number == n
  {
    hide DiaryBody;
  }
}
