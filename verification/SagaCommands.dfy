/** The commands that write storage records, as processes that append one record
    at a time and may stop before any append: session close, `sync retry
    --storage` with its adapter shutdown, and `sync resolve` (session.go,
    main.go, storage_contract.go). */
module SagaCommands {
  import opened Text
  import opened SagaJournal
  import opened SagaRecovery

  type Pid = nat

  datatype Pc =
    | Writing(entries: seq<Record>, next: Pc)
    | AwaitingMirror(saga: string)
    | AwaitingRetry(saga: string, rest: seq<string>, visited: seq<string>)
    | EndingCommand(visited: seq<string>)
    | AwaitingResolve(saga: string)
    | Finished

  datatype World = World(segments: Segments, commands: map<Pid, Pc>)

  /** `ready` is the storage preflight; `key` is the diary's. */
  datatype Input =
    | Close(pid: Pid, closed: Record, handlers: seq<Attempt>, key: string, ready: bool)
    | Retry(pid: Pid, sagas: seq<string>)
    | Resolve(pid: Pid, saga: string)
    | Proceed(pid: Pid)
    | Returned(pid: Pid, result: Result)
    | Unsupported(pid: Pid, error: string)
    | Ended(pid: Pid, failed: bool, error: string)
    | Stop(pid: Pid)

  predicate KnownState(state: string) { state in {MIRRORED, SYNC_PENDING, SYNC_CONFLICT, PREREQUISITE_MISSING} }

  /* StorageEventType */
  function EventKind(state: string): string {
    if state == MIRRORED then SUCCEEDED
    else if state == SYNC_CONFLICT then CONFLICT
    else if state == PREREQUISITE_MISSING then PREREQUISITE
    else PENDING
  }

  function Stored(saga: string, kind: string, result: Result): Record {
    Happened(Event(saga, kind, saga, saga, Payload(None, Some(result))))
  }

  function Tried(saga: string, handler: string, outcome: string, error: string): Record {
    Attempted(Attempt(saga, saga, handler, outcome, error))
  }

  function Pending(key: string, error: string): Result {
    Result(SYNC_PENDING, "", "", key, "", "", "", "transient", "", false, error)
  }

  // ---- what each command writes ---------------------------------------------------

  /* The end of a close: a concurrent attempt is recorded, but is no outcome. */
  function CloseOutcome(saga: string, result: Result): seq<Record> {
    var outcome := if result.alreadyInProgress then "skipped" else if result.state == MIRRORED then "succeeded" else "failed";
    [Tried(saga, "storage-mirror", outcome, if result.state == MIRRORED then "" else result.error)]
    + if result.alreadyInProgress then [] else [Stored(saga, EventKind(result.state), result)]
  }

  function Noted(attempts: seq<Attempt>): seq<Record> {
    seq(|attempts|, i requires 0 <= i < |attempts| => Attempted(attempts[i]))
  }

  /* The close publishes, delivers and journals its intent before the first
     remote effect; without prerequisites there is none. */
  function CloseScript(saga: string, closed: Record, handlers: seq<Attempt>, key: string, ready: bool): Pc {
    var missing := Pending("", "").(state := PREREQUISITE_MISSING, failureClass := "prerequisite_missing", error := "storage prerequisites are missing");
    Writing([closed] + Noted(handlers) + [Stored(saga, REQUESTED, Pending(key, ""))],
      if ready then AwaitingMirror(saga) else Writing(CloseOutcome(saga, missing), Finished))
  }

  function NextRetry(rest: seq<string>, visited: seq<string>): Pc {
    if rest == [] then EndingCommand(visited)
    else
      Writing([Happened(Event(rest[0], "sync.retry.requested", rest[0], rest[0], Payload(None, None)))],
              AwaitingRetry(rest[0], rest[1..], visited + [rest[0]]))
  }

  function RetryOutcome(saga: string, result: Result): seq<Record> {
    [Tried(saga, "storage-retry", if result.state == MIRRORED then "succeeded" else "failed",
           if result.state == MIRRORED then "" else result.error),
     Stored(saga, EventKind(result.state), result)]
  }

  function ShutdownScript(visited: seq<string>, error: string): seq<Record> {
    if visited == [] then []
    else
      [Tried(visited[0], "storage-shutdown", "failed", error), Stored(visited[0], PENDING, Pending("", error))]
      + ShutdownScript(visited[1..], error)
  }

  /* An unresolved conflict without a diagnostic leaves only its attempt. */
  function ResolveOutcome(saga: string, result: Result): seq<Record> {
    if result.state == MIRRORED then
      [Tried(saga, "storage-resolve", "succeeded", ""), Stored(saga, RESOLVED, result)]
    else if result.error != "" then
      [Tried(saga, "storage-resolve", "failed", result.error), Stored(saga, EventKind(result.state), result)]
    else [Tried(saga, "storage-resolve", "failed", "storage conflict remains unresolved")]
  }

  // ---- steps --------------------------------------------------------------------------

  ghost predicate Retryable(segments: Segments, saga: string) {
    var records := Segment(segments, saga);
    Owes(records) && LastEffect(records).value.result.state in {SYNC_PENDING, PREREQUISITE_MISSING}
  }

  ghost predicate Resolvable(segments: Segments, saga: string) {
    var records := Segment(segments, saga);
    Owes(records) && LastEffect(records).value.result.state == SYNC_CONFLICT
    && LastEffect(records).value.result.snapshot != "" && LastEffect(records).value.result.revision != ""
  }

  ghost predicate ClosesSession(r: Record, saga: string) {
    r.Happened? && r.event.kind == SESSION_CLOSED && r.event.saga == saga && saga != ""
  }

  ghost predicate OwnHandlers(handlers: seq<Attempt>, saga: string) {
    forall a | a in handlers :: a.saga == saga && !IsStorageHandler(a.handler)
  }

  ghost function Appended(w: World, r: Record): World {
    w.(segments := w.segments[SagaOf(r) := Segment(w.segments, SagaOf(r)) + [r]])
  }

  ghost function To(w: World, p: Pid, pc: Pc): World { w.(commands := w.commands[p := pc]) }

  ghost function Advance(w: World, p: Pid): World
    requires p in w.commands
  {
    match w.commands[p]
    case Writing(entries, next) =>
      if entries == [] then To(w, p, next) else To(Appended(w, entries[0]), p, Writing(entries[1..], next))
    case _ => w
  }

  ghost function Answer(pc: Pc, result: Result): Pc {
    match pc
    case AwaitingMirror(saga) => Writing(CloseOutcome(saga, result), Finished)
    case AwaitingRetry(saga, rest, visited) => Writing(RetryOutcome(saga, result), NextRetry(rest, visited))
    case AwaitingResolve(saga) => Writing(ResolveOutcome(saga, result), Finished)
    case _ => pc
  }

  /** One input; an input that is not possible in `w` leaves it as it is. */
  ghost function Step(w: World, e: Input): World {
    match e
    case Close(p, closed, handlers, key, ready) =>
      if p !in w.commands && ClosesSession(closed, SagaOf(closed)) && OwnHandlers(handlers, SagaOf(closed))
      then To(w, p, CloseScript(SagaOf(closed), closed, handlers, key, ready)) else w
    case Retry(p, sagas) =>
      if p !in w.commands && forall saga | saga in sagas :: Retryable(w.segments, saga) then To(w, p, NextRetry(sagas, [])) else w
    case Resolve(p, saga) => if p !in w.commands && Resolvable(w.segments, saga) then To(w, p, AwaitingResolve(saga)) else w
    case Proceed(p) => if p in w.commands then Advance(w, p) else w
    case Returned(p, result) =>
      if p in w.commands && KnownState(result.state) then To(w, p, Answer(w.commands[p], result)) else w
    case Unsupported(p, error) =>
      if p in w.commands && w.commands[p].AwaitingRetry? then
        To(w, p, Writing([Tried(w.commands[p].saga, "storage-retry", "failed", error)],
                         NextRetry(w.commands[p].rest, w.commands[p].visited)))
      else w
    case Ended(p, failed, error) =>
      if p in w.commands && w.commands[p].EndingCommand? then
        To(w, p, Writing(if failed then ShutdownScript(w.commands[p].visited, error) else [], Finished))
      else w
    case Stop(p) => if p in w.commands then To(w, p, Finished) else w
  }

  const INITIAL := World(map[], map[])

  ghost function Run(inputs: seq<Input>): World {
    if inputs == [] then INITIAL else Step(Run(inputs[..|inputs| - 1]), inputs[|inputs| - 1])
  }

  // ---- what every run keeps --------------------------------------------------------------

  /* A journaled mirrored result. */
  ghost predicate Mirrors(r: Record) {
    && r.Happened? && (r.event.kind == SUCCEEDED || r.event.kind == RESOLVED)
    && r.event.payload.result.Some? && r.event.payload.result.value.state == MIRRORED
  }

  /* An intent, or the event of a result that is not mirrored; a failed adapter
     shutdown journals one too. */
  ghost predicate Obliges(r: Record) {
    r.Happened? && r.event.kind in {REQUESTED, PENDING, CONFLICT, PREREQUISITE}
  }

  /** What the journal of a saga says about its mirror, by itself: something
      obliges, and no mirrored result was journaled after it. */
  ghost predicate Owed(records: seq<Record>) {
    exists i | 0 <= i < |records| :: Obliges(records[i]) && forall j | i < j < |records| :: !Mirrors(records[j])
  }

  predicate Actionable(state: string) { state in {SYNC_PENDING, SYNC_CONFLICT, PREREQUISITE_MISSING} }

  /* The event types that the commands choose say what their results are. */
  ghost predicate Honest(r: Record) {
    && (Obliges(r) ==> r.event.payload.result.Some? && Actionable(r.event.payload.result.value.state))
    && (ClosingEvent(r) ==> Mirrors(r))
  }

  ghost predicate HonestScript(entries: seq<Record>) { forall r | r in entries :: Honest(r) }

  ghost predicate HonestPc(pc: Pc) {
    pc.Writing? ==> HonestScript(pc.entries) && HonestPc(pc.next)
  }

  ghost predicate Inv(w: World) {
    && (forall saga :: HonestScript(Segment(w.segments, saga)))
    && (forall p | p in w.commands :: HonestPc(w.commands[p]))
  }

  lemma AppendedKeepsInv(w: World, r: Record)
    requires Inv(w) && Honest(r)
    ensures Inv(Appended(w, r))
  {
    hide Honest;
    var v := Appended(w, r);
    forall saga ensures HonestScript(Segment(v.segments, saga)) {
      assert HonestScript(Segment(w.segments, saga));
      if saga != SagaOf(r) { assert Segment(v.segments, saga) == Segment(w.segments, saga); }
    }
  }

  /** The event type of every result is that of a closing event exactly for a
      mirrored one. */
  lemma HonestOutcome(saga: string, kind: string, result: Result)
    requires KnownState(result.state)
    requires if result.state == MIRRORED then kind == SUCCEEDED || kind == RESOLVED else kind == EventKind(result.state)
    ensures Honest(Stored(saga, kind, result))
  {}

  lemma HonestAnswer(pc: Pc, result: Result)
    requires HonestPc(pc) && KnownState(result.state)
    ensures HonestPc(Answer(pc, result))
  {
    match pc {
      case AwaitingMirror(saga) => HonestOutcome(saga, EventKind(result.state), result);
      case AwaitingRetry(saga, rest, visited) => HonestOutcome(saga, EventKind(result.state), result);
      case AwaitingResolve(saga) => HonestOutcome(saga, if result.state == MIRRORED then RESOLVED else EventKind(result.state), result);
      case _ =>
    }
  }

  lemma {:induction false} HonestShutdown(visited: seq<string>, error: string)
    ensures HonestScript(ShutdownScript(visited, error))
  {
    if visited != [] { HonestShutdown(visited[1..], error); }
  }

  lemma HonestClose(saga: string, closed: Record, handlers: seq<Attempt>, key: string, ready: bool)
    requires ClosesSession(closed, saga)
    ensures HonestPc(CloseScript(saga, closed, handlers, key, ready))
  {
    assert forall r | r in Noted(handlers) :: Honest(r);
    assert Honest(Stored(saga, REQUESTED, Pending(key, "")));
    assert Honest(closed);
    var missing := Pending("", "").(state := PREREQUISITE_MISSING, failureClass := "prerequisite_missing", error := "storage prerequisites are missing");
    HonestOutcome(saga, EventKind(missing.state), missing);
  }

  lemma MoveKeepsInv(w: World, p: Pid, pc: Pc)
    requires Inv(w) && HonestPc(pc)
    ensures Inv(To(w, p, pc))
  {
    hide HonestPc, HonestScript;
  }

  lemma StepKeepsInv(w: World, e: Input)
    requires Inv(w)
    ensures Inv(Step(w, e))
  {
    hide Inv, CloseScript, NextRetry, ShutdownScript, Appended, Retryable, Resolvable, Answer;
    match e {
      case Close(p, closed, handlers, key, ready) =>
        if ClosesSession(closed, SagaOf(closed)) {
          HonestClose(SagaOf(closed), closed, handlers, key, ready);
          MoveKeepsInv(w, p, CloseScript(SagaOf(closed), closed, handlers, key, ready));
        }
      case Retry(p, sagas) =>
        HonestRetry(sagas, []);
        MoveKeepsInv(w, p, NextRetry(sagas, []));
      case Resolve(p, saga) => MoveKeepsInv(w, p, AwaitingResolve(saga));
      case Proceed(p) => if p in w.commands { AdvanceKeepsInv(w, p); }
      case Returned(p, result) =>
        if p in w.commands && KnownState(result.state) {
          CommandIsHonest(w, p);
          HonestAnswer(w.commands[p], result);
          MoveKeepsInv(w, p, Answer(w.commands[p], result));
        }
      case Unsupported(p, error) =>
        if p in w.commands && w.commands[p].AwaitingRetry? {
          HonestRetry(w.commands[p].rest, w.commands[p].visited);
          MoveKeepsInv(w, p, Writing([Tried(w.commands[p].saga, "storage-retry", "failed", error)],
                                     NextRetry(w.commands[p].rest, w.commands[p].visited)));
        }
      case Ended(p, failed, error) =>
        if p in w.commands && w.commands[p].EndingCommand? {
          HonestShutdown(w.commands[p].visited, error);
          MoveKeepsInv(w, p, Writing(if failed then ShutdownScript(w.commands[p].visited, error) else [], Finished));
        }
      case Stop(p) => MoveKeepsInv(w, p, Finished);
    }
  }

  lemma HonestRetry(rest: seq<string>, visited: seq<string>)
    ensures HonestPc(NextRetry(rest, visited))
  {}

  lemma CommandIsHonest(w: World, p: Pid)
    requires Inv(w) && p in w.commands
    ensures HonestPc(w.commands[p])
  {}

  lemma AdvanceKeepsInv(w: World, p: Pid)
    requires Inv(w) && p in w.commands
    ensures Inv(Advance(w, p))
  {
    hide Inv, Appended, Honest;
    CommandIsHonest(w, p);
    match w.commands[p] {
      case Writing(entries, next) =>
        if entries == [] {
          MoveKeepsInv(w, p, next);
        } else {
          AppendedKeepsInv(w, entries[0]);
          MoveKeepsInv(Appended(w, entries[0]), p, Writing(entries[1..], next));
        }
      case _ =>
    }
  }

  lemma {:induction false} RunKeepsInv(inputs: seq<Input>)
    ensures Inv(Run(inputs))
  {
    if inputs != [] {
      hide Step, Inv;
      RunKeepsInv(inputs[..|inputs| - 1]);
      StepKeepsInv(Run(inputs[..|inputs| - 1]), inputs[|inputs| - 1]);
    }
  }

  // ---- obligations over runs -----------------------------------------------------------

  lemma EffectIsHonest(r: Record)
    requires Honest(r)
    ensures EffectOf(r).Some? && EffectOf(r).value.Opens? <==> Obliges(r)
    ensures EffectOf(r).Some? && EffectOf(r).value.Closes? <==> Mirrors(r)
    ensures Obliges(r) ==> Actionable(EffectOf(r).value.result.state)
  {}

  lemma OwedAppended(records: seq<Record>, r: Record)
    ensures Owed(records + [r]) <==> Obliges(r) || (Owed(records) && !Mirrors(r))
  {
    hide Obliges, Mirrors;
    var all := records + [r];
    assert forall i | 0 <= i < |records| :: all[i] == records[i];
    if Obliges(r) { assert Obliges(all[|records|]); }
    if Owed(records) && !Mirrors(r) {
      var i :| 0 <= i < |records| && Obliges(records[i]) && forall j | i < j < |records| :: !Mirrors(records[j]);
      assert Obliges(all[i]);
    }
    if Owed(all) && !Obliges(r) {
      var i :| 0 <= i < |all| && Obliges(all[i]) && forall j | i < j < |all| :: !Mirrors(all[j]);
      assert Obliges(records[i]) && forall j | i < j < |records| :: !Mirrors(records[j]);
      assert !Mirrors(all[|records|]);
    }
  }

  /* Over honest records, the reader of the last effect sees what is owed. */
  lemma {:induction false} OwesExactly(records: seq<Record>)
    requires HonestScript(records)
    ensures Owes(records) <==> Owed(records)
    ensures Owes(records) ==> Actionable(LastEffect(records).value.result.state)
  {
    hide Honest, Obliges, Mirrors, EffectOf, Actionable;
    if records != [] {
      var n := |records| - 1;
      assert records == records[..n] + [records[n]];
      OwesExactly(records[..n]);
      OwedAppended(records[..n], records[n]);
      EffectIsHonest(records[n]);
    }
  }

  /** In every reachable state, cut at whatever append, the projection shows a
      storage obligation exactly when the saga's journal holds an intent, a failed
      shutdown or a result that is not mirrored, and no mirrored result after it;
      and it is one that a command acts on. */
  lemma ShownWhenOwed(inputs: seq<Input>, saga: string)
    ensures var records := Segment(Run(inputs).segments, saga);
            && (Owes(records) <==> Owed(records))
            && (Owes(records) ==> Actionable(LastEffect(records).value.result.state))
  {
    hide Run;
    RunKeepsInv(inputs);
    OwesExactly(Segment(Run(inputs).segments, saga));
  }

  lemma OneRecordAStep(w: World, i: Input, saga: string)
    ensures var before, after := Segment(w.segments, saga), Segment(Step(w, i).segments, saga);
            || after == before
            || (after != [] && after == before + [after[|after| - 1]])
  {
    JournalsOnlyGrow(w, i, saga);
  }

  /** A step journals one record at most; the obligation then is what it was,
      except that it comes at once with a record that obliges, and goes away at
      once, and only, with a mirrored result. */
  lemma OwedUntilMirrored(inputs: seq<Input>, i: Input, saga: string)
    ensures var before, after := Segment(Run(inputs).segments, saga), Segment(Step(Run(inputs), i).segments, saga);
            || after == before
            || (exists r :: after == before + [r]
                  && (Owes(after) <==> Obliges(r) || (Owes(before) && !Mirrors(r))))
  {
    hide Run, Step, Owes, Owed, Obliges, Mirrors;
    var before, after := Segment(Run(inputs).segments, saga), Segment(Step(Run(inputs), i).segments, saga);
    RunKeepsInv(inputs);
    StepKeepsInv(Run(inputs), i);
    OneRecordAStep(Run(inputs), i, saga);
    if after != before {
      OwesExactly(before);
      OwesExactly(after);
      OwedAppended(before, after[|after| - 1]);
    }
  }

  /** What is in a journal stays there: one step appends at most one record. */
  lemma JournalsOnlyGrow(w: World, i: Input, saga: string)
    ensures var before, after := Segment(w.segments, saga), Segment(Step(w, i).segments, saga);
            before <= after && |after| <= |before| + 1
  {
    hide CloseScript, NextRetry, ShutdownScript, Answer, Retryable, Resolvable;
    if i.Proceed? && i.pid in w.commands && w.commands[i.pid].Writing? && w.commands[i.pid].entries != [] {
      AppendOnly(w.segments, SagaOf(w.commands[i.pid].entries[0]), w.commands[i.pid].entries[0], saga);
    }
  }

  // ---- shutdown failures ----------------------------------------------------------------

  /* Since `before`, a record was journaled for the saga that obliges. */
  ghost predicate ObligedSince(before: Segments, now: Segments, saga: string) {
    exists k | |Segment(before, saga)| <= k < |Segment(now, saga)| :: Obliges(Segment(now, saga)[k])
  }

  /* The rest of a shutdown script: what is not journaled yet is still to come. */
  ghost predicate ShuttingDown(before: Segments, w: World, p: Pid, visited: seq<string>) {
    && p in w.commands
    && (w.commands[p].Finished? || (w.commands[p].Writing? && w.commands[p].next.Finished?))
    && (forall saga :: Segment(before, saga) <= Segment(w.segments, saga))
    && forall saga | saga in visited ::
         || ObligedSince(before, w.segments, saga)
         || (w.commands[p].Writing? && exists r | r in w.commands[p].entries :: Obliges(r) && SagaOf(r) == saga)
  }

  lemma {:induction false} ShutdownObliges(visited: seq<string>, error: string, saga: string)
    requires saga in visited
    ensures exists r | r in ShutdownScript(visited, error) :: Obliges(r) && SagaOf(r) == saga
  {
    var script := ShutdownScript(visited, error);
    if saga == visited[0] {
      assert Obliges(script[1]) && SagaOf(script[1]) == saga;
    } else {
      ShutdownObliges(visited[1..], error, saga);
      var r :| r in ShutdownScript(visited[1..], error) && Obliges(r) && SagaOf(r) == saga;
      assert r in script;
    }
  }

  lemma ObligedStays(before: Segments, now: Segments, more: Segments, saga: string)
    requires ObligedSince(before, now, saga) && Segment(now, saga) <= Segment(more, saga)
    ensures ObligedSince(before, more, saga)
  {
    hide Obliges;
    var k :| |Segment(before, saga)| <= k < |Segment(now, saga)| && Obliges(Segment(now, saga)[k]);
    assert Segment(more, saga)[k] == Segment(now, saga)[k];
  }

  lemma WritesItsNext(before: Segments, w: World, p: Pid, saga: string)
    requires p in w.commands && w.commands[p].Writing? && w.commands[p].entries != []
    requires Segment(before, saga) <= Segment(w.segments, saga)
    requires Obliges(w.commands[p].entries[0]) && SagaOf(w.commands[p].entries[0]) == saga
    ensures ObligedSince(before, Step(w, Proceed(p)).segments, saga)
  {
    hide Obliges;
    var now := Segment(Step(w, Proceed(p)).segments, saga);
    assert now[|Segment(w.segments, saga)|] == w.commands[p].entries[0];
  }

  /* What another input leaves of the script of `p`. */
  lemma OthersKeepScript(w: World, p: Pid, i: Input)
    requires p in w.commands && (w.commands[p].Finished? || (w.commands[p].Writing? && w.commands[p].next.Finished?))
    requires i != Stop(p)
    ensures var v := Step(w, i);
            p in v.commands &&
            if i == Proceed(p) && w.commands[p].Writing? then
              v.commands[p] == if w.commands[p].entries == [] then Finished else Writing(w.commands[p].entries[1..], Finished)
            else v.commands[p] == w.commands[p]
  {
    hide CloseScript, NextRetry, ShutdownScript, CloseOutcome, RetryOutcome, ResolveOutcome, Retryable, Resolvable;
  }

  lemma ShutdownGoesOn(before: Segments, w: World, p: Pid, visited: seq<string>, i: Input)
    requires ShuttingDown(before, w, p, visited) && i != Stop(p)
    ensures ShuttingDown(before, Step(w, i), p, visited)
  {
    hide Step, Obliges, ObligedSince;
    var v := Step(w, i);
    OthersKeepScript(w, p, i);
    forall saga ensures Segment(before, saga) <= Segment(v.segments, saga) && Segment(w.segments, saga) <= Segment(v.segments, saga) {
      JournalsOnlyGrow(w, i, saga);
    }
    forall saga | saga in visited
      ensures ObligedSince(before, v.segments, saga)
              || (v.commands[p].Writing? && exists r | r in v.commands[p].entries :: Obliges(r) && SagaOf(r) == saga)
    {
      if ObligedSince(before, w.segments, saga) {
        ObligedStays(before, w.segments, v.segments, saga);
      } else {
        var r :| r in w.commands[p].entries && Obliges(r) && SagaOf(r) == saga;
        if i == Proceed(p) {
          if r == w.commands[p].entries[0] {
            WritesItsNext(before, w, p, saga);
          } else {
            assert r in v.commands[p].entries;
          }
        }
      }
    }
  }

  lemma {:induction false} ShutdownRuns(before: Segments, inputs: seq<Input>, more: seq<Input>, p: Pid, visited: seq<string>)
    requires ShuttingDown(before, Run(inputs), p, visited) && Stop(p) !in more
    ensures ShuttingDown(before, Run(inputs + more), p, visited)
    decreases |more|
  {
    hide Run, Step, ShuttingDown;
    if more == [] {
      assert inputs + more == inputs;
    } else {
      var k := |more| - 1;
      assert Stop(p) !in more[..k];
      ShutdownRuns(before, inputs, more[..k], p, visited);
      RunAppended(inputs, more);
      assert more[k] in more;
      ShutdownGoesOn(before, Run(inputs + more[..k]), p, visited, more[k]);
    }
  }

  lemma RunAppended(inputs: seq<Input>, more: seq<Input>)
    requires more != []
    ensures var k := |more| - 1; Run(inputs + more) == Step(Run(inputs + more[..k]), more[k])
  {
    hide Step;
    var k := |more| - 1;
    assert (inputs + more)[..|inputs + more| - 1] == inputs + more[..k];
  }

  /** When the adapter fails to shut down after a retry, and the command is not
      stopped before it is done, then every saga that it visited shows its
      obligation again, whatever other commands write in between: until a
      mirrored result is journaled after the failure. */
  lemma ShutdownFailureShowsAgain(inputs: seq<Input>, more: seq<Input>, p: Pid, error: string, saga: string)
    requires p in Run(inputs).commands && Run(inputs).commands[p].EndingCommand? && saga in Run(inputs).commands[p].visited
    requires var v := Run(inputs + ([Ended(p, true, error)] + more)); Stop(p) !in more && p in v.commands && v.commands[p].Finished?
    ensures var before := Segment(Run(inputs).segments, saga);
            var records := Segment(Run(inputs + ([Ended(p, true, error)] + more)).segments, saga);
            && before <= records
            && exists k | |before| <= k < |records| ::
                 Obliges(records[k]) && ((forall j | k < j < |records| :: !Mirrors(records[j])) ==> Owes(records))
  {
    hide Run, Step, Owes, Obliges, Mirrors, ShutdownScript;
    var w, visited := Run(inputs), Run(inputs).commands[p].visited;
    var ended := inputs + [Ended(p, true, error)];
    assert inputs + ([Ended(p, true, error)] + more) == ended + more;
    ShutdownStarts(inputs, p, error);
    ShutdownRuns(w.segments, ended, more, p, visited);
    var v := Run(ended + more);
    var records := Segment(v.segments, saga);
    RunKeepsInv(ended + more);
    OwesExactly(records);
    var k :| |Segment(w.segments, saga)| <= k < |records| && Obliges(records[k]);
  }

  lemma ShutdownStarts(inputs: seq<Input>, p: Pid, error: string)
    requires p in Run(inputs).commands && Run(inputs).commands[p].EndingCommand?
    ensures ShuttingDown(Run(inputs).segments, Run(inputs + [Ended(p, true, error)]), p, Run(inputs).commands[p].visited)
  {
    hide Run, ShutdownScript, Obliges;
    RunAppended(inputs, [Ended(p, true, error)]);
    assert inputs + [Ended(p, true, error)][..0] == inputs;
    forall saga | saga in Run(inputs).commands[p].visited
      ensures exists r | r in ShutdownScript(Run(inputs).commands[p].visited, error) :: Obliges(r) && SagaOf(r) == saga
    {
      ShutdownObliges(Run(inputs).commands[p].visited, error, saga);
    }
  }

  // ---- intent before effect -----------------------------------------------------------------

  ghost predicate IsIntent(r: Record, saga: string) { r.Happened? && r.event.saga == saga && r.event.kind == REQUESTED }

  ghost predicate Intended(segments: Segments, saga: string) { exists r | r in Segment(segments, saga) :: IsIntent(r, saga) }

  /* The command reaches the mirror of `saga` only with its intent journaled;
     `coming` holds the entries it writes before. */
  ghost predicate Prepared(segments: Segments, pc: Pc, coming: seq<Record>) {
    match pc
    case Writing(entries, next) => Prepared(segments, next, coming + entries)
    case AwaitingMirror(saga) => Intended(segments, saga) || exists r | r in coming :: IsIntent(r, saga)
    case _ => true
  }

  ghost predicate AllPrepared(w: World) { forall p | p in w.commands :: Prepared(w.segments, w.commands[p], []) }

  lemma {:induction false} StillPrepared(segments: Segments, more: Segments, pc: Pc, coming: seq<Record>, rest: seq<Record>)
    requires Prepared(segments, pc, coming)
    requires forall saga :: Segment(segments, saga) <= Segment(more, saga)
    requires forall r | r in coming :: r in rest || r in Segment(more, SagaOf(r))
    ensures Prepared(more, pc, rest)
    decreases pc
  {
    match pc {
      case Writing(entries, next) => StillPrepared(segments, more, next, coming + entries, rest + entries);
      case AwaitingMirror(saga) =>
        if Intended(segments, saga) {
          var r :| r in Segment(segments, saga) && IsIntent(r, saga);
          assert r in Segment(more, saga);
        } else {
          var r :| r in coming && IsIntent(r, saga);
          if r !in rest { assert r in Segment(more, saga); }
        }
      case _ =>
    }
  }

  lemma AdvancePrepares(w: World, p: Pid)
    requires AllPrepared(w) && p in w.commands && w.commands[p].Writing?
    ensures AllPrepared(Advance(w, p))
  {
    hide Intended;
    var v := Advance(w, p);
    var entries := w.commands[p].entries;
    forall saga ensures Segment(w.segments, saga) <= Segment(v.segments, saga) {
      if entries != [] { AppendOnly(w.segments, SagaOf(entries[0]), entries[0], saga); }
    }
    forall q | q in v.commands ensures Prepared(v.segments, v.commands[q], []) {
      if q != p {
        StillPrepared(w.segments, v.segments, w.commands[q], [], []);
      } else if entries == [] {
        assert [] + entries == entries;
        StillPrepared(w.segments, v.segments, w.commands[p].next, [], []);
      } else {
        assert [] + entries == entries && [] + entries[1..] == entries[1..];
        assert entries[0] in Segment(v.segments, SagaOf(entries[0]));
        StillPrepared(w.segments, v.segments, w.commands[p].next, entries, entries[1..]);
      }
    }
  }

  lemma ClosePrepares(segments: Segments, saga: string, closed: Record, handlers: seq<Attempt>, key: string, ready: bool)
    ensures Prepared(segments, CloseScript(saga, closed, handlers, key, ready), [])
  {
    var pc := CloseScript(saga, closed, handlers, key, ready);
    var intent := Stored(saga, REQUESTED, Pending(key, ""));
    assert intent in [] + pc.entries && IsIntent(intent, saga);
  }

  lemma MoveIsPrepared(w: World, p: Pid, pc: Pc)
    requires AllPrepared(w) && Prepared(w.segments, pc, [])
    ensures AllPrepared(To(w, p, pc))
  {
    hide Prepared;
  }

  lemma StepPrepares(w: World, i: Input)
    requires AllPrepared(w)
    ensures AllPrepared(Step(w, i))
  {
    hide AllPrepared, Advance, CloseScript, ShutdownScript, Retryable, Resolvable, Intended;
    match i {
      case Close(p, closed, handlers, key, ready) =>
        ClosePrepares(w.segments, SagaOf(closed), closed, handlers, key, ready);
        MoveIsPrepared(w, p, CloseScript(SagaOf(closed), closed, handlers, key, ready));
      case Retry(p, sagas) =>
        RetryPrepares(w.segments, sagas, [], []);
        MoveIsPrepared(w, p, NextRetry(sagas, []));
      case Resolve(p, saga) => MoveIsPrepared(w, p, AwaitingResolve(saga));
      case Proceed(p) =>
        if p in w.commands && w.commands[p].Writing? { AdvancePrepares(w, p); }
        if p in w.commands && !w.commands[p].Writing? { WaitingStays(w, p); }
      case Returned(p, result) =>
        if p in w.commands {
          AnswerPrepares(w, p, result);
          MoveIsPrepared(w, p, Answer(w.commands[p], result));
        }
      case Unsupported(p, error) =>
        if p in w.commands && w.commands[p].AwaitingRetry? {
          RetryPrepares(w.segments, w.commands[p].rest, w.commands[p].visited,
                        [] + [Tried(w.commands[p].saga, "storage-retry", "failed", error)]);
          MoveIsPrepared(w, p, Writing([Tried(w.commands[p].saga, "storage-retry", "failed", error)],
                                       NextRetry(w.commands[p].rest, w.commands[p].visited)));
        }
      case Ended(p, failed, error) =>
        if p in w.commands && w.commands[p].EndingCommand? {
          MoveIsPrepared(w, p, Writing(if failed then ShutdownScript(w.commands[p].visited, error) else [], Finished));
        }
      case Stop(p) => MoveIsPrepared(w, p, Finished);
    }
  }

  lemma WaitingStays(w: World, p: Pid)
    requires p in w.commands && !w.commands[p].Writing?
    ensures Advance(w, p) == w
  {}

  lemma RetryPrepares(segments: Segments, rest: seq<string>, visited: seq<string>, coming: seq<Record>)
    ensures Prepared(segments, NextRetry(rest, visited), coming)
  {}

  lemma AnswerPrepares(w: World, p: Pid, result: Result)
    requires AllPrepared(w) && p in w.commands
    ensures Prepared(w.segments, Answer(w.commands[p], result), [])
  {
    hide Intended, NextRetry;
    var pc := w.commands[p];
    assert Prepared(w.segments, pc, []);
    if pc.AwaitingRetry? {
      RetryPrepares(w.segments, pc.rest, pc.visited, [] + RetryOutcome(pc.saga, result));
    }
  }

  lemma {:induction false} RunPrepares(inputs: seq<Input>)
    ensures AllPrepared(Run(inputs))
  {
    if inputs != [] {
      hide Step, AllPrepared;
      RunPrepares(inputs[..|inputs| - 1]);
      StepPrepares(Run(inputs[..|inputs| - 1]), inputs[|inputs| - 1]);
    }
  }

  /** A close that calls the mirror has its intent in the journal already. */
  lemma IntentBeforeEffect(inputs: seq<Input>, p: Pid)
    requires var w := Run(inputs); p in w.commands && w.commands[p].AwaitingMirror?
    ensures Intended(Run(inputs).segments, Run(inputs).commands[p].saga)
  {
    hide Run;
    RunPrepares(inputs);
  }
}
