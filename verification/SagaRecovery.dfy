/** The recovery projection: which obligations a Saga Journal still shows
    (recovery.go). Inspecting it changes nothing. */
module SagaRecovery {
  import opened Text
  import opened SagaJournal

  const SESSION_CLOSED := "session.closed"
  const REQUESTED := "storage.sync.requested"
  const SUCCEEDED := "storage.sync.succeeded"
  const RESOLVED := "storage.sync.resolved"
  const PENDING := "storage.sync.pending"
  const CONFLICT := "storage.sync.conflict"
  const PREREQUISITE := "storage.prerequisite.missing"

  datatype NextAction = NoAction | RetryHandlers | RetryStorage | RetryGraph | ResolveConflict(saga: string) | Doctor | ClearLock(key: string)

  datatype Item = Item(
    saga: string, event: string, repository: string, key: string, state: string, backend: string, provider: string,
    remoteId: string, remoteUrl: string, revision: string, failureClass: string, snapshot: string,
    attempts: seq<Attempt>, lastError: string, next: NextAction)

  // ---- the meaning of a journal -------------------------------------------------

  datatype Effect = Opens(result: Result) | Closes

  /* What one record does to the saga's storage obligation. An opening event
     whose payload does not decode does nothing; a closing event always closes. */
  function EffectOf(r: Record): Option<Effect> {
    if !r.Happened? then None
    else if r.event.kind == SUCCEEDED || r.event.kind == RESOLVED then Some(Closes)
    else if r.event.payload.result.None? then None
    else
      var result := r.event.payload.result.value;
      if r.event.kind == REQUESTED then Some(Opens(result.(state := if result.state == "" then SYNC_PENDING else result.state)))
      else if r.event.kind in {PENDING, CONFLICT, PREREQUISITE} then Some(Opens(result))
      else None
  }

  ghost function LastEffect(records: seq<Record>): Option<Effect> {
    if records == [] then None
    else
      var e := EffectOf(records[|records| - 1]);
      if e.Some? then e else LastEffect(records[..|records| - 1])
  }

  ghost predicate Owes(records: seq<Record>) {
    LastEffect(records).Some? && LastEffect(records).value.Opens?
  }

  ghost function Attempts(records: seq<Record>): seq<Attempt> {
    if records == [] then []
    else
      var last := records[|records| - 1];
      Attempts(records[..|records| - 1]) + if last.Attempted? then [last.attempt] else []
  }

  /* The diary that a record closes a session with. */
  function ClosedDiary(r: Record): Option<Diary> {
    if r.Happened? && r.event.kind == SESSION_CLOSED then r.event.payload.diary else None
  }

  predicate PendingGraph(r: Record) {
    ClosedDiary(r).Some? && ClosedDiary(r).value.graphState in {RESOLUTION_PENDING, GRAPH_SYNC_PENDING}
  }

  /* The last pending graph state, or "". */
  ghost function GraphState(records: seq<Record>): string {
    if records == [] then ""
    else
      var last := records[|records| - 1];
      if PendingGraph(last) then ClosedDiary(last).value.graphState else GraphState(records[..|records| - 1])
  }

  ghost function Base(saga: string, records: seq<Record>): Item {
    if records == [] then Item(saga, "", "", "", "Succeeded", "", "", "", "", "", "", "", [], "", NoAction)
    else Follow(Base(saga, records[..|records| - 1]), records[|records| - 1])
  }

  /* The last event names the item; every attempt is kept. */
  function Follow(item: Item, r: Record): Item {
    match r
    case Attempted(a) => item.(attempts := item.attempts + [a])
    case Happened(e) =>
      item.(event := e.id, repository := e.repository, key := if ClosedDiary(r).Some? then ClosedDiary(r).value.key else item.key)
  }

  predicate IsStorageHandler(handler: string) {
    handler in {"storage-mirror", "storage-retry", "storage-resolve", "storage-shutdown"}
  }

  /* Attempt `i` is its handler's latest, and it failed. */
  ghost predicate OwedAttempt(attempts: seq<Attempt>, i: int) {
    && 0 <= i < |attempts| && attempts[i].outcome == "failed" && !IsStorageHandler(attempts[i].handler)
    && forall j | i < j < |attempts| :: attempts[j].handler != attempts[i].handler
  }

  /* The last owed attempt before `n`, or -1. */
  ghost function LastOwed(attempts: seq<Attempt>, n: nat): (r: int)
    requires n <= |attempts|
    ensures r == -1 || (r < n && OwedAttempt(attempts, r))
    ensures forall i | r < i < n :: !OwedAttempt(attempts, i)
  {
    if n == 0 then -1 else if OwedAttempt(attempts, n - 1) then n - 1 else LastOwed(attempts, n - 1)
  }

  function FirstNonEmpty(a: string, b: string): string { if a != "" then a else b }

  /* The latest failed storage attempt that says why, or "". */
  function StorageDiagnostic(attempts: seq<Attempt>): (d: string)
    ensures d != "" <==> exists a | a in attempts :: IsStorageHandler(a.handler) && a.outcome == "failed" && a.error != ""
  {
    if attempts == [] then ""
    else
      var last := attempts[|attempts| - 1];
      assert attempts == attempts[..|attempts| - 1] + [last];
      if IsStorageHandler(last.handler) && last.outcome == "failed" && last.error != "" then last.error
      else StorageDiagnostic(attempts[..|attempts| - 1])
  }

  function NextFor(item: Item, result: Result): NextAction {
    if result.state == SYNC_CONFLICT then ResolveConflict(item.saga)
    else if result.state == PREREQUISITE_MISSING then Doctor
    else if result.alreadyInProgress then ClearLock(FirstNonEmpty(result.key, item.key))
    else RetryStorage
  }

  /* applyStorageRecovery, and the diagnostic that overrides its error. */
  function StorageItem(safe: string -> string, item: Item, result: Result): Item {
    var diagnostic := StorageDiagnostic(item.attempts);
    item.(state := result.state, key := FirstNonEmpty(result.key, item.key), backend := result.backend, provider := result.provider,
          remoteId := result.remoteId, remoteUrl := result.remoteUrl, revision := result.revision,
          failureClass := result.failureClass, snapshot := result.snapshot,
          lastError := safe(if diagnostic != "" then diagnostic else result.error), next := NextFor(item, result))
  }

  function HandlerItem(item: Item, a: Attempt): Item {
    item.(state := "HandlerPending", lastError := a.error, next := RetryHandlers)
  }

  function GraphItem(item: Item, state: string): Item {
    item.(state := state, next := RetryGraph)
  }

  /** The obligations of one saga: at most one of each kind. */
  ghost function Obligations(safe: string -> string, saga: string, records: seq<Record>): seq<Item> {
    var item := Base(saga, records);
    var owed := LastOwed(item.attempts, |item.attempts|);
    (if Owes(records) then [StorageItem(safe, item, LastEffect(records).value.result)] else [])
    + (if owed >= 0 then [HandlerItem(item, item.attempts[owed])] else [])
    + (if GraphState(records) != "" then [GraphItem(item, GraphState(records))] else [])
  }

  ghost function Gathered(safe: string -> string, segments: Segments, sagas: seq<string>): seq<Item> {
    if sagas == [] then []
    else
      var saga := sagas[|sagas| - 1];
      Gathered(safe, segments, sagas[..|sagas| - 1]) + Obligations(safe, saga, Segment(segments, saga))
  }

  // ---- the projection -------------------------------------------------------------

  predicate ItemBefore(a: Item, b: Item) {
    Less(a.saga, b.saga) || (a.saga == b.saga && Less(a.state, b.state))
  }

  ghost predicate Ordered(items: seq<Item>) {
    forall i, j | 0 <= i < j < |items| :: !ItemBefore(items[j], items[i])
  }

  lemma ItemBeforeTransitive(a: Item, b: Item, c: Item)
    requires ItemBefore(a, b) && !ItemBefore(c, b)
    ensures ItemBefore(a, c)
  {
    LessTotal(a.saga, b.saga);
    LessTotal(b.saga, c.saga);
    LessTotal(b.state, c.state);
    if Less(a.saga, b.saga) && Less(b.saga, c.saga) { LessTransitive(a.saga, b.saga, c.saga); }
    if a.saga == b.saga == c.saga && Less(b.state, c.state) { LessTransitive(a.state, b.state, c.state); }
  }

  /* sort.Slice by saga, then state. */
  function InsertItem(items: seq<Item>, item: Item): (r: seq<Item>)
    requires Ordered(items)
    ensures Ordered(r) && multiset(r) == multiset(items) + multiset{item}
  {
    if items == [] || !ItemBefore(item, items[|items| - 1]) then
      InsertedLast(items, item);
      items + [item]
    else
      var front, last := items[..|items| - 1], items[|items| - 1];
      assert items == front + [last];
      var r := InsertItem(front, item);
      InsertedBefore(front, last, item, r);
      r + [last]
  }

  lemma InsertedLast(items: seq<Item>, item: Item)
    requires Ordered(items) && (items == [] || !ItemBefore(item, items[|items| - 1]))
    ensures Ordered(items + [item])
  {
    forall i | 0 <= i < |items| ensures !ItemBefore(item, items[i]) {
      if ItemBefore(item, items[i]) && i < |items| - 1 {
        ItemBeforeTransitive(item, items[i], items[|items| - 1]);
      }
    }
  }

  lemma InsertedBefore(front: seq<Item>, last: Item, item: Item, r: seq<Item>)
    requires Ordered(front + [last]) && Ordered(r) && multiset(r) == multiset(front) + multiset{item} && ItemBefore(item, last)
    ensures Ordered(r + [last])
  {
    LessTotal(item.saga, last.saga);
    LessTotal(item.state, last.state);
    forall i | 0 <= i < |r| ensures !ItemBefore(last, r[i]) {
      assert r[i] in multiset(r);
      assert r[i] in front || r[i] == item;
      if r[i] in front {
        var k :| 0 <= k < |front| && front[k] == r[i];
        assert (front + [last])[k] == front[k] && (front + [last])[|front|] == last;
      }
    }
  }

  function SortItems(items: seq<Item>): (r: seq<Item>)
    ensures Ordered(r) && multiset(r) == multiset(items)
  {
    if items == [] then []
    else
      assert items == items[..|items| - 1] + [items[|items| - 1]];
      InsertItem(SortItems(items[..|items| - 1]), items[|items| - 1])
  }

  /* The latest attempt of each handler, from the last attempt back, until one
     is found that failed and is no storage handler's. */
  method FindOwedAttempt(attempts: seq<Attempt>) returns (owed: int)
    ensures owed == LastOwed(attempts, |attempts|)
  {
    var seen: set<string> := {};
    var i := |attempts|;
    while i > 0
      invariant 0 <= i <= |attempts|
      invariant forall h :: h in seen <==> exists j | i <= j < |attempts| :: attempts[j].handler == h
      invariant LastOwed(attempts, |attempts|) == LastOwed(attempts, i)
    {
      i := i - 1;
      if attempts[i].handler in seen {
        continue;
      }
      seen := seen + {attempts[i].handler};
      if IsStorageHandler(attempts[i].handler) || attempts[i].outcome != "failed" {
        continue;
      }
      return i;
    }
    return -1;
  }

  method InspectSaga(safe: string -> string, saga: string, records: seq<Record>) returns (items: seq<Item>)
    ensures items == Obligations(safe, saga, records)
  {
    hide StorageItem, HandlerItem, GraphItem;
    var item := Item(saga, "", "", "", "Succeeded", "", "", "", "", "", "", "", [], "", NoAction);
    var graphState := "";
    var storageResult: Option<Result> := None;
    var storageResolved := false;
    for i := 0 to |records|
      invariant item == Base(saga, records[..i]) && graphState == GraphState(records[..i])
      invariant Owes(records[..i]) <==> storageResult.Some? && !storageResolved
      invariant Owes(records[..i]) ==> storageResult == Some(LastEffect(records[..i]).value.result)
    {
      var record := records[i];
      assert records[..i + 1][..i] == records[..i] && records[..i + 1][i] == record;
      item := Follow(item, record);
      if record.Attempted? {
        continue;
      }
      var event := record.event;
      if PendingGraph(record) {
        graphState := ClosedDiary(record).value.graphState;
      }
      if event.kind == REQUESTED {
        if event.payload.result.Some? {
          var result := event.payload.result.value;
          if result.state == "" {
            result := result.(state := SYNC_PENDING);
          }
          storageResult, storageResolved := Some(result), false;
        }
      } else if event.kind == SUCCEEDED || event.kind == RESOLVED {
        storageResolved := true;
        if event.payload.result.Some? && event.payload.result.value.key != "" {
          storageResult := event.payload.result;
        }
      } else if event.kind in {PENDING, CONFLICT, PREREQUISITE} {
        if event.payload.result.Some? {
          storageResult, storageResolved := event.payload.result, false;
        }
      }
    }
    assert records[..|records|] == records;
    items := [];
    if storageResult.Some? && !storageResolved {
      items := items + [StorageItem(safe, item, storageResult.value)];
    }
    var owed := FindOwedAttempt(item.attempts);
    if owed >= 0 {
      items := items + [HandlerItem(item, item.attempts[owed])];
    }
    if graphState != "" {
      items := items + [GraphItem(item, graphState)];
    }
  }

  /** The projection is exactly the obligations of every saga in the journal,
      ordered by saga and state. */
  method InspectRecovery(safe: string -> string, journal: Journal) returns (items: seq<Item>, ghost sagas: seq<string>)
    requires journal.Valid()
    ensures SortedSagas(sagas) && forall saga :: saga in sagas <==> saga in journal.segments
    ensures Ordered(items) && multiset(items) == multiset(Gathered(safe, journal.segments, sagas))
  {
    var names := journal.ListSagas();
    items := [];
    for i := 0 to |names|
      invariant items == Gathered(safe, journal.segments, names[..i])
    {
      var records := journal.ReadSaga(names[i]);
      var more := InspectSaga(safe, names[i], records);
      assert names[..i + 1][..i] == names[..i];
      items := items + more;
    }
    assert names[..|names|] == names;
    items := SortItems(items);
    sagas := names;
  }

  // ---- what an obligation means -----------------------------------------------------

  ghost predicate StorageEvent(r: Record) {
    r.Happened? && r.event.kind in {REQUESTED, SUCCEEDED, RESOLVED, PENDING, CONFLICT, PREREQUISITE}
  }

  ghost predicate ClosingEvent(r: Record) {
    r.Happened? && (r.event.kind == SUCCEEDED || r.event.kind == RESOLVED)
  }

  ghost predicate Decodable(records: seq<Record>) {
    forall r | r in records && StorageEvent(r) && !ClosingEvent(r) :: r.event.payload.result.Some?
  }

  /* Record `i` is the last with an effect, and it opens the obligation. */
  ghost predicate OpenAt(records: seq<Record>, i: int) {
    && 0 <= i < |records| && EffectOf(records[i]).Some? && EffectOf(records[i]).value.Opens?
    && forall j | i < j < |records| :: EffectOf(records[j]).None?
  }

  lemma {:induction false} OwesWhenOpen(records: seq<Record>)
    ensures Owes(records) <==> exists i :: OpenAt(records, i)
  {
    if records != [] {
      var n := |records| - 1;
      OwesWhenOpen(records[..n]);
      if EffectOf(records[n]).None? {
        assert forall i :: OpenAt(records[..n], i) <==> OpenAt(records, i);
      } else {
        assert OpenAt(records, n) <==> EffectOf(records[n]).value.Opens?;
      }
    }
  }

  /** With payloads that decode, a storage obligation is shown exactly when the
      last storage event is neither a success nor a resolution. */
  lemma StorageObligation(records: seq<Record>)
    requires Decodable(records)
    ensures Owes(records) <==>
      exists i | 0 <= i < |records| :: StorageEvent(records[i]) && !ClosingEvent(records[i])
        && forall j | i < j < |records| :: !StorageEvent(records[j])
  {
    OwesWhenOpen(records);
    assert forall i | 0 <= i < |records| :: records[i] in records;
    assert forall i | 0 <= i < |records| :: EffectOf(records[i]).Some? <==> StorageEvent(records[i]);
    assert forall i :: OpenAt(records, i) <==>
      0 <= i < |records| && StorageEvent(records[i]) && !ClosingEvent(records[i]) && forall j | i < j < |records| :: !StorageEvent(records[j]);
  }

  ghost predicate LatestOf(attempts: seq<Attempt>, i: int, handler: string) {
    0 <= i < |attempts| && attempts[i].handler == handler && forall j | i < j < |attempts| :: attempts[j].handler != handler
  }

  /** A handler obligation is shown exactly when the latest attempt of some
      other handler failed, and it is about the most recent such attempt. */
  lemma HandlerObligation(attempts: seq<Attempt>)
    ensures LastOwed(attempts, |attempts|) >= 0 <==>
      exists handler, i :: LatestOf(attempts, i, handler) && !IsStorageHandler(handler) && attempts[i].outcome == "failed"
    ensures var owed := LastOwed(attempts, |attempts|);
      owed >= 0 ==> forall handler, i | LatestOf(attempts, i, handler) && !IsStorageHandler(handler) && attempts[i].outcome == "failed" :: i <= owed
  {
    assert forall i :: OwedAttempt(attempts, i) ==> LatestOf(attempts, i, attempts[i].handler);
    assert forall i, handler :: LatestOf(attempts, i, handler) && !IsStorageHandler(handler) && attempts[i].outcome == "failed" ==> OwedAttempt(attempts, i);
  }

  /** A graph obligation, once shown, is never withdrawn. */
  lemma {:induction false} GraphObligation(records: seq<Record>)
    ensures GraphState(records) != "" <==> exists r | r in records :: PendingGraph(r)
  {
    if records != [] {
      var n := |records| - 1;
      GraphObligation(records[..n]);
      assert records == records[..n] + [records[n]];
    }
  }
}
