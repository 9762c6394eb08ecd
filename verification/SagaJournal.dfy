/** The Saga Journal: an append-only sequence of records for each saga
    (journal.go, event.go, contracts.go). */
module SagaJournal {
  import opened Text

  const MIRRORED := "mirrored"
  const SYNC_PENDING := "StorageSyncPending"
  const SYNC_CONFLICT := "StorageSyncConflict"
  const PREREQUISITE_MISSING := "StoragePrerequisiteMissing"
  const RESOLUTION_PENDING := "GraphResolutionPending"
  const GRAPH_SYNC_PENDING := "GraphSyncPending"

  /** A storage result as it is read back from the journal. */
  datatype Result = Result(
    state: string, backend: string, provider: string, key: string, remoteId: string, remoteUrl: string,
    revision: string, failureClass: string, snapshot: string, alreadyInProgress: bool, error: string)

  datatype Diary = Diary(key: string, graphState: string)

  /** What the JSON of a payload decodes to under each of the two schemas. */
  datatype Payload = Payload(diary: Option<Diary>, result: Option<Result>)

  datatype Event = Event(id: string, kind: string, repository: string, saga: string, payload: Payload)
  datatype Attempt = Attempt(event: string, saga: string, handler: string, outcome: string, error: string)
  datatype Record = Happened(event: Event) | Attempted(attempt: Attempt)

  predicate ValidEvent(e: Event) { e.id != "" && e.kind != "" && e.repository != "" && e.saga != "" }
  predicate ValidAttempt(a: Attempt) { a.event != "" && a.saga != "" && a.handler != "" && a.outcome != "" }

  function SagaOf(r: Record): string { if r.Happened? then r.event.saga else r.attempt.saga }

  type Segments = map<string, seq<Record>>

  ghost predicate WellFiled(segments: Segments) {
    forall saga | saga in segments :: segments[saga] != [] && forall r | r in segments[saga] :: SagaOf(r) == saga
  }

  function Segment(segments: Segments, saga: string): seq<Record> {
    if saga in segments then segments[saga] else []
  }

  ghost predicate SortedSagas(sagas: seq<string>) {
    forall i, j | 0 <= i < j < |sagas| :: Less(sagas[i], sagas[j])
  }

  class Journal {
    var segments: Segments

    ghost predicate Valid()
      reads this
    {
      WellFiled(segments)
    }

    constructor ()
      ensures Valid() && segments == map[]
    {
      segments := map[];
    }

    method Append(r: Record)
      requires Valid()
      modifies this
      ensures Valid() && segments == old(segments)[SagaOf(r) := Segment(old(segments), SagaOf(r)) + [r]]
    {
      segments := segments[SagaOf(r) := Segment(segments, SagaOf(r)) + [r]];
    }

    method AppendEvent(e: Event) returns (ok: bool)
      requires Valid()
      modifies this
      ensures Valid() && ok == ValidEvent(e)
      ensures segments == if ok then old(segments)[e.saga := Segment(old(segments), e.saga) + [Happened(e)]] else old(segments)
    {
      ok := ValidEvent(e);
      if ok {
        Append(Happened(e));
      }
    }

    /** `safe` redacts and bounds a diagnostic. */
    method AppendAttempt(safe: string -> string, a: Attempt) returns (ok: bool)
      requires Valid()
      modifies this
      ensures Valid() && ok == ValidAttempt(a)
      ensures segments == if ok
        then old(segments)[a.saga := Segment(old(segments), a.saga) + [Attempted(a.(error := safe(a.error)))]]
        else old(segments)
    {
      ok := ValidAttempt(a);
      if ok {
        Append(Attempted(a.(error := safe(a.error))));
      }
    }

    method ReadSaga(saga: string) returns (records: seq<Record>)
      ensures records == Segment(segments, saga)
    {
      records := if saga in segments then segments[saga] else [];
    }

    /** Every saga that has a record, in order, each once. */
    method ListSagas() returns (sagas: seq<string>)
      requires Valid()
      ensures SortedSagas(sagas) && forall saga :: saga in sagas <==> saga in segments
    {
      sagas := [];
      var rest := segments.Keys;
      while rest != {}
        invariant SortedSagas(sagas) && rest <= segments.Keys
        invariant forall saga :: saga in segments <==> saga in rest || saga in sagas
        decreases |rest|
      {
        var saga :| saga in rest;
        rest := rest - {saga};
        sagas := InsertName(sagas, saga);
      }
    }
  }

  /* sort.Strings, one name at a time. */
  function InsertName(names: seq<string>, name: string): (r: seq<string>)
    requires SortedSagas(names)
    ensures SortedSagas(r) && forall n :: n in r <==> n in names || n == name
  {
    if names == [] then [name]
    else if names[0] == name then names
    else if Less(name, names[0]) then
      Before(names, name);
      [name] + names
    else
      LessTotal(name, names[0]);
      assert names == [names[0]] + names[1..];
      var inner := InsertName(names[1..], name);
      assert name in inner && inner[0] in inner;
      assert inner[0] in names[1..] || inner[0] == name;
      Before(inner, names[0]);
      [names[0]] + inner
  }

  lemma Before(names: seq<string>, name: string)
    requires SortedSagas(names) && names != [] && Less(name, names[0])
    ensures SortedSagas([name] + names)
  {
    var all := [name] + names;
    forall i, j | 0 <= i < j < |all| ensures Less(all[i], all[j]) {
      if i == 0 && j > 1 {
        LessTransitive(name, names[0], names[j - 1]);
      }
    }
  }

  /** What is appended stays, and stays where it is. */
  lemma AppendOnly(segments: Segments, saga: string, r: Record, other: string)
    ensures Segment(segments, other) <= Segment(segments[saga := Segment(segments, saga) + [r]], other)
  {}
}
