/** What the journal knows of one skill invocation, and whether a runtime's
    record of it may stand (skill_invocation.go, session.go). */
module SkillEvidence {
  import opened Text
  import opened SkillArguments

  const PREPARE_REQUESTED := "skill.prepare-requested"
  const PREPARED := "skill.prepared"
  const PREPARE_FAILED := "skill.prepare-failed"
  const STARTED := "skill.invocation-started"
  const COMPLETED := "skill.invocation-completed"
  const FAILED := "skill.invocation-failed"
  const LINKED := "skill.invocation-linked"

  datatype Identity = Identity(source: string, name: string, hash: string)
  datatype Outcome = Succeeded | Failed

  /** Absent arguments differ from empty ones; only a prepared event has any. */
  datatype Facts = Facts(identity: Identity, bundleHash: string, runtime: string, arguments: Option<map<string, Value>>)

  /** `facts` is the payload, when it decodes under the event's own schema. */
  datatype Record = Attempted | Happened(id: string, kind: string, facts: Option<Facts>)

  datatype Source<T> = Source(value: T, from: string)

  datatype Claim = Claim(
    invocation: string, identity: Identity, bundleHash: string, runtime: string, arguments: Option<map<string, Value>>, outcome: Outcome)

  datatype Provenance = JournalVerified(references: seq<string>) | RuntimeDeclared | Contradicted

  // ---- what the records say ----------------------------------------------------

  predicate IsPrepared(r: Record) { r.Happened? && r.kind == PREPARED && r.facts.Some? }

  predicate IsUse(r: Record) { r.Happened? && r.kind in {STARTED, COMPLETED, FAILED} && r.facts.Some? }

  function OutcomeOf(r: Record): Option<Outcome> {
    if !r.Happened? then None
    else if r.kind == PREPARE_FAILED then Some(Failed)
    else if r.kind == COMPLETED && r.facts.Some? then Some(Succeeded)
    else if r.kind == FAILED && r.facts.Some? then Some(Failed)
    else None
  }

  predicate IsEvidence(r: Record) { IsPrepared(r) || IsUse(r) || OutcomeOf(r).Some? }

  function PreparedFacts(r: Record): Source<Facts>
    requires IsPrepared(r)
  {
    Source(r.facts.value, r.id)
  }

  function UseFacts(r: Record): Source<Facts>
    requires IsUse(r)
  {
    Source(r.facts.value.(arguments := None), r.id)
  }

  ghost function LastPrepared(records: seq<Record>): Option<Source<Facts>> {
    if records == [] then None
    else if IsPrepared(records[|records| - 1]) then Some(PreparedFacts(records[|records| - 1]))
    else LastPrepared(records[..|records| - 1])
  }

  ghost function FirstUse(records: seq<Record>): Option<Source<Facts>> {
    if records == [] then None
    else if IsUse(records[0]) then Some(UseFacts(records[0]))
    else FirstUse(records[1..])
  }

  ghost function LastOutcome(records: seq<Record>): Option<Source<Outcome>> {
    if records == [] then None
    else
      var o := OutcomeOf(records[|records| - 1]);
      if o.Some? then Some(Source(o.value, records[|records| - 1].id)) else LastOutcome(records[..|records| - 1])
  }

  /** What was prepared last counts; without a preparation, the first use. */
  ghost function IdentityEvidence(records: seq<Record>): Option<Source<Facts>> {
    if LastPrepared(records).Some? then LastPrepared(records) else FirstUse(records)
  }

  ghost predicate Evidence(records: seq<Record>) { exists r | r in records :: IsEvidence(r) }

  /* AppendEvent takes no event without an ID. */
  ghost predicate Identified(records: seq<Record>) { forall r | r in records && r.Happened? :: r.id != "" }

  function QualifiedName(i: Identity): string { i.source + "/" + i.name }

  predicate SameFacts(f: Facts, c: Claim) {
    && QualifiedName(f.identity) == QualifiedName(c.identity) && f.identity.hash == c.identity.hash
    && f.runtime == c.runtime && f.arguments == c.arguments
    && (f.bundleHash != "" && c.bundleHash != "" ==> f.bundleHash == c.bundleHash)
  }

  /** The claim agrees with all that the journal holds about it. */
  ghost predicate Agrees(records: seq<Record>, c: Claim) {
    && (IdentityEvidence(records).Some? ==> SameFacts(IdentityEvidence(records).value.value, c))
    && (LastOutcome(records).Some? ==> LastOutcome(records).value.value == c.outcome)
  }

  /* The events that the verdict rests on, each once. */
  ghost function References(records: seq<Record>): seq<string> {
    var i, o := IdentityEvidence(records), LastOutcome(records);
    (if i.Some? then [i.value.from] else [])
    + if o.Some? && !(i.Some? && i.value.from == o.value.from) then [o.value.from] else []
  }

  ghost function Verdict(records: seq<Record>, c: Claim): Provenance {
    if !Evidence(records) then RuntimeDeclared
    else if Agrees(records, c) then JournalVerified(References(records))
    else Contradicted
  }

  // ---- gathering ------------------------------------------------------------------

  datatype Gathered = Gathered(found: bool, facts: Facts, identityFrom: string, outcome: Option<Outcome>, outcomeFrom: string)

  const NO_FACTS := Facts(Identity("", "", ""), "", "", None)

  /* `g` is the evidence of `records`. */
  ghost predicate Gathers(records: seq<Record>, g: Gathered) {
    && (g.found <==> Evidence(records))
    && (match IdentityEvidence(records)
        case Some(s) => g.facts == s.value && g.identityFrom == s.from
        case None => g.facts == NO_FACTS && g.identityFrom == "")
    && (match LastOutcome(records)
        case Some(s) => g.outcome == Some(s.value) && g.outcomeFrom == s.from
        case None => g.outcome == None && g.outcomeFrom == "")
  }

  function Follow(g: Gathered, r: Record): Gathered {
    if !IsEvidence(r) then g
    else
      var o := OutcomeOf(r);
      var h := if o.Some? then g.(found := true, outcome := o, outcomeFrom := r.id) else g.(found := true);
      if IsPrepared(r) then h.(facts := PreparedFacts(r).value, identityFrom := r.id)
      else if IsUse(r) && g.identityFrom == "" then h.(facts := UseFacts(r).value, identityFrom := r.id)
      else h
  }

  method GatherEvidence(records: seq<Record>) returns (g: Gathered)
    requires Identified(records)
    ensures Gathers(records, g)
  {
    g := Gathered(false, NO_FACTS, "", None, "");
    for i := 0 to |records|
      invariant Gathers(records[..i], g)
    {
      var r := records[i];
      assert r in records;
      GathersMore(records[..i], g, r);
      assert records[..i + 1] == records[..i] + [r];
      if r.Attempted? {
        continue;
      }
      if r.kind == PREPARED {
        if r.facts.Some? {
          g := g.(found := true, facts := r.facts.value, identityFrom := r.id);
        }
      } else if r.kind in {STARTED, COMPLETED, FAILED} {
        if r.facts.Some? {
          g := g.(found := true);
          if r.kind != STARTED {
            g := g.(outcome := Some(if r.kind == COMPLETED then Succeeded else Failed), outcomeFrom := r.id);
          }
          if g.identityFrom == "" {
            g := g.(facts := r.facts.value.(arguments := None), identityFrom := r.id);
          }
        }
      } else if r.kind == PREPARE_FAILED {
        g := g.(found := true, outcome := Some(Failed), outcomeFrom := r.id);
      }
    }
    assert records[..|records|] == records;
  }

  lemma {:induction false} FirstUseAppended(records: seq<Record>, r: Record)
    ensures FirstUse(records + [r]) ==
            if FirstUse(records).Some? then FirstUse(records) else if IsUse(r) then Some(UseFacts(r)) else None
  {
    if records == [] {
      assert ([] + [r])[1..] == [];
    } else {
      assert (records + [r])[1..] == records[1..] + [r];
      FirstUseAppended(records[1..], r);
    }
  }

  lemma EvidenceAppended(records: seq<Record>, r: Record)
    ensures LastPrepared(records + [r]) == if IsPrepared(r) then Some(PreparedFacts(r)) else LastPrepared(records)
    ensures LastOutcome(records + [r]) == if OutcomeOf(r).Some? then Some(Source(OutcomeOf(r).value, r.id)) else LastOutcome(records)
    ensures Evidence(records + [r]) <==> Evidence(records) || IsEvidence(r)
  {
    assert (records + [r])[..|records|] == records;
    assert r in records + [r];
  }

  lemma {:induction false} SourcesAreIdentified(records: seq<Record>)
    requires Identified(records)
    ensures IdentityEvidence(records).Some? ==> IdentityEvidence(records).value.from != ""
    decreases |records|
  {
    if records != [] {
      var n := |records| - 1;
      assert records == records[..n] + [records[n]];
      EvidenceAppended(records[..n], records[n]);
      FirstUseAppended(records[..n], records[n]);
      SourcesAreIdentified(records[..n]);
      assert records[n] in records;
    }
  }

  lemma GathersMore(records: seq<Record>, g: Gathered, r: Record)
    requires Gathers(records, g) && Identified(records) && (r.Happened? ==> r.id != "")
    ensures Gathers(records + [r], Follow(g, r))
  {
    hide Evidence, LastPrepared, FirstUse, LastOutcome;
    EvidenceAppended(records, r);
    FirstUseAppended(records, r);
    SourcesAreIdentified(records);
  }

  // ---- reconciliation ---------------------------------------------------------------

  /** A record is trusted on the runtime's word exactly when the journal holds
      no evidence; otherwise it stands exactly when it agrees. */
  method Reconcile(records: seq<Record>, c: Claim) returns (p: Provenance)
    requires Identified(records)
    ensures p == Verdict(records, c)
    ensures p.RuntimeDeclared? <==> forall r | r in records :: !IsEvidence(r)
    ensures p.JournalVerified? <==> Evidence(records) && Agrees(records, c)
    ensures p.Contradicted? <==> Evidence(records) && !Agrees(records, c)
  {
    var g := GatherEvidence(records);
    if !g.found {
      return RuntimeDeclared;
    }
    SourcesAreIdentified(records);
    OutcomesAreIdentified(records);
    if g.identityFrom != "" && !SameFacts(g.facts, c) {
      return Contradicted;
    }
    if g.outcome.Some? && g.outcome.value != c.outcome {
      return Contradicted;
    }
    var references: seq<string> := [];
    if g.identityFrom != "" {
      references := references + [g.identityFrom];
    }
    if g.outcomeFrom != "" && g.outcomeFrom != g.identityFrom {
      references := references + [g.outcomeFrom];
    }
    return JournalVerified(references);
  }

  lemma {:induction false} OutcomesAreIdentified(records: seq<Record>)
    requires Identified(records)
    ensures LastOutcome(records).Some? ==> LastOutcome(records).value.from != ""
    decreases |records|
  {
    if records != [] {
      OutcomesAreIdentified(records[..|records| - 1]);
      assert records[|records| - 1] in records;
    }
  }

  // ---- what a verdict means ------------------------------------------------------------

  /** The identity evidence is that of the last preparation; without one, that
      of the first use. */
  lemma {:induction false} IdentityMeans(records: seq<Record>)
    ensures (exists r | r in records :: IsPrepared(r)) ==>
      exists i | 0 <= i < |records| :: IsPrepared(records[i]) && IdentityEvidence(records) == Some(PreparedFacts(records[i]))
        && forall j | i < j < |records| :: !IsPrepared(records[j])
    ensures !(exists r | r in records :: IsPrepared(r)) && (exists r | r in records :: IsUse(r)) ==>
      exists i | 0 <= i < |records| :: IsUse(records[i]) && IdentityEvidence(records) == Some(UseFacts(records[i]))
        && forall j | 0 <= j < i :: !IsUse(records[j])
  {
    LastPreparedMeans(records);
    FirstUseMeans(records);
  }

  lemma {:induction false} LastPreparedMeans(records: seq<Record>)
    ensures LastPrepared(records).None? <==> forall r | r in records :: !IsPrepared(r)
    ensures LastPrepared(records).Some? ==>
      exists i | 0 <= i < |records| :: IsPrepared(records[i]) && LastPrepared(records) == Some(PreparedFacts(records[i]))
        && forall j | i < j < |records| :: !IsPrepared(records[j])
  {
    if records != [] {
      var n := |records| - 1;
      LastPreparedMeans(records[..n]);
      assert records == records[..n] + [records[n]];
      if LastPrepared(records).Some? && !IsPrepared(records[n]) {
        var i :| 0 <= i < n && IsPrepared(records[..n][i]) && LastPrepared(records[..n]) == Some(PreparedFacts(records[..n][i]))
          && forall j | i < j < n :: !IsPrepared(records[..n][j]);
        assert records[i] == records[..n][i];
        assert forall j | i < j < n :: records[j] == records[..n][j];
      }
    }
  }

  lemma {:induction false} FirstUseMeans(records: seq<Record>)
    ensures FirstUse(records).None? <==> forall r | r in records :: !IsUse(r)
    ensures FirstUse(records).Some? ==>
      exists i | 0 <= i < |records| :: IsUse(records[i]) && FirstUse(records) == Some(UseFacts(records[i]))
        && forall j | 0 <= j < i :: !IsUse(records[j])
  {
    if records != [] {
      FirstUseMeans(records[1..]);
      assert records == [records[0]] + records[1..];
      if FirstUse(records).Some? && !IsUse(records[0]) {
        var i :| 0 <= i < |records| - 1 && IsUse(records[1..][i]) && FirstUse(records[1..]) == Some(UseFacts(records[1..][i]))
          && forall j | 0 <= j < i :: !IsUse(records[1..][j]);
        assert records[i + 1] == records[1..][i];
        assert forall j | 0 < j < i + 1 :: records[j] == records[1..][j - 1];
      }
    }
  }

  ghost predicate Silent(more: seq<Record>) {
    forall r | r in more :: r.Attempted? || r.kind == LINKED || r.kind == PREPARE_REQUESTED
  }

  /** Links and preparation requests, however many, never change a verdict. */
  lemma {:induction false} SilentRecordsChangeNothing(records: seq<Record>, more: seq<Record>, c: Claim)
    requires Silent(more)
    ensures Verdict(records + more, c) == Verdict(records, c)
    decreases |more|
  {
    if more == [] {
      assert records + more == records;
    } else {
      hide Evidence, LastPrepared, FirstUse, LastOutcome;
      var n := |more| - 1;
      assert records + more == (records + more[..n]) + [more[n]];
      SilentRecordsChangeNothing(records, more[..n], c);
      EvidenceAppended(records + more[..n], more[n]);
      FirstUseAppended(records + more[..n], more[n]);
    }
  }

  // ---- links from closed sessions ----------------------------------------------------------

  type Sagas = map<string, seq<Record>>

  function SagaRecords(sagas: Sagas, invocation: string): seq<Record> { if invocation in sagas then sagas[invocation] else [] }

  function Link(invocation: string, session: string): Record {
    Happened(invocation + ":linked:" + session, LINKED, None)
  }

  /* Every saga keeps its records, and gains silent ones at most. */
  ghost predicate LinksOnly(sagas: Sagas, linked: Sagas) {
    forall i :: SagaRecords(sagas, i) <= SagaRecords(linked, i)
      && Silent(SagaRecords(linked, i)[|SagaRecords(sagas, i)|..])
  }

  lemma LinkMore(sagas: Sagas, linked: Sagas, i: string, session: string)
    requires LinksOnly(sagas, linked)
    ensures LinksOnly(sagas, linked[i := SagaRecords(linked, i) + [Link(i, session)]])
  {
    var more := linked[i := SagaRecords(linked, i) + [Link(i, session)]];
    forall j ensures SagaRecords(sagas, j) <= SagaRecords(more, j) && Silent(SagaRecords(more, j)[|SagaRecords(sagas, j)|..]) {
      var n := |SagaRecords(sagas, j)|;
      assert SagaRecords(sagas, j) <= SagaRecords(linked, j);
      if j == i {
        assert SagaRecords(more, j)[n..] == SagaRecords(linked, j)[n..] + [Link(i, session)];
      } else {
        assert SagaRecords(more, j) == SagaRecords(linked, j);
      }
    }
  }

  /* emitSkillInvocationLinks: one link to each accepted invocation's own saga. */
  method EmitLinks(sagas: Sagas, invocations: seq<string>, session: string) returns (linked: Sagas)
    ensures LinksOnly(sagas, linked)
    ensures forall i | i in invocations && i != "" :: Link(i, session) in SagaRecords(linked, i)
    ensures forall i | i !in invocations :: SagaRecords(linked, i) == SagaRecords(sagas, i)
  {
    linked := sagas;
    assert LinksOnly(sagas, linked);
    hide LinksOnly, Link;
    for k := 0 to |invocations|
      invariant LinksOnly(sagas, linked)
      invariant forall j | 0 <= j < k && invocations[j] != "" :: Link(invocations[j], session) in SagaRecords(linked, invocations[j])
      invariant forall i | i !in invocations :: SagaRecords(linked, i) == SagaRecords(sagas, i)
    {
      var i := invocations[k];
      if i == "" {
        continue;
      }
      LinkMore(sagas, linked, i, session);
      linked := linked[i := SagaRecords(linked, i) + [Link(i, session)]];
    }
  }

  /** So a session close changes no verdict, its own included. */
  lemma LinksChangeNoVerdict(sagas: Sagas, linked: Sagas, i: string, c: Claim)
    requires LinksOnly(sagas, linked)
    ensures Verdict(SagaRecords(linked, i), c) == Verdict(SagaRecords(sagas, i), c)
  {
    var before, after := SagaRecords(sagas, i), SagaRecords(linked, i);
    assert after == before + after[|before|..];
    SilentRecordsChangeNothing(before, after[|before|..], c);
  }
}
