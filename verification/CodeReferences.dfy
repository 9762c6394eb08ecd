/** Resolution of the code references of a session artifact, top-level and
    nested, in one batch without repetitions (session.go, graph.go). */
module CodeReferences {
  import opened Text

  const AUTHORITATIVE := "authoritative"
  const UNRESOLVED := "unresolved"

  datatype Ref = Ref(
    repository: string, commit: string, path: string, symbol: string, kind: string, confidence: string, snapshot: string)
  datatype Key = Key(path: string, symbol: string, kind: string)
  datatype Snapshot = Snapshot(id: string, repository: string, commit: string, references: seq<Ref>)

  datatype GraphState = GraphReady | ResolutionPending | SyncPending

  /** No graph, a graph without a usable snapshot, or one with its active
      snapshot and whether the resolved references can be published. */
  datatype Graph = NoGraph | Failing | Active(snapshot: Snapshot, publishes: bool)

  function KeyOf(r: Ref): Key { Key(r.path, r.symbol, r.kind) }

  function Stated(r: Ref): string { if r.confidence == "" then AUTHORITATIVE else r.confidence }

  // ---- one reference -------------------------------------------------------------

  /* An absent symbol or kind matches any. */
  predicate Matches(candidate: Ref, r: Ref) {
    && candidate.path == r.path
    && (r.symbol == "" || candidate.symbol == r.symbol)
    && (r.kind == "" || candidate.kind == r.kind)
  }

  ghost predicate Found(s: Snapshot, r: Ref) { exists c | c in s.references :: Matches(c, r) }

  ghost function Resolved(s: Snapshot, repository: string, commit: string, r: Ref): Ref {
    var confidence := if Found(s, r) then Stated(r) else UNRESOLVED;
    r.(repository := repository, commit := commit, confidence := confidence, snapshot := s.id)
  }

  function Unresolved(repository: string, commit: string, r: Ref): Ref {
    r.(repository := repository, commit := commit, confidence := UNRESOLVED, snapshot := "")
  }

  predicate Fits(s: Snapshot, repository: string, commit: string) { s.repository == repository && s.commit == commit }

  /* LocalGraphPort.Resolve, for a snapshot of the requested commit. */
  method ResolveAll(s: Snapshot, repository: string, commit: string, refs: seq<Ref>) returns (resolved: array<Ref>)
    requires Fits(s, repository, commit)
    ensures fresh(resolved) && resolved.Length == |refs|
    ensures forall i | 0 <= i < |refs| :: resolved[i] == Resolved(s, repository, commit, refs[i])
  {
    resolved := new Ref[|refs|](i requires 0 <= i < |refs| => refs[i]);
    for i := 0 to resolved.Length
      invariant forall k | 0 <= k < i :: resolved[k] == Resolved(s, repository, commit, refs[k])
      invariant forall k | i <= k < resolved.Length :: resolved[k] == refs[k]
    {
      var r := resolved[i];
      if r.confidence == "" {
        r := r.(confidence := AUTHORITATIVE);
      }
      var found := false;
      for j := 0 to |s.references|
        invariant found <==> exists k | 0 <= k < j :: Matches(s.references[k], refs[i])
      {
        if Matches(s.references[j], refs[i]) {
          found := true;
          break;
        }
      }
      if !found {
        r := r.(confidence := UNRESOLVED);
      }
      resolved[i] := r.(repository := repository, commit := commit, snapshot := s.id);
    }
  }

  // ---- the batch --------------------------------------------------------------------

  ghost function Flatten(nested: seq<seq<Ref>>): seq<Ref> {
    if nested == [] then [] else Flatten(nested[..|nested| - 1]) + nested[|nested| - 1]
  }

  /* Every declared reference, top level first. */
  ghost function Declared(top: seq<Ref>, nested: seq<seq<Ref>>): seq<Ref> { top + Flatten(nested) }

  ghost predicate Has(refs: seq<Ref>, key: Key) { exists r | r in refs :: KeyOf(r) == key }

  /* `r` is the first of `refs` with its key. */
  ghost predicate IsFirst(refs: seq<Ref>, r: Ref) {
    exists i | 0 <= i < |refs| :: refs[i] == r && forall j | 0 <= j < i :: KeyOf(refs[j]) != KeyOf(r)
  }

  ghost predicate DistinctKeys(batch: seq<Ref>) {
    forall i, j | 0 <= i < j < |batch| :: KeyOf(batch[i]) != KeyOf(batch[j])
  }

  /* `batch` holds the first declaration of every key, and nothing else. */
  ghost predicate IsBatch(refs: seq<Ref>, batch: seq<Ref>) {
    && DistinctKeys(batch)
    && (forall r | r in batch :: IsFirst(refs, r))
    && (forall r | r in refs :: Has(batch, KeyOf(r)))
  }

  lemma FirstIsUnique(refs: seq<Ref>, a: Ref, b: Ref)
    requires IsFirst(refs, a) && IsFirst(refs, b) && KeyOf(a) == KeyOf(b)
    ensures a == b
  {}

  lemma FirstStays(refs: seq<Ref>, more: Ref, r: Ref)
    requires IsFirst(refs, r)
    ensures IsFirst(refs + [more], r)
  {
    var i :| 0 <= i < |refs| && refs[i] == r && forall j | 0 <= j < i :: KeyOf(refs[j]) != KeyOf(r);
    assert (refs + [more])[i] == r;
    assert forall j | 0 <= j < i :: (refs + [more])[j] == refs[j];
  }

  lemma NewIsFirst(refs: seq<Ref>, r: Ref)
    requires !Has(refs, KeyOf(r))
    ensures IsFirst(refs + [r], r)
  {
    assert (refs + [r])[|refs|] == r;
    assert forall j | 0 <= j < |refs| :: refs[j] in refs;
  }

  lemma BatchGrows(refs: seq<Ref>, batch: seq<Ref>, r: Ref)
    requires IsBatch(refs, batch)
    ensures IsBatch(refs + [r], if Has(batch, KeyOf(r)) then batch else batch + [r])
  {
    hide IsFirst;
    forall f | f in batch ensures IsFirst(refs + [r], f) { FirstStays(refs, r, f); }
    if Has(batch, KeyOf(r)) {
    } else {
      NewIsFirst(refs, r);
      forall i | 0 <= i < |batch| ensures KeyOf(batch[i]) != KeyOf(r) {
        assert batch[i] in batch;
      }
      assert Has(batch + [r], KeyOf(r)) by { assert r in batch + [r]; }
      forall f | f in refs ensures Has(batch + [r], KeyOf(f)) {
        var b :| b in batch && KeyOf(b) == KeyOf(f);
        assert b in batch + [r];
      }
    }
  }

  method AppendUnseen(ghost before: seq<Ref>, batch: seq<Ref>, seen: set<Key>, refs: seq<Ref>) returns (grown: seq<Ref>, keys: set<Key>)
    requires IsBatch(before, batch) && forall k :: k in seen <==> Has(batch, k)
    ensures IsBatch(before + refs, grown) && forall k :: k in keys <==> Has(grown, k)
  {
    hide IsBatch;
    grown, keys := batch, seen;
    assert before + refs[..0] == before;
    for i := 0 to |refs|
      invariant IsBatch(before + refs[..i], grown) && forall k :: k in keys <==> Has(grown, k)
    {
      var r := refs[i];
      BatchGrows(before + refs[..i], grown, r);
      assert (before + refs[..i]) + [r] == before + refs[..i + 1];
      if KeyOf(r) in keys {
        continue;
      }
      HasMore(grown, r);
      keys := keys + {KeyOf(r)};
      grown := grown + [r];
    }
    assert refs[..|refs|] == refs;
  }

  lemma HasMore(batch: seq<Ref>, r: Ref)
    ensures forall k :: Has(batch + [r], k) <==> Has(batch, k) || k == KeyOf(r)
  {
    forall k ensures Has(batch + [r], k) <==> Has(batch, k) || k == KeyOf(r) {
      if Has(batch, k) {
        var b :| b in batch && KeyOf(b) == k;
        assert b in batch + [r];
      }
      assert r in batch + [r];
    }
  }

  method CollectBatch(top: seq<Ref>, nested: seq<seq<Ref>>) returns (batch: seq<Ref>)
    ensures IsBatch(Declared(top, nested), batch)
  {
    var keys: set<Key>;
    batch, keys := AppendUnseen([], [], {}, top);
    assert [] + top == top + Flatten(nested[..0]);
    for i := 0 to |nested|
      invariant IsBatch(top + Flatten(nested[..i]), batch) && forall k :: k in keys <==> Has(batch, k)
    {
      batch, keys := AppendUnseen(top + Flatten(nested[..i]), batch, keys, nested[i]);
      assert nested[..i + 1][..i] == nested[..i];
      assert (top + Flatten(nested[..i])) + nested[i] == top + Flatten(nested[..i + 1]);
    }
    assert nested[..|nested|] == nested;
  }

  // ---- back to every position ----------------------------------------------------------

  /* What a position gets: the resolution of the first reference with its key. */
  ghost predicate FirstDecides(s: Snapshot, repository: string, commit: string, declared: seq<Ref>, r: Ref, out: Ref) {
    exists f :: IsFirst(declared, f) && KeyOf(f) == KeyOf(r) && out == Resolved(s, repository, commit, f)
  }

  ghost predicate FromFirst(s: Snapshot, repository: string, commit: string, declared: seq<Ref>, refs: seq<Ref>, out: seq<Ref>) {
    && |out| == |refs|
    && forall i | 0 <= i < |refs| :: FirstDecides(s, repository, commit, declared, refs[i], out[i])
  }

  ghost predicate AllUnresolved(repository: string, commit: string, refs: seq<Ref>, out: seq<Ref>) {
    |out| == |refs| && forall i | 0 <= i < |refs| :: out[i] == Unresolved(repository, commit, refs[i])
  }

  /* Every key of the first `n` is indexed, to its last reference among them. */
  ghost predicate Indexes(byKey: map<Key, Ref>, resolved: seq<Ref>, n: nat)
    requires n <= |resolved|
  {
    && (forall k :: k in byKey <==> Has(resolved[..n], k))
    && (DistinctKeys(resolved) ==> forall j | 0 <= j < n :: KeyOf(resolved[j]) in byKey && byKey[KeyOf(resolved[j])] == resolved[j])
  }

  lemma IndexesMore(byKey: map<Key, Ref>, resolved: seq<Ref>, n: nat)
    requires n < |resolved| && Indexes(byKey, resolved, n)
    ensures Indexes(byKey[KeyOf(resolved[n]) := resolved[n]], resolved, n + 1)
  {
    hide Has;
    HasMore(resolved[..n], resolved[n]);
    assert resolved[..n + 1] == resolved[..n] + [resolved[n]];
  }

  method Index(resolved: array<Ref>) returns (byKey: map<Key, Ref>)
    ensures forall k :: k in byKey <==> Has(resolved[..], k)
    ensures DistinctKeys(resolved[..]) ==>
      forall i | 0 <= i < resolved.Length :: KeyOf(resolved[i]) in byKey && byKey[KeyOf(resolved[i])] == resolved[i]
  {
    hide Has, DistinctKeys;
    byKey := map[];
    assert Indexes(byKey, resolved[..], 0) by { NothingIndexed(resolved[..]); }
    for i := 0 to resolved.Length
      invariant Indexes(byKey, resolved[..], i)
    {
      IndexesMore(byKey, resolved[..], i);
      byKey := byKey[KeyOf(resolved[i]) := resolved[i]];
    }
    assert resolved[..][..resolved.Length] == resolved[..];
  }

  lemma NothingIndexed(resolved: seq<Ref>)
    ensures Indexes(map[], resolved, 0)
  {}

  /* A reference that the graph did not return stays as it is. */
  method Apply(refs: seq<Ref>, byKey: map<Key, Ref>) returns (out: seq<Ref>)
    ensures |out| == |refs|
    ensures forall i | 0 <= i < |refs| :: out[i] == if KeyOf(refs[i]) in byKey then byKey[KeyOf(refs[i])] else refs[i]
  {
    out := [];
    for i := 0 to |refs|
      invariant |out| == i
      invariant forall k | 0 <= k < i :: out[k] == if KeyOf(refs[k]) in byKey then byKey[KeyOf(refs[k])] else refs[k]
    {
      out := out + [if KeyOf(refs[i]) in byKey then byKey[KeyOf(refs[i])] else refs[i]];
    }
  }

  method MarkUnresolved(repository: string, commit: string, refs: seq<Ref>) returns (out: seq<Ref>)
    ensures AllUnresolved(repository, commit, refs, out)
  {
    out := refs;
    for i := 0 to |out|
      invariant |out| == |refs| && forall k | i <= k < |refs| :: out[k] == refs[k]
      invariant forall k | 0 <= k < i :: out[k] == Unresolved(repository, commit, refs[k])
    {
      out := out[i := Unresolved(repository, commit, out[i])];
    }
  }

  /* The resolved batch, looked up by key, gives every declared reference the
     resolution of the first with its key. */
  lemma LookupIsFirst(s: Snapshot, repository: string, commit: string, declared: seq<Ref>, batch: seq<Ref>, resolved: seq<Ref>, byKey: map<Key, Ref>, r: Ref)
    requires IsBatch(declared, batch) && r in declared && |resolved| == |batch|
    requires forall i | 0 <= i < |batch| :: resolved[i] == Resolved(s, repository, commit, batch[i])
    requires forall k :: k in byKey <==> Has(resolved, k)
    requires DistinctKeys(resolved) ==> forall i | 0 <= i < |resolved| :: KeyOf(resolved[i]) in byKey && byKey[KeyOf(resolved[i])] == resolved[i]
    ensures KeyOf(r) in byKey && FirstDecides(s, repository, commit, declared, r, byKey[KeyOf(r)])
  {
    hide IsFirst, Found;
    assert forall i | 0 <= i < |batch| :: KeyOf(resolved[i]) == KeyOf(batch[i]);
    assert Has(batch, KeyOf(r));
    var f :| f in batch && KeyOf(f) == KeyOf(r);
    var i :| 0 <= i < |batch| && batch[i] == f;
    assert resolved[i] in resolved;
  }

  /** Length, order and key are kept at every position, top-level and nested.
      With a snapshot of the commit, each position gets the resolution of the
      first reference declared with its key; without a graph nothing changes;
      and a failing graph leaves every reference, marked unresolved. */
  method ResolveCodeReferences(graph: Graph, repository: string, commit: string, top: seq<Ref>, nested: seq<seq<Ref>>)
    returns (outTop: seq<Ref>, outNested: seq<seq<Ref>>, state: GraphState)
    ensures |outNested| == |nested|
    ensures graph.NoGraph? ==> outTop == top && outNested == nested && state.ResolutionPending?
    ensures !graph.NoGraph? && !(graph.Active? && Fits(graph.snapshot, repository, commit)) ==>
      && state.ResolutionPending? && AllUnresolved(repository, commit, top, outTop)
      && forall i | 0 <= i < |nested| :: AllUnresolved(repository, commit, nested[i], outNested[i])
    ensures graph.Active? && Fits(graph.snapshot, repository, commit) ==>
      && state == (if graph.publishes then GraphReady else SyncPending)
      && FromFirst(graph.snapshot, repository, commit, Declared(top, nested), top, outTop)
      && forall i | 0 <= i < |nested| :: FromFirst(graph.snapshot, repository, commit, Declared(top, nested), nested[i], outNested[i])
  {
    outNested := nested;
    if graph.NoGraph? {
      return top, nested, ResolutionPending;
    }
    var batch := CollectBatch(top, nested);
    if graph.Failing? || !Fits(graph.snapshot, repository, commit) {
      outTop := MarkUnresolved(repository, commit, top);
      for i := 0 to |nested|
        invariant |outNested| == |nested|
        invariant forall k | 0 <= k < i :: AllUnresolved(repository, commit, nested[k], outNested[k])
        invariant forall k | i <= k < |nested| :: outNested[k] == nested[k]
      {
        var refs := MarkUnresolved(repository, commit, outNested[i]);
        outNested := outNested[i := refs];
      }
      return outTop, outNested, ResolutionPending;
    }
    var resolved := ResolveAll(graph.snapshot, repository, commit, batch);
    var byKey := Index(resolved);
    outTop, outNested := WriteBack(graph.snapshot, repository, commit, top, nested, batch, resolved[..], byKey);
    state := if graph.publishes then GraphReady else SyncPending;
  }

  method WriteBack(ghost s: Snapshot, ghost repository: string, ghost commit: string, top: seq<Ref>, nested: seq<seq<Ref>>,
                   ghost batch: seq<Ref>, ghost resolved: seq<Ref>, byKey: map<Key, Ref>)
    returns (outTop: seq<Ref>, outNested: seq<seq<Ref>>)
    requires IsBatch(Declared(top, nested), batch) && |resolved| == |batch|
    requires forall i | 0 <= i < |batch| :: resolved[i] == Resolved(s, repository, commit, batch[i])
    requires forall k :: k in byKey <==> Has(resolved, k)
    requires DistinctKeys(resolved) ==> forall i | 0 <= i < |resolved| :: KeyOf(resolved[i]) in byKey && byKey[KeyOf(resolved[i])] == resolved[i]
    ensures FromFirst(s, repository, commit, Declared(top, nested), top, outTop) && |outNested| == |nested|
    ensures forall i | 0 <= i < |nested| :: FromFirst(s, repository, commit, Declared(top, nested), nested[i], outNested[i])
  {
    hide IsBatch, FirstDecides, Has, DistinctKeys, Resolved;
    ghost var declared := Declared(top, nested);
    outTop := Apply(top, byKey);
    forall i | 0 <= i < |top|
      ensures FirstDecides(s, repository, commit, declared, top[i], outTop[i])
    {
      assert declared[i] == top[i];
      LookupIsFirst(s, repository, commit, declared, batch, resolved, byKey, top[i]);
    }
    outNested := nested;
    for n := 0 to |nested|
      invariant |outNested| == |nested|
      invariant forall k | 0 <= k < n :: FromFirst(s, repository, commit, declared, nested[k], outNested[k])
      invariant forall k | n <= k < |nested| :: outNested[k] == nested[k]
    {
      var refs := Apply(outNested[n], byKey);
      forall i | 0 <= i < |nested[n]|
        ensures FirstDecides(s, repository, commit, declared, nested[n][i], refs[i])
      {
        NestedIsDeclared(nested, n, i);
        LookupIsFirst(s, repository, commit, declared, batch, resolved, byKey, nested[n][i]);
      }
      outNested := outNested[n := refs];
    }
  }

  lemma {:induction false} NestedIsDeclared(nested: seq<seq<Ref>>, n: nat, i: nat)
    requires n < |nested| && i < |nested[n]|
    ensures nested[n][i] in Flatten(nested)
    decreases |nested|
  {
    var m := |nested| - 1;
    if n < m {
      NestedIsDeclared(nested[..m], n, i);
    } else {
      assert nested[m][i] in nested[m];
    }
  }

  // ---- what the batch gives a position ------------------------------------------------------

  /** Resolution never changes where a reference points. */
  lemma PositionsKeepTheirKeys(s: Snapshot, repository: string, commit: string, declared: seq<Ref>, refs: seq<Ref>, out: seq<Ref>, i: nat)
    requires FromFirst(s, repository, commit, declared, refs, out) && i < |refs|
    ensures KeyOf(out[i]) == KeyOf(refs[i]) && out[i].repository == repository && out[i].commit == commit && out[i].snapshot == s.id
  {
    hide IsFirst, Found;
    assert FirstDecides(s, repository, commit, declared, refs[i], out[i]);
  }

  /* References with the same key declare the same confidence. */
  ghost predicate Agree(declared: seq<Ref>) {
    forall a, b | a in declared && b in declared && KeyOf(a) == KeyOf(b) :: a.confidence == b.confidence
  }

  lemma SameWhenAlone(s: Snapshot, repository: string, commit: string, a: Ref, b: Ref)
    requires KeyOf(a) == KeyOf(b)
    ensures Resolved(s, repository, commit, a) == Resolved(s, repository, commit, b)
       <==> (!Found(s, a) || Stated(a) == Stated(b))
  {
    assert forall c | c in s.references :: Matches(c, a) <==> Matches(c, b);
  }

  /** The batch gives a position what resolving that reference alone would give
      if and only if the graph knows no such reference, or the first declaration
      of the key states the same confidence. */
  lemma BatchIsTransparent(s: Snapshot, repository: string, commit: string, declared: seq<Ref>, refs: seq<Ref>, out: seq<Ref>, i: nat, f: Ref)
    requires FromFirst(s, repository, commit, declared, refs, out) && i < |refs|
    requires IsFirst(declared, f) && KeyOf(f) == KeyOf(refs[i])
    ensures out[i] == Resolved(s, repository, commit, refs[i]) <==> !Found(s, refs[i]) || Stated(f) == Stated(refs[i])
  {
    hide IsFirst, Found, Resolved;
    assert FirstDecides(s, repository, commit, declared, refs[i], out[i]);
    var g :| IsFirst(declared, g) && KeyOf(g) == KeyOf(refs[i]) && out[i] == Resolved(s, repository, commit, g);
    FirstIsUnique(declared, f, g);
    SameWhenAlone(s, repository, commit, refs[i], f);
  }

  /** So it does everywhere when equal keys agree on their confidence. */
  lemma AgreedBatchIsTransparent(s: Snapshot, repository: string, commit: string, declared: seq<Ref>, refs: seq<Ref>, out: seq<Ref>, i: nat)
    requires FromFirst(s, repository, commit, declared, refs, out) && Agree(declared) && i < |refs| && refs[i] in declared
    ensures out[i] == Resolved(s, repository, commit, refs[i])
  {
    hide Found, Resolved;
    assert FirstDecides(s, repository, commit, declared, refs[i], out[i]);
    var f :| IsFirst(declared, f) && KeyOf(f) == KeyOf(refs[i]) && out[i] == Resolved(s, repository, commit, f);
    assert f in declared;
    BatchIsTransparent(s, repository, commit, declared, refs, out, i, f);
  }

  /** And a later declaration loses its own confidence: after a reference that is
      stated as inferred, the same one stated as authoritative comes back as
      inferred, although alone it would be authoritative. */
  lemma FirstDeclarationDecides(s: Snapshot, path: string, out: seq<Ref>)
    requires Found(s, Ref("", "", path, "", "", "", ""))
    requires var a, b := Ref("", "", path, "", "", "inferred", ""), Ref("", "", path, "", "", AUTHORITATIVE, "");
             FromFirst(s, s.repository, s.commit, [a, b], [a, b], out)
    ensures out[1].confidence == "inferred"
    ensures Resolved(s, s.repository, s.commit, Ref("", "", path, "", "", AUTHORITATIVE, "")).confidence == AUTHORITATIVE
  {
    var a, b := Ref("", "", path, "", "", "inferred", ""), Ref("", "", path, "", "", AUTHORITATIVE, "");
    var c :| c in s.references && Matches(c, Ref("", "", path, "", "", "", ""));
    assert Matches(c, a) && Matches(c, b);
    assert [a, b][0] == a && [a, b][1] == b;
    assert FirstDecides(s, s.repository, s.commit, [a, b], b, out[1]);
    var g :| IsFirst([a, b], g) && KeyOf(g) == KeyOf(b) && out[1] == Resolved(s, s.repository, s.commit, g);
    FirstIsUnique([a, b], a, g);
  }
}
