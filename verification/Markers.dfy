/** The texts by which the mirror recognises what it wrote: the diary marker at
    the end of an Issue, the correction marker at the end of a comment, and the
    typed remote revisions (rest.go, contracts.go). */
module Markers {
  import opened Text
  import opened Decimal

  const DIARY_MARKER := "<!-- syntroph-idempotency-key:"
  const CORRECTION_MARKER := "<!-- syntroph-remote-correction:key="
  const LOCAL_FIELD := ";local="
  const PREDECESSOR_FIELD := ";predecessor="
  const MARKER_END := " -->\n"

  predicate OneLine(s: string) { '\n' !in s }

  // ---- diary marker ----------------------------------------------------

  function DiaryMarker(key: string): string { DIARY_MARKER + key + " -->" }

  function DiaryBody(content: string, key: string): string {
    content + "\n\n" + DiaryMarker(key) + "\n"
  }

  predicate HasDiaryMarker(body: string, key: string) {
    Contains(body, DiaryMarker(key))
  }

  function StripDiaryMarker(body: string, key: string): Option<string> {
    var marker := "\n\n" + DiaryMarker(key) + "\n";
    if HasSuffix(body, marker) then Some(TrimSuffix(body, marker)) else None
  }

  lemma StripDiaryBody(content: string, key: string)
    ensures StripDiaryMarker(DiaryBody(content, key), key) == Some(content)
  {
    var marker := "\n\n" + DiaryMarker(key) + "\n";
    assert DiaryBody(content, key) == content + marker;
  }

  lemma DiaryBodyOfStripped(body: string, key: string)
    requires StripDiaryMarker(body, key).Some?
    ensures DiaryBody(StripDiaryMarker(body, key).value, key) == body
  {
    var marker := "\n\n" + DiaryMarker(key) + "\n";
    var content := body[..|body| - |marker|];
    assert body == content + body[|body| - |marker|..];
    assert DiaryBody(content, key) == content + marker;
  }

  // ---- correction marker -----------------------------------------------

  datatype CorrectionMarker = CorrectionMarker(content: string, localHash: string, predecessor: string)

  function CorrectionPrefix(key: string): string {
    "\n\n" + (CORRECTION_MARKER + key + LOCAL_FIELD)
  }

  function CorrectionBody(hash: Hasher, content: string, key: string, predecessor: string): string {
    content + CorrectionPrefix(key) + (Metadata(hash(content), predecessor) + MARKER_END)
  }

  /* What stands between the correction prefix and the end of the marker. */
  function Metadata(digest: string, predecessor: string): string {
    digest + PREDECESSOR_FIELD + predecessor
  }

  function ParseCorrection(hash: Hasher, body: string, key: string): Option<CorrectionMarker> {
    var prefix := CorrectionPrefix(key);
    var i := LastIndex(body, prefix);
    if i < 0 || !HasSuffix(body, MARKER_END) then None
    else
      var metadata := TrimSuffix(body[i + |prefix|..], MARKER_END);
      match Cut(metadata, PREDECESSOR_FIELD)
      case None => None
      case Some((localHash, predecessor)) =>
        var content := body[..i];
        if predecessor == "" || localHash != hash(content) then None
        else Some(CorrectionMarker(content, localHash, predecessor))
  }

  /** When an opening is followed by one line and a newline, it is the last
      occurrence of itself. */
  lemma LastOpening(content: string, opening: string, line: string)
    requires 2 < |opening| && opening[..2] == "\n\n" && OneLine(opening[2..]) && OneLine(line)
    ensures LastIndex(content + opening + (line + "\n"), opening) == |content|
  {
    var body := content + opening + (line + "\n");
    forall j | |content| < j ensures !OccursAt(body, opening, j) {
      assert OneLine(opening[2..] + line);
      var k := j + 1 - |content| - 2;
      if j + 1 < |body| - 1 {
        assert body[j + 1] == (opening[2..] + line)[k];
      }
      if OccursAt(body, opening, j) {
        OccursChar(body, opening, j, 1);
      }
    }
    OccursInside(content, opening, line + "\n");
    LastIndexIs(body, opening, |content|);
  }

  lemma CutHexField(digest: string, rest: string)
    requires IsHex(digest, 0)
    ensures Cut(digest + PREDECESSOR_FIELD + rest, PREDECESSOR_FIELD) == Some((digest, rest))
  {
    var s := digest + PREDECESSOR_FIELD + rest;
    forall j | 0 <= j < |digest| ensures !OccursAt(s, PREDECESSOR_FIELD, j) {
      assert s[j] == digest[j];
      if OccursAt(s, PREDECESSOR_FIELD, j) {
        OccursChar(s, PREDECESSOR_FIELD, j, 0);
      }
    }
    OccursInside(digest, PREDECESSOR_FIELD, rest);
    IndexIs(s, PREDECESSOR_FIELD, |digest|);
  }

  lemma CorrectionShape(hash: Hasher, content: string, key: string, predecessor: string)
    ensures HasSuffix(CorrectionBody(hash, content, key, predecessor), MARKER_END)
    ensures Metadata(hash(content), predecessor) + MARKER_END == Metadata(hash(content), predecessor) + " -->" + "\n"
  {
    hide CorrectionPrefix, Metadata;
    var metadata := Metadata(hash(content), predecessor);
    var start := content + CorrectionPrefix(key) + metadata;
    assert CorrectionBody(hash, content, key, predecessor) == start + MARKER_END;
    SuffixOf(start, MARKER_END);
    assert MARKER_END == " -->" + "\n";
  }

  lemma OneLinePieces(key: string, digest: string, predecessor: string)
    requires OneLine(key) && IsHex(digest, 0) && OneLine(predecessor)
    ensures OneLine(CORRECTION_MARKER + key + LOCAL_FIELD)
    ensures OneLine(Metadata(digest, predecessor) + " -->")
  {
    assert OneLine(CORRECTION_MARKER) && OneLine(LOCAL_FIELD) && OneLine(PREDECESSOR_FIELD) && OneLine(" -->");
  }

  lemma ParsePrintedCorrection(hash: Hasher, content: string, key: string, predecessor: string)
    requires OneLine(key) && OneLine(predecessor) && predecessor != ""
    ensures ParseCorrection(hash, CorrectionBody(hash, content, key, predecessor), key)
         == Some(CorrectionMarker(content, hash(content), predecessor))
  {
    var prefix := CorrectionPrefix(key);
    var metadata := Metadata(hash(content), predecessor);
    assert IsSha256(hash(content));
    CorrectionShape(hash, content, key, predecessor);
    OneLinePieces(key, hash(content), predecessor);
    assert prefix[2..] == CORRECTION_MARKER + key + LOCAL_FIELD;
    LastOpening(content, prefix, metadata + " -->");
    OccursInside(content, prefix, metadata + MARKER_END);
    SuffixOf(metadata, MARKER_END);
    CutHexField(hash(content), predecessor);
  }

  /** The suffix of a body that opens a correction lies after the opening. */
  lemma SuffixAfterPrefix(body: string, key: string, i: int)
    requires OccursAt(body, CorrectionPrefix(key), i) && HasSuffix(body, MARKER_END)
    ensures var tail := body[i + |CorrectionPrefix(key)|..];
            HasSuffix(tail, MARKER_END) && body == body[..i] + CorrectionPrefix(key) + tail
  {
    var prefix := CorrectionPrefix(key);
    var tail := body[i + |prefix|..];
    var at := i + |prefix| - 1;
    OccursChar(body, prefix, i, |prefix| - 1);
    assert body[at] == '=';
    forall k | 0 <= k < |MARKER_END| ensures body[|body| - |MARKER_END| + k] == MARKER_END[k] {
      assert body[|body| - |MARKER_END|..][k] == MARKER_END[k];
    }
    assert at < |body| - |MARKER_END|;
    assert tail[|tail| - |MARKER_END|..] == body[|body| - |MARKER_END|..];
  }

  lemma PrintParsedCorrection(hash: Hasher, body: string, key: string)
    requires ParseCorrection(hash, body, key).Some?
    ensures var m := ParseCorrection(hash, body, key).value;
            m.predecessor != "" && m.localHash == hash(m.content)
            && CorrectionBody(hash, m.content, key, m.predecessor) == body
  {
    var m := ParseCorrection(hash, body, key).value;
    var prefix := CorrectionPrefix(key);
    var i := LastIndex(body, prefix);
    SuffixAfterPrefix(body, key, i);
    hide CorrectionPrefix;
    var tail := body[i + |prefix|..];
    TrimJoins(tail, MARKER_END);
    CutJoins(TrimSuffix(tail, MARKER_END), PREDECESSOR_FIELD);
    assert tail == Metadata(m.localHash, m.predecessor) + MARKER_END;
  }

  // ---- typed revisions -------------------------------------------------

  predicate IsTimeText(s: string) {
    s != "" && forall c | c in s :: IsDigit(c) || c in {'-', ':', '.', 'T', 'Z'}
  }

  /** An instant, as time.RFC3339Nano prints it in UTC. */
  type Instant = s: string | IsTimeText(s) witness "Z"

  const ISSUE := "issue"
  const COMMENT := "comment"

  function Revision(hash: Hasher, kind: string, id: int, updatedAt: Instant, body: string): string {
    kind + ":" + Itoa(id) + ":" + updatedAt + ":" + hash(body)
  }

  /* RemoteRevision.Validate, on the part after the kind. */
  predicate ValidTypedPart(part: string) {
    var first, last := Index(part, ":"), LastIndex(part, ":");
    && 0 < first && first + 1 < last && last != |part| - 1
    && IsSha256(part[last + 1..])
  }

  predicate ValidRevision(v: string) {
    if "git:" <= v then IsHex(v[4..], 7)
    else if "issue:" <= v then ValidTypedPart(v[6..])
    else if "comment:" <= v then ValidTypedPart(v[8..])
    else false
  }

  function RevisionId(revision: string, kind: string): Option<string> {
    var prefix := kind + ":";
    if !(prefix <= revision) then None
    else
      match Cut(TrimPrefix(revision, prefix), ":")
      case None => None
      case Some((id, _)) => if id == "" then None else Some(id)
  }

  lemma ColonPositions(id: string, time: string, digest: string)
    requires ':' !in id && ':' !in digest && id != "" && time != ""
    ensures var part := id + ":" + time + ":" + digest;
            && Index(part, ":") == |id|
            && LastIndex(part, ":") == |id| + 1 + |time|
            && part[..|id|] == id && part[|id| + 1..|id| + 1 + |time|] == time
            && part[|id| + 1 + |time| + 1..] == digest
  {
    var part := id + ":" + time + ":" + digest;
    var last := |id| + 1 + |time|;
    forall j | 0 <= j < |id| ensures !OccursAt(part, ":", j) {
      assert part[j] == id[j];
    }
    forall j | last < j ensures !OccursAt(part, ":", j) {
      if last < j < |part| {
        assert part[j] == digest[j - last - 1];
      }
    }
    assert part[|id|..|id| + 1] == ":" && part[last..last + 1] == ":";
    IndexIs(part, ":", |id|);
    LastIndexIs(part, ":", last);
  }

  lemma RevisionShape(hash: Hasher, kind: string, id: int, updatedAt: Instant, body: string)
    ensures Revision(hash, kind, id, updatedAt, body)
         == (kind + ":") + (Itoa(id) + ":" + updatedAt + ":" + hash(body))
    ensures ':' !in Itoa(id) && ':' !in hash(body)
  {
    assert IsSha256(hash(body));
    assert !IsDigit(':');
  }

  lemma RevisionIsOneLine(hash: Hasher, kind: string, id: int, updatedAt: Instant, body: string)
    requires OneLine(kind)
    ensures OneLine(Revision(hash, kind, id, updatedAt, body))
  {
    assert IsSha256(hash(body));
    assert !IsDigit('\n');
    assert OneLine(Itoa(id)) && OneLine(updatedAt) && OneLine(hash(body)) && OneLine(":");
  }

  lemma PartIsValid(hash: Hasher, id: int, updatedAt: Instant, body: string)
    ensures ValidTypedPart(Itoa(id) + ":" + updatedAt + ":" + hash(body))
  {
    hide IsSha256;
    assert ':' !in Itoa(id) by { assert !IsDigit(':'); }
    DigestIsPlain(hash(body));
    ColonPositions(Itoa(id), updatedAt, hash(body));
  }

  lemma DigestIsPlain(digest: string)
    requires IsSha256(digest)
    ensures ':' !in digest && digest != ""
  {}

  lemma TypedPartIsValid(kind: string, part: string)
    requires (kind == ISSUE || kind == COMMENT) && ValidTypedPart(part)
    ensures ValidRevision((kind + ":") + part)
  {
    hide ValidTypedPart;
    var r := (kind + ":") + part;
    assert r[|kind| + 1..] == part && r[0] == kind[0];
  }

  lemma IdOfPart(kind: string, id: string, time: string, digest: string)
    requires id != "" && ':' !in id
    ensures RevisionId((kind + ":") + (id + ":" + time + ":" + digest), kind) == Some(id)
  {
    var part := id + ":" + time + ":" + digest;
    assert ((kind + ":") + part)[|kind + ":"|..] == part;
    forall j | 0 <= j < |id| ensures !OccursAt(part, ":", j) { assert part[j] == id[j]; }
    assert part[|id|..|id| + 1] == ":" && part[..|id|] == id;
    IndexIs(part, ":", |id|);
  }

  lemma PrintedRevisionIsValid(hash: Hasher, kind: string, id: int, updatedAt: Instant, body: string)
    requires kind == ISSUE || kind == COMMENT
    ensures var r := Revision(hash, kind, id, updatedAt, body);
            ValidRevision(r) && RevisionId(r, kind) == Some(Itoa(id)) && OneLine(r)
  {
    hide Revision, ValidRevision, ValidTypedPart, RevisionId, IsSha256;
    assert ':' !in Itoa(id) by { assert !IsDigit(':'); }
    RevisionShape(hash, kind, id, updatedAt, body);
    RevisionIsOneLine(hash, kind, id, updatedAt, body);
    PartIsValid(hash, id, updatedAt, body);
    TypedPartIsValid(kind, Itoa(id) + ":" + updatedAt + ":" + hash(body));
    IdOfPart(kind, Itoa(id), updatedAt, hash(body));
  }

  /** A revision determines the document, its instant and the hash of its text. */
  lemma RevisionInjective(hash: Hasher, kind: string, a: int, ta: Instant, ba: string, b: int, tb: Instant, bb: string)
    requires Revision(hash, kind, a, ta, ba) == Revision(hash, kind, b, tb, bb)
    ensures a == b && ta == tb && hash(ba) == hash(bb)
  {
    RevisionShape(hash, kind, a, ta, ba);
    RevisionShape(hash, kind, b, tb, bb);
    var r := Revision(hash, kind, a, ta, ba);
    var pa, pb := Itoa(a) + ":" + ta + ":" + hash(ba), Itoa(b) + ":" + tb + ":" + hash(bb);
    assert r[|kind| + 1..] == pa && r[|kind| + 1..] == pb;
    ColonPositions(Itoa(a), ta, hash(ba));
    ColonPositions(Itoa(b), tb, hash(bb));
    ItoaInjective(a, b);
  }

  // ---- what text can carry a marker --------------------------------------

  predicate IsKey(key: string) { IsSha256(key) }

  /** A person's text: it carries no diary marker and opens no correction. */
  ghost predicate Unmarked(text: string) {
    forall key | IsKey(key) :: !HasDiaryMarker(text, key) && !Contains(text, CorrectionPrefix(key))
  }

  lemma KeyIsOneLine(key: string)
    requires IsKey(key)
    ensures OneLine(key)
  {
    assert !IsHexDigit('\n');
  }

  lemma DiaryMarkerIsOneLine(key: string)
    requires IsKey(key)
    ensures OneLine(DiaryMarker(key)) && |DiaryMarker(key)| == |DIARY_MARKER| + 68
  {
    KeyIsOneLine(key);
    assert OneLine(DIARY_MARKER) && OneLine(" -->");
  }

  lemma NoOtherMarker(content: string, mine: string, pattern: string, i: nat)
    requires |mine| == |pattern| > 0 && mine != pattern && OneLine(mine) && OneLine(pattern)
    requires !Contains(content, pattern)
    ensures !OccursAt(content + "\n\n" + mine + "\n", pattern, i)
  {
    var body := content + "\n\n" + mine + "\n";
    assert body[|content|] == '\n' && body[|content| + 1] == '\n' && body[|body| - 1] == '\n';
    if i + |pattern| <= |content| {
      assert content[i..i + |pattern|] == body[i..i + |pattern|];
      assert !OccursAt(content, pattern, i);
    } else if i == |content| + 2 {
      assert body[i..i + |pattern|] == mine;
    } else if i <= |content| + 3 {
      // The window covers one of the three newlines.
      var k := if i <= |content| then |content| - i else if i == |content| + 1 then 0 else |pattern| - 1;
      assert pattern[k] in pattern;
      if OccursAt(body, pattern, i) {
        OccursChar(body, pattern, i, k);
      }
    }
  }

  lemma DiaryMarkerInjective(key: string, other: string)
    requires DiaryMarker(key) == DiaryMarker(other)
    ensures key == other
  {
    var n := |DIARY_MARKER|;
    assert DiaryMarker(key)[n..] == key + " -->" && DiaryMarker(other)[n..] == other + " -->";
    SuffixOf(key, " -->");
    SuffixOf(other, " -->");
  }

  /** A printed diary body carries the marker of its own key and of no other. */
  lemma DiaryBodyMarks(content: string, key: string, other: string)
    requires IsKey(key) && IsKey(other) && Unmarked(content)
    ensures HasDiaryMarker(DiaryBody(content, key), other) <==> other == key
  {
    var body := DiaryBody(content, key);
    var mine, pattern := DiaryMarker(key), DiaryMarker(other);
    DiaryMarkerIsOneLine(key);
    DiaryMarkerIsOneLine(other);
    assert body == content + "\n\n" + mine + "\n";
    if other == key {
      OccursInside(content + "\n\n", mine, "\n");
    } else {
      if mine == pattern { DiaryMarkerInjective(key, other); }
      assert !HasDiaryMarker(content, other);
      forall i | 0 <= i <= |body| ensures !OccursAt(body, pattern, i) {
        NoOtherMarker(content, mine, pattern, i);
      }
    }
  }

  lemma PrefixShape(key: string)
    requires IsKey(key)
    ensures var prefix := CorrectionPrefix(key);
            2 < |prefix| == |CORRECTION_MARKER| + 73 && prefix[..2] == "\n\n" && OneLine(prefix[2..])
  {
    KeyIsOneLine(key);
    assert OneLine(CORRECTION_MARKER) && OneLine(LOCAL_FIELD);
    assert CorrectionPrefix(key)[2..] == CORRECTION_MARKER + key + LOCAL_FIELD;
  }

  lemma PrefixInjective(key: string, other: string)
    requires CorrectionPrefix(key) == CorrectionPrefix(other)
    ensures key == other
  {
    var n := 2 + |CORRECTION_MARKER|;
    assert CorrectionPrefix(key)[n..] == key + LOCAL_FIELD && CorrectionPrefix(other)[n..] == other + LOCAL_FIELD;
    SuffixOf(key, LOCAL_FIELD);
    SuffixOf(other, LOCAL_FIELD);
  }

  /** A printed correction parses under its own key and under no other. */
  lemma CorrectionBodyMarks(hash: Hasher, content: string, key: string, predecessor: string, other: string)
    requires IsKey(key) && IsKey(other) && other != key && Unmarked(content) && OneLine(predecessor)
    ensures ParseCorrection(hash, CorrectionBody(hash, content, key, predecessor), other).None?
  {
    var body := CorrectionBody(hash, content, key, predecessor);
    var mine, pattern := CorrectionPrefix(key), CorrectionPrefix(other);
    var rest := Metadata(hash(content), predecessor) + " -->";
    PrefixShape(key);
    PrefixShape(other);
    if mine == pattern { PrefixInjective(key, other); }
    KeyIsOneLine(key);
    assert IsSha256(hash(content));
    OneLinePieces(key, hash(content), predecessor);
    CorrectionShape(hash, content, key, predecessor);
    forall i | 0 <= i ensures !OccursAt(body, pattern, i) {
      NoOtherOpening(content, mine, pattern, rest, i);
    }
  }

  lemma NoOtherOpening(content: string, mine: string, pattern: string, rest: string, i: nat)
    requires |mine| == |pattern| > 2 && mine != pattern
    requires mine[..2] == "\n\n" && pattern[..2] == "\n\n" && OneLine(mine[2..]) && OneLine(pattern[2..]) && OneLine(rest)
    requires !Contains(content, pattern)
    ensures !OccursAt(content + mine + (rest + "\n"), pattern, i)
  {
    var body := content + mine + (rest + "\n");
    assert body[|content|] == mine[0] && body[|content| + 1] == mine[1];
    assert forall k :: 2 <= k < |pattern| ==> pattern[k] == pattern[2..][k - 2];
    if i + |pattern| <= |content| {
      assert content[i..i + |pattern|] == body[i..i + |pattern|];
      assert !OccursAt(content, pattern, i);
    } else if i < |content| {
      var d := |content| - i;
      assert pattern[d] == '\n' ==> d == 1;
      assert d + 1 < |pattern| ==> pattern[d + 1] != '\n' || d == 0;
      if OccursAt(body, pattern, i) {
        OccursChar(body, pattern, i, d);
        OccursChar(body, pattern, i, 2);
      }
    } else if i == |content| {
      assert body[i..i + |pattern|] == mine;
    } else {
      assert OneLine(mine[2..] + rest);
      if i + 1 < |body| - 1 {
        assert body[i + 1] == (mine[2..] + rest)[i + 1 - |content| - 2];
      }
      if OccursAt(body, pattern, i) {
        OccursChar(body, pattern, i, 1);
      }
    }
  }
}
