/** The Skill Invocations section of a Markdown session artifact
    (skill_invocation.go). */
module SkillSection {
  import opened Text

  function Lower(c: char): char { if 'A' <= c <= 'Z' then (c as int + 32) as char else c }

  /* strings.EqualFold, on ASCII */
  predicate EqualFold(a: string, b: string) {
    |a| == |b| && forall i | 0 <= i < |a| :: Lower(a[i]) == Lower(b[i])
  }

  predicate IsSection(line: string) { "## " <= TrimSpace(line) }
  predicate IsFence(line: string) { "```" <= TrimSpace(line) }

  predicate IsHeading(line: string) {
    IsSection(line) && EqualFold(TrimSpace(TrimPrefix(TrimSpace(line), "## ")), "skill invocations")
  }

  function JoinLines(lines: seq<string>): string { if lines == [] then "" else Join(lines, '\n') }

  // ---- where a section ends -------------------------------------------------------

  ghost function Fences(lines: seq<string>, lo: nat, hi: nat): (n: nat)
    requires lo <= hi <= |lines|
    ensures n <= hi - lo
    decreases hi
  {
    if lo == hi then 0 else Fences(lines, lo, hi - 1) + if IsFence(lines[hi - 1]) then 1 else 0
  }

  /* A section heading outside a fence, for the section that starts at `i`. */
  ghost predicate Stops(lines: seq<string>, i: nat, k: nat)
    requires i < k < |lines|
  {
    IsSection(lines[k]) && Fences(lines, i + 1, k) % 2 == 0
  }

  /** The section that starts at `i` runs to the next section heading outside a
      fence, or to the end. */
  ghost predicate EndsAt(lines: seq<string>, i: nat, end: nat) {
    && i < end <= |lines| && (end < |lines| ==> Stops(lines, i, end))
    && forall k | i < k < end :: !Stops(lines, i, k)
  }

  lemma EndIsUnique(lines: seq<string>, i: nat, a: nat, b: nat)
    requires EndsAt(lines, i, a) && EndsAt(lines, i, b)
    ensures a == b
  {
    hide IsFence, IsSection;
  }

  lemma {:induction false} FencesGrow(lines: seq<string>, lo: nat, a: nat, b: nat)
    requires lo <= a <= b <= |lines|
    ensures Fences(lines, lo, a) <= Fences(lines, lo, b)
    decreases b
  {
    hide IsFence, IsSection;
    if a < b { FencesGrow(lines, lo, a, b - 1); }
  }

  /* Lines `open` and `close` are the only fences of the section. */
  ghost predicate OnePair(lines: seq<string>, i: nat, end: nat, open: nat, close: nat) {
    && i < open < close < end <= |lines| && IsFence(lines[open]) && IsFence(lines[close])
    && forall k | i < k < end && k != open && k != close :: !IsFence(lines[k])
  }

  // ---- one section ------------------------------------------------------------------

  datatype Scan = Refused | Scanned(end: nat, open: nat, close: nat)

  lemma {:induction false} NoFences(lines: seq<string>, lo: nat, hi: nat)
    requires lo <= hi <= |lines| && forall k | lo <= k < hi :: !IsFence(lines[k])
    ensures Fences(lines, lo, hi) == 0
    decreases hi
  {
    hide IsFence, IsSection;
    if lo < hi { NoFences(lines, lo, hi - 1); }
  }

  lemma {:induction false} FencesAdd(lines: seq<string>, a: nat, b: nat, c: nat)
    requires a <= b <= c <= |lines|
    ensures Fences(lines, a, c) == Fences(lines, a, b) + Fences(lines, b, c)
    decreases c
  {
    hide IsFence, IsSection;
    if b < c { FencesAdd(lines, a, b, c - 1); }
  }

  lemma PairCounts(lines: seq<string>, i: nat, end: nat, open: nat, close: nat)
    requires OnePair(lines, i, end, open, close)
    ensures Fences(lines, i + 1, end) == 2
  {
    hide IsFence;
    NoFences(lines, i + 1, open);
    NoFences(lines, open + 1, close);
    NoFences(lines, close + 1, end);
    FencesAdd(lines, i + 1, open, end);
    FencesAdd(lines, open, open + 1, end);
    FencesAdd(lines, open + 1, close, end);
    FencesAdd(lines, close, close + 1, end);
    assert Fences(lines, open, open + 1) == 1 && Fences(lines, close, close + 1) == 1;
  }

  /* The state of the scan after `n` fences, `open` and `close` being the first two. */
  ghost predicate At(lines: seq<string>, i: nat, j: nat, n: nat, open: nat, close: nat) {
    && i < j <= |lines| && n == Fences(lines, i + 1, j)
    && (n == 0 ==> forall k | i < k < j :: !IsFence(lines[k]))
    && (n >= 1 ==> i < open < j && IsFence(lines[open]))
    && (n == 1 ==> forall k | i < k < j && k != open :: !IsFence(lines[k]))
    && (n >= 2 ==> open < close < j && IsFence(lines[close]))
    && (n == 2 ==> forall k | i < k < j && k != open && k != close :: !IsFence(lines[k]))
  }

  /** A section is scanned exactly when it holds one closed pair of fences. */
  method ScanSection(lines: seq<string>, i: nat) returns (r: Scan)
    requires i < |lines|
    ensures r.Scanned? ==> EndsAt(lines, i, r.end) && OnePair(lines, i, r.end, r.open, r.close)
    ensures r.Refused? ==> forall end: nat | EndsAt(lines, i, end) :: Fences(lines, i + 1, end) != 2
  {
    hide IsFence, IsSection;
    var j := i + 1;
    var inFence, blockCount := false, 0;
    var open: nat, close: nat := i, i;
    ghost var n := 0;
    while j < |lines|
      invariant At(lines, i, j, n, open, close) && n <= 3
      invariant inFence <==> n % 2 == 1
      invariant blockCount == n / 2
      invariant forall k | i < k < j :: !Stops(lines, i, k)
    {
      if !inFence && IsSection(lines[j]) {
        break;
      }
      assert !Stops(lines, i, j);
      if IsFence(lines[j]) {
        n := n + 1;
        if !inFence {
          inFence := true;
          if blockCount == 0 {
            open := j;
          }
        } else {
          inFence := false;
          blockCount := blockCount + 1;
          if blockCount > 1 {
            TooMany(lines, i, j + 1);
            return Refused;
          }
          close := j;
        }
      }
      j := j + 1;
    }
    assert EndsAt(lines, i, j);
    forall end: nat | EndsAt(lines, i, end) ensures end == j { EndIsUnique(lines, i, end, j); }
    if inFence || blockCount == 0 {
      return Refused;
    }
    return Scanned(j, open, close);
  }

  /* Past four fences a section cannot hold two, wherever it ends. */
  lemma TooMany(lines: seq<string>, i: nat, j: nat)
    requires i + 1 < j <= |lines| && Fences(lines, i + 1, j) == 4 && IsFence(lines[j - 1])
    requires forall k | i < k < j :: !Stops(lines, i, k)
    ensures forall end: nat | EndsAt(lines, i, end) :: Fences(lines, i + 1, end) != 2
  {
    hide IsFence, IsSection;
    forall end: nat | EndsAt(lines, i, end) ensures Fences(lines, i + 1, end) != 2 {
      if end >= j { FencesGrow(lines, i + 1, j, end); }
    }
  }

  // ---- the whole artifact ---------------------------------------------------------------

  datatype Extracted = Invalid | NoSection | Section(first: nat, end: nat, block: string)

  /* The first heading of the artifact; only the section's own body is read
     with its fences. */
  ghost predicate FirstHeading(lines: seq<string>, first: nat) {
    first < |lines| && IsHeading(lines[first]) && forall k | 0 <= k < first :: !IsHeading(lines[k])
  }

  /** What a valid section is: one heading that is followed by no second one
      after its end, one closed pair of fences, and between them a JSON array. */
  ghost predicate ValidSection(decodes: string -> bool, lines: seq<string>, first: nat, end: nat, block: string) {
    && FirstHeading(lines, first) && EndsAt(lines, first, end)
    && (forall k | end <= k < |lines| :: !IsHeading(lines[k]))
    && IsBlock(lines, first, end, block) && decodes(block)
  }

  /* The section has one pair of fences, with the block between them. */
  ghost predicate IsBlock(lines: seq<string>, first: nat, end: nat, block: string) {
    exists open: nat, close: nat :: OnePair(lines, first, end, open, close) && block == JoinLines(lines[open + 1..close])
  }

  ghost function Remainder(lines: seq<string>, r: Extracted): seq<string>
    requires r.Section? ==> r.first <= r.end <= |lines|
  {
    if r.Section? then lines[..r.first] + lines[r.end..] else lines
  }

  /* The lines before `i` are read: `kept` are those outside the section. */
  ghost predicate Reading(decodes: string -> bool, lines: seq<string>, r: Extracted, kept: seq<string>, i: nat) {
    i <= |lines| &&
    match r
    case Invalid => false
    case NoSection => kept == lines[..i] && forall k | 0 <= k < i :: !IsHeading(lines[k])
    case Section(first, end, block) =>
      && first < end <= i && kept == lines[..first] + lines[end..i]
      && FirstHeading(lines, first) && EndsAt(lines, first, end) && IsBlock(lines, first, end, block) && decodes(block)
      && forall k | end <= k < i :: !IsHeading(lines[k])
  }

  lemma ReadsLine(decodes: string -> bool, lines: seq<string>, r: Extracted, kept: seq<string>, i: nat)
    requires Reading(decodes, lines, r, kept, i) && i < |lines| && !IsHeading(lines[i])
    ensures Reading(decodes, lines, r, kept + [lines[i]], i + 1)
  {
    hide IsHeading, EndsAt, IsBlock, FirstHeading;
  }

  lemma ReadsSection(decodes: string -> bool, lines: seq<string>, kept: seq<string>, i: nat, end: nat, open: nat, close: nat)
    requires Reading(decodes, lines, NoSection, kept, i) && i < |lines| && IsHeading(lines[i])
    requires EndsAt(lines, i, end) && OnePair(lines, i, end, open, close) && decodes(JoinLines(lines[open + 1..close]))
    ensures Reading(decodes, lines, Section(i, end, JoinLines(lines[open + 1..close])), kept, end)
  {
    hide IsHeading, IsFence, IsSection, JoinLines;
    assert lines[end..end] == [];
  }

  lemma ReadsAll(decodes: string -> bool, lines: seq<string>, r: Extracted, kept: seq<string>)
    requires Reading(decodes, lines, r, kept, |lines|)
    ensures r.NoSection? ==> forall line | line in lines :: !IsHeading(line)
    ensures r.NoSection? ==> forall first: nat, end: nat, block :: !ValidSection(decodes, lines, first, end, block)
    ensures r.Section? ==> ValidSection(decodes, lines, r.first, r.end, r.block) && exists line | line in lines :: IsHeading(line)
    ensures !r.Invalid? && kept == Remainder(lines, r)
  {
    hide IsHeading, EndsAt, IsBlock;
    if r.NoSection? { NoHeading(decodes, lines); } else { assert lines[r.first] in lines; }
  }

  /** The scan of every artifact ends. It succeeds exactly without a heading, or
      with one valid section, and what remains are the lines with the slice from
      the heading to the end of that section taken out. */
  method ExtractSection(decodes: string -> bool, markdown: string) returns (r: Extracted, remainder: string)
    ensures r.NoSection? <==> forall line | line in Split(markdown, '\n') :: !IsHeading(line)
    ensures r.Section? ==> ValidSection(decodes, Split(markdown, '\n'), r.first, r.end, r.block)
    ensures !r.Section? ==> forall first: nat, end: nat, block :: !ValidSection(decodes, Split(markdown, '\n'), first, end, block)
    ensures !r.Invalid? ==> remainder == JoinLines(Remainder(Split(markdown, '\n'), r))
  {
    hide IsHeading, IsFence, IsSection, Reading, EndsAt, OnePair, ValidSection, JoinLines;
    var lines := Split(markdown, '\n');
    r, remainder := NoSection, "";
    var kept: seq<string> := [];
    var i := 0;
    ReadsNothing(decodes, lines);
    while i < |lines|
      invariant 0 <= i <= |lines| && Reading(decodes, lines, r, kept, i)
    {
      if IsHeading(lines[i]) {
        HeadingThere(decodes, lines, r, kept, i);
        if r.Section? {
          return Invalid, "";
        }
        var scan := ScanSection(lines, i);
        if scan.Refused? {
          NotOnePair(decodes, lines, i);
          return Invalid, "";
        }
        ScannedInside(lines, i, scan.end, scan.open, scan.close);
        var block := JoinLines(lines[scan.open + 1..scan.close]);
        if !decodes(block) {
          NotDecoded(decodes, lines, i, scan.end, scan.open, scan.close);
          return Invalid, "";
        }
        ReadsSection(decodes, lines, kept, i, scan.end, scan.open, scan.close);
        r := Section(i, scan.end, block);
        i := scan.end;
        continue;
      }
      ReadsLine(decodes, lines, r, kept, i);
      kept := kept + [lines[i]];
      i := i + 1;
    }
    ReadsAll(decodes, lines, r, kept);
    remainder := JoinLines(kept);
  }

  lemma ReadsNothing(decodes: string -> bool, lines: seq<string>)
    ensures Reading(decodes, lines, NoSection, [], 0)
  {}

  lemma ScannedInside(lines: seq<string>, i: nat, end: nat, open: nat, close: nat)
    requires EndsAt(lines, i, end) && OnePair(lines, i, end, open, close)
    ensures i < open < close < end <= |lines|
  {
    hide IsFence, IsSection;
  }

  /* A heading is the first one, or it makes the artifact invalid. */
  lemma HeadingThere(decodes: string -> bool, lines: seq<string>, r: Extracted, kept: seq<string>, i: nat)
    requires Reading(decodes, lines, r, kept, i) && i < |lines| && IsHeading(lines[i])
    ensures r.NoSection? ==> FirstHeading(lines, i)
    ensures r.Section? ==> forall first: nat, end: nat, block :: !ValidSection(decodes, lines, first, end, block)
    ensures !r.Invalid? && exists line | line in lines :: IsHeading(line)
  {
    hide IsHeading, EndsAt, IsBlock, ValidSection;
    assert lines[i] in lines;
    if r.Section? { SecondHeading(decodes, lines, r.first, r.end, i); }
  }

  lemma NoHeading(decodes: string -> bool, lines: seq<string>)
    requires forall k | 0 <= k < |lines| :: !IsHeading(lines[k])
    ensures forall first: nat, end: nat, block :: !ValidSection(decodes, lines, first, end, block)
  {
    hide IsHeading;
  }

  lemma SecondHeading(decodes: string -> bool, lines: seq<string>, first: nat, end: nat, k: nat)
    requires FirstHeading(lines, first) && EndsAt(lines, first, end) && end <= k < |lines| && IsHeading(lines[k])
    ensures forall f: nat, e: nat, block :: !ValidSection(decodes, lines, f, e, block)
  {
    hide IsHeading, IsBlock;
    forall f: nat, e: nat, block ensures !ValidSection(decodes, lines, f, e, block) {
      if FirstHeading(lines, f) && EndsAt(lines, f, e) {
        OneFirst(lines, first, f);
        EndIsUnique(lines, first, end, e);
      }
    }
  }

  lemma OneFirst(lines: seq<string>, a: nat, b: nat)
    requires FirstHeading(lines, a) && FirstHeading(lines, b)
    ensures a == b
  {
    hide IsFence, IsSection;
  }

  lemma NotOnePair(decodes: string -> bool, lines: seq<string>, first: nat)
    requires FirstHeading(lines, first) && forall end: nat | EndsAt(lines, first, end) :: Fences(lines, first + 1, end) != 2
    ensures forall f: nat, e: nat, block :: !ValidSection(decodes, lines, f, e, block)
  {
    hide IsHeading, IsFence, FirstHeading, EndsAt, JoinLines;
    forall f: nat, e: nat, open: nat, close: nat | FirstHeading(lines, f) && EndsAt(lines, f, e) ensures !OnePair(lines, f, e, open, close) {
      OneFirst(lines, first, f);
      if OnePair(lines, f, e, open, close) { PairCounts(lines, f, e, open, close); }
    }
  }

  lemma NotDecoded(decodes: string -> bool, lines: seq<string>, first: nat, end: nat, open: nat, close: nat)
    requires FirstHeading(lines, first) && EndsAt(lines, first, end) && OnePair(lines, first, end, open, close)
    requires !decodes(JoinLines(lines[open + 1..close]))
    ensures forall f: nat, e: nat, block :: !ValidSection(decodes, lines, f, e, block)
  {
    hide IsHeading, IsFence, JoinLines;
    forall f: nat, e: nat, o: nat, c: nat | FirstHeading(lines, f) && EndsAt(lines, f, e) && OnePair(lines, f, e, o, c) ensures o == open && c == close {
      OneFirst(lines, first, f);
      EndIsUnique(lines, first, end, e);
    }
  }

  /** Putting the removed slice back restores the artifact. */
  lemma SliceRestores(markdown: string, first: nat, end: nat)
    requires first < end <= |Split(markdown, '\n')|
    ensures var lines := Split(markdown, '\n');
            Join(lines[..first] + lines[first..end] + lines[end..], '\n') == markdown
  {
    var lines := Split(markdown, '\n');
    assert lines[..first] + lines[first..end] + lines[end..] == lines;
    JoinSplit(markdown, '\n');
  }
}
