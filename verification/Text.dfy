/** The operations on Go strings that the modelled code uses. A Go string is a
    sequence of bytes; here it is a `string` with one character a byte. */
module Text {
  datatype Option<+T> = None | Some(value: T)

  /* strings.HasSuffix; strings.HasPrefix is Dafny's `prefix <= s`. */
  predicate HasSuffix(s: string, suffix: string) {
    |suffix| <= |s| && s[|s| - |suffix|..] == suffix
  }

  function TrimPrefix(s: string, prefix: string): string {
    if prefix <= s then s[|prefix|..] else s
  }

  function TrimSuffix(s: string, suffix: string): string {
    if HasSuffix(s, suffix) then s[..|s| - |suffix|] else s
  }

  predicate OccursAt(s: string, pattern: string, i: int) {
    0 <= i <= |s| - |pattern| && s[i..i + |pattern|] == pattern
  }

  predicate Contains(s: string, pattern: string) {
    exists i | 0 <= i <= |s| :: OccursAt(s, pattern, i)
  }

  /* The first occurrence at or after `from`, or -1. */
  function IndexFrom(s: string, pattern: string, from: nat): (r: int)
    requires from <= |s| + 1
    ensures r == -1 || (from <= r && OccursAt(s, pattern, r))
    ensures forall j :: from <= j && (r < 0 || j < r) ==> !OccursAt(s, pattern, j)
    decreases |s| + 1 - from
  {
    if from > |s| then -1
    else if OccursAt(s, pattern, from) then from
    else IndexFrom(s, pattern, from + 1)
  }

  /* strings.Index */
  function Index(s: string, pattern: string): (r: int)
    ensures r == -1 || OccursAt(s, pattern, r)
    ensures forall j :: 0 <= j && (r < 0 || j < r) ==> !OccursAt(s, pattern, j)
  {
    IndexFrom(s, pattern, 0)
  }

  /* The last occurrence that starts before `until`, or -1. */
  function LastIndexBefore(s: string, pattern: string, until: nat): (r: int)
    ensures r == -1 || (r < until && OccursAt(s, pattern, r))
    ensures forall j :: r < j < until ==> !OccursAt(s, pattern, j)
  {
    if until == 0 then -1
    else if OccursAt(s, pattern, until - 1) then until - 1
    else LastIndexBefore(s, pattern, until - 1)
  }

  /* strings.LastIndex */
  function LastIndex(s: string, pattern: string): (r: int)
    ensures r == -1 || OccursAt(s, pattern, r)
    ensures forall j :: r < j ==> !OccursAt(s, pattern, j)
  {
    LastIndexBefore(s, pattern, |s| + 1)
  }

  /* strings.Cut: the text before and after the first separator. */
  function Cut(s: string, separator: string): Option<(string, string)> {
    var i := Index(s, separator);
    if i < 0 then None else Some((s[..i], s[i + |separator|..]))
  }

  lemma IndexIs(s: string, pattern: string, i: int)
    requires OccursAt(s, pattern, i)
    requires forall j :: 0 <= j < i ==> !OccursAt(s, pattern, j)
    ensures Index(s, pattern) == i
  {}

  lemma LastIndexIs(s: string, pattern: string, i: int)
    requires OccursAt(s, pattern, i)
    requires forall j :: i < j ==> !OccursAt(s, pattern, j)
    ensures LastIndex(s, pattern) == i
  {}

  lemma OccursChar(s: string, pattern: string, i: int, k: int)
    requires OccursAt(s, pattern, i) && 0 <= k < |pattern|
    ensures i + k < |s| && s[i + k] == pattern[k]
  {
    assert s[i..i + |pattern|][k] == s[i + k];
  }

  lemma OccursInside(before: string, pattern: string, after: string)
    ensures OccursAt(before + pattern + after, pattern, |before|)
    ensures (before + pattern + after)[|before| + |pattern|..] == after
    ensures (before + pattern + after)[..|before|] == before
  {
    var s := before + pattern + after;
    assert s[|before|..|before| + |pattern|] == pattern;
  }

  lemma CutJoins(s: string, separator: string)
    requires Cut(s, separator).Some?
    ensures var (before, after) := Cut(s, separator).value; s == before + separator + after
  {}

  lemma TrimJoins(s: string, suffix: string)
    requires HasSuffix(s, suffix)
    ensures s == TrimSuffix(s, suffix) + suffix
  {}

  lemma SuffixOf(before: string, suffix: string)
    ensures HasSuffix(before + suffix, suffix) && TrimSuffix(before + suffix, suffix) == before
  {
    assert (before + suffix)[|before|..] == suffix;
  }

  predicate IsHexDigit(c: char) {
    '0' <= c <= '9' || 'a' <= c <= 'f' || 'A' <= c <= 'F'
  }

  predicate IsHex(s: string, minimum: nat) {
    minimum <= |s| && forall i :: 0 <= i < |s| ==> IsHexDigit(s[i])
  }

  predicate IsSha256(s: string) {
    |s| == 64 && IsHex(s, 64)
  }

  const ZERO_DIGEST: string := seq(64, i => '0')

  /** SHA-256 in hexadecimal. Nothing is used of it except the shape of its
      result; a lemma that needs the absence of collisions says so. */
  type Hasher = h: string -> string | forall s :: IsSha256(h(s))
    ghost witness s => ZERO_DIGEST

  ghost predicate Injective(h: Hasher) {
    forall a, b :: h(a) == h(b) ==> a == b
  }

  /* unicode.IsSpace, on the three bytes of a wide character. */
  predicate IsWideSpace(a: char, b: char, c: char) {
    || (a == '\U{E1}' && b == '\U{9A}' && c == '\U{80}')
    || (a == '\U{E2}' && b == '\U{80}' && ('\U{80}' <= c <= '\U{8A}' || c in {'\U{A8}', '\U{A9}', '\U{AF}'}))
    || (a == '\U{E2}' && b == '\U{81}' && c == '\U{9F}')
    || (a == '\U{E3}' && b == '\U{80}' && c == '\U{80}')
  }

  predicate IsSpace(c: char) { c in {' ', '\t', '\n', '\r', '\U{0B}', '\U{0C}'} }

  /* The bytes are those of one white space character, in UTF-8. */
  predicate IsSpaceText(s: string) {
    || (|s| == 1 && IsSpace(s[0]))
    || (|s| == 2 && s[0] == '\U{C2}' && s[1] in {'\U{85}', '\U{A0}'})
    || (|s| == 3 && IsWideSpace(s[0], s[1], s[2]))
  }

  /* How many bytes of white space a string starts, or ends, with. */
  function SpaceAtStart(s: string): (n: nat)
    ensures n <= |s|
  {
    if |s| >= 1 && IsSpaceText(s[..1]) then 1
    else if |s| >= 2 && IsSpaceText(s[..2]) then 2
    else if |s| >= 3 && IsSpaceText(s[..3]) then 3
    else 0
  }

  function SpaceAtEnd(s: string): (n: nat)
    ensures n <= |s|
  {
    if |s| >= 1 && IsSpaceText(s[|s| - 1..]) then 1
    else if |s| >= 2 && IsSpaceText(s[|s| - 2..]) then 2
    else if |s| >= 3 && IsSpaceText(s[|s| - 3..]) then 3
    else 0
  }

  function TrimLeft(s: string): string {
    var n := SpaceAtStart(s);
    if n == 0 then s else TrimLeft(s[n..])
  }

  function TrimRight(s: string): string {
    var n := SpaceAtEnd(s);
    if n == 0 then s else TrimRight(s[..|s| - n])
  }

  /* strings.TrimSpace */
  function TrimSpace(s: string): string {
    TrimRight(TrimLeft(s))
  }

  /* Go's `<` on strings. */
  predicate Less(a: string, b: string) {
    b != "" && (a == "" || a[0] < b[0] || (a[0] == b[0] && Less(a[1..], b[1..])))
  }

  lemma {:induction false} LessTotal(a: string, b: string)
    ensures !(Less(a, b) && Less(b, a))
    ensures Less(a, b) || Less(b, a) <==> a != b
  {
    if a != "" && b != "" {
      LessTotal(a[1..], b[1..]);
      assert a == [a[0]] + a[1..] && b == [b[0]] + b[1..];
    }
  }

  lemma {:induction false} LessTransitive(a: string, b: string, c: string)
    requires Less(a, b) && Less(b, c)
    ensures Less(a, c)
  {
    if a != "" && b != "" && a[0] == b[0] == c[0] {
      LessTransitive(a[1..], b[1..], c[1..]);
    }
  }

  /* strings.Split by one character */
  function Split(s: string, c: char): (r: seq<string>)
    ensures r != []
  {
    if s == "" then [""]
    else
      var rest := Split(s[1..], c);
      if s[0] == c then [""] + rest else [[s[0]] + rest[0]] + rest[1..]
  }

  /* strings.Join by one character */
  function Join(parts: seq<string>, c: char): string
    requires parts != []
  {
    if |parts| == 1 then parts[0] else parts[0] + [c] + Join(parts[1..], c)
  }

  lemma JoinMore(first: string, parts: seq<string>, c: char)
    requires parts != []
    ensures Join([first] + parts, c) == first + [c] + Join(parts, c)
  {
    assert ([first] + parts)[1..] == parts;
  }

  lemma JoinLonger(x: char, parts: seq<string>, c: char)
    requires parts != []
    ensures Join([[x] + parts[0]] + parts[1..], c) == [x] + Join(parts, c)
  {
    if |parts| > 1 { JoinMore([x] + parts[0], parts[1..], c); }
  }

  lemma {:induction false} JoinSplit(s: string, c: char)
    ensures Join(Split(s, c), c) == s
  {
    hide Join;
    if s == "" {
      JoinOne("", c);
    } else {
      JoinSplit(s[1..], c);
      assert s == [s[0]] + s[1..];
      if s[0] == c {
        JoinMore("", Split(s[1..], c), c);
      } else {
        JoinLonger(s[0], Split(s[1..], c), c);
      }
    }
  }

  lemma JoinOne(part: string, c: char)
    ensures Join([part], c) == part
  {}

  lemma {:induction false} SplitConcat(a: string, c: char, b: string)
    ensures Split(a + [c] + b, c) == Split(a, c) + Split(b, c)
  {
    if a == "" {
      assert (a + [c] + b)[1..] == b;
    } else {
      assert (a + [c] + b)[1..] == a[1..] + [c] + b;
      SplitConcat(a[1..], c, b);
    }
  }

  lemma {:induction false} SplitSingle(a: string, c: char)
    requires c !in a
    ensures Split(a, c) == [a]
  {
    if a != "" {
      SplitSingle(a[1..], c);
      assert a == [a[0]] + a[1..];
    }
  }
}
