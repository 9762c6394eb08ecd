/** The marker by which the Wiki mirror recognises its own page (wiki.go). */
module WikiPage {
  import opened Text
  import opened Markers

  const FENCE := "---\n"
  const CLOSE := "\n---"

  function KeyLine(key: string): string { "idempotency_key: " + key }
  function MarkerLine(key: string): string { "syntroph_remote_binding: " + key }

  /* strings.ReplaceAll(content, "\r\n", "\n") */
  function Unix(s: string): string
    decreases |s|
  {
    if s == "" then ""
    else if |s| >= 2 && s[0] == '\r' && s[1] == '\n' then "\n" + Unix(s[2..])
    else [s[0]] + Unix(s[1..])
  }

  predicate HasLine(text: string, want: string) {
    exists line | line in Split(text, '\n') :: TrimSpace(line) == want
  }

  /* The text between the opening fence and the first closing one. */
  function Frontmatter(unix: string): Option<string> {
    if !(FENCE <= unix) then None
    else
      var end := Index(unix[|FENCE|..], CLOSE);
      if end < 0 then None else Some(unix[|FENCE|..|FENCE| + end])
  }

  predicate HasExactFrontmatterMarker(content: string, key: string) {
    var frontmatter := Frontmatter(Unix(content));
    frontmatter.Some? && HasLine(frontmatter.value, KeyLine(key)) && HasLine(frontmatter.value, MarkerLine(key))
  }

  /* The page content that wikiPage derives from a diary, or its refusal. */
  function PageContent(content: string, key: string): Option<string> {
    if !Contains(content, KeyLine(key)) then None
    else if Contains(content, MarkerLine(key)) then Some(content)
    else
      var break_ := Index(content, "\n");
      if break_ < 0 || TrimSpace(content[..break_]) != "---" then None
      else Some(content[..break_ + 1] + MarkerLine(key) + "\n" + content[break_ + 1..])
  }

  /** The diary's frontmatter is closed, not at once, and holds its key. */
  predicate KeyInFrontmatter(content: string, key: string) {
    var unix := Unix(content);
    var frontmatter := Frontmatter(unix);
    frontmatter.Some? && !("---" <= unix[|FENCE|..]) && HasLine(frontmatter.value, KeyLine(key))
  }

  // ---- line ends ---------------------------------------------------------------------

  lemma {:induction false} UnixConcat(a: string, b: string)
    requires a == "" || a[|a| - 1] != '\r'
    ensures Unix(a + b) == Unix(a) + Unix(b)
    decreases |a|
  {
    if a == "" {
      assert a + b == b;
    } else {
      var k := if |a| >= 2 && a[0] == '\r' && a[1] == '\n' then 2 else 1;
      assert (a + b)[k..] == a[k..] + b;
      UnixConcat(a[k..], b);
    }
  }

  lemma {:induction false} UnixPlain(a: string)
    requires '\r' !in a
    ensures Unix(a) == a
  {
    if a != "" {
      UnixPlain(a[1..]);
      assert a == [a[0]] + a[1..];
    }
  }

  /* A line keeps its only newline at its end. */
  lemma {:induction false} UnixLine(line: string)
    requires '\n' !in line
    ensures var u := Unix(line + "\n");
            u != "" && u[|u| - 1] == '\n' && '\n' !in u[..|u| - 1]
  {
    if line == "" {
      assert line + "\n" == "\n";
    } else {
      var rest := line[1..];
      assert (line + "\n")[1..] == rest + "\n";
      UnixLine(rest);
      if line[0] == '\r' && rest == "" {
        assert line + "\n" == "\r\n";
        assert Unix(line + "\n") == "\n" + Unix("");
      } else {
        var u := Unix(rest + "\n");
        assert (line + "\n")[1] != '\n' || line[0] != '\r';
        assert Unix(line + "\n") == [line[0]] + u;
        assert ([line[0]] + u)[..|u|] == [line[0]] + u[..|u| - 1];
      }
    }
  }

  // ---- the marker line ------------------------------------------------------------------

  lemma MarkerIsPlain(key: string)
    requires IsKey(key)
    ensures var m := MarkerLine(key);
            '\n' !in m && '\r' !in m && m != "" && TrimSpace(m) == m && m != KeyLine(key)
  {
    hide TrimSpace;
    var m := MarkerLine(key);
    assert !IsHexDigit('\n') && !IsHexDigit('\r');
    assert m[0] == 's' && KeyLine(key)[0] == 'i';
    assert m[|m| - 1] == key[|key| - 1] && IsHexDigit(key[|key| - 1]);
    PlainIsTrimmed(m);
  }

  /* A text of ASCII characters at both ends has only ASCII white space there. */
  lemma PlainIsTrimmed(s: string)
    requires s != "" && s[0] < '\U{80}' && s[|s| - 1] < '\U{80}' && !IsSpace(s[0]) && !IsSpace(s[|s| - 1])
    ensures TrimSpace(s) == s
  {
    NoSpaceAtStart(s);
    NoSpaceAtEnd(s);
  }

  lemma NoSpaceAtStart(s: string)
    requires s != "" && s[0] < '\U{80}' && !IsSpace(s[0])
    ensures SpaceAtStart(s) == 0
  {}

  lemma NoSpaceAtEnd(s: string)
    requires s != "" && s[|s| - 1] < '\U{80}' && !IsSpace(s[|s| - 1])
    ensures SpaceAtEnd(s) == 0
  {}

  lemma FenceLine(line: string, rest: string)
    requires line != "" && line[|line| - 1] == '\n' && '\n' !in line[..|line| - 1]
    ensures FENCE <= line + rest <==> line == FENCE
  {
    assert |line| > 4 ==> line[..|line| - 1][3] == (line + rest)[3];
    assert line[|line| - 1] == (line + rest)[|line| - 1];
    assert |line| == 4 ==> (line + rest)[..4] == line;
  }

  lemma NoneInMarker(marker: string, body: string, j: nat)
    requires '\n' !in marker && j < |marker|
    ensures !OccursAt(marker + "\n" + body, CLOSE, j)
  {
    var s := marker + "\n" + body;
    assert s[j] == marker[j];
    if OccursAt(s, CLOSE, j) { OccursChar(s, CLOSE, j, 0); }
  }

  lemma AtMarkerEnd(marker: string, body: string)
    ensures OccursAt(marker + "\n" + body, CLOSE, |marker|) <==> "---" <= body
  {
    var s := marker + "\n" + body;
    if |body| >= 3 {
      assert s[|marker|..|marker| + 4] == "\n" + body[..3];
      assert body[..3] == s[|marker|..|marker| + 4][1..] && CLOSE[1..] == "---";
    }
  }

  lemma AfterMarker(marker: string, body: string, j: nat)
    ensures OccursAt(marker + "\n" + body, CLOSE, |marker| + 1 + j) <==> OccursAt(body, CLOSE, j)
  {
    var s := marker + "\n" + body;
    if j + 4 <= |body| {
      assert s[|marker| + 1 + j..|marker| + 1 + j + 4] == body[j..j + 4];
    }
  }

  /* Nowhere before `until` in the body, and not at once. */
  lemma NoneBefore(marker: string, body: string, until: nat, j: nat)
    requires '\n' !in marker && !("---" <= body)
    requires forall i | 0 <= i < until :: !OccursAt(body, CLOSE, i)
    requires j < |marker| + 1 + until
    ensures !OccursAt(marker + "\n" + body, CLOSE, j)
  {
    if j < |marker| {
      NoneInMarker(marker, body, j);
    } else if j == |marker| {
      AtMarkerEnd(marker, body);
    } else {
      AfterMarker(marker, body, j - |marker| - 1);
    }
  }

  lemma MarkedIndex(marker: string, body: string)
    requires '\n' !in marker
    ensures var end := Index(body, CLOSE);
            Index(marker + "\n" + body, CLOSE)
            == if "---" <= body then |marker| else if end < 0 then -1 else |marker| + 1 + end
  {
    hide OccursAt;
    var s, end := marker + "\n" + body, Index(body, CLOSE);
    if "---" <= body {
      AtMarkerEnd(marker, body);
      forall j | 0 <= j < |marker| ensures !OccursAt(s, CLOSE, j) { NoneInMarker(marker, body, j); }
      IndexIs(s, CLOSE, |marker|);
    } else if end >= 0 {
      AfterMarker(marker, body, end);
      forall j | 0 <= j < |marker| + 1 + end ensures !OccursAt(s, CLOSE, j) { NoneBefore(marker, body, end, j); }
      IndexIs(s, CLOSE, |marker| + 1 + end);
    } else {
      var r := Index(s, CLOSE);
      if r >= 0 { NoneBefore(marker, body, r, r); }
    }
  }

  lemma MarkedLines(key: string, frontmatter: string)
    requires IsKey(key)
    ensures var marked := MarkerLine(key) + "\n" + frontmatter;
            HasLine(marked, MarkerLine(key)) && (HasLine(marked, KeyLine(key)) <==> HasLine(frontmatter, KeyLine(key)))
    ensures !HasLine(MarkerLine(key), KeyLine(key))
  {
    var m := MarkerLine(key);
    MarkerIsPlain(key);
    SplitSingle(m, '\n');
    SplitConcat(m, '\n', frontmatter);
    assert m + ['\n'] + frontmatter == m + "\n" + frontmatter;
    assert m in Split(m + "\n" + frontmatter, '\n');
  }

  lemma MarkedFrontmatter(key: string, body: string)
    requires IsKey(key)
    ensures var m := MarkerLine(key);
            var plain, marked := Frontmatter(FENCE + body), Frontmatter(FENCE + (m + "\n" + body));
            marked == if "---" <= body then Some(m) else if plain.Some? then Some(m + "\n" + plain.value) else None
  {
    var m := MarkerLine(key);
    MarkerIsPlain(key);
    MarkedIndex(m, body);
    assert (FENCE + body)[|FENCE|..] == body && (FENCE + (m + "\n" + body))[|FENCE|..] == m + "\n" + body;
    var end := Index(body, CLOSE);
    if !("---" <= body) && end >= 0 {
      assert (FENCE + (m + "\n" + body))[|FENCE|..|FENCE| + (|m| + 1 + end)] == m + "\n" + body[..end];
      assert (FENCE + body)[|FENCE|..|FENCE| + end] == body[..end];
    } else if "---" <= body {
      assert (FENCE + (m + "\n" + body))[|FENCE|..|FENCE| + |m|] == m;
    }
  }

  lemma PageText(content: string, key: string, break_: nat)
    requires IsKey(key) && Index(content, "\n") == break_
    ensures var first, rest := content[..break_ + 1], content[break_ + 1..];
            var m := MarkerLine(key);
            && Unix(content) == Unix(first) + Unix(rest)
            && Unix(first + m + "\n" + rest) == Unix(first) + (m + "\n" + Unix(rest))
            && (Unix(first) == FENCE || (!(FENCE <= Unix(content)) && !(FENCE <= Unix(first + m + "\n" + rest))))
  {
    var line, rest := content[..break_], content[break_ + 1..];
    var first, m := content[..break_ + 1], MarkerLine(key);
    OccursChar(content, "\n", break_, 0);
    assert first == line + "\n" && content == first + rest;
    forall i | 0 <= i < |line| ensures line[i] != '\n' {
      assert !OccursAt(content, "\n", i);
      assert content[i..i + 1] == [content[i]];
    }
    UnixLine(line);
    UnixConcat(first, rest);
    MarkerIsPlain(key);
    assert first + m + "\n" + rest == first + ((m + "\n") + rest);
    UnixConcat(first, (m + "\n") + rest);
    UnixConcat(m + "\n", rest);
    UnixPlain(m + "\n");
    assert (m + "\n") + Unix(rest) == m + "\n" + Unix(rest);
    FenceLine(Unix(first), Unix(rest));
    FenceLine(Unix(first), m + "\n" + Unix(rest));
  }

  lemma MarkedPageIsRecognised(content: string, key: string)
    requires IsKey(key) && !Contains(content, MarkerLine(key)) && PageContent(content, key).Some?
    ensures HasExactFrontmatterMarker(PageContent(content, key).value, key) <==> KeyInFrontmatter(content, key)
  {
    hide Unix, HasLine, Contains, TrimSpace, MarkerLine, KeyLine;
    var break_ := Index(content, "\n");
    var first, rest := content[..break_ + 1], content[break_ + 1..];
    PageText(content, key, break_);
    var body := Unix(rest);
    if Unix(first) == FENCE {
      MarkedFrontmatter(key, body);
      assert (FENCE + body)[|FENCE|..] == body;
      var plain := Frontmatter(FENCE + body);
      MarkedLines(key, if plain.Some? then plain.value else "");
    }
  }

  /** A page that the mirror gives its marker is recognised afterwards exactly
      when the diary's own frontmatter is closed and holds its key line; that
      the key occurs somewhere in the diary, which is all the page demands, is
      not enough. A diary that has the marker anywhere gets no other, and is
      recognised exactly when its own frontmatter holds both lines. */
  lemma WrittenPageIsRecognised(content: string, key: string)
    requires IsKey(key) && PageContent(content, key).Some?
    ensures HasExactFrontmatterMarker(PageContent(content, key).value, key)
       <==> if Contains(content, MarkerLine(key)) then HasExactFrontmatterMarker(content, key) else KeyInFrontmatter(content, key)
  {
    hide HasExactFrontmatterMarker, KeyInFrontmatter, TrimSpace;
    if !Contains(content, MarkerLine(key)) { MarkedPageIsRecognised(content, key); }
  }
}
