/** The normal form of a package declaration: what is hashed as its manifest
    (catalog.go). */
module PackageDeclaration {
  import opened Text
  import opened PackageHash

  const MAX_FILES := 128
  const MAX_DEPTH := 8
  const SCHEMA_VERSION := 1

  /** `arguments` stands for the schema, which is not normalized. */
  datatype Declaration = Declaration(
    schemaVersion: int, source: string, name: string, directory: string, description: string, license: string,
    sourceUrl: string, sourceRevision: string, instructions: string, files: seq<string>, arguments: string,
    runtimes: seq<string>)

  // ---- paths --------------------------------------------------------------------

  /* normalizeDeclaredPath */
  function NormalPath(value: string): Option<string> {
    var raw := TrimSpace(value);
    if raw == "" || '\\' in raw || "/" <= raw then None
    else
      var parts := Split(raw, '/');
      if (exists p | p in parts :: p == "" || p == "." || p == "..") || |parts| - 1 > MAX_DEPTH then None
      else Some(Join(parts, '/'))
  }

  lemma {:induction false} TrimLeftStarts(s: string)
    ensures SpaceAtStart(TrimLeft(s)) == 0
  {
    if SpaceAtStart(s) != 0 { TrimLeftStarts(s[SpaceAtStart(s)..]); }
  }

  lemma {:induction false} TrimRightEnds(s: string)
    ensures TrimRight(s) <= s && SpaceAtEnd(TrimRight(s)) == 0
  {
    if SpaceAtEnd(s) != 0 { TrimRightEnds(s[..|s| - SpaceAtEnd(s)]); }
  }

  lemma PrefixStarts(prefix: string, s: string)
    requires prefix <= s && SpaceAtStart(s) == 0
    ensures SpaceAtStart(prefix) == 0
  {
    var n := SpaceAtStart(prefix);
    assert prefix[..n] == s[..n];
  }

  lemma TrimSpaceTwice(s: string)
    ensures TrimSpace(TrimSpace(s)) == TrimSpace(s)
  {
    hide SpaceAtStart, SpaceAtEnd;
    TrimLeftStarts(s);
    TrimRightEnds(TrimLeft(s));
    PrefixStarts(TrimSpace(s), TrimLeft(s));
  }

  lemma NormalPathTwice(value: string)
    requires NormalPath(value).Some?
    ensures var path := NormalPath(value).value; path == TrimSpace(value) && NormalPath(path) == Some(path)
  {
    TrimSpaceTwice(value);
    JoinSplit(TrimSpace(value), '/');
  }

  // ---- sorted names -----------------------------------------------------------------

  function Files(names: seq<string>): (r: seq<SourceFile>)
    ensures |r| == |names| && forall i | 0 <= i < |r| :: r[i] == SourceFile(names[i], "")
  {
    seq(|names|, i requires 0 <= i < |names| => SourceFile(names[i], ""))
  }

  function Names(files: seq<SourceFile>): (r: seq<string>)
    ensures |r| == |files| && forall i | 0 <= i < |r| :: r[i] == files[i].path
  {
    seq(|files|, i requires 0 <= i < |files| => files[i].path)
  }

  /* sort.Strings */
  function SortedNames(names: seq<string>): seq<string> { Names(Sorted(Files(names))) }

  lemma Parted<T>(b: seq<T>, k: nat)
    requires k < |b|
    ensures multiset(b) == multiset(b[..k] + b[k + 1..]) + multiset{b[k]}
  {
    assert b == b[..k] + [b[k]] + b[k + 1..];
  }

  lemma Without<T>(a: seq<T>, b: seq<T>, k: nat)
    requires a != [] && k < |b| && b[k] == a[|a| - 1] && multiset(a) == multiset(b)
    ensures multiset(a[..|a| - 1]) == multiset(b[..k] + b[k + 1..])
  {
    var n := |a| - 1;
    Parted(a, n);
    Parted(b, k);
    assert a[..n] + a[n + 1..] == a[..n];
    Cancels(multiset(a[..n]), multiset(b[..k] + b[k + 1..]), b[k]);
  }

  lemma Cancels<T>(a: multiset<T>, b: multiset<T>, x: T)
    requires a + multiset{x} == b + multiset{x}
    ensures a == b
  {
    assert a == (a + multiset{x}) - multiset{x} && b == (b + multiset{x}) - multiset{x};
  }

  lemma PickLast<T>(a: seq<T>, b: seq<T>) returns (k: nat)
    requires a != [] && multiset(a) == multiset(b)
    ensures k < |b| && b[k] == a[|a| - 1] && multiset(a[..|a| - 1]) == multiset(b[..k] + b[k + 1..])
  {
    assert a[|a| - 1] in multiset(b);
    k :| 0 <= k < |b| && b[k] == a[|a| - 1];
    Without(a, b, k);
  }

  lemma OfNothing<T>(b: seq<T>)
    requires multiset(b) == multiset{}
    ensures b == []
  {
    assert |multiset(b)| == |b|;
  }

  lemma FilesConcat(a: seq<string>, b: seq<string>)
    ensures Files(a + b) == Files(a) + Files(b)
  {}

  lemma FilesWithout(b: seq<string>, k: nat)
    requires k < |b|
    ensures multiset(Files(b)) == multiset(Files(b[..k] + b[k + 1..])) + multiset{SourceFile(b[k], "")}
  {
    assert Files([b[k]]) == [SourceFile(b[k], "")];
    hide Files;
    assert b == b[..k] + ([b[k]] + b[k + 1..]);
    FilesConcat(b[..k], [b[k]] + b[k + 1..]);
    FilesConcat([b[k]], b[k + 1..]);
    FilesConcat(b[..k], b[k + 1..]);
  }

  lemma {:induction false} FilesMultiset(a: seq<string>, b: seq<string>)
    requires multiset(a) == multiset(b)
    ensures multiset(Files(a)) == multiset(Files(b))
    decreases |a|
  {
    hide Files;
    if a == [] {
      OfNothing(b);
    } else {
      var k := PickLast(a, b);
      FilesMultiset(a[..|a| - 1], b[..k] + b[k + 1..]);
      assert a[..|a| - 1] + a[|a|..] == a[..|a| - 1];
      FilesWithout(a, |a| - 1);
      FilesWithout(b, k);
    }
  }

  /** Sorting forgets the order of declaration. */
  lemma SortedNamesOfPermutation(a: seq<string>, b: seq<string>)
    requires multiset(a) == multiset(b)
    ensures SortedNames(a) == SortedNames(b)
  {
    FilesMultiset(a, b);
    var fa, fb := Sorted(Files(a)), Sorted(Files(b));
    SortedAscends(Files(a));
    SortedAscends(Files(b));
    assert PathsTell(fa) by {
      assert forall f | f in fa :: f in multiset(Files(a));
    }
    OneArrangement(fa, fb);
  }

  lemma NamesConcat(a: seq<SourceFile>, b: seq<SourceFile>)
    ensures Names(a + b) == Names(a) + Names(b)
  {}

  lemma NamesWithout(b: seq<SourceFile>, k: nat)
    requires k < |b|
    ensures multiset(Names(b)) == multiset(Names(b[..k] + b[k + 1..])) + multiset{b[k].path}
  {
    assert Names([b[k]]) == [b[k].path];
    hide Names;
    assert b == b[..k] + ([b[k]] + b[k + 1..]);
    NamesConcat(b[..k], [b[k]] + b[k + 1..]);
    NamesConcat([b[k]], b[k + 1..]);
    NamesConcat(b[..k], b[k + 1..]);
  }

  lemma {:induction false} NamesOfSame(a: seq<SourceFile>, b: seq<SourceFile>)
    requires multiset(a) == multiset(b)
    ensures multiset(Names(a)) == multiset(Names(b))
    decreases |a|
  {
    hide Names;
    if a == [] {
      OfNothing(b);
    } else {
      var k := PickLast(a, b);
      NamesOfSame(a[..|a| - 1], b[..k] + b[k + 1..]);
      assert a[..|a| - 1] + a[|a|..] == a[..|a| - 1];
      NamesWithout(a, |a| - 1);
      NamesWithout(b, k);
    }
  }

  lemma SortedNamesKeep(names: seq<string>)
    ensures multiset(SortedNames(names)) == multiset(names)
  {
    NamesOfSame(Sorted(Files(names)), Files(names));
    assert Names(Files(names)) == names;
  }

  // ---- declarations --------------------------------------------------------------------

  ghost predicate Distinct(names: seq<string>) { forall i, j | 0 <= i < j < |names| :: names[i] != names[j] }

  /* The declared paths in normal form, in their declared order. */
  ghost predicate NormalFiles(raw: seq<string>, files: seq<string>) {
    && |files| == |raw|
    && (forall i | 0 <= i < |raw| :: NormalPath(raw[i]) == Some(files[i]))
    && Distinct(files)
  }

  lemma Clash(raw: seq<string>, files: seq<string>, k: nat, i: nat)
    requires k < i < |raw| && NormalPath(raw[k]) == NormalPath(raw[i])
    ensures !NormalFiles(raw, files)
  {
    hide NormalPath;
    assert k < |files| && i < |files| && files[k] == files[i] ==> !Distinct(files);
  }

  lemma NoNormalForm(raw: seq<string>, i: nat)
    requires i < |raw| && NormalPath(raw[i]).None?
    ensures forall files :: !NormalFiles(raw, files)
  {
    hide NormalPath, Distinct;
  }

  lemma NoneDistinct(raw: seq<string>, k: nat, i: nat)
    requires k < i < |raw| && NormalPath(raw[k]) == NormalPath(raw[i])
    ensures forall files :: !NormalFiles(raw, files)
  {
    hide NormalFiles, NormalPath;
    forall files ensures !NormalFiles(raw, files) { Clash(raw, files, k, i); }
  }

  method NormalizeFiles(raw: seq<string>) returns (r: Option<seq<string>>)
    ensures r.Some? ==> NormalFiles(raw, r.value)
    ensures r.None? ==> forall files :: !NormalFiles(raw, files)
  {
    hide NormalPath;
    var seen: set<string> := {};
    var files: seq<string> := [];
    for i := 0 to |raw|
      invariant |files| == i && forall k | 0 <= k < i :: NormalPath(raw[k]) == Some(files[k])
      invariant Distinct(files) && forall p :: p in seen <==> p in files
    {
      match NormalPath(raw[i])
      case None =>
        NoNormalForm(raw, i);
        return None;
      case Some(file) =>
        if file in seen {
          ghost var k :| 0 <= k < i && files[k] == file;
          NoneDistinct(raw, k, i);
          return None;
        }
        seen := seen + {file};
        files := files + [file];
    }
    return Some(files);
  }

  predicate Required(d: Declaration) {
    && TrimSpace(d.source) != "" && TrimSpace(d.name) != "" && TrimSpace(d.description) != ""
    && TrimSpace(d.license) != "" && TrimSpace(d.sourceUrl) != "" && TrimSpace(d.sourceRevision) != ""
  }

  /* `n` is the normal form of `d`. */
  ghost predicate Normalizes(d: Declaration, n: Declaration) {
    && NormalPath(d.instructions) == Some(n.instructions) && d.schemaVersion == n.schemaVersion == SCHEMA_VERSION
    && Required(d) && |d.files| <= MAX_FILES
    && (exists files :: NormalFiles(d.files, files) && n.instructions in files && n.files == SortedNames(files))
    && n == Declaration(n.schemaVersion, TrimSpace(d.source), TrimSpace(d.name), TrimSpace(d.directory),
         TrimSpace(d.description), TrimSpace(d.license), TrimSpace(d.sourceUrl), TrimSpace(d.sourceRevision),
         n.instructions, n.files, d.arguments, SortedNames(d.runtimes))
  }

  method NormalizeDeclaration(d: Declaration) returns (r: Option<Declaration>)
    ensures r.Some? ==> Normalizes(d, r.value)
    ensures r.None? ==> forall n :: !Normalizes(d, n)
  {
    hide NormalPath, SortedNames, TrimSpace;
    var instructions := NormalPath(d.instructions);
    if instructions.None? || d.schemaVersion != SCHEMA_VERSION || !Required(d) || |d.files| > MAX_FILES {
      return None;
    }
    var files := NormalizeFiles(d.files);
    if files.None? {
      return None;
    }
    if instructions.value !in files.value {
      forall n ensures !Normalizes(d, n) {
        OnlyTheseFiles(d, n, files.value);
      }
      return None;
    }
    return Some(Declaration(d.schemaVersion, TrimSpace(d.source), TrimSpace(d.name), TrimSpace(d.directory),
      TrimSpace(d.description), TrimSpace(d.license), TrimSpace(d.sourceUrl), TrimSpace(d.sourceRevision),
      instructions.value, SortedNames(files.value), d.arguments, SortedNames(d.runtimes)));
  }

  lemma OnlyTheseFiles(d: Declaration, n: Declaration, files: seq<string>)
    requires NormalFiles(d.files, files) && NormalPath(d.instructions).Some?
    ensures Normalizes(d, n) ==> NormalPath(d.instructions).value in files
  {
    hide NormalPath, SortedNames, TrimSpace;
    if Normalizes(d, n) {
      var others :| NormalFiles(d.files, others) && n.instructions in others;
      NormalFilesUnique(d.files, files, others);
    }
  }

  lemma NormalFilesUnique(raw: seq<string>, a: seq<string>, b: seq<string>)
    requires NormalFiles(raw, a) && NormalFiles(raw, b)
    ensures a == b
  {
    forall i | 0 <= i < |a| ensures a[i] == b[i] {
      assert NormalPath(raw[i]) == Some(a[i]) == Some(b[i]);
    }
  }

  lemma {:induction false} NormalFilesOfPermutation(a: seq<string>, b: seq<string>, files: seq<string>)
    requires multiset(a) == multiset(b) && NormalFiles(a, files)
    ensures exists others :: NormalFiles(b, others) && multiset(others) == multiset(files)
    decreases |a|
  {
    hide NormalPath;
    if a == [] {
      OfNothing(b);
      assert NormalFiles(b, files);
    } else {
      var n := |a| - 1;
      var k := PickLast(a, b);
      assert NormalFiles(a[..n], files[..n]);
      var rest := b[..k] + b[k + 1..];
      NormalFilesOfPermutation(a[..n], rest, files[..n]);
      var others :| NormalFiles(rest, others) && multiset(others) == multiset(files[..n]);
      assert files == files[..n] + [files[n]];
      LastIsNew(files, others);
      InsertNormal(b, k, rest, others, files[n]);
    }
  }

  lemma LastIsNew(files: seq<string>, others: seq<string>)
    requires files != [] && Distinct(files) && multiset(others) == multiset(files[..|files| - 1])
    ensures files[|files| - 1] !in others
  {
    assert forall f | f in others :: f in multiset(files[..|files| - 1]);
    assert forall i | 0 <= i < |files| - 1 :: files[..|files| - 1][i] == files[i];
  }

  lemma InsertNormal(b: seq<string>, k: nat, rest: seq<string>, others: seq<string>, file: string)
    requires k < |b| && rest == b[..k] + b[k + 1..] && NormalFiles(rest, others)
    requires NormalPath(b[k]) == Some(file) && file !in others
    ensures NormalFiles(b, others[..k] + [file] + others[k..])
    ensures multiset(others[..k] + [file] + others[k..]) == multiset(others) + multiset{file}
  {
    hide NormalPath;
    var all := others[..k] + [file] + others[k..];
    assert others == others[..k] + others[k..];
    assert |all| == |b|;
    forall i | 0 <= i < |b| ensures NormalPath(b[i]) == Some(all[i]) {
      if i < k {
        assert rest[i] == b[i] && all[i] == others[i];
      } else if i > k {
        assert rest[i - 1] == b[i] && all[i] == others[i - 1];
      }
    }
    DistinctInsert(others, k, file);
  }

  lemma DistinctInsert(others: seq<string>, k: nat, file: string)
    requires k <= |others| && Distinct(others) && file !in others
    ensures Distinct(others[..k] + [file] + others[k..])
  {
    var all := others[..k] + [file] + others[k..];
    forall i, j | 0 <= i < j < |all| ensures all[i] != all[j] {
      assert i < k ==> all[i] == others[i];
      assert i > k ==> all[i] == others[i - 1];
      assert j < k ==> all[j] == others[j];
      assert j > k ==> all[j] == others[j - 1];
    }
  }

  /** The normal form does not depend on the order in which files and runtimes
      were declared. */
  lemma NormalFormForgetsOrder(d: Declaration, e: Declaration, n: Declaration)
    requires Normalizes(d, n)
    requires e == d.(files := e.files, runtimes := e.runtimes)
    requires multiset(e.files) == multiset(d.files) && multiset(e.runtimes) == multiset(d.runtimes)
    ensures Normalizes(e, n)
  {
    hide NormalPath, SortedNames, TrimSpace;
    var files :| NormalFiles(d.files, files) && n.instructions in files && n.files == SortedNames(files);
    NormalFilesOfPermutation(d.files, e.files, files);
    var others :| NormalFiles(e.files, others) && multiset(others) == multiset(files);
    assert n.instructions in multiset(others);
    SortedNamesOfPermutation(others, files);
    SortedNamesOfPermutation(e.runtimes, d.runtimes);
    assert |e.files| == |multiset(e.files)| == |multiset(d.files)| == |d.files|;
  }

  lemma OneNormalForm(d: Declaration, n: Declaration, m: Declaration)
    requires Normalizes(d, n) && Normalizes(d, m)
    ensures n == m
  {
    hide NormalPath, SortedNames, TrimSpace;
    var a :| NormalFiles(d.files, a) && n.instructions in a && n.files == SortedNames(a);
    var b :| NormalFiles(d.files, b) && m.instructions in b && m.files == SortedNames(b);
    NormalFilesUnique(d.files, a, b);
  }

  /** So two declarations of one package, however ordered, are hashed from the
      same bytes, whatever the encoding of manifests. */
  lemma DeclarationOrderIsNotHashed(encode: Declaration -> Bytes, d: Declaration, e: Declaration, n: Declaration, m: Declaration,
                                    a: seq<SourceFile>, b: seq<SourceFile>)
    requires Normalizes(d, n) && Normalizes(e, m)
    requires e == d.(files := e.files, runtimes := e.runtimes)
    requires multiset(e.files) == multiset(d.files) && multiset(e.runtimes) == multiset(d.runtimes)
    requires Fits(a) && Fits(b) && DistinctPaths(a) && DistinctPaths(b) && SameFiles(a, b)
    ensures n == m && Stream(encode(n), a) == Stream(encode(m), b)
  {
    hide Normalizes;
    NormalFormForgetsOrder(d, e, n);
    OneNormalForm(e, n, m);
    StreamTells(encode(n), a, encode(m), b);
  }

  /** A normal form lists distinct portable paths, its instructions among them,
      and is its own normal form. */
  lemma NormalFormIsNormal(d: Declaration, n: Declaration)
    requires Normalizes(d, n)
    ensures Distinct(n.files) && n.instructions in n.files && |n.files| == |d.files|
    ensures forall f | f in n.files :: NormalPath(f) == Some(f)
    ensures Normalizes(n, n)
  {
    hide SortedNames, TrimSpace, NormalPath;
    var files :| NormalFiles(d.files, files) && n.instructions in files && n.files == SortedNames(files);
    SortedNamesKeep(files);
    SortedNamesKeep(d.runtimes);
    assert |n.files| == |multiset(n.files)| == |files|;
    assert n.instructions in multiset(n.files);
    PermutedNames(files, n.files);
    forall f | f in n.files ensures NormalPath(f) == Some(f) {
      assert f in multiset(files);
      var i :| 0 <= i < |files| && files[i] == f;
      NormalPathTwice(d.files[i]);
    }
    NormalPathTwice(d.instructions);
    TrimFieldsTwice(d);
    SortedNamesOfPermutation(n.files, files);
    SortedNamesOfPermutation(n.runtimes, d.runtimes);
    assert NormalFiles(n.files, n.files);
  }

  lemma TrimFieldsTwice(d: Declaration)
    ensures forall s | s in [d.source, d.name, d.directory, d.description, d.license, d.sourceUrl, d.sourceRevision] ::
      TrimSpace(TrimSpace(s)) == TrimSpace(s)
  {
    hide TrimSpace;
    forall s | s in [d.source, d.name, d.directory, d.description, d.license, d.sourceUrl, d.sourceRevision]
      ensures TrimSpace(TrimSpace(s)) == TrimSpace(s)
    {
      TrimSpaceTwice(s);
    }
  }

  lemma OnceEach(a: seq<string>)
    requires Distinct(a)
    ensures forall x :: multiset(a)[x] <= 1
  {
    forall k | 0 <= k < |a| ensures multiset(a)[a[k]] == 1 {
      assert a == a[..k] + [a[k]] + a[k + 1..];
      assert a[k] !in a[..k] && a[k] !in a[k + 1..];
    }
    forall x ensures multiset(a)[x] <= 1 {
      if x in a {
        var k :| 0 <= k < |a| && a[k] == x;
      }
    }
  }

  lemma Twice(b: seq<string>, i: nat, j: nat)
    requires i < j < |b| && b[i] == b[j]
    ensures multiset(b)[b[i]] >= 2
  {
    assert b == b[..i] + [b[i]] + b[i + 1..j] + [b[j]] + b[j + 1..];
  }

  lemma PermutedNames(a: seq<string>, b: seq<string>)
    requires multiset(a) == multiset(b) && Distinct(a)
    ensures Distinct(b)
  {
    OnceEach(a);
    forall i, j | 0 <= i < j < |b| ensures b[i] != b[j] {
      if b[i] == b[j] { Twice(b, i, j); }
    }
  }
}
