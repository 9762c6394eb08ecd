/** The byte stream from which a Skill Package is hashed, and the normalization
    of its declaration (catalog.go). Bytes are characters, as in Text. */
module PackageHash {
  import opened Text

  // ---- sorting by path ----------------------------------------------------------

  datatype SourceFile = SourceFile(path: string, data: string)

  ghost predicate Ascending(files: seq<SourceFile>) {
    forall i, j | 0 <= i < j < |files| :: !Less(files[j].path, files[i].path)
  }

  ghost predicate DistinctPaths(files: seq<SourceFile>) {
    forall i, j | 0 <= i < j < |files| :: files[i].path != files[j].path
  }

  /* A path stands for one file only. */
  ghost predicate PathsTell(files: seq<SourceFile>) {
    forall f, g | f in files && g in files && f.path == g.path :: f == g
  }

  function Insert(sorted: seq<SourceFile>, f: SourceFile): (r: seq<SourceFile>)
    ensures multiset(r) == multiset(sorted) + multiset{f}
  {
    if sorted == [] || !Less(f.path, sorted[|sorted| - 1].path) then sorted + [f]
    else
      assert sorted == sorted[..|sorted| - 1] + [sorted[|sorted| - 1]];
      Insert(sorted[..|sorted| - 1], f) + [sorted[|sorted| - 1]]
  }

  function Sorted(files: seq<SourceFile>): (r: seq<SourceFile>)
    ensures multiset(r) == multiset(files)
  {
    if files == [] then []
    else
      assert files == files[..|files| - 1] + [files[|files| - 1]];
      Insert(Sorted(files[..|files| - 1]), files[|files| - 1])
  }

  lemma AscendingEnd(sorted: seq<SourceFile>, f: SourceFile)
    requires Ascending(sorted) && forall g | g in sorted :: !Less(f.path, g.path)
    ensures Ascending(sorted + [f])
  {}

  lemma {:induction false} InsertAscends(sorted: seq<SourceFile>, f: SourceFile)
    requires Ascending(sorted)
    ensures Ascending(Insert(sorted, f))
  {
    var n := |sorted|;
    if n == 0 {
    } else if !Less(f.path, sorted[n - 1].path) {
      forall i | 0 <= i < n ensures !Less(f.path, sorted[i].path) {
        if Less(f.path, sorted[i].path) { AtMostLast(sorted, i, f); }
      }
      AscendingEnd(sorted, f);
    } else {
      var last := sorted[n - 1];
      InsertAscends(sorted[..n - 1], f);
      LessTotal(f.path, last.path);
      forall g | g in Insert(sorted[..n - 1], f) ensures !Less(last.path, g.path) {
        assert g in multiset(Insert(sorted[..n - 1], f));
      }
      hide Ascending, Less;
      AscendingEnd(Insert(sorted[..n - 1], f), last);
    }
  }

  lemma AtMostLast(sorted: seq<SourceFile>, i: nat, f: SourceFile)
    requires Ascending(sorted) && i < |sorted| && Less(f.path, sorted[i].path)
    ensures Less(f.path, sorted[|sorted| - 1].path)
  {
    var last := sorted[|sorted| - 1].path;
    LessTotal(sorted[i].path, last);
    if Less(sorted[i].path, last) { LessTransitive(f.path, sorted[i].path, last); }
  }

  lemma {:induction false} SortedAscends(files: seq<SourceFile>)
    ensures Ascending(Sorted(files))
  {
    if files != [] {
      SortedAscends(files[..|files| - 1]);
      InsertAscends(Sorted(files[..|files| - 1]), files[|files| - 1]);
    }
  }

  lemma SameLast(a: seq<SourceFile>, b: seq<SourceFile>)
    requires multiset(a) == multiset(b) && Ascending(a) && Ascending(b) && PathsTell(a) && a != [] && b != []
    ensures a[|a| - 1] == b[|b| - 1]
  {
    var n, m := |a| - 1, |b| - 1;
    assert a[n] in multiset(a) && b[m] in multiset(b);
    var i :| 0 <= i < |b| && b[i] == a[n];
    var j :| 0 <= j < |a| && a[j] == b[m];
    LessTotal(a[n].path, b[m].path);
    assert a[j].path == a[n].path;
  }

  lemma WithoutLast(a: seq<SourceFile>)
    requires a != []
    ensures var n := |a| - 1;
            && multiset(a[..n]) == multiset(a) - multiset{a[n]}
            && (Ascending(a) ==> Ascending(a[..n])) && (PathsTell(a) ==> PathsTell(a[..n]))
  {
    assert a == a[..|a| - 1] + [a[|a| - 1]];
  }

  lemma SameSize(a: seq<SourceFile>, b: seq<SourceFile>)
    requires multiset(a) == multiset(b)
    ensures |a| == |b|
  {
    assert |multiset(a)| == |a| && |multiset(b)| == |b|;
  }

  /** A list of files that its paths tell apart has one ascending arrangement. */
  lemma {:induction false} OneArrangement(a: seq<SourceFile>, b: seq<SourceFile>)
    requires multiset(a) == multiset(b) && Ascending(a) && Ascending(b) && PathsTell(a)
    ensures a == b
  {
    hide Ascending, PathsTell;
    SameSize(a, b);
    if a != [] {
      var n := |a| - 1;
      SameLast(a, b);
      WithoutLast(a);
      WithoutLast(b);
      OneArrangement(a[..n], b[..n]);
      assert a == a[..n] + [a[n]] && b == b[..n] + [b[n]];
    }
  }

  lemma Once(a: seq<SourceFile>, k: nat)
    requires k < |a| && DistinctPaths(a)
    ensures multiset(a)[a[k]] == 1
  {
    assert a == a[..k] + [a[k]] + a[k + 1..];
    assert a[k] !in a[..k] && a[k] !in a[k + 1..];
  }

  lemma SortedStep(all: seq<SourceFile>, i: nat)
    requires i < |all|
    ensures Sorted(all[..i + 1]) == Insert(Sorted(all[..i]), all[i])
  {
    assert all[..i + 1][..i] == all[..i];
  }

  lemma TailStep(s: seq<SourceFile>, all: seq<SourceFile>, i: nat)
    requires i < |s| == |all| && s[i..] == all[i..]
    ensures s[i] == all[i] && s[i + 1..] == all[i + 1..]
  {
    assert s[i] == s[i..][0] && s[i + 1..] == s[i..][1..] && all[i + 1..] == all[i..][1..];
  }

  /* sort.Slice by path, in place. */
  method SortByPath(files: array<SourceFile>)
    modifies files
    ensures files[..] == Sorted(old(files[..]))
  {
    hide Insert, Sorted;
    ghost var all := files[..];
    assert Sorted(all[..0]) == [] by { assert all[..0] == []; SortedOfNothing(); }
    for i := 0 to files.Length
      invariant files[..i] == Sorted(all[..i])
      invariant files[..][i..] == all[i..]
    {
      TailStep(files[..], all, i);
      SortedStep(all, i);
      InsertLast(files, i);
    }
    assert files[..] == files[..files.Length] && all == all[..files.Length];
  }

  lemma SortedOfNothing()
    ensures Sorted([]) == []
  {}

  lemma InsertBefore(sorted: seq<SourceFile>, f: SourceFile, j: nat)
    requires 0 < j <= |sorted| && Less(f.path, sorted[j - 1].path)
    ensures Insert(sorted[..j], f) + sorted[j..] == Insert(sorted[..j - 1], f) + sorted[j - 1..]
  {
    assert sorted[..j][..j - 1] == sorted[..j - 1] && sorted[j - 1..] == [sorted[j - 1]] + sorted[j..];
  }

  lemma InsertHere(sorted: seq<SourceFile>, f: SourceFile)
    requires sorted == [] || !Less(f.path, sorted[|sorted| - 1].path)
    ensures Insert(sorted, f) == sorted + [f]
  {}

  /* `s` is `all` with the elements from `j` up to `i` moved up by one. */
  ghost predicate MovedUp(s: seq<SourceFile>, all: seq<SourceFile>, i: nat, j: nat) {
    && j <= i < |s| == |all|
    && (forall k | 0 <= k < j :: s[k] == all[k])
    && (forall k | j < k <= i :: s[k] == all[k - 1])
    && s[i + 1..] == all[i + 1..]
  }

  lemma MoveOne(s: seq<SourceFile>, all: seq<SourceFile>, i: nat, j: nat)
    requires MovedUp(s, all, i, j) && j > 0
    ensures s[j - 1] == all[j - 1] && MovedUp(s[j := s[j - 1]], all, i, j - 1)
  {}

  lemma Filled(s: seq<SourceFile>, all: seq<SourceFile>, i: nat, j: nat, f: SourceFile)
    requires MovedUp(s, all, i, j)
    ensures s[j := f][..i + 1] == (all[..i][..j] + [f]) + all[..i][j..]
    ensures s[j := f][i + 1..] == all[i + 1..]
    ensures j > 0 ==> s[j - 1] == all[j - 1]
  {}

  method InsertLast(files: array<SourceFile>, i: nat)
    requires i < files.Length
    modifies files
    ensures files[..i + 1] == Insert(old(files[..i]), old(files[..])[i])
    ensures files[..][i + 1..] == old(files[..])[i + 1..]
  {
    hide Insert, Less, MovedUp;
    ghost var all := files[..];
    ghost var prefix := all[..i];
    var f := files[i];
    var j := i;
    assert prefix[..i] == prefix && prefix[i..] == [];
    assert MovedUp(files[..], all, i, i) by { NothingMoved(all, i); }
    while j > 0 && Less(f.path, files[j - 1].path)
      invariant 0 <= j <= i
      invariant MovedUp(files[..], all, i, j)
      invariant Insert(prefix, f) == Insert(prefix[..j], f) + prefix[j..]
    {
      MoveOne(files[..], all, i, j);
      InsertBefore(prefix, f, j);
      files[j] := files[j - 1];
      j := j - 1;
    }
    Filled(files[..], all, i, j, f);
    InsertHere(prefix[..j], f);
    files[j] := f;
    assert files[..][..i + 1] == files[..i + 1] && files[..][i + 1..] == files[i + 1..];
  }

  lemma NothingMoved(all: seq<SourceFile>, i: nat)
    requires i < |all|
    ensures MovedUp(all, all, i, i)
  {}

  // ---- the hashed stream ----------------------------------------------------------

  const LENGTH_LIMIT := 0x1_0000_0000_0000_0000

  /** A Go slice is always shorter than 2^63. */
  type Bytes = s: string | |s| < LENGTH_LIMIT

  function Power(k: nat): nat { if k == 0 then 1 else 256 * Power(k - 1) }

  /* binary.BigEndian, on `k` bytes. */
  function BigEndian(n: nat, k: nat): (s: string)
    ensures |s| == k
  {
    if k == 0 then "" else BigEndian(n / 256, k - 1) + [(n % 256) as char]
  }

  function ByteValue(c: char): nat { c as nat }

  function FromBigEndian(s: string): nat {
    if s == "" then 0 else 256 * FromBigEndian(s[..|s| - 1]) + ByteValue(s[|s| - 1])
  }

  lemma {:induction false} BigEndianRoundTrip(n: nat, k: nat)
    requires n < Power(k)
    ensures FromBigEndian(BigEndian(n, k)) == n
  {
    if k > 0 {
      BigEndianRoundTrip(n / 256, k - 1);
      assert BigEndian(n, k)[..k - 1] == BigEndian(n / 256, k - 1);
    }
  }

  lemma EightBytes()
    ensures Power(8) == LENGTH_LIMIT
  {
    assert Power(4) == 0x1_0000_0000 && Power(6) == 0x1_0000_0000_0000;
  }

  /* writeHashPart */
  function Part(value: Bytes): string { BigEndian(|value|, 8) + value }

  function Parts(values: seq<Bytes>): string {
    if values == [] then "" else Part(values[0]) + Parts(values[1..])
  }

  function Unpart(stream: string): Option<seq<Bytes>>
    decreases |stream|
  {
    if stream == "" then Some([])
    else if |stream| < 8 then None
    else
      var n := FromBigEndian(stream[..8]);
      if |stream| - 8 < n || n >= LENGTH_LIMIT then None
      else
        match Unpart(stream[8 + n..])
        case None => None
        case Some(rest) => Some([stream[8..8 + n]] + rest)
  }

  /** Every stream of parts decodes to those parts: no other list of parts is
      fed to the hash as the same bytes. */
  lemma {:induction false} UnpartParts(values: seq<Bytes>)
    ensures Unpart(Parts(values)) == Some(values)
  {
    if values != [] {
      var first, rest := values[0], Parts(values[1..]);
      var stream := Part(first) + rest;
      EightBytes();
      BigEndianRoundTrip(|first|, 8);
      assert stream[..8] == BigEndian(|first|, 8);
      assert stream[8..8 + |first|] == first && stream[8 + |first|..] == rest;
      UnpartParts(values[1..]);
      assert Parts(values) == stream && values == [first] + values[1..];
      assert Unpart(stream) == Some([first] + values[1..]);
    }
  }

  lemma PartsInjective(a: seq<Bytes>, b: seq<Bytes>)
    requires Parts(a) == Parts(b)
    ensures a == b
  {
    UnpartParts(a);
    UnpartParts(b);
  }

  lemma {:induction false} PartsAppend(values: seq<Bytes>, value: Bytes)
    ensures Parts(values + [value]) == Parts(values) + Part(value)
  {
    if values != [] {
      assert (values + [value])[1..] == values[1..] + [value];
      PartsAppend(values[1..], value);
    } else {
      assert Parts([value]) == Part(value) + Parts([value][1..]);
    }
  }

  predicate Fits(files: seq<SourceFile>) {
    forall f | f in files :: |f.path| < LENGTH_LIMIT && |f.data| < LENGTH_LIMIT
  }

  /* The parts of a package, with its files as they stand. */
  function Values(manifest: Bytes, files: seq<SourceFile>): (r: seq<Bytes>)
    requires Fits(files)
    ensures |r| == 1 + 2 * |files|
  {
    if files == [] then [manifest]
    else Values(manifest, files[..|files| - 1]) + [files[|files| - 1].path, files[|files| - 1].data]
  }

  ghost function Stream(manifest: Bytes, files: seq<SourceFile>): string
    requires Fits(files)
  {
    assert forall f | f in Sorted(files) :: f in multiset(files);
    Parts(Values(manifest, Sorted(files)))
  }

  method WriteParts(manifest: Bytes, files: seq<SourceFile>) returns (written: string)
    requires Fits(files)
    ensures written == Parts(Values(manifest, files))
  {
    written := Part(manifest);
    PartsAppend([], manifest);
    assert [] + [manifest] == [manifest] && files[..0] == [];
    for i := 0 to |files|
      invariant written == Parts(Values(manifest, files[..i]))
    {
      ghost var before := Values(manifest, files[..i]);
      WriteOne(before, files[i].path, files[i].data);
      assert files[..i + 1][..i] == files[..i];
      written := written + Part(files[i].path) + Part(files[i].data);
    }
    assert files[..|files|] == files;
  }

  lemma WriteOne(before: seq<Bytes>, path: Bytes, data: Bytes)
    ensures Parts(before + [path, data]) == Parts(before) + Part(path) + Part(data)
  {
    PartsAppend(before, path);
    PartsAppend(before + [path], data);
    assert before + [path] + [data] == before + [path, data];
  }

  lemma SortedFits(files: seq<SourceFile>)
    requires Fits(files)
    ensures Fits(Sorted(files))
  {
    assert forall f | f in Sorted(files) :: f in multiset(files);
  }

  method HashPackage(hash: Hasher, manifest: Bytes, files: array<SourceFile>) returns (digest: string)
    requires Fits(files[..])
    modifies files
    ensures files[..] == Sorted(old(files[..]))
    ensures digest == hash(Stream(manifest, old(files[..])))
  {
    SortedFits(files[..]);
    SortByPath(files);
    var written := WriteParts(manifest, files[..]);
    digest := hash(written);
  }

  // ---- what the stream tells ------------------------------------------------------

  lemma {:induction false} ValuesInjective(m: Bytes, a: seq<SourceFile>, n: Bytes, b: seq<SourceFile>)
    requires Fits(a) && Fits(b) && Values(m, a) == Values(n, b)
    ensures m == n && a == b
  {
    assert |a| == |b|;
    if a != [] {
      var k := |a| - 1;
      var va, vb := Values(m, a), Values(n, b);
      assert va[..|va| - 2] == Values(m, a[..k]) && vb[..|vb| - 2] == Values(n, b[..k]);
      assert va[|va| - 2] == a[k].path && va[|va| - 1] == a[k].data;
      assert vb[|vb| - 2] == b[k].path && vb[|vb| - 1] == b[k].data;
      ValuesInjective(m, a[..k], n, b[..k]);
      assert a == a[..k] + [a[k]] && b == b[..k] + [b[k]];
    }
  }

  /* The same content at every path. */
  ghost predicate SameFiles(a: seq<SourceFile>, b: seq<SourceFile>) { forall f :: f in a <==> f in b }

  lemma {:induction false} SameFilesSameMultiset(a: seq<SourceFile>, b: seq<SourceFile>)
    requires DistinctPaths(a) && DistinctPaths(b) && SameFiles(a, b)
    ensures multiset(a) == multiset(b)
  {
    forall f ensures multiset(a)[f] == multiset(b)[f] {
      if f in a {
        assert f in b;
        var i :| 0 <= i < |a| && a[i] == f;
        var j :| 0 <= j < |b| && b[j] == f;
        Once(a, i);
        Once(b, j);
      } else {
        assert f !in b && f !in multiset(a) && f !in multiset(b);
      }
    }
  }

  /** Two packages are hashed from the same bytes exactly when their manifests
      are the same and they have the same content at every path, in whatever
      order their files were declared. */
  lemma StreamTells(m: Bytes, a: seq<SourceFile>, n: Bytes, b: seq<SourceFile>)
    requires Fits(a) && Fits(b) && DistinctPaths(a) && DistinctPaths(b)
    ensures Stream(m, a) == Stream(n, b) <==> m == n && SameFiles(a, b)
  {
    var sa, sb := Sorted(a), Sorted(b);
    assert Fits(sa) && Fits(sb) by {
      assert forall f | f in sa :: f in multiset(a);
      assert forall f | f in sb :: f in multiset(b);
    }
    if Stream(m, a) == Stream(n, b) {
      PartsInjective(Values(m, sa), Values(n, sb));
      ValuesInjective(m, sa, n, sb);
      forall f ensures f in a <==> f in b {
        assert f in a <==> f in multiset(sa);
        assert f in b <==> f in multiset(sb);
      }
    }
    if m == n && SameFiles(a, b) {
      SameFilesSameMultiset(a, b);
      SortedAscends(a);
      SortedAscends(b);
      assert PathsTell(sa) by {
        assert forall f | f in sa :: f in multiset(a);
      }
      OneArrangement(sa, sb);
    }
  }
}
