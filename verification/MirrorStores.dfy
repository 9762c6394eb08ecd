/** The local state of a mirror: one lock file and one binding a key, and the
    conflict snapshots (storage/recovery.go). The maps stand for the files, by
    key or by path; each function here is one file-system effect. */
module MirrorStores {
  import opened Text
  import opened Decimal
  import opened Markers
  import opened IssueSemantics

  datatype LockOwner = LockOwner(pid: nat, id: nat)

  /** A lock file exists, without a readable owner, between its exclusive
      creation and the write of its record. */
  datatype LockFile = Unwritten(creator: nat) | Owned(owner: LockOwner)
  type Locks = map<string, LockFile>
  type Bindings = map<string, Binding>

  /* Compare the owner, then remove. */
  function ReleaseLock(locks: Locks, key: string, id: nat): Locks {
    if key in locks && locks[key].Owned? && locks[key].owner.id == id then locks - {key} else locks
  }

  /* Only a readable lock of a dead process is cleared. */
  function ClearOrphanLock(locks: Locks, key: string, dead: set<nat>): Locks {
    if key in locks && locks[key].Owned? && locks[key].owner.pid in dead then locks - {key} else locks
  }

  function SaveBinding(bindings: Bindings, key: string, b: Binding): Bindings {
    if IsKey(key) && ValidBinding(b) then bindings[key := b] else bindings
  }

  datatype AcquireResult = Acquired(lock: MirrorLock) | InProgress(owner: LockOwner) | AcquireFailed

  class MirrorLock {
    const key: string
    const owner: LockOwner
    var once: bool

    constructor (key: string, owner: LockOwner)
      ensures this.key == key && this.owner == owner && !once
    {
      this.key, this.owner, once := key, owner, false;
    }
  }

  class MirrorLocks {
    var files: Locks
    const pid: nat

    constructor (pid: nat)
      ensures files == map[] && this.pid == pid
    {
      files, this.pid := map[], pid;
    }

    /** `id` is a new random owner ID; `written` says whether the record could be
        written, and `removed` whether a file without one could be removed. */
    method Acquire(key: string, id: nat, written: bool, removed: bool) returns (r: AcquireResult)
      modifies this
      ensures old(key in files) || !IsKey(key) || (!written && removed) ==> files == old(files) && !r.Acquired?
      ensures old(key !in files) && IsKey(key) && !written && !removed ==>
                files == old(files)[key := Unwritten(id)] && r.AcquireFailed?
      ensures old(key in files && files[key].Owned?) && IsKey(key) ==> r == InProgress(old(files)[key].owner)
      ensures old(key !in files) && IsKey(key) && written ==>
                && files == old(files)[key := Owned(LockOwner(pid, id))]
                && r.Acquired? && fresh(r.lock) && r.lock.key == key && r.lock.owner == LockOwner(pid, id) && !r.lock.once
    {
      if !IsKey(key) {
        return AcquireFailed;
      }
      if key in files {
        match files[key]
        case Owned(owner) => return InProgress(owner);
        case Unwritten(_) => return AcquireFailed;
      }
      ghost var before := files;
      files := files[key := Unwritten(id)];
      if !written {
        if removed {
          files := files - {key};
          assert files == before;
        }
        return AcquireFailed;
      }
      files := files[key := Owned(LockOwner(pid, id))];
      var lock := new MirrorLock(key, LockOwner(pid, id));
      return Acquired(lock);
    }

    /** Releasing twice, or after the lock went to another owner, changes nothing. */
    method Release(lock: MirrorLock) returns (ok: bool)
      modifies this`files, lock`once
      ensures lock.once
      ensures files == if old(lock.once) then old(files) else ReleaseLock(old(files), lock.key, lock.owner.id)
      ensures ok <==> old(lock.once) || lock.key !in old(files) || files != old(files)
    {
      if lock.once {
        return true;
      }
      lock.once := true;
      if lock.key !in files {
        return true;
      }
      if !files[lock.key].Owned? || files[lock.key].owner.id != lock.owner.id {
        return false;
      }
      files := files - {lock.key};
      return true;
    }

    method ClearOrphan(key: string, dead: set<nat>) returns (ok: bool)
      modifies this
      ensures files == if IsKey(key) then ClearOrphanLock(old(files), key, dead) else old(files)
      ensures ok <==> IsKey(key) && key !in files
    {
      if !IsKey(key) {
        return false;
      }
      if key !in files {
        return true;
      }
      if !files[key].Owned? || files[key].owner.pid !in dead {
        return false;
      }
      files := files - {key};
      return true;
    }
  }

  datatype Loaded = Loaded(binding: Option<Binding>) | LoadFailed

  class BindingStore {
    var bindings: Bindings

    /** Only valid bindings are stored, under hashed keys. */
    ghost predicate Valid()
      reads this
    {
      forall key | key in bindings :: IsKey(key) && ValidBinding(bindings[key])
    }

    ghost function Bound(key: string): Option<Binding>
      reads this
    {
      if key in bindings then Some(bindings[key]) else None
    }

    constructor ()
      ensures Valid() && bindings == map[]
    {
      bindings := map[];
    }

    /** What is saved is read back, until it is saved again; the bindings of other
        diaries stay. An invalid binding replaces nothing. */
    method Save(key: string, b: Binding) returns (ok: bool)
      requires Valid()
      modifies this
      ensures Valid() && (ok <==> IsKey(key) && ValidBinding(b))
      ensures ok ==> Bound(key) == Some(b)
      ensures forall other | other != key || !ok :: Bound(other) == old(Bound(other))
      ensures bindings == SaveBinding(old(bindings), key, b)
    {
      ok := IsKey(key) && ValidBinding(b);
      if ok {
        bindings := bindings[key := b];
      }
    }

    /** No binding that was saved fails to load. */
    method Load(key: string) returns (r: Loaded)
      requires Valid()
      ensures r == if IsKey(key) then Loaded(Bound(key)) else LoadFailed
    {
      if !IsKey(key) {
        return LoadFailed;
      }
      if key !in bindings {
        return Loaded(None);
      }
      if !ValidBinding(bindings[key]) {
        return LoadFailed;
      }
      return Loaded(Some(bindings[key]));
    }
  }

  /* ConflictStore.Write; the files are named by key and by sanitized revision. */
  type Snapshots = map<(string, string), string>

  function WriteSnapshot(files: Snapshots, key: string, revision: string, content: string): Snapshots {
    if IsKey(key) && revision != "" then files[(key, SafeName(revision)) := content] else files
  }

  class ConflictStore {
    var files: Snapshots

    constructor ()
      ensures files == map[]
    {
      files := map[];
    }

    ghost function Evidence(key: string, revision: string): Option<string>
      reads this
    {
      if (key, SafeName(revision)) in files then Some(files[(key, SafeName(revision))]) else None
    }

    /** The evidence is found under the revision it was written for; evidence of
        another diary, or under a name that sanitizes differently, stays. */
    method Write(key: string, revision: string, content: string) returns (path: Option<(string, string)>)
      modifies this
      ensures path.Some? <==> IsKey(key) && revision != ""
      ensures path.Some? ==> path.value in files && files[path.value] == content && Evidence(key, revision) == Some(content)
      ensures forall k, r | k != key || SafeName(r) != SafeName(revision) || path.None? :: Evidence(k, r) == old(Evidence(k, r))
      ensures files == WriteSnapshot(old(files), key, revision, content)
    {
      if !IsKey(key) || revision == "" {
        return None;
      }
      var name := SafeComponent(revision);
      files := files[(key, name) := content];
      return Some((key, name));
    }
  }

  // ---- snapshot file names -------------------------------------------------

  predicate IsSafeChar(c: char) {
    'a' <= c <= 'z' || 'A' <= c <= 'Z' || '0' <= c <= '9' || c in {'.', '_', '-'}
  }

  predicate Continues(s: string, k: nat, low: char, high: char) { k < |s| && low <= s[k] <= high }

  /* The bytes of the first UTF-8 character; an invalid byte stands alone. */
  function RuneLength(s: string): (n: nat)
    requires s != ""
    ensures 1 <= n <= |s|
    ensures s[0] < '\U{80}' ==> n == 1
  {
    var c := s[0];
    if '\U{C2}' <= c <= '\U{DF}' && Continues(s, 1, '\U{80}', '\U{BF}') then 2
    else if '\U{E0}' <= c <= '\U{EF}'
      && Continues(s, 1, if c == '\U{E0}' then '\U{A0}' else '\U{80}', if c == '\U{ED}' then '\U{9F}' else '\U{BF}')
      && Continues(s, 2, '\U{80}', '\U{BF}') then 3
    else if '\U{F0}' <= c <= '\U{F4}'
      && Continues(s, 1, if c == '\U{F0}' then '\U{90}' else '\U{80}', if c == '\U{F4}' then '\U{8F}' else '\U{BF}')
      && Continues(s, 2, '\U{80}', '\U{BF}') && Continues(s, 3, '\U{80}', '\U{BF}') then 4
    else 1
  }

  function SafeChar(c: char): char { if IsSafeChar(c) then c else '_' }

  /* One safe character for each character of `value`. */
  function SafeChars(value: string): (r: string)
    ensures forall c | c in r :: IsSafeChar(c)
  {
    if value == "" then "" else [SafeChar(value[0])] + SafeChars(value[RuneLength(value)..])
  }

  function SafeName(value: string): string {
    if value == "" then "revision" else SafeChars(value)
  }

  lemma SafeCharsFrom(value: string, i: nat)
    requires i < |value|
    ensures var n := RuneLength(value[i..]);
            i + n <= |value| && SafeChars(value[i..]) == [SafeChar(value[i])] + SafeChars(value[i + n..])
  {
    hide RuneLength;
    var n := RuneLength(value[i..]);
    assert value[i..][n..] == value[i + n..];
  }

  method SafeComponent(value: string) returns (r: string)
    ensures r == SafeName(value)
    ensures r != "" && forall c | c in r :: IsSafeChar(c)
  {
    hide RuneLength, SafeChar;
    r := "";
    var i := 0;
    while i < |value|
      invariant 0 <= i <= |value| && r + SafeChars(value[i..]) == SafeChars(value)
      invariant i > 0 ==> r != ""
    {
      SafeCharsFrom(value, i);
      r := r + [SafeChar(value[i])];
      i := i + RuneLength(value[i..]);
    }
    if r == "" {
      r := "revision";
    }
  }

  lemma {:induction false} SafeCharsOfPlain(value: string)
    requires forall c | c in value :: c < '\U{80}'
    ensures |SafeChars(value)| == |value| && forall i | 0 <= i < |value| :: SafeChars(value)[i] == SafeChar(value[i])
  {
    if value != "" {
      assert value[0] in value;
      assert forall c | c in value[1..] :: c in value;
      SafeCharsOfPlain(value[1..]);
    }
  }

  lemma SafeNameKeepsTyped(a: string, b: string)
    requires a != "" && b != "" && SafeName(a) == SafeName(b)
    requires forall c | c in a + b :: (IsSafeChar(c) && c != '_') || c == ':'
    ensures a == b
  {
    forall c | c in a ensures c < '\U{80}' { assert c in a + b; }
    forall c | c in b ensures c < '\U{80}' { assert c in a + b; }
    SafeCharsOfPlain(a);
    SafeCharsOfPlain(b);
    forall i | 0 <= i < |a| ensures a[i] == b[i] {
      assert SafeName(a)[i] == SafeChar(a[i]) && SafeName(b)[i] == SafeChar(b[i]);
      assert a[i] in a + b && b[i] in a + b;
    }
  }

  lemma RevisionChars(hash: Hasher, kind: string, id: int, updatedAt: Instant, body: string)
    requires kind == ISSUE || kind == COMMENT
    ensures forall c | c in Revision(hash, kind, id, updatedAt, body) :: (IsSafeChar(c) && c != '_') || c == ':'
  {
    assert IsSha256(hash(body));
    forall c | c in Revision(hash, kind, id, updatedAt, body) ensures (IsSafeChar(c) && c != '_') || c == ':' {
      assert c in kind || c == ':' || c in Itoa(id) || c in updatedAt || c in hash(body);
    }
  }

  /** Conflict evidence is never overwritten by evidence about another document:
      two printed revisions name the same snapshot file only if they are equal. */
  lemma SnapshotNamesAreDistinct(hash: Hasher, kindA: string, a: int, ta: Instant, bodyA: string,
                                 kindB: string, b: int, tb: Instant, bodyB: string)
    requires kindA in {ISSUE, COMMENT} && kindB in {ISSUE, COMMENT}
    requires SafeName(Revision(hash, kindA, a, ta, bodyA)) == SafeName(Revision(hash, kindB, b, tb, bodyB))
    ensures Revision(hash, kindA, a, ta, bodyA) == Revision(hash, kindB, b, tb, bodyB)
  {
    RevisionChars(hash, kindA, a, ta, bodyA);
    RevisionChars(hash, kindB, b, tb, bodyB);
    SafeNameKeepsTyped(Revision(hash, kindA, a, ta, bodyA), Revision(hash, kindB, b, tb, bodyB));
  }
}
