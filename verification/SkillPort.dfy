/** Preparation of skill bundles from a catalog: name resolution with an index,
    and replay of invocation identities (skill.go). */
module SkillPort {
  import opened Text
  import opened SkillArguments

  datatype Identity = Identity(source: string, name: string, hash: string)
  datatype Package = Package(
    schemaVersion: int, identity: Identity, description: string, instructions: string, assets: seq<string>,
    runtimes: seq<string>, arguments: Option<Schema>)
  datatype EntryState = Ready | Unsupported | OtherState
  datatype Entry = Entry(state: EntryState, package: Package, diagnostic: string)

  datatype Request = Request(name: string, invocation: string, runtime: string, arguments: map<string, Value>)

  /** Everything of a bundle that its hash covers: all but the invocation. */
  datatype Content = Content(
    identity: Identity, description: string, instructions: string, assets: seq<string>, runtimes: seq<string>,
    runtime: string, arguments: map<string, Value>)
  datatype Bundle = Bundle(invocation: string, content: Content, hash: string)

  datatype Error =
    | NameRequired | NotFound | Ambiguous | AliasInvalid | NotReady | NoIdentity | RuntimeIncompatible | SchemaInvalid
    | ArgumentsInvalid | IdentityCollision | ReplayMismatch
  datatype Outcome<+T> = Ok(value: T) | Err(error: Error)

  type Encoder = Content -> string
  type Entries = map<string, Entry>

  const SCHEMA_VERSION := 1

  function QualifiedName(i: Identity): string { i.source + "/" + i.name }

  predicate ValidEntry(e: Entry) {
    var i := e.package.identity;
    && TrimSpace(i.source) == i.source != "" && TrimSpace(i.name) == i.name != ""
    && match e.state
       case Unsupported => TrimSpace(e.diagnostic) != ""
       case Ready => e.package.schemaVersion == SCHEMA_VERSION && IsSha256(i.hash) && TrimSpace(e.package.instructions) != ""
       case OtherState => false
  }

  // ---- what a name means, by a scan of the catalog ------------------------------

  ghost predicate Keyed(entries: Entries) {
    forall q | q in entries :: QualifiedName(entries[q].package.identity) == q
  }

  ghost function Matches(entries: Entries, name: string): set<string> {
    set q | q in entries && entries[q].package.identity.name == name
  }

  /** A canonical name wins; another name must be that of exactly one package. */
  ghost predicate ScansTo(entries: Entries, name: string, r: Outcome<Entry>) {
    if name in entries then r == Ok(entries[name])
    else if Matches(entries, name) == {} then r == Err(NotFound)
    else if exists q :: Matches(entries, name) == {q} then r.Ok? && exists q :: Matches(entries, name) == {q} && r.value == entries[q]
    else r == Err(Ambiguous)
  }

  /** An alias stands after canonical names and before unqualified ones, and its
      target is never another alias. */
  ghost predicate ResolvesTo(entries: Entries, aliases: map<string, string>, name: string, r: Outcome<Entry>) {
    if name in entries then r == Ok(entries[name])
    else if name in aliases then
      exists target :: ScansTo(entries, aliases[name], target) && r == if target.Ok? then target else Err(AliasInvalid)
    else ScansTo(entries, name, r)
  }

  lemma ScanIsFunction(entries: Entries, name: string, a: Outcome<Entry>, b: Outcome<Entry>)
    requires ScansTo(entries, name, a) && ScansTo(entries, name, b)
    ensures a == b
  {
    if name !in entries && exists q :: Matches(entries, name) == {q} {
      var q :| Matches(entries, name) == {q};
      assert forall p :: Matches(entries, name) == {p} ==> p in {q};
    }
  }

  /** The scan leaves one answer for every name. */
  lemma ResolutionIsDetermined(entries: Entries, aliases: map<string, string>, name: string, a: Outcome<Entry>, b: Outcome<Entry>)
    requires ResolvesTo(entries, aliases, name, a) && ResolvesTo(entries, aliases, name, b)
    ensures a == b
  {
    hide ScansTo;
    if name !in entries && name in aliases {
      var x :| ScansTo(entries, aliases[name], x) && a == if x.Ok? then x else Err(AliasInvalid);
      var y :| ScansTo(entries, aliases[name], y) && b == if y.Ok? then y else Err(AliasInvalid);
      ScanIsFunction(entries, aliases[name], x, y);
    } else if name !in entries {
      ScanIsFunction(entries, name, a, b);
    }
  }

  // ---- what a preparation answers -------------------------------------------------

  ghost predicate RuntimeOk(p: Package, runtime: string) { runtime == "" || p.runtimes == [] || runtime in p.runtimes }

  ghost function RootSchema(s: Schema): Schema { if s.kind == "" then s.(kind := "object") else s }

  ghost predicate SchemaOk(p: Package) {
    p.arguments.Some? ==> RootSchema(p.arguments.value).kind == "object" && ShapeOk(RootSchema(p.arguments.value))
  }

  ghost predicate ArgumentsOk(p: Package, arguments: map<string, Value>)
    requires SchemaOk(p)
  {
    Accepts(if p.arguments.Some? then Parsed(RootSchema(p.arguments.value)) else NoSchema, Object(arguments))
  }

  function ContentOf(p: Package, runtime: string, arguments: map<string, Value>): Content {
    Content(p.identity, p.description, p.instructions, p.assets, p.runtimes, TrimSpace(runtime), arguments)
  }

  function BundleOf(encode: Encoder, hash: Hasher, invocation: string, c: Content): Bundle {
    Bundle(invocation, c, hash(encode(c)))
  }

  /* newSkillBundle */
  ghost function NewBundle(encode: Encoder, hash: Hasher, invocation: string, p: Package, runtime: string, arguments: map<string, Value>): Outcome<Bundle> {
    if !RuntimeOk(p, TrimSpace(runtime)) then Err(RuntimeIncompatible)
    else if !SchemaOk(p) then Err(SchemaInvalid)
    else if !ArgumentsOk(p, arguments) then Err(ArgumentsInvalid)
    else Ok(BundleOf(encode, hash, invocation, ContentOf(p, runtime, arguments)))
  }

  type Bound = map<string, Bundle>

  datatype Answer = Answer(outcome: Outcome<Bundle>, bound: Bound)

  /* The end of Prepare: what a bundle, or the failure to build one, does to the bindings. */
  function Bind(bound: Bound, explicit: bool, built: Outcome<Bundle>): Answer {
    if built.Err? then Answer(built, bound)
    else
      var b := built.value;
      if b.invocation in bound then
        if !explicit then Answer(Err(IdentityCollision), bound)
        else if bound[b.invocation].hash != b.hash then Answer(Err(ReplayMismatch), bound)
        else Answer(Ok(bound[b.invocation]), bound)
      else Answer(built, bound[b.invocation := b])
  }

  predicate Explicit(r: Request) { TrimSpace(r.invocation) != "" }

  /* `generated` is the fresh identity, or the factory's failure. */
  function InvocationOf(r: Request, generated: Option<string>): string {
    if Explicit(r) then TrimSpace(r.invocation) else if generated.Some? then TrimSpace(generated.value) else ""
  }

  ghost function Built(encode: Encoder, hash: Hasher, resolved: Outcome<Entry>, r: Request, generated: Option<string>): Outcome<Bundle> {
    if TrimSpace(r.name) == "" then Err(NameRequired)
    else if resolved.Err? then Err(resolved.error)
    else if !resolved.value.state.Ready? then Err(NotReady)
    else if InvocationOf(r, generated) == "" then Err(NoIdentity)
    else NewBundle(encode, hash, InvocationOf(r, generated), resolved.value.package, r.runtime, r.arguments)
  }

  // ---- the port ---------------------------------------------------------------------

  /* `cloned` holds every alias without surrounding space; of aliases that
     differ in space only, one stays. */
  ghost predicate Cloned(aliases: map<string, string>, cloned: map<string, string>) {
    && (forall a | a in aliases :: TrimSpace(a) in cloned)
    && (forall c | c in cloned :: exists a :: a in aliases && TrimSpace(a) == c && TrimSpace(aliases[a]) == cloned[c])
  }

  class InMemorySkillPort {
    var entries: Entries
    var byUnqualifiedName: map<string, seq<string>>
    var aliases: map<string, string>
    var byID: Bound

    /* The index lists each package once under its unqualified name. */
    ghost predicate Valid()
      reads `entries, `byUnqualifiedName
    {
      && Keyed(entries)
      && forall name :: Indexed(entries, if name in byUnqualifiedName then byUnqualifiedName[name] else [], name)
    }

    constructor (aliases: map<string, string>)
      ensures Valid() && entries == map[] && byID == map[] && Cloned(aliases, this.aliases)
    {
      entries, byUnqualifiedName, byID, this.aliases := map[], map[], map[], map[];
      new;
      var rest := aliases.Keys;
      while rest != {}
        invariant rest <= aliases.Keys && Valid() && entries == map[] && byID == map[]
        invariant forall a | a in aliases && a !in rest :: TrimSpace(a) in this.aliases
        invariant forall c | c in this.aliases :: exists a :: a in aliases && TrimSpace(a) == c && TrimSpace(aliases[a]) == this.aliases[c]
        decreases |rest|
      {
        var a :| a in rest;
        this.aliases := this.aliases[TrimSpace(a) := TrimSpace(aliases[a])];
        rest := rest - {a};
      }
    }

    method Add(e: Entry) returns (ok: bool)
      requires Valid()
      modifies this`entries, this`byUnqualifiedName
      ensures Valid()
      ensures ok <==> ValidEntry(e) && QualifiedName(e.package.identity) !in old(entries)
      ensures entries == if ok then old(entries)[QualifiedName(e.package.identity) := e] else old(entries)
    {
      var q, name := QualifiedName(e.package.identity), e.package.identity.name;
      if !ValidEntry(e) || q in entries {
        return false;
      }
      var names := (if name in byUnqualifiedName then byUnqualifiedName[name] else []) + [q];
      ghost var before, index := entries, byUnqualifiedName;
      entries := entries[q := e];
      byUnqualifiedName := byUnqualifiedName[name := names];
      forall n ensures Indexed(entries, if n in byUnqualifiedName then byUnqualifiedName[n] else [], n) {
        assert Indexed(before, if n in index then index[n] else [], n);
        IndexGrows(before, if n in index then index[n] else [], n, q, e);
      }
      return true;
    }

    /** The catalog is refused as a whole unless every entry is valid and no two
        have the same qualified name. */
    method AddAll(all: seq<Entry>) returns (ok: bool)
      requires Valid() && entries == map[]
      modifies this`entries, this`byUnqualifiedName
      ensures Valid()
      ensures ok <==> (forall e | e in all :: ValidEntry(e)) && NoDuplicate(all)
      ensures ok ==> Catalogs(entries, all)
    {
      hide ValidEntry;
      for i := 0 to |all|
        invariant Valid() && (forall e | e in all[..i] :: ValidEntry(e)) && NoDuplicate(all[..i]) && Catalogs(entries, all[..i])
      {
        assert all[..i + 1] == all[..i] + [all[i]];
        OneMore(entries, all[..i], all[i]);
        ok := Add(all[i]);
        if !ok {
          NotLater(all, i);
          return false;
        }
      }
      assert all[..|all|] == all;
      return true;
    }

    method ResolvePackageName(name: string) returns (r: Outcome<Entry>)
      requires Valid()
      ensures ScansTo(entries, name, r)
    {
      if name in entries {
        return Ok(entries[name]);
      }
      var matches := if name in byUnqualifiedName then byUnqualifiedName[name] else [];
      IndexIsScan(entries, matches, name);
      if |matches| == 0 {
        return Err(NotFound);
      }
      if |matches| == 1 {
        return Ok(entries[matches[0]]);
      }
      return Err(Ambiguous);
    }

    method ResolveName(name: string) returns (r: Outcome<Entry>)
      requires Valid()
      ensures ResolvesTo(entries, aliases, name, r)
    {
      if name in entries {
        return Ok(entries[name]);
      }
      if name in aliases {
        r := ResolvePackageName(aliases[name]);
        if r.Err? {
          r := Err(AliasInvalid);
        }
        return;
      }
      r := ResolvePackageName(name);
    }

    /** The name is resolved as a scan of the catalog would resolve it. */
    method Prepare(encode: Encoder, hash: Hasher, request: Request, generated: Option<string>)
      returns (r: Outcome<Bundle>, ghost resolved: Outcome<Entry>)
      requires Valid()
      modifies this`byID
      ensures Valid() && ResolvesTo(entries, aliases, TrimSpace(request.name), resolved)
      ensures Answer(r, byID) == Bind(old(byID), Explicit(request), Built(encode, hash, resolved, request, generated))
    {
      hide TrimSpace, Built, ResolvesTo, Valid, Explicit;
      var entry := ResolveName(TrimSpace(request.name));
      resolved := entry;
      var built := Build(encode, hash, entry, request, generated);
      if built.Err? {
        return built, resolved;
      }
      r := BindBundle(built.value, Explicit(request));
    }

    method BindBundle(b: Bundle, explicit: bool) returns (r: Outcome<Bundle>)
      modifies this`byID
      ensures Answer(r, byID) == Bind(old(byID), explicit, Ok(b))
    {
      if b.invocation in byID {
        if !explicit {
          return Err(IdentityCollision);
        }
        if byID[b.invocation].hash != b.hash {
          return Err(ReplayMismatch);
        }
        return Ok(byID[b.invocation]);
      }
      byID := byID[b.invocation := b];
      return Ok(b);
    }
  }

  method Build(encode: Encoder, hash: Hasher, entry: Outcome<Entry>, request: Request, generated: Option<string>)
    returns (r: Outcome<Bundle>)
    ensures r == Built(encode, hash, entry, request, generated)
  {
    hide TrimSpace, NewBundle;
    if TrimSpace(request.name) == "" {
      return Err(NameRequired);
    }
    if entry.Err? {
      return Err(entry.error);
    }
    if !entry.value.state.Ready? {
      return Err(NotReady);
    }
    var invocation := InvocationOf(request, generated);
    if invocation == "" {
      return Err(NoIdentity);
    }
    r := MakeBundle(encode, hash, invocation, entry.value.package, request.runtime, request.arguments);
  }

  method MakeBundle(encode: Encoder, hash: Hasher, invocation: string, p: Package, runtime: string, arguments: map<string, Value>)
    returns (r: Outcome<Bundle>)
    ensures r == NewBundle(encode, hash, invocation, p, runtime, arguments)
  {
    var selected := TrimSpace(runtime);
    if selected != "" && |p.runtimes| != 0 && selected !in p.runtimes {
      return Err(RuntimeIncompatible);
    }
    var schema := ParseSchema(p.arguments);
    if schema.Invalid? {
      return Err(SchemaInvalid);
    }
    var accepted := ValidateArguments(schema, Object(arguments));
    if !accepted {
      return Err(ArgumentsInvalid);
    }
    return Ok(BundleOf(encode, hash, invocation, ContentOf(p, runtime, arguments)));
  }

  ghost predicate NoDuplicate(all: seq<Entry>) {
    forall i, j | 0 <= i < j < |all| :: QualifiedName(all[i].package.identity) != QualifiedName(all[j].package.identity)
  }

  /* The map holds exactly the listed entries, by qualified name. */
  ghost predicate Catalogs(entries: Entries, all: seq<Entry>) {
    && (forall q | q in entries :: entries[q] in all && QualifiedName(entries[q].package.identity) == q)
    && (forall e | e in all :: QualifiedName(e.package.identity) in entries && entries[QualifiedName(e.package.identity)] == e)
  }

  lemma OneMore(entries: Entries, all: seq<Entry>, e: Entry)
    requires Catalogs(entries, all) && NoDuplicate(all)
    ensures var q := QualifiedName(e.package.identity);
            && (q !in entries ==> Catalogs(entries[q := e], all + [e]))
            && (NoDuplicate(all + [e]) <==> q !in entries)
  {
    hide QualifiedName;
    var q := QualifiedName(e.package.identity);
    var more := all + [e];
    if q in entries {
      var i :| 0 <= i < |all| && all[i] == entries[q];
      assert more[i] == all[i] && more[|all|] == e;
    } else {
      forall i | 0 <= i < |all| ensures QualifiedName(all[i].package.identity) != q {
        assert all[i] in all;
      }
    }
  }

  lemma NotLater(all: seq<Entry>, i: nat)
    requires i < |all| && (!ValidEntry(all[i]) || !NoDuplicate(all[..i + 1]))
    ensures !((forall e | e in all :: ValidEntry(e)) && NoDuplicate(all))
  {
    hide ValidEntry, QualifiedName;
    assert all[i] in all;
    if !NoDuplicate(all[..i + 1]) {
      var j, k :| 0 <= j < k < i + 1 && QualifiedName(all[..i + 1][j].package.identity) == QualifiedName(all[..i + 1][k].package.identity);
      assert all[j] == all[..i + 1][j] && all[k] == all[..i + 1][k];
    }
  }

  // ---- the index agrees with a scan ------------------------------------------------------

  ghost predicate Indexed(entries: Entries, names: seq<string>, name: string) {
    && (forall q :: q in names <==> q in Matches(entries, name))
    && (forall i, j | 0 <= i < j < |names| :: names[i] != names[j])
  }

  lemma IndexGrows(entries: Entries, names: seq<string>, name: string, q: string, e: Entry)
    requires Indexed(entries, names, name) && q !in entries
    ensures Indexed(entries[q := e], if e.package.identity.name == name then names + [q] else names, name)
  {
    assert q !in names by {
      assert q in names <==> q in Matches(entries, name);
    }
  }

  lemma IndexIsScan(entries: Entries, names: seq<string>, name: string)
    requires Indexed(entries, names, name)
    ensures |names| == 0 <==> Matches(entries, name) == {}
    ensures |names| == 1 ==> Matches(entries, name) == {names[0]}
    ensures |names| > 1 ==> !exists q :: Matches(entries, name) == {q}
  {
    var m := Matches(entries, name);
    if |names| > 0 { assert names[0] in m; }
    if m != {} {
      var q :| q in m;
      assert q in names;
    }
    if |names| > 1 {
      assert names[0] in m && names[1] in m && names[0] != names[1];
      forall q ensures m != {q} {
        assert q != names[0] || q != names[1];
      }
    }
    if |names| == 1 {
      forall q ensures q in m <==> q in {names[0]} {
        assert q in m <==> q in names;
      }
    }
  }

  // ---- over runs of preparations ---------------------------------------------------------

  /** One preparation: what its name resolves to, the request, and the identity
      that the factory would yield. */
  datatype Call = Call(resolved: Outcome<Entry>, request: Request, generated: Option<string>)

  ghost function Asked(encode: Encoder, hash: Hasher, c: Call): Outcome<Bundle> {
    Built(encode, hash, c.resolved, c.request, c.generated)
  }

  ghost function Step(encode: Encoder, hash: Hasher, bound: Bound, c: Call): Answer {
    Bind(bound, Explicit(c.request), Asked(encode, hash, c))
  }

  ghost function Run(encode: Encoder, hash: Hasher, bound: Bound, calls: seq<Call>): Bound
    decreases |calls|
  {
    if calls == [] then bound else Run(encode, hash, Step(encode, hash, bound, calls[0]).bound, calls[1..])
  }

  /* Every bundle is bound under its own invocation, with the hash of its content. */
  ghost predicate Coherent(encode: Encoder, hash: Hasher, bound: Bound) {
    forall i | i in bound :: bound[i] == BundleOf(encode, hash, i, bound[i].content)
  }

  lemma AskedIsCoherent(encode: Encoder, hash: Hasher, c: Call)
    ensures var b := Asked(encode, hash, c);
            b.Ok? ==> b.value == BundleOf(encode, hash, InvocationOf(c.request, c.generated), b.value.content)
  {
    hide RuntimeOk, SchemaOk, ArgumentsOk, TrimSpace;
  }

  lemma StepIsCoherent(encode: Encoder, hash: Hasher, bound: Bound, c: Call)
    requires Coherent(encode, hash, bound)
    ensures Coherent(encode, hash, Step(encode, hash, bound, c).bound)
  {
    hide Asked, IsSha256;
    AskedIsCoherent(encode, hash, c);
  }

  lemma {:induction false} RunIsCoherent(encode: Encoder, hash: Hasher, bound: Bound, calls: seq<Call>)
    requires Coherent(encode, hash, bound)
    ensures Coherent(encode, hash, Run(encode, hash, bound, calls))
    decreases |calls|
  {
    hide Asked, Coherent;
    if calls != [] {
      StepIsCoherent(encode, hash, bound, calls[0]);
      RunIsCoherent(encode, hash, Step(encode, hash, bound, calls[0]).bound, calls[1..]);
    }
  }

  /** A bound invocation keeps its bundle, whatever is prepared afterwards. */
  lemma {:induction false} BindingsStay(encode: Encoder, hash: Hasher, bound: Bound, calls: seq<Call>, invocation: string)
    requires invocation in bound
    ensures var after := Run(encode, hash, bound, calls); invocation in after && after[invocation] == bound[invocation]
    decreases |calls|
  {
    hide Asked;
    if calls != [] {
      BindingsStay(encode, hash, Step(encode, hash, bound, calls[0]).bound, calls[1..], invocation);
    }
  }

  /** A preparation that succeeds binds the bundle that it returns, and one that
      fails binds nothing. */
  lemma AnswersAreBound(encode: Encoder, hash: Hasher, bound: Bound, c: Call)
    requires Coherent(encode, hash, bound)
    ensures var a := Step(encode, hash, bound, c);
            if a.outcome.Ok? then a.outcome.value.invocation in a.bound && a.bound[a.outcome.value.invocation] == a.outcome.value
            else a.bound == bound
  {
    hide Asked;
    AskedIsCoherent(encode, hash, c);
  }

  /** A generated identity never returns a bundle that was there before. */
  lemma GeneratedIsNew(encode: Encoder, hash: Hasher, bound: Bound, c: Call)
    requires !Explicit(c.request)
    ensures var r := Step(encode, hash, bound, c).outcome; r.Ok? ==> r.value.invocation !in bound
  {
    hide Asked;
  }

  ghost function AnswerAt(encode: Encoder, hash: Hasher, bound: Bound, calls: seq<Call>, i: nat): Outcome<Bundle>
    requires i < |calls|
  {
    Step(encode, hash, Run(encode, hash, bound, calls[..i]), calls[i]).outcome
  }

  lemma {:induction false} RunConcat(encode: Encoder, hash: Hasher, bound: Bound, a: seq<Call>, b: seq<Call>)
    ensures Run(encode, hash, bound, a + b) == Run(encode, hash, Run(encode, hash, bound, a), b)
    decreases |a|
  {
    hide Step;
    if a == [] {
      assert a + b == b;
    } else {
      assert (a + b)[1..] == a[1..] + b;
      RunConcat(encode, hash, Step(encode, hash, bound, a[0]).bound, a[1..], b);
    }
  }

  lemma RunOne(encode: Encoder, hash: Hasher, bound: Bound, c: Call, rest: seq<Call>)
    ensures Run(encode, hash, bound, [c] + rest) == Run(encode, hash, Step(encode, hash, bound, c).bound, rest)
  {
    hide Step;
    assert ([c] + rest)[1..] == rest;
  }

  lemma RunThrough(encode: Encoder, hash: Hasher, bound: Bound, calls: seq<Call>, i: nat, j: nat)
    requires i < j <= |calls|
    ensures var before := Run(encode, hash, bound, calls[..i]);
            Run(encode, hash, bound, calls[..j]) == Run(encode, hash, Step(encode, hash, before, calls[i]).bound, calls[i + 1..j])
  {
    hide Run, Step;
    var rest := [calls[i]] + calls[i + 1..j];
    assert calls[..j] == calls[..i] + rest;
    RunConcat(encode, hash, bound, calls[..i], rest);
    RunOne(encode, hash, Run(encode, hash, bound, calls[..i]), calls[i], calls[i + 1..j]);
  }

  /* What call `i` answers stays bound until call `j`. */
  lemma AnswerStays(encode: Encoder, hash: Hasher, bound: Bound, calls: seq<Call>, i: nat, j: nat)
    requires Coherent(encode, hash, bound) && i < j < |calls| && AnswerAt(encode, hash, bound, calls, i).Ok?
    ensures var a, later := AnswerAt(encode, hash, bound, calls, i).value, Run(encode, hash, bound, calls[..j]);
            a.invocation in later && later[a.invocation] == a
  {
    hide Run, Step, Coherent;
    var before := Run(encode, hash, bound, calls[..i]);
    RunIsCoherent(encode, hash, bound, calls[..i]);
    AnswersAreBound(encode, hash, before, calls[i]);
    RunThrough(encode, hash, bound, calls, i, j);
    BindingsStay(encode, hash, Step(encode, hash, before, calls[i]).bound, calls[i + 1..j], AnswerAt(encode, hash, bound, calls, i).value.invocation);
  }

  /* A success under an invocation that is bound returns what is bound. */
  lemma BoundAnswers(encode: Encoder, hash: Hasher, bound: Bound, c: Call)
    requires Coherent(encode, hash, bound)
    requires var o := Step(encode, hash, bound, c).outcome; o.Ok? && o.value.invocation in bound
    ensures var o := Step(encode, hash, bound, c).outcome; o.value == bound[o.value.invocation] && Explicit(c.request)
  {
    hide Asked, Coherent;
    AnswersAreBound(encode, hash, bound, c);
    if !Explicit(c.request) { GeneratedIsNew(encode, hash, bound, c); }
  }

  /** Over any sequence of preparations: two that succeed under one invocation
      return the same bundle, and the later one had asked for that invocation
      itself; a generated identity never meets an earlier one. */
  lemma AnswersNeverClash(encode: Encoder, hash: Hasher, bound: Bound, calls: seq<Call>, i: nat, j: nat)
    requires Coherent(encode, hash, bound) && i < j < |calls|
    requires var a, b := AnswerAt(encode, hash, bound, calls, i), AnswerAt(encode, hash, bound, calls, j);
             a.Ok? && b.Ok? && a.value.invocation == b.value.invocation
    ensures AnswerAt(encode, hash, bound, calls, i) == AnswerAt(encode, hash, bound, calls, j) && Explicit(calls[j].request)
  {
    hide Run, Step, Coherent;
    AnswerStays(encode, hash, bound, calls, i, j);
    RunIsCoherent(encode, hash, bound, calls[..j]);
    BoundAnswers(encode, hash, Run(encode, hash, bound, calls[..j]), calls[j]);
  }

  /* The encoding can be read back. */
  ghost predicate Decodes(encode: Encoder, decode: string -> Content) { forall c :: decode(encode(c)) == c }

  lemma SameHashSameContent(encode: Encoder, decode: string -> Content, hash: Hasher, c: Content, d: Content)
    requires Injective(hash) && Decodes(encode, decode)
    ensures hash(encode(c)) == hash(encode(d)) <==> c == d
  {
    hide IsSha256, Injective;
    var x, y := encode(c), encode(d);
    SameHashSameText(hash, x, y);
  }

  lemma SameHashSameText(hash: Hasher, x: string, y: string)
    requires Injective(hash)
    ensures hash(x) == hash(y) <==> x == y
  {
    hide IsSha256;
  }

  /** An explicit replay changes nothing, and returns the bound bundle or fails;
      without collisions it returns it exactly when the same content is asked for. */
  lemma ReplayReturnsTheBundle(encode: Encoder, decode: string -> Content, hash: Hasher, bound: Bound, c: Call)
    requires Coherent(encode, hash, bound) && Explicit(c.request) && TrimSpace(c.request.invocation) in bound
    ensures var a, was := Step(encode, hash, bound, c), bound[TrimSpace(c.request.invocation)];
            && a.bound == bound && (a.outcome.Ok? ==> a.outcome.value == was)
            && (Injective(hash) && Decodes(encode, decode) ==> (a.outcome.Ok? <==> Asked(encode, hash, c) == Ok(was)))
  {
    hide Asked, TrimSpace, BundleOf, Injective, Decodes, Step, Coherent;
    var i, asked := TrimSpace(c.request.invocation), Asked(encode, hash, c);
    AskedIsCoherent(encode, hash, c);
    ReplayStep(encode, hash, bound, c);
    if asked.Ok? && Injective(hash) && Decodes(encode, decode) {
      assert bound[i] == BundleOf(encode, hash, i, bound[i].content) by { BoundIsBundle(encode, hash, bound, i); }
      SameHashSameBundle(encode, decode, hash, i, asked.value.content, bound[i].content);
    }
  }

  lemma BoundIsBundle(encode: Encoder, hash: Hasher, bound: Bound, i: string)
    requires Coherent(encode, hash, bound) && i in bound
    ensures bound[i] == BundleOf(encode, hash, i, bound[i].content)
  {
    hide BundleOf;
  }

  /* What an explicit replay of a bound invocation does. */
  lemma ReplayStep(encode: Encoder, hash: Hasher, bound: Bound, c: Call)
    requires Explicit(c.request) && TrimSpace(c.request.invocation) in bound
    ensures var a, was, asked := Step(encode, hash, bound, c), bound[TrimSpace(c.request.invocation)], Asked(encode, hash, c);
            && a.bound == bound && (a.outcome.Ok? ==> a.outcome.value == was)
            && (a.outcome.Ok? <==> asked.Ok? && asked.value.hash == was.hash)
  {
    hide Asked, TrimSpace, BundleOf, IsSha256;
    AskedIsCoherent(encode, hash, c);
    if Asked(encode, hash, c).Ok? {
      BundleShape(encode, hash, TrimSpace(c.request.invocation), Asked(encode, hash, c).value.content);
    }
  }

  lemma SameHashSameBundle(encode: Encoder, decode: string -> Content, hash: Hasher, i: string, c: Content, d: Content)
    requires Injective(hash) && Decodes(encode, decode)
    ensures BundleOf(encode, hash, i, c).hash == BundleOf(encode, hash, i, d).hash <==> BundleOf(encode, hash, i, c) == BundleOf(encode, hash, i, d)
  {
    hide Injective, Decodes, BundleOf;
    BundleShape(encode, hash, i, c);
    BundleShape(encode, hash, i, d);
    SameHashSameContent(encode, decode, hash, c, d);
  }

  lemma BundleShape(encode: Encoder, hash: Hasher, i: string, c: Content)
    ensures var b := BundleOf(encode, hash, i, c); b.invocation == i && b.content == c && b.hash == hash(encode(c))
  {}

  /** The hash of a bundle does not depend on its invocation. */
  lemma HashIgnoresInvocation(encode: Encoder, hash: Hasher, i: string, j: string, p: Package, runtime: string, arguments: map<string, Value>)
    ensures var a, b := NewBundle(encode, hash, i, p, runtime, arguments), NewBundle(encode, hash, j, p, runtime, arguments);
            && (a.Ok? <==> b.Ok?)
            && (a.Ok? ==> a.value.hash == b.value.hash && a.value.content == b.value.content && a.value.invocation == i)
  {
    hide RuntimeOk, SchemaOk, ArgumentsOk, TrimSpace;
  }
}
