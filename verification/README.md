# Verification of Syntroph's protocols, projections and formats

Syntroph closes coding sessions into immutable diaries, mirrors them to GitHub
Issues or to a GitHub Wiki, keeps a catalog of skill packages, and records what
it did in an append-only journal. This project models the parts of it whose
correctness comes from several functions, processes and crashes together, and
proves what they keep. `dafny verify dfyconfig.toml` checks all of it.

## The modules

**Mirror to Issues.** `Markers` has the texts by which the mirror recognises its
own Issues and comments, and the typed revisions. `IssueSemantics` and
`EffectiveDocument` decide which remote document a binding denotes, over REST
and over MCP. `MirrorStores` has the local lock, binding and snapshot files as
classes. `MirrorProtocol` is the whole protocol as processes that take one local
or remote effect at a time, with failures, lost answers, requests that the client
sends again, crashes, orphan clearing and edits by other people between any two
effects. `MirrorSafety`, `MirrorSteps` and `MirrorRuns` prove its invariant over
every run; `MirrorResults` states what follows, and `MirrorDelivery` what an
undisturbed mirror achieves. `MirrorWindow` and `MirrorResend` have the runs in
which creation is not unique and corrections repeat.

**Skill Catalog.** `SyncLock` has the acquisition and the recovery of the
synchronization lock as one process performs them. `CatalogProtocol` interleaves
synchronizations, recoveries and crashes file effect by file effect;
`CatalogSafety` proves its invariant and `CatalogResults` what follows.
`PackageHash` and `PackageDeclaration` are about the hashed bytes of a package
and the normal form of its declaration.

**Saga Journal.** `SagaJournal` is the append-only journal, `SagaRecovery` the
projection of a journal to obligations, and `SagaCommands` the commands that
write it, cut at any append.

**Wiki.** `WikiProtocol` interleaves mirrors with other committers over a graph
of commits; `WikiPage` is about the marker in a page's frontmatter.

**Skills.** `SkillArguments` is the approved schema subset and its validators,
`SkillPort` name resolution and invocation replay, `SkillEvidence` the
reconciliation of invocation records with the journal, `SkillSection` the
Markdown section scan, and `CodeReferences` the batched resolution of references.

**MCP client.** `McpRuns` is the client as a machine that interleaves the server's
messages with calls, cancellations, closings and restarts; `McpClient` is the
client itself, every use of which is such a run. `McpLifecycle` says when child
processes start and end.

`Text` and `Decimal` hold the Go string and integer operations these need. A Go
string is a sequence of bytes; here it is a `string` with one character a byte.
SHA-256 is an arbitrary function to 64 hexadecimal digits; a lemma that needs
the absence of collisions says so. JSON is represented by what it decodes to.

## What was found

- An Issue of a diary is not unique when a process dies between creating the
  Issue and recording it: explicit recovery looks at closed Issues only
  (`MirrorWindow.CreationIsNotUnique`, for every diary); nor when the REST client
  sends a stored creation again (`ResendingCreatesTwice`). `OneIssueADiary` holds
  for every other run, `LostOnlyInTheWindow` says exactly which steps lose an
  Issue, and once one is lost, mirroring again makes two (`MirroringAgainMakesTwo`).
- A correction is written twice when the REST client sends its request again
  after a transient status although GitHub had stored it (`CorrectionMayRepeat`,
  for every diary; `ResendingRepeats`, from every state that is about to write
  one). Two corrections on an Issue are equal exactly when they are such a pair
  (`CorrectionsRepeatByResending`), and `ResentOnlyWhenTransient` says when a
  request is sent again.
- Looking again after keep-remote answers Mirrored exactly when the acknowledged
  document held the diary, except for an edited predecessor comment: there its own
  predecessor is looked at, and exactly what `HoldsAtComment` says decides
  (`KeepRemoteThenMirror`). The acknowledged document can be exactly the diary and
  the answer still a conflict (`KeepRemoteMayConflict`).
- A process that dies between creating its lock file and writing its record blocks
  the diary for ever: no clearing accepts the lock (`CrashBeforeRecordBlocks`).
- REST and MCP agree whenever MCP answers; REST also answers for a comment that is
  not on the bound Issue (`TransportsAgree`).
- A Wiki push can replace an existing page in a mode that never replaces one, if
  somebody forces the branch back between fetch and push
  (`ForcedBranchLosesPage`). Which pages a push leaves alone is `PageStaysExactly`;
  from a head where the remote stands it replaces none (`ExistingPagesStay`).
- A page that the Wiki mirror writes is recognised afterwards only if the diary's
  own frontmatter holds its key line; `wikiPage` accepts the key anywhere
  (`WrittenPageIsRecognised`).
- A nested object schema without `properties` accepts every object and ignores
  its `required` list, and the root's `enum` is never checked
  (`UndeclaredRequiresNothing`, `RootAccepts`).
- Equal code references that state different confidences all get that of the
  first declaration: the batch gives a position what resolving it alone would give
  exactly when the graph does not know the reference or the first declaration
  states the same confidence (`BatchIsTransparent`, `FirstDeclarationDecides`).
- A close whose own unmirrored outcome is journaled after a concurrent retry's
  mirrored result opens the obligation again; `Owed` counts it.
- A graph obligation is never withdrawn by the projection (`GraphObligation`).

## Model

| member | source | states |
|---|---|---|
| Markers.StripDiaryBody | adapters/githubissues/rest.go:566-576 | Stripping the diary marker undoes printing it, for every content and key. |
| Markers.DiaryBodyOfStripped | adapters/githubissues/rest.go:566-576 | A body from which the marker can be stripped is the printed body of what remains. |
| Markers.ParsePrintedCorrection | adapters/githubissues/rest.go:577-604 | Parsing a printed correction gives back its content, hash and predecessor, for one-line keys and non-empty one-line predecessors. |
| Markers.PrintParsedCorrection | adapters/githubissues/rest.go:577-604 | Every text that parses as a correction is the printed correction of what was parsed. |
| Markers.PrintedRevisionIsValid | core/storagecontract/contracts.go:44-64 | Every printed Issue or comment revision passes validation, and its ID is read back. |
| Markers.RevisionInjective | adapters/githubissues/rest.go:606-615 | Equal revisions mean the same document, the same instant and the same body hash. |
| Markers.DiaryBodyMarks | adapters/githubissues/rest.go:566-569 | A printed diary carries the marker of its own key and of no other key. |
| Markers.CorrectionBodyMarks | adapters/githubissues/rest.go:577-604 | A printed correction parses under no other key. |
| MirrorStores.MirrorLocks.Acquire | storage/recovery.go:195-228 | The lock is taken exactly when it was free and its record could be written; otherwise a readable owner is reported and the files are as they were, except that a record neither written nor removed leaves an unreadable lock. |
| MirrorStores.MirrorLocks.Release | storage/recovery.go:176-193 | Releasing removes the file only while it holds the releaser's own record, and only once. |
| MirrorStores.MirrorLocks.ClearOrphan | storage/recovery.go:247-266 | Only a readable lock of a dead process is cleared, and success means the lock is gone. |
| MirrorStores.BindingStore.Save | storage/recovery.go:48-61 | A valid binding under a hashed key reads back, an invalid one replaces nothing, and the bindings of other diaries stay. |
| MirrorStores.BindingStore.Load | storage/recovery.go:75-98 | No binding that was saved fails to load; an unbound diary is told from a key that is no digest. |
| MirrorStores.ConflictStore.Write | storage/recovery.go:114-130 | Evidence is found under the revision it was written for, exactly for a hashed key and a revision; all evidence under another key or name stays. |
| MirrorStores.SafeComponent | storage/recovery.go:464-477 | The loop builds a non-empty name of safe characters, one for each UTF-8 character. |
| MirrorStores.SnapshotNamesAreDistinct | storage/recovery.go:114-130 | Evidence about one document never overwrites evidence about another: snapshot names of printed revisions are equal only for equal revisions. |
| EffectiveDocument.TransportsAgree | adapters/githubissues/mcp.go:216-295 | What MCP answers REST answers too; REST's answer is MCP's exactly when the comments on the way to it are on the bound Issue. |
| EffectiveDocument.MirroredIsExact | adapters/githubissues/issues_semantics.go:177-204 | Mirrored is answered at the revision of the document taken as effective, and that very document is exactly the local diary under its own marker. |
| EffectiveDocument.IntactCorrectionIsMirrored | adapters/githubissues/rest.go:173-240 | At a correction whose comment and recorded predecessor are intact the answer is Mirrored, and the effective document is the diary. |
| EffectiveDocument.IntactIssueIsUnchanged | adapters/githubissues/rest.go:210-225 | Without collisions, an intact predecessor Issue has the recorded instant and text. |
| EffectiveDocument.EffectiveIsIntact | adapters/githubissues/rest.go:173-208 | The revision of an effective document is that of a document on the remote, so a correction can name it as predecessor. |
| EffectiveDocument.KeepLocalThenMirror | adapters/githubissues/issues_semantics.go:110-154 | After keep-local appended its correction, looking again answers Mirrored, while nobody edits. |
| EffectiveDocument.KeepRemoteThenMirror | adapters/githubissues/issues_semantics.go:128-135 | After keep-remote, looking again answers Mirrored if and only if the acknowledged document held the diary exactly; at an edited predecessor comment, if and only if that comment holds it over an intact predecessor, or its changed predecessor does. |
| EffectiveDocument.KeepRemoteMayConflict | adapters/githubissues/rest.go:173-208 | There the acknowledged comment can be exactly the diary, and looking again still reports a conflict. |
| MirrorResults.OneIssueADiary | adapters/githubissues/issues_semantics.go:40-89 | Over every run with crashes, edits, requests sent again and orphan clearings: unless a new Issue of the diary was left unrecorded, it has at most one Issue, at most one marked Issue, and its binding names it. |
| MirrorResults.BindingsNameOwnIssues | storage/recovery.go:372-404 | In every reachable state a binding names an Issue that was created for its diary. |
| MirrorResults.LostOnlyInTheWindow | adapters/githubissues/issues_semantics.go:70-76 | An Issue is left unrecorded exactly by a crash or a failed save before its provisional record, or when its creation is not answered by a success. |
| MirrorResults.ProviderOnlyAppends | adapters/githubissues/rest.go:337-357 | Over any run of the provider, crashes included, no Issue body and no existing comment changes. |
| MirrorResults.CorrectionsRepeatByResending | adapters/githubissues/rest.go:432-494 | In every reachable state, two corrections of a diary on one Issue have the same predecessor and content if and only if one operation posted both, and then it sent its stored request again. |
| MirrorResults.NoRepeatedCorrection | adapters/githubissues/rest.go:375-399 | While no operation on the diary sends a stored correction again, no Issue holds two corrections with its key, predecessor and content, wherever a process died. |
| MirrorResults.ResentOnlyWhenTransient | adapters/githubissues/rest.go:485-501 | A stored correction is sent again exactly after a transient status, in the first two of three attempts. |
| MirrorResend.ResendingRepeats | adapters/githubissues/rest.go:453-494 | From every reachable state about to write a correction, a stored request that is sent again puts an equal correction beside the first. |
| MirrorResend.CorrectionMayRepeat | adapters/githubissues/issues_semantics.go:140-154 | Every diary has a run, through mirror, an edit and keep-local, after which its Issue holds the same correction twice. |
| MirrorResend.ResendingCreatesTwice | adapters/githubissues/rest.go:337-346 | From every reachable state about to create an Issue, a stored creation that is sent again makes two marked Issues of the diary. |
| MirrorResults.CorrectionsAreAsked | adapters/githubissues/issues_semantics.go:110-154 | A correction is written only for a keep-local, on an Issue of its diary, and records the revision that the caller observed. |
| MirrorResults.MutualExclusion | storage/recovery.go:195-228 | In every reachable state at most one running operation is past taking the lock of a diary. |
| MirrorResults.LocksAreNotStolen | storage/recovery.go:176-266 | A lock file disappears only by its running owner, or by a clearing after its recorded process died. |
| MirrorResults.CrashBeforeRecordBlocks | storage/recovery.go:204-266 | A lock whose process died before writing its record stays in every continuation, and no operation on its diary gets past it. |
| MirrorDelivery.MirrorDelivers | adapters/githubissues/issues_semantics.go:66-89 | An undisturbed mirror of an unbound diary, or a recovery whose scan finds nothing, leaves one closed, completed Issue with the diary, a binding at its revision and a free lock, changes nothing else, and answers Mirrored afterwards. |
| MirrorWindow.CreationIsNotUnique | adapters/githubissues/issues_semantics.go:70-76 | For every diary there is a run, with a crash before the provisional record, in which two Issues are created and the first cannot be found by recovery. |
| MirrorWindow.MirroringAgainMakesTwo | adapters/githubissues/issues_semantics.go:66-89 | The converse of uniqueness: in every reachable state with the diary unbound and its lock free, one more undisturbed mirror makes a second Issue if and only if one was left unrecorded. |
| MirrorRuns.RunKeepsInv | storage/recovery.go:372-404 | Every run keeps the protocol's invariant: markers and bindings tell the truth, lock owners are alone, every correction has an author and equal ones on an Issue have the same. |
| SyncLock.CatalogDirectory.Acquire | adapters/skillfilesystem/sync_recovery.go:89-176 | Acquisition holds the lock exactly when it was free and nothing failed; whatever fails it touches no file of another, and it leaves none of its own unless its clean-up fails too, and then no torn candidate or lock. |
| SyncLock.CatalogDirectory.RecoverOrphanedSync | adapters/skillfilesystem/sync_recovery.go:280-344 | Recovery clears every recorded owner exactly when all records are readable, all their processes dead and the staging owner agrees; otherwise it changes nothing. |
| SyncLock.CatalogDirectory.Release | adapters/skillfilesystem/sync_recovery.go:178-196 | Only the owner's own lock is removed. |
| SyncLock.ReportState | adapters/skillfilesystem/sync_recovery.go:258-277 | Orphaned is reported exactly when every recorded process is dead; an unknown one outweighs a live one. |
| SyncLock.Probe | adapters/skillfilesystem/sync_recovery.go:288-310 | Probing passes exactly when every owner is dead, and otherwise names a live or an unverifiable one. |
| CatalogResults.MutualExclusion | adapters/skillfilesystem/sync_recovery.go:89-196 | Over every interleaving, at most one live operation is between publishing and releasing the lock, and the file is then its record. |
| CatalogResults.RecordsAreWhole | adapters/skillfilesystem/sync_recovery.go:124-152 | No reader ever sees a torn lock or candidate: each holds the complete record of an operation that has begun. |
| CatalogResults.LockIsNotStolen | adapters/skillfilesystem/sync_recovery.go:178-196 | The lock is removed only by its owner or by a recovery after its process died, and is never replaced in place. |
| CatalogResults.CandidatesAreNotStolen | adapters/skillfilesystem/sync_recovery.go:326-330 | A candidate is removed only by its owner or by a recovery after its process died. |
| CatalogResults.StagingIsNotStolen | adapters/skillfilesystem/sync_recovery.go:311-325 | A staging tree is removed only by its owner or by a recovery after its process died. |
| CatalogResults.IndexIsWhole | adapters/skillfilesystem/catalog.go:835-884 | In every reachable state the index is absent or whole, lists no package twice, and each Ready entry names a complete store object with that identity. |
| CatalogResults.StoreIsImmutable | adapters/skillfilesystem/catalog.go:748-797 | Store objects never change and never vanish. |
| CatalogResults.PublicationIsVerified | adapters/skillfilesystem/catalog.go:848-884 | Publication is by the lock's owner, and installs the index it has verified. |
| CatalogResults.IndexStaysUntilPublication | adapters/skillfilesystem/catalog.go:133-250 | Whatever happens before the next publication, a crash or a recovery included, leaves the index as it was. |
| PackageHash.SortByPath | adapters/skillfilesystem/catalog.go:719-724 | The in-place sort arranges the files as the insertion of each into the sorted rest. |
| PackageHash.OneArrangement | adapters/skillfilesystem/catalog.go:719-724 | Files with distinct paths have one ascending arrangement. |
| PackageHash.UnpartParts | adapters/skillfilesystem/catalog.go:740-746 | A stream of length-prefixed parts decodes to those parts, for every list of parts. |
| PackageHash.HashPackage | adapters/skillfilesystem/catalog.go:719-738 | The digest is that of the manifest and the sorted files, written part by part. |
| PackageHash.StreamTells | adapters/skillfilesystem/catalog.go:719-746 | Two packages are hashed from the same bytes if and only if their manifests are equal and they have the same content at every path, in whatever order the files were declared. |
| PackageDeclaration.NormalizeDeclaration | adapters/skillfilesystem/catalog.go:658-700 | A normal form is returned exactly when the declaration has one. |
| PackageDeclaration.NormalizeFiles | adapters/skillfilesystem/catalog.go:678-690 | The declared paths are accepted exactly when each has a normal form and no two have the same. |
| PackageDeclaration.NormalPathTwice | adapters/skillfilesystem/catalog.go:702-717 | A normalized path is its own normal form. |
| PackageDeclaration.NormalFormForgetsOrder | adapters/skillfilesystem/catalog.go:658-700 | Reordering the declared files and runtimes does not change the normal form. |
| PackageDeclaration.NormalFormIsNormal | adapters/skillfilesystem/catalog.go:658-700 | A normal form lists distinct portable paths, its instructions among them, and is its own normal form. |
| PackageDeclaration.DeclarationOrderIsNotHashed | adapters/skillfilesystem/catalog.go:658-738 | Two declarations of a package that differ in order are hashed from the same bytes, whatever encodes the manifest. |
| SagaJournal.Journal.AppendEvent | core/journal.go:87-92 | A valid event is appended to its own saga's segment, and nothing else changes; an invalid one changes nothing. |
| SagaJournal.Journal.AppendAttempt | core/journal.go:93-99 | A valid attempt is appended with its diagnostic redacted. |
| SagaJournal.Journal.ListSagas | core/journal.go:33-69 | Every saga with a record is listed once, in order. |
| SagaRecovery.InspectSaga | core/recovery.go:41-122 | The fold over one saga's records gives exactly its declared obligations. |
| SagaRecovery.FindOwedAttempt | core/recovery.go:103-119 | The backward scan finds the last attempt that failed, is its handler's latest and is no storage handler's. |
| SagaRecovery.InspectRecovery | core/recovery.go:32-131 | The projection is exactly the obligations of all sagas, ordered by saga and state. |
| SagaRecovery.StorageObligation | core/recovery.go:66-101 | With decodable payloads a storage obligation is shown if and only if the last storage event is neither a success nor a resolution. |
| SagaRecovery.OwesWhenOpen | core/recovery.go:66-101 | For every journal: it is shown if and only if the last record with an effect opens it. |
| SagaRecovery.HandlerObligation | core/recovery.go:103-119 | A handler obligation is shown if and only if the latest attempt of some other handler failed, and is about the most recent one. |
| SagaRecovery.GraphObligation | core/recovery.go:56-68 | A graph obligation is shown if and only if some closed session carried a pending graph state. |
| SagaCommands.ShownWhenOwed | core/session.go:343-401 | Cut at any append, the projection shows an obligation exactly when the saga's journal holds an intent, a failed shutdown or an unmirrored result with no mirrored result after it, and in a state that a command handles. |
| SagaCommands.OwedUntilMirrored | cmd/syntroph/main.go:230-241 | Every step leaves an obligation as it was, except that it comes at once with a record that obliges and goes away at once, and only, with a mirrored result. |
| SagaCommands.ShutdownFailureShowsAgain | cmd/syntroph/main.go:302-321 | After a failed adapter shutdown every saga that the retry visited shows its obligation again, whatever other commands write in between, until a mirrored result is journaled after the failure. |
| SagaCommands.IntentBeforeEffect | core/session.go:343-374 | A close reaches the mirror only with its intent in the journal. |
| SagaCommands.JournalsOnlyGrow | core/journal.go:101-123 | One step appends at most one record to a saga and removes none. |
| WikiProtocol.PushedHeads | adapters/githubwiki/wiki.go:248-283 | Every pushed head has the fetched head as parent and differs from it by that one page. |
| WikiProtocol.PageStaysExactly | adapters/githubwiki/wiki.go:207-273 | Whatever other committers did, forced or not: a push leaves the remote's page at a path as it is if and only if the remote agrees there with the fetched head, or, at the call's path, holds the expected page. |
| WikiProtocol.ExistingPagesStay | adapters/githubwiki/wiki.go:152-283 | A push from the head where the remote stands replaces no page of the remote, except for a keep-local that observed that head. |
| WikiProtocol.UnforcedPushIsFromRemote | adapters/githubwiki/wiki.go:268-273 | While other committers only add to the branch, every accepted push starts where the remote stands. |
| WikiProtocol.ForcedBranchLosesPage | adapters/githubwiki/wiki.go:268-273 | When the branch is forced back in between, a create replaces an existing page. |
| WikiProtocol.MirroredNamesThePage | adapters/githubwiki/wiki.go:274-283 | Every Mirrored answer names a commit that holds the expected page or the acknowledged head. |
| WikiPage.WrittenPageIsRecognised | adapters/githubwiki/wiki.go:374-424 | A page given its marker is recognised if and only if the diary's frontmatter is closed, not at once, and holds the key line; a diary with the marker anywhere, if and only if its frontmatter holds both lines. |
| SkillArguments.ValidateShape | core/skill_arguments.go:90-113 | The shape check accepts exactly the schemas of the subset, in whatever order properties are visited. |
| SkillArguments.ParseSchema | core/skill_arguments.go:60-85 | A decoded schema is accepted exactly when its root, an object by default, has an accepted shape. |
| SkillArguments.ValidateValue | core/skill_arguments.go:146-212 | Validation terminates, reads no missing items, and accepts exactly the conforming values, in whatever order fields are visited. |
| SkillArguments.ValidateFields | core/skill_arguments.go:128-144 | Fields are accepted exactly when all required ones are there and each is declared and conforms. |
| SkillArguments.ValidateArguments | core/skill_arguments.go:118-126 | Without a schema only the empty object is accepted; with one, exactly the conforming root fields. |
| SkillArguments.RootAccepts | core/skill_arguments.go:118-144 | At the root, acceptance is conformance when the root's enum lists the value; absent properties admit only the empty object. |
| SkillArguments.FieldsAreClosed | core/skill_arguments.go:128-144 | Dropping an optional field keeps an object accepted; adding an undeclared one never does. |
| SkillPort.InMemorySkillPort.AddAll | core/skill.go:201-225 | A catalog is accepted exactly when its entries are valid and no qualified name repeats, and then holds exactly them. |
| SkillPort.InMemorySkillPort.ResolveName | core/skill.go:281-310 | Lookup through the index agrees with a scan: canonical names, then aliases that never chain, then unqualified names of exactly one package. |
| SkillPort.IndexIsScan | core/skill.go:295-310 | The index lists none, one or several packages exactly as a scan finds them. |
| SkillPort.ResolutionIsDetermined | core/skill.go:281-310 | The scan that lookup agrees with leaves one answer for every name. |
| SkillPort.InMemorySkillPort.Prepare | core/skill.go:227-273 | Preparation answers and binds as specified for the scanned entry. |
| SkillPort.BindingsStay | core/skill.go:255-273 | Over every sequence of preparations a bound invocation keeps its bundle. |
| SkillPort.AnswersNeverClash | core/skill.go:255-273 | Over every sequence of preparations, two that succeed under one invocation return the same bundle, and the later one had named that invocation: a generated identity never meets an earlier one. |
| SkillPort.ReplayReturnsTheBundle | core/skill.go:255-273 | An explicit replay changes nothing and returns the bound bundle or fails; without collisions it succeeds exactly for the same content. |
| SkillPort.HashIgnoresInvocation | core/skill.go:312-356 | A bundle is built for one invocation exactly when it is for any other, with the same content and the same hash. |
| SkillEvidence.GatherEvidence | core/skill_invocation.go:207-285 | The fold gives the last preparation, else the first use, and the last outcome. |
| SkillEvidence.Reconcile | core/skill_invocation.go:294-342 | A record is runtime-declared if and only if no event is evidence, journal-verified if and only if it agrees with the evidence, and rejected otherwise; the referenced events are the declared ones. |
| SkillEvidence.IdentityMeans | core/skill_invocation.go:207-285 | Identity evidence is the last prepared event; with none, the first started, completed or failed one. |
| SkillEvidence.SilentRecordsChangeNothing | core/skill_invocation.go:207-285 | Any number of linked or prepare-requested events leaves the verdict as it was. |
| SkillEvidence.EmitLinks | core/session.go:426-454 | A close appends one link to each accepted invocation's own saga and touches nothing else. |
| SkillEvidence.LinksChangeNoVerdict | core/session.go:426-454 | A session close changes no verdict. |
| SkillSection.ScanSection | core/skill_invocation.go:362-399 | A section is scanned exactly when it holds one closed pair of fences, and ends at the next section heading outside a fence. |
| SkillSection.ExtractSection | core/skill_invocation.go:353-417 | The scan ends on every input; it succeeds exactly without a heading or with one valid section, and removes exactly the slice from the heading to the section's end. |
| SkillSection.SliceRestores | core/skill_invocation.go:353-417 | Putting the slice back restores the artifact. |
| CodeReferences.ResolveAll | core/graph.go:181-213 | The nested loops resolve every reference in place: unresolved without a matching candidate, authoritative by default. |
| CodeReferences.CollectBatch | core/session.go:482-497 | The batch repeats no key and holds the first declaration of each. |
| CodeReferences.ResolveCodeReferences | core/session.go:476-525 | Length and order are kept at every position; each gets the resolution of the first reference with its key; a failing graph leaves all, unresolved. |
| CodeReferences.PositionsKeepTheirKeys | core/session.go:531-544 | Resolution never changes path, symbol or kind at a position. |
| CodeReferences.BatchIsTransparent | core/session.go:476-544 | A position gets what resolving it alone would give if and only if the graph does not know the reference, or the first declaration with its key states the same confidence. |
| CodeReferences.AgreedBatchIsTransparent | core/session.go:476-544 | When equal keys agree on their confidence, every position gets what resolving it alone would give. |
| CodeReferences.FirstDeclarationDecides | core/session.go:482-492 | After the batch, a reference declared authoritative comes back inferred when the same reference was declared inferred before it. |
| McpClient.Client.Call | adapters/githubissues/mcp_client.go:293-336 | A call uses a new ID unless the client is closed, ends as the first message that carries that ID, and is a part of a run. |
| McpClient.Client.Negotiate | adapters/githubissues/mcp_client.go:173-234 | Negotiation uses one or two new IDs, restarts exactly after a discovery that timed out, and never resets the count. |
| McpRuns.AwaitMeans | adapters/githubissues/mcp_client.go:308-335 | A call is answered by the first message with its ID, if neither deadline, cancellation nor process end comes before. |
| McpRuns.DrainingAwaits | adapters/githubissues/mcp_client.go:308-335 | Taking message after message from the channel ends a waiting call as it waits for its own answer, past those that earlier calls left. |
| McpRuns.StrangersAreSkipped | adapters/githubissues/mcp_client.go:317-324 | Messages for other calls never matter. |
| McpRuns.IdsAreNeverReused | adapters/githubissues/mcp_client.go:293-336 | Over every run of messages, calls, cancellations, closings and restarts, the requests have the IDs 1, 2, 3, ..., each once. |
| McpRuns.CountNeverFalls | adapters/githubissues/mcp_client.go:421-424 | In every continuation, restarts included, the count does not fall and past calls stay as they ended. |
| McpRuns.LateAnswersAreNotDelivered | adapters/githubissues/mcp_client.go:293-336 | Over every such run, a response ends a call only if the server sent it under that call's ID: one that answers an earlier call, late, ends no other. |
| McpClient.BoundedBuffer.Write | adapters/githubissues/mcp_client.go:80-97 | The buffer is the beginning of all writes up to its limit, and says when it left something out, unless the limit is not positive. |
| McpLifecycle.Provider.Operate | adapters/githubissues/mcp.go:134-150 | Outside a command an operation leaves no child; inside, it uses the prepared one or the remembered failure. |
| McpLifecycle.RunCommand | adapters/githubissues/mcp.go:155-210 | A command starts at most one child, uses it for every operation, and leaves none. |

## Left out

- Hypotheses of the Issues protocol: people's texts bring no marker of the mirror and edit none in, people do not delete comments, Issue numbers are positive and new, and a comment does not change its Issue's instant.
- Over the Issues protocol the reads are those of REST; `TransportsAgree` says when MCP's are the same.
- The list pages that `findMarked` and `findCorrection` walk: the marked Issue is found nondeterministically among the closed ones, and comments are scanned in their order, one a step.
- Issue URLs, titles, labels and update times of bindings; retry delays and headers of the REST client, and which status codes are transient.
- Clearing an orphan lock, and comparing and removing a lock at release, are each one step; the double load of a binding under its lock is one step.
- Over the Issues protocol, removal of a lock file after its record could not be written is taken to succeed; `MirrorLocks.Acquire` has both cases.
- Requests that only read, and those that ensure labels, are one step each, however often they are sent.
- A file write that reports an error after its rename (the directory could not be synchronized) is taken to have had no effect.
- Removal of a staging tree is one step; drift of the store from outside, which `Verify` reports, is not modelled.
- Over the catalog protocol, temporary files that best-effort removals leave behind have no claim; `CatalogDirectory.Acquire` has both cases.
- The order of error messages and their text.
- Migration of version-0 journal events, and records that are neither events nor attempts.
- A crash between saving a diary and journaling its closed session: runs start at the journaled events.
- The meaning of published graph snapshots; the Graphify adapter.
- Floating-point bounds: minimum and maximum are integers.
- Case folding of the section heading is modelled on ASCII.
- Integers of the MCP request counter do not wrap.
- `wikiPage`'s path and its parse of `created_at`; Wiki commits carry pages only.
- The bundle does not distinguish absent from empty arguments, as its encoding does not.
- Configuration, path confinement through links, media types, static file checks and package size limits.
- Process probes: liveness is alive, dead or unknown, and dead is permanent.
