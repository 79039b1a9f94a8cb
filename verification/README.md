# Casefile Store: the cooperative mutation protocol

The Casefile Store keeps planning records (tickets, epics, boards, decisions, evidence) as
files. Any number of cooperating writers may change them at once. A writer locks and checks
only a small set of files around its own change, and still the whole investigation must
never contain a supersession cycle, one identity held by two records, or a reference that
names nothing. This project models that protocol and the algorithms it rests on, and proves
what they promise.

How the parts fit:

* `Records` holds the data: paths with the facts the layout gives them, records with the
  classifier's verdict next to the header that discovery reads, and what a reference may name.
* `Cycles` and `Validation` model cross-record validation with its indexes and loops, against
  `Multiplicity`, which says how often each diagnostic is due.
* `Discovery` models the dependency closure with its frontier loop. `Closure` says exactly
  what it selects.
* `Locality`, `Adequacy`, `Equivalence` and `Writing` prove that the check of the small set
  misses nothing: a batch introduces nothing there exactly when it introduces nothing in its
  investigations.
* `Locks` is the lock plan and its deadlock freedom. `Protocol` is the step machine of N
  writers: guess, lock, rediscover file by file, compare, check, write file by file, roll
  back, finish. `Commit` adds atomicity, isolation, and that a lone writer gets through, or back.
  `Sharing` says when writers keep each other waiting.
* `Rollback` undoes written files under external edits and failing system calls, and tells
  what happened at every path, edited or not.
* `Progress` and `Appending` are the status chain and the append-only progress log.
* `Paths`, `Layout`, `Kinds`, `Scopes` and `Ownership` are the path algorithms; `Scopes` shows
  which valid activations give a world as the other modules assume: all in which the lookup
  finds a project for every investigation.
* `Limits` holds a batch for each premise that fails without it, over the real layout: `Sites`
  says where the files of an investigation are, and `Stages` what a few tickets there refer to.
* `Observation` is the reference worklist; `Framing` and `WorkerPool` are the MCP session.

Loops that change variables are methods with invariants; files and logs that are updated in
place are classes; expressions are functions. Hashes, inodes and stamps are tokens. A parsed
file is a value. File names, timestamps and blank text are judged by parameters where a
library judges them in the program.

A proposal is rendered from a complete draft, so the model takes it as a well-formed ticket,
epic or board; a malformed file that is already there may be read by anyone, but a writer that
repairs one is left out. The identities of tickets and epics never contain `-D-` and those of
decisions always do (work_item.rs:135-138, decision.rs:27-34), which keeps bare references in
a store in order in one role.

The main theorems: `Protocol.QuietStoresStayGood`, `Commit.AllOrNothing`,
`Commit.CapturedFilesStay`, `Adequacy.CleanPreviewIsSafe`,
`Equivalence.ProjectedCheckIsExact`, `Validation.CrossValidate`, `Cycles.CycleReachable`,
`Discovery.Discover` with `Closure.ClosureIsExact`, `Locks.Acquire`,
`Locks.MaximalRunServesAll`, `Sharing.ConfirmedTogether`,
`Rollback.FileStore.Transaction`, `Appending.ExactlyOnce`, `Ownership.Validate`,
`Scopes.IndexAgreesUnlessRoot`, `Scopes.WorldIsCoherent`, `Observation.ObserveDependencies`,
`Framing.ReadAll`, `WorkerPool.ReturnedIsDrained`.

Six promises hold only under a condition; each has its exact condition and, where the code
fails, an input:

* The closure follows every supersession edge from the seeds if and only if no flag is lost
  (`Closure.ForwardClosureIffNoFlagLost`). A change that supersedes a ticket by identity and
  also relates to it by path loses one, and a store in order can end quiet with a cycle
  (`Limits.OverwrittenFlagHidesCycle`, `Limits.OverwriteCommits`).
* A record that shares an identity with a written one is validated if and only if its header
  states a written identity or refers to a written record (`Equivalence.NamesakeIsValidatedIff`).
  A decision whose header is silent escapes (`Limits.HiddenNamesakeEscapes`).
* A bare reference points at its places as a work item if and only if it is not listed as a
  decision as well (`Adequacy.PlacesPointedIffOneRole`). In a store in order none is; in another
  store a ticket of another investigation can hide a cycle (`Limits.DoubleRoleHidesCycle`).
* A reference from another investigation breaks if and only if it is the path of a work item
  that the batch takes away (`Locality.ForeignReferenceBreaksIff`,
  `Limits.RemovalBreaksForeignReference`). The program leaves such references to the check of
  the whole store on purpose.
* Lookup and scan agree on the project of every path if and only if no slug has a slash
  (`Scopes.LookupsAgreeIffSlashFree`).
* A progress request succeeds without being recorded if and only if it is a stale, undiagnosed
  bootstrap of an existing log with entries that the log lacks (`Appending.ProgressStore.Apply`);
  the Store itself issues no such preview.

## Model

| member | source | states |
|---|---|---|
| Cycles.CountEdges | casefile/casefile-store/src/validation.rs:402-411 | Counts each node's edges into the graph's keys with multiplicity; every reverse list holds a node as often as it has that edge |
| Cycles.InitialLeaves | casefile/casefile-store/src/validation.rs:412-415 | The start of the peeling: the leaves are the nodes whose counter is zero, each once |
| Cycles.Release | casefile/casefile-store/src/validation.rs:418-424 | A counter that is decremented was positive, and a parent becomes a leaf exactly when its last edge goes |
| Cycles.Pop | casefile/casefile-store/src/validation.rs:416-426 | Popping a leaf keeps every counter equal to the edges into nodes not yet popped |
| Cycles.NoLeafMeansCycle | casefile/casefile-store/src/validation.rs:427-430 | In a set where every node has a successor in the set, each node reaches a cycle |
| Cycles.PeeledReachesNoCycle | casefile/casefile-store/src/validation.rs:416-426 | A node whose edges all lead to earlier peeled nodes reaches no cycle |
| Cycles.CycleReachable | casefile/casefile-store/src/validation.rs:401-431 | Returns exactly the nodes from which some walk on the graph's keys comes back to a node, self-loops and repeated edges included |
| Validation.IndexEntries | casefile/casefile-store/src/validation.rs:112-121 | The index holds each governed entry once, under its project, scope and identity |
| Validation.LookupIsNaive | casefile/casefile-store/src/validation.rs:158-198 | Indexed lookup of bare identities, project decisions and explicit paths finds exactly the governed entries of the right kind that a scan with `matches` admits |
| Validation.Resolve | casefile/casefile-store/src/validation.rs:158-204 | Returns a target exactly when a single governed entry of the right kind matches |
| Validation.DuplicateDiagnostics | casefile/casefile-store/src/validation.rs:122-134 | Each later holder of an identity in a domain is reported once, naming the holder directly before it in path order |
| Validation.WorkDiagnostics | casefile/casefile-store/src/validation.rs:205-237 | Each decision or work reference that resolves to nothing, to several records or to its own source is reported as often as it is listed; the graph holds the resolved supersession targets |
| Validation.MetadataDiagnostics | casefile/casefile-store/src/validation.rs:238-256 | Evidence and reviews are reported once per listed reference that no single record of the scope bears |
| Validation.CycleDiagnostics | casefile/casefile-store/src/validation.rs:271-277 | Exactly the work items that reach a supersession cycle are reported, once each |
| Validation.CrossValidate | casefile/casefile-store/src/validation.rs:95-279 | The returned list holds every diagnostic exactly as often as the independent definition says it is due; said of the fields of a governed ticket or epic: each reference that no single other governed ticket or epic stands for is reported as often as `related_tickets`, `supersedes` and `superseded_by` list it together, each decision reference likewise, and nothing else; and each later bearer of an identity names the nearest one before it |
| Records.ReferencesStayInside | casefile/casefile-store/src/references.rs:14-30 | A reference stays in its project, and a bare one leaves its investigation only for a decision of the project |
| Discovery.ReadHeaders | casefile/casefile-store/src/mutation_dependencies.rs:102-162 | The headers known at the start are the listed ones with the proposed edges added; every changed path is a written target under its old and its proposed identity |
| Discovery.ProposedHeader | casefile/casefile-store/src/mutation_dependencies.rs:149-161 | Field by field, the header of a changed path lists the old references and the proposed ones; its identity is the proposed one, or the old one when none is proposed |
| Discovery.Select | casefile/casefile-store/src/mutation_dependencies.rs:277-305 | Validated are the changed paths, every record with a reference to a written target, and every record of the scope with a written identity |
| Ordering.LtMeans | casefile/casefile-store/src/mutation_dependencies.rs:324-329 | The order of sorted containers: at the first place where two strings differ one ends, and comes first, or the smaller character decides |
| Discovery.Enter | casefile/casefile-store/src/mutation_dependencies.rs:330-357 | After a reference, each path it names carries that reference's flag, and all others the flag of the last reference naming them |
| Discovery.LastFlagSurvives | casefile/casefile-store/src/mutation_dependencies.rs:329-357 | A target keeps its supersession flag when some `supersedes` reference to it sorts after every other reference to it |
| Discovery.LastFlagPasses | casefile/casefile-store/src/mutation_dependencies.rs:329-357 | A flag that survived comes from a `supersedes` reference that sorts after every other reference naming the target |
| Discovery.Follow | casefile/casefile-store/src/mutation_dependencies.rs:312-370 | The frontier loop ends, visits each pair once, follows everything visited, and selects nothing that a header known at the start or the layout does not name from something visited |
| Discovery.Discover | casefile/casefile-store/src/mutation_dependencies.rs:83-386 | The closure is as defined: everything that must be selected is, and nothing but seeds and what followed references name, with supersession walks as the only continuation; validated are exactly the changed paths and the records of their investigations that refer to one or bear an identity that one has before or after; the written identities are exactly those a changed path has before or after, under its own investigation; every lock identity is that of a selected path in its investigation |
| Discovery.InvestigationsStayApart | casefile/casefile-store/src/mutation_dependencies.rs:371-386 | Batches in different investigations write no common identity, whatever they call their records |
| Discovery.OnlyWritesAreExclusive | casefile/casefile-store/src/mutation_dependencies.rs:64-80 | Asked for exclusively are only the changed paths and the written identities of a batch that is applied; all other dependencies, and all of a preview, are asked for shared |
| Closure.ClosureIsExact | casefile/casefile-store/src/mutation_dependencies.rs:312-370 | When no header read later adds a name to a followed reference, the closure is exactly the seeds, their direct targets and the unbroken supersession walks from seeds; other neighbours are not followed |
| Closure.AtHomeIsSettled | casefile/casefile-store/src/mutation_dependencies.rs:312-370 | No header read later adds a name when the followed references come from the changed investigations and no decision outside them is named by its header alone |
| Closure.ForwardClosureIffNoFlagLost | casefile/casefile-store/src/mutation_dependencies.rs:330-357 | The whole forward supersession closure of the seeds is followed if and only if every superseded target of a seed is a seed, is reached by an unbroken walk, or supersedes nothing |
| Closure.NoFlagLostContinues | casefile/casefile-store/src/mutation_dependencies.rs:330-357 | Without a lost flag the forward closure is followed whatever headers are read on the way |
| Closure.OneSpellingLosesNothing | casefile/casefile-store/src/mutation_dependencies.rs:330-357 | Naming each superseded target by one reference is enough for that |
| Locality.FirstNewEdge | casefile/casefile-store/src/mutation_projection.rs:148-155 | On a newly cyclic walk, the source of the first new edge is newly cyclic itself |
| Locality.CyclesAgree | casefile/casefile-store/src/mutation_dependencies.rs:312-370 | Two graphs that agree on a set closed under their edges have the same cycle-reaching nodes in it |
| Locality.NewCycleIsValidated | casefile/casefile-store/src/mutation_dependencies.rs:277-305 | Whatever a batch makes cyclic, it makes some validated record cyclic |
| Locality.CleanKeepsAcyclic | casefile/casefile-store/src/mutation_projection.rs:148-155 | With adequate dependencies, a batch the projected check accepts closes no cycle anywhere in the store |
| Locality.CleanKeepsUnique | casefile/casefile-store/src/mutation_projection.rs:148-155 | After such a batch no two records of a scope whose headers state their identity share it |
| Locality.SpeakingIsUnique | casefile/casefile-store/src/validation.rs:122-134 | Tickets, epics and boards always state it; where decisions do too, no two records share an identity at all |
| Locality.CleanKeepsReferences | casefile/casefile-store/src/mutation_projection.rs:148-155 | Such a batch breaks no work reference inside a scope, its own or another record's |
| Locality.ForeignReferenceBreaksIff | casefile/casefile-store/src/checking.rs:57-58 | A reference from an investigation that the batch does not change breaks exactly when it is the path of a work item that the batch takes away |
| Locality.CleanKeepsDecisions | casefile/casefile-store/src/mutation_projection.rs:148-155 | Such a batch leaves no decision reference unresolved, its own or another record's |
| Locality.CleanBatchIsSafe | casefile/casefile-store/src/writing.rs:138-139 | An accepted batch keeps a store in order: no cycle, no shared stated identity, no broken work reference inside a scope, no broken decision reference |
| Adequacy.DiscoveredIsAdequate | casefile/casefile-store/src/mutation_dependencies.rs:277-370 | What discovery returns covers everything validated records and supersession edges can resolve to, before and after the batch, when no flag is lost and the walked tickets of other investigations use no text in two roles |
| Adequacy.DiscoveredIsAnchored | casefile/casefile-store/src/mutation_dependencies.rs:312-386 | It also covers every path at which a referred record could appear, so that another writer cannot create it unnoticed, when no walked record uses a text in two roles |
| Adequacy.PlacesPointedIffOneRole | casefile/casefile-store/src/references.rs:60-95 | A bare work reference points at its six conventional paths if and only if the header does not list it as a decision as well |
| Adequacy.GoodIsApart | casefile/casefile-store/src/validation.rs:205-237 | In a store in order every bare decision reference has the form of a decision identity and no bare work reference has it |
| Adequacy.CleanIsSeparate | casefile/casefile-store/src/validation.rs:205-237 | Over such a store an accepted batch leaves no text in two roles, so that the premise of the covering holds of itself |
| Adequacy.CleanPreviewIsSafe | casefile/casefile-store/src/writing.rs:64-159 | A preview without diagnostics over a store in order leaves it in order, when no flag is lost |
| Adequacy.DiscoveredLocksIdentities | casefile/casefile-store/src/mutation_dependencies.rs:371-386 | Every identity a changed path holds, before or after, is a written lock identity |
| Equivalence.WorkAlike | casefile/casefile-store/src/writing.rs:138-139 | Unresolved work and decision references: the projected check accepts a diagnostic exactly when the check of the investigations does |
| Equivalence.MetadataAlike | casefile/casefile-store/src/writing.rs:138-139 | The same for evidence and review references, although both checks may count other references differently |
| Equivalence.DuplicateAlike | casefile/casefile-store/src/mutation_projection.rs:151-154 | The same for duplicate identities, which the projection reports at every path |
| Equivalence.ProjectedCheckIsExact | casefile/casefile-store/src/writing.rs:138-139 | A batch introduces no diagnostic in the projected check if and only if it introduces none when every record of its investigations is validated |
| Equivalence.NamesakeIsValidatedIff | casefile/casefile-store/src/mutation_dependencies.rs:295-300 | A record that shares an identity with a written one is validated exactly when its header states a written identity or one of its references hits a written record |
| Equivalence.NamesakeEscapesIff | casefile/casefile-store/src/mutation_dependencies.rs:277-370 | It is missing from the checked files exactly when, besides, no seed refers to it and no supersession walk leads to it |
| Equivalence.ExactKeepsUnique | casefile/casefile-store/src/mutation_projection.rs:151-154 | When every record with a touched identity is checked, an accepted batch keeps all identities apart, those of decisions with silent headers included |
| Writing.KeptIsSubsequence | casefile/casefile-store/src/writing.rs:171-184 | The introduced diagnostics keep their order |
| Writing.KeptIsDifference | casefile/casefile-store/src/writing.rs:161-185 | Their multiset is the proposed one minus the baseline |
| Writing.IntroducesNothing | casefile/casefile-store/src/writing.rs:161-185 | None is left exactly when the proposed multiset is contained in the baseline |
| Writing.IntroducedDiagnostics | casefile/casefile-store/src/writing.rs:161-185 | The counting loop computes exactly that list |
| Writing.Project | casefile/casefile-store/src/mutation_projection.rs:148-155 | Keeps, with multiplicity, the diagnostics of validated paths and all duplicates |
| Writing.CheckBatch | casefile/casefile-store/src/writing.rs:138-139 | Returns each diagnostic as often as it becomes more frequent in the captured files, so nothing exactly when none does |
| Writing.PrepareBatch | casefile/casefile-store/src/writing.rs:64-159 | Discovers and checks: it returns exactly what the batch introduces in the checked files; a clean preview of a store in order is safe when no flag is lost, and under the two further conditions it is clean exactly when the batch introduces nothing in its investigations |
| Limits.HiddenNamesakeEscapes | casefile/casefile-store/src/mutation_dependencies.rs:295-300 | A board that takes the identity of a decision with a silent header passes the projected check over a store in order, while validating the investigation reports the duplicate |
| Limits.HiddenIsNamed | casefile/casefile-store/src/activation.rs:96-113 | In every investigation without another one inside it a decision and a board can play these parts |
| Limits.HiddenExists | casefile/casefile-store/src/activation.rs:96-113 | Such files by name, in a valid activation |
| Limits.OverwrittenFlagHidesCycle | casefile/casefile-store/src/mutation_dependencies.rs:330-357 | A change that names its superseded ticket by identity and by path closes a supersession cycle in a store in order and is accepted, although every other premise holds |
| Limits.OverwriteCommits | casefile/casefile-store/src/writing.rs:256-429 | A run of one writer carries that change out and ends in a quiet store with a cycle |
| Limits.RingIsProper | casefile/casefile-store/src/activation.rs:96-113 | In every investigation without another one inside it any four ticket identities serve for it |
| Limits.RingExists | casefile/casefile-store/src/mutation_dependencies.rs:330-357 | Paths and identities for that batch in a valid activation |
| Limits.DoubleRoleHidesCycle | casefile/casefile-store/src/references.rs:60-95 | A ticket of another investigation that lists a text as a decision and supersedes by it hides a cycle from the projected check, although no flag is lost |
| Limits.RolesAreAcross | casefile/casefile-store/src/activation.rs:96-113 | Any two such investigations of a project have tickets for that batch |
| Limits.RolesExist | casefile/casefile-store/src/activation.rs:96-113 | Such tickets by name, in a valid activation |
| Limits.RemovalBreaksForeignReference | casefile/casefile-store/src/checking.rs:57-58 | Removing a ticket that another investigation names by its path is accepted over a store in order and leaves that reference unresolved |
| Locks.Merge | casefile/casefile-store/src/mutation_locks.rs:30-50 | Refuses exactly when two different exclusive keys share a canonical name; otherwise a canonical key is exclusive when one of its keys is |
| Locks.Acquire | casefile/casefile-store/src/mutation_locks.rs:10-70 | Refused exactly when two different paths that are written name one file; otherwise each path is locked under the name of its file, alone when some spelling of it asks for that, every other key as it is, and the locks are taken in strictly ascending order |
| Locks.RunIsExclusive | casefile/casefile-store/src/mutation_locks.rs:51-69 | In every run no exclusive holder coexists with another holder of the key |
| Locks.GrantedIff | casefile/casefile-store/src/mutation_locks.rs:51-69 | A client gets its next lock exactly when no other client has the key exclusively, or at all if it wants it exclusively |
| Locks.SomeClientCanStep | casefile/casefile-store/src/mutation_locks.rs:51-69 | While some client has not released, some client can step |
| Locks.StepsRunOut | casefile/casefile-store/src/mutation_locks.rs:51-69 | Each step uses up one of finitely many |
| Locks.RunLength | casefile/casefile-store/src/mutation_locks.rs:51-69 | After k steps exactly k of them are used up, so a run is never longer than its plans allow |
| Locks.MaximalRunServesAll | casefile/casefile-store/src/mutation_locks.rs:51-69 | A run that cannot be continued has served every client |
| Locks.NestedAcquisitionGetsStuck | casefile/casefile-store/src/provider.rs:846-878 | A client that acquires again while it holds its first locks can end in a state where nobody can step |
| Protocol.WrittenPathIsPrivate | casefile/casefile-store/src/mutation_dependencies.rs:64-80 | What one writer writes under its confirmed plan is no dependency of a writer that held its locks at the same time |
| Protocol.WrittenIdentityIsPrivate | casefile/casefile-store/src/mutation_dependencies.rs:64-80 | An identity written by one is written by no other |
| Protocol.AdequacyUndisturbed | casefile/casefile-store/src/mutation.rs:57-66 | Confirmed dependencies stay adequate whatever the writers met do to their own files |
| Protocol.SeenAgrees | casefile/casefile-store/src/mutation.rs:60-90 | Rediscovery reads the files one by one while others write; the files it ends up asking for were locked and so read as they are |
| Protocol.LookKeeps | casefile/casefile-store/src/mutation.rs:60-61 | Each file read keeps the invariant: what was read is still there, or a writer met since has put its own version there |
| Protocol.ConfirmKeeps | casefile/casefile-store/src/mutation.rs:60-66 | Rediscovery under the locks, over files read at different times, establishes adequacy also while others are half way |
| Protocol.StartKeeps | casefile/casefile-store/src/writing.rs:311-370 | Starting to write is safe for every combination of other active writers committing or not |
| Protocol.WriteKeeps | casefile/casefile-store/src/writing.rs:371-392 | Each written file keeps the invariant |
| Protocol.UndoKeeps | casefile/casefile-store/src/mutation_restore.rs:79-87 | Each restored file keeps the invariant |
| Protocol.FinishKeeps | casefile/casefile-store/src/writing.rs:393-429 | Releasing the locks after the last file, or after the last restore, keeps it |
| Protocol.RunKeeps | casefile/casefile-store/src/mutation.rs:40-186 | Every state of every interleaving satisfies the invariant |
| Protocol.QuietStoresStayGood | casefile/casefile-store/src/mutation.rs:40-186 | For any number of writers whose accepted batches have lost no flag, and for any interleaving from a store in order: a store in which no writer is half way has no supersession cycle, no identity shared by two records whose headers state it, no broken work reference inside a scope and no broken decision reference |
| Commit.AllOrNothing | casefile/casefile-store/src/writing.rs:371-405 | In every interleaving, from any store, a writer that finishes leaves all its changes in place, or at each of its paths what it found there |
| Commit.OthersLeaveFiles | casefile/casefile-store/src/mutation_dependencies.rs:64-80 | No step of another writer touches a file that a confirmed or active writer depends on |
| Commit.RunKeepsLocks | casefile/casefile-store/src/mutation_dependencies.rs:64-80 | Every writer that relies on files holds the locks its dependencies ask for, and its files are as it left them |
| Commit.CapturedFilesStay | casefile/casefile-store/src/mutation.rs:280-291 | In every interleaving, from any store, captured files never go stale, so the comparison before the first write fails only because of other programs |
| Commit.LoneWriterCommits | casefile/casefile-store/src/writing.rs:256-429 | A clean batch of a writer that meets nobody has a run in which it is carried out in full, by steps as the safety theorem asks for when it has lost no flag |
| Commit.LoneWriterReturns | casefile/casefile-store/src/mutation_restore.rs:72-106 | When it fails after any number of its files, a run puts every one back |
| Sharing.HeldTogetherIff | casefile/casefile-store/src/mutation_dependencies.rs:64-80 | Two lock plans can be held at once if and only if neither writer is to write a path or an identity that the other one asks for |
| Sharing.ConfirmedTogether | casefile/casefile-store/src/mutation.rs:40-90 | Any number of writers of whom none is to write what another depends on have a run in which all are confirmed at once, whatever records they all refer to |
| Rollback.FileStore.Apply | casefile/casefile-store/src/mutation_restore.rs:21-70 | Issues a receipt exactly when the file was written, created or removed; fails exactly on a failing call, an obstacle, a create over a file or a removal of nothing, and then changes nothing |
| Rollback.FileStore.Restore | casefile/casefile-store/src/mutation_restore.rs:108-154 | Succeeds exactly when the path is still as its receipt left it and no call fails; otherwise the store is not touched and the reason is the first that applies: unreadable path, other kind of entry, unreadable stamp, other content or stamp, failed write |
| Rollback.FileStore.Rollback | casefile/casefile-store/src/mutation_restore.rs:72-106 | For each receipt only other programs are at its path before and after its restore; the restore puts the prior content back unreported, or leaves the path as it met it and reports it; the report lists exactly the receipts not restored, the last one first, each with the reason that applied; nothing else moves; the original cause is returned |
| Rollback.FileStore.WriteAll | casefile/casefile-store/src/governance.rs:1004-1032 | Every change before the first refused one is made and has a receipt, and the cause is that of the first refused change; there is none exactly when no change is refused; between the writes only other programs move anything |
| Rollback.FileStore.Transaction | casefile/casefile-store/src/writing.rs:370-405 | Succeeds exactly when no change is refused and the verification passes, and otherwise returns the cause of the first refusal or of the verification; a path whose receipt can be read is restored exactly when nobody has changed what was made there and no call fails; a path no editor touched ends with its new content, its old one, or is reported; without interference the old contents are all back |
| Rollback.EditsAreNoticed | casefile/casefile-store/src/mutation_restore.rs:115-128 | After another program has been at a path, rollback takes it for its own only if nothing changed |
| Rollback.RestoreNotices | casefile/casefile-store/src/mutation_restore.rs:108-154 | So a readable receipt is restored exactly when its path holds what was made there and no call fails |
| Progress.AcceptableNext | casefile/casefile-core/src/progress.rs:159-219 | Contiguous chains per ticket, unique identities and well-written entries are kept exactly by entries that continue them |
| Progress.PrefixIsAcceptable | casefile/casefile-core/src/progress.rs:153-221 | Acceptance is prefix-closed |
| Progress.Resume | casefile/casefile-core/src/progress.rs:157-219 | Accepting a log and resuming on more entries is accepting the whole; a refusal names the first complaint about the first bad entry |
| Progress.ValidateEntries | casefile/casefile-core/src/progress.rs:153-221 | Accepts exactly the logs in which every ticket's transitions start at unknown, continue one another and never stay in place |
| Progress.MaySpawn | casefile/casefile-store/src/governance.rs:613-632 | The fold permits a writer exactly when the ticket's last transition leads to in-progress, and agrees with the validator's status table |
| Appending.AppendedKeepsPrefix | casefile/casefile-store/src/progress.rs:524-544 | The merge keeps the log as a prefix and holds exactly the old and the requested identities |
| Appending.ConsistentIsRecorded | casefile/casefile-store/src/progress.rs:143-174 | A request without repeated or contradicted identities is recorded in full |
| Appending.ProgressStore.Merge | casefile/casefile-store/src/progress.rs:535-544 | The loop computes the merge |
| Appending.ProgressStore.Prepare | casefile/casefile-store/src/progress.rs:69-223 | A proposal is made exactly for admissible requests, with the bytes of the merged log, and is a no-op exactly when the bytes are those on disk |
| Appending.ProgressStore.Propose | casefile/casefile-store/src/progress.rs:58-67 | A preview carries a diagnostic exactly when the request is inadmissible or diagnosed, and otherwise shows the current revision and the effect |
| Appending.ProgressStore.CompletedNoOp | casefile/casefile-store/src/progress.rs:366-392 | A stale request counts as completed exactly when every entry is recorded, or when a bootstrap finds a log |
| Appending.ProgressStore.Apply | casefile/casefile-store/src/progress.rs:233-345 | Any preview, however old: fails as stale exactly for a race, a moved log that does not hold the request, moved inputs or an unsteady store, and as invalid exactly for a diagnosed preview, an unreadable log, a request that no longer fits or a failed verification, whichever is met first; keeps the old entries as a prefix; on success every requested entry is in the log, except exactly for a stale bootstrap of an existing log with entries it lacks |
| Appending.EarlierIsPrefix | casefile/casefile-store/src/progress.rs:524-544 | Over any run of applies, earlier entries stay a prefix of the log |
| Appending.ExactlyOnce | casefile/casefile-store/src/progress.rs:233-345 | A request that ever succeeded has each of its entries in the log exactly once from then on |
| Appending.ForgedBootstrapClaimsSuccess | casefile/casefile-store/src/progress.rs:373-375 | Every log has such a preview, which the Store itself never issues |
| Paths.JoinSplit | casefile/casefile-core/src/strategy_transition.rs:365-367 | Joining the components of a path gives the path |
| Paths.SplitJoin | casefile/casefile-store/src/layout.rs:24-35 | Splitting joined components gives the components |
| Paths.AboveIsPrefix | casefile/casefile-store/src/activation.rs:190-195 | A path is contained in a scope by components exactly when it is equal or has the scope and a slash as prefix |
| Paths.SubtreeIsContiguous | casefile/casefile-core/src/strategy_transition.rs:242-256 | In component order a subtree is contiguous |
| Ownership.OverlapIsNesting | casefile/casefile-core/src/strategy_transition.rs:370-378 | The string test holds exactly when one path is the other or a directory above it, for all strings |
| Ownership.SafePathIff | casefile/casefile-core/src/strategy_transition.rs:357-368 | The paths that can be claimed, by their text: not blank, no backslash, no drive, and nothing empty, dotted or double-dotted between slashes, a leading and a trailing one included |
| Ownership.OnlyCoverMatters | casefile/casefile-core/src/strategy_transition.rs:243-257 | Any earlier claim that covers the next one is covered by the one claim the pass remembers |
| Ownership.Sweep | casefile/casefile-core/src/strategy_transition.rs:243-258 | The single pass over sorted claims refuses exactly when two claims of different owners are nested |
| Ownership.Validate | casefile/casefile-core/src/strategy_transition.rs:223-260 | Refuses malformed ownerships exactly, and overlapping ones exactly when two different owners claim nested paths |
| Layout.ResultSplitsIntoSegments | casefile/casefile-store/src/layout.rs:14-36 | A result splits into the very segments that were joined, none empty, dotted or unportable |
| Layout.NormalizeIsIdempotent | casefile/casefile-store/src/layout.rs:14-36 | Normalizing a result changes nothing |
| Layout.SafeIffNormalized | casefile/casefile-store/src/layout.rs:10-12 | The safe paths are exactly the results of normalization |
| Layout.SafeIffNormalSegments | casefile/casefile-store/src/layout.rs:10-36 | They are exactly the strings whose slash-separated components are all normal and free of backslashes |
| Layout.NormalizeRefuses | casefile/casefile-store/src/layout.rs:14-36 | The refusals exactly: the empty path; a path from a root or a drive; a path without components, or with one that is dotted or not portable |
| Layout.PortableIff | casefile/casefile-store/src/layout.rs:38-75 | A component is portable exactly when it has no control character and none of seven others, does not end in a space or a dot, and does not name a device or a port, in letters of either case, before its first dot |
| Kinds.KindIsShape | casefile/casefile-store/src/layout.rs:93-146 | A file below a root is of a kind, by its components, exactly when its path has the form of that kind |
| Scopes.NearestIsLongest | casefile/casefile-store/src/activation.rs:236-247 | The nearest root found by walking up is the longest root strictly above the path |
| Scopes.ScopeForIsLongest | casefile/casefile-store/src/activation.rs:158-169 | So is the one found by scanning all roots |
| Scopes.IndexAgreesUnlessRoot | casefile/casefile-store/src/activation.rs:226-262 | Index and scan give the same scope if and only if the path is not itself a root |
| Scopes.ProjectLookupAgrees | casefile/casefile-store/src/activation.rs:178-188 | With slugs free of slashes, lookup and scan give the same project |
| Scopes.LookupsAgreeIffSlashFree | casefile/casefile-store/src/activation.rs:178-188 | They agree about every path if and only if no slug has a slash |
| Scopes.SlashedSlugIsMissed | casefile/casefile-store/src/activation.rs:227-235 | A slug with a slash is found by the scan and missed by the lookup |
| Scopes.Resolve | casefile/casefile-store/src/activation.rs:226-262 | The ancestor walk computes the nearest root, the project and the kind |
| Scopes.ScopeIs | casefile/casefile-store/src/activation.rs:236-247 | The scope is the path itself if it is a root, and otherwise the longest root of any project that the path is below |
| Scopes.ProjectIs | casefile/casefile-store/src/activation.rs:227-235 | The project is found exactly when its slug is a component of its own, directly below `projects` and above something |
| Scopes.FileKind | casefile/casefile-store/src/activation.rs:248-256 | The kind is that of the two files at the top, a decision for the files of the project's decision log, and otherwise that of its form below the root of its investigation |
| Scopes.SixPlaces | casefile/casefile-store/src/references.rs:60-74 | The conventional paths of an identity are its six places, as far as they belong to the investigation |
| Scopes.StemIs | casefile/casefile-store/src/mutation_metadata.rs:38-43 | The identity in a file name is what stands before all its extensions |
| Scopes.WorldIsCoherent | casefile/casefile-store/src/activation.rs:96-113 | A valid activation gives scopes, projects and conventional paths as the other theorems require if and only if the lookup finds a project for every investigation |
| Scopes.WorkItemIsConventional | casefile/casefile-core/src/work_item.rs:152-170 | A work item of the layout sits at one of the six conventional paths of its scope and identity |
| Sites.BelowLeaf | casefile/casefile-store/src/activation.rs:226-262 | A file below an investigation without another one inside it belongs to it, and its kind comes from its components |
| Sites.TicketFacts | casefile/casefile-store/src/activation.rs:226-262 | So an accepted ticket has the facts, the stem and the conventional path that the other modules assume |
| Observation.ObserveDependencies | casefile/casefile-store/src/references.rs:98-158 | The worklist ends and returns exactly the existing, not yet selected paths that the selection reaches through the four reference fields of regular tickets and epics |
| Observation.PointsByReference | casefile/casefile-store/src/references.rs:32-140 | The loop over flagged references and their candidates meets exactly what the fields of a record name: decisions by `decision_refs`, work items by the other three |
| Observation.SupportIsLeastFixpoint | casefile/casefile-store/src/references.rs:123-156 | That set is closed under references, and every closed set contains it |
| Framing.Input.ReadFrame | casefile/casefile-cli/src/mcp.rs:1676-1700 | One read returns what the byte stream determines, whatever its chunks, and never holds more than the limit |
| Framing.ReadAll | casefile/casefile-cli/src/mcp.rs:1657-1674 | A session's messages and its end depend only on the bytes |
| Framing.MessagesAreLeadingLines | casefile/casefile-cli/src/mcp.rs:1676-1700 | The messages are the leading newline-terminated lines within the limit, in order and without loss, up to the end or to the first over-long or unterminated line |
| WorkerPool.RunKeeps | casefile/casefile-cli/src/mcp.rs:259-351 | In every panic-free interleaving dispatched and queued calls are the admitted ones in order, and every dispatched call is answered, lost or being served, once |
| WorkerPool.AtMostOnce | casefile/casefile-cli/src/mcp.rs:278-288 | Each call is dispatched at most once and answered at most once |
| WorkerPool.NoLateAdmission | casefile/casefile-cli/src/mcp.rs:299-338 | Once the controller has left its loop nothing is admitted |
| WorkerPool.ReturnedIsDrained | casefile/casefile-cli/src/mcp.rs:335-351 | If some worker never failed a write, every admitted call has been dispatched when the session returns; if none failed, every one has been answered |
| WorkerPool.DrainStepsRunOut | casefile/casefile-cli/src/mcp.rs:335-345 | After the controller has left, each step uses up some of a finite load |
| WorkerPool.DrainNeverSticks | casefile/casefile-cli/src/mcp.rs:335-345 | Until the session has returned, some step is possible |

## Left out

- Protocol.QuietStoresStayGood: assumes that accepted batches have lost no flag, which `Limits.OverwriteCommits` shows to be needed, and that no writer repairs a malformed ticket or epic, whose old header would be read beside the new one. Unique identities are those that headers state, which tickets, epics and boards always do and decisions may not (see `Limits.HiddenNamesakeEscapes`). Work references are those that stay inside a scope (see `Locality.ForeignReferenceBreaksIff`).
- Protocol.Init: external edits, failed restores and a changing activation are no steps of the N-writer machine; edits and failed restores are in `Rollback`. Revision tokens are compared as contents.
- Commit.AllOrNothing: restores succeed in the N-writer machine; what happens when they fail is in `Rollback`.
- Equivalence.ProjectedCheckIsExact: the conditions are sufficient, and `Limits` shows that none of the three can be dropped; a batch that violates one may still be judged rightly.
- Locality.CleanKeepsUnique: identities that headers do not state are in `Equivalence.ExactKeepsUnique`, under its further condition.
- Locality.CleanBatchIsSafe: references from one investigation to another are left to the check of the whole store (checking.rs:57-58); `Locality.ForeignReferenceBreaksIff` says when they break.
- Discovery.Select: extra paths and progress paths are not modelled.
- Discovery.Discover: changed paths are tickets, epics and boards of an investigation. Seeds for progress logs, strategies and bindings, extra paths, and attachments with their existence checks are not modelled.
- Closure.ClosureIsExact: assumes that no header read during the loop adds a name to a followed reference; `Closure.AtHomeIsSettled` gives a condition that can be checked, and without it the bounds in `Discovery.Covers` and `Discovery.Within` hold.
- Validation.DuplicateDiagnostics: the global identity mode, which compares all projects, is not modelled.
- Validation.CrossValidate: project prefixes, progress entries, missing attachments, the global identity mode and per-file diagnostics are not modelled.
- Writing.PrepareBatch: the checks of each request before the diagnostics (distinct writable targets, present or absent as the request says, unchanged revisions) are not modelled.
- Rollback.FileStore.Transaction: an edit in the instant between a restore's last look and its write is not modelled; the program gives no guarantee about it (mutation_restore.rs:129). Symbolic links and the observed remaining state of a reported path are not modelled.
- Appending.ProgressStore.Prepare: replacement of a log and repair of a malformed one are not modelled; they break append-only on purpose.
- Appending.ProgressStore.CompletedNoOp: the same holds of replacements here.
- Appending.ProgressStore.Apply: the same holds of replacements here. Incomplete rollback of the one file is in `Rollback`.
- Ownership.Sort: any order by components will do; the program's unstable sort is one of them.
- Scopes.ProjectLookupAgrees: needs slugs without slashes, which activation does not check; `Scopes.LookupsAgreeIffSlashFree` is the exact statement.
- Scopes.SlashedSlugIsMissed: one example of it.
- Framing.Input.ReadFrame: read errors of the operating system are not modelled.
- WorkerPool.RunKeeps: panicking workers, parse errors and the controller's own responses are not modelled, and neither is what a tool call does.
- Locks.Acquire: the case-sensitivity of directories is a function from paths to canonical names; lock files, the Git directory and hashes are not modelled.
- Parsing and rendering of TOML, YAML and Markdown, diffs, the index, the HTTP server, the TUI and the browser code are not part of this model.
