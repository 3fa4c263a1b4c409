# Verified model of Thebe's transactional protocols

This project models the hard core of the Thebe backend in Dafny and proves what
its protocols promise. Each group below has a specification written as functions
on values, a state machine that interleaves the statements of many callers, and
classes whose methods are the source's own calls, proved against both.

* **Bounded tasks and unattended runs** (`TaskTables`, `TaskPipeline`,
  `UnattendedRuns`, `StalledRuns`, `TaskCalls`, `TaskStore`, `AutonomyPolicy`,
  `IntentText`, `TextClean`, `TextWords`, `DayLimits`, `TaskOutcomes`,
  `PolicyOutcomes`). Requests are prepared, approved, permitted and executed by
  callers whose reads may be stale by the time their batch runs. Guards, triggers,
  unique keys and `changes()` chaining make every effect happen exactly once.
* **Lease worker and owner stop** (`LeaseRules`, `LeaseWorker`, `OwnerStop`,
  `LeaseStore`, `LeaseCalls`). Worker transactions take a share lock on the
  controls, the owner an exclusive one; tokens fence leases, and a committed stop
  is a barrier.
* **Dispatch admission** (`DispatchAdmission`, `DispatchOutcomes`, `DispatchQueue`,
  `DispatchStore`) and **approval consumption** (`ApprovalRules`, `OrderedChecks`,
  `ApprovalOutcomes`, `ApprovalConsumption`, `ApprovalStore`). Transactions of
  lock, read and write steps; a commit is shown to be the whole decision on the
  tables as they are at that moment.
* **Sealed audit chain** (`D1Batch`, `AuditChain`, `AuditWriter`, `AuditText`,
  `AuditOutcomes`). Optimistic writers with five attempts extend a hash chain per
  tenant; the text under each seal can be recomputed from what the row stores.
* **Canonical JSON** (`Utf16Text`, `KeySort`, `JsonText`, `CanonicalJson`,
  `JsonOutcomes`). A printer over a possibly cyclic object graph, and an
  independent reader.
* **ZIP directory check** (`ZipFormat`, `ZipValidator`, `ZipWriter`, `ZipNames`,
  `ZipOutcomes`), against PKWARE APPNOTE.TXT sections 4.3.7, 4.3.12 and 4.3.16.
* **Sessions, limiters, costs, ranking, status logs, context compaction**
  (`Sessions`, `RateLimiter`, `LimiterOutcomes`, `CostPricing`, `CostLedger`,
  `CostRunner`, `LearnedRanking`, `RankingOutcomes`, `StatusLog`, `ContextValues`,
  `ContextCompaction`, `ContextOutcomes`, `StageOutcomes`).

Modules whose names end in `Outcomes`, with `DayLimits`, `ZipNames` and `TextWords`,
say what the calls do in terms of the data: with constants, names, bounds and orders
written out, instead of by the functions that specify the calls.

Tables are maps and sequences, clocks are non-decreasing numbers, and a hash is an
arbitrary function; where injectivity matters it is a stated hypothesis. Unique
indexes and triggers are modelled from the migrations they are declared in:
`cloudflare/migrations/004_v56_audit_lineage.sql:7-8`,
`cloudflare/migrations/047_v81_delegated_authority.sql:60`,
`cloudflare/migrations/048_v102_bounded_internal_task_execution.sql:41-169`,
`cloudflare/migrations/064_v217_jit_execution_permits.sql:12-149` and
`cloudflare/migrations/068_agent_cost_accounting.sql:3-213`.

Where a promise does not hold of the code, the code is kept and the exact condition
under which it does hold is proved, together with a concrete counterexample:

* An array with a hole and an index-like extra key passes the checks of
  `canonicalJson` and prints like another array (`SparseArrayPrintsAsEmpty`); texts
  are unambiguous exactly without such keys.
* Audit data under the key `"__proto__"` is not sealed (`ProtoIsNotRecorded`).
* An audit call is applied and sealed at most once through its five attempts if and
  only if its update cannot match again once it has matched
  (`SealsOnceExactlyWhenSelfDisabling`), as with a guard on a revision or a status.
  For such a call a lost answer is reported as a refusal, or as a failure when no
  later attempt is answered, although the mutation was applied
  (`SelfDisablingVerdict`, `AppendSealed`). An update that matches again, as the
  owner's download mark does, is sealed once per lost answer, up to five times
  (`LostAnswersSealAgain`).
* `text` is not idempotent (`CleaningIsNotIdempotent`), so a task can lose one
  trailing space of a truncated text.
* The interval of a standing policy separates the times at which runs are observed,
  not the times at which they commit (`RunsCanCommitTogether`).
* An unattended run that was interrupted can be completed later, as soon as its
  policy, grant and limits allow it and no other owner's approval is in the way,
  exactly when its occurrence is not stalled (`StalledForGood`, `RunPolicy`): its
  key is free, or holds the
  template's own intent with its request, and that request has its task or is not
  cancelled, not under a revoked grant and not left with an expired permit. A request
  is allowed one permit, ever, and the permit is issued before the guard decides, so
  an attempt that gets no further than its permit for five minutes, cut short or
  denied, stalls its policy for good (`UnusedPermitStalls`); so does anyone who
  prepares another payload under the occurrence's key (`OtherPayloadStalls`).
* The STATUS_CHANGED events of a task replay to its status exactly when its last
  change was one of them, and form a path exactly when none of them follows a change
  made without one (`TaskLogReplays`). Two kinds of change are made without one: the
  revocation of a standing policy, and the pause for the owner's attention of a
  business goal (`cloudflare/src/business-goal-durable-loop.js:205-208`) or finance
  watch (`cloudflare/src/finance-watch-durable-loop.js:127-130`)
  (`QuietRouteLeavesLogBehind`, `ResumeBreaksPath`).

## Model

| member | source | states |
|---|---|---|
| `JsonText.ParseInvertsPrint` | server/agent-action-policy.js:12-36 | an independent reader recovers every dense JSON tree from its canonical text followed by any legal delimiter |
| `JsonText.RoundTripExactlyWhenDense` | server/agent-action-policy.js:20-27 | the text of a tree reads back as that tree if and only if it holds no sparse array |
| `JsonText.PrintInjective` | server/agent-action-policy.js:12-36 | equal canonical texts of dense trees mean equal trees |
| `JsonText.PrintWellFormed` | server/agent-action-policy.js:38-42 | the text is well-formed UTF-16, so the digest is taken of exactly this text |
| `JsonText.ReadBodyInvertsQuote` | server/agent-action-policy.js:15 | a quoted string is recovered code unit by code unit, surrogate pairs and lone surrogates included |
| `KeySort.SortOrders` | server/agent-action-policy.js:32 | sorting by key permutes the properties; any earlier key agrees with any later one up to a place where it ends or its code unit is smaller |
| `KeySort.OrderedUnique` | server/agent-action-policy.js:32 | a set of keys has only one enumeration in a given order |
| `CanonicalJson.CanonicalInner` | server/agent-action-policy.js:12-36 | over a graph with sharing and cycles: terminates, gives the text or the first error the specification gives, and leaves the ancestor set as it found it on every exit |
| `CanonicalJson.MapJoin` | server/agent-action-policy.js:25 | mapping and joining the children restores the ancestor set even when a child throws |
| `CanonicalJson.Canonical` | server/agent-action-policy.js:8-10 | a call starts with no ancestors at depth 0; which values then have a text, and which text, is JsonOutcomes.CanonicalExactly |
| `CanonicalJson.InnerPrintsTree` | server/agent-action-policy.js:12-36 | a nested call succeeds exactly when the unfolding fits the remaining depth and meets no ancestor, and then prints the unfolding |
| `CanonicalJson.UnfoldingIsAcyclic` | server/agent-action-policy.js:21-29 | an object whose unfolding is finite does not contain itself |
| `CanonicalJson.SucceedsExactlyOnTrees` | server/agent-action-policy.js:8-36 | a call succeeds exactly when the unfolding is a JSON tree of depth at most 32, and prints that tree |
| `CanonicalJson.SameExactlyWhenTreesEqual` | server/agent-action-policy.js:31-35 | unfoldings are equal exactly when the two values are the same up to key order |
| `CanonicalJson.EqualTextsExactlyWhenSame` | server/agent-action-policy.js:8-36 | two accepted values without extra array keys have equal texts if and only if they are the same value up to key order |
| `CanonicalJson.DigestsTellArguments` | server/agent-action-policy.js:38-42 | with a collision-free hash, equal digests mean the same arguments and conversely |
| `CanonicalJson.ReadsBackExactlyWhenNoExtraKeys` | server/agent-action-policy.js:22-23 | the text of an accepted value reads back if and only if no array in it carries an index-like extra key |
| `CanonicalJson.SparseArrayPrintsAsEmpty` | server/agent-action-policy.js:22-25 | a one-element sparse array with the key "4294967295" is accepted and prints as the empty array does |
| `JsonOutcomes.CanonicalExactly` | server/agent-action-policy.js:8-36 | a value has a canonical text exactly when it denotes, place by place and property by property, a tree of at most 33 levels, and the text is that tree printed; the keys of every object rise strictly: each agrees with a later one up to a place where it ends or its code unit is smaller |
| `JsonOutcomes.TreeExactly` | server/agent-action-policy.js:12-36 | the unfolding within some levels is a given tree if and only if the value denotes it and it fits |
| `JsonOutcomes.KeysInUnitOrder` | server/agent-action-policy.js:31-34 | for any two plain units c < d, an object whose key d was added before c prints as {"c":true,"d":null}, spelled out |
| `JsonOutcomes.ArrayIsSpelled` | server/agent-action-policy.js:25 | an array is its items between brackets with commas and no white space |
| `JsonOutcomes.ObjectIsSpelled` | server/agent-action-policy.js:34 | an object is its fields between braces, each the quoted key, a colon and the value |
| `JsonOutcomes.EscapeIsShortest` | server/agent-action-policy.js:15 | of all well-formed texts that read as a unit inside a string, the printed one is the shortest |
| `JsonOutcomes.PlainTextUnchanged` | server/agent-action-policy.js:15 | well-formed text without controls, quotes and backslashes is printed as it is |
| `JsonOutcomes.SurrogatesPrinted` | server/agent-action-policy.js:15 | of two surrogates only a high one followed by a low one is printed as it is |
| `ZipValidator.FindEndRecord` | server/ai-export-artifact-signature.js:11-17 | the backward scan finds the last end record whose comment ends the buffer, or there is none |
| `ZipValidator.ReadCentral` | server/ai-export-artifact-signature.js:24-33 | a central record is read within bounds or rejected |
| `ZipValidator.MatchesLocal` | server/ai-export-artifact-signature.js:42-47 | the local header agrees with its record and its data ends before the directory |
| `ZipValidator.CheckRecord` | server/ai-export-artifact-signature.js:24-47 | a record passes exactly when it and its local header meet every check |
| `ZipValidator.WalkDirectory` | server/ai-export-artifact-signature.js:22-52 | the walk accepts exactly when the records fill the directory, are acceptable, distinctly named, small enough in total, and include the parts that ZipOutcomes.PartsRequired spells out |
| `ZipValidator.CheckDirectory` | server/ai-export-artifact-signature.js:18-52 | the end record and the directory it describes are accepted exactly as specified |
| `ZipValidator.ValidOfficeArchive` | server/ai-export-artifact-signature.js:10-53 | every read is in bounds and the answer is exactly the declarative archive predicate, which ZipOutcomes.AcceptedExactly spells out |
| `ZipValidator.HasExpectedSignature` | server/ai-export-artifact-signature.js:54-59 | the signature check accepts exactly PDFs by prefix and archives by structure, within the size limits |
| `ZipValidator.OnlyLastEndRecordMatters` | server/ai-export-artifact-signature.js:15-18 | only the end record nearest the end decides |
| `ZipValidator.SignaturesExclusive` | server/ai-export-artifact-signature.js:54-59 | no buffer passes both as a PDF and as an office archive |
| `ZipFormat.RecordsTile` | server/ai-export-artifact-signature.js:23-50 | accepted central records touch each other from the first directory byte to the last |
| `ZipFormat.AcceptedArchiveStructure` | server/ai-export-artifact-signature.js:10-53 | an accepted buffer has a tiled directory, unique admissible names, local headers and data before it, and at most 80 MiB expanded |
| `ZipWriter.RecordsReadBack` | server/ai-export-artifact-signature.js:23-49 | the directory a reference writer produces is read back entry by entry |
| `ZipWriter.WrittenArchiveAccepted` | server/ai-export-artifact-signature.js:10-53 | every archive the reference writer makes within the limits is accepted, with exactly its entries recovered in order |
| `ZipOutcomes.FieldsAreLittleEndian` | server/ai-export-artifact-signature.js:6-7 | two and four bytes are read as their little-endian number |
| `ZipOutcomes.SignatureExactly` | server/ai-export-artifact-signature.js:1-5 | the signatures are the letters PK and two more bytes |
| `ZipOutcomes.PartsRequired` | server/ai-export-artifact-signature.js:51-52 | an accepted archive lists "[Content_Types].xml" and "_rels/.rels", and "word/document.xml" for docx or "ppt/presentation.xml" for pptx |
| `ZipNames.ValidIsEncoded` | server/ai-export-artifact-signature.js:34-35 | bytes are valid exactly when they are the UTF-8 form of some text |
| `ZipNames.AdmissibleExactly` | server/ai-export-artifact-signature.js:34-39 | a name is admissible exactly when it is the UTF-8 form of a text without U+FFFD, backslash, NUL, leading slash, "." or ".." parts, and neither ends in a runnable file nor lies in an embedding folder |
| `ZipOutcomes.RecordFitsExactly` | server/ai-export-artifact-signature.js:24-47 | the checks of a record, with every bound written out |
| `ZipOutcomes.RecordsExactly` | server/ai-export-artifact-signature.js:24-49 | the directory is read as the records that lie in it end to end, field by field |
| `ZipOutcomes.AcceptedExactly` | server/ai-export-artifact-signature.js:10-53 | a buffer is an office archive exactly when it begins with a local header, closes with its last end record, and that record describes 3 to 2048 fitting, differently named records that tile the directory, expand to at most 83886080 bytes and hold the parts of the format |
| `ZipOutcomes.SignatureAcceptedExactly` | server/ai-export-artifact-signature.js:54-59 | within 8 bytes and 20 MiB, a PDF by "%PDF-" and an office file by its structure |
| `ZipOutcomes.EveryFittingArchiveAccepted` | server/ai-export-artifact-signature.js:10-53 | any entries within the written-out limits, with the parts of the format among them, make an archive that is accepted |
| `D1Batch.GuardedInsertsFollow` | cloudflare/src/agentic-persistent-tasks.js:153-165 | inserts guarded by changes()=1 all write or none does |
| `D1Batch.AllOrNothing` | cloudflare/src/agent-control-plane.js:144-157 | a one-row compare-and-set chained to guarded inserts writes every row or nothing |
| `AuditChain.BatchOutcome` | cloudflare/src/audit-lineage-writer.js:62-90 | an audit batch writes nothing, all of its rows, or rolls back on a taken number |
| `AuditChain.TakenExactlyWhenStale` | cloudflare/migrations/004_v56_audit_lineage.sql:7-8 | under the unique index a number is taken exactly when the read that chose it is stale |
| `AuditChain.HeadDeterminesHistory` | cloudflare/src/audit-lineage-writer.js:46-60 | with a collision-free hash the head hash fixes every event of the chain |
| `AuditChain.NextKeepsInv` | cloudflare/src/audit-lineage-writer.js:42-99 | every access by any writer keeps the chain linked from 1 to n and only extends it |
| `AuditChain.ReachableInv` | cloudflare/src/audit-lineage-writer.js:42-99 | rows are numbered 1..n without gaps or forks, each linked to its predecessor from GENESIS, and the head holds (n, hash n), in every interleaving |
| `AuditChain.AppliedExactlyAsSealed` | cloudflare/src/audit-lineage-writer.js:84-101 | a mutation is applied exactly as often as its event is sealed: once for a written verdict plus once per batch whose answer was lost, at most five |
| `AuditChain.RollbackMeansProgress` | cloudflare/src/audit-lineage-writer.js:88-99 | a batch rolls back if and only if its update breaks a constraint, or matches while another writer got ahead |
| `AuditChain.SealsOnceExactlyWhenSelfDisabling` | cloudflare/src/audit-lineage-writer.js:42-101 | a call with a mutation is applied and sealed at most once, on all rows and in every schedule through all five attempts, if and only if nothing the application writes lets its update match again once it has matched |
| `AuditChain.SelfDisablingVerdict` | cloudflare/src/audit-lineage-writer.js:88-99 | such a call is refused or fails although it was applied exactly when one answer was lost; a written verdict means none was |
| `AuditChain.RankedGuardDisables` | cloudflare/src/corporate-assets.js:70 | a guard on a revision or status that its update moves past, and nothing moves back, is of that kind |
| `AuditChain.LostAnswersSealAgain` | cloudflare/src/payment-pop-owner-review.js:21-26 | an update that matches again on the rows it has just written is applied and sealed once per lost answer, up to five times, and the call then fails |
| `AuditWriter.AuditStore.ReadHead` | cloudflare/src/audit-lineage-writer.js:44-47 | the next number and the hash to link to are read from the head |
| `AuditWriter.AuditStore.RunBatch` | cloudflare/src/audit-lineage-writer.js:62-89 | a batch leaves the chain alone or makes all its changes |
| `AuditWriter.AppendSealed` | cloudflare/src/audit-lineage-writer.js:42-101 | the five-attempt loop keeps the chain whole whatever happens around it; a self-disabling call is sealed at most once; it is refused exactly when an attempt is told that its update matched nothing, also after an unanswered one applied it, and fails only when no attempt was decided |
| `AuditText.StableJsonValue` | cloudflare/src/audit-lineage-writer.js:7-13 | the loop over sorted keys builds exactly the sorted copy, whose text AuditOutcomes.TextExactly determines |
| `AuditText.SameTextExactlyWhenSameMeaning` | cloudflare/src/audit-lineage-writer.js:7-17 | two values have equal audit texts if and only if they mean the same, whatever the order of their keys |
| `AuditText.StoredTextSettles` | cloudflare/src/audit-lineage-writer.js:48-60 | parsing the stored text and printing it again gives the very text that was sealed |
| `AuditText.SealTextDeterminesEvent` | cloudflare/src/audit-lineage-writer.js:48-60 | two events are sealed over equal texts if and only if every field and the meaning of the data are equal |
| `AuditText.ProtoIsNotRecorded` | cloudflare/src/audit-lineage-writer.js:10-12 | data under the key "__proto__" never reaches the text |
| `AuditOutcomes.TextExactly` | cloudflare/src/audit-lineage-writer.js:7-17 | the text of a value is the print of the one tree that says what it says: the keys that are canonical numbers up to 4294967294 first, by number, then the others code unit by code unit, without "__proto__" and without what JSON cannot say |
| `AuditOutcomes.OwnOrderExactly` | cloudflare/src/audit-lineage-writer.js:11 | the order of an object built key by key, in terms of decimal values and code units |
| `AuditOutcomes.SealTextExactly` | cloudflare/src/audit-lineage-writer.js:46-60 | the text under the seal has ten fields, named and ordered as listed, around the data as it was stored |
| `LeaseRules.ClaimAdvances` | server/employee-dispatch-worker-recovery-draft.js:118-158 | claiming a ready row never throws, logs a transition that replays to the new row, and leases it until now + leaseSeconds |
| `LeaseRules.FinishAdvances` | server/employee-dispatch-worker-recovery-draft.js:160-187 | a resolution writes only under the live token and logs a transition that replays |
| `LeaseRules.ClaimExactly` | server/employee-dispatch-worker-recovery-draft.js:119-157 | a row that was ready when it was locked is leased exactly with the approval and an attempt left; from then on it is live under the new token at exactly the times before now + leaseSeconds, and can be claimed again at exactly the times from then on; without an attempt left it is given up for good |
| `LeaseRules.FinishExactly` | server/employee-dispatch-worker-recovery-draft.js:160-187 | a resolution is written exactly with the approval and under a lease that is live when the row is locked and when it is written; nobody holds the row afterwards, and a retried one can be claimed at exactly the times from now + delay on |
| `LeaseRules.PendingHasAttemptsLeft` | server/employee-dispatch-worker-recovery-draft.js:112-124 | a pending row has attempts to spare; a token exists exactly while leased |
| `LeaseRules.ClaimsAreNumbered` | server/employee-dispatch-worker-recovery-draft.js:145-156 | claimed events carry attempts 1 to the current number, in order |
| `LeaseRules.ResolutionFollowsItsClaim` | server/employee-dispatch-worker-recovery-draft.js:162-185 | a resolution directly follows the claim that issued its token |
| `LeaseRules.FollowedEventIsNotTerminal` | db/drafts/employee-dispatch-worker-recovery-postgres.sql:74-76 | qualified and dead-lettered are absorbing |
| `LeaseRules.TransitionsBounded` | server/employee-dispatch-worker-recovery-draft.js:123-186 | 2*(max-attempts) + leased strictly decreases, so an intent makes at most 2*max transitions |
| `LeaseWorker.StageIsOk` | server/employee-dispatch-worker-recovery-draft.js:103-187 | what a worker stages under its locks fits the row it locked, and never throws |
| `LeaseWorker.CommitRowKeepsClaims` | server/employee-dispatch-worker-recovery-draft.js:140-185 | row and event become visible together, and the log still replays to the row |
| `LeaseWorker.NextKeepsInv` | server/employee-dispatch-worker-recovery-draft.js:22-187 | every statement of any worker, owner or administrator keeps the invariant |
| `LeaseWorker.ReachableInv` | server/employee-dispatch-worker-recovery-draft.js:22-187 | the invariant holds in every interleaving of statements under share and exclusive row locks |
| `OwnerStop.UncommittedIsInvisible` | server/employee-dispatch-postgres-transaction.js:12-33 | nothing shared changes before a commit |
| `OwnerStop.CommitWritesOneThing` | server/employee-dispatch-worker-recovery-draft.js:22-34 | a commit changes worker state only while the controls run, or the controls, never both |
| `OwnerStop.CommittedStopStops` | server/employee-worker-owner-stop-draft.js:19-59 | a committed stop raises the revision by one, audits it, and leaves no worker past admission |
| `OwnerStop.StopIsBarrier` | server/employee-dispatch-worker-recovery-draft.js:22-34 | while the controls are stopped no worker event and no claim row changes, whatever runs |
| `OwnerStop.NothingCommitsAfterStop` | server/employee-worker-owner-stop-draft.js:40-58 | from any reachable state, after a stop commits no worker transition commits until the controls are reconfigured |
| `OwnerStop.StopsAuditedExactlyOnce` | server/employee-worker-owner-stop-draft.js:40-57 | each revision made by a stop has exactly one audit row, and every audit row is for such a revision |
| `OwnerStop.LeaseHistoryWellFormed` | server/employee-dispatch-worker-recovery-draft.js:103-187 | in every reachable state each row is what its events say, with numbered claims, token and expiry exactly while leased, and bounded length |
| `OwnerStop.TokensFence` | server/employee-dispatch-worker-recovery-draft.js:162-185 | across all intents: a resolution follows the one claim that issued its token, with no event of its intent between them, and no other claim or resolution carries that token |
| `OwnerStop.ExhaustedPendingUnreachable` | server/employee-dispatch-worker-recovery-draft.js:123-132 | the errors for an exhausted pending row and a missing token cannot occur |
| `LeaseStore.ClaimAlone` | server/employee-dispatch-worker-recovery-draft.js:103-158 | the statements of an uninterrupted claim add up to the claim decision |
| `LeaseStore.FinishAlone` | server/employee-dispatch-worker-recovery-draft.js:160-187 | the statements of an uninterrupted resolution add up to its decision |
| `LeaseStore.StopAlone` | server/employee-worker-owner-stop-draft.js:19-59 | the statements of an uninterrupted stop add up to its decision |
| `LeaseStore.Tables.ReadyRow` | server/employee-dispatch-worker-recovery-draft.js:105-118 | a due pending row or expired lease is found, or there is none |
| `LeaseStore.Tables.LeaseRow` | server/employee-dispatch-worker-recovery-draft.js:123-158 | a ready row is leased under a new token, live and taken exactly before now + leaseSeconds, or dead-lettered when its attempts are spent |
| `LeaseStore.Tables.Claim` | server/employee-dispatch-worker-recovery-draft.js:103-158 | a claim leaves exactly the decided state and reports why nothing was claimed or which lease is held, live exactly before now + leaseSeconds |
| `LeaseStore.Tables.Finish` | server/employee-dispatch-worker-recovery-draft.js:160-187 | a resolution leaves exactly the decided state and reports it; the row is free, and a retried one can be claimed exactly from now + delay on |
| `LeaseStore.Tables.StopWorker` | server/employee-worker-owner-stop-draft.js:19-59 | a stop is forbidden, conflicts, finds itself done, or stops and audits; nothing else changes |
| `LeaseCalls.OthersWait` | server/employee-dispatch-postgres-transaction.js:12-33 | while a transaction holds its locks nobody else changes its phase, the controls it shares or holds, or a row it has locked |
| `LeaseCalls.Connection.Claim` | server/employee-dispatch-worker-recovery-draft.js:103-158 | among other transactions: refused while the controls do not run, nothing ready, unapproved, dead-lettered or leased, by the row as it was when it was picked; the row and its event are added to whatever others committed, and the lease lives exactly until leaseSeconds after the row was written |
| `LeaseCalls.Connection.Finish` | server/employee-dispatch-worker-recovery-draft.js:160-187 | among other transactions: the lease must be live when the row is locked and when it is written; then the row, unchanged since it was locked, and its event are written, and otherwise nothing; a retried row can be claimed exactly from the write + delay on |
| `LeaseCalls.Connection.StopWorker` | server/employee-worker-owner-stop-draft.js:19-59 | among other transactions: the controls are as they were when they were locked until the stop commits them with its audit row, or leaves them alone |
| `TextClean.CleanIsTidy` | cloudflare/src/agentic-task-execution.js:14 | cleaned text has no controls, single spaces only, none in front, and is no longer than allowed |
| `TextClean.CleanTwiceExactly` | cloudflare/src/agentic-task-execution.js:14 | cleaning twice changes nothing if and only if the first cut did not end in a space |
| `TextClean.CleanSettles` | cloudflare/src/agentic-task-execution.js:14 | the second cleaning is a fixed point |
| `TextClean.CleaningIsNotIdempotent` | cloudflare/src/agentic-task-execution.js:14 | "a b" cut at two units loses its trailing space on the second pass |
| `TextClean.TemplateSurvivesCleaning` | cloudflare/src/agent-internal-autonomy.js:31-34 | a standing template text is unchanged when a task is prepared from it |
| `TextWords.CleanRespaces` | cloudflare/src/agentic-task-execution.js:14 | cleaning a text made of words and gaps of white space and controls gives the words with one space for each gap, cut to the length |
| `TextWords.TemplateRespaces` | cloudflare/src/agent-internal-autonomy.js:14 | the text of a standing template is its words with one space for each gap between them |
| `TaskTables.PrepareOutcome` | cloudflare/src/agentic-task-execution.js:251-265 | intent and request are inserted together under an unused key, or not at all |
| `TaskTables.ExecuteOutcome` | cloudflare/src/agentic-task-execution.js:496-534 | request, permit, task, receipt and audit change together exactly when every guard, trigger and key allows it |
| `TaskTables.RecordOutcome` | cloudflare/src/agent-internal-autonomy.js:84-96 | the policy moves on and the run is recorded together, or not at all |
| `TaskPipeline.NormalizedIsNormal` | cloudflare/src/agentic-task-execution.js:51-60 | a normalised payload has a tidy title and description and a priority from 1 to 3 |
| `TaskOutcomes.PayloadExactly` | cloudflare/src/agentic-task-execution.js:51-60 | a body makes a task exactly when its title has a word, its priority is 1 to 3 or left out, which is 2, and its date can be read, in that order; title and description are their words cut to 160 and 1200 units |
| `TaskOutcomes.PermitIssuedExactly` | cloudflare/migrations/064_v217_jit_execution_permits.sql:12-70 | a permit is issued exactly for an approved request of its approver, for the payload that was approved, under an active grant, once, and for at most 300000 ms |
| `TaskPipeline.TaskContentOf` | cloudflare/src/agentic-task-execution.js:519-523 | the columns of a task are its payload but for one space at the end of a cut text, and equal it exactly when there is none |
| `TaskPipeline.BatchKeeps` | cloudflare/src/agentic-task-execution.js:251-534 | every batch, from whatever stale reads, keeps the tables in order |
| `TaskPipeline.ExecuteKeepsLimits` | cloudflare/src/agentic-task-execution.js:500-515 | the update's own count keeps every daily limit however stale the first count was; DayLimits says which receipts are counted |
| `TaskPipeline.NextKeepsInv` | cloudflare/src/agentic-task-execution.js:210-554 | every step of any caller keeps the invariant |
| `TaskPipeline.ReachableInv` | cloudflare/src/agentic-task-execution.js:210-554 | the invariant holds in every interleaving of prepare, approve, cancel, permit, execute, runs, revocations and failures |
| `UnattendedRuns.EffectsInBijection` | cloudflare/src/agentic-task-execution.js:496-534 | executed requests, internal tasks and receipts stand in bijection |
| `UnattendedRuns.ExecutionsAuthorised` | cloudflare/migrations/064_v217_jit_execution_permits.sql:96-149 | every executed request carries its exact approval, its approver as executor, and a consumed permit bound to it |
| `UnattendedRuns.TasksSayWhatWasApproved` | cloudflare/src/agentic-task-execution.js:519-523 | a task says what was approved but for the trailing space of a cut text |
| `UnattendedRuns.CancelledHasNoTask` | cloudflare/src/agentic-task-execution.js:349-368 | a cancelled request has no task |
| `UnattendedRuns.TerminalRequestsStay` | cloudflare/src/agentic-task-execution.js:349-368 | a cancelled or executed request never changes again |
| `UnattendedRuns.DailyLimitKept` | cloudflare/src/agentic-task-execution.js:500-515 | receipts per grant and day never exceed the limit; DayLimits.ReceiptsPerDayKept says what a day is |
| `UnattendedRuns.OneTaskPerOccurrence` | cloudflare/src/agentic-task-execution.js:604-624 | an occurrence has at most one internal task, however often its run is repeated or cut short |
| `UnattendedRuns.OneRunPerOccurrence` | cloudflare/src/agent-internal-autonomy.js:60-95 | a policy has at most one run event per occurrence, in increasing order |
| `UnattendedRuns.RunsNameTheirTask` | cloudflare/src/agent-internal-autonomy.js:74-95 | a run with the tasks scope names a task that has a receipt and stands for that occurrence; given a collision-free digest its request holds exactly the template of the policy, and so do its columns when the template is in its normal form |
| `UnattendedRuns.RunsPerDayKept` | cloudflare/src/agent-internal-autonomy.js:85-91 | runs per policy and day stay within the limit; DayLimits.RunEventsPerDayKept says what a day is |
| `DayLimits.ReceiptsPerDayKept` | cloudflare/src/agentic-task-execution.js:500-515 | over every run and every n, the receipts of a grant from n*86400000 to (n+1)*86400000 number at most its limit |
| `DayLimits.RunEventsPerDayKept` | cloudflare/src/agent-internal-autonomy.js:84-91 | over every run and every n, so do the runs of a policy |
| `DayLimits.LimitsCountToday` | cloudflare/src/agentic-task-execution.js:500-512 | the limits count exactly the receipts since the last multiple of 86400000 |
| `DayLimits.RunExactly` | cloudflare/src/agent-internal-autonomy.js:60-91 | a run is recorded exactly for an active, unchanged and unexpired policy at its occurrence whose runs since the last multiple of 86400000 leave room |
| `DayLimits.ExecutesExactly` | cloudflare/src/agentic-task-execution.js:496-534 | an execution goes through exactly for an approved request of its approver, an owner, under an active grant, no containment and an unused permit, with room under today's limits and, if standing, under a policy as it was when it was read |
| `UnattendedRuns.RunsSpacedWhenObserved` | cloudflare/src/agent-internal-autonomy.js:79-88 | successive runs are observed at least the interval apart, and commit that far apart less the commit delay of the earlier |
| `UnattendedRuns.RunsCanCommitTogether` | cloudflare/src/agent-internal-autonomy.js:79-96 | when an hourly run takes any delay up to the hour to commit, the next can commit that much less than the hour after it: the interval holds of observed times only |
| `DayLimits.RunsHoursApart` | cloudflare/src/agent-internal-autonomy.js:79-88 | successive runs are observed at least intervalHours * 3600000 ms apart |
| `UnattendedRuns.RevokedCommitsNothing` | cloudflare/src/agent-internal-autonomy.js:85-91 | a standing execution or run of a revoked policy commits nothing |
| `UnattendedRuns.RevokeIsFinal` | cloudflare/src/agent-internal-autonomy.js:147-155 | after a revoke commits no run of the policy is recorded and no standing execution for it commits |
| `StalledRuns.DeadIsNotExecuted` | cloudflare/migrations/064_v217_jit_execution_permits.sql:96-126 | a request that is cancelled, under a revoked grant, or whose permit expired unused is never executed |
| `StalledRuns.StalledForGood` | cloudflare/src/agentic-task-execution.js:231-236 | a policy whose next occurrence has a dead request, or whose key holds another payload or no request, never moves past it, whatever anyone does |
| `StalledRuns.TakenNoEvidence` | cloudflare/src/agentic-task-execution.js:228-236 | a task made under a key that another payload holds is no evidence for the occurrence |
| `StalledRuns.OtherPayloadStalls` | cloudflare/src/agentic-task-execution.js:210-236 | preparing any other payload under the key of the occurrence reaches that state |
| `StalledRuns.UnusedPermitStalls` | cloudflare/src/agentic-task-execution.js:370-395 | from any reachable state, once the request of the occurrence has its permit, the policy is stalled if its task is not made before the permit expires, whether the run was cut short, denied by the guard or over a limit |
| `StalledRuns.CutShortRunStalls` | cloudflare/src/agentic-task-execution.js:370-395 | a concrete run that stops between permit and execution for five minutes |
| `AutonomyPolicy.TemplateTextSettles` | cloudflare/src/agent-internal-autonomy.js:31-34 | normalising a template text twice changes nothing |
| `AutonomyPolicy.ApprovedPolicyAcceptedUntilExpiry` | cloudflare/src/agent-internal-autonomy.js:39-47 | from its approval on, a policy is accepted before a run if and only if it is active and has not expired |
| `AutonomyPolicy.AcceptedDocumentIsApprovable` | cloudflare/src/agent-internal-autonomy.js:39-47 | an accepted document is one approval could have written, up to defaults, with all limits in range |
| `AutonomyPolicy.TemplateStandsExactlyWhenTidy` | cloudflare/src/agent-internal-autonomy.js:29-34 | a stored template passes exactly when its texts hold no control, single spaces only and none at either end, fit their lengths, and its priority is one of three |
| `AutonomyPolicy.EditedDocumentAccepted` | cloudflare/src/agent-internal-autonomy.js:39-47 | changing one field of an accepted document leaves it acceptable exactly for another such template, an expiry within thirty days, an interval or limit in range or left out, and never for another owner or tenant |
| `AutonomyPolicy.ApprovedTermsRun` | cloudflare/src/agent-internal-autonomy.js:19-37 | an approved policy is a valid new policy, and its template passes the check made when a task is prepared from it |
| `PolicyOutcomes.ApprovedExactly` | cloudflare/src/agent-internal-autonomy.js:19-37 | a policy is approved exactly with known scopes, a template that fits, an expiry within thirty days, an interval of 1 to 168 hours, 24 if left out, and 1 to 5 daily runs, 5 if left out, and says just that |
| `PolicyOutcomes.TemplateExactly` | cloudflare/src/agent-internal-autonomy.js:29-34 | a template is accepted exactly when its respaced texts fit and its priority is one of three, and keeps them |
| `PolicyOutcomes.ScopesExactly` | cloudflare/src/agent-internal-autonomy.js:20-23 | scopes are accepted exactly when each is one of the three known ones |
| `PolicyOutcomes.TermsSay` | cloudflare/src/agent-internal-autonomy.js:74-95 | a run works by the expiry, the hours, the runs a day and the template of the stored policy |
| `IntentText.CanonicalIntentWellFormed` | cloudflare/src/agentic-task-execution.js:62-77 | the canonical intent text is well-formed UTF-16, so the digest is taken of exactly this text |
| `IntentText.CanonicalIntentIsUnambiguous` | cloudflare/src/agentic-task-execution.js:62-77 | equal canonical intent texts mean the same payload and links |
| `IntentText.IntentIsSpelled` | cloudflare/src/agentic-task-execution.js:62-77 | the canonical intent text, name by name and word for word |
| `IntentText.MetadataIsSpelled` | cloudflare/src/agentic-task-execution.js:71-76 | and so its metadata |
| `IntentText.ApprovedDigestFixesPayload` | cloudflare/src/agentic-task-execution.js:228-229 | with a collision-free hash the approved digest of an executed request stands for one payload |
| `TaskStore.Store.Prepare` | cloudflare/src/agentic-task-execution.js:210-280 | returns only a request that stands under the key with that payload; alone, exactly when it can be prepared or was prepared before |
| `TaskStore.Store.WritePreparation` | cloudflare/src/agentic-task-execution.js:250-278 | a failed batch is answered by the replay of the same payload, or refused |
| `TaskStore.Store.Approve` | cloudflare/src/agentic-task-execution.js:297-315 | true only for a request that is past preparation; alone, exactly unless cancelled |
| `TaskStore.Store.Cancel` | cloudflare/src/agentic-task-execution.js:349-368 | true only for a cancelled request; alone, exactly unless executed |
| `TaskStore.Store.IssuePermit` | cloudflare/src/agentic-task-execution.js:370-395 | alone, issues the one permit of a request exactly when its owner approved it under an active grant and it has none |
| `TaskStore.Store.Execute` | cloudflare/src/agentic-task-execution.js:397-554 | done only when task and receipt are there to be read back, and when it wrote them there was room under the limits of that day; alone, exactly when every guard, permit and limit allows it |
| `TaskStore.Store.RunStanding` | cloudflare/src/agentic-task-execution.js:604-624 | returns only a task that stands for the occurrence and its template; undisturbed and allowed, returns one whenever the occurrence is not stalled |
| `TaskStore.Store.MakeTask` | cloudflare/src/agentic-task-execution.js:615-623 | undisturbed, makes the task of a request exactly when the guard agrees and the rest of its way is open, whatever stage it has reached; a guard that refuses leaves a live permit behind |
| `TaskStore.Store.Record` | cloudflare/src/agent-internal-autonomy.js:84-98 | alone, records the run exactly when the policy still allows it |
| `TaskStore.Store.RunPolicy` | cloudflare/src/agent-internal-autonomy.js:53-99 | whatever others do, a run that reports success recorded its event with its task, and its occurrence was not stalled; undisturbed, and with template, grant and limits in order, it succeeds exactly when the policy is due and its occurrence not stalled, whatever stage an earlier attempt left |
| `TaskCalls.ExecutionWrites` | cloudflare/src/agentic-task-execution.js:496-537 | the first row count of the batch is 1 exactly when the execution went through, and then the task can be read back |
| `TaskCalls.ApprovedIsUnclaimed` | cloudflare/src/agentic-task-execution.js:519-528 | an approved request has no task and no receipt yet, so only the identifier of the new task can be taken |
| `TaskCalls.LiveCanMake` | cloudflare/src/agentic-task-execution.js:615-623 | a request without a task can be brought to its task from whatever stage, within the limits and for its approver, unless it is dead |
| `TaskCalls.LaterAttemptCanMake` | cloudflare/src/agentic-task-execution.js:604-624 | so can the request an earlier attempt left for an occurrence that is not stalled |
| `DispatchAdmission.NewestIsAReview` | server/employee-dispatch-postgres-approval-reader.js:27-52 | the newest review of a revision has the highest sequence of its reviews |
| `DispatchAdmission.AdmittedIsApproved` | server/employee-dispatch-queue.js:44-62 | an admitted intent stands under the current approved review by neither author nor dispatcher |
| `DispatchAdmission.AdmitKeepsOk` | server/employee-dispatch-queue.js:28-78 | an admission keeps one creation audit per intent and no audit without an intent |
| `DispatchAdmission.AdmittingTwiceCreatesOnce` | server/employee-dispatch-queue.js:65-77 | asking again answers already queued and adds only an audit |
| `DispatchAdmission.ConflictWritesNothing` | server/employee-dispatch-queue.js:67-69 | reusing a key for another proposal or action writes nothing |
| `DispatchOutcomes.LatestReviewExactly` | server/employee-dispatch-postgres-approval-reader.js:27-52 | the latest review is the one of the current revision that no other of that revision follows |
| `DispatchOutcomes.FirstFailedCheckDecides` | server/employee-dispatch-queue.js:44-62 | a refusal names the first failed check, in the order of the source |
| `DispatchOutcomes.AdmittedExactly` | server/employee-dispatch-queue.js:28-78 | an intent is created exactly when the dispatch may be made and its key is free, a task intent for a task and a report intent for a report, under the approving review; a key that holds what is asked answers already queued; anything else writes nothing |
| `DispatchQueue.NextKeepsInv` | server/employee-dispatch-queue.js:28-78 | every statement of any admission keeps the invariant |
| `DispatchQueue.CommitIsAdmission` | server/employee-dispatch-postgres-transaction.js:12-33 | a committing transaction is, at that moment, the whole admission on the tables as they are |
| `DispatchQueue.AdmitAlone` | server/employee-dispatch-queue.js:28-78 | the statements of an admission that nobody disturbs do and answer what the whole admission does |
| `DispatchQueue.StepsAreAdmissions` | server/employee-dispatch-queue.js:28-78 | tables change only by whole admissions |
| `DispatchQueue.CreatedUnderCurrentApproval` | server/employee-dispatch-postgres-approval-reader.js:27-95 | a created intent stands under the approval that is current when it commits |
| `DispatchQueue.KeysHeldByOne` | server/employee-dispatch-postgres-outbox-writer.js:25-38 | two transactions past the key lock never share a key |
| `DispatchQueue.IntentsNeverChange` | db/drafts/employee-dispatch-outbox-postgres.sql:30-57 | an intent never changes and never goes away |
| `DispatchQueue.AdmissionIsIdempotent` | server/employee-dispatch-queue.js:63-77 | one intent per key, one creation audit per intent, every audit of a committed intent, and queued answered at most once per key: exactly once for a key with an intent unless the answer of the commit that created it was lost, and never for any other key |
| `DispatchStore.ApprovalReader.GetProposal` | server/employee-dispatch-postgres-approval-reader.js:55-74 | the current unrevoked proposal is read and its lock remembered |
| `DispatchStore.ApprovalReader.GetLatestReview` | server/employee-dispatch-postgres-approval-reader.js:27-52 | refused without the lock, else the latest review of the current revision |
| `DispatchStore.ApprovalReader.Scan` | server/employee-dispatch-postgres-approval-reader.js:29-39 | the ordered query picks the review with the highest sequence |
| `DispatchStore.ApprovalReader.IsCurrentApprovedReview` | server/employee-dispatch-postgres-approval-reader.js:76-81 | true exactly for the latest review when it approves |
| `DispatchStore.ApprovalReader.IsCurrentProposalRevision` | server/employee-dispatch-postgres-approval-reader.js:82-95 | true exactly for a review of the current revision |
| `DispatchStore.OutboxWriter.LockDispatchKey` | server/employee-dispatch-postgres-outbox-writer.js:25-38 | a writer locks one key and refuses another |
| `DispatchStore.OutboxWriter.InsertIntentOnce` | server/employee-dispatch-postgres-outbox-writer.js:40-79 | inserts once under its lock, or compares with what is there |
| `DispatchStore.OutboxWriter.AppendAudit` | server/employee-dispatch-postgres-outbox-writer.js:81-103 | audits once, and only what this writer admitted |
| `DispatchStore.Database.Checks` | server/employee-dispatch-queue.js:44-58 | the checks in their order give the specified verdict |
| `DispatchStore.Database.Persist` | server/employee-dispatch-queue.js:59-77 | insert and audit, or the conflict |
| `DispatchStore.Database.Admission` | server/employee-dispatch-queue.js:28-78 | the statements driven through the adapters are the specified admission |
| `DispatchStore.Database.QueueEmployeeDispatch` | server/employee-dispatch-queue.js:9-82 | the call is the admission or leaves the tables alone; only a lost commit answer hides what was done |
| `ApprovalRules.SensitiveNeedsExactApproval` | server/agent-action-policy.js:55-66 | a sensitive action is allowed if and only if an unspent, unexpired, approved record matches tenant, actor, action and digest |
| `ApprovalRules.DecisionFits` | server/agent-execution-authorization.js:28-53 | what is staged fits together: an allowed sensitive action spends its approval, and nothing else does |
| `ApprovalRules.AuthorizeKeepsOk` | server/agent-execution-authorization.js:22-54 | an approval is consumed if and only if one allowed audit row for a sensitive action names it |
| `ApprovalRules.SpentApprovalAuthorizesNothing` | server/agent-execution-authorization.js:40-46 | a spent approval authorises nothing further |
| `ApprovalOutcomes.FirstFailedCheckDecides` | server/agent-action-policy.js:55-66 | for every action the reason is that of the first failed check: enabled, allowed, within budget, then safe, known, exactly approved |
| `ApprovalOutcomes.DecidedExactly` | server/agent-execution-authorization.js:22-54 | an action is allowed exactly when it is enabled, allowed, within budget and a read, a draft or exactly approved; an unclassified one never |
| `ApprovalOutcomes.AuthorizedExactly` | server/agent-execution-authorization.js:11-58 | an authorised call leaves exactly its spent approval, its audit row and its queued intent, any other at most a refusal |
| `ApprovalOutcomes.NothingGrantedOtherwise` | server/agent-execution-authorization.js:22-54 | a spent approval, an allowed audit row or a queued intent comes only of a call that may be authorised |
| `ApprovalConsumption.NextKeepsInv` | server/agent-execution-authorization.js:22-54 | every statement of any authorisation keeps the invariant |
| `ApprovalConsumption.ReachableInv` | server/agent-postgres-store.js:18-69 | the invariant holds in every interleaving under the row lock |
| `ApprovalConsumption.ApprovalsAuthorizeOnce` | server/agent-execution-authorization.js:22-54 | over all runs an approval authorises at most one sensitive action, and every queued intent repeats an allowed audit row |
| `ApprovalConsumption.WritesAreAtomic` | server/agent-postgres-store.js:18-69 | consumption, audit and queued intent become visible together or not at all |
| `ApprovalConsumption.SpendingIsAuthorization` | server/agent-postgres-store.js:23-43 | a commit that spends an approval is the whole authorisation on the tables as they are |
| `ApprovalConsumption.AuthorizeAlone` | server/agent-execution-authorization.js:22-54 | the statements of an authorisation that nobody disturbs do what the whole authorisation does |
| `ApprovalStore.Session.GetApproval` | server/agent-postgres-store.js:23-35 | only this tenant's approval is returned |
| `ApprovalStore.Session.ConsumeApproval` | server/agent-postgres-store.js:36-43 | true exactly when this call spent the approval |
| `ApprovalStore.Session.AppendAudit` | server/agent-postgres-store.js:54-61 | refuses a foreign tenant or a taken identifier |
| `ApprovalStore.Session.EnqueueIntent` | server/agent-postgres-store.js:44-53 | queues only an authorised draft action under a free key |
| `ApprovalStore.Store.Transaction` | server/agent-execution-authorization.js:22-54 | the statements driven through the store are the specified authorisation, which ApprovalOutcomes.AuthorizedExactly spells out |
| `ApprovalStore.Store.AuthorizeAgentExecution` | server/agent-execution-authorization.js:11-58 | the call is refused early, is the authorisation, or is rolled back; an allowed answer, audit row or queued intent exists only for a call that may be authorised, and a refusal names the first failed check; only a lost commit answer hides what was done |
| `Sessions.NextKeepsInv` | server/server.js:341-349 | every statement of logins, resets and revocations keeps sessions fenced by generation |
| `Sessions.PlayKeepsInv` | server/server.js:341-349 | the fence holds in every interleaving |
| `Sessions.ValidSessionsMatchPassword` | server/server.js:180-185 | every valid session that came from a password was verified against the current salt and hash |
| `Sessions.ResetTokensUsedOnce` | server/server.js:343-348 | a reset token completes at most one reset |
| `Sessions.OldSessionsStayInvalid` | server/server.js:185 | a session of an earlier generation never becomes valid again |
| `Sessions.RevokedSessionStaysInvalid` | server/server.js:185 | nor does one that was revoked by itself |
| `Sessions.GuardedInsert` | server/server.js:181 | the guarded insert gives a session that is valid for exactly the lifetime asked for, or nothing when the user row has changed |
| `Sessions.LoginAlone` | server/server.js:308 | a login that nobody disturbs gives a session verified against the password as it stands |
| `Sessions.IssuedForLifetime` | server/server.js:180 | a session without a password, and a reset token, live for exactly the lifetime asked for |
| `Sessions.CommitEndsAllSessions` | server/server.js:345-346 | a committed reset or revoke-all ends every session, also those a login is about to insert |
| `Sessions.ResetKillsOtherTokens` | server/server.js:341-349 | when a reset commits no token is outstanding, in every interleaving, and of the tokens of that moment none ever is again |
| `Sessions.Account.Login` | server/server.js:308 | a login gives a valid session verified against the current password, exactly when the user row is unchanged since it was read; it adds that session alone, which is valid for exactly the lifetime from its insert |
| `Sessions.Account.CompleteReset` | server/server.js:333-353 | among other calls: a reset goes through exactly when its token, issued before the call, is unused when it is claimed and was not expired when the transaction began; it leaves the new password, a new generation, no valid session and no outstanding token |
| `Sessions.Account.RevokeAllSessions` | server/server.js:361 | among other calls: no session is valid afterwards and the password is the one that stood when the call got the user row |
| `RateLimiter.MakeRule` | server/server.js:146 | whatever limit and window a caller asks for, the rule in force lies within 1 to 1000 calls and 60 to 86400 seconds |
| `RateLimiter.LimiterRefinesCounter` | server/server.js:145-155 | the kept row is the exact counter, saturated; a deleted one had expired |
| `RateLimiter.SaturationAndSweepsUnobservable` | server/server.js:150-153 | saturation and deletion never change a decision or a reported wait |
| `RateLimiter.AdmitsAtMostTwiceLimit` | server/server.js:147-152 | any interval of one window length admits at most 2*limit-1 calls |
| `RateLimiter.BoundIsMet` | server/server.js:147-152 | that bound is reached for every rule |
| `RateLimiter.RetryAfterIsExact` | server/server.js:152-154 | with no call in between, a refused caller is admitted k whole seconds later exactly when k is at least the reported wait |
| `RateLimiter.Limiter.Consume` | server/server.js:145-155 | one call upserts its row and answers by it; the sweep takes only rows older than a day |
| `RateLimiter.HourlyQuota.Admission` | server/ai-export-atomic-quota.js:15-26 | admits exactly below the cap of the aligned window |
| `RateLimiter.QuotaAdmitsAtMostTwice` | server/ai-export-atomic-quota.js:21-26 | any hour admits at most twice the cap |
| `LimiterOutcomes.RuleInForce` | server/server.js:145-150 | numbers within 1 to 1000 calls and 60 to 86400 seconds are kept as they are, others go to the nearer bound |
| `LimiterOutcomes.WindowAdmitsLimit` | server/server.js:145-155 | a window that opens with a call admits the first limit calls in it and no other |
| `LimiterOutcomes.NewWindowAdmits` | server/server.js:145-155 | a call at or after the end of the window is admitted |
| `LimiterOutcomes.WaitCoversWindow` | server/server.js:145-155 | the reported wait is the least whole number of seconds, at least one, after which the window is over |
| `LimiterOutcomes.AnyStretchAdmits` | server/server.js:145-155 | any stretch of one window length admits at most 2*limit-1 calls, counted one by one |
| `LimiterOutcomes.BoundIsReached` | server/server.js:145-155 | for every rule there is a stretch that admits 2*limit-1 calls, counted one by one |
| `LimiterOutcomes.QuotaAdmitsExactly` | server/ai-export-atomic-quota.js:11-40 | the quota admits exactly while fewer than the cap were admitted in the aligned hour |
| `CostPricing.PriceIsExactCeiling` | cloudflare/src/agent-model-observation-runner.js:10-17 | the price is the ceiling of (input tokens * input rate + output tokens * output rate) / 1000000 |
| `CostPricing.PriceIsNullExactly` | cloudflare/src/agent-model-observation-runner.js:10-17 | the price is null exactly for tokens or rates that are not counts, or a sum or price beyond the largest safe integer |
| `CostPricing.UsageWithinBoundsIsCovered` | cloudflare/src/agent-model-observation-runner.js:47-50 | usage within the reserved bounds always prices, to no more than the reservation |
| `CostPricing.PriceIsSubadditive` | cloudflare/src/agent-model-observation-runner.js:14-16 | pricing together never costs more than apart, and saves at most one unit |
| `CostPricing.EstimateWithinOneOfPrice` | cloudflare/src/agent-cost-outcome-telemetry.js:16-26 | the half-up estimate is the price or one unit below it |
| `CostPricing.EstimateRoundsHalfUp` | cloudflare/src/agent-cost-outcome-telemetry.js:16-26 | the estimate is the amount due to the nearest unit, halves upward, with the sum of tokens and rates written out |
| `CostLedger.ReserveOutcome` | cloudflare/src/agent-cost-reservations.js:20-26 | a reservation and its entry are inserted together exactly within an enabled budget |
| `CostLedger.SettleOutcome` | cloudflare/src/agent-cost-reservations.js:45-51 | a reservation is settled with its entry exactly while reserved and within the budget |
| `CostLedger.ReleaseOutcome` | cloudflare/src/agent-cost-reservations.js:56-62 | a reservation is released with its entry exactly while reserved |
| `CostLedger.ApplyKeepsOk` | cloudflare/migrations/068_agent_cost_accounting.sql:127-190 | the budget row is the sum of its reservations, within its total, and the journal tells each one's story, after every batch |
| `CostLedger.JournalIsComplete` | cloudflare/migrations/068_agent_cost_accounting.sql:176-190 | the journal of an orderly budget refuses every further entry |
| `CostLedger.SetBudgetOutcome` | cloudflare/migrations/068_agent_cost_accounting.sql:3-14 | the limit of a budget can be set to whatever its spent and reserved amounts still fit |
| `CostRunner.TerminalStays` | cloudflare/migrations/068_agent_cost_accounting.sql:192-213 | settled and released are final |
| `CostRunner.CoveredAmountSettles` | cloudflare/migrations/068_agent_cost_accounting.sql:141-152 | an amount within the estimate always fits the budget |
| `CostRunner.JournalAgrees` | cloudflare/src/agent-model-observation-runner.js:62-87 | the journal of a reservation says what the answer's cost status says |
| `CostRunner.Runner.ReserveCost` | cloudflare/src/agent-cost-reservations.js:6-27 | allowed exactly when answered and within the budget; the reservation stands exactly when it was within the budget and the batch applied, answered or not |
| `CostRunner.Runner.SettleCost` | cloudflare/src/agent-cost-reservations.js:34-52 | allowed exactly when answered, reserved and within the budget, which a covered amount always is; the row is settled exactly when the batch applied |
| `CostRunner.Runner.ReleaseCost` | cloudflare/src/agent-cost-reservations.js:53-63 | allowed exactly when answered and still reserved; the row is released exactly when the batch applied |
| `CostRunner.Runner.Conclude` | cloudflare/src/agent-model-observation-runner.js:75-87 | a settled answer carries the price of the reported usage |
| `CostRunner.Runner.RunObservation` | cloudflare/src/agent-model-observation-runner.js:49-88 | ends without a reservation exactly when the estimate has no price, the budget refuses or the reserve is unanswered, and then none stands unless only its answer was lost; otherwise the returned status agrees with the row for good, and undisturbed usage within bounds is always settled within the reservation |
| `LearnedRanking.BuildOutcomeAssociations` | cloudflare/src/agentic-learning.js:7-26 | the loop builds the map: later rows win, associations lie in [-1,1], thin evidence counts zero |
| `LearnedRanking.WeightedStaysInRange` | cloudflare/src/agentic-learning.js:33-38 | the weighted association lies in [-1,1] by itself, so the clamp is inert, and the adjustment in [-10,10] |
| `LearnedRanking.ThinEvidenceIgnored` | cloudflare/src/agentic-learning.js:31 | sources with fewer than three observations have no effect |
| `LearnedRanking.ThinEvidenceNeverReranks` | cloudflare/src/agentic-learning.js:43-53 | such evidence never changes a ranking |
| `LearnedRanking.SortedIsUnique` | cloudflare/src/agentic-learning.js:49 | the comparator admits one order only |
| `LearnedRanking.RankingRespectsPriority` | cloudflare/src/agentic-learning.js:43-53 | the ranking is a stable permutation with ordinals 1..n, high before medium before low for any evidence |
| `RankingOutcomes.SourcesSay` | cloudflare/src/agentic-learning.js:7-26 | the last row of a source decides: its association is (positive - negative) / count within [-1,1], zero below three observations |
| `RankingOutcomes.LearningIsMeanBalance` | cloudflare/src/agentic-learning.js:28-41 | the association of a proposal is the mean balance of its observed sources, and the adjustment ten times that, to the nearest unit |
| `RankingOutcomes.RankingIsOrdered` | cloudflare/src/agentic-learning.js:43-53 | the ranking orders by priority weight plus adjustment, 300, 200 and 100 for high, medium and low, ties by first place |
| `StatusLog.ChangeIsAllOrNothing` | cloudflare/src/agent-control-plane.js:144-159 | status, event and audit change together or not at all |
| `StatusLog.LogIsLegalPath` | cloudflare/src/agentic-persistent-tasks.js:143-172 | where every change writes its event, the log is a path of allowed changes from the first status to the present one, in any interleaving |
| `StatusLog.FinalChangeIsLast` | cloudflare/src/agentic-persistent-tasks.js:148-158 | nothing follows a change to a final status, logged or not |
| `StatusLog.AuthorityLogIsLegal` | cloudflare/src/agent-control-plane.js:126-167 | the authority log is a legal path to the current state with nothing after revoked, after which execution is never permitted |
| `StatusLog.AuthorityChangesExactly` | cloudflare/src/agent-control-plane.js:126-167 | an authority that is not revoked changes to any other state asked for, with its event and its audit; a revoked one never |
| `StatusLog.TaskLogReplays` | cloudflare/src/agentic-persistent-tasks.js:143-172 | the STATUS_CHANGED events replay to the status exactly when the last change was one of them, form a path exactly when none of them follows a change without an event, and nothing follows completed or cancelled |
| `StatusLog.TaskChangesExactly` | cloudflare/src/agentic-persistent-tasks.js:143-172 | an active or paused task changes to any status asked for; quietly only active to paused, and either to cancelled |
| `StatusLog.LogTellsExactly` | cloudflare/src/business-goal-durable-loop.js:196-217 | over every run the log replays to the status if and only if the last change was logged, is a path if and only if no unlogged change was followed by a logged one, and is a path to the status if and only if every change was logged |
| `StatusLog.QuietRouteLeavesLogBehind` | cloudflare/src/agent-internal-autonomy.js:150-153 | revoking a standing policy, or pausing a task for its owner's attention, leaves the log behind the status, whatever calls are pending across it |
| `StatusLog.ResumeBreaksPath` | cloudflare/src/finance-watch-durable-loop.js:117-137 | after a pause for the owner's attention and a resume the log is no path |
| `StatusLog.ProposalDecidedOnce` | cloudflare/src/agentic-core.js:525-545 | a proposal has at most one decision event, which agrees with its status |
| `StatusLog.ProposalDecidedExactly` | cloudflare/src/agentic-core.js:525-545 | a pending proposal is approved or rejected as asked, and no other is |
| `ContextValues.BuildShallow` | cloudflare/src/ai-advisor-context-compaction.js:22-30 | the object at the depth limit keeps scalars and cut strings only |
| `ContextValues.BuildBounded` | cloudflare/src/ai-advisor-context-compaction.js:14-34 | the bounded value is built item by item and key by key as specified |
| `ContextValues.BoundedNodes` | cloudflare/src/ai-advisor-context-compaction.js:14-34 | a bounded value has at most N(level) nodes, N(depth)=1+keyLimit and N(l)=1+max(arrayLimit,keyLimit)*N(l+1) |
| `ContextValues.CollectRefs` | cloudflare/src/ai-advisor-context-compaction.js:138-145 | collection adds exactly the references of the value to the set it is given |
| `ContextValues.BoundedWithin` | cloudflare/src/ai-advisor-context-compaction.js:14-34 | bounding clean references invents none |
| `ContextOutcomes.BoundedIsCut` | cloudflare/src/ai-advisor-context-compaction.js:14-34 | a bounded value holds the words of each text cut to the limit, the first items of each array and none at the depth limit, and of each object exactly the properties with the first names, in the order of their names, without nested ones at the depth limit |
| `ContextOutcomes.RefsExactly` | cloudflare/src/ai-advisor-context-compaction.js:138-145 | an object refers to the trimmed text under ref, to each trimmed text listed under sourceRefs and to what its values refer to, however deep; blanks are no references |
| `StageOutcomes.StagesKeepRows` | cloudflare/src/ai-advisor-context-compaction.js:86-136 | stage by stage the first 12, 8, 6, 4 obligations, 10, 6, 4, 3 risks and controls and 8, 5, 3, 2 tenders are left in order, each with its reference, its status and the words of its headline cut to 160, 130, 100, 110 units |
| `StageOutcomes.FiguresKept` | cloudflare/src/ai-advisor-context-compaction.js:48-51 | every figure of the finances but the list of receivables passes through the projections as it is |
| `ContextCompaction.ProjectedWithin` | cloudflare/src/ai-advisor-context-compaction.js:86-110 | a projection invents no reference |
| `ContextCompaction.EssentialWithin` | cloudflare/src/ai-advisor-context-compaction.js:112-136 | the essential projection invents no reference |
| `ContextCompaction.RefsOnlyWithin` | cloudflare/src/ai-advisor-context-compaction.js:187-208 | the last projection invents no reference |
| `ContextCompaction.StagesInventNoReference` | cloudflare/src/ai-advisor-context-compaction.js:167-226 | no stage holds a reference the context does not, when references are clean and at most 80 characters |
| `ContextCompaction.CompactAiAdvisorContext` | cloudflare/src/ai-advisor-context-compaction.js:167-226 | the result is the first stage that fits, within the ceiling; a context that fits is returned unchanged; it fails exactly when not even the notice fits |

## Left out

- `UnattendedRuns.RunsSpacedWhenObserved`: the spacing of commit times is stated less the commit delay of the earlier run, because the full interval does not hold of them.
- `AuditChain.SealsOnceExactlyWhenSelfDisabling`: speaks of whatever changes of the business rows the application can make; which of the callers' updates are self-disabling is shown for guards on a rank only.
- HTTP routes, cookies, CSRF, roles, feature switches, kill switches and the runtime guard: booleans decided outside, or not modelled.
- Hashes, HMACs, random identifiers and clocks: arbitrary functions, fresh identifiers and non-decreasing numbers; the event id of a run is the pair of policy and occurrence.
- Number formatting and UTF-8 decoding: numbers are tokens, distinct for distinct numbers; entry names are byte sequences checked for valid UTF-8.
- Proxies, getters with effects, dates, maps and non-enumerable elements as arguments of the printers; cycles in audit data.
- The 65536-byte ceiling on digested arguments is part of the boolean that says whether arguments can be digested.
- The order in which ready leases are picked: any ready row may be; `updated_at` is not kept.
- The joins behind `currentApproval`, the reviewer authorisation and the owner session: booleans chosen at each step.
- Missing controls row and the shape checks on identifiers, revisions and delays.
- Employee-sourced preparation and the dispatch binding of an execution; the prepared, approved and cancelled audit rows; listing and status routes; grant creation.
- The pipeline is modelled for one tenant, with one digest function of the payload for all requests; run and proposal links enter it through `IntentText.DigestWith`.
- Reads before the last one of a call may be stale in every column that can change, which allows more than the database does.
- Read tools, evidence size and the report and record documents of an unattended run: one boolean, and nothing that later steps depend on.
- Statement timeouts, deadlocks and waits on unique indexes: a waiting statement changes nothing, and any transaction may roll back.
- Login failures, email delivery, timing floors and other sign-in methods.
- Rate limits and windows that are not whole numbers; the clock checks of the hourly quota.
- Provider, model and token columns of a settlement, purge and deletion triggers, and the error codes of the read before a reservation.
- Ranking uses exact reals instead of floating point; references are taken trimmed and cut; a priority that names an inherited object property is not modelled.
- Reason, actor and evidence columns of status events.
- What the projections keep of protection, property, business memory and sources, and the refs-only stage: by their definitions, without a second statement.
- Omitted counts of a compaction, the order of appended keys, amounts given as strings, non-text scalars where text is expected; the size of a text is a parameter.
- Evaluation thresholds, responsibility commands, export jobs and rendering: they add no protocol of their own.
- In-place form: the classes hold their tables in one field and replace it, so aliasing between rows is not captured.
