# Graph Blizz: verification model

This project models, in Dafny, how the repository keeps documents, their revisions and their
indexing jobs consistent, and how it cuts source files into chunks that can be cited and deleted
again. The theorems are about every reachable state, every run or every input of the model.

## What is modelled

**Leased jobs and document lifecycle.** `Entities` holds the rows of jobs, documents, revisions and
workspaces, `JobSql` and `DocumentSql` one function per guarded SQL statement, and `ApiSpec` the
transactions of the API services. `Protocol` is a state machine over them.

- A step is one committed transaction, or one event inside a worker. A worker's read, its
  contract reconciliation (which takes the workspace row lock) and its commit are separate steps,
  so other workers, API calls, lease recovery and reindex requests come between any two of them.
- There is no global clock. Each transaction carries its own start time; the only constraint is
  that a worker transaction starts no earlier than the claim it belongs to. Fencing therefore does
  not rest on clocks.
- A crash is a run that takes no further step. Any call may fail, and a commit may take effect and
  still be reported as failed: the worker then raises from the program point behind the commit.
- The opening reads of a worker are one event, and a fenced statement and the commit that follows it
  are one step. The completing statements update the job row, whose lock keeps others away in between.
  The fenced status transition only reads the job row and locks the document: a lease recovery and a
  new claim could commit between that statement and its commit. That none does is an assumption; for
  the moves of a first index `OwnerActsAlone` and `SupersededRunIsHarmless` speak of the moment of the
  statement.
- An API call is one atomic step. This is stronger than READ COMMITTED, and is the only other
  serialisation assumption. The advisory document lock is not modelled, so the theorems do not need it.
- Run numbers, the ledger of claims and the record of which contract each revision was built under
  are history: no statement reads them.

`TableInvariant`, `ProtocolInvariant` and `ProtocolSteps` show that every step keeps the invariant;
`ProtocolTheorems`, `ContractSafety`, `Progress`, `Queue`, `Maintenance` and `Isolation` draw the
conclusions. `Rows` says of each statement when it finds its row, which columns change and that all other
rows stay.

`Persistence`, `SourceService` and `WorkerService` are the repositories, services and the worker as
classes. The worker runs the statements of the repositories on its own connections, in the order of
the code, while other workers, API calls and its own heartbeat act at every suspension. A commit of
the worker is accepted only if the rows of its transaction are exactly those of one protocol step, or
if it has changed no row, so every theorem on behaviours holds of it. Connections count the calls that
broke, and each fenced statement and lease renewal is recorded with the point of the behaviour at which
it ran and the clock of its transaction. The contracts say what a return stands for, and that an
exception has one of the causes that `Obstacles` lists: a call that broke, a recovery of the lease, a
recorded statement that found the lease run out, or giving up before the row of the workspace.

**Chunking.** `Symbols` collects symbols from a syntax tree and partitions the file, `Tokens` and
`TreeSitter` split regions by token count over UTF-8 (`Utf8`), `Pieces` puts the split regions together,
and `Chunks` states what the resulting chunks are. `Labels` says what a label means in terms of the
syntax nodes around a byte. `SourceIndex` follows them into the index.
`Sections` and `Markdown` are the fence-aware section scanner.

**Citations.** `Base64` (section 5 of RFC 4648, padding per section 3.2), `Json` (strings per section 7
of RFC 8259) and `Provenance` are the citation codec, chunk identities and index calls; `Text` holds
decimal numbers, UUID text and object keys.

**Runtimes and embeddings.** `Registry` is the cache of runtimes over all interleavings of its tasks;
`Embeddings` restores the order of vectors.

## What the proofs found

- The first-index path commits between taking the index contract and activating. A contract change in
  between leaves a served, unflagged revision built under the old contract. `FirstIndexEscapesItsContract`
  reaches such a state; `ActivationIsSafeIffContractUnchanged` and `CommitIsSafeIffNothingEscapes` say
  exactly when a step does this, in terms of rows. Replacement and reindex are safe. Deleted documents
  are not marked by a contract change and are outside the claim.
- A committed revision can lose its source to a compensating delete, in two ways. Its own commit took
  effect but was reported as failed (`LostAcknowledgementLosesSource`), or the delete belongs to another
  upload of the document that failed with the same revision number: the rollback releases the document's
  lock before the delete runs (`LateCompensationLosesSource`). `StoreForIndexing` and `UpsertForIndexing`
  state it exactly, in terms of these events. A call that returns leaves all sources intact, unless an
  earlier upload's delete arrived between its put and its commit. A call that raises leaves them intact
  unless that happened to a revision it committed, or its own delete removed the object of a revision that
  was committed by then, by itself or by another upload.
- The replacement statement can mark its job SUCCEEDED without touching the document.
  `ReplacementIsPartialExactly` says exactly when, and `ReplacementAloneIsNotAtomic` gives tables that
  satisfy every constraint. No reachable state gets there: the statement that ends a worker's plan finds
  its row or touches no job (`MissedPlanLeavesJobs`). What its transaction has to roll back is the
  contract change and the marks of an overtaken run.
- The CHECK constraints and the domain model differ on exactly one point: a lease owner made of white
  space other than spaces.
- A citation does not round-trip exactly when its path, language or symbol has a high surrogate directly
  followed by a low one; `PairedFilenameIsMerged` is such a citation. The worker decodes sources as strict
  UTF-8, so symbols cannot have surrogates and only a file name can (`ScalarFileCitations`).
- An embedding response with an integer too large for a float raises an overflow error instead of a
  protocol error.

## Model

| member | source | states |
|---|---|---|
| Entities.RowSpecificationsAgree | backend/jobs/models.py:88-164 | a job row passes the constructor's checks exactly when it passes the table's CHECK constraints and its owner is not blank |
| Entities.TabOwnerSplitsTheSpecifications | migrations/versions/20260918_0005_create_durable_jobs.py:97-100 | a row exists that the table accepts and the constructor refuses |
| TableInvariant.ClaimedIsValid | backend/jobs/repository.py:145-158 | a claimed row is valid whenever the row was claimable, for any clock that found it available |
| TableInvariant.RenewedIsValid | backend/jobs/repository.py:165-178 | a renewed row stays valid when the transaction started no earlier than the claim |
| TableInvariant.ReleasedIsValid | backend/jobs/repository.py:211-251 | a failed or recovered row is valid, with RETRY below the attempt limit and FAILED at it |
| TableInvariant.RecoverKeeps | backend/jobs/repository.py:231-251 | recovering expired leases keeps the table invariant; the expired lease alone orders the timestamps |
| TableInvariant.StoreKeeps | backend/documents/source_service.py:157-169 | creating a document with its job keeps status, revisions and active job coupled |
| TableInvariant.ReplaceResult | backend/documents/source_service.py:201-245 | a replacement is accepted only on a READY document without active job, and leaves UPDATING with exactly one more revision, numbered active + 1, and an INDEX job for it |
| TableInvariant.DeleteKeeps | backend/documents/source_service.py:97-127 | enqueuing a deletion keeps the invariant |
| TableInvariant.ApplyContractKeeps | backend/workspaces/repository.py:125-171 | a contract change with its marks keeps the invariant |
| TableInvariant.BulkInsertIsUnique | backend/jobs/repository.py:81-115 | the bulk insert never gives a document a second active job |
| TableInvariant.ReplacementKeeps | backend/documents/repository.py:256-287 | completing a replacement, when its row is found, keeps the invariant: the job SUCCEEDED, the document READY, the new revision active |
| TableInvariant.DeletionKeeps | backend/documents/repository.py:310-368 | completing a deletion keeps the invariant: the job SUCCEEDED, the document DELETED |
| TableInvariant.ReindexKeeps | backend/documents/repository.py:370-443 | completing a reindex keeps the invariant: the job SUCCEEDED, the document READY, its active revision no longer flagged |
| TableInvariant.ReplacementIsPartialExactly | backend/documents/repository.py:256-287 | the replacement statement changes a table and returns no row exactly when the fence lets the attempt pass and the document is missing, in another workspace, not UPDATING, or without the revision |
| TableInvariant.FirstIndexMoveKeeps | backend/documents/repository.py:484-525 | each fenced first-index transition keeps the invariant |
| TableInvariant.ReplacementAloneIsNotAtomic | backend/documents/repository.py:256-273 | tables that satisfy every constraint, on which the statement finishes a job and leaves its document as it was |
| Rows.CreateIs | backend/documents/repository.py:67-119 | creation succeeds exactly for an unused id in a known workspace, and adds an UPLOADED document whose only revision is 1, with the given key and hash and current versions |
| Rows.AddRevisionIs | backend/documents/repository.py:135-180 | exactly one revision is added, numbered above all others; nothing else of the document changes |
| Rows.CurrentRevisionIs | backend/documents/repository.py:44-65 | a document stands at its active revision, or else at its newest, if that row exists |
| Rows.TransitionIs | backend/documents/repository.py:445-482 | when the unfenced transition finds its row, and that it changes status and active revision only |
| Rows.FencedTransitionIs | backend/documents/repository.py:484-525 | it finds its row exactly if the running job with this owner and attempt has an unexpired lease on this document and revision and the document has the source status; READY activates the revision of the job, and nothing else changes |
| Rows.CompleteReplacementIs | backend/documents/repository.py:244-298 | the job is finished exactly if the fence lets it pass, the row is found exactly if moreover the document is UPDATING and has the revision, and then it becomes READY with that revision; no other row changes |
| Rows.CompleteDeletionIs | backend/documents/repository.py:310-368 | job and document are finished together exactly if the fence passes a deletion job and the document is DELETING at that revision; otherwise nothing changes |
| Rows.CompleteReindexIs | backend/documents/repository.py:370-443 | job and revision are confirmed together exactly if the fence passes a reindex job and the document is READY at that flagged revision, whose row then has the three versions it was rebuilt with and no flag; other revisions stay |
| Rows.EnsureIndexContractIs | backend/workspaces/repository.py:112-173 | a new contract raises the flag of exactly the active revisions of the documents of this workspace that are not deleted; other workspaces, documents, revisions and columns stay |
| Rows.BulkInsertIs | backend/jobs/repository.py:81-115 | each selected document gets one pending job for its active revision, available at once and with three attempts; no other row changes |
| ProtocolInvariant.OneCurrentRun | backend/jobs/repository.py:134-158 | two runs that are both current attempts on one document are the same run |
| ProtocolSteps.StepKeeps | backend/worker/service.py:151-338 | every step of every worker, API call, recovery and reindex request keeps the whole system invariant |
| ProtocolSteps.AlwaysOk | backend/worker/service.py:151-338 | the system invariant holds at every point of every behaviour |
| ProtocolSteps.ContractStep | backend/workspaces/repository.py:125-171 | a contract change and its marks together keep every confirmed, unflagged active revision under the current contract |
| ProtocolSteps.CommitPlanStep | backend/worker/service.py:274-338 | the commit of a replacement, reindex, deletion or first-index start keeps the invariant, whether its fenced statement found a row or the transaction rolled back |
| ProtocolTheorems.EveryRowIsValid | backend/jobs/models.py:88-164 | in every reachable state every job row loads without raising and satisfies every CHECK constraint |
| ProtocolTheorems.Coupling | backend/documents/repository.py:244-525 | in every reachable state the status of a document fixes its active revision and its revision numbers, and any active job is the only one and of the kind and revision that the status allows |
| ProtocolTheorems.JobMoves | backend/jobs/models.py:42-57 | every step changes a job only as the transition table allows and strictly lowers 2 * (max_attempts - attempts) + [RUNNING], or renews or leaves it |
| ProtocolTheorems.MovesAreBounded | backend/jobs/repository.py:130-251 | over any behaviour a job makes at most 2 * max_attempts moves |
| ProtocolTheorems.AttemptAccounting | backend/jobs/repository.py:130-251 | attempts = number of claims = failures + recoveries + [succeeded] + [running], never above the limit |
| ProtocolTheorems.SupersededRunIsHarmless | backend/documents/repository.py:484-525 | a step of a run whose attempt is no longer current changes no table, whatever its transaction clock says |
| ProtocolTheorems.SupersededForEver | backend/jobs/repository.py:134-229 | once superseded, an attempt never becomes current again |
| ProtocolTheorems.EachAttemptIsClaimedOnce | backend/jobs/repository.py:134-158 | runs with the same job and attempt are one run, claimed by the owner the ledger names |
| ProtocolTheorems.OwnerActsAlone | backend/worker/service.py:110-137 | while a run is current nobody else changes the status, active revision or revision numbers of its document |
| ProtocolTheorems.OnlyOwnDocument | backend/worker/service.py:110-137 | a run changes the status, active revision and revision numbers of no document but its own |
| ProtocolTheorems.StepSuccessMeansDone | backend/worker/service.py:299-309 | the step that makes a job SUCCEEDED ends with its effect in place |
| ProtocolTheorems.SuccessMeansDone | backend/worker/runner.py:113-129 | over every behaviour, with crashes and overtaken workers: INDEX success means READY with that revision active, DELETE means DELETED, REINDEX means READY, active and unflagged; the early return on READY included |
| ProtocolTheorems.ActiveJobCanMove | backend/jobs/repository.py:134-158 | an expired lease can be recovered, and an available job can be claimed once the other rows are locked: an enabled step moves it |
| Queue.SomeClaimIsEnabled | backend/jobs/repository.py:134-158 | with no row locked, whenever a job is claimable a claim of the first one in the order of the query is enabled |
| Queue.JobIsReached | backend/jobs/repository.py:134-158 | a claimable job is itself claimed after exactly as many claims as there are claimable jobs before it |
| ContractSafety.ConfirmedRevisionsMatchContract | backend/worker/service.py:185-212 | in every reachable state an unflagged active revision of a document that is not deleted, last built by replacement or reindex, was built under its workspace's current contract |
| ContractSafety.ActivationIsSafeIffContractUnchanged | backend/indexing/service.py:37-88 | activating a first index keeps all served revisions under contract exactly when the captured contract is still current or the revision is flagged |
| ContractSafety.CommitIsSafeIffNothingEscapes | backend/workspaces/repository.py:125-171 | the commit of a run keeps them so exactly when it leaves the contract of the workspace as it is, or no unflagged active revision of another document there is missing from its marks |
| ContractSafety.OtherStepsKeepContract | backend/worker/service.py:151-338 | no other step loses the property |
| ContractSafety.AlwaysBuilt | backend/worker/service.py:151-338 | in every reachable state the record of builds knows every active revision, so the property leaves none out |
| Progress.UninterruptedRunSucceeds | backend/worker/service.py:151-242 | from every reachable state a fresh claim, in an active workspace whose row is free, whose lease stays live and whose calls succeed leads to SUCCEEDED with the effect in place, for each job type and whatever an earlier attempt left behind |
| Progress.ChangeDuringFirstIndex | backend/indexing/service.py:63-81 | a reindex request with another contract during a first index leaves, after activation, an unflagged revision built under the old contract |
| Progress.FirstIndexEscapesItsContract | backend/indexing/service.py:106-124 | such a state is reachable from an empty database |
| Maintenance.EnqueueIsExact | backend/maintenance/reindex.py:24-37 | after a request each READY document with a flagged active revision in an active workspace has exactly one active job, and the contract is in force |
| Maintenance.EnqueueAddsOnlyReindexJobs | backend/jobs/repository.py:81-115 | every job it adds reindexes the active revision of such a document |
| Maintenance.EnqueueIsIdempotent | backend/maintenance/reindex.py:24-37 | an immediate second request selects nothing and changes nothing |
| Maintenance.EnqueuedIsStep | backend/maintenance/reindex.py:24-37 | what the service commits while nobody holds the workspace row is the enqueue step of the protocol |
| Maintenance.EveryUpdatePassesTheTrigger | migrations/versions/20260921_0010_add_workspace_reindex_jobs.py:36-48 | no step trips the immutability trigger on revisions, the worker's commit aside |
| Maintenance.CommitPassesTheTrigger | migrations/versions/20260921_0010_add_workspace_reindex_jobs.py:36-48 | neither of the two updates of a worker's commit trips it |
| Isolation.AlwaysInside | backend/workspaces/repository.py:125-171 | in every reachable state the marks that a run holds name documents of its own workspace |
| Isolation.StepStaysInWorkspace | backend/worker/service.py:151-338 | every step changes documents, revisions and the row of the one workspace it is made for, and of no other |
| Isolation.FirstIndexWrites | backend/indexing/service.py:63-104 | a live attempt puts the document back to UPLOADED, makes it READY with the revision of its job, or marks an INDEXING document FAILED, and changes nothing else; an attempt that is not live writes nothing |
| Isolation.ReindexWritesContract | backend/worker/service.py:263-276 | the commit of a reindex leaves its revision unflagged, with the schema version of the contract that the run holds, and the workspace under that contract |
| Persistence.Connection.Commit | backend/documents/repository.py:36-38 | a commit that raises left the committed tables as they were, or took effect unacknowledged |
| Persistence.JobRepository.Create | backend/jobs/repository.py:32-79 | the insert happens, or raises and changes nothing; the new row is pending, available at once and has three attempts; a second active job for a document raises |
| Persistence.JobRepository.GetActiveForDocument | backend/jobs/repository.py:117-128 | the result is an active job of the document, and none only if there is none |
| Persistence.JobRepository.CreateWorkspaceReindex | backend/jobs/repository.py:81-115 | it selects each READY document of the workspace with a flagged active revision and no active job, inserts one pending job for each under distinct unused ids, and leaves no document that needs one; it raises only for a broken call or a generated id that is taken |
| Persistence.JobRepository.ClaimNext | backend/jobs/repository.py:130-158 | it claims the first available unlocked job by availability, creation and id, and finds none only if none is available; the row has one attempt more, is live for the owner exactly before now + lease and expired from then on, and keeps its first start |
| Persistence.FirstAvailable | backend/jobs/repository.py:134-144 | the scan finds a job that no available unlocked job precedes by availability, then creation, then id, and none only if there is none |
| Persistence.JobRepository.Heartbeat | backend/jobs/repository.py:160-178 | exactly the live attempt is renewed; from then on it is live before the new expiry and expired from it on, and nothing but the lease moves |
| Persistence.JobRepository.Succeed | backend/jobs/repository.py:180-196 | exactly the live attempt succeeds; then the job is over, and no attempt of it is live or claimable at any time |
| Persistence.JobRepository.Fail | backend/jobs/repository.py:198-229 | exactly the live attempt is released; then no attempt is live, and the job is claimable from the retry time on exactly if attempts are left, otherwise over |
| Persistence.JobRepository.RecoverExpired | backend/jobs/repository.py:231-251 | afterwards no lease is expired; each that was is released as by a failure of a dependency, and every other row is as before |
| Persistence.DocumentRepository.LockForUpsert | backend/documents/repository.py:44-65 | it returns the document of this workspace, none if the id is unused, and raises if another workspace has it |
| Persistence.DocumentRepository.Create | backend/documents/repository.py:67-119 | document and first revision are inserted together, or nothing is |
| Persistence.DocumentRepository.NextRevision | backend/documents/repository.py:135-157 | the next number is the greatest revision plus one |
| Persistence.DocumentRepository.InsertRevision | backend/documents/repository.py:158-180 | the revision is added, or nothing changes |
| Persistence.DocumentRepository.TransitionStatus | backend/documents/repository.py:445-482 | the guarded transition happens, or no row is returned and nothing changes |
| Persistence.WorkspaceRepository.EnsureIndexContract | backend/workspaces/repository.py:112-173 | the contract is in force and exactly the active revisions of the documents of this workspace that are not deleted are flagged, if it is a new one; every other row and column is unchanged |
| Text.DecimalRoundTrip | backend/documents/source_service.py:315-322 | decimal numbers read back |
| Text.UuidTextIsInjective | backend/documents/source_service.py:315-322 | different UUIDs have different texts |
| Text.ObjectKeyIsInjective | backend/documents/source_service.py:315-322 | equal object keys come from the same workspace, document and revision |
| SourceService.NewKeyIsNotCommitted | backend/documents/source_service.py:315-322 | the key of an uncommitted revision is the key of no committed one |
| SourceService.ForeignKeyIsHarmless | backend/documents/source_service.py:271-276 | puts and deletes at other keys leave every committed source intact |
| SourceService.IntactIffStored | backend/documents/source_service.py:191-269 | after a revision is committed, all sources are intact exactly when its object has the committed hash |
| SourceService.LostAcknowledgementLosesSource | backend/documents/source_service.py:132-173 | a create whose unacknowledged commit is compensated, and after which a committed revision has no source |
| SourceService.LateCompensationLosesSource | backend/documents/source_service.py:248-269 | two uploads of one new document, the first failing: the second takes the same number and commits, and the delete of the first then leaves its committed revision without source |
| SourceService.DocumentSourceService.StoreForIndexing | backend/documents/source_service.py:132-173 | with a failure at any call and other calls committing between rollback and compensating delete: document, revision and job are committed together or not at all, and only the new key is touched; a call that returns leaves every committed source intact, its own included; one that raises leaves nothing at its key if no store call broke, and keeps every committed source exactly unless its delete removed the object of a revision committed by then; it raises only if a call broke or the rows do not admit the create |
| SourceService.DocumentSourceService.UpsertForIndexing | backend/documents/source_service.py:175-269 | with a failure at any call and other calls committing before the compensating delete: content whose hash is that of the current revision is answered unchanged, writes nothing and raises only for a broken call; other content of a known document is a replacement, of an unknown one a create; revision, status and job are committed together or not at all; the sources are intact exactly unless an earlier upload deleted the object of a revision the call committed, or its own compensation that of a committed one |
| SourceService.DocumentSourceService.DeleteForIndexing | backend/documents/source_service.py:85-130 | it enqueues the deletion of a READY document, returns the active deletion job when one exists, none when already deleted, and otherwise changes nothing; it raises only if a call broke or the document cannot be deleted now |
| SourceService.WorkspaceReindexService.Enqueue | backend/maintenance/reindex.py:24-37 | contract change and jobs commit together or not at all; each document that needs a job gets one under an unused id and none is left; it raises only if a call broke or a generated id is taken |
| Obstacles.StepPasses | backend/worker/runner.py:90-145 | a step of anybody else, or of its own heartbeat, leaves a run where it is; the attempt is lost only to a recovery, and a finished job stays finished |
| Obstacles.MissedPlanLeavesJobs | backend/worker/service.py:263-338 | in every reachable state the statement that ends a plan finds its row, or touches no job and leaves only the contract change and its marks to roll back |
| WorkerService.Cluster.Commit | backend/documents/repository.py:36-38 | the rows of the transaction must be those of a protocol step; the commit takes that step, fails, or takes it unacknowledged |
| WorkerService.JobStore.Heartbeat | backend/worker/service.py:70-79 | renewal in a transaction of its own is the protocol step, reports whether the attempt was live, and leaves the run where it was |
| WorkerService.IndexingJobProcessor.Process | backend/worker/service.py:151-242 | on a claimed job that is still its own: a return means that the effect of the job was in place at some point since, or that its lease was recovered; an exception means that a call broke, that the lease was recovered, that one of the fenced statements or renewals the run executed found the lease run out by its own clock, or that the run gave up before the workspace row, which another run held or whose workspace was not active |
| WorkerService.IndexingJobProcessor.Beat | backend/worker/runner.py:135-155 | a renewal that is not lost has leased the attempt until the configured time after its own clock |
| WorkerService.IndexingJobProcessor.ResetDocument | backend/worker/service.py:173-183 | a failed or interrupted first index is put back to UPLOADED under the fence, and the run goes on with the branch for that row; or it raises for one of those reasons |
| WorkerService.IndexingJobProcessor.Dispatch | backend/worker/service.py:185-242 | under the workspace row, the branch of the job type reaches the effect of the job, or raises for one of those reasons |
| WorkerService.IndexingJobProcessor.FinishPlan | backend/worker/service.py:263-276 | a completing statement that found its row is committed and the effect is in place; a missing row raises, and it is missing only if the lease was recovered or had run out by the clock of that statement |
| WorkerService.IndexingJobProcessor.Build | backend/indexing/service.py:68-87 | the build ends with READY committed, or raises because a call broke, the lease was recovered, or a statement or renewal found it run out; if it raises and no call of its connection broke, or one did and nothing else went wrong, marking the document FAILED is its last step |
| WorkerService.IndexingJobProcessor.MarkFailedBestEffort | backend/indexing/service.py:89-104 | if no call of the clean-up breaks its step is taken; its own failure is swallowed, and the first failure is raised again |
| WorkerService.Worker.Report | backend/worker/runner.py:107-132 | the attempt is closed and its job has succeeded, or is released and can be claimed again the configured time after the report if attempts are left; unless the heartbeat was lost or the report itself did not find the attempt live; it raises only if a call to the job store broke |
| WorkerService.Worker.RunOnce | backend/worker/runner.py:90-133 | unless stopped it recovers stale leases first; no work means stopped or nothing to claim; work done means that a new run of this owner, claimed with the configured lease, has ended with its attempt closed as by a report, and that its job has succeeded and its effect was reached unless one of those causes came up, so also for runs that renew their lease many times or meet other workers in the workspace |
| Utf8.RoundTrip | backend/parsers/tree_sitter.py:134-145 | decoding the encoding of any text, surrogates included, gives the text |
| Utf8.EncodedShape | backend/parsers/tree_sitter.py:134-145 | lead bytes, continuation bytes and payload bits are those of UTF-8 |
| Utf8.SliceAtOffsets | backend/parsers/tree_sitter.py:276-279 | byte cuts computed from character cuts fall on character boundaries and cut the encoding into the encodings |
| Symbols.CollectSymbols | backend/parsers/tree_sitter.py:162-188 | the loop computes the recursive collection |
| Symbols.CollectedIsForest | backend/parsers/tree_sitter.py:162-188 | an ordered nested tree yields a sorted, disjoint, nested symbol forest |
| Symbols.CollectedGivesInnermost | backend/parsers/tree_sitter.py:162-188 | the forest gives each byte the symbol of the innermost symbol node around it in the tree |
| Symbols.Partition | backend/parsers/tree_sitter.py:233-262 | the loop computes the recursive partition |
| Symbols.PartitionTiles | backend/parsers/tree_sitter.py:233-262 | regions are contiguous and cover the interval exactly |
| Symbols.PartitionMeta | backend/parsers/tree_sitter.py:233-262 | each byte's region carries the innermost symbol that contains it |
| Symbols.RegionsOfTree | backend/parsers/tree_sitter.py:131-137 | from tree to regions: they tile the file, and each byte is labelled by the innermost symbol node, or as module |
| Tokens.CharCuts | backend/parsers/tree_sitter.py:272-275 | the loop collects the start of every limit-th token |
| Tokens.StartsAre | backend/parsers/tree_sitter.py:268-275 | the k-th match begins at a token start with exactly k tokens before it |
| Tokens.WordsJoin | backend/parsers/tree_sitter.py:268-275 | a cut at a token start or white space splits no token |
| Tokens.PieceWords | backend/parsers/tree_sitter.py:272-275 | the text between two cuts is not empty and holds exactly the matching run of tokens |
| Tokens.PortionIsSlice | backend/parsers/tree_sitter.py:272-275 | run k is the slice from k * limit to (k + 1) * limit, or to the end |
| TreeSitter.SplitByTokenLimit | backend/parsers/tree_sitter.py:264-280 | the method computes the pieces of a region |
| TreeSitter.PieceIs | backend/parsers/tree_sitter.py:264-280 | a region of n > limit tokens splits into ceil(n / limit) nonempty pieces on character boundaries, each holding its run of tokens |
| TreeSitter.PiecesTile | backend/parsers/tree_sitter.py:264-280 | the pieces tile the region |
| Pieces.AllPiecesTile | backend/parsers/tree_sitter.py:139-140 | splitting every region of a tiling, in order, gives a tiling of the same interval |
| Pieces.SplittingKeepsMeta | backend/parsers/tree_sitter.py:139-154 | splitting relabels no byte |
| Chunks.TreePieces | backend/parsers/tree_sitter.py:131-140 | for any well-nested tree the pieces tile the file on character boundaries, each within the limit |
| Chunks.SemanticChunks | backend/parsers/tree_sitter.py:131-160 | the nested loops compute one chunk per piece, in order |
| Chunks.ChunkingIsLossless | backend/parsers/tree_sitter.py:131-160 | chunk texts concatenate to the content, for any well-nested tree |
| Chunks.ChunksFitLimit | backend/parsers/tree_sitter.py:131-160 | no chunk has more than limit tokens |
| Chunks.LinesChain | backend/parsers/tree_sitter.py:155-156 | line ranges chain: 1 <= start <= end, and the next start is the previous end, plus one exactly when the previous chunk is nonempty and ends with a newline |
| Chunks.LineAfter | backend/parsers/tree_sitter.py:282-284 | the line after a piece is the line of its last byte, plus one if that byte is a newline |
| Chunks.ChunkLabels | backend/parsers/tree_sitter.py:147-157 | every chunk is labelled with the innermost symbol node around each of its bytes |
| Labels.KindIs | backend/parsers/tree_sitter.py:190-198 | which node types declare a class, a method or a function, and that a function directly inside a class is a method |
| Labels.NameIs | backend/parsers/tree_sitter.py:200-217 | where the name of a declaration comes from, Go type specifications and arrow functions included |
| Labels.ChunkLabelOfPath | backend/parsers/tree_sitter.py:162-188 | the label of a chunk, for the path of nodes around any of its bytes: kind and name of the nearest declaration, and as parent the name of the declaration around it, or a receiver |
| Sections.SplitIsLossless | backend/parsers/markdown.py:45 | split lines concatenate to the text |
| Sections.FirstLineIs | backend/parsers/markdown.py:45 | a line runs up to and with its first break, and a carriage return takes a newline with it |
| Sections.SplitOfLines | backend/parsers/markdown.py:45 | splitting a run of whole lines gives those lines again |
| Sections.HeadsAre | backend/parsers/markdown.py:59-70 | recorded headings are in order, each the heading of its line |
| Sections.HeadsComplete | backend/parsers/markdown.py:59-70 | no heading outside a fence is missed |
| Sections.StartsAreHeadings | backend/parsers/markdown.py:64-73 | recorded starts increase strictly and each is the offset of a heading line with no fence open |
| Sections.HeadingsAreStarts | backend/parsers/markdown.py:64-73 | every such line is recorded |
| Sections.CutSections | backend/parsers/markdown.py:73-86 | the slices between recorded offsets are the groups of whole lines between headings |
| Sections.SectionsAreLossless | backend/parsers/markdown.py:73-86 | sections concatenate to the content, and there is always one |
| Sections.SectionsReparse | backend/parsers/markdown.py:40-86 | parsing the text of any section gives back that one section with the same metadata |
| Markdown.FenceOpenShape | backend/parsers/markdown.py:8 | every line of the opening shape opens a fence, and the fence is its whole run of marks |
| Markdown.FenceOpenOnly | backend/parsers/markdown.py:8 | only such lines do |
| Markdown.FenceCloseShape | backend/parsers/markdown.py:48-52 | at most three spaces, at least as many of the same mark, then blanks: the fence closes |
| Markdown.FenceCloseOnly | backend/parsers/markdown.py:48-52 | only such lines close it |
| Markdown.HeadingShape | backend/parsers/markdown.py:7 | one to six hashes, blanks and a rest make a heading of that level |
| Markdown.HeadingOnly | backend/parsers/markdown.py:7 | only such lines are headings |
| Markdown.TitleDropsClosing | backend/parsers/markdown.py:61-63 | a closing run of hashes set off by blanks is removed |
| Markdown.TitleKeepsOther | backend/parsers/markdown.py:61-63 | without one, only trailing blanks are removed |
| Markdown.OpeningLine | backend/parsers/markdown.py:8-57 | over whole lines with any ending: outside a fence a line opens one exactly if it has the opening shape, and the fence is its run of marks |
| Markdown.ClosingLine | backend/parsers/markdown.py:46-52 | inside a fence a line of the closing shape closes it, and any other leaves it |
| Markdown.HeadingLine | backend/parsers/markdown.py:58-70 | a line is a heading of a level and text exactly if it has the heading shape, and the text has no line ending |
| Markdown.ScanLine | backend/parsers/markdown.py:45-71 | one round of the loop advances position, fence and recorded starts as specified |
| Markdown.FindStarts | backend/parsers/markdown.py:42-71 | the scan records exactly the headings of the specification, at their offsets |
| Markdown.ParseSections | backend/parsers/markdown.py:40-86 | the method computes the specified sections under the rules of the three lemmas on whole lines |
| Base64.ScanPadded | backend/indexing/provenance.py:97 | the lenient decoder inverts the padded encoding |
| Base64.RepadRestores | backend/indexing/provenance.py:87-97 | stripping the padding and adding -len mod 4 signs restores exactly what was removed |
| Base64.RoundTrip | backend/indexing/provenance.py:87-97 | every byte string survives encode, strip, re-pad and decode |
| Base64.Vectors | backend/indexing/provenance.py:87 | test vectors of RFC 4648 and the URL-safe symbols |
| Json.MergeIsIdentity | backend/indexing/provenance.py:86-98 | a string is re-read unchanged exactly when no high surrogate directly precedes a low one |
| Json.EscapesAre | backend/indexing/provenance.py:86 | how each character is printed: short escapes, printable ASCII as it is, four hexadecimal digits or two such units otherwise |
| Json.ParseCharsOf | backend/indexing/provenance.py:86-98 | any printed string is read back with such pairs merged |
| Json.ParseObjectOf | backend/indexing/provenance.py:86-98 | any printed flat object is read back, its strings likewise |
| Provenance.DecodeOfEncoded | backend/indexing/provenance.py:73-107 | decoding any citation gives its payload as JSON re-reads it; CitationSays says what that payload holds |
| Provenance.CitationSays | backend/indexing/provenance.py:73-107 | a reader of the citation finds under document_id, revision, start_line, end_line, path, language and symbol the datum of its own chunk |
| Provenance.CitationRoundTrip | backend/indexing/provenance.py:73-107 | the payload comes back exactly if and only if path, language and symbol have no such pair |
| Provenance.ScalarCitationsRoundTrip | backend/indexing/provenance.py:73-107 | it always does for strings of Unicode scalar values |
| Provenance.PairedFilenameIsMerged | backend/indexing/provenance.py:73-107 | a file name with a surrogate pair, which the reader gets as one character |
| Provenance.ForeignValuesAreRejected | backend/indexing/provenance.py:91-100 | values without the prefix, or not ASCII, decode to nothing |
| Provenance.ChunkIdIsInjective | backend/indexing/provenance.py:68-70 | equal identities come from the same document, revision and position |
| Provenance.InsertParsedDocument | backend/indexing/provenance.py:52-65 | it makes one call: the whole text, or for each chunk its own text, the identity of its position, and a citation that reads back as its payload |
| Provenance.ChunkedExactly | backend/indexing/provenance.py:15-65 | a document is indexed by chunks exactly if it has chunks and a language and a revision is given or active; otherwise it is inserted and deleted whole |
| Provenance.IndexHoldsChunks | backend/indexing/provenance.py:52-70 | after an insertion the index has, under the identity of each position, exactly the text and citation of that chunk |
| Provenance.DeleteIndexedDocument | backend/indexing/provenance.py:37-49 | it makes one delete call per chunk identity, in order, or deletes the whole document |
| Provenance.DeleteUndoesInsert | backend/indexing/provenance.py:15-65 | deleting with active revision r removes exactly the identities that an insert with revision r created |
| Provenance.OtherChunksAreUntouched | backend/indexing/provenance.py:15-65 | neither call touches the chunks of another document or revision |
| SourceIndex.IndexHoldsFile | backend/parsers/tree_sitter.py:131-160 | for any well-nested tree: the entries of a revision, read by position after the insertion, concatenate to the file |
| SourceIndex.ScalarFileCitations | backend/indexing/provenance.py:73-107 | the citations stored with a file decoded as strict UTF-8 read back as the payloads of its chunks |
| SourceIndex.StoredCitationSays | backend/indexing/provenance.py:73-107 | the citation stored at position k names the document, the revision, and the path, language, symbol and lines of chunk k |
| SourceIndex.DeletionForgetsFile | backend/indexing/provenance.py:37-70 | deleting with the revision that was inserted leaves no entry of the file |
| Registry.AlwaysOk | backend/rag/runtime_registry.py:37-102 | lock, map, closes and tasks stay consistent over every interleaving |
| Registry.OneRuntimePerKey | backend/rag/runtime_registry.py:58-76 | calls that return, at any two moments, return the same runtime exactly when their keys are equal |
| Registry.ClosedExactlyOnce | backend/rag/runtime_registry.py:91-98 | no runtime is closed twice or while retained; after shutdown each ever retained was closed exactly once |
| Registry.FinishedForEver | backend/rag/runtime_registry.py:78-102 | after shutdown the map stays empty, later calls are refused, and no waiting call returns a runtime |
| Registry.ShutdownCanProceed | backend/rag/runtime_registry.py:78-102 | until shutdown has finished some step that advances it is enabled |
| Registry.AdvancingShortens | backend/rag/runtime_registry.py:78-102 | each such step brings it nearer |
| Registry.LightRAGRuntimeRegistry.Get | backend/rag/runtime_registry.py:37-76 | one call, with other tasks acting at each suspension, makes registry steps; it returns the retained runtime, or the one its factory made when none is retained, unless it was cancelled, refused by a closing registry, or its factory failed |
| Registry.LightRAGRuntimeRegistry.UnderLock | backend/rag/runtime_registry.py:58-76 | under the lock a closing registry refuses, and a retained runtime is returned |
| Registry.LightRAGRuntimeRegistry.AwaitFactory | backend/rag/runtime_registry.py:71-76 | its last event releases the lock; a runtime that was made is retained under the key, and a failed or cancelled factory retains nothing |
| Registry.LightRAGRuntimeRegistry.Close | backend/rag/runtime_registry.py:78-89 | afterwards the registry is closing and the shared shutdown has started; a call that completes has seen it finish |
| Registry.LightRAGRuntimeRegistry.CloseAll | backend/rag/runtime_registry.py:91-98 | it empties the map under the lock and closes each retained runtime once |
| Embeddings.EveryIndexOccurs | backend/embeddings/client.py:150-152 | n distinct indices below n are all of them, so the completeness check never fires |
| Embeddings.NoFailureMeansAcceptable | backend/embeddings/client.py:122-148 | all items pass exactly when the indices are a permutation of 0..n-1 and all vectors are valid |
| Embeddings.OverflowExactly | backend/embeddings/client.py:136-142 | when a vector raises an overflow instead of a protocol error |
| Embeddings.HugeIntegerOverflows | backend/embeddings/client.py:136-142 | a one-item response that does |
| Embeddings.ParseVectors | backend/embeddings/client.py:112-152 | it succeeds exactly on such responses, puts each item's numbers in order at its index, otherwise reports the first failing item's failure, and never reports incompleteness |

## Left out

- HTTP routers, settings, health checks, logging and Compose: plumbing.
- Object storage, PostgreSQL, LightRAG, LLM and embedding calls: only success or failure; SHA-256 is an uninterpreted function.
- The contents of the LightRAG index as part of the protocol: an insert without revision stores a whole document, while deletion uses the active revision, so the code does not keep the index equal to the active revision. Insertion of an identity that already exists is taken to overwrite.
- The legacy entry points `store`, `add_revision` and `activate_revision` of the source service and repository, and unfenced transitions to READY: no API route calls them and they break the coupling by design.
- CANCELLED jobs: the status exists and no runtime path sets it.
- A lease recovery and claim between a fenced status transition and its commit: statement and commit are one step.
- Races between the statements of one API transaction, isolation levels below the committed transaction, and the advisory document lock and its key.
- Collisions of generated UUIDs; workspace creation and rename; migration downgrades and cascading deletes.
- Tree-sitter grammars and syntax errors: a tree with ordered, disjoint, nested ranges on character boundaries is assumed, and the one-chunk fallback for syntax errors is not modelled. Symbol names are ranges of the source, and the breadth-first search for a Go receiver is an attribute of the node.
- CommonMark conformance: the scanner's own rules are specified.
- Provenance.Decode: reads flat objects of strings, natural numbers and nulls without white space; other JSON, non-ASCII JSON text, and the further spellings that the UUID constructor accepts are not modelled.
- Embeddings.ParseVectors: floats are reals, so the rounding of integers above 2^53 is not modelled.
- WorkerService.IndexingJobProcessor.Process: which exception a broken call raises, and so which of the two error codes is stored, is not modelled; a wait for the workspace row that never ends is cut off as an exception, at any time while another run holds the row.
- SourceService.DocumentSourceService.UpsertForIndexing: the tables do not change between its statements, and the other calls that act before its compensating delete are taken to leave the objects of committed revisions alone.
- Persistence.JobRepository.Create: a statement may also raise for reasons outside the model, as may every other statement of the repositories.
- WorkerService.Worker.RunOnce: cancellation of the worker itself is a crash of its run, and the polling loop around it is not modelled. The heartbeat task runs at the suspensions of the processing.
- Registry.LightRAGRuntimeRegistry.CloseAll: errors raised by a runtime's own close are not passed on.
- Registry.LightRAGRuntimeRegistry.Get: a wait for the lock that never ends is cut off as a cancellation, and lock fairness is not modelled.
