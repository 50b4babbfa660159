# Clang code model back end: job queue and completion extracter

This project models two parts of the Qt Creator clang code model back end.

**The job queue** (`ClangBackEnd::JobQueue`) holds the pending analysis requests for the open
documents. Each request is stamped with the registry values it was built from: the document
revision, the unsaved-files change time and the project part's change time. On every
`processQueue` the queue does three things:
- it drops the requests that a later change has made out of date, using a per-type policy table;
- it orders the rest by priority, stably: documents used by the current editor first, then
  visible documents, then the rest;
- it hands back the requests that may run now, at most one per document, and never one for a
  document whose job is already running.

The requests that cannot run yet stay queued in order. The registry of documents, project
parts and unsaved files is modelled as a class holding a snapshot (`RegistryState`). Every
registry mutation is a pure transition on that snapshot. The queue's operations are
imperative methods, each proved equal to a specification function (`Pruned`, `Prioritized`,
`Select`, `Process`). The properties the unit tests check are lemmas about those functions.
The unit tests themselves are replayed as verified scenario methods on the fixture's two
documents.

**The completion extracter** (`CodeModelBackEnd::CodeCompletionsExtracter`) is a cursor over
libclang's completion results. Each `next` turns the result under the cursor into a
`CodeCompletion`:
- the kind comes from the cursor-kind table, and for methods and macros from the Qt
  annotations and the chunks;
- the text comes from the first TypedText chunk;
- the priority is copied over;
- the availability is mapped;
- the parameter flag comes from the first LeftParen chunk.

The class keeps the source's loops. The pure function `Complete` specifies what one `next`
builds. `extractAll` is proved to yield `Complete` of every remaining result, in order.

The implementation file of the job queue (`clangjobqueue.cpp`) is not part of this model.
The queue's behaviour is therefore taken from its unit test
(`tests/unit/unittest/clangjobqueuetest.cpp`). Where the test does not pin a behaviour down, the
model makes an assumption, listed under "Left out".

The test at `clangjobqueuetest.cpp:364-372` is named `RequestCompleteCodeOutdatableByDocumentRevisionChange`.
It actually queues a `RequestDocumentAnnotations` request. The model follows what the test
does: `JobRequests.RequestDocumentAnnotationsOutdatableByRevisionChange` proves that case. The
completion request's immunity to revision changes is the separate test at 344-352.

## Model

| member | source | states |
|---|---|---|
| RegistryStates.TransitionsKeepWellFormed | tests/unit/unittest/clangjobqueuetest.cpp:374-444 | Every registry mutation the fixture performs keeps every recorded time point at or before the clock, so a re-stamp always differs from an older snapshot |
| TranslationUnits.Registry.constructor | tests/unit/unittest/clangjobqueuetest.cpp:58-88 | A fresh registry holds no documents, no project parts, and its clocks at 0 |
| TranslationUnits.Registry.CreateOrUpdateProject | tests/unit/unittest/clangjobqueuetest.cpp:431-434 | Creating or updating a project part re-stamps its change time from the clock |
| TranslationUnits.Registry.RemoveProject | tests/unit/unittest/clangjobqueuetest.cpp:436-439 | Removing a project part forgets it and nothing else |
| TranslationUnits.Registry.CreateDocument | tests/unit/unittest/clangjobqueuetest.cpp:374-383 | Opening a document adds it at revision 0, intact, not visible and not current; an existing document or an unknown project part is refused, reported by `created`, and changes nothing |
| TranslationUnits.Registry.RemoveDocument | tests/unit/unittest/clangjobqueuetest.cpp:441-444 | Closing a document forgets it and nothing else |
| TranslationUnits.Registry.SetDocumentRevision | tests/unit/unittest/clangjobqueuetest.cpp:421-424 | An edit sets the document's revision and changes nothing else |
| TranslationUnits.Registry.UpdateUnsavedFiles | tests/unit/unittest/clangjobqueuetest.cpp:426-429 | An unsaved-buffer change re-stamps the global unsaved-files time from the clock |
| TranslationUnits.Registry.SetVisibleInEditors | tests/unit/unittest/clangjobqueuetest.cpp:385-389 | Exactly the open documents whose path is listed become visible |
| TranslationUnits.Registry.SetUsedByCurrentEditor | tests/unit/unittest/clangjobqueuetest.cpp:385-389 | Exactly the open documents with that path become current |
| TranslationUnits.Registry.SetHasParseOrReparseFailed | tests/unit/unittest/clangjobqueuetest.cpp:317 | Marking a parse failure makes the document not intact and changes nothing else; the deleted-file helper at 391-404 is modelled by it too |
| JobRequests.RequirementsForType | tests/unit/unittest/clangjobqueuetest.cpp:411 | The policy table: every request type is checked for a closed document, a missing project part and a broken document; every type except completion also for a re-stamped project part; only the two annotation types also for a revision change and an unsaved-file change. `CompleteCodeOutdatedIff`, `PreambleOutdatedIff` and `AnnotationsOutdatedIff` restate the policy in registry terms |
| JobRequests.IsOutdated | tests/unit/unittest/clangjobqueuetest.cpp:134-198 | A request is out of date when one of the checks its type carries fails against the registry; `CompleteCodeOutdatedIff`, `PreambleOutdatedIff` and `AnnotationsOutdatedIff` state exactly when, per type |
| JobRequests.NewJobRequest | tests/unit/unittest/clangjobqueuetest.cpp:406-419 | A request exists exactly when the document and its project part are known; it carries the type, that type's policy set, the document's identity, and the revision, project time and unsaved-files time read from the registry |
| JobRequests.FreshRequestIsCurrent | tests/unit/unittest/clangjobqueuetest.cpp:107-115 | A request just stamped from the registry is out of date if and only if its document is not intact |
| JobRequests.CompleteCodeOutdatedIff | tests/unit/unittest/clangjobqueuetest.cpp:324-352 | A completion request is out of date if and only if its document is closed, its project part is gone, or its document is not intact |
| JobRequests.PreambleOutdatedIff | tests/unit/unittest/clangjobqueuetest.cpp:354-362 | An initial-preamble request is out of date if and only if its document is closed, its project part is gone, the project part was re-stamped, or its document is not intact |
| JobRequests.AnnotationsOutdatedIff | tests/unit/unittest/clangjobqueuetest.cpp:274-322 | An annotation request is out of date if and only if one of six things holds: the document is closed, the project part is gone, the project part was re-stamped, the revision changed, the unsaved files changed, or the document is not intact |
| JobRequests.UpdateDocumentAnnotationsOutdatable | tests/unit/unittest/clangjobqueuetest.cpp:274-322 | After any of the fixture's six changes, a freshly stamped annotation update is out of date: document close, project removal, project update, unsaved-file change, revision change, parse failure |
| JobRequests.RequestDocumentAnnotationsOutdatableByRevisionChange | tests/unit/unittest/clangjobqueuetest.cpp:364-372 | A document-annotations request is out of date after its document's revision changes |
| JobRequests.CompleteCodeOutdatability | tests/unit/unittest/clangjobqueuetest.cpp:324-352 | A completion request is out of date after its document closes, but not after an unsaved-file change or a revision change while the document stays intact |
| JobRequests.CreateInitialDocumentPreambleOutdatableByDocumentClose | tests/unit/unittest/clangjobqueuetest.cpp:354-362 | An initial-preamble request is out of date after its document closes |
| JobQueueSpec.Pruned | tests/unit/unittest/clangjobqueuetest.cpp:134-198 | Pruning keeps exactly the requests that are not out of date, and a queue without out-of-date requests is kept whole |
| JobQueueSpec.PrunedKeepsOrder | tests/unit/unittest/clangjobqueuetest.cpp:134-198 | Pruning is the subsequence of the queue flagged current, request by request: the kept requests stay in the order they were queued |
| JobQueueSpec.PrunedMultiset | tests/unit/unittest/clangjobqueuetest.cpp:134-198 | Pruning keeps each current request as many times as it was queued, and an out-of-date one zero times |
| JobQueueSpec.WithRankMembers | tests/unit/unittest/clangjobqueuetest.cpp:200-235 | The priority group of rank k holds exactly the queued requests of rank k |
| JobQueueSpec.PrioritizedIsPermutation | tests/unit/unittest/clangjobqueuetest.cpp:200-235 | Prioritizing is a permutation of the queue (equal multisets) |
| JobQueueSpec.PrioritizedIsSorted | tests/unit/unittest/clangjobqueuetest.cpp:200-235 | After prioritizing, no request stands behind one of lower priority |
| JobQueueSpec.PrioritizedIsStable | tests/unit/unittest/clangjobqueuetest.cpp:200-235 | Requests of equal priority keep their queued order |
| JobQueueSpec.PrioritizedIsIdempotent | tests/unit/unittest/clangjobqueuetest.cpp:200-235 | Prioritizing twice gives the same order as prioritizing once |
| JobQueueSpec.PrioritizeCurrentDocumentOverNotCurrent | tests/unit/unittest/clangjobqueuetest.cpp:200-210 | A request for the current editor's document moves ahead of one queued before it for a document that is not current |
| JobQueueSpec.PrioritizeVisibleOverNotVisible | tests/unit/unittest/clangjobqueuetest.cpp:212-222 | A request for a visible document moves ahead of one queued before it for a document neither visible nor current |
| JobQueueSpec.Select | tests/unit/unittest/clangjobqueuetest.cpp:249-258 | A selection pass splits the queue between the batch and the rest without changing its length |
| JobQueueSpec.SelectIsPartition | tests/unit/unittest/clangjobqueuetest.cpp:249-258 | The batch and the requests left queued together are exactly the queue, as multisets |
| JobQueueSpec.SelectBatchIsRunnableAndDistinct | tests/unit/unittest/clangjobqueuetest.cpp:237-272 | Every dispatched request is runnable (its document open, visible or current, and not busy). No two dispatched requests share a document. A runnable request stays queued only because its document was already scheduled in the pass |
| JobQueueSpec.SelectKeepsQueueOrder | tests/unit/unittest/clangjobqueuetest.cpp:249-272 | One flag per queued request splits the queue: the batch is the flagged requests and the rest the unflagged ones, each in queue order |
| JobQueueSpec.SelectFirstWins | tests/unit/unittest/clangjobqueuetest.cpp:249-258 | Of the runnable requests for one document, the first one queued is dispatched: a runnable request with no runnable request for its document ahead of it is in the batch |
| JobQueueSpec.SelectNothingRunnable | tests/unit/unittest/clangjobqueuetest.cpp:237-272 | With no runnable request queued, nothing is dispatched |
| JobQueueSpec.ProcessCountsEachRequest | tests/unit/unittest/clangjobqueuetest.cpp:117-198 | Counted per request, the dispatched plus the still-queued requests hold each current request as many times as it was queued, and each out-of-date one zero times: nothing is lost or duplicated |
| JobQueueSpec.ProcessKeepsExactlyCurrent | tests/unit/unittest/clangjobqueuetest.cpp:134-198 | After processing, the dispatched and the still-queued requests together are exactly the queued requests that are not out of date |
| JobQueueSpec.ProcessConservesCurrentQueue | tests/unit/unittest/clangjobqueuetest.cpp:117-132 | Without out-of-date requests, dispatched plus remaining equals the queue's size |
| JobQueueSpec.ProcessEmpty | tests/unit/unittest/clangjobqueuetest.cpp:100-105 | Processing an empty queue dispatches nothing and leaves it empty |
| JobQueueSpec.ProcessSingleJob | tests/unit/unittest/clangjobqueuetest.cpp:107-115 | A single current request is dispatched and removed if and only if it is runnable; otherwise it stays queued |
| JobQueueSpec.SingletonIsPrioritized | tests/unit/unittest/clangjobqueuetest.cpp:107-115 | A one-request queue is already in priority order |
| JobQueueSpec.ProcessUntilEmpty | tests/unit/unittest/clangjobqueuetest.cpp:117-132 | Two current runnable requests for one document: the first call dispatches the first and keeps the second, and the next call dispatches the second and empties the queue |
| JobQueueSpec.RunNothingForNotCurrentOrVisibleDocument | tests/unit/unittest/clangjobqueuetest.cpp:237-247 | Nothing is dispatched when no queued request's document is visible or current |
| JobQueueSpec.DoNotRunJobForDocumentThatIsBeingProcessed | tests/unit/unittest/clangjobqueuetest.cpp:260-272 | Nothing is dispatched while every document reports a running job |
| JobQueueSpec.ProcessDropsOutdatedRequest | tests/unit/unittest/clangjobqueuetest.cpp:134-198 | A queue of one out-of-date request is emptied and nothing is dispatched |
| JobQueueSpec.OutdatedRequestIsDropped | tests/unit/unittest/clangjobqueuetest.cpp:134-198 | An out-of-date request is neither dispatched nor kept, whatever else is queued |
| ClangJobQueue.JobQueue.constructor | tests/unit/unittest/clangjobqueuetest.cpp:87 | A new queue over the registry is empty and treats no job as running |
| ClangJobQueue.JobQueue.Size | tests/unit/unittest/clangjobqueuetest.cpp:100-105 | The number of queued requests |
| ClangJobQueue.JobQueue.Add | tests/unit/unittest/clangjobqueuetest.cpp:90-98 | Adding appends the request unconditionally; the size grows by one |
| ClangJobQueue.JobQueue.SetIsJobRunningHandler | tests/unit/unittest/clangjobqueuetest.cpp:260-272 | The injected running-job predicate is replaced |
| ClangJobQueue.JobQueue.RemoveOutDatedRequests | tests/unit/unittest/clangjobqueuetest.cpp:134-198 | The loop leaves the queue equal to `Pruned` of the old queue against the registry |
| ClangJobQueue.JobQueue.PrioritizeRequests | tests/unit/unittest/clangjobqueuetest.cpp:200-235 | The bucket loop leaves the queue equal to `Prioritized` of the old queue (a permutation of it) |
| ClangJobQueue.JobQueue.TakeJobRequestsToRunNow | tests/unit/unittest/clangjobqueuetest.cpp:237-272 | The pass returns `Select`'s batch and leaves its rest queued |
| ClangJobQueue.JobQueue.ProcessQueue | tests/unit/unittest/clangjobqueuetest.cpp:107-132 | One call returns `Process`'s batch (prune, prioritize, select) and leaves its rest queued |
| JobQueueScenarios.SetUp | tests/unit/unittest/clangjobqueuetest.cpp:374-383 | The fixture's registry ends with one project part and two intact documents at revision 0, the first visible and current; the queue is empty |
| JobQueueScenarios.CreateJobRequest | tests/unit/unittest/clangjobqueuetest.cpp:406-419 | The fixture's request is the one `NewJobRequest` stamps from the registry as it is now |
| JobQueueScenarios.AddJob | tests/unit/unittest/clangjobqueuetest.cpp:90-98 | After one add the queue size is 1 |
| JobQueueScenarios.ProcessEmpty | tests/unit/unittest/clangjobqueuetest.cpp:100-105 | Processing the fixture's empty queue runs nothing and leaves size 0 |
| JobQueueScenarios.ProcessSingleJob | tests/unit/unittest/clangjobqueuetest.cpp:107-115 | One annotation request for the current document: one job runs and the size drops to 0 |
| JobQueueScenarios.ProcessUntilEmpty | tests/unit/unittest/clangjobqueuetest.cpp:117-132 | Two requests for the current document: the sizes go 2, 1, 0 and each call runs one job |
| JobQueueScenarios.ProcessTwoForOneDocument | tests/unit/unittest/clangjobqueuetest.cpp:249-258 | Of two current runnable requests for one document, the first runs and the second stays queued |
| JobQueueScenarios.RemoveOutdatedUpdateDocumentAnnotations | tests/unit/unittest/clangjobqueuetest.cpp:134-187 | After a document close, project removal, unsaved-file change, revision change, project update or parse failure, the queued annotation request is dropped: nothing runs and the size is 0. The same six changes also replay the `RequestUpdateDocumentAnnotationsOutdatableBy` tests at 274-322, the parse failure being the one at 314-322 |
| JobQueueScenarios.RemoveRequestsForNotIntactDocuments | tests/unit/unittest/clangjobqueuetest.cpp:189-198 | A request for a document whose parse failed is dropped: nothing runs and the size is 0 |
| JobQueueScenarios.Prioritize | tests/unit/unittest/clangjobqueuetest.cpp:200-235 | When the second document becomes current, or only visible, or current while both are visible, its request comes out of prioritizing first |
| JobQueueScenarios.RunNothingForNotCurrentOrVisibleDocument | tests/unit/unittest/clangjobqueuetest.cpp:237-247 | With no visible document and a current path that is not open, nothing runs |
| JobQueueScenarios.DoNotRunJobForDocumentThatIsBeingProcessed | tests/unit/unittest/clangjobqueuetest.cpp:260-272 | After one of two requests ran, a handler that reports every document busy keeps the other queued: nothing runs and the size stays 1 |
| JobQueueScenarios.StalenessByType | tests/unit/unittest/clangjobqueuetest.cpp:274-372 | Of the per-type staleness cases, exactly the completion request after an unsaved-file change or a revision change starts one job; every other case starts none |
| CodeCompletions.FirstOfKindIsFirst | src/tools/codemodelbackend/ipcsource/codecompletionsextracter.cpp:155-166 | The index found holds a chunk of the kind searched for, and no chunk before it does |
| CodeCompletions.TypedTextOfIsFirst | src/tools/codemodelbackend/ipcsource/codecompletionsextracter.cpp:155-166 | There is no typed text exactly when no chunk is TypedText; otherwise it is the text of a TypedText chunk with none before it |
| CodeCompletions.HasTypedTextIff | src/tools/codemodelbackend/ipcsource/codecompletionsextracter.cpp:248-261 | `name` matches exactly when some TypedText chunk reads `name` and no TypedText chunk comes before it |
| CodeCompletions.FirstQtMarkerIsFirst | src/tools/codemodelbackend/ipcsource/codecompletionsextracter.cpp:168-188 | The index found holds `qt_signal` or `qt_slot`, and no annotation before it does |
| CodeCompletions.MethodKind | src/tools/codemodelbackend/ipcsource/codecompletionsextracter.cpp:168-188 | A method is a signal, a slot or a plain function, nothing else |
| CodeCompletions.MethodKindIsFirstMarker | src/tools/codemodelbackend/ipcsource/codecompletionsextracter.cpp:168-188 | A method is a signal (a slot) if and only if its first Qt marker annotation is `qt_signal` (`qt_slot`) |
| CodeCompletions.MacroKind | src/tools/codemodelbackend/ipcsource/codecompletionsextracter.cpp:190-205 | A macro is either function-like or a preprocessor macro |
| CodeCompletions.MacroKindIff | src/tools/codemodelbackend/ipcsource/codecompletionsextracter.cpp:190-205 | A macro is function-like if and only if one of its chunks is a placeholder |
| CodeCompletions.ParameterFlagIff | src/tools/codemodelbackend/ipcsource/codecompletionsextracter.cpp:235-246 | A flag is produced if and only if there is a LeftParen chunk. It is true if and only if the chunk right after the first LeftParen is not a RightParen |
| CodeCompletions.CompletionKindOf | src/tools/codemodelbackend/ipcsource/codecompletionsextracter.cpp:98-153 | The kind is Other exactly for the cursor kinds the table does not list. It is Keyword exactly for NotImplemented. Signal and slot come only from C++ methods, and preprocessor only from macro definitions |
| CodeCompletions.AvailabilityIsBijective | src/tools/codemodelbackend/ipcsource/codecompletionsextracter.cpp:214-233 | The availability mapping is one-to-one and reaches every availability |
| CodeCompletions.Completions | src/tools/codemodelbackend/ipcsource/codecompletionsextracter.cpp:88-96 | There is one completion per result |
| CodeCompletions.CompletionsAt | src/tools/codemodelbackend/ipcsource/codecompletionsextracter.cpp:88-96 | The completion at each position is built from the result at that position |
| CodeCompletions.CompletionsExtend | src/tools/codemodelbackend/ipcsource/codecompletionsextracter.cpp:88-96 | Adding the next result to a run of results adds its completion at the end |
| CompletionsExtracter.CodeCompletionsExtracter.constructor | src/tools/codemodelbackend/ipcsource/codecompletionsextracter.cpp:43-47 | A new extracter holds the results with its cursor before the first one |
| CompletionsExtracter.CodeCompletionsExtracter.CurrentCodeCompletion | src/tools/codemodelbackend/ipcsource/codecompletionsextracter.cpp:263-266 | The completion built by the last successful `Next`; `Next` states what it holds |
| CompletionsExtracter.CodeCompletionsExtracter.Next | src/tools/codemodelbackend/ipcsource/codecompletionsextracter.cpp:49-70 | The cursor moves one on. The call succeeds exactly when the cursor lands on a result, and the current completion is then `Complete` of that result alone. Past the end, the current completion is unchanged |
| CompletionsExtracter.CodeCompletionsExtracter.Peek | src/tools/codemodelbackend/ipcsource/codecompletionsextracter.cpp:72-86 | True exactly when some result after the cursor has `name` as its typed text; the cursor does not move |
| CompletionsExtracter.CodeCompletionsExtracter.ExtractAll | src/tools/codemodelbackend/ipcsource/codecompletionsextracter.cpp:88-96 | Returns `Complete` of every result after the cursor, in order; the cursor ends past the end; the current completion ends as the last result's, or unchanged when no result was left |
| CompletionsExtracter.CodeCompletionsExtracter.AppendNext | src/tools/codemodelbackend/ipcsource/codecompletionsextracter.cpp:92-93 | One turn of the extract-all loop: advance, and on success extend the completions by the new one, which becomes the current completion; otherwise the current completion is unchanged |
| CompletionsExtracter.CodeCompletionsExtracter.ExtractCompletionKind | src/tools/codemodelbackend/ipcsource/codecompletionsextracter.cpp:98-153 | Only the kind changes, and it becomes the table's kind for the current result |
| CompletionsExtracter.CodeCompletionsExtracter.ExtractText | src/tools/codemodelbackend/ipcsource/codecompletionsextracter.cpp:155-166 | Only the text changes, to the first TypedText chunk's text; with no such chunk it stays as it was |
| CompletionsExtracter.CodeCompletionsExtracter.ExtractMethodCompletionKind | src/tools/codemodelbackend/ipcsource/codecompletionsextracter.cpp:168-188 | Only the kind changes, to signal, slot or function according to the first Qt marker |
| CompletionsExtracter.CodeCompletionsExtracter.ExtractMacroCompletionKind | src/tools/codemodelbackend/ipcsource/codecompletionsextracter.cpp:190-205 | Only the kind changes, to function-like when a placeholder chunk exists and preprocessor otherwise |
| CompletionsExtracter.CodeCompletionsExtracter.ExtractPriority | src/tools/codemodelbackend/ipcsource/codecompletionsextracter.cpp:207-212 | Only the priority changes, to the completion string's priority |
| CompletionsExtracter.CodeCompletionsExtracter.ExtractAvailability | src/tools/codemodelbackend/ipcsource/codecompletionsextracter.cpp:214-233 | Only the availability changes, to the mapped libclang availability |
| CompletionsExtracter.CodeCompletionsExtracter.ExtractHasParameters | src/tools/codemodelbackend/ipcsource/codecompletionsextracter.cpp:235-246 | Only the parameter flag changes, and only when there is a LeftParen chunk |
| CompletionsExtracter.CodeCompletionsExtracter.HasText | src/tools/codemodelbackend/ipcsource/codecompletionsextracter.cpp:248-261 | True exactly when the first TypedText chunk reads the text; false when there is none |
| CompletionsExtracter.ExtractAllFromStart | src/tools/codemodelbackend/ipcsource/codecompletionsextracter.cpp:88-96 | A fresh extracter yields exactly one completion per result, each built from its own result, in order |

## Left out

- The job queue's implementation (`clangjobqueue.cpp`, `jobrequest.cpp`) is not part of this model. The unit test does not pin the following behaviours down, so they are modelling assumptions:
  - the policy table as listed in `JobRequests.RequirementsForType`;
  - three priority levels;
  - at most one request per document per call;
  - only visible or current documents run.
- Time points: one logical clock (`now`) stands in for `steady_clock`. Every re-stamp takes a later value, and staleness compares stamps with `!=`.
- `createJobRequest` reads the revision from the fixture's first document for every request. The model stamps each request from its own document. Every document other than the first that a test queues is at revision 0, as the first is: the second document, and the third one that `createTranslationUnitForDeletedFile` creates. For the same reason, a request for a document that is not open does not exist in the model (`NewJobRequest` returns `None`), where the fixture would still build one.
- `createTranslationUnitForDeletedFile` creates a document from a temporary file that is deleted when the helper returns, so the document is not intact. The model marks it not intact directly. It does not mark it current as the helper does; the request is dropped for not being intact either way.
- `QTemporaryFile`, `TESTDATA_DIR`, the concrete file paths and the dummy client are left out. The scenarios take the two file paths as parameters, under the assumption that they are distinct, non-empty, and not the unopened path that `RunNothingForNotCurrentOrVisibleDocument` makes current.
- Exceptions: the fixture's request creation throws only for an unknown project part, and the registry refuses to create a document twice or for an unknown project part. The model gives an absent request (`NewJobRequest` returns `None`) for the first and an unchanged registry for the second.
- Running jobs, IPC, threads and the job-finished callbacks are not modelled. Only the injected `isJobRunning` predicate is.
- CompletionsExtracter.CodeCompletionsExtracter.ExtractPriority: the priority is copied through unchanged. libclang's priority value is modelled as an opaque 32-bit number.
- CompletionsExtracter.CodeCompletionsExtracter.Next: the unsigned cursor index is modelled as an unbounded integer starting at -1. Wrap-around after 2^32 results is not modelled.
- CompletionsExtracter.CodeCompletionsExtracter.ExtractHasParameters: the source reads the chunk after a LeftParen without checking bounds. A LeftParen as the last chunk is modelled as not followed by a RightParen, so the flag is true.
- `CodeCompletion`'s defaults come from a header that is not part of this model. The model takes empty text and no parameters, and every other field is overwritten for each result.
- `currentCodeCompletion` is a plain getter (`CurrentCodeCompletion`). Libclang's own result production and the string conversion of chunk texts are left out.
