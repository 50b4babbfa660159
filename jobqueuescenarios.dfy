/**
 * The job queue test cases replayed against the model: the fixture opens one project part
 * with two documents, the first visible and used by the current editor, and each case adds
 * requests, changes the registry and calls the queue.
 */
module JobQueueScenarios {
  import opened RegistryStates
  import opened TranslationUnits
  import opened JobRequests
  import opened JobQueueSpec
  import opened Wrappers
  import opened ClangJobQueue

  /**
   * The registry after the fixture's set-up: both documents open at revision 0 and intact,
   * only the first visible and used by the current editor, the project part stamped at 1.
   */
  function FixtureState(filePath1: string, filePath2: string, projectPartId: string): RegistryState {
    RegistryState(
      map[DocumentId(filePath1, projectPartId) := Document(0, true, true, true),
          DocumentId(filePath2, projectPartId) := Document(0, false, false, true)],
      map[projectPartId := 1], 0, 1)
  }

  /** Setting the visible files on a registry holding exactly two documents. */
  lemma VisibleOfTwo(st: RegistryState, d1: DocumentId, d2: DocumentId, filePaths: set<string>)
    requires d1 != d2 && st.documents.Keys == {d1, d2}
    ensures SetVisibleInEditors(st, filePaths).documents ==
      map[d1 := st.documents[d1].(visibleInEditor := d1.filePath in filePaths),
          d2 := st.documents[d2].(visibleInEditor := d2.filePath in filePaths)]
  {
    var v := SetVisibleInEditors(st, filePaths).documents;
    var m := map[d1 := st.documents[d1].(visibleInEditor := d1.filePath in filePaths),
                 d2 := st.documents[d2].(visibleInEditor := d2.filePath in filePaths)];
    assert v.Keys == m.Keys;
    assert v[d1] == m[d1] && v[d2] == m[d2];
  }

  /** Setting the current editor's file on a registry holding exactly two documents. */
  lemma CurrentOfTwo(st: RegistryState, d1: DocumentId, d2: DocumentId, filePath: string)
    requires d1 != d2 && st.documents.Keys == {d1, d2}
    ensures SetUsedByCurrentEditor(st, filePath).documents ==
      map[d1 := st.documents[d1].(usedByCurrentEditor := d1.filePath == filePath),
          d2 := st.documents[d2].(usedByCurrentEditor := d2.filePath == filePath)]
  {
    var c := SetUsedByCurrentEditor(st, filePath).documents;
    var m := map[d1 := st.documents[d1].(usedByCurrentEditor := d1.filePath == filePath),
                 d2 := st.documents[d2].(usedByCurrentEditor := d2.filePath == filePath)];
    assert c.Keys == m.Keys;
    assert c[d1] == m[d1] && c[d2] == m[d2];
  }

  /**
   * The fixture's two file paths: distinct, and different from the empty path and from the
   * path of the test that sets a file that is not open as current.
   */
  predicate FixturePaths(filePath1: string, filePath2: string) {
    && filePath1 != filePath2
    && filePath1 != "" && filePath2 != ""
    && filePath1 != "aNonExistingFilePath" && filePath2 != "aNonExistingFilePath"
  }

  /** The fixture's `SetUp`. */
  method SetUp(filePath1: string, filePath2: string, projectPartId: string)
    returns (registry: Registry, jobQueue: JobQueue)
    requires filePath1 != filePath2
    ensures fresh(registry) && fresh(jobQueue) && jobQueue.registry == registry
    ensures jobQueue.queue == [] && forall id :: !jobQueue.isJobRunning(id)
    ensures registry.State() == FixtureState(filePath1, filePath2, projectPartId)
    ensures WellFormed(registry.State())
  {
    var d1, d2 := DocumentId(filePath1, projectPartId), DocumentId(filePath2, projectPartId);
    var newDocument := Document(0, false, false, true);
    registry := new Registry();
    registry.CreateOrUpdateProject(projectPartId);
    var _ := registry.CreateDocument(d1);
    var _ := registry.CreateDocument(d2);
    assert registry.State() == RegistryState(map[d1 := newDocument, d2 := newDocument], map[projectPartId := 1], 0, 1);
    VisibleOfTwo(registry.State(), d1, d2, {filePath1});
    registry.SetVisibleInEditors({filePath1});
    CurrentOfTwo(registry.State(), d1, d2, filePath1);
    registry.SetUsedByCurrentEditor(filePath1);
    assert registry.documents == map[d1 := Document(0, true, true, true), d2 := newDocument];
    jobQueue := new JobQueue(registry);
  }

  /** The fixture's `createJobRequest`: a request stamped from the registry as it is now. */
  method CreateJobRequest(registry: Registry, filePath: string, projectPartId: string, jobType: JobType)
    returns (jobRequest: JobRequest)
    requires DocumentId(filePath, projectPartId) in registry.documents
    requires projectPartId in registry.projects
    ensures Some(jobRequest) == NewJobRequest(registry.State(), DocumentId(filePath, projectPartId), jobType)
  {
    jobRequest := NewJobRequest(registry.State(), DocumentId(filePath, projectPartId), jobType).value;
  }

  // Queue steps with the registry and handler fixed, stated without `Process` so that a
  // scenario keeps only their outcome in view.

  /** Two current, runnable requests for one document: the first runs, the second waits. */
  method ProcessTwoForOneDocument(jobQueue: JobQueue, r1: JobRequest, r2: JobRequest) returns (jobsToRun: seq<JobRequest>)
    requires jobQueue.queue == [r1, r2] && r1.Document() == r2.Document()
    requires var st := jobQueue.registry.State();
      !IsOutdated(st, r1) && !IsOutdated(st, r2)
      && Runnable(st, jobQueue.isJobRunning, r1) && Runnable(st, jobQueue.isJobRunning, r2)
    modifies jobQueue`queue
    ensures jobsToRun == [r1] && jobQueue.queue == [r2]
  {
    JobQueueSpec.ProcessUntilEmpty(jobQueue.registry.State(), jobQueue.isJobRunning, r1, r2);
    jobsToRun := jobQueue.ProcessQueue();
  }

  /** One current, runnable request: it runs and the queue empties. */
  method ProcessRunnable(jobQueue: JobQueue, r: JobRequest) returns (jobsToRun: seq<JobRequest>)
    requires jobQueue.queue == [r]
    requires !IsOutdated(jobQueue.registry.State(), r)
    requires Runnable(jobQueue.registry.State(), jobQueue.isJobRunning, r)
    modifies jobQueue`queue
    ensures jobsToRun == [r] && jobQueue.queue == []
  {
    JobQueueSpec.ProcessSingleJob(jobQueue.registry.State(), jobQueue.isJobRunning, r);
    jobsToRun := jobQueue.ProcessQueue();
  }

  /** One out-of-date request: nothing runs and the queue empties. */
  method ProcessOutdated(jobQueue: JobQueue, r: JobRequest) returns (jobsToRun: seq<JobRequest>)
    requires jobQueue.queue == [r]
    requires IsOutdated(jobQueue.registry.State(), r)
    modifies jobQueue`queue
    ensures jobsToRun == [] && jobQueue.queue == []
  {
    ProcessDropsOutdatedRequest(jobQueue.registry.State(), jobQueue.isJobRunning, r);
    jobsToRun := jobQueue.ProcessQueue();
  }

  /** A current request whose document is busy stays queued and nothing runs. */
  method ProcessBusy(jobQueue: JobQueue, r: JobRequest) returns (jobsToRun: seq<JobRequest>)
    requires jobQueue.queue == [r]
    requires !IsOutdated(jobQueue.registry.State(), r)
    requires forall id :: jobQueue.isJobRunning(id)
    modifies jobQueue`queue
    ensures jobsToRun == [] && jobQueue.queue == [r]
  {
    JobQueueSpec.ProcessSingleJob(jobQueue.registry.State(), jobQueue.isJobRunning, r);
    jobsToRun := jobQueue.ProcessQueue();
  }

  /** Requests for documents neither visible nor current: nothing runs. */
  method ProcessInvisible(jobQueue: JobQueue) returns (jobsToRun: seq<JobRequest>)
    requires var st := jobQueue.registry.State();
      forall x :: x in jobQueue.queue && x.Document() in st.documents ==>
        !st.documents[x.Document()].visibleInEditor && !st.documents[x.Document()].usedByCurrentEditor
    modifies jobQueue`queue
    ensures jobsToRun == []
  {
    JobQueueSpec.RunNothingForNotCurrentOrVisibleDocument(jobQueue.registry.State(), jobQueue.isJobRunning, jobQueue.queue);
    jobsToRun := jobQueue.ProcessQueue();
  }

  /** Two requests of different rank: prioritizing puts the higher-ranked one first. */
  method PrioritizeTwo(jobQueue: JobQueue, r1: JobRequest, r2: JobRequest)
    requires jobQueue.queue == [r1, r2]
    requires var st := jobQueue.registry.State();
      (Rank(st, r2) == 2 && Rank(st, r1) < 2) || (Rank(st, r2) == 1 && Rank(st, r1) == 0)
    modifies jobQueue`queue
    ensures jobQueue.queue == [r2, r1]
  {
    var st := jobQueue.registry.State();
    if Rank(st, r2) == 2 {
      PrioritizeCurrentDocumentOverNotCurrent(st, r1, r2);
    } else {
      PrioritizeVisibleOverNotVisible(st, r1, r2);
    }
    jobQueue.PrioritizeRequests();
  }

  /** AddJob: adding one request makes the queue size 1. */
  method AddJob(filePath1: string, filePath2: string, projectPartId: string) returns (size: nat)
    requires FixturePaths(filePath1, filePath2)
    ensures size == 1
  {
    var registry, jobQueue := SetUp(filePath1, filePath2, projectPartId);
    var r := CreateJobRequest(registry, filePath1, projectPartId, UpdateDocumentAnnotations);
    jobQueue.Add(r);
    size := jobQueue.Size();
  }

  /** ProcessEmpty: processing the empty queue leaves it empty and runs nothing. */
  method ProcessEmpty(filePath1: string, filePath2: string, projectPartId: string)
    returns (jobsToRun: seq<JobRequest>, size: nat)
    requires FixturePaths(filePath1, filePath2)
    ensures jobsToRun == [] && size == 0
  {
    var registry, jobQueue := SetUp(filePath1, filePath2, projectPartId);
    jobsToRun := jobQueue.ProcessQueue();
    size := jobQueue.Size();
  }

  /** ProcessSingleJob: one annotation request for the current document runs at once. */
  method ProcessSingleJob(filePath1: string, filePath2: string, projectPartId: string)
    returns (jobsToRun: seq<JobRequest>, size: nat)
    requires FixturePaths(filePath1, filePath2)
    ensures |jobsToRun| == 1 && size == 0
  {
    var registry, jobQueue := SetUp(filePath1, filePath2, projectPartId);
    var r := CreateJobRequest(registry, filePath1, projectPartId, UpdateDocumentAnnotations);
    FreshRequestIsCurrent(registry.State(), DocumentId(filePath1, projectPartId), UpdateDocumentAnnotations);
    jobQueue.Add(r);
    assert jobQueue.queue == [r];
    jobsToRun := ProcessRunnable(jobQueue, r);
    size := jobQueue.Size();
  }

  /**
   * ProcessUntilEmpty and RunOnlyOneJobPerDocumentIfMultipleAreInQueue: two annotation
   * requests for the current document are dispatched one per call.
   */
  method ProcessUntilEmpty(filePath1: string, filePath2: string, projectPartId: string)
    returns (sizes: seq<nat>, batchSizes: seq<nat>)
    requires FixturePaths(filePath1, filePath2)
    ensures sizes == [2, 1, 0] && batchSizes == [1, 1]
  {
    var registry, jobQueue := SetUp(filePath1, filePath2, projectPartId);
    var r := CreateJobRequest(registry, filePath1, projectPartId, UpdateDocumentAnnotations);
    FreshRequestIsCurrent(registry.State(), DocumentId(filePath1, projectPartId), UpdateDocumentAnnotations);
    jobQueue.Add(r);
    jobQueue.Add(r);
    sizes := [jobQueue.Size()];
    var jobsToRun := ProcessTwoForOneDocument(jobQueue, r, r);
    sizes, batchSizes := sizes + [jobQueue.Size()], [|jobsToRun|];
    jobsToRun := ProcessRunnable(jobQueue, r);
    sizes, batchSizes := sizes + [jobQueue.Size()], batchSizes + [|jobsToRun|];
  }

  /** The registry changes after which the tests expect an annotation request to be dropped. */
  datatype FixtureChange =
    | RemoveTheDocument
    | RemoveTheProject
    | ChangeUnsavedFiles
    | ChangeDocumentRevision
    | ChangeTheProject
    | FailTheParse

  /**
   * RemoveRequestsFor{ClosedDocuments, ClosedProject, OudatedUnsavedFiles,
   * ChangedDocumentRevision, OudatedProject} and the UpdateDocumentAnnotationsOutdatableBy
   * cases: after the change the queue is emptied and nothing runs.
   */
  method RemoveOutdatedUpdateDocumentAnnotations(filePath1: string, filePath2: string, projectPartId: string, change: FixtureChange)
    returns (jobsToRun: seq<JobRequest>, size: nat)
    requires FixturePaths(filePath1, filePath2)
    ensures jobsToRun == [] && size == 0
  {
    var registry, jobQueue := SetUp(filePath1, filePath2, projectPartId);
    var d1 := DocumentId(filePath1, projectPartId);
    var st := registry.State();
    var r := CreateJobRequest(registry, filePath1, projectPartId, UpdateDocumentAnnotations);
    jobQueue.Add(r);
    match change {
      case RemoveTheDocument => registry.RemoveDocument(d1);
      case RemoveTheProject => registry.RemoveProject(projectPartId);
      case ChangeUnsavedFiles => registry.UpdateUnsavedFiles();
      case ChangeDocumentRevision => registry.SetDocumentRevision(d1, 1);
      case ChangeTheProject => registry.CreateOrUpdateProject(projectPartId);
      case FailTheParse => registry.SetHasParseOrReparseFailed(d1, true);
    }
    UpdateDocumentAnnotationsOutdatable(st, d1, 1);
    assert jobQueue.queue == [r];
    jobsToRun := ProcessOutdated(jobQueue, r);
    size := jobQueue.Size();
  }

  /**
   * RemoveRequestsForNotIntactDocuments: the fixture's helper deletes the document's file when
   * it returns, so the document is not intact; the model marks it not intact directly, and its
   * request is dropped.
   */
  method RemoveRequestsForNotIntactDocuments(filePath1: string, filePath2: string, deletedFilePath: string, projectPartId: string)
    returns (jobsToRun: seq<JobRequest>, size: nat)
    requires FixturePaths(filePath1, filePath2) && deletedFilePath != filePath1 && deletedFilePath != filePath2
    ensures jobsToRun == [] && size == 0
  {
    var registry, jobQueue := SetUp(filePath1, filePath2, projectPartId);
    var deleted := DocumentId(deletedFilePath, projectPartId);
    var _ := registry.CreateDocument(deleted);
    registry.SetHasParseOrReparseFailed(deleted, true);
    var r := CreateJobRequest(registry, deletedFilePath, projectPartId, UpdateDocumentAnnotations);
    FreshRequestIsCurrent(registry.State(), deleted, UpdateDocumentAnnotations);
    jobQueue.Add(r);
    assert jobQueue.queue == [r];
    jobsToRun := ProcessOutdated(jobQueue, r);
    size := jobQueue.Size();
  }

  /** The editor state each prioritization case sets up for the two fixture documents. */
  function PriorityCaseDocuments(d1: DocumentId, d2: DocumentId, priorityCase: PriorityCase): map<DocumentId, Document> {
    match priorityCase
    case CurrentOverNotCurrent => map[d1 := Document(0, false, false, true), d2 := Document(0, false, true, true)]
    case VisibleOverNotVisible => map[d1 := Document(0, false, false, true), d2 := Document(0, true, false, true)]
    case CurrentOverVisible => map[d1 := Document(0, true, false, true), d2 := Document(0, true, true, true)]
  }

  /**
   * The editor changes of each prioritization test: make the second document current, or only
   * visible, or current while both are visible.
   */
  method ApplyPriorityCase(registry: Registry, d1: DocumentId, d2: DocumentId, priorityCase: PriorityCase)
    requires d1.filePath != d2.filePath
    requires registry.documents == map[d1 := Document(0, false, false, true), d2 := Document(0, false, false, true)]
    requires WellFormed(registry.State())
    modifies registry
    ensures registry.documents == PriorityCaseDocuments(d1, d2, priorityCase)
  {
    match priorityCase {
      case CurrentOverNotCurrent =>
        CurrentOfTwo(registry.State(), d1, d2, d2.filePath);
        registry.SetUsedByCurrentEditor(d2.filePath);
      case VisibleOverNotVisible =>
        VisibleOfTwo(registry.State(), d1, d2, {d2.filePath});
        registry.SetVisibleInEditors({d2.filePath});
      case CurrentOverVisible =>
        VisibleOfTwo(registry.State(), d1, d2, {d1.filePath, d2.filePath});
        registry.SetVisibleInEditors({d1.filePath, d2.filePath});
        CurrentOfTwo(registry.State(), d1, d2, d2.filePath);
        registry.SetUsedByCurrentEditor(d2.filePath);
    }
  }

  /** The three prioritization cases: which document's request comes first afterwards. */
  datatype PriorityCase =
    | CurrentOverNotCurrent
    | VisibleOverNotVisible
    | CurrentOverVisible

  /**
   * PrioritizeCurrentDocumentOverNotCurrent, PrioritizeVisibleDocumentsOverNotVisible and
   * PrioritizeCurrentDocumentOverVisible: the second document's request moves to the front.
   */
  method Prioritize(filePath1: string, filePath2: string, projectPartId: string, priorityCase: PriorityCase)
    returns (first: string)
    requires FixturePaths(filePath1, filePath2)
    ensures first == filePath2
  {
    var d1, d2 := DocumentId(filePath1, projectPartId), DocumentId(filePath2, projectPartId);
    var registry, jobQueue := SetUp(filePath1, filePath2, projectPartId);
    VisibleOfTwo(registry.State(), d1, d2, {});
    registry.SetVisibleInEditors({});
    CurrentOfTwo(registry.State(), d1, d2, "");
    registry.SetUsedByCurrentEditor("");
    var r1 := CreateJobRequest(registry, filePath1, projectPartId, UpdateDocumentAnnotations);
    var r2 := CreateJobRequest(registry, filePath2, projectPartId, UpdateDocumentAnnotations);
    jobQueue.Add(r1);
    jobQueue.Add(r2);
    assert registry.documents == map[d1 := Document(0, false, false, true), d2 := Document(0, false, false, true)];
    ApplyPriorityCase(registry, d1, d2, priorityCase);
    assert jobQueue.queue == [r1, r2];
    PrioritizeTwo(jobQueue, r1, r2);
    first := jobQueue.queue[0].filePath;
  }

  /**
   * RunNothingForNotCurrentOrVisibleDocument: with no document visible or current, two
   * requests stay queued and nothing runs.
   */
  method RunNothingForNotCurrentOrVisibleDocument(filePath1: string, filePath2: string, projectPartId: string)
    returns (jobsToRun: seq<JobRequest>)
    requires FixturePaths(filePath1, filePath2)
    ensures jobsToRun == []
  {
    var d1, d2 := DocumentId(filePath1, projectPartId), DocumentId(filePath2, projectPartId);
    var registry, jobQueue := SetUp(filePath1, filePath2, projectPartId);
    var r := CreateJobRequest(registry, filePath1, projectPartId, UpdateDocumentAnnotations);
    jobQueue.Add(r);
    jobQueue.Add(r);
    VisibleOfTwo(registry.State(), d1, d2, {});
    registry.SetVisibleInEditors({});
    CurrentOfTwo(registry.State(), d1, d2, "aNonExistingFilePath");
    registry.SetUsedByCurrentEditor("aNonExistingFilePath");
    assert registry.documents == map[d1 := Document(0, false, false, true), d2 := Document(0, false, false, true)];
    assert jobQueue.queue == [r, r];
    jobsToRun := ProcessInvisible(jobQueue);
  }

  /**
   * DoNotRunJobForDocumentThatIsBeingProcessed: after the first call dispatched one of two
   * requests, a handler reporting every document as busy keeps the second queued.
   */
  method DoNotRunJobForDocumentThatIsBeingProcessed(filePath1: string, filePath2: string, projectPartId: string)
    returns (jobsToRun: seq<JobRequest>, size: nat)
    requires FixturePaths(filePath1, filePath2)
    ensures jobsToRun == [] && size == 1
  {
    var registry, jobQueue := SetUp(filePath1, filePath2, projectPartId);
    var r := CreateJobRequest(registry, filePath1, projectPartId, UpdateDocumentAnnotations);
    FreshRequestIsCurrent(registry.State(), DocumentId(filePath1, projectPartId), UpdateDocumentAnnotations);
    jobQueue.Add(r);
    jobQueue.Add(r);
    jobsToRun := ProcessTwoForOneDocument(jobQueue, r, r);
    jobQueue.SetIsJobRunningHandler((id: DocumentId) => true);
    jobsToRun := ProcessBusy(jobQueue, r);
    size := jobQueue.Size();
  }

  /** The registry changes of the per-type staleness cases. */
  datatype TypeCase =
    | CompleteCodeAfterDocumentClose
    | CompleteCodeAfterUnsavedFilesChange
    | CompleteCodeAfterDocumentRevisionChange
    | PreambleAfterDocumentClose
    | DocumentAnnotationsAfterDocumentRevisionChange

  function TypeOf(typeCase: TypeCase): JobType {
    match typeCase
    case CompleteCodeAfterDocumentClose => CompleteCode
    case CompleteCodeAfterUnsavedFilesChange => CompleteCode
    case CompleteCodeAfterDocumentRevisionChange => CompleteCode
    case PreambleAfterDocumentClose => CreateInitialDocumentPreamble
    case DocumentAnnotationsAfterDocumentRevisionChange => RequestDocumentAnnotations
  }

  /**
   * The Request*Outdatable* / NotOutdatable cases: completion survives unsaved-file and
   * revision changes (one job starts); every other case starts nothing.
   */
  method StalenessByType(filePath1: string, filePath2: string, projectPartId: string, typeCase: TypeCase)
    returns (jobsToStart: seq<JobRequest>)
    requires FixturePaths(filePath1, filePath2)
    ensures |jobsToStart| == if typeCase.CompleteCodeAfterUnsavedFilesChange? || typeCase.CompleteCodeAfterDocumentRevisionChange? then 1 else 0
  {
    var registry, jobQueue := SetUp(filePath1, filePath2, projectPartId);
    var d1 := DocumentId(filePath1, projectPartId);
    var st := registry.State();
    var r := CreateJobRequest(registry, filePath1, projectPartId, TypeOf(typeCase));
    jobQueue.Add(r);
    assert jobQueue.queue == [r];
    match typeCase {
      case CompleteCodeAfterDocumentClose =>
        registry.RemoveDocument(d1);
        CompleteCodeOutdatability(st, d1, 1);
        jobsToStart := ProcessOutdated(jobQueue, r);
      case CompleteCodeAfterUnsavedFilesChange =>
        registry.UpdateUnsavedFiles();
        CompleteCodeOutdatability(st, d1, 1);
        jobsToStart := ProcessRunnable(jobQueue, r);
      case CompleteCodeAfterDocumentRevisionChange =>
        registry.SetDocumentRevision(d1, 1);
        CompleteCodeOutdatability(st, d1, 1);
        jobsToStart := ProcessRunnable(jobQueue, r);
      case PreambleAfterDocumentClose =>
        registry.RemoveDocument(d1);
        CreateInitialDocumentPreambleOutdatableByDocumentClose(st, d1);
        jobsToStart := ProcessOutdated(jobQueue, r);
      case DocumentAnnotationsAfterDocumentRevisionChange =>
        registry.SetDocumentRevision(d1, 1);
        RequestDocumentAnnotationsOutdatableByRevisionChange(st, d1, 1);
        jobsToStart := ProcessOutdated(jobQueue, r);
    }
  }
}
