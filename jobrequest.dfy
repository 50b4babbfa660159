/**
 * Job requests and the staleness policy: which registry changes make a queued request
 * worthless, per request type.
 */
module JobRequests {
  import opened Wrappers
  import opened RegistryStates

  datatype JobType =
    | UpdateDocumentAnnotations
    | RequestDocumentAnnotations
    | CompleteCode
    | CreateInitialDocumentPreamble

  /** One staleness check: the condition under which a request is no longer worth running. */
  datatype Check =
    | DocumentClosed
    | ProjectDoesNotExist
    | CurrentProjectPartChanged
    | CurrentDocumentRevisionChanged
    | CurrentUnsavedFilesChanged
    | DocumentNotIntact

  /**
   * The policy table (`JobRequest::requirementsForType`): the checks that apply to each
   * request type. Completion is cancelled only by the document or project going away or the
   * document being broken; the annotation kinds also by any edit, unsaved change or project
   * change; the initial preamble also by a project change.
   */
  function RequirementsForType(jobType: JobType): (checks: set<Check>)
    ensures DocumentClosed in checks && ProjectDoesNotExist in checks && DocumentNotIntact in checks
    ensures CurrentProjectPartChanged in checks <==> jobType != CompleteCode
    ensures CurrentDocumentRevisionChanged in checks <==> jobType.UpdateDocumentAnnotations? || jobType.RequestDocumentAnnotations?
    ensures CurrentUnsavedFilesChanged in checks <==> jobType.UpdateDocumentAnnotations? || jobType.RequestDocumentAnnotations?
  {
    match jobType
    case UpdateDocumentAnnotations =>
      {DocumentClosed, ProjectDoesNotExist, CurrentProjectPartChanged,
       CurrentDocumentRevisionChanged, CurrentUnsavedFilesChanged, DocumentNotIntact}
    case RequestDocumentAnnotations =>
      {DocumentClosed, ProjectDoesNotExist, CurrentProjectPartChanged,
       CurrentDocumentRevisionChanged, CurrentUnsavedFilesChanged, DocumentNotIntact}
    case CompleteCode =>
      {DocumentClosed, ProjectDoesNotExist, DocumentNotIntact}
    case CreateInitialDocumentPreamble =>
      {DocumentClosed, ProjectDoesNotExist, CurrentProjectPartChanged, DocumentNotIntact}
  }

  /** A scheduled unit of work with the registry values it was stamped with. */
  datatype JobRequest = JobRequest(
    jobType: JobType,
    requirements: set<Check>,
    filePath: string,
    projectPartId: string,
    unsavedFilesChangeTimePoint: int,
    documentRevision: int,
    projectChangeTimePoint: int)
  {
    function Document(): DocumentId {
      DocumentId(filePath, projectPartId)
    }
  }

  /**
   * Builds a request stamped with the current registry values (`createJobRequest`). Looking
   * up a missing document or project part fails in the registry, so there is no request then.
   */
  function NewJobRequest(st: RegistryState, id: DocumentId, jobType: JobType): (r: Option<JobRequest>)
    ensures r.Some? <==> id in st.documents && id.projectPartId in st.projects
    ensures r.Some? ==>
      && r.value.jobType == jobType
      && r.value.requirements == RequirementsForType(jobType)
      && r.value.Document() == id
      && r.value.documentRevision == st.documents[id].revision
      && r.value.projectChangeTimePoint == st.projects[id.projectPartId]
      && r.value.unsavedFilesChangeTimePoint == st.unsavedFilesChangeTime
  {
    if id in st.documents && id.projectPartId in st.projects then
      Some(JobRequest(jobType, RequirementsForType(jobType), id.filePath, id.projectPartId,
                      st.unsavedFilesChangeTime, st.documents[id].revision,
                      st.projects[id.projectPartId]))
    else
      None
  }

  /** Whether check `c` finds request `r` out of date against registry state `st`. */
  predicate CheckFails(st: RegistryState, r: JobRequest, c: Check) {
    var id := r.Document();
    match c
    case DocumentClosed => id !in st.documents
    case ProjectDoesNotExist => r.projectPartId !in st.projects
    case CurrentProjectPartChanged =>
      r.projectPartId in st.projects && st.projects[r.projectPartId] != r.projectChangeTimePoint
    case CurrentDocumentRevisionChanged =>
      id in st.documents && st.documents[id].revision != r.documentRevision
    case CurrentUnsavedFilesChanged =>
      st.unsavedFilesChangeTime != r.unsavedFilesChangeTimePoint
    case DocumentNotIntact =>
      id in st.documents && !st.documents[id].intact
  }

  /** A request is out of date when one of the checks it carries fails. */
  predicate IsOutdated(st: RegistryState, r: JobRequest) {
    exists c :: c in r.requirements && CheckFails(st, r, c)
  }

  /** A request stamped from the current state is out of date only if its document is broken. */
  lemma FreshRequestIsCurrent(st: RegistryState, id: DocumentId, jobType: JobType)
    requires id in st.documents && id.projectPartId in st.projects
    ensures IsOutdated(st, NewJobRequest(st, id, jobType).value) <==> !st.documents[id].intact
  {
    var r := NewJobRequest(st, id, jobType).value;
    if !st.documents[id].intact {
      assert DocumentNotIntact in r.requirements && CheckFails(st, r, DocumentNotIntact);
    }
  }

  /**
   * The policy of a completion request in registry terms: it is out of date exactly when its
   * document is closed or broken or its project part is gone.
   */
  lemma CompleteCodeOutdatedIff(st: RegistryState, r: JobRequest)
    requires r.requirements == RequirementsForType(CompleteCode)
    ensures IsOutdated(st, r) <==>
      || r.Document() !in st.documents
      || r.projectPartId !in st.projects
      || !st.documents[r.Document()].intact
  {
    if r.Document() !in st.documents {
      assert CheckFails(st, r, DocumentClosed);
    } else if r.projectPartId !in st.projects {
      assert CheckFails(st, r, ProjectDoesNotExist);
    } else if !st.documents[r.Document()].intact {
      assert CheckFails(st, r, DocumentNotIntact);
    }
  }

  /**
   * The policy of an initial-preamble request in registry terms: it is out of date exactly when
   * its document is closed or broken, or its project part is gone or was re-stamped.
   */
  lemma PreambleOutdatedIff(st: RegistryState, r: JobRequest)
    requires r.requirements == RequirementsForType(CreateInitialDocumentPreamble)
    ensures IsOutdated(st, r) <==>
      || r.Document() !in st.documents
      || r.projectPartId !in st.projects
      || st.projects[r.projectPartId] != r.projectChangeTimePoint
      || !st.documents[r.Document()].intact
  {
    if r.Document() !in st.documents {
      assert CheckFails(st, r, DocumentClosed);
    } else if r.projectPartId !in st.projects {
      assert CheckFails(st, r, ProjectDoesNotExist);
    } else if st.projects[r.projectPartId] != r.projectChangeTimePoint {
      assert CheckFails(st, r, CurrentProjectPartChanged);
    } else if !st.documents[r.Document()].intact {
      assert CheckFails(st, r, DocumentNotIntact);
    }
  }

  /**
   * The policy of an annotation request in registry terms: any of the six conditions makes it
   * out of date.
   */
  lemma AnnotationsOutdatedIff(st: RegistryState, r: JobRequest)
    requires r.jobType == UpdateDocumentAnnotations || r.jobType == RequestDocumentAnnotations
    requires r.requirements == RequirementsForType(r.jobType)
    ensures IsOutdated(st, r) <==>
      || r.Document() !in st.documents
      || r.projectPartId !in st.projects
      || st.projects[r.projectPartId] != r.projectChangeTimePoint
      || st.documents[r.Document()].revision != r.documentRevision
      || st.unsavedFilesChangeTime != r.unsavedFilesChangeTimePoint
      || !st.documents[r.Document()].intact
  {
    var all := [DocumentClosed, ProjectDoesNotExist, CurrentProjectPartChanged,
                CurrentDocumentRevisionChanged, CurrentUnsavedFilesChanged, DocumentNotIntact];
    assert forall i :: 0 <= i < |all| ==> all[i] in r.requirements;
    if r.Document() !in st.documents {
      assert CheckFails(st, r, all[0]);
    } else if r.projectPartId !in st.projects {
      assert CheckFails(st, r, all[1]);
    } else if st.projects[r.projectPartId] != r.projectChangeTimePoint {
      assert CheckFails(st, r, all[2]);
    } else if st.documents[r.Document()].revision != r.documentRevision {
      assert CheckFails(st, r, all[3]);
    } else if st.unsavedFilesChangeTime != r.unsavedFilesChangeTimePoint {
      assert CheckFails(st, r, all[4]);
    } else if !st.documents[r.Document()].intact {
      assert CheckFails(st, r, all[5]);
    }
  }

  /**
   * The registry changes of the fixture, applied after stamping an annotation update request:
   * each of them makes the request out of date.
   */
  lemma UpdateDocumentAnnotationsOutdatable(st: RegistryState, id: DocumentId, revision: int)
    requires WellFormed(st)
    requires id in st.documents && id.projectPartId in st.projects
    requires revision != st.documents[id].revision
    ensures var r := NewJobRequest(st, id, UpdateDocumentAnnotations).value;
      && IsOutdated(RemoveDocument(st, id), r)
      && IsOutdated(RemoveProject(st, id.projectPartId), r)
      && IsOutdated(CreateOrUpdateProject(st, id.projectPartId), r)
      && IsOutdated(UpdateUnsavedFiles(st), r)
      && IsOutdated(SetDocumentRevision(st, id, revision), r)
      && IsOutdated(SetHasParseOrReparseFailed(st, id, true), r)
  {
    var r := NewJobRequest(st, id, UpdateDocumentAnnotations).value;
    AnnotationsOutdatedIff(RemoveDocument(st, id), r);
    AnnotationsOutdatedIff(RemoveProject(st, id.projectPartId), r);
    AnnotationsOutdatedIff(CreateOrUpdateProject(st, id.projectPartId), r);
    AnnotationsOutdatedIff(UpdateUnsavedFiles(st), r);
    AnnotationsOutdatedIff(SetDocumentRevision(st, id, revision), r);
    AnnotationsOutdatedIff(SetHasParseOrReparseFailed(st, id, true), r);
  }

  /** A document-annotations request is made out of date by an edit of its document. */
  lemma RequestDocumentAnnotationsOutdatableByRevisionChange(st: RegistryState, id: DocumentId, revision: int)
    requires id in st.documents && id.projectPartId in st.projects
    requires revision != st.documents[id].revision
    ensures IsOutdated(SetDocumentRevision(st, id, revision),
                       NewJobRequest(st, id, RequestDocumentAnnotations).value)
  {
    var r := NewJobRequest(st, id, RequestDocumentAnnotations).value;
    assert CheckFails(SetDocumentRevision(st, id, revision), r, CurrentDocumentRevisionChanged);
  }

  /**
   * A completion request is cancelled by closing its document, but survives edits and unsaved
   * changes as long as its document stays intact.
   */
  lemma CompleteCodeOutdatability(st: RegistryState, id: DocumentId, revision: int)
    requires id in st.documents && id.projectPartId in st.projects
    requires st.documents[id].intact
    ensures var r := NewJobRequest(st, id, CompleteCode).value;
      && IsOutdated(RemoveDocument(st, id), r)
      && !IsOutdated(UpdateUnsavedFiles(st), r)
      && !IsOutdated(SetDocumentRevision(st, id, revision), r)
  {
    var r := NewJobRequest(st, id, CompleteCode).value;
    CompleteCodeOutdatedIff(RemoveDocument(st, id), r);
    CompleteCodeOutdatedIff(UpdateUnsavedFiles(st), r);
    CompleteCodeOutdatedIff(SetDocumentRevision(st, id, revision), r);
  }

  /** An initial-preamble request is cancelled by closing its document. */
  lemma CreateInitialDocumentPreambleOutdatableByDocumentClose(st: RegistryState, id: DocumentId)
    requires id in st.documents && id.projectPartId in st.projects
    ensures IsOutdated(RemoveDocument(st, id), NewJobRequest(st, id, CreateInitialDocumentPreamble).value)
  {
    var r := NewJobRequest(st, id, CreateInitialDocumentPreamble).value;
    assert CheckFails(RemoveDocument(st, id), r, DocumentClosed);
  }
}
