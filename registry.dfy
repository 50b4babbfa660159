/**
 * The document and project registry the job queue reads from: the open translation units
 * (documents), the project parts with their last change time, and the unsaved-files clock.
 * In the test fixture these are `TranslationUnits`, `ProjectParts` and `UnsavedFiles`; the
 * model keeps only what the queue consults.
 */
module RegistryStates {

  /** A document is identified by its file path together with its project part id. */
  datatype DocumentId = DocumentId(filePath: string, projectPartId: string)

  /** What the registry knows about one open document. */
  datatype Document = Document(
    revision: int,
    visibleInEditor: bool,
    usedByCurrentEditor: bool,
    intact: bool)

  /**
   * A snapshot of the whole registry. `projects` maps a project part id to its last change
   * time point; `now` is the monotonic clock every time point is read from.
   */
  datatype RegistryState = RegistryState(
    documents: map<DocumentId, Document>,
    projects: map<string, int>,
    unsavedFilesChangeTime: int,
    now: int)

  /** Every time point handed out so far lies at or before the clock. */
  ghost predicate WellFormed(st: RegistryState) {
    && st.unsavedFilesChangeTime <= st.now
    && forall p :: p in st.projects ==> st.projects[p] <= st.now
  }

  const EmptyRegistry := RegistryState(map[], map[], 0, 0)

  // Registry transitions, one per mutation the fixture performs.

  /** Creates the project part, or re-stamps it when it exists (`ProjectParts::createOrUpdate`). */
  function CreateOrUpdateProject(st: RegistryState, projectPartId: string): RegistryState {
    st.(projects := st.projects[projectPartId := st.now + 1], now := st.now + 1)
  }

  function RemoveProject(st: RegistryState, projectPartId: string): RegistryState {
    st.(projects := st.projects - {projectPartId})
  }

  /**
   * Opens a document: fresh revision 0, not visible, not current, intact. Creating a document
   * that already exists or whose project part is unknown is refused (the registry throws) and
   * leaves the state as it was.
   */
  function CreateDocument(st: RegistryState, id: DocumentId): RegistryState {
    if id in st.documents || id.projectPartId !in st.projects then st
    else st.(documents := st.documents[id := Document(0, false, false, true)])
  }

  function RemoveDocument(st: RegistryState, id: DocumentId): RegistryState {
    st.(documents := st.documents - {id})
  }

  /** An edit that delivers the document's new revision number (`TranslationUnits::update`). */
  function SetDocumentRevision(st: RegistryState, id: DocumentId, revision: int): RegistryState {
    if id in st.documents
    then st.(documents := st.documents[id := st.documents[id].(revision := revision)])
    else st
  }

  /** Any unsaved buffer changed: the global unsaved-files clock is re-stamped. */
  function UpdateUnsavedFiles(st: RegistryState): RegistryState {
    st.(unsavedFilesChangeTime := st.now + 1, now := st.now + 1)
  }

  /** Exactly the documents whose file path is listed become visible. */
  function SetVisibleInEditors(st: RegistryState, filePaths: set<string>): RegistryState {
    st.(documents := map d | d in st.documents
                       :: st.documents[d].(visibleInEditor := d.filePath in filePaths))
  }

  /** Exactly the documents with this file path become used by the current editor. */
  function SetUsedByCurrentEditor(st: RegistryState, filePath: string): RegistryState {
    st.(documents := map d | d in st.documents
                       :: st.documents[d].(usedByCurrentEditor := d.filePath == filePath))
  }

  function SetHasParseOrReparseFailed(st: RegistryState, id: DocumentId, failed: bool): RegistryState {
    if id in st.documents
    then st.(documents := st.documents[id := st.documents[id].(intact := !failed)])
    else st
  }

  /** Every transition keeps the time points at or before the clock. */
  lemma TransitionsKeepWellFormed(st: RegistryState, id: DocumentId, p: string, r: int, paths: set<string>, f: string, b: bool)
    requires WellFormed(st)
    ensures WellFormed(CreateOrUpdateProject(st, p)) && WellFormed(RemoveProject(st, p))
    ensures WellFormed(CreateDocument(st, id)) && WellFormed(RemoveDocument(st, id))
    ensures WellFormed(SetDocumentRevision(st, id, r)) && WellFormed(UpdateUnsavedFiles(st))
    ensures WellFormed(SetVisibleInEditors(st, paths)) && WellFormed(SetUsedByCurrentEditor(st, f))
    ensures WellFormed(SetHasParseOrReparseFailed(st, id, b))
  {
  }

}

/** The registry object the fixture mutates between calls to the queue. */
module TranslationUnits {
  import opened RegistryStates

  class Registry {
    var documents: map<DocumentId, Document>
    var projects: map<string, int>
    var unsavedFilesChangeTime: int
    var now: int

    function State(): RegistryState
      reads this
    {
      RegistryState(documents, projects, unsavedFilesChangeTime, now)
    }

    constructor ()
      ensures State() == EmptyRegistry && WellFormed(State())
    {
      documents, projects, unsavedFilesChangeTime, now := map[], map[], 0, 0;
    }

    method Assign(st: RegistryState)
      requires WellFormed(st)
      modifies this
      ensures State() == st
    {
      documents, projects := st.documents, st.projects;
      unsavedFilesChangeTime, now := st.unsavedFilesChangeTime, st.now;
    }

    method CreateOrUpdateProject(projectPartId: string)
      requires WellFormed(State())
      modifies this
      ensures WellFormed(State())
      ensures State() == RegistryStates.CreateOrUpdateProject(old(State()), projectPartId)
    {
      Assign(RegistryStates.CreateOrUpdateProject(State(), projectPartId));
    }

    method RemoveProject(projectPartId: string)
      requires WellFormed(State())
      modifies this
      ensures WellFormed(State())
      ensures State() == RegistryStates.RemoveProject(old(State()), projectPartId)
    {
      Assign(RegistryStates.RemoveProject(State(), projectPartId));
    }

    method CreateDocument(id: DocumentId) returns (created: bool)
      requires WellFormed(State())
      modifies this
      ensures WellFormed(State())
      ensures created <==> id !in old(documents) && id.projectPartId in old(projects)
      ensures State() == RegistryStates.CreateDocument(old(State()), id)
    {
      created := id !in documents && id.projectPartId in projects;
      Assign(RegistryStates.CreateDocument(State(), id));
    }

    method RemoveDocument(id: DocumentId)
      requires WellFormed(State())
      modifies this
      ensures WellFormed(State())
      ensures State() == RegistryStates.RemoveDocument(old(State()), id)
    {
      Assign(RegistryStates.RemoveDocument(State(), id));
    }

    method SetDocumentRevision(id: DocumentId, revision: int)
      requires WellFormed(State())
      modifies this
      ensures WellFormed(State())
      ensures State() == RegistryStates.SetDocumentRevision(old(State()), id, revision)
    {
      Assign(RegistryStates.SetDocumentRevision(State(), id, revision));
    }

    method UpdateUnsavedFiles()
      requires WellFormed(State())
      modifies this
      ensures WellFormed(State())
      ensures State() == RegistryStates.UpdateUnsavedFiles(old(State()))
    {
      Assign(RegistryStates.UpdateUnsavedFiles(State()));
    }

    method SetVisibleInEditors(filePaths: set<string>)
      requires WellFormed(State())
      modifies this
      ensures WellFormed(State())
      ensures State() == RegistryStates.SetVisibleInEditors(old(State()), filePaths)
    {
      Assign(RegistryStates.SetVisibleInEditors(State(), filePaths));
    }

    method SetUsedByCurrentEditor(filePath: string)
      requires WellFormed(State())
      modifies this
      ensures WellFormed(State())
      ensures State() == RegistryStates.SetUsedByCurrentEditor(old(State()), filePath)
    {
      Assign(RegistryStates.SetUsedByCurrentEditor(State(), filePath));
    }

    method SetHasParseOrReparseFailed(id: DocumentId, failed: bool)
      requires WellFormed(State())
      modifies this
      ensures WellFormed(State())
      ensures State() == RegistryStates.SetHasParseOrReparseFailed(old(State()), id, failed)
    {
      Assign(RegistryStates.SetHasParseOrReparseFailed(State(), id, failed));
    }
  }
}
