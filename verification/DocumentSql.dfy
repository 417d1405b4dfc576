/** The SQL statements of the document and workspace repositories. */
module DocumentSql {
  import opened Entities
  import opened JobSql

  const PARSER_VERSION := 1
  const CHUNK_SCHEMA_VERSION := 1
  const INDEX_SCHEMA_VERSION := 1

  datatype Source = Source(objectKey: string, contentHash: string)

  function NewRevision(source: Source, now: Time): Revision {
    Revision(source.objectKey, source.contentHash, now,
             PARSER_VERSION, CHUNK_SCHEMA_VERSION, INDEX_SCHEMA_VERSION, false)
  }

  /** `COALESCE(active_revision, MAX(revision))`, when that revision row exists. */
  function CurrentRevision(d: Document): Option<int> {
    var r := Or(d.active, MaxRevision(d));
    if r in d.revisions then Some(r) else None
  }

  function SetDocument(t: Tables, id: Uuid, d: Document): Tables {
    t.(documents := t.documents[id := d])
  }

  /** Creation of a logical document with its inactive revision 1. */
  function Create(t: Tables, ws: Uuid, id: Uuid, source: Source, now: Time): Option<Tables> {
    if id in t.documents || ws !in t.workspaces then None
    else Some(SetDocument(t, id, Document(ws, Uploaded, None, map[1 := NewRevision(source, now)])))
  }

  /** Appends revision `MAX(revision) + 1`. */
  function AddRevision(t: Tables, ws: Uuid, id: Uuid, source: Source, now: Time): Option<Tables> {
    if id !in t.documents || t.documents[id].workspace != ws then None
    else
      var d := t.documents[id];
      Some(SetDocument(t, id, d.(revisions := d.revisions[MaxRevision(d) + 1 := NewRevision(source, now)])))
  }

  /** The unfenced transition that the API services use. */
  function TransitionStatus(t: Tables, ws: Uuid, id: Uuid, from: DocumentStatus, to: DocumentStatus): Option<Tables> {
    if id !in t.documents then None
    else
      var d := t.documents[id];
      if d.workspace != ws || d.status != from || CurrentRevision(d).None? then None
      else Some(SetDocument(t, id, d.(status := to, active := if to.Ready? then CurrentRevision(d) else d.active)))
  }

  /** The worker's transition, fenced by the job attempt that makes it. */
  function TransitionStatusForJob(t: Tables, ws: Uuid, id: Uuid, from: DocumentStatus, to: DocumentStatus,
                                  job: Uuid, owner: string, attempt: int, now: Time): Option<Tables> {
    if id !in t.documents || job !in t.jobs then None
    else
      var d, j := t.documents[id], t.jobs[job];
      if && d.workspace == ws && d.status == from && j.document == id && j.revision in d.revisions
         && Live(j, owner, attempt, now)
      then Some(SetDocument(t, id, d.(status := to, active := if to.Ready? then Some(j.revision) else d.active)))
      else None
  }

  /** The jobs half of the three completion statements. */
  predicate OwnsAttempt(t: Tables, id: Uuid, revision: int, job: Uuid, owner: string, attempt: int, now: Time) {
    && job in t.jobs && t.jobs[job].document == id && t.jobs[job].revision == revision
    && Live(t.jobs[job], owner, attempt, now)
  }

  function CompleteJob(t: Tables, job: Uuid, now: Time): Tables
    requires job in t.jobs
  {
    t.(jobs := t.jobs[job := Completed(t.jobs[job], now)])
  }

  /** Activates a replacement. The job update does not look at the document, so the
      statement can complete the job and still return no row; the flag is the row. */
  function CompleteReplacement(t: Tables, ws: Uuid, id: Uuid, revision: int,
                               job: Uuid, owner: string, attempt: int, now: Time): (Tables, bool) {
    if !OwnsAttempt(t, id, revision, job, owner, attempt, now) then (t, false)
    else
      var t1 := CompleteJob(t, job, now);
      if id in t.documents && t.documents[id].workspace == ws && t.documents[id].status.Updating?
         && revision in t.documents[id].revisions
      then (SetDocument(t1, id, t.documents[id].(active := Some(revision), status := Ready)), true)
      else (t1, false)
  }

  predicate HasActiveRevision(t: Tables, ws: Uuid, id: Uuid, status: DocumentStatus, revision: int) {
    && id in t.documents
    && var d := t.documents[id];
       d.workspace == ws && d.status == status && d.active == Some(revision) && revision in d.revisions
  }

  function CompleteDeletion(t: Tables, ws: Uuid, id: Uuid, revision: int,
                            job: Uuid, owner: string, attempt: int, now: Time): (Tables, bool) {
    if && OwnsAttempt(t, id, revision, job, owner, attempt, now) && t.jobs[job].kind.DeleteDocument?
       && HasActiveRevision(t, ws, id, Deleting, revision)
    then (SetDocument(CompleteJob(t, job, now), id, t.documents[id].(status := Deleted)), true)
    else (t, false)
  }

  function Rebuilt(r: Revision, indexVersion: int): Revision {
    r.(parserVersion := PARSER_VERSION, chunkVersion := CHUNK_SCHEMA_VERSION,
       indexVersion := indexVersion, requiresReindex := false)
  }

  function CompleteReindex(t: Tables, ws: Uuid, id: Uuid, revision: int,
                           job: Uuid, owner: string, attempt: int, indexVersion: int, now: Time): (Tables, bool) {
    if && OwnsAttempt(t, id, revision, job, owner, attempt, now) && t.jobs[job].kind.ReindexDocument?
       && HasActiveRevision(t, ws, id, Ready, revision)
       && t.documents[id].revisions[revision].requiresReindex
    then
      var d := t.documents[id];
      var rebuilt := d.revisions[revision := Rebuilt(d.revisions[revision], indexVersion)];
      (SetDocument(CompleteJob(t, job, now), id, d.(revisions := rebuilt)), true)
    else (t, false)
  }

  // ----- the index contract of a workspace

  /** The revisions that a change to contract `c` marks: each active one not yet deleted. */
  function Marks(t: Tables, ws: Uuid, c: Contract): map<Uuid, int>
    requires ws in t.workspaces
  {
    if t.workspaces[ws].contract == c then map[]
    else map id | id in t.documents && t.documents[id].workspace == ws && !t.documents[id].status.Deleted?
                  && t.documents[id].active.Some? :: t.documents[id].active.value
  }

  function Marked(d: Document, revision: int): Document {
    if revision in d.revisions
    then d.(revisions := d.revisions[revision := d.revisions[revision].(requiresReindex := true)])
    else d
  }

  /** The workspace row under contract `c`, and the marked revision rows. */
  function ApplyContract(t: Tables, ws: Uuid, c: Contract, marks: map<Uuid, int>): Tables
    requires ws in t.workspaces
  {
    t.(workspaces := t.workspaces[ws := t.workspaces[ws].(contract := c)],
       documents := map id | id in t.documents ::
         if id in marks then Marked(t.documents[id], marks[id]) else t.documents[id])
  }

  function EnsureIndexContract(t: Tables, ws: Uuid, c: Contract): Option<Tables> {
    if ws in t.workspaces then Some(ApplyContract(t, ws, c, Marks(t, ws, c))) else None
  }
}
