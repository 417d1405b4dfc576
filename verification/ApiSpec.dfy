/** The committed effect of each API service call; `None` means the call raises and rolls back. */
module ApiSpec {
  import opened Entities
  import opened JobSql
  import opened DocumentSql

  /** A new document, its revision 1 and the job that indexes it. */
  function Store(t: Tables, ws: Uuid, id: Uuid, source: Source, job: Uuid, now: Time): Option<Tables> {
    match Create(t, ws, id, source, now)
    case None => None
    case Some(t1) => CreateJob(t1, job, id, 1, IndexDocument, now)
  }

  /** A replacement revision of a ready document and the job that indexes it. */
  function Replace(t: Tables, ws: Uuid, id: Uuid, source: Source, job: Uuid, now: Time): Option<Tables> {
    match AddRevision(t, ws, id, source, now)
    case None => None
    case Some(t1) =>
      match TransitionStatus(t1, ws, id, Ready, Updating)
      case None => None
      case Some(t2) => CreateJob(t2, job, id, MaxRevision(t.documents[id]) + 1, IndexDocument, now)
  }

  /** The deletion job of a ready document. */
  function Delete(t: Tables, ws: Uuid, id: Uuid, job: Uuid, now: Time): Option<Tables> {
    if id !in t.documents || t.documents[id].active.None? then None
    else
      match TransitionStatus(t, ws, id, Ready, Deleting)
      case None => None
      case Some(t1) => CreateJob(t1, job, id, t.documents[id].active.value, DeleteDocument, now)
  }

  /** Contract reconciliation and the reindex jobs of one maintenance request. */
  function Enqueue(t: Tables, ws: Uuid, c: Contract, ids: map<Uuid, Uuid>, now: Time): Tables {
    CreateWorkspaceReindex(Reconciled(t, ws, c), ids, now)
  }

  function Reconciled(t: Tables, ws: Uuid, c: Contract): Tables {
    Or(EnsureIndexContract(t, ws, c), t)
  }
}
