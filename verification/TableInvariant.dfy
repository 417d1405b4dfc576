/** The invariant of the tables, and what keeps it: the coupling of a document's status,
    its revisions and its active job. */
module TableInvariant {
  import opened Entities
  import opened JobSql
  import opened DocumentSql
  import opened ApiSpec

  /** How the status of a document bounds its revisions. */
  ghost predicate Shape(d: Document) {
    match d.status
    case Uploaded => d.active.None? && RevisionsUpTo(d, 1)
    case Indexing => d.active.None? && RevisionsUpTo(d, 1)
    case Failed => d.active.None? && RevisionsUpTo(d, 1)
    case Updating => d.active.Some? && d.active.value >= 1 && RevisionsUpTo(d, d.active.value + 1)
    case Ready => d.active.Some? && d.active.value >= 1 && RevisionsUpTo(d, d.active.value)
    case Deleting => d.active.Some? && d.active.value >= 1 && RevisionsUpTo(d, d.active.value)
    case Deleted => d.active.Some? && d.active.value >= 1 && RevisionsUpTo(d, d.active.value)
  }

  /** The only active job a document in this status may have. */
  ghost predicate Fits(d: Document, j: Job) {
    match d.status
    case Uploaded => j.kind.IndexDocument? && j.revision == 1
    case Indexing => j.kind.IndexDocument? && j.revision == 1
    case Failed => j.kind.IndexDocument? && j.revision == 1
    case Updating => d.active.Some? && j.kind.IndexDocument? && j.revision == d.active.value + 1
    case Ready =>
      && d.active == Some(j.revision)
      && (j.kind.IndexDocument?
          || (j.kind.ReindexDocument? && j.revision in d.revisions && d.revisions[j.revision].requiresReindex))
    case Deleting => d.active == Some(j.revision) && j.kind.DeleteDocument?
    case Deleted => false
  }

  ghost predicate RowOk(j: Job) {
    ValidSnapshot(j) && (j.status.Retry? ==> j.availableAt >= Or(j.startedAt, j.createdAt))
  }

  ghost predicate JobOk(t: Tables, j: Job) {
    && RowOk(j)
    && j.document in t.documents && j.revision in t.documents[j.document].revisions
    && (Active(j) ==> Fits(t.documents[j.document], j))
  }

  ghost predicate DocumentOk(t: Tables, d: Document) {
    Shape(d) && d.workspace in t.workspaces
  }

  ghost predicate OneActiveJob(t: Tables) {
    forall a, b | a in t.jobs && b in t.jobs && Active(t.jobs[a]) && Active(t.jobs[b])
                  && t.jobs[a].document == t.jobs[b].document :: a == b
  }

  ghost predicate TablesOk(t: Tables) {
    && (forall id {:trigger JobOk(t, t.jobs[id])} | id in t.jobs :: JobOk(t, t.jobs[id]))
    && (forall d {:trigger DocumentOk(t, t.documents[d])} | d in t.documents :: DocumentOk(t, t.documents[d]))
    && OneActiveJob(t)
  }

  // ----- job rows

  lemma ClaimedIsValid(j: Job, owner: string, leaseFor: int, now: Time)
    requires RowOk(j) && Claimable(j, now) && ValidOwner(owner) && leaseFor > 0
    ensures RowOk(Claimed(j, owner, leaseFor, now))
  {}

  /** A worker transaction is ordered after the claim; the row then stays valid. */
  lemma RenewedIsValid(j: Job, leaseFor: int, now: Time)
    requires RowOk(j) && j.status.Running? && leaseFor > 0 && now >= j.startedAt.value
    ensures RowOk(Renewed(j, leaseFor, now))
  {}

  lemma CompletedIsValid(j: Job, now: Time)
    requires RowOk(j) && j.status.Running? && now >= j.startedAt.value
    ensures RowOk(Completed(j, now))
  {}

  lemma ReleasedIsValid(j: Job, code: ErrorCode, retryAfter: nat, now: Time)
    requires RowOk(j) && j.status.Running? && now >= j.startedAt.value
    ensures RowOk(Released(j, code, retryAfter, now))
    ensures Released(j, code, retryAfter, now).status == if j.attempts < j.maxAttempts then Retry else JobStatus.Failed
    ensures Released(j, code, retryAfter, now).errorCode == Some(if j.attempts < j.maxAttempts then code else AttemptsExhausted)
  {}

  // ----- table updates

  lemma JobUpdateKeeps(t: Tables, id: Uuid, j: Job)
    requires TablesOk(t) && id in t.jobs && RowOk(j)
    requires j.document == t.jobs[id].document && j.revision == t.jobs[id].revision && j.kind == t.jobs[id].kind
    requires Active(j) ==> Active(t.jobs[id])
    ensures TablesOk(t.(jobs := t.jobs[id := j]))
  {
    var t' := t.(jobs := t.jobs[id := j]);
    forall i | i in t'.jobs ensures JobOk(t', t'.jobs[i]) {
      assert JobOk(t, t.jobs[i]);
    }
    forall d | d in t'.documents ensures DocumentOk(t', t'.documents[d]) {
      assert DocumentOk(t, t.documents[d]);
    }
  }

  lemma RecoverKeeps(t: Tables, retryAfter: nat, now: Time)
    requires TablesOk(t)
    ensures TablesOk(RecoverExpired(t, retryAfter, now))
  {
    var t' := RecoverExpired(t, retryAfter, now);
    forall i | i in t'.jobs ensures JobOk(t', t'.jobs[i]) {
      assert JobOk(t, t.jobs[i]);
      if Expired(t.jobs[i], now) {
        ReleasedIsValid(t.jobs[i], DependencyUnavailable, retryAfter, now);
      }
    }
    forall d | d in t'.documents ensures DocumentOk(t', t'.documents[d]) {
      assert DocumentOk(t, t.documents[d]);
    }
  }

  lemma DocumentUpdateKeeps(t: Tables, id: Uuid, d: Document)
    requires TablesOk(t) && Shape(d) && d.workspace in t.workspaces
    requires id in t.documents ==> t.documents[id].revisions.Keys <= d.revisions.Keys
    requires forall i | i in t.jobs && t.jobs[i].document == id && Active(t.jobs[i]) :: Fits(d, t.jobs[i])
    ensures TablesOk(SetDocument(t, id, d))
  {
    var t' := SetDocument(t, id, d);
    forall i | i in t'.jobs ensures JobOk(t', t'.jobs[i]) {
      assert JobOk(t, t.jobs[i]);
    }
    forall e | e in t'.documents ensures DocumentOk(t', t'.documents[e]) {
      if e != id { assert DocumentOk(t, t.documents[e]); }
    }
  }

  lemma NewJobKeeps(t: Tables, id: Uuid, document: Uuid, revision: int, kind: JobKind, now: Time)
    requires TablesOk(t) && CreateJob(t, id, document, revision, kind, now).Some? && revision > 0
    requires Fits(t.documents[document], NewJob(document, revision, kind, now))
    ensures TablesOk(CreateJob(t, id, document, revision, kind, now).value)
  {
    var t' := CreateJob(t, id, document, revision, kind, now).value;
    forall i | i in t'.jobs ensures JobOk(t', t'.jobs[i]) {
      if i != id { assert JobOk(t, t.jobs[i]); }
    }
    forall d | d in t'.documents ensures DocumentOk(t', t'.documents[d]) {
      assert DocumentOk(t, t.documents[d]);
    }
  }

  lemma MaxIs(d: Document, n: int)
    requires RevisionsUpTo(d, n) && n >= 1
    ensures MaxRevision(d) == n
  {
    assert n in d.revisions;
  }

  lemma ActiveRevisionIsReadable(d: Document)
    requires Shape(d)
    ensures CurrentRevision(d).Some?
    ensures d.active.Some? ==> CurrentRevision(d) == d.active
  {
    if d.active.None? { MaxIs(d, 1); }
  }

  // ----- API calls

  lemma StoreKeeps(t: Tables, ws: Uuid, id: Uuid, source: Source, job: Uuid, now: Time)
    requires TablesOk(t) && ApiSpec.Store(t, ws, id, source, job, now).Some?
    ensures TablesOk(ApiSpec.Store(t, ws, id, source, job, now).value)
  {
    var t1 := Create(t, ws, id, source, now).value;
    forall i | i in t.jobs ensures t.jobs[i].document != id {
      assert JobOk(t, t.jobs[i]);
    }
    DocumentUpdateKeeps(t, id, t1.documents[id]);
    NewJobKeeps(t1, job, id, 1, IndexDocument, now);
  }

  /** The row a successful replacement leaves: one more revision, the active one unchanged. */
  lemma ReplaceResult(t: Tables, ws: Uuid, id: Uuid, source: Source, job: Uuid, now: Time)
    requires TablesOk(t) && ApiSpec.Replace(t, ws, id, source, job, now).Some?
    ensures id in t.documents && t.documents[id].status.Ready? && t.documents[id].active.Some?
    ensures !HasActiveJob(t, id)
    ensures
      var d := t.documents[id];
      var n := d.active.value;
      var d' := d.(status := Updating, revisions := d.revisions[n + 1 := NewRevision(source, now)]);
      && Shape(d')
      && ApiSpec.Replace(t, ws, id, source, job, now) ==
         CreateJob(SetDocument(t, id, d'), job, id, n + 1, IndexDocument, now)
  {
    var d := t.documents[id];
    assert DocumentOk(t, d);
    var t1 := AddRevision(t, ws, id, source, now).value;
    var d1 := t1.documents[id];
    assert d.status.Ready? && d1.status == d.status;
    MaxIs(d, d.active.value);
    var t2 := TransitionStatus(t1, ws, id, Ready, Updating).value;
    var n := d.active.value;
    var d' := d.(status := Updating, revisions := d.revisions[n + 1 := NewRevision(source, now)]);
    assert t2.documents == SetDocument(t, id, d').documents;
    assert t2 == SetDocument(t, id, d');
    assert forall i | i in t.jobs :: t2.jobs[i] == t.jobs[i];
  }

  lemma ReplaceKeeps(t: Tables, ws: Uuid, id: Uuid, source: Source, job: Uuid, now: Time)
    requires TablesOk(t) && ApiSpec.Replace(t, ws, id, source, job, now).Some?
    ensures TablesOk(ApiSpec.Replace(t, ws, id, source, job, now).value)
  {
    ReplaceResult(t, ws, id, source, job, now);
    var d := t.documents[id];
    var n := d.active.value;
    var d' := d.(status := Updating, revisions := d.revisions[n + 1 := NewRevision(source, now)]);
    assert DocumentOk(t, d);
    DocumentUpdateKeeps(t, id, d');
    NewJobKeeps(SetDocument(t, id, d'), job, id, n + 1, IndexDocument, now);
  }

  lemma DeleteKeeps(t: Tables, ws: Uuid, id: Uuid, job: Uuid, now: Time)
    requires TablesOk(t) && ApiSpec.Delete(t, ws, id, job, now).Some?
    ensures TablesOk(ApiSpec.Delete(t, ws, id, job, now).value)
    ensures t.documents[id].status.Ready? && !HasActiveJob(t, id)
  {
    var t1 := TransitionStatus(t, ws, id, Ready, Deleting).value;
    assert DocumentOk(t, t.documents[id]);
    assert forall i | i in t.jobs :: t1.jobs[i] == t.jobs[i];
    DocumentUpdateKeeps(t, id, t1.documents[id]);
    NewJobKeeps(t1, job, id, t.documents[id].active.value, DeleteDocument, now);
  }

  // ----- contract changes and reindex

  lemma ApplyContractKeeps(t: Tables, ws: Uuid, c: Contract, marks: map<Uuid, int>)
    requires TablesOk(t) && ws in t.workspaces
    ensures TablesOk(ApplyContract(t, ws, c, marks))
  {
    var t' := ApplyContract(t, ws, c, marks);
    forall i | i in t'.jobs ensures JobOk(t', t'.jobs[i]) {
      assert JobOk(t, t.jobs[i]);
    }
    forall d | d in t'.documents ensures DocumentOk(t', t'.documents[d]) {
      assert DocumentOk(t, t.documents[d]);
    }
  }

  lemma ReconciledKeeps(t: Tables, ws: Uuid, c: Contract)
    requires TablesOk(t)
    ensures TablesOk(Reconciled(t, ws, c))
  {
    if ws in t.workspaces { ApplyContractKeeps(t, ws, c, Marks(t, ws, c)); }
  }

  /** Each row of the bulk insert is acceptable on its own. */
  lemma BulkRowIsInsertable(t: Tables, ws: Uuid, ids: map<Uuid, Uuid>, i: Uuid, now: Time)
    requires TablesOk(t) && FreshIdsFor(t, ws, ids) && i in ids
    ensures CreateJob(t, i, ids[i], Or(t.documents[ids[i]].active, 0), ReindexDocument, now).Some?
    ensures Or(t.documents[ids[i]].active, 0) > 0
    ensures Fits(t.documents[ids[i]], NewJob(ids[i], Or(t.documents[ids[i]].active, 0), ReindexDocument, now))
  {
    assert NeedsReindexJob(t, ws, ids[i]);
    assert DocumentOk(t, t.documents[ids[i]]);
  }

  /** The bulk insert breaks no constraint: every row it adds is the one active job of its document. */
  lemma WorkspaceReindexKeeps(t: Tables, ws: Uuid, ids: map<Uuid, Uuid>, now: Time)
    requires TablesOk(t) && FreshIdsFor(t, ws, ids)
    ensures TablesOk(CreateWorkspaceReindex(t, ids, now))
  {
    var t' := CreateWorkspaceReindex(t, ids, now);
    forall i | i in t'.jobs
      ensures JobOk(t', t'.jobs[i])
      ensures i in ids ==> t'.jobs[i].document == ids[i] && !HasActiveJob(t, ids[i])
      ensures i !in ids ==> i in t.jobs && t'.jobs[i] == t.jobs[i]
    {
      if i in ids { BulkRowIsInsertable(t, ws, ids, i, now); } else { assert JobOk(t, t.jobs[i]); }
    }
    forall d | d in t'.documents ensures DocumentOk(t', t'.documents[d]) {
      assert DocumentOk(t, t.documents[d]);
    }
    BulkInsertIsUnique(t, t', ids);
  }

  lemma BulkInsertIsUnique(t: Tables, t': Tables, ids: map<Uuid, Uuid>)
    requires OneActiveJob(t)
    requires forall i, j | i in ids && j in ids && ids[i] == ids[j] :: i == j
    requires forall i | i in t'.jobs && i in ids :: t'.jobs[i].document == ids[i] && !HasActiveJob(t, ids[i])
    requires forall i | i in t'.jobs && i !in ids :: i in t.jobs && t'.jobs[i] == t.jobs[i]
    ensures OneActiveJob(t')
  {
    forall a, b | a in t'.jobs && b in t'.jobs && Active(t'.jobs[a]) && Active(t'.jobs[b])
                  && t'.jobs[a].document == t'.jobs[b].document
      ensures a == b
    {
      if a in ids && b !in ids { assert HasActiveJob(t, ids[a]); }
      if b in ids && a !in ids { assert HasActiveJob(t, ids[b]); }
    }
  }

  lemma EnqueueKeeps(t: Tables, ws: Uuid, c: Contract, ids: map<Uuid, Uuid>, now: Time)
    requires TablesOk(t) && FreshIdsFor(Reconciled(t, ws, c), ws, ids)
    ensures TablesOk(ApiSpec.Enqueue(t, ws, c, ids, now))
  {
    ReconciledKeeps(t, ws, c);
    WorkspaceReindexKeeps(Reconciled(t, ws, c), ws, ids, now);
  }

  // ----- worker statements

  /** A fenced first-index move between statuses that all expect the job which makes it. */
  lemma FirstIndexMoveKeeps(t: Tables, ws: Uuid, id: Uuid, from: DocumentStatus, to: DocumentStatus,
                            job: Uuid, owner: string, attempt: int, now: Time)
    requires TablesOk(t)
    requires TransitionStatusForJob(t, ws, id, from, to, job, owner, attempt, now).Some?
    requires from.Uploaded? || from.Indexing? || from.Failed?
    requires to.Uploaded? || to.Indexing? || to.Failed? || to.Ready?
    ensures TablesOk(TransitionStatusForJob(t, ws, id, from, to, job, owner, attempt, now).value)
  {
    assert JobOk(t, t.jobs[job]);
    var d' := TransitionStatusForJob(t, ws, id, from, to, job, owner, attempt, now).value.documents[id];
    assert DocumentOk(t, t.documents[id]) && Shape(d');
    DocumentUpdateKeeps(t, id, d');
  }

  lemma CompletionKeeps(t: Tables, id: Uuid, job: Uuid, owner: string, attempt: int, revision: int, d: Document, now: Time)
    requires TablesOk(t) && OwnsAttempt(t, id, revision, job, owner, attempt, now)
    requires t.jobs[job].startedAt.Some? && now >= t.jobs[job].startedAt.value
    requires id in t.documents && t.documents[id].revisions.Keys <= d.revisions.Keys
    requires Shape(d) && d.workspace in t.workspaces
    ensures TablesOk(SetDocument(CompleteJob(t, job, now), id, d))
  {
    assert JobOk(t, t.jobs[job]);
    CompletedIsValid(t.jobs[job], now);
    JobUpdateKeeps(t, job, Completed(t.jobs[job], now));
    DocumentUpdateKeeps(CompleteJob(t, job, now), id, d);
  }

  lemma ReplacementKeeps(t: Tables, ws: Uuid, id: Uuid, revision: int, job: Uuid, owner: string, attempt: int, now: Time)
    requires TablesOk(t) && CompleteReplacement(t, ws, id, revision, job, owner, attempt, now).1
    requires t.jobs[job].startedAt.Some? && now >= t.jobs[job].startedAt.value
    ensures
      var t' := CompleteReplacement(t, ws, id, revision, job, owner, attempt, now).0;
      && TablesOk(t') && id in t'.documents && t'.documents[id].status.Ready? && t'.documents[id].active == Some(revision)
      && t'.jobs[job].status.Succeeded?
  {
    assert JobOk(t, t.jobs[job]) && DocumentOk(t, t.documents[id]);
    CompletionKeeps(t, id, job, owner, attempt, revision,
                    t.documents[id].(active := Some(revision), status := Ready), now);
  }

  lemma DeletionKeeps(t: Tables, ws: Uuid, id: Uuid, revision: int, job: Uuid, owner: string, attempt: int, now: Time)
    requires TablesOk(t) && CompleteDeletion(t, ws, id, revision, job, owner, attempt, now).1
    requires t.jobs[job].startedAt.Some? && now >= t.jobs[job].startedAt.value
    ensures
      var t' := CompleteDeletion(t, ws, id, revision, job, owner, attempt, now).0;
      TablesOk(t') && id in t'.documents && t'.documents[id].status.Deleted? && t'.jobs[job].status.Succeeded?
  {
    assert JobOk(t, t.jobs[job]) && DocumentOk(t, t.documents[id]);
    CompletionKeeps(t, id, job, owner, attempt, revision, t.documents[id].(status := Deleted), now);
  }

  lemma ReindexKeeps(t: Tables, ws: Uuid, id: Uuid, revision: int, job: Uuid, owner: string, attempt: int,
                     indexVersion: int, now: Time)
    requires TablesOk(t) && CompleteReindex(t, ws, id, revision, job, owner, attempt, indexVersion, now).1
    requires t.jobs[job].startedAt.Some? && now >= t.jobs[job].startedAt.value
    ensures
      var t' := CompleteReindex(t, ws, id, revision, job, owner, attempt, indexVersion, now).0;
      && TablesOk(t') && id in t'.documents && t'.documents[id].status.Ready? && t'.jobs[job].status.Succeeded?
      && t'.documents[id].active == Some(revision) && !t'.documents[id].revisions[revision].requiresReindex
  {
    var d := t.documents[id];
    var d' := d.(revisions := d.revisions[revision := Rebuilt(d.revisions[revision], indexVersion)]);
    assert JobOk(t, t.jobs[job]) && DocumentOk(t, d) && Shape(d');
    CompletionKeeps(t, id, job, owner, attempt, revision, d', now);
  }

  /** The replacement statement changes a table without returning its row exactly when the fence
      lets the attempt pass and the document is not there to be replaced. */
  lemma ReplacementIsPartialExactly(t: Tables, ws: Uuid, id: Uuid, revision: int, job: Uuid, owner: string, attempt: int, now: Time)
    ensures
      var (t', found) := CompleteReplacement(t, ws, id, revision, job, owner, attempt, now);
      !found && t' != t <==>
        && OwnsAttempt(t, id, revision, job, owner, attempt, now)
        && !(&& id in t.documents && t.documents[id].workspace == ws && t.documents[id].status.Updating?
             && revision in t.documents[id].revisions)
  {
    if OwnsAttempt(t, id, revision, job, owner, attempt, now) {
      assert CompleteJob(t, job, now).jobs[job] != t.jobs[job];
    }
  }

  /** Tables that satisfy every constraint, on which the statement alone finishes the job of a
      document it leaves as it was: a first index, whose document is not being updated. */
  lemma ReplacementAloneIsNotAtomic()
    ensures exists t: Tables, owner: string ::
              && TablesOk(t) && 0 in t.jobs && t.jobs[0].status.Running?
              && var (t', found) := CompleteReplacement(t, 0, 0, 1, 0, owner, 1, 0);
                 !found && t'.jobs[0].status.Succeeded? && t'.documents == t.documents
  {
    var owner := "w";
    assert !IsSpace(owner[0] as nat);
    var j := Claimed(NewJob(0, 1, IndexDocument, 0), owner, 1, 0);
    var d := Document(0, Uploaded, None, map[1 := NewRevision(Source("", ""), 0)]);
    var t := Tables(map[0 := j], map[0 := d], map[0 := Workspace(true, Contract(1, ""))]);
    assert JobOk(t, t.jobs[0]) && DocumentOk(t, t.documents[0]);
    var (t', found) := CompleteReplacement(t, 0, 0, 1, 0, owner, 1, 0);
    assert !found && t'.jobs[0].status.Succeeded? && t'.documents == t.documents;
  }
}
