/** What each SQL statement does to the rows: when it finds its row, which columns of it change, and
    that every other row stays as it was. */
module Rows {
  import opened Entities
  import opened JobSql
  import opened DocumentSql

  // ----- frames

  /** The tables differ at most in this job row. */
  ghost predicate OnlyJob(t: Tables, t': Tables, id: Uuid) {
    && t'.documents == t.documents && t'.workspaces == t.workspaces && t'.jobs.Keys == t.jobs.Keys + {id}
    && forall i | i in t.jobs && i != id :: t'.jobs[i] == t.jobs[i]
  }

  /** The tables differ at most in this document row. */
  ghost predicate OnlyDocument(t: Tables, t': Tables, id: Uuid) {
    && t'.jobs == t.jobs && t'.workspaces == t.workspaces && t'.documents.Keys == t.documents.Keys + {id}
    && forall d | d in t.documents && d != id :: t'.documents[d] == t.documents[d]
  }

  /** The tables differ at most in this job row and this document row. */
  ghost predicate OnlyBoth(t: Tables, t': Tables, job: Uuid, id: Uuid) {
    && t'.workspaces == t.workspaces && t'.jobs.Keys == t.jobs.Keys && t'.documents.Keys == t.documents.Keys
    && (forall i | i in t.jobs && i != job :: t'.jobs[i] == t.jobs[i])
    && (forall d | d in t.documents && d != id :: t'.documents[d] == t.documents[d])
  }

  // ----- job rows

  /** The columns that no statement on an existing job changes. */
  predicate SameTask(j: Job, j': Job) {
    && j'.document == j.document && j'.revision == j.revision && j'.kind == j.kind
    && j'.maxAttempts == j.maxAttempts && j'.createdAt == j.createdAt && j'.errorDetail == None
  }

  /** The attempt is live before `expiry`, and expired from then on. */
  ghost predicate LeasedUntil(j: Job, owner: string, attempt: int, expiry: Time) {
    && (forall n: Time :: Live(j, owner, attempt, n) <==> n < expiry)
    && (forall n: Time :: Expired(j, n) <==> n >= expiry)
  }

  /** No attempt of this row is live at any time. */
  ghost predicate Fenced(j: Job) {
    forall owner, attempt, now :: !Live(j, owner, attempt, now)
  }

  /** The job can be claimed exactly from `from` on. */
  ghost predicate AvailableFrom(j: Job, from: Time) {
    forall n: Time :: Claimable(j, n) <==> n >= from
  }

  /** A job that has just been inserted: three attempts, the first available at once. */
  ghost predicate Inserted(j: Job, document: Uuid, revision: int, kind: JobKind, now: Time) {
    && j.document == document && j.revision == revision && j.kind == kind && j.status.Pending?
    && j.attempts == 0 && j.maxAttempts == 3 && j.createdAt == j.updatedAt == now && AvailableFrom(j, now)
    && j.leaseOwner == None && j.leaseExpiresAt == None && j.heartbeatAt == None
    && j.startedAt == None && j.finishedAt == None && j.errorCode == None && j.errorDetail == None
  }

  /** A claimed row: one attempt more, leased for exactly `leaseFor`, its first start kept. */
  ghost predicate Leased(j: Job, j': Job, owner: string, leaseFor: int, now: Time) {
    && SameTask(j, j') && j'.attempts == j.attempts + 1 && LeasedUntil(j', owner, j.attempts + 1, now + leaseFor)
    && j'.startedAt == Some(if j.startedAt.Some? then j.startedAt.value else now)
    && j'.heartbeatAt == Some(now) && j'.updatedAt == now && j'.errorCode == None
    && j'.availableAt == j.availableAt && j'.finishedAt == j.finishedAt
  }

  /** A renewed row: only the lease, the heartbeat and the time of the update have moved. */
  ghost predicate Extended(j: Job, j': Job, owner: string, attempt: int, leaseFor: int, now: Time) {
    && LeasedUntil(j', owner, attempt, now + leaseFor) && j'.heartbeatAt == Some(now) && j'.updatedAt == now
    && j'.(leaseExpiresAt := j.leaseExpiresAt, heartbeatAt := j.heartbeatAt, updatedAt := j.updatedAt) == j
  }

  /** A finished row: over for good, with its attempts and start kept. */
  ghost predicate Finished(j: Job, j': Job, now: Time) {
    && j'.status.Succeeded? && Fenced(j') && (forall n: Time :: !Claimable(j', n))
    && j'.leaseOwner == None && j'.leaseExpiresAt == None && j'.heartbeatAt == None
    && j'.finishedAt == Some(now) && j'.updatedAt == now
    && j'.document == j.document && j'.revision == j.revision && j'.kind == j.kind && j'.attempts == j.attempts
    && j'.maxAttempts == j.maxAttempts && j'.availableAt == j.availableAt && j'.createdAt == j.createdAt
    && j'.startedAt == j.startedAt && j'.errorCode == j.errorCode && j'.errorDetail == j.errorDetail
  }

  /** What release means for the job: fenced, and claimable later exactly if attempts are left. */
  ghost predicate ReleasedTo(j: Job, j': Job, retryAfter: nat, now: Time) {
    && MayMove(j.status, j'.status) && Fenced(j') && j'.attempts == j.attempts
    && (forall n: Time :: Claimable(j', n) <==> j.attempts < j.maxAttempts && n >= now + retryAfter)
    && (Terminal(j') <==> j.attempts >= j.maxAttempts)
  }

  /** A released row: the error is the given one while attempts are left, and says so afterwards. */
  ghost predicate ReleasedWith(j: Job, j': Job, code: ErrorCode, retryAfter: nat, now: Time) {
    && ReleasedTo(j, j', retryAfter, now) && SameTask(j, j') && j'.startedAt == j.startedAt && j'.updatedAt == now
    && (if j.attempts < j.maxAttempts
        then j'.status.Retry? && j'.errorCode == Some(code) && j'.finishedAt == None
        else j'.status.Failed? && j'.errorCode == Some(AttemptsExhausted) && j'.finishedAt == Some(now))
  }

  lemma NewJobIs(document: Uuid, revision: int, kind: JobKind, now: Time)
    ensures Inserted(NewJob(document, revision, kind, now), document, revision, kind, now)
  {}

  lemma ClaimedIs(j: Job, owner: string, leaseFor: int, now: Time)
    ensures Leased(j, Claimed(j, owner, leaseFor, now), owner, leaseFor, now)
  {}

  lemma RenewedIs(j: Job, owner: string, attempt: int, leaseFor: int, now: Time)
    requires Live(j, owner, attempt, now)
    ensures Extended(j, Renewed(j, leaseFor, now), owner, attempt, leaseFor, now)
  {}

  lemma CompletedIs(j: Job, now: Time)
    ensures Finished(j, Completed(j, now), now)
  {}

  lemma ReleasedIs(j: Job, code: ErrorCode, retryAfter: nat, now: Time)
    requires j.status.Running?
    ensures ReleasedWith(j, Released(j, code, retryAfter, now), code, retryAfter, now)
    ensures !Expired(Released(j, code, retryAfter, now), now)
  {}

  /** Available jobs are taken by time of availability, then time of creation, then id. */
  ghost predicate First(t: Tables, id: Uuid, now: Time, locked: set<Uuid>)
    requires id in t.jobs
  {
    var x := t.jobs[id];
    && Claimable(x, now) && id !in locked
    && forall other | other in t.jobs && other !in locked && Claimable(t.jobs[other], now) ::
         var y := t.jobs[other];
         && x.availableAt <= y.availableAt
         && (x.availableAt == y.availableAt ==> x.createdAt <= y.createdAt)
         && (x.availableAt == y.availableAt && x.createdAt == y.createdAt ==> id <= other)
  }

  lemma CandidateIsFirst(t: Tables, id: Uuid, now: Time, locked: set<Uuid>)
    requires IsCandidate(t, id, now, locked)
    ensures First(t, id, now, locked)
  {}

  /** The rows of the bulk insert: one new job for the active revision of each selected document. */
  lemma BulkInsertIs(t: Tables, ids: map<Uuid, Uuid>, now: Time)
    requires forall i | i in ids :: i !in t.jobs && ids[i] in t.documents && t.documents[ids[i]].active.Some?
    ensures
      var t' := CreateWorkspaceReindex(t, ids, now);
      && t'.documents == t.documents && t'.workspaces == t.workspaces && t'.jobs.Keys == t.jobs.Keys + ids.Keys
      && (forall i | i in t.jobs :: t'.jobs[i] == t.jobs[i])
      && (forall i | i in ids ::
            Inserted(t'.jobs[i], ids[i], t.documents[ids[i]].active.value, ReindexDocument, now))
  {
    var t' := CreateWorkspaceReindex(t, ids, now);
    forall i | i in ids ensures Inserted(t'.jobs[i], ids[i], t.documents[ids[i]].active.value, ReindexDocument, now) {
      NewJobIs(ids[i], t.documents[ids[i]].active.value, ReindexDocument, now);
    }
  }

  // ----- documents and revisions

  /** A revision row as inserted, with the versions that this release writes. */
  predicate FreshRevision(r: Revision, source: Source, now: Time) {
    && r.objectKey == source.objectKey && r.contentHash == source.contentHash && r.createdAt == now
    && r.parserVersion == 1 && r.chunkVersion == 1 && r.indexVersion == 1 && !r.requiresReindex
  }

  /** The same document and revisions, apart from status and active revision. */
  predicate SameBut(d: Document, d': Document, status: DocumentStatus, active: Option<int>) {
    d'.workspace == d.workspace && d'.revisions == d.revisions && d'.status == status && d'.active == active
  }

  /** The active revision, or else the newest one. */
  lemma CurrentRevisionIs(d: Document)
    ensures
      var n := if d.active.Some? then d.active.value else MaxRevision(d);
      CurrentRevision(d) == if n in d.revisions then Some(n) else None
  {}

  lemma CreateIs(t: Tables, ws: Uuid, id: Uuid, source: Source, now: Time)
    ensures Create(t, ws, id, source, now).Some? <==> id !in t.documents && ws in t.workspaces
    ensures Create(t, ws, id, source, now).Some? ==>
              var t' := Create(t, ws, id, source, now).value;
              && OnlyDocument(t, t', id) && id in t'.documents && t'.documents[id].workspace == ws
              && t'.documents[id].status.Uploaded? && t'.documents[id].active == None
              && t'.documents[id].revisions.Keys == {1} && FreshRevision(t'.documents[id].revisions[1], source, now)
  {}

  lemma AddRevisionIs(t: Tables, ws: Uuid, id: Uuid, source: Source, now: Time)
    ensures AddRevision(t, ws, id, source, now).Some? <==> id in t.documents && t.documents[id].workspace == ws
    ensures AddRevision(t, ws, id, source, now).Some? ==>
              var t' := AddRevision(t, ws, id, source, now).value;
              var d, d', n := t.documents[id], t'.documents[id], MaxRevision(t.documents[id]) + 1;
              && OnlyDocument(t, t', id) && n !in d.revisions && d'.revisions.Keys == d.revisions.Keys + {n}
              && FreshRevision(d'.revisions[n], source, now)
              && (forall k | k in d.revisions :: k < n && d'.revisions[k] == d.revisions[k])
              && d'.workspace == ws && d'.status == d.status && d'.active == d.active
  {}

  lemma TransitionIs(t: Tables, ws: Uuid, id: Uuid, from: DocumentStatus, to: DocumentStatus)
    ensures TransitionStatus(t, ws, id, from, to).Some? <==>
            && id in t.documents && t.documents[id].workspace == ws && t.documents[id].status == from
            && CurrentRevision(t.documents[id]).Some?
    ensures TransitionStatus(t, ws, id, from, to).Some? ==>
              var t', d := TransitionStatus(t, ws, id, from, to).value, t.documents[id];
              && OnlyDocument(t, t', id)
              && SameBut(d, t'.documents[id], to, if to.Ready? then CurrentRevision(d) else d.active)
  {}

  /** The row that the fence of an attempt asks for. */
  predicate Holds(t: Tables, job: Uuid, owner: string, attempt: int, now: Time) {
    && job in t.jobs && t.jobs[job].status.Running? && t.jobs[job].leaseOwner == Some(owner)
    && t.jobs[job].attempts == attempt && t.jobs[job].leaseExpiresAt.Some? && now < t.jobs[job].leaseExpiresAt.value
  }

  lemma FencedTransitionIs(t: Tables, ws: Uuid, id: Uuid, from: DocumentStatus, to: DocumentStatus,
                           job: Uuid, owner: string, attempt: int, now: Time)
    ensures
      var moved := TransitionStatusForJob(t, ws, id, from, to, job, owner, attempt, now);
      && (moved.Some? <==>
            && id in t.documents && t.documents[id].workspace == ws && t.documents[id].status == from
            && Holds(t, job, owner, attempt, now) && t.jobs[job].document == id
            && t.jobs[job].revision in t.documents[id].revisions)
      && (moved.Some? ==>
            && OnlyDocument(t, moved.value, id)
            && SameBut(t.documents[id], moved.value.documents[id], to,
                       if to.Ready? then Some(t.jobs[job].revision) else t.documents[id].active))
  {}

  lemma CompleteReplacementIs(t: Tables, ws: Uuid, id: Uuid, revision: int, job: Uuid, owner: string, attempt: int, now: Time)
    ensures
      var (t', found) := CompleteReplacement(t, ws, id, revision, job, owner, attempt, now);
      var passes := Holds(t, job, owner, attempt, now) && t.jobs[job].document == id && t.jobs[job].revision == revision;
      && (found <==> passes && id in t.documents && t.documents[id].workspace == ws
                     && t.documents[id].status.Updating? && revision in t.documents[id].revisions)
      && (if passes then OnlyBoth(t, t', job, id) && Finished(t.jobs[job], t'.jobs[job], now) else t' == t)
      && (if found then SameBut(t.documents[id], t'.documents[id], Ready, Some(revision)) else t'.documents == t.documents)
  {}

  lemma CompleteDeletionIs(t: Tables, ws: Uuid, id: Uuid, revision: int, job: Uuid, owner: string, attempt: int, now: Time)
    ensures
      var (t', found) := CompleteDeletion(t, ws, id, revision, job, owner, attempt, now);
      && (found <==>
            && Holds(t, job, owner, attempt, now) && t.jobs[job].document == id && t.jobs[job].revision == revision
            && t.jobs[job].kind.DeleteDocument? && id in t.documents && t.documents[id].workspace == ws
            && t.documents[id].status.Deleting? && t.documents[id].active == Some(revision)
            && revision in t.documents[id].revisions)
      && (if found
          then && OnlyBoth(t, t', job, id) && Finished(t.jobs[job], t'.jobs[job], now)
               && SameBut(t.documents[id], t'.documents[id], Deleted, Some(revision))
          else t' == t)
  {}

  lemma CompleteReindexIs(t: Tables, ws: Uuid, id: Uuid, revision: int, job: Uuid, owner: string, attempt: int,
                          indexVersion: int, now: Time)
    ensures
      var (t', found) := CompleteReindex(t, ws, id, revision, job, owner, attempt, indexVersion, now);
      && (found <==>
            && Holds(t, job, owner, attempt, now) && t.jobs[job].document == id && t.jobs[job].revision == revision
            && t.jobs[job].kind.ReindexDocument? && id in t.documents && t.documents[id].workspace == ws
            && t.documents[id].status.Ready? && t.documents[id].active == Some(revision)
            && revision in t.documents[id].revisions && t.documents[id].revisions[revision].requiresReindex)
      && (if found
          then && OnlyBoth(t, t', job, id) && Finished(t.jobs[job], t'.jobs[job], now)
               && Confirms(t.documents[id], t'.documents[id], revision, indexVersion)
          else t' == t)
  {}

  /** One revision is no longer flagged and has the versions it was rebuilt with; all else is as before. */
  ghost predicate Confirms(d: Document, d': Document, revision: int, indexVersion: int)
    requires revision in d.revisions
  {
    && d'.workspace == d.workspace && d'.status == d.status && d'.active == d.active
    && d'.revisions.Keys == d.revisions.Keys
    && (forall k | k in d.revisions && k != revision :: d'.revisions[k] == d.revisions[k])
    && var r, r' := d.revisions[revision], d'.revisions[revision];
       && r'.parserVersion == 1 && r'.chunkVersion == 1 && r'.indexVersion == indexVersion && !r'.requiresReindex
       && r'.objectKey == r.objectKey && r'.contentHash == r.contentHash && r'.createdAt == r.createdAt
  }

  // ----- the index contract

  /** A revision row of which only the flag may have been raised. */
  predicate RaisedFlag(r: Revision, r': Revision, raised: bool) {
    r'.requiresReindex == (r.requiresReindex || raised) && r'.(requiresReindex := r.requiresReindex) == r
  }

  /** A document of the workspace under a new contract: the flag of its active revision is raised. */
  ghost predicate Flagged(d: Document, d': Document) {
    && d'.workspace == d.workspace && d'.status == d.status && d'.active == d.active
    && d'.revisions.Keys == d.revisions.Keys
    && forall k | k in d.revisions :: RaisedFlag(d.revisions[k], d'.revisions[k], d.active == Some(k))
  }

  predicate Affected(t: Tables, d: Document, ws: Uuid, c: Contract)
    requires ws in t.workspaces
  {
    d.workspace == ws && !d.status.Deleted? && t.workspaces[ws].contract != c
  }

  /** Reconciling a workspace with a contract: its row has the contract, the active revisions of its
      documents that are not deleted are flagged if it is a new one, and no other row changes. */
  ghost predicate ContractEnsured(t: Tables, t': Tables, ws: Uuid, c: Contract) {
    if ws !in t.workspaces then t' == t
    else
      && t'.jobs == t.jobs && t'.workspaces.Keys == t.workspaces.Keys && t'.documents.Keys == t.documents.Keys
      && t'.workspaces[ws].contract == c && t'.workspaces[ws].isActive == t.workspaces[ws].isActive
      && (forall w | w in t.workspaces && w != ws :: t'.workspaces[w] == t.workspaces[w])
      && (forall id {:trigger t'.documents[id]} | id in t.documents ::
            if Affected(t, t.documents[id], ws, c)
            then Flagged(t.documents[id], t'.documents[id])
            else t'.documents[id] == t.documents[id])
  }

  /** The revisions to mark: the active one of each document concerned. */
  ghost predicate MarksAre(t: Tables, ws: Uuid, c: Contract, marks: map<Uuid, int>)
    requires ws in t.workspaces
  {
    && (forall id :: id in marks <==> id in t.documents && Affected(t, t.documents[id], ws, c) && t.documents[id].active.Some?)
    && (forall id | id in marks :: t.documents[id].active == Some(marks[id]))
  }

  lemma EnsureIndexContractIs(t: Tables, ws: Uuid, c: Contract)
    ensures EnsureIndexContract(t, ws, c).Some? <==> ws in t.workspaces
    ensures ContractEnsured(t, Or(EnsureIndexContract(t, ws, c), t), ws, c)
    ensures ws in t.workspaces ==> MarksAre(t, ws, c, Marks(t, ws, c))
  {
    if ws in t.workspaces {
      var t' := EnsureIndexContract(t, ws, c).value;
      forall id | id in t.documents
        ensures if Affected(t, t.documents[id], ws, c)
                then Flagged(t.documents[id], t'.documents[id])
                else t'.documents[id] == t.documents[id]
      {
        if t.documents[id].active.None? { assert t'.documents[id] == t.documents[id]; }
      }
    }
  }
}
