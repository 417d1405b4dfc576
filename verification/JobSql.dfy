/** The SQL statements of the job repository, one function per statement.
    `now` is the start time of the transaction that runs the statement. */
module JobSql {
  import opened Entities

  const DEFAULT_MAX_ATTEMPTS := 3

  // ----- one row

  function NewJob(document: Uuid, revision: int, kind: JobKind, now: Time): Job {
    Job(document, revision, kind, Pending, 0, DEFAULT_MAX_ATTEMPTS, now, now, now,
        None, None, None, None, None, None, None)
  }

  function Claimed(j: Job, owner: string, leaseFor: int, now: Time): Job {
    j.(status := Running, attempts := j.attempts + 1, leaseOwner := Some(owner),
       heartbeatAt := Some(now), leaseExpiresAt := Some(now + leaseFor),
       startedAt := Some(Or(j.startedAt, now)), updatedAt := now,
       errorCode := None, errorDetail := None)
  }

  function Renewed(j: Job, leaseFor: int, now: Time): Job {
    j.(heartbeatAt := Some(now), leaseExpiresAt := Some(now + leaseFor), updatedAt := now)
  }

  function Completed(j: Job, now: Time): Job {
    j.(status := Succeeded, leaseOwner := None, leaseExpiresAt := None, heartbeatAt := None,
       finishedAt := Some(now), updatedAt := now)
  }

  /** A retry while attempts remain, a terminal failure afterwards. */
  function Released(j: Job, code: ErrorCode, retryAfter: int, now: Time): Job {
    var again := j.attempts < j.maxAttempts;
    j.(status := if again then Retry else JobStatus.Failed,
       availableAt := if again then now + retryAfter else j.availableAt,
       leaseOwner := None, leaseExpiresAt := None, heartbeatAt := None,
       finishedAt := if again then None else Some(now),
       errorCode := Some(if again then code else AttemptsExhausted),
       errorDetail := None, updatedAt := now)
  }

  // ----- guards

  predicate Claimable(j: Job, now: Time) {
    (j.status.Pending? || j.status.Retry?) && j.availableAt <= now && j.attempts < j.maxAttempts
  }

  /** The fence: this exact attempt still holds an unexpired lease. */
  predicate Live(j: Job, owner: string, attempt: int, now: Time) {
    && j.status.Running? && j.leaseOwner == Some(owner) && j.attempts == attempt
    && j.leaseExpiresAt.Some? && j.leaseExpiresAt.value > now
  }

  predicate Expired(j: Job, now: Time) {
    j.status.Running? && j.leaseExpiresAt.Some? && j.leaseExpiresAt.value <= now
  }

  /** `ORDER BY available_at, created_at, id` */
  predicate ClaimedBefore(t: Tables, a: Uuid, b: Uuid)
    requires a in t.jobs && b in t.jobs
  {
    var x, y := t.jobs[a], t.jobs[b];
    x.availableAt < y.availableAt
    || (x.availableAt == y.availableAt
        && (x.createdAt < y.createdAt || (x.createdAt == y.createdAt && a < b)))
  }

  lemma ClaimOrder(t: Tables, a: Uuid, b: Uuid, c: Uuid)
    requires a in t.jobs && b in t.jobs && c in t.jobs
    ensures a == b || ClaimedBefore(t, a, b) || ClaimedBefore(t, b, a)
    ensures ClaimedBefore(t, a, b) && ClaimedBefore(t, b, c) ==> ClaimedBefore(t, a, c)
    ensures !(ClaimedBefore(t, a, b) && ClaimedBefore(t, b, a))
  {}

  /** The first claimable row that no other transaction has locked (`skipped`). */
  predicate IsCandidate(t: Tables, id: Uuid, now: Time, skipped: set<Uuid>) {
    && id in t.jobs && id !in skipped && Claimable(t.jobs[id], now)
    && forall other | other in t.jobs && other !in skipped && Claimable(t.jobs[other], now) ::
         other == id || ClaimedBefore(t, id, other)
  }

  // ----- statements

  function ClaimNext(t: Tables, id: Uuid, owner: string, leaseFor: int, now: Time): Tables
    requires id in t.jobs
  {
    t.(jobs := t.jobs[id := Claimed(t.jobs[id], owner, leaseFor, now)])
  }

  function Heartbeat(t: Tables, id: Uuid, owner: string, attempt: int, leaseFor: int, now: Time): Option<Tables> {
    if id in t.jobs && Live(t.jobs[id], owner, attempt, now)
    then Some(t.(jobs := t.jobs[id := Renewed(t.jobs[id], leaseFor, now)]))
    else None
  }

  function Succeed(t: Tables, id: Uuid, owner: string, attempt: int, now: Time): Option<Tables> {
    if id in t.jobs && Live(t.jobs[id], owner, attempt, now)
    then Some(t.(jobs := t.jobs[id := Completed(t.jobs[id], now)]))
    else None
  }

  function Fail(t: Tables, id: Uuid, owner: string, attempt: int, code: ErrorCode, retryAfter: int, now: Time)
    : Option<Tables>
  {
    if id in t.jobs && Live(t.jobs[id], owner, attempt, now)
    then Some(t.(jobs := t.jobs[id := Released(t.jobs[id], code, retryAfter, now)]))
    else None
  }

  function RecoverExpired(t: Tables, retryAfter: int, now: Time): Tables {
    t.(jobs := map id | id in t.jobs ::
                 if Expired(t.jobs[id], now) then Released(t.jobs[id], DependencyUnavailable, retryAfter, now)
                 else t.jobs[id])
  }

  /** The partial unique index: some active job already covers the document. */
  predicate HasActiveJob(t: Tables, document: Uuid) {
    exists id :: id in t.jobs && t.jobs[id].document == document && Active(t.jobs[id])
  }

  /** `INSERT INTO jobs`; `None` is a primary-key, foreign-key or unique-index violation. */
  function CreateJob(t: Tables, id: Uuid, document: Uuid, revision: int, kind: JobKind, now: Time): Option<Tables> {
    if id in t.jobs || HasActiveJob(t, document)
       || document !in t.documents || revision !in t.documents[document].revisions
    then None
    else Some(t.(jobs := t.jobs[id := NewJob(document, revision, kind, now)]))
  }

  predicate NeedsReindexJob(t: Tables, ws: Uuid, document: Uuid) {
    && document in t.documents
    && var d := t.documents[document];
       && d.workspace == ws && ws in t.workspaces && t.workspaces[ws].isActive
       && d.status.Ready? && d.active.Some? && d.active.value in d.revisions
       && d.revisions[d.active.value].requiresReindex
       && !HasActiveJob(t, document)
  }

  /** The generated ids of the bulk insert: one unused id for each selected document. */
  predicate FreshIdsFor(t: Tables, ws: Uuid, ids: map<Uuid, Uuid>) {
    && (forall i {:trigger ids[i]} | i in ids :: i !in t.jobs && NeedsReindexJob(t, ws, ids[i]))
    && (forall i, j | i in ids && j in ids && ids[i] == ids[j] :: i == j)
    && (forall document {:trigger NeedsReindexJob(t, ws, document)} |
          document in t.documents && NeedsReindexJob(t, ws, document) :: document in ids.Values)
  }

  /** `INSERT INTO jobs SELECT`: a reindex job for each selected active revision. */
  function CreateWorkspaceReindex(t: Tables, ids: map<Uuid, Uuid>, now: Time): Tables {
    t.(jobs := t.jobs + map i | i in ids && ids[i] in t.documents ::
                          NewJob(ids[i], Or(t.documents[ids[i]].active, 0), ReindexDocument, now))
  }
}
