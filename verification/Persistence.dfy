/** The repositories as objects over one database connection. Each method is one statement of the
    open transaction; any of them may break for reasons of its own, and then counts as a fault. */
module Persistence {
  import opened Entities
  import opened JobSql
  import opened DocumentSql
  import opened TableInvariant
  import opened Rows

  /** The result of a call that may raise. */
  datatype Outcome<+T> = Value(value: T) | Raised {
    predicate IsFailure() { Raised? }
    function PropagateFailure<U>(): Outcome<U> requires Raised? { Outcome.Raised }
    function Extract(): T requires Value? { value }
  }

  /** The uncommitted rows of a contract change: the workspace and the revisions it marks. */
  datatype ContractWrite = ContractWrite(ws: Uuid, contract: Contract, marks: map<Uuid, int>)

  /** What a statement sees: the rows committed so far, under its transaction's own writes. */
  function View(committed: Tables, own: Option<ContractWrite>): Tables {
    if own.Some? && own.value.ws in committed.workspaces
    then ApplyContract(committed, own.value.ws, own.value.contract, own.value.marks)
    else committed
  }

  class Connection {
    var committed: Tables             // what other connections see
    var pending: Tables               // what the open transaction sees
    var own: Option<ContractWrite>    // its contract change, if it has made one
    var faults: nat                   // calls that broke, and commits that were not acknowledged
    var ackLost: bool                 // its commit took effect but was reported as failed

    constructor (tables: Tables)
      ensures committed == pending == tables && own == None && faults == 0 && !ackLost
    {
      committed, pending, own, faults, ackLost := tables, tables, None, 0, false;
    }

    /** The open transaction has nothing to commit. */
    ghost predicate Clean()
      reads this
    {
      pending == committed && !ackLost
    }

    method Begin()
      modifies this`pending, this`own, this`ackLost
      ensures pending == committed && own == None && !ackLost
    {
      pending, own, ackLost := committed, None, false;
    }

    /** Each statement reads what other transactions have committed before it. */
    method Refresh()
      modifies this`pending
      ensures pending == View(committed, own)
    {
      pending := View(committed, own);
    }

    /** Whether the next call breaks. */
    method Breaks() returns (broken: bool)
      modifies this`faults
      ensures faults == old(faults) + if broken then 1 else 0
    {
      broken := *;
      if broken { faults := faults + 1; }
    }

    /** Ends the transaction. */
    method Commit() returns (r: Outcome<()>)
      requires !ackLost
      modifies this
      ensures pending == committed && own == None
      ensures r.Value? ==> committed == old(pending) && !ackLost && faults == old(faults)
      ensures r.Raised? ==> committed == (if ackLost then old(pending) else old(committed)) && faults == old(faults) + 1
    {
      var applied: bool, acknowledged: bool := *, *;
      if applied { committed := pending; }
      pending, own := committed, None;
      if applied && acknowledged { return Value(()); }
      if applied { ackLost := true; }
      faults := faults + 1;
      return Raised;
    }

    method Rollback()
      modifies this`pending, this`own
      ensures pending == committed && own == None
    {
      pending, own := committed, None;
    }
  }

  class JobRepository {
    const connection: Connection

    constructor (connection: Connection)
      ensures this.connection == connection
    {
      this.connection := connection;
    }

    /** `create_indexing` and `create_deletion`. */
    method Create(id: Uuid, document: Uuid, revision: int, kind: JobKind, now: Time) returns (r: Outcome<()>)
      modifies connection`pending, connection`faults
      ensures connection.faults >= old(connection.faults)
      ensures r.Raised? ==> connection.pending == old(connection.pending)
      ensures r.Raised? ==> connection.faults > old(connection.faults)
                            || CreateJob(old(connection.pending), id, document, revision, kind, now) == None
      ensures r.Value? ==> CreateJob(old(connection.pending), id, document, revision, kind, now) == Some(connection.pending)
                           && connection.faults == old(connection.faults)
      ensures r.Value? ==> id !in old(connection.pending).jobs && OnlyJob(old(connection.pending), connection.pending, id)
                           && Inserted(connection.pending.jobs[id], document, revision, kind, now)
    {
      var broken := connection.Breaks();
      var t := connection.pending;
      if broken || id in t.jobs || document !in t.documents || revision !in t.documents[document].revisions {
        return Raised;
      }
      if HasActiveJob(t, document) {
        return Raised;
      }
      connection.pending := t.(jobs := t.jobs[id := NewJob(document, revision, kind, now)]);
      return Value(());
    }

    method GetActiveForDocument(document: Uuid) returns (r: Outcome<Option<Uuid>>)
      modifies connection`faults
      ensures r.Raised? ==> connection.faults > old(connection.faults)
      ensures r.Value? ==> connection.faults == old(connection.faults)
      ensures r.Value? && r.value.Some? ==>
                r.value.value in connection.pending.jobs
                && connection.pending.jobs[r.value.value].document == document
                && Active(connection.pending.jobs[r.value.value])
      ensures r.Value? && r.value.None? ==> !HasActiveJob(connection.pending, document)
    {
      var broken := connection.Breaks();
      var jobs := connection.pending.jobs;
      if broken { return Raised; }
      if id :| id in jobs.Keys && jobs[id].document == document && Active(jobs[id]) {
        return Value(Some(id));
      }
      return Value(None);
    }

    /** Selects the flagged documents without an active job, and inserts one pending job for each
        under the id generated for it; a generated id that is taken breaks the statement. */
    method CreateWorkspaceReindex(ws: Uuid, newId: Uuid -> Uuid, now: Time) returns (r: Outcome<map<Uuid, Uuid>>)
      modifies connection`pending, connection`faults
      ensures connection.faults >= old(connection.faults)
      ensures r.Raised? ==> connection.pending == old(connection.pending)
                            && (connection.faults > old(connection.faults) || IdsTaken(old(connection.pending), ws, newId))
      ensures r.Value? ==>
                && connection.faults == old(connection.faults)
                && FreshIdsFor(old(connection.pending), ws, r.value)
                && connection.pending == JobSql.CreateWorkspaceReindex(old(connection.pending), r.value, now)
      ensures r.Value? ==> NothingToReindex(connection.pending, ws)
    {
      var broken := connection.Breaks();
      if broken { return Raised; }
      var t := connection.pending;
      var selected := SelectForReindex(t, ws, newId);
      if selected.None? { return Raised; }
      var ids := selected.value;
      var rows := map i | i in ids && ids[i] in t.documents ::
        NewJob(ids[i], Or(t.documents[ids[i]].active, 0), ReindexDocument, now);
      connection.pending := t.(jobs := t.jobs + rows);
      NoneLeft(t, ws, ids, now);
      return Value(ids);
    }

    /** Claims the first available job that no other transaction has locked. */
    method ClaimNext(owner: string, leaseFor: int, now: Time, locked: set<Uuid>) returns (r: Outcome<Option<Uuid>>)
      modifies connection`pending, connection`faults
      ensures connection.faults >= old(connection.faults)
      ensures r.Raised? ==> connection.pending == old(connection.pending)
                            && (connection.faults > old(connection.faults) || !ValidOwner(owner) || leaseFor <= 0)
      ensures r.Value? ==> ValidOwner(owner) && leaseFor > 0 && connection.faults == old(connection.faults)
      ensures r == Value(None) ==>
                && connection.pending == old(connection.pending)
                && forall id | id in connection.pending.jobs && id !in locked :: !Claimable(connection.pending.jobs[id], now)
      ensures r.Value? && r.value.Some? ==>
                && IsCandidate(old(connection.pending), r.value.value, now, locked)
                && connection.pending == JobSql.ClaimNext(old(connection.pending), r.value.value, owner, leaseFor, now)
                && First(old(connection.pending), r.value.value, now, locked)
                && OnlyJob(old(connection.pending), connection.pending, r.value.value)
                && Leased(old(connection.pending).jobs[r.value.value], connection.pending.jobs[r.value.value], owner, leaseFor, now)
    {
      if !ValidOwner(owner) || leaseFor <= 0 { return Raised; }
      var broken := connection.Breaks();
      if broken { return Raised; }
      var t := connection.pending;
      var candidate := FirstAvailable(t, now, locked);
      if candidate.None? { return Value(None); }
      var id := candidate.value;
      var j := t.jobs[id];
      connection.pending := t.(jobs := t.jobs[id := j.(
        status := Running, attempts := j.attempts + 1,
        leaseOwner := Some(owner), heartbeatAt := Some(now), leaseExpiresAt := Some(now + leaseFor),
        startedAt := Some(Or(j.startedAt, now)), updatedAt := now, errorCode := None, errorDetail := None)]);
      return Value(Some(id));
    }

    /** After a renewal the attempt is live up to the new expiry and expired from then on. */
    method Heartbeat(id: Uuid, owner: string, attempt: int, leaseFor: int, now: Time) returns (r: Outcome<bool>)
      modifies connection`pending, connection`faults
      ensures connection.faults >= old(connection.faults)
      ensures r.Raised? ==> connection.pending == old(connection.pending)
                            && (connection.faults > old(connection.faults) || !ValidOwner(owner) || leaseFor <= 0)
      ensures r.Value? ==>
                && connection.faults == old(connection.faults) && leaseFor > 0
                && (r.value <==> id in old(connection.pending).jobs && Live(old(connection.pending).jobs[id], owner, attempt, now))
                && connection.pending ==
                   Or(JobSql.Heartbeat(old(connection.pending), id, owner, attempt, leaseFor, now), old(connection.pending))
      ensures r == Value(true) ==>
                && OnlyJob(old(connection.pending), connection.pending, id)
                && Extended(old(connection.pending).jobs[id], connection.pending.jobs[id], owner, attempt, leaseFor, now)
    {
      if !ValidOwner(owner) || leaseFor <= 0 { return Raised; }
      var broken := connection.Breaks();
      if broken { return Raised; }
      var t := connection.pending;
      var renewed := id in t.jobs && Live(t.jobs[id], owner, attempt, now);
      if renewed {
        connection.pending := t.(jobs := t.jobs[id := t.jobs[id].(
          heartbeatAt := Some(now), leaseExpiresAt := Some(now + leaseFor), updatedAt := now)]);
      }
      return Value(renewed);
    }

    /** Afterwards the job is over: no attempt is live or claimable at any time. */
    method Succeed(id: Uuid, owner: string, attempt: int, now: Time) returns (r: Outcome<bool>)
      modifies connection`pending, connection`faults
      ensures r.Raised? ==> connection.pending == old(connection.pending) && connection.faults > old(connection.faults)
      ensures r.Value? ==>
                && connection.faults == old(connection.faults)
                && (r.value <==> id in old(connection.pending).jobs && Live(old(connection.pending).jobs[id], owner, attempt, now))
                && connection.pending ==
                   Or(JobSql.Succeed(old(connection.pending), id, owner, attempt, now), old(connection.pending))
      ensures r == Value(true) ==>
                && MayMove(old(connection.pending).jobs[id].status, Succeeded)
                && Terminal(connection.pending.jobs[id]) && Fenced(connection.pending.jobs[id])
                && OnlyJob(old(connection.pending), connection.pending, id)
                && Finished(old(connection.pending).jobs[id], connection.pending.jobs[id], now)
    {
      var broken := connection.Breaks();
      if broken { return Raised; }
      var t := connection.pending;
      var done := id in t.jobs && Live(t.jobs[id], owner, attempt, now);
      if done {
        connection.pending := t.(jobs := t.jobs[id := t.jobs[id].(
          status := Succeeded, leaseOwner := None, leaseExpiresAt := None, heartbeatAt := None,
          finishedAt := Some(now), updatedAt := now)]);
      }
      return Value(done);
    }

    /** Afterwards no attempt is live, and the job can be claimed again from `now + retryAfter` on
        exactly if it has attempts left; otherwise it is over. */
    method Fail(id: Uuid, owner: string, attempt: int, code: ErrorCode, retryAfter: nat, now: Time) returns (r: Outcome<bool>)
      modifies connection`pending, connection`faults
      ensures r.Raised? ==> connection.pending == old(connection.pending) && connection.faults > old(connection.faults)
      ensures r.Value? ==>
                && connection.faults == old(connection.faults)
                && (r.value <==> id in old(connection.pending).jobs && Live(old(connection.pending).jobs[id], owner, attempt, now))
                && connection.pending ==
                   Or(JobSql.Fail(old(connection.pending), id, owner, attempt, code, retryAfter, now), old(connection.pending))
      ensures r == Value(true) ==>
                && OnlyJob(old(connection.pending), connection.pending, id)
                && ReleasedWith(old(connection.pending).jobs[id], connection.pending.jobs[id], code, retryAfter, now)
    {
      var broken := connection.Breaks();
      if broken { return Raised; }
      var t := connection.pending;
      var done := id in t.jobs && Live(t.jobs[id], owner, attempt, now);
      if done {
        var j := t.jobs[id];
        var again := j.attempts < j.maxAttempts;
        connection.pending := t.(jobs := t.jobs[id := j.(
          status := if again then Retry else JobStatus.Failed,
          availableAt := if again then now + retryAfter else j.availableAt,
          leaseOwner := None, leaseExpiresAt := None, heartbeatAt := None,
          finishedAt := if again then None else Some(now),
          errorCode := Some(if again then code else AttemptsExhausted), errorDetail := None, updatedAt := now)]);
      }
      return Value(done);
    }

    /** Afterwards no lease is expired at `now`; each that was is released as by `Fail`, and every
        other row is as before. */
    method RecoverExpired(retryAfter: nat, now: Time) returns (r: Outcome<()>)
      modifies connection`pending, connection`faults
      ensures r.Raised? ==> connection.pending == old(connection.pending) && connection.faults > old(connection.faults)
      ensures r.Value? ==> connection.faults == old(connection.faults)
                           && connection.pending == JobSql.RecoverExpired(old(connection.pending), retryAfter, now)
      ensures r.Value? ==> forall id | id in old(connection.pending).jobs ::
                && id in connection.pending.jobs && !Expired(connection.pending.jobs[id], now)
                && if Expired(old(connection.pending).jobs[id], now)
                   then ReleasedWith(old(connection.pending).jobs[id], connection.pending.jobs[id], DependencyUnavailable, retryAfter, now)
                   else connection.pending.jobs[id] == old(connection.pending).jobs[id]
    {
      var broken := connection.Breaks();
      if broken { return Raised; }
      var t := connection.pending;
      var jobs := RecoverRows(t.jobs, retryAfter, now);
      connection.pending := t.(jobs := jobs);
      forall id | id in t.jobs && Expired(t.jobs[id], now)
        ensures ReleasedWith(t.jobs[id], jobs[id], DependencyUnavailable, retryAfter, now) && !Expired(jobs[id], now)
      {
        ReleasedIs(t.jobs[id], DependencyUnavailable, retryAfter, now);
      }
      return Value(());
    }
  }

  /** The bulk update of expired leases, row by row. */
  method RecoverRows(jobs: map<Uuid, Job>, retryAfter: nat, now: Time) returns (r: map<Uuid, Job>)
    ensures r == map id | id in jobs ::
                   if Expired(jobs[id], now) then Released(jobs[id], DependencyUnavailable, retryAfter, now) else jobs[id]
  {
    r := map[];
    var rest := jobs.Keys;
    while rest != {}
      invariant rest <= jobs.Keys && r.Keys == jobs.Keys - rest
      invariant forall id | id in r ::
                  r[id] == if Expired(jobs[id], now) then Released(jobs[id], DependencyUnavailable, retryAfter, now)
                           else jobs[id]
      decreases |rest|
    {
      ghost var some := Pick(rest);
      var id :| id in rest;
      rest := rest - {id};
      var j := RecoverRow(jobs[id], retryAfter, now);
      r := r[id := j];
    }
  }

  /** The CASE expressions of the recovery, for one row. */
  method RecoverRow(j: Job, retryAfter: nat, now: Time) returns (j': Job)
    ensures j' == if Expired(j, now) then Released(j, DependencyUnavailable, retryAfter, now) else j
  {
    if !j.status.Running? || j.leaseExpiresAt.None? || j.leaseExpiresAt.value > now { return j; }
    var again := j.attempts < j.maxAttempts;
    j' := j.(status := if again then Retry else JobStatus.Failed,
             availableAt := if again then now + retryAfter else j.availableAt,
             leaseOwner := None, leaseExpiresAt := None, heartbeatAt := None,
             finishedAt := if again then None else Some(now),
             errorCode := Some(if again then DependencyUnavailable else AttemptsExhausted),
             errorDetail := None, updatedAt := now);
  }

  // ----- the bulk insert

  /** An id generated for a selected document is the id of a job, or of another selected document. */
  ghost predicate IdsTaken(t: Tables, ws: Uuid, newId: Uuid -> Uuid) {
    exists d :: NeedsReindexJob(t, ws, d) && IdTaken(t, ws, newId, d)
  }

  ghost predicate IdTaken(t: Tables, ws: Uuid, newId: Uuid -> Uuid, d: Uuid) {
    newId(d) in t.jobs || exists e :: e != d && NeedsReindexJob(t, ws, e) && newId(e) == newId(d)
  }

  /** Distinct unused ids for the selected documents outside `rest`. */
  ghost predicate FreshOutside(t: Tables, ws: Uuid, newId: Uuid -> Uuid, ids: map<Uuid, Uuid>, rest: set<Uuid>) {
    && (forall i {:trigger ids[i]} | i in ids ::
          i !in t.jobs && ids[i] !in rest && NeedsReindexJob(t, ws, ids[i]) && newId(ids[i]) == i)
    && (forall d {:trigger NeedsReindexJob(t, ws, d)} |
          d in t.documents && d !in rest && NeedsReindexJob(t, ws, d) :: d in ids.Values)
  }

  lemma AddId(t: Tables, ws: Uuid, newId: Uuid -> Uuid, ids: map<Uuid, Uuid>, rest: set<Uuid>, id: Uuid)
    requires FreshOutside(t, ws, newId, ids, rest + {id}) && newId(id) !in t.jobs && newId(id) !in ids
    requires id !in rest && NeedsReindexJob(t, ws, id)
    ensures FreshOutside(t, ws, newId, ids[newId(id) := id], rest)
  {
    var ids' := ids[newId(id) := id];
    forall d | d in t.documents && d !in rest && NeedsReindexJob(t, ws, d) ensures d in ids'.Values {
      if d == id {
        assert ids'[newId(id)] == d;
      } else {
        var i :| i in ids && ids[i] == d;
        assert ids'[i] == d;
      }
    }
  }

  /** The SELECT of the bulk insert, row by row; `None` when a generated id is taken. */
  method SelectForReindex(t: Tables, ws: Uuid, newId: Uuid -> Uuid) returns (r: Option<map<Uuid, Uuid>>)
    ensures r.Some? ==> FreshIdsFor(t, ws, r.value)
    ensures r.None? ==> IdsTaken(t, ws, newId)
  {
    var ids: map<Uuid, Uuid> := map[];
    var rest := t.documents.Keys;
    while rest != {}
      invariant rest <= t.documents.Keys && FreshOutside(t, ws, newId, ids, rest)
      decreases |rest|
    {
      ghost var some := Pick(rest);
      var id :| id in rest;
      assert rest == rest - {id} + {id};
      rest := rest - {id};
      var selected := IsSelected(t, ws, id);
      if selected {
        if newId(id) in t.jobs || newId(id) in ids {
          assert IdTaken(t, ws, newId, id) by {
            if newId(id) in ids { assert NeedsReindexJob(t, ws, ids[newId(id)]); }
          }
          return None;
        }
        AddId(t, ws, newId, ids, rest, id);
        ids := ids[newId(id) := id];
      }
    }
    return Some(ids);
  }

  /** The joins and conditions of the SELECT, and its NOT EXISTS. */
  method IsSelected(t: Tables, ws: Uuid, id: Uuid) returns (selected: bool)
    requires id in t.documents
    ensures selected <==> NeedsReindexJob(t, ws, id)
  {
    var d := t.documents[id];
    if d.workspace != ws || ws !in t.workspaces || !t.workspaces[ws].isActive || !d.status.Ready? { return false; }
    if d.active.None? || d.active.value !in d.revisions || !d.revisions[d.active.value].requiresReindex { return false; }
    var rest := t.jobs.Keys;
    while rest != {}
      invariant rest <= t.jobs.Keys
      invariant forall i | i in t.jobs && i !in rest :: t.jobs[i].document != id || !Active(t.jobs[i])
      decreases |rest|
    {
      ghost var some := Pick(rest);
      var i :| i in rest;
      rest := rest - {i};
      if t.jobs[i].document == id && Active(t.jobs[i]) { return false; }
    }
    return true;
  }

  ghost predicate NothingToReindex(t: Tables, ws: Uuid) {
    forall d :: !NeedsReindexJob(t, ws, d)
  }

  /** After the insert every selected document has its job. */
  lemma NoneLeft(t: Tables, ws: Uuid, ids: map<Uuid, Uuid>, now: Time)
    requires FreshIdsFor(t, ws, ids)
    ensures NothingToReindex(JobSql.CreateWorkspaceReindex(t, ids, now), ws)
  {
    forall d ensures !NeedsReindexJob(JobSql.CreateWorkspaceReindex(t, ids, now), ws, d) {
      Covered(t, ws, ids, now, d);
    }
  }

  lemma Covered(t: Tables, ws: Uuid, ids: map<Uuid, Uuid>, now: Time, d: Uuid)
    requires FreshIdsFor(t, ws, ids)
    ensures HasActiveJob(t, d) || NeedsReindexJob(t, ws, d) ==>
              HasActiveJob(JobSql.CreateWorkspaceReindex(t, ids, now), d)
  {
    if HasActiveJob(t, d) {
      var i :| i in t.jobs && t.jobs[i].document == d && Active(t.jobs[i]);
      KeptJob(t, ids, now, i);
    } else if NeedsReindexJob(t, ws, d) {
      var i :| i in ids && ids[i] == d;
      NewReindexJob(t, ws, ids, now, i);
    }
  }

  lemma KeptJob(t: Tables, ids: map<Uuid, Uuid>, now: Time, i: Uuid)
    requires i in t.jobs && i !in ids && Active(t.jobs[i])
    ensures HasActiveJob(JobSql.CreateWorkspaceReindex(t, ids, now), t.jobs[i].document)
  {
    var t' := JobSql.CreateWorkspaceReindex(t, ids, now);
    assert i in t'.jobs && t'.jobs[i] == t.jobs[i];
  }

  lemma NewReindexJob(t: Tables, ws: Uuid, ids: map<Uuid, Uuid>, now: Time, i: Uuid)
    requires i in ids && NeedsReindexJob(t, ws, ids[i])
    ensures HasActiveJob(JobSql.CreateWorkspaceReindex(t, ids, now), ids[i])
  {
    var t' := JobSql.CreateWorkspaceReindex(t, ids, now);
    assert i in t'.jobs && t'.jobs[i].document == ids[i] && Active(t'.jobs[i]);
  }

  // ----- the order of claims

  /** A scan that keeps the first row seen so far finds the first of all. */
  method FirstAvailable(t: Tables, now: Time, locked: set<Uuid>) returns (r: Option<Uuid>)
    ensures r.None? ==> forall id | id in t.jobs && id !in locked :: !Claimable(t.jobs[id], now)
    ensures r.Some? ==> IsCandidate(t, r.value, now, locked) && First(t, r.value, now, locked)
  {
    r := None;
    var rest := t.jobs.Keys;
    while rest != {}
      invariant rest <= t.jobs.Keys
      invariant r.Some? ==> r.value in t.jobs && r.value !in locked && Claimable(t.jobs[r.value], now)
      invariant forall id | id in t.jobs && id !in rest && id !in locked && Claimable(t.jobs[id], now) ::
                  r.Some? && (id == r.value || ClaimedBefore(t, r.value, id))
      decreases |rest|
    {
      ghost var some := Pick(rest);
      var id :| id in rest;
      rest := rest - {id};
      if id !in locked && Claimable(t.jobs[id], now) && (r.None? || ClaimedBefore(t, id, r.value)) {
        ghost var before := r;
        r := Some(id);
        forall other | other in t.jobs && other !in rest && other !in locked && Claimable(t.jobs[other], now)
          ensures other == id || ClaimedBefore(t, id, other)
        {
          if before.Some? { ClaimOrder(t, id, before.value, other); }
        }
      } else if r.Some? {
        ClaimOrder(t, r.value, id, id);
      }
    }
    if r.Some? { CandidateIsFirst(t, r.value, now, locked); }
  }

  class DocumentRepository {
    const connection: Connection

    constructor (connection: Connection)
      ensures this.connection == connection
    {
      this.connection := connection;
    }

    /** `get`: the document in this workspace, when the revision it stands at exists. */
    method Get(ws: Uuid, id: Uuid) returns (r: Outcome<Option<Document>>)
      modifies connection`faults
      ensures r.Raised? ==> connection.faults > old(connection.faults)
      ensures r.Value? ==>
                && connection.faults == old(connection.faults)
                && (r.value.Some? <==> id in connection.pending.documents && connection.pending.documents[id].workspace == ws
                                       && CurrentRevision(connection.pending.documents[id]).Some?)
                && (r.value.Some? ==> r.value.value == connection.pending.documents[id])
    {
      var broken := connection.Breaks();
      var t := connection.pending;
      if broken { return Raised; }
      if id !in t.documents || t.documents[id].workspace != ws || CurrentRevision(t.documents[id]).None? {
        return Value(None);
      }
      return Value(Some(t.documents[id]));
    }

    /** `get_revision`: the document, when it has this revision. */
    method GetRevision(ws: Uuid, id: Uuid, revision: int) returns (r: Outcome<Option<Document>>)
      modifies connection`faults
      ensures r.Raised? ==> connection.faults > old(connection.faults)
      ensures r.Value? ==>
                && connection.faults == old(connection.faults)
                && (r.value.Some? <==> id in connection.pending.documents && connection.pending.documents[id].workspace == ws
                                       && revision in connection.pending.documents[id].revisions)
                && (r.value.Some? ==> r.value.value == connection.pending.documents[id])
    {
      var broken := connection.Breaks();
      var t := connection.pending;
      if broken { return Raised; }
      if id !in t.documents || t.documents[id].workspace != ws || revision !in t.documents[id].revisions {
        return Value(None);
      }
      return Value(Some(t.documents[id]));
    }

    /** The workspace of a document, looked up by id alone. */
    method WorkspaceId(id: Uuid) returns (r: Outcome<Option<Uuid>>)
      modifies connection`faults
      ensures r.Raised? ==> connection.faults > old(connection.faults)
      ensures r.Value? ==>
                && connection.faults == old(connection.faults)
                && r.value == if id in connection.pending.documents then Some(connection.pending.documents[id].workspace) else None
    {
      var broken := connection.Breaks();
      var t := connection.pending;
      if broken { return Raised; }
      return Value(if id in t.documents then Some(t.documents[id].workspace) else None);
    }

    /** `lock_for_upsert`: the document in this workspace, or an error when it is in another one. */
    method LockForUpsert(ws: Uuid, id: Uuid) returns (r: Outcome<Option<Document>>)
      modifies connection`faults
      ensures connection.faults >= old(connection.faults)
      ensures r.Raised? ==>
                || connection.faults > old(connection.faults)
                || (id in connection.pending.documents
                    && (connection.pending.documents[id].workspace != ws
                        || CurrentRevision(connection.pending.documents[id]).None?))
      ensures r.Value? ==> connection.faults == old(connection.faults)
      ensures r.Value? && r.value.Some? ==>
                id in connection.pending.documents && r.value.value == connection.pending.documents[id]
                && r.value.value.workspace == ws && CurrentRevision(r.value.value).Some?
      ensures r.Value? && r.value.None? ==> id !in connection.pending.documents
    {
      var broken := connection.Breaks();
      var t := connection.pending;
      if broken { return Raised; }
      if id !in t.documents { return Value(None); }
      if t.documents[id].workspace != ws || CurrentRevision(t.documents[id]).None? {
        return Raised; // the document belongs to another workspace
      }
      return Value(Some(t.documents[id]));
    }

    method Create(ws: Uuid, id: Uuid, source: Source, now: Time) returns (r: Outcome<()>)
      modifies connection`pending, connection`faults
      ensures connection.faults >= old(connection.faults)
      ensures r.Raised? ==> connection.pending == old(connection.pending)
      ensures r.Raised? ==> connection.faults > old(connection.faults)
                            || DocumentSql.Create(old(connection.pending), ws, id, source, now) == None
      ensures r.Value? ==> DocumentSql.Create(old(connection.pending), ws, id, source, now) == Some(connection.pending)
                           && connection.faults == old(connection.faults)
    {
      var broken := connection.Breaks();
      var t := connection.pending;
      if broken || id in t.documents || ws !in t.workspaces { return Raised; }
      connection.pending := t.(documents := t.documents[
        id := Document(ws, Uploaded, None, map[1 := NewRevision(source, now)])]);
      return Value(());
    }

    /** The first half of `add_revision`: locks the row and numbers the next revision. */
    method NextRevision(ws: Uuid, id: Uuid) returns (r: Outcome<int>)
      modifies connection`faults
      ensures connection.faults >= old(connection.faults)
      ensures r.Raised? ==>
                || connection.faults > old(connection.faults) || id !in connection.pending.documents
                || connection.pending.documents[id].workspace != ws
      ensures r.Value? ==> connection.faults == old(connection.faults)
      ensures r.Value? ==> id in connection.pending.documents && connection.pending.documents[id].workspace == ws
                           && r.value == MaxRevision(connection.pending.documents[id]) + 1
    {
      var broken := connection.Breaks();
      var t := connection.pending;
      if broken || id !in t.documents || t.documents[id].workspace != ws { return Raised; }
      return Value(MaxRevision(t.documents[id]) + 1);
    }

    /** The second half of `add_revision`, after the source bytes are stored. */
    method InsertRevision(ws: Uuid, id: Uuid, revision: int, source: Source, now: Time) returns (r: Outcome<()>)
      requires id in connection.pending.documents && connection.pending.documents[id].workspace == ws
      requires revision == MaxRevision(connection.pending.documents[id]) + 1
      modifies connection`pending, connection`faults
      ensures r.Raised? ==> connection.pending == old(connection.pending) && connection.faults > old(connection.faults)
      ensures r.Value? ==> AddRevision(old(connection.pending), ws, id, source, now) == Some(connection.pending)
                           && connection.faults == old(connection.faults)
    {
      var broken := connection.Breaks();
      var t := connection.pending;
      if broken { return Raised; }
      var d := t.documents[id];
      connection.pending := t.(documents := t.documents[
        id := d.(revisions := d.revisions[revision := NewRevision(source, now)])]);
      return Value(());
    }

    method TransitionStatus(ws: Uuid, id: Uuid, from: DocumentStatus, to: DocumentStatus) returns (r: Outcome<()>)
      modifies connection`pending, connection`faults
      ensures connection.faults >= old(connection.faults)
      ensures r.Raised? ==> connection.pending == old(connection.pending)
      ensures r.Raised? ==> connection.faults > old(connection.faults)
                            || DocumentSql.TransitionStatus(old(connection.pending), ws, id, from, to) == None
      ensures r.Value? ==> DocumentSql.TransitionStatus(old(connection.pending), ws, id, from, to) == Some(connection.pending)
                           && connection.faults == old(connection.faults)
    {
      var broken := connection.Breaks();
      var t := connection.pending;
      if broken || id !in t.documents { return Raised; }
      var d := t.documents[id];
      if d.workspace != ws || d.status != from || CurrentRevision(d).None? {
        return Raised; // no row returned: the caller raises
      }
      if to.Ready? { d := d.(active := CurrentRevision(d)); }
      connection.pending := t.(documents := t.documents[id := d.(status := to)]);
      return Value(());
    }

    /** The fence of the worker's statements. */
    method HoldsLease(job: Uuid, owner: string, attempt: int, now: Time) returns (held: bool)
      ensures held <==> job in connection.pending.jobs && Live(connection.pending.jobs[job], owner, attempt, now)
    {
      var t := connection.pending;
      if job !in t.jobs { return false; }
      var j := t.jobs[job];
      held := j.status.Running? && j.leaseOwner == Some(owner) && j.attempts == attempt
              && j.leaseExpiresAt.Some? && j.leaseExpiresAt.value > now;
    }

    /** The worker's transition: the row it returns is missing when the fence or the state is wrong. */
    method TransitionStatusForJob(ws: Uuid, id: Uuid, from: DocumentStatus, to: DocumentStatus,
                                  job: Uuid, owner: string, attempt: int, now: Time) returns (r: Outcome<Option<Document>>)
      modifies connection`pending, connection`faults
      ensures r.Raised? ==> connection.pending == old(connection.pending) && connection.faults == old(connection.faults) + 1
      ensures r.Value? ==> connection.faults == old(connection.faults)
      ensures r == Value(None) ==>
                && connection.pending == old(connection.pending)
                && DocumentSql.TransitionStatusForJob(old(connection.pending), ws, id, from, to, job, owner, attempt, now) == None
      ensures r.Value? && r.value.Some? ==>
                && DocumentSql.TransitionStatusForJob(old(connection.pending), ws, id, from, to, job, owner, attempt, now)
                   == Some(connection.pending)
                && id in connection.pending.documents && r.value.value == connection.pending.documents[id]
    {
      var broken := connection.Breaks();
      if broken { return Raised; }
      var t := connection.pending;
      var held := HoldsLease(job, owner, attempt, now);
      if !held || id !in t.documents { return Value(None); }
      var d, j := t.documents[id], t.jobs[job];
      if d.workspace != ws || d.status != from || j.document != id || j.revision !in d.revisions {
        return Value(None);
      }
      d := d.(status := to);
      if to.Ready? { d := d.(active := Some(j.revision)); }
      connection.pending := t.(documents := t.documents[id := d]);
      return Value(Some(d));
    }

    /** The job half of the completion statements: the attempt's row, if the fence lets it pass. */
    method FindAttempt(id: Uuid, revision: int, job: Uuid, owner: string, attempt: int, now: Time) returns (found: bool)
      ensures found <==> OwnsAttempt(connection.pending, id, revision, job, owner, attempt, now)
    {
      found := HoldsLease(job, owner, attempt, now);
      if found {
        var j := connection.pending.jobs[job];
        found := j.document == id && j.revision == revision;
      }
    }

    method FinishJob(job: Uuid, now: Time)
      requires job in connection.pending.jobs
      modifies connection`pending
      ensures connection.pending == CompleteJob(old(connection.pending), job, now)
    {
      var t := connection.pending;
      connection.pending := t.(jobs := t.jobs[job := t.jobs[job].(
        status := Succeeded, leaseOwner := None, leaseExpiresAt := None, heartbeatAt := None,
        finishedAt := Some(now), updatedAt := now)]);
    }

    method CompleteReplacement(ws: Uuid, id: Uuid, revision: int, job: Uuid, owner: string, attempt: int, now: Time)
      returns (r: Outcome<bool>)
      modifies connection`pending, connection`faults
      ensures r.Raised? ==> connection.pending == old(connection.pending) && connection.faults > old(connection.faults)
      ensures r.Value? ==>
                && connection.faults == old(connection.faults)
                && (connection.pending, r.value) ==
                   DocumentSql.CompleteReplacement(old(connection.pending), ws, id, revision, job, owner, attempt, now)
    {
      var broken := connection.Breaks();
      if broken { return Raised; }
      var t := connection.pending;
      var passed := FindAttempt(id, revision, job, owner, attempt, now);
      if !passed { return Value(false); }
      FinishJob(job, now);
      if id !in t.documents || t.documents[id].workspace != ws || !t.documents[id].status.Updating?
         || revision !in t.documents[id].revisions {
        return Value(false); // the job row is updated all the same
      }
      var d := t.documents[id].(active := Some(revision), status := Ready);
      connection.pending := connection.pending.(documents := t.documents[id := d]);
      return Value(true);
    }

    method CompleteDeletion(ws: Uuid, id: Uuid, revision: int, job: Uuid, owner: string, attempt: int, now: Time)
      returns (r: Outcome<bool>)
      modifies connection`pending, connection`faults
      ensures r.Raised? ==> connection.pending == old(connection.pending) && connection.faults > old(connection.faults)
      ensures r.Value? ==>
                && connection.faults == old(connection.faults)
                && (connection.pending, r.value) ==
                   DocumentSql.CompleteDeletion(old(connection.pending), ws, id, revision, job, owner, attempt, now)
    {
      var broken := connection.Breaks();
      if broken { return Raised; }
      var t := connection.pending;
      var passed := FindAttempt(id, revision, job, owner, attempt, now);
      if !passed || !t.jobs[job].kind.DeleteDocument? || id !in t.documents { return Value(false); }
      var d := t.documents[id];
      if d.workspace != ws || !d.status.Deleting? || d.active != Some(revision) || revision !in d.revisions {
        return Value(false);
      }
      FinishJob(job, now);
      connection.pending := connection.pending.(documents := t.documents[id := d.(status := Deleted)]);
      return Value(true);
    }

    method CompleteReindex(ws: Uuid, id: Uuid, revision: int, job: Uuid, owner: string, attempt: int,
                           indexVersion: int, now: Time) returns (r: Outcome<bool>)
      modifies connection`pending, connection`faults
      ensures r.Raised? ==> connection.pending == old(connection.pending) && connection.faults > old(connection.faults)
      ensures r.Value? ==>
                && connection.faults == old(connection.faults)
                && (connection.pending, r.value) ==
                   DocumentSql.CompleteReindex(old(connection.pending), ws, id, revision, job, owner, attempt, indexVersion, now)
    {
      var broken := connection.Breaks();
      if broken { return Raised; }
      var t := connection.pending;
      var passed := FindAttempt(id, revision, job, owner, attempt, now);
      if !passed || !t.jobs[job].kind.ReindexDocument? || id !in t.documents { return Value(false); }
      var d := t.documents[id];
      if d.workspace != ws || !d.status.Ready? || d.active != Some(revision) || revision !in d.revisions
         || !d.revisions[revision].requiresReindex {
        return Value(false);
      }
      FinishJob(job, now);
      var rebuilt := d.revisions[revision].(parserVersion := PARSER_VERSION, chunkVersion := CHUNK_SCHEMA_VERSION,
                                            indexVersion := indexVersion, requiresReindex := false);
      connection.pending := connection.pending.(documents := t.documents[
        id := d.(revisions := d.revisions[revision := rebuilt])]);
      return Value(true);
    }
  }

  class WorkspaceRepository {
    const connection: Connection

    constructor (connection: Connection)
      ensures this.connection == connection
    {
      this.connection := connection;
    }

    /** Takes the row lock, and returns the row as it will be; a missing workspace is no error. */
    method EnsureIndexContract(ws: Uuid, c: Contract) returns (r: Outcome<Option<Workspace>>)
      modifies connection`pending, connection`own, connection`faults
      ensures r.Raised? ==> connection.pending == old(connection.pending) && connection.own == old(connection.own)
                            && connection.faults > old(connection.faults)
      ensures r.Value? ==>
                && connection.faults == old(connection.faults)
                && connection.pending == Or(DocumentSql.EnsureIndexContract(old(connection.pending), ws, c), old(connection.pending))
                && r.value == (if ws in connection.pending.workspaces then Some(connection.pending.workspaces[ws]) else None)
                && connection.own == if ws in old(connection.pending).workspaces
                                     then Some(ContractWrite(ws, c, Marks(old(connection.pending), ws, c)))
                                     else old(connection.own)
      ensures r.Value? ==> ContractEnsured(old(connection.pending), connection.pending, ws, c)
      ensures r.Value? && r.value.Some? ==>
                && ws in old(connection.pending).workspaces && connection.own.Some?
                && MarksAre(old(connection.pending), ws, c, connection.own.value.marks)
    {
      var broken := connection.Breaks();
      var t := connection.pending;
      if broken { return Raised; }
      EnsureIndexContractIs(t, ws, c);
      if ws !in t.workspaces { return Value(None); }
      var marks: map<Uuid, int> := map[];
      if t.workspaces[ws].contract != c {
        marks := map id | id in t.documents && t.documents[id].workspace == ws && !t.documents[id].status.Deleted?
                          && t.documents[id].active.Some? :: t.documents[id].active.value;
        connection.pending := ApplyContract(t, ws, c, marks);
      } else {
        assert ApplyContract(t, ws, c, map[]) == t by {
          assert ApplyContract(t, ws, c, map[]).workspaces == t.workspaces;
          assert ApplyContract(t, ws, c, map[]).documents == t.documents;
        }
      }
      connection.own := Some(ContractWrite(ws, c, marks));
      return Value(Some(connection.pending.workspaces[ws]));
    }
  }
}
