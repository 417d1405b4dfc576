/** The reindex request and the immutability of revision rows. */
module Maintenance {
  import opened Entities
  import opened JobSql
  import opened DocumentSql
  import opened TableInvariant
  import opened Protocol
  import opened ProtocolInvariant
  import opened ProtocolSteps
  import opened ProtocolTheorems
  import ApiSpec
  import SourceService

  ghost predicate WantsReindex(t: Tables, ws: Uuid, d: Uuid) {
    && d in t.documents && t.documents[d].workspace == ws && ws in t.workspaces && t.workspaces[ws].isActive
    && t.documents[d].status.Ready? && t.documents[d].active.Some?
    && t.documents[d].active.value in t.documents[d].revisions
    && t.documents[d].revisions[t.documents[d].active.value].requiresReindex
  }

  /** A document that wants a reindex and is not covered yet gets one of the new jobs. */
  lemma BulkInsertCovers(t: Tables, ws: Uuid, ids: map<Uuid, Uuid>, now: Time, d: Uuid)
    requires TablesOk(t) && FreshIdsFor(t, ws, ids) && WantsReindex(t, ws, d)
    ensures HasActiveJob(CreateWorkspaceReindex(t, ids, now), d)
  {
    var t' := CreateWorkspaceReindex(t, ids, now);
    if HasActiveJob(t, d) {
      var i :| i in t.jobs && t.jobs[i].document == d && Active(t.jobs[i]);
      assert i in t'.jobs && t'.jobs[i] == t.jobs[i];
    } else {
      assert NeedsReindexJob(t, ws, d);
      assert d in ids.Values;
      var i :| i in ids && ids[i] == d;
      assert i in t'.jobs && t'.jobs[i].document == d && Active(t'.jobs[i]);
    }
  }

  /** After a request commits, each ready document with a flagged active revision has exactly one
      active job, and the contract is in force. */
  lemma EnqueueIsExact(t: Tables, ws: Uuid, c: Contract, ids: map<Uuid, Uuid>, now: Time, d: Uuid)
    requires TablesOk(t) && FreshIdsFor(ApiSpec.Reconciled(t, ws, c), ws, ids)
    ensures
      var t' := ApiSpec.Enqueue(t, ws, c, ids, now);
      && OneActiveJob(t') && (WantsReindex(t', ws, d) ==> HasActiveJob(t', d))
      && (ws in t.workspaces ==> t'.workspaces[ws].contract == c)
  {
    EnqueueKeeps(t, ws, c, ids, now);
    ReconciledKeeps(t, ws, c);
    var t1 := ApiSpec.Reconciled(t, ws, c);
    if WantsReindex(t1, ws, d) { BulkInsertCovers(t1, ws, ids, now, d); }
  }

  /** Every job the request adds reindexes the active revision of a document that wants it. */
  lemma EnqueueAddsOnlyReindexJobs(t: Tables, ws: Uuid, c: Contract, ids: map<Uuid, Uuid>, now: Time, i: Uuid)
    requires TablesOk(t) && FreshIdsFor(ApiSpec.Reconciled(t, ws, c), ws, ids)
    requires i in ApiSpec.Enqueue(t, ws, c, ids, now).jobs && i !in t.jobs
    ensures
      var t' := ApiSpec.Enqueue(t, ws, c, ids, now);
      && t'.jobs[i].kind.ReindexDocument? && WantsReindex(t', ws, t'.jobs[i].document)
      && t'.documents[t'.jobs[i].document].active == Some(t'.jobs[i].revision)
  {
    var t1 := ApiSpec.Reconciled(t, ws, c);
    assert t1.jobs == t.jobs;
    assert NeedsReindexJob(t1, ws, ids[i]);
  }

  /** An immediate second request with the same contract selects nothing and changes nothing. */
  lemma EnqueueIsIdempotent(t: Tables, ws: Uuid, c: Contract, ids: map<Uuid, Uuid>, ids': map<Uuid, Uuid>, now: Time, later: Time)
    requires TablesOk(t) && FreshIdsFor(ApiSpec.Reconciled(t, ws, c), ws, ids)
    requires FreshIdsFor(ApiSpec.Reconciled(ApiSpec.Enqueue(t, ws, c, ids, now), ws, c), ws, ids')
    ensures ids' == map[]
    ensures ApiSpec.Enqueue(ApiSpec.Enqueue(t, ws, c, ids, now), ws, c, ids', later) == ApiSpec.Enqueue(t, ws, c, ids, now)
  {
    var t' := ApiSpec.Enqueue(t, ws, c, ids, now);
    EnqueueIsExact(t, ws, c, ids, now, 0);
    ReconcilingAgainIsIdentity(t', ws, c);
    if i :| i in ids' {
      EnqueueIsExact(t, ws, c, ids, now, ids'[i]);
      assert NeedsReindexJob(t', ws, ids'[i]) ==> WantsReindex(t', ws, ids'[i]);
    }
    EmptyBulkInsert(t', later);
  }

  lemma EmptyBulkInsert(t: Tables, now: Time)
    ensures CreateWorkspaceReindex(t, map[], now) == t
  {
    assert CreateWorkspaceReindex(t, map[], now).jobs == t.jobs;
  }

  lemma ReconcilingAgainIsIdentity(t: Tables, ws: Uuid, c: Contract)
    requires ws in t.workspaces ==> t.workspaces[ws].contract == c
    ensures ApiSpec.Reconciled(t, ws, c) == t
  {
    if ws in t.workspaces {
      var t' := ApplyContract(t, ws, c, map[]);
      assert t'.workspaces == t.workspaces;
      assert t'.documents == t.documents;
    }
  }

  /** What the service commits while nobody holds the workspace row is the protocol's step. */
  lemma EnqueuedIsStep(s: Sys, t': Tables, ws: Uuid, c: Contract, ids: map<Uuid, Uuid>, now: Time)
    requires SourceService.Enqueued(s.t, t', ws, c, ids, now) && ws !in s.locks
    ensures Enabled(s, Enqueue(ws, c, ids, now)) && Apply(s, Enqueue(ws, c, ids, now)) == s.(t := t')
  {}

  // ----- the revision trigger

  ghost predicate RevisionsGuarded(t: Tables, t': Tables) {
    forall d, k | d in t.documents && k in t.documents[d].revisions ::
      d in t'.documents && k in t'.documents[d].revisions
      && TriggerAllows(t.documents[d].revisions[k], t'.documents[d].revisions[k])
  }

  lemma ContractChangeIsGuarded(t: Tables, w: Uuid, c: Contract, marks: map<Uuid, int>)
    requires w in t.workspaces
    ensures RevisionsGuarded(t, ApplyContract(t, w, c, marks))
  {
    forall d, k | d in t.documents && k in t.documents[d].revisions
      ensures TriggerAllows(t.documents[d].revisions[k], ApplyContract(t, w, c, marks).documents[d].revisions[k])
    {
      ApplyContractRow(t, w, c, marks, d);
    }
  }

  lemma CompletionIsGuarded(t: Tables, run: Run, now: Time)
    requires run.phase.Holding?
    ensures RevisionsGuarded(t, CompletePlan(t, run, now).0)
  {}

  /** Every UPDATE of every statement passes the trigger, so no step is refused by it: sources
      and hashes never change, and version columns change only when a flag is cleared. */
  lemma EveryUpdatePassesTheTrigger(s: Sys, l: Label)
    requires SysOk(s) && Enabled(s, l) && !l.CommitPlan?
    ensures RevisionsGuarded(s.t, Apply(s, l).t)
  {
    if RunOf(l).Some? || l.Recover? || l.Claim? {
      RunLeavesRevisionRows(s, l);
    } else {
      ApiPassesTheTrigger(s, l);
    }
  }

  lemma ReplaceIsGuarded(t: Tables, ws: Uuid, doc: Uuid, source: Source, job: Uuid, now: Time)
    requires TablesOk(t) && ApiSpec.Replace(t, ws, doc, source, job, now).Some?
    ensures RevisionsGuarded(t, ApiSpec.Replace(t, ws, doc, source, job, now).value)
  {
    ReplaceResult(t, ws, doc, source, job, now);
    var n := t.documents[doc].active.value;
    assert DocumentOk(t, t.documents[doc]);
    assert n + 1 !in t.documents[doc].revisions;
  }

  lemma ApiPassesTheTrigger(s: Sys, l: Label)
    requires SysOk(s) && Enabled(s, l) && IsApi(l)
    ensures RevisionsGuarded(s.t, Apply(s, l).t)
  {
    if l.Enqueue? {
      if l.ws in s.t.workspaces { ContractChangeIsGuarded(s.t, l.ws, l.contract, Marks(s.t, l.ws, l.contract)); }
    } else if l.Replace? {
      ReplaceIsGuarded(s.t, l.ws, l.doc, l.source, l.job, l.now);
    }
  }

  lemma RunLeavesRevisionRows(s: Sys, l: Label)
    requires Enabled(s, l) && !l.CommitPlan? && (RunOf(l).Some? || l.Recover? || l.Claim?)
    ensures RevisionsGuarded(s.t, Apply(s, l).t)
  {
    if IsMove(l) {
      MoveShape(s, l);
    } else if IsLocal(l) {
      LocalShape(s, l);
    } else {
      JobStepShape(s, l);
    }
  }

  /** A commit updates revision rows twice, first to mark them and then to clear one mark. */
  lemma CommitPassesTheTrigger(t: Tables, run: Run, now: Time)
    requires run.phase.Holding? && WorkspaceOf(t, run) in t.workspaces
    ensures
      var t1 := ApplyContract(t, WorkspaceOf(t, run), run.phase.contract, run.phase.marks);
      RevisionsGuarded(t, t1) && RevisionsGuarded(t1, PlanEffect(t, run, now).0)
  {
    ContractChangeIsGuarded(t, WorkspaceOf(t, run), run.phase.contract, run.phase.marks);
    CompletionIsGuarded(ApplyContract(t, WorkspaceOf(t, run), run.phase.contract, run.phase.marks), run, now);
  }
}
