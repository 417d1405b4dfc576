/** Workspaces do not reach into each other: whatever a worker run or an API call does, it changes rows
    of its own workspace only. And what the commits of a run write there. */
module Isolation {
  import opened Entities
  import opened JobSql
  import opened DocumentSql
  import opened TableInvariant
  import opened Protocol
  import opened ProtocolInvariant
  import opened ProtocolSteps
  import opened ProtocolTheorems
  import opened Progress
  import opened Obstacles
  import ApiSpec
  import Rows

  /** The marks of a run that holds the workspace row name documents of that workspace. */
  ghost predicate MarksInside(t: Tables, run: Run) {
    run.phase.Holding? ==>
      forall d | d in run.phase.marks :: d in t.documents && t.documents[d].workspace == WorkspaceOf(t, run)
  }

  ghost predicate AllInside(s: Sys) {
    forall r {:trigger MarksInside(s.t, s.runs[r])} | r in s.runs :: MarksInside(s.t, s.runs[r])
  }

  lemma {:induction false} AlwaysInside(trace: seq<Sys>, i: nat)
    requires Behaviour(trace) && i < |trace|
    ensures AllInside(trace[i])
  {
    if i > 0 {
      AlwaysInside(trace, i - 1);
      AlwaysOk(trace, i - 1);
      assert StepAt(trace, i);
      var l :| Enabled(trace[i - 1], l) && trace[i] == Apply(trace[i - 1], l);
      forall r | r in trace[i].runs ensures MarksInside(trace[i].t, trace[i].runs[r]) {
        StaysInside(trace[i - 1], l, r);
      }
    }
  }

  lemma StaysInside(s: Sys, l: Label, r: nat)
    requires SysOk(s) && AllInside(s) && Enabled(s, l) && r in Apply(s, l).runs
    ensures MarksInside(Apply(s, l).t, Apply(s, l).runs[r])
  {
    if r !in s.runs {
      NewRunIsReading(s, l, r);
    } else if l.Heartbeat? || RunOf(l) != Some(r) {
      RunUntouched(s, l, r);
      MarksStay(s, l, s.runs[r]);
    } else if l.Reconcile? {
      assert RunOk(s.t, s.runs[r]);
      FreshMarks(s, r, l.contract);
    } else {
      HoldsOnlyByReconciling(s, l, r);
    }
  }

  lemma NewRunIsReading(s: Sys, l: Label, r: nat)
    requires Enabled(s, l) && r in Apply(s, l).runs && r !in s.runs
    ensures Apply(s, l).runs[r].phase.Reading?
  {
    if RunOf(l).Some? && !l.Heartbeat? {
      if l.CommitPlan? { CommitMovesRun(s, l.run, l.now); } else { OwnRunMoves(s, l); }
    }
  }

  lemma MarksStay(s: Sys, l: Label, run: Run)
    requires SysOk(s) && Enabled(s, l) && MarksInside(s.t, run) && RunOk(s.t, run)
    ensures MarksInside(Apply(s, l).t, run)
  {
    if run.phase.Holding? {
      WorkspaceStays(s, l, run.snapshot.document);
      forall d | d in run.phase.marks
        ensures d in Apply(s, l).t.documents && Apply(s, l).t.documents[d].workspace == WorkspaceOf(Apply(s, l).t, run)
      {
        WorkspaceStays(s, l, d);
      }
    }
  }

  lemma FreshMarks(s: Sys, r: nat, c: Contract)
    requires Enabled(s, Reconcile(r, c)) && s.runs[r].snapshot.document in s.t.documents
    ensures MarksInside(ApplyReconcile(s, r, c).t, ApplyReconcile(s, r, c).runs[r])
  {}

  lemma HoldsOnlyByReconciling(s: Sys, l: Label, r: nat)
    requires Enabled(s, l) && RunOf(l) == Some(r) && !l.Heartbeat? && !l.Reconcile?
    ensures r in Apply(s, l).runs && !Apply(s, l).runs[r].phase.Holding?
  {
    if IsMove(l) { MovePhase(s, l, r); } else if l.CommitPlan? { CommitPhase(s, r, l.now); }
  }

  lemma MovePhase(s: Sys, l: Label, r: nat)
    requires Enabled(s, l) && IsMove(l) && RunOf(l) == Some(r)
    ensures r in Apply(s, l).runs && !Apply(s, l).runs[r].phase.Holding?
  {}

  lemma CommitPhase(s: Sys, r: nat, now: Time)
    requires Enabled(s, CommitPlan(r, now))
    ensures r in ApplyCommitPlan(s, r, now).runs && !ApplyCommitPlan(s, r, now).runs[r].phase.Holding?
  {}

  // ----- whose rows a step changes

  /** The workspace on whose behalf a step is made, if any. */
  function ScopeOf(s: Sys, l: Label): Option<Uuid> {
    if RunOf(l).Some? then
      if RunOf(l).value in s.runs then Some(WorkspaceOf(s.t, s.runs[RunOf(l).value])) else None
    else if l.Store? || l.Replace? || l.Delete? || l.Enqueue? then Some(l.ws)
    else None
  }

  /** In every reachable state a step changes documents and their revisions, and the row, of the one
      workspace it is made for, and of no other. */
  lemma StepStaysInWorkspace(s: Sys, l: Label, d: Uuid, w: Uuid)
    requires SysOk(s) && AllInside(s) && Enabled(s, l)
    ensures d in s.t.documents && ScopeOf(s, l) != Some(s.t.documents[d].workspace) ==>
              d in Apply(s, l).t.documents && Apply(s, l).t.documents[d] == s.t.documents[d]
    ensures w in s.t.workspaces && ScopeOf(s, l) != Some(w) ==>
              w in Apply(s, l).t.workspaces && Apply(s, l).t.workspaces[w] == s.t.workspaces[w]
  {
    if l.CommitPlan? {
      CommitStaysInside(s, l.run, l.now, d, w);
    } else if IsMove(l) {
      MoveStaysInside(s, l, d);
    } else if IsLocal(l) {
      LocalShape(s, l);
    } else if IsJobStep(l) {
      JobStepShape(s, l);
    } else {
      ApiStaysInside(s, l, d, w);
    }
  }

  lemma CommitStaysInside(s: Sys, r: nat, now: Time, d: Uuid, w: Uuid)
    requires SysOk(s) && AllInside(s) && Enabled(s, CommitPlan(r, now))
    ensures
      var own, t' := WorkspaceOf(s.t, s.runs[r]), ApplyCommitPlan(s, r, now).t;
      && (d in s.t.documents && s.t.documents[d].workspace != own ==> d in t'.documents && t'.documents[d] == s.t.documents[d])
      && (w in s.t.workspaces && w != own ==> w in t'.workspaces && t'.workspaces[w] == s.t.workspaces[w])
  {
    var run := s.runs[r];
    assert MarksInside(s.t, run) && RunOk(s.t, run);
    PlanStaysInside(s.t, run, now, d, w);
    CommitTables(s, r, now);
  }

  lemma MoveStaysInside(s: Sys, l: Label, d: Uuid)
    requires Enabled(s, l) && IsMove(l)
    ensures
      var own, t' := WorkspaceOf(s.t, s.runs[RunOf(l).value]), Apply(s, l).t;
      && t'.workspaces == s.t.workspaces
      && (d in s.t.documents && s.t.documents[d].workspace != own ==> d in t'.documents && t'.documents[d] == s.t.documents[d])
  {
    MoveShape(s, l);
  }

  lemma CommitTables(s: Sys, r: nat, now: Time)
    requires Enabled(s, CommitPlan(r, now))
    ensures ApplyCommitPlan(s, r, now).t == s.t || ApplyCommitPlan(s, r, now).t == PlanEffect(s.t, s.runs[r], now).0
  {}

  lemma PlanStaysInside(t: Tables, run: Run, now: Time, d: Uuid, w: Uuid)
    requires run.phase.Holding? && WorkspaceOf(t, run) in t.workspaces && MarksInside(t, run)
    requires run.snapshot.document in t.documents
    ensures
      var t' := PlanEffect(t, run, now).0;
      && (d in t.documents && t.documents[d].workspace != WorkspaceOf(t, run) ==>
            d in t'.documents && t'.documents[d] == t.documents[d])
      && (w in t.workspaces && w != WorkspaceOf(t, run) ==> w in t'.workspaces && t'.workspaces[w] == t.workspaces[w])
  {
    var t1 := ApplyContract(t, WorkspaceOf(t, run), run.phase.contract, run.phase.marks);
    CompletionTouchesOne(t1, run, now, d);
    assert d in t.documents && d !in run.phase.marks ==> t1.documents[d] == t.documents[d];
  }

  lemma CompletionTouchesOne(t: Tables, run: Run, now: Time, d: Uuid)
    requires run.phase.Holding?
    ensures
      var t' := CompletePlan(t, run, now).0;
      && t'.workspaces == t.workspaces
      && (d in t.documents && d != run.snapshot.document ==> d in t'.documents && t'.documents[d] == t.documents[d])
  {}

  lemma ApiStaysInside(s: Sys, l: Label, d: Uuid, w: Uuid)
    requires SysOk(s) && Enabled(s, l) && IsApi(l)
    ensures d in s.t.documents && l.ws != s.t.documents[d].workspace ==>
              d in Apply(s, l).t.documents && Apply(s, l).t.documents[d] == s.t.documents[d]
    ensures w in s.t.workspaces && l.ws != w ==>
              w in Apply(s, l).t.workspaces && Apply(s, l).t.workspaces[w] == s.t.workspaces[w]
  {
    if l.Replace? {
      ReplaceResult(s.t, l.ws, l.doc, l.source, l.job, l.now);
    } else if l.Enqueue? {
      Rows.EnsureIndexContractIs(s.t, l.ws, l.contract);
    }
  }

  // ----- what a run writes

  /** The moves of a first index, exactly: a live attempt puts the document back to UPLOADED, makes it
      READY with the revision of its job, or marks a document that is INDEXING as FAILED. An attempt that
      is not live writes nothing. */
  lemma FirstIndexWrites(s: Sys, r: nat, now: Time)
    requires SysOk(s) && InFlight(s, r, now)
    ensures
      var run, d := s.runs[r], s.runs[r].snapshot.document;
      && (run.phase.Resetting? ==>
            if LiveRun(s.t, run, now) then Becomes(s.t, ApplyReset(s, r, now).t, d, Uploaded) else ApplyReset(s, r, now).t == s.t)
      && (run.phase.Building? ==>
            if LiveRun(s.t, run, now)
            then && Becomes(s.t, ApplyActivate(s, r, now).t, d, Ready)
                 && ApplyActivate(s, r, now).t.documents[d].active == Some(run.snapshot.revision)
            else ApplyActivate(s, r, now).t == s.t)
      && (run.phase.Cleaning? ==>
            if LiveRun(s.t, run, now) && d in s.t.documents && s.t.documents[d].status.Indexing?
            then Becomes(s.t, ApplyMarkFailed(s, r, now).t, d, DocumentStatus.Failed)
            else ApplyMarkFailed(s, r, now).t == s.t)
  {
    var run := s.runs[r];
    assert RunOk(s.t, run);
    if LiveRun(s.t, run, now) {
      assert JobOk(s.t, s.t.jobs[run.job]);
      if run.phase.Resetting? && MoveDocument(s.t, run, run.phase.from, Uploaded, now).None? {
        MoveMissed(s, r, run.phase.from, Uploaded, now);
      }
      if run.phase.Building? && MoveDocument(s.t, run, Indexing, Ready, now).None? {
        MoveMissed(s, r, Indexing, Ready, now);
      }
    }
  }

  /** One document has this status, and nothing but its status and active revision has changed. */
  ghost predicate Becomes(t: Tables, t': Tables, d: Uuid, status: DocumentStatus) {
    && Rows.OnlyDocument(t, t', d) && d in t.documents && t'.documents[d].status == status
    && t'.documents[d].workspace == t.documents[d].workspace && t'.documents[d].revisions == t.documents[d].revisions
  }

  /** The commit of a reindex writes the versions of the contract that the run holds, on the revision
      it rebuilt, and no longer flags it. */
  lemma ReindexWritesContract(s: Sys, r: nat, now: Time)
    requires SysOk(s) && Enabled(s, CommitPlan(r, now)) && s.runs[r].phase.plan.RebuildActive?
    requires PlanEffect(s.t, s.runs[r], now).1
    ensures
      var run, t' := s.runs[r], Apply(s, CommitPlan(r, now)).t;
      var d := run.snapshot.document;
      && t'.workspaces[WorkspaceOf(s.t, run)].contract == run.phase.contract
      && d in t'.documents && run.snapshot.revision in t'.documents[d].revisions
      && var row := t'.documents[d].revisions[run.snapshot.revision];
         && row.parserVersion == 1 && row.chunkVersion == 1 && row.indexVersion == run.phase.contract.schemaVersion
         && !row.requiresReindex
  {
    var run := s.runs[r];
    var t1 := ApplyContract(s.t, WorkspaceOf(s.t, run), run.phase.contract, run.phase.marks);
    Rows.CompleteReindexIs(t1, WorkspaceOf(t1, run), run.snapshot.document, run.snapshot.revision, run.job,
                           run.Owner(), run.Attempt(), run.phase.contract.schemaVersion, now);
  }
}
