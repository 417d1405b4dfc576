/** What the protocol promises over every behaviour: safety of success, fencing, exclusive
    ownership, bounded retries and progress. */
module ProtocolTheorems {
  import opened Entities
  import opened JobSql
  import opened DocumentSql
  import opened TableInvariant
  import opened Protocol
  import opened ProtocolInvariant
  import opened ProtocolSteps
  import ApiSpec

  // ----- who takes a step

  function RunOf(l: Label): Option<nat> {
    match l
    case Heartbeat(r, _, _) => Some(r)
    case Read(r) => Some(r)
    case Reset(r, _) => Some(r)
    case Reconcile(r, _) => Some(r)
    case CommitPlan(r, _) => Some(r)
    case Activate(r, _) => Some(r)
    case Break(r, _) => Some(r)
    case MarkFailed(r, _) => Some(r)
    case Raise(r) => Some(r)
    case Abandon(r) => Some(r)
    case Succeed(r, _) => Some(r)
    case Fail(r, _, _, _) => Some(r)
    case _ => None
  }

  // ----- the shapes of worker steps

  predicate IsLocal(l: Label) { l.Read? || l.Reconcile? || l.Break? || l.Raise? || l.Abandon? }

  predicate IsJobStep(l: Label) { l.Heartbeat? || l.Succeed? || l.Fail? || l.Claim? || l.Recover? }

  predicate IsMove(l: Label) { l.Reset? || l.Activate? || l.MarkFailed? }

  predicate IsApi(l: Label) { l.Store? || l.Replace? || l.Delete? || l.Enqueue? }

  lemma LocalShape(s: Sys, l: Label)
    requires Enabled(s, l) && IsLocal(l)
    ensures Apply(s, l).t == s.t && Apply(s, l).built == s.built
  {}

  lemma JobStepShape(s: Sys, l: Label)
    requires Enabled(s, l) && IsJobStep(l)
    ensures Apply(s, l).t.documents == s.t.documents && Apply(s, l).t.workspaces == s.t.workspaces
    ensures Apply(s, l).built == s.built && Apply(s, l).t.jobs.Keys == s.t.jobs.Keys
  {
    if l.Recover? || l.Claim? { QueueShape(s, l); } else { ReportShape(s, l); }
  }

  lemma QueueShape(s: Sys, l: Label)
    requires Enabled(s, l) && (l.Recover? || l.Claim?)
    ensures Apply(s, l).t.documents == s.t.documents && Apply(s, l).t.workspaces == s.t.workspaces
    ensures Apply(s, l).built == s.built && Apply(s, l).t.jobs.Keys == s.t.jobs.Keys
  {}

  lemma ReportShape(s: Sys, l: Label)
    requires Enabled(s, l) && (l.Heartbeat? || l.Succeed? || l.Fail?)
    ensures Apply(s, l).t.documents == s.t.documents && Apply(s, l).t.workspaces == s.t.workspaces
    ensures Apply(s, l).built == s.built && Apply(s, l).t.jobs.Keys == s.t.jobs.Keys
  {}

  lemma MovedRow(t: Tables, run: Run, from: DocumentStatus, to: DocumentStatus, now: Time, t': Tables)
    requires MoveDocument(t, run, from, to, now) == Some(t')
    ensures t'.jobs == t.jobs && t'.workspaces == t.workspaces
    ensures
      var id := run.snapshot.document;
      && Current(t, run) && id in t.documents && id in t'.documents
      && t' == SetDocument(t, id, t'.documents[id])
      && t'.documents[id].revisions == t.documents[id].revisions
      && t'.documents[id].workspace == t.documents[id].workspace
      && t'.documents[id].status == to && t.documents[id].status == from
      && (!to.Ready? ==> t'.documents[id].active == t.documents[id].active)
  {}

  lemma MoveShape(s: Sys, l: Label)
    requires Enabled(s, l) && IsMove(l)
    ensures Apply(s, l).t.jobs == s.t.jobs && Apply(s, l).t.workspaces == s.t.workspaces
    ensures
      var run, t' := s.runs[RunOf(l).value], Apply(s, l).t;
      var id := run.snapshot.document;
      t' == s.t
      || (&& Current(s.t, run) && id in s.t.documents && id in t'.documents
          && t' == SetDocument(s.t, id, t'.documents[id])
          && t'.documents[id].revisions == s.t.documents[id].revisions
          && t'.documents[id].workspace == s.t.documents[id].workspace
          && !t'.documents[id].status.Deleted? && (l.Reset? ==> run.phase.from == s.t.documents[id].status)
          && (!l.Reset? ==> s.t.documents[id].status.Indexing?)
          && (!l.Activate? ==> t'.documents[id].active == s.t.documents[id].active))
  {
    var run, t' := s.runs[RunOf(l).value], Apply(s, l).t;
    if t' != s.t {
      if l.Reset? {
        MovedRow(s.t, run, run.phase.from, Uploaded, l.now, t');
      } else {
        MovedRow(s.t, run, Indexing, if l.Activate? then Ready else DocumentStatus.Failed, l.now, t');
      }
    }
  }

  // ----- rows

  /** Every job row of every reachable state loads as a domain object and passes the CHECKs. */
  lemma EveryRowIsValid(trace: seq<Sys>, i: nat, id: Uuid)
    requires Behaviour(trace) && i < |trace| && id in trace[i].t.jobs
    ensures ValidSnapshot(trace[i].t.jobs[id]) && SatisfiesChecks(trace[i].t.jobs[id])
  {
    AlwaysOk(trace, i);
    assert JobOk(trace[i].t, trace[i].t.jobs[id]);
    RowSpecificationsAgree(trace[i].t.jobs[id]);
  }

  /** The coupling of status, revisions and active job, in every reachable state. */
  lemma Coupling(trace: seq<Sys>, i: nat, d: Uuid, id: Uuid)
    requires Behaviour(trace) && i < |trace| && d in trace[i].t.documents
    ensures Shape(trace[i].t.documents[d])
    ensures id in trace[i].t.jobs && trace[i].t.jobs[id].document == d && Active(trace[i].t.jobs[id]) ==>
              && Fits(trace[i].t.documents[d], trace[i].t.jobs[id])
              && forall other | other in trace[i].t.jobs && trace[i].t.jobs[other].document == d
                                && Active(trace[i].t.jobs[other]) :: other == id
  {
    var t := trace[i].t;
    AlwaysOk(trace, i);
    assert DocumentOk(t, t.documents[d]);
    if id in t.jobs { assert JobOk(t, t.jobs[id]); }
  }

  // ----- moves of a job

  /** Renewal of the lease, the one change that is not a move. */
  predicate IsRenewal(j: Job, j': Job) {
    j.status.Running? && j'.status.Running? && j'.attempts == j.attempts && j'.maxAttempts == j.maxAttempts
  }

  function Measure(j: Job): int {
    2 * (j.maxAttempts - j.attempts) + Count(j.status.Running?)
  }

  predicate Progresses(j: Job, j': Job) {
    MayMove(j.status, j'.status) && Measure(j') < Measure(j) && j'.maxAttempts == j.maxAttempts
  }

  ghost predicate MovesWell(t: Tables, t': Tables, id: Uuid)
    requires id in t.jobs
  {
    id in t'.jobs && (t'.jobs[id] == t.jobs[id] || IsRenewal(t.jobs[id], t'.jobs[id]) || Progresses(t.jobs[id], t'.jobs[id]))
  }

  lemma PlanMovesWell(t: Tables, run: Run, now: Time, id: Uuid)
    requires run.phase.Holding? && WorkspaceOf(t, run) in t.workspaces && id in t.jobs
    ensures MovesWell(t, PlanEffect(t, run, now).0, id)
  {
    var t1 := ApplyContract(t, WorkspaceOf(t, run), run.phase.contract, run.phase.marks);
    assert t1.jobs == t.jobs;
  }

  lemma ApiMovesWell(s: Sys, l: Label, id: Uuid)
    requires Enabled(s, l) && RunOf(l).None? && !l.Claim? && !l.Recover? && id in s.t.jobs
    ensures id in Apply(s, l).t.jobs && Apply(s, l).t.jobs[id] == s.t.jobs[id]
  {
    match l
    case Store(ws, doc, source, job, now) => assert Create(s.t, ws, doc, source, now).value.jobs == s.t.jobs;
    case Replace(ws, doc, source, job, now) =>
    case Delete(ws, doc, job, now) =>
    case Enqueue(ws, c, ids, now) => EnqueueLeavesJobs(s.t, ws, c, ids, now, id);
  }

  lemma RunMovesWell(s: Sys, l: Label, id: Uuid)
    requires Enabled(s, l) && RunOf(l).Some? && id in s.t.jobs
    ensures MovesWell(s.t, Apply(s, l).t, id)
  {
    if l.CommitPlan? {
      PlanMovesWell(s.t, s.runs[l.run], l.now, id);
    } else if IsMove(l) {
      MoveShape(s, l);
    } else if IsLocal(l) {
      LocalShape(s, l);
    } else {
      ReportMovesWell(s, l, id);
    }
  }

  lemma ReportMovesWell(s: Sys, l: Label, id: Uuid)
    requires Enabled(s, l) && (l.Heartbeat? || l.Succeed? || l.Fail?) && id in s.t.jobs
    ensures MovesWell(s.t, Apply(s, l).t, id)
  {}

  /** Every statement refines the domain's table of moves and uses up some of the attempts. */
  lemma JobMoves(s: Sys, l: Label, id: Uuid)
    requires SysOk(s) && Enabled(s, l) && id in s.t.jobs
    ensures MovesWell(s.t, Apply(s, l).t, id)
  {
    if RunOf(l).Some? {
      RunMovesWell(s, l, id);
    } else if l.Claim? || l.Recover? {
      ClaimOrRecoveryMovesWell(s, l, id);
    } else {
      ApiMovesWell(s, l, id);
    }
  }

  lemma ClaimOrRecoveryMovesWell(s: Sys, l: Label, id: Uuid)
    requires TablesOk(s.t) && Enabled(s, l) && (l.Claim? || l.Recover?) && id in s.t.jobs
    ensures MovesWell(s.t, Apply(s, l).t, id)
  {
    assert JobOk(s.t, s.t.jobs[id]);
  }

  lemma EnqueueLeavesJobs(t: Tables, ws: Uuid, c: Contract, ids: map<Uuid, Uuid>, now: Time, id: Uuid)
    requires id in t.jobs && FreshIdsFor(ApiSpec.Reconciled(t, ws, c), ws, ids)
    ensures id in ApiSpec.Enqueue(t, ws, c, ids, now).jobs
    ensures ApiSpec.Enqueue(t, ws, c, ids, now).jobs[id] == t.jobs[id]
  {
    var t1 := ApiSpec.Reconciled(t, ws, c);
    assert t1.jobs == t.jobs;
    NewIdsAreUnused(t1, ws, ids);
    BulkInsertLeaves(t1, ids, now, id);
  }

  lemma NewIdsAreUnused(t: Tables, ws: Uuid, ids: map<Uuid, Uuid>)
    requires FreshIdsFor(t, ws, ids)
    ensures forall i | i in ids :: i !in t.jobs
  {
    forall i | i in ids ensures i !in t.jobs {
      var document := ids[i];
    }
  }

  lemma BulkInsertLeaves(t: Tables, ids: map<Uuid, Uuid>, now: Time, id: Uuid)
    requires id in t.jobs && id !in ids
    ensures id in CreateWorkspaceReindex(t, ids, now).jobs && CreateWorkspaceReindex(t, ids, now).jobs[id] == t.jobs[id]
  {}

  function Moves(trace: seq<Sys>, id: Uuid): nat {
    if |trace| < 2 then 0
    else
      var rest := trace[..|trace| - 1];
      var before, after := trace[|trace| - 2].t.jobs, trace[|trace| - 1].t.jobs;
      Moves(rest, id) + Count(id in before && id in after && before[id].status != after[id].status)
  }

  lemma MeasureFalls(trace: seq<Sys>, id: Uuid)
    requires Behaviour(trace) && |trace| > 1
    ensures
      var before, after := trace[|trace| - 2].t.jobs, trace[|trace| - 1].t.jobs;
      && (id in before ==>
            && id in after && after[id].maxAttempts == before[id].maxAttempts
            && Measure(after[id]) + Count(before[id].status != after[id].status) <= Measure(before[id]))
      && (id !in before && id in after ==> after[id].status.Pending? && after[id].attempts == 0)
  {
    var n := |trace| - 1;
    AlwaysOk(trace, n - 1);
    assert StepAt(trace, n);
    var l :| Enabled(trace[n - 1], l) && trace[n] == Apply(trace[n - 1], l);
    if id in trace[n - 1].t.jobs {
      JobMoves(trace[n - 1], l, id);
    } else if id in trace[n].t.jobs {
      NewJobsStartPending(trace[n - 1], l, id);
    }
  }

  /** A job changes status at most twice per attempt it may make. */
  lemma {:induction false} MovesAreBounded(trace: seq<Sys>, id: Uuid)
    requires Behaviour(trace)
    ensures id in trace[|trace| - 1].t.jobs ==>
              var j := trace[|trace| - 1].t.jobs[id];
              Moves(trace, id) + Measure(j) <= 2 * j.maxAttempts && Moves(trace, id) <= 2 * j.maxAttempts
    ensures id !in trace[|trace| - 1].t.jobs ==> Moves(trace, id) == 0
  {
    if |trace| > 1 {
      Prefix(trace, |trace| - 1);
      MovesAreBounded(trace[..|trace| - 1], id);
      MeasureFalls(trace, id);
      if id in trace[|trace| - 1].t.jobs { EveryRowIsValid(trace, |trace| - 1, id); }
    }
  }

  lemma NewJobsStartPending(s: Sys, l: Label, id: Uuid)
    requires Enabled(s, l) && id !in s.t.jobs && id in Apply(s, l).t.jobs
    ensures Apply(s, l).t.jobs[id].status.Pending? && Apply(s, l).t.jobs[id].attempts == 0
  {
    if RunOf(l).Some? {
      RunsCreateNoJobs(s, l, id);
    } else if l.Enqueue? {
      assert ApiSpec.Reconciled(s.t, l.ws, l.contract).jobs == s.t.jobs;
    } else if l.Store? {
      assert Create(s.t, l.ws, l.doc, l.source, l.now).value.jobs == s.t.jobs;
    }
  }

  lemma RunsCreateNoJobs(s: Sys, l: Label, id: Uuid)
    requires Enabled(s, l) && RunOf(l).Some? && id !in s.t.jobs
    ensures id !in Apply(s, l).t.jobs
  {
    if l.CommitPlan? {
      PlanCreatesNoJobs(s.t, s.runs[l.run], l.now, id);
    } else if IsMove(l) {
      MoveShape(s, l);
    } else if IsLocal(l) {
      LocalShape(s, l);
    } else {
      JobStepShape(s, l);
    }
  }

  lemma PlanCreatesNoJobs(t: Tables, run: Run, now: Time, id: Uuid)
    requires run.phase.Holding? && WorkspaceOf(t, run) in t.workspaces && id !in t.jobs
    ensures id !in PlanEffect(t, run, now).0.jobs
  {
    assert ApplyContract(t, WorkspaceOf(t, run), run.phase.contract, run.phase.marks).jobs == t.jobs;
  }

  /** Claims = failures + recoveries + [succeeded] + [running], and the ledger names each claimant. */
  lemma AttemptAccounting(trace: seq<Sys>, i: nat, id: Uuid)
    requires Behaviour(trace) && i < |trace| && id in trace[i].t.jobs
    ensures
      var j, tally := trace[i].t.jobs[id], TallyOf(trace[i].ledger, id);
      && |tally.owners| == j.attempts <= j.maxAttempts
      && j.attempts == tally.failures + tally.recoveries + Count(j.status.Succeeded?) + Count(j.status.Running?)
  {
    AlwaysOk(trace, i);
    assert TallyOk(trace[i].t.jobs[id], TallyOf(trace[i].ledger, id));
    assert JobOk(trace[i].t, trace[i].t.jobs[id]);
  }

  // ----- fencing

  /** Whatever its transaction clock says, a superseded attempt commits no change to any table. */
  lemma SupersededRunIsHarmless(s: Sys, l: Label)
    requires Enabled(s, l) && RunOf(l).Some? && RunOf(l).value in s.runs
    requires !Current(s.t, s.runs[RunOf(l).value])
    ensures Apply(s, l).t == s.t
  {
    if IsLocal(l) {
      LocalShape(s, l);
    } else if IsMove(l) {
      MoveShape(s, l);
    } else if l.CommitPlan? {
      SupersededCommit(s, l.run, l.now);
    } else {
      SupersededReport(s, l);
    }
  }

  lemma SupersededCommit(s: Sys, r: nat, now: Time)
    requires Enabled(s, CommitPlan(r, now)) && !Current(s.t, s.runs[r])
    ensures ApplyCommitPlan(s, r, now).t == s.t
  {
    NotLivePlan(s.t, s.runs[r], now);
  }

  /** A statement whose fence does not let it pass changes nothing. */
  lemma NotLivePlan(t: Tables, run: Run, now: Time)
    requires run.phase.Holding? && WorkspaceOf(t, run) in t.workspaces && !LiveRun(t, run, now)
    ensures
      var t1 := ApplyContract(t, WorkspaceOf(t, run), run.phase.contract, run.phase.marks);
      PlanEffect(t, run, now) == (t1, false)
  {
    assert ApplyContract(t, WorkspaceOf(t, run), run.phase.contract, run.phase.marks).jobs == t.jobs;
  }

  lemma SupersededReport(s: Sys, l: Label)
    requires Enabled(s, l) && (l.Heartbeat? || l.Succeed? || l.Fail?) && !Current(s.t, s.runs[RunOf(l).value])
    ensures Apply(s, l).t == s.t
  {}

  /** A superseded attempt stays superseded. */
  lemma SupersededForEver(s: Sys, l: Label, r: nat)
    requires SysOk(s) && Enabled(s, l) && r in s.runs && !Current(s.t, s.runs[r])
    ensures r in Apply(s, l).runs && Apply(s, l).runs[r].job == s.runs[r].job
    ensures Apply(s, l).runs[r].snapshot == s.runs[r].snapshot
    ensures !Current(Apply(s, l).t, Apply(s, l).runs[r])
  {
    var run := s.runs[r];
    assert RunOk(s.t, run);
    JobMoves(s, l, run.job);
    SnapshotKept(s, l, r);
  }

  lemma SnapshotKept(s: Sys, l: Label, r: nat)
    requires Enabled(s, l) && r in s.runs
    ensures r in Apply(s, l).runs && Apply(s, l).runs[r].job == s.runs[r].job
    ensures Apply(s, l).runs[r].snapshot == s.runs[r].snapshot
  {
    if l.CommitPlan? {
      CommitMovesRun(s, l.run, l.now);
    } else if RunOf(l).Some? && !l.Heartbeat? {
      OwnRunMoves(s, l);
    }
  }

  /** A run's step moves that run along and leaves the others. */
  lemma OwnRunMoves(s: Sys, l: Label)
    requires Enabled(s, l) && RunOf(l).Some? && !l.Heartbeat? && !l.CommitPlan? && RunOf(l).value in s.runs
    ensures
      var q := RunOf(l).value;
      q in Apply(s, l).runs && Apply(s, l).runs == s.runs[q := s.runs[q].(phase := Apply(s, l).runs[q].phase)]
  {
    if IsMove(l) { MoveMovesRun(s, l); } else if IsLocal(l) { LocalMovesRun(s, l); }
  }

  lemma MoveMovesRun(s: Sys, l: Label)
    requires Enabled(s, l) && IsMove(l)
    ensures
      var q := RunOf(l).value;
      q in Apply(s, l).runs && Apply(s, l).runs == s.runs[q := s.runs[q].(phase := Apply(s, l).runs[q].phase)]
  {}

  lemma LocalMovesRun(s: Sys, l: Label)
    requires Enabled(s, l) && IsLocal(l)
    ensures
      var q := RunOf(l).value;
      q in Apply(s, l).runs && Apply(s, l).runs == s.runs[q := s.runs[q].(phase := Apply(s, l).runs[q].phase)]
  {}

  lemma CommitMovesRun(s: Sys, r: nat, now: Time)
    requires Enabled(s, CommitPlan(r, now))
    ensures
      var s' := ApplyCommitPlan(s, r, now);
      r in s'.runs && s'.runs == s.runs[r := s.runs[r].(phase := s'.runs[r].phase)]
  {}

  /** Two runs that ever exist side by side hold different attempts, each claimed by its owner. */
  lemma EachAttemptIsClaimedOnce(trace: seq<Sys>, i: nat, a: nat, b: nat)
    requires Behaviour(trace) && i < |trace| && a in trace[i].runs && b in trace[i].runs
    requires trace[i].runs[a].job == trace[i].runs[b].job && trace[i].runs[a].Attempt() == trace[i].runs[b].Attempt()
    ensures a == b
    ensures
      var run := trace[i].runs[a];
      var owners := TallyOf(trace[i].ledger, run.job).owners;
      0 < run.Attempt() <= |owners| && owners[run.Attempt() - 1] == run.Owner()
  {
    AlwaysOk(trace, i);
    assert RunCounted(trace[i].ledger, trace[i].runs[a]);
  }

  // ----- exclusive ownership

  ghost predicate SameStanding(d: Document, d': Document) {
    d'.status == d.status && d'.active == d.active && d'.workspace == d.workspace
    && d'.revisions.Keys == d.revisions.Keys
  }

  /** While a run is current, no step of anybody else changes the standing of its document. */
  lemma OwnerActsAlone(s: Sys, l: Label, r: nat)
    requires SysOk(s) && Enabled(s, l) && r in s.runs && Current(s.t, s.runs[r]) && RunOf(l) != Some(r)
    ensures
      var id := s.runs[r].snapshot.document;
      && id in s.t.documents && id in Apply(s, l).t.documents
      && SameStanding(s.t.documents[id], Apply(s, l).t.documents[id])
  {
    var id := s.runs[r].snapshot.document;
    assert RunOk(s.t, s.runs[r]);
    assert HasActiveJob(s.t, id);
    if RunOf(l).Some? {
      OtherRunElsewhere(s, l, r);
    } else if IsApi(l) {
      ApiLeavesBusyDocuments(s, l, id);
    } else {
      JobStepShape(s, l);
    }
  }

  /** No API call changes the standing of a document that has an active job. */
  lemma ApiLeavesBusyDocuments(s: Sys, l: Label, id: Uuid)
    requires SysOk(s) && Enabled(s, l) && IsApi(l) && id in s.t.documents && HasActiveJob(s.t, id)
    ensures id in Apply(s, l).t.documents && SameStanding(s.t.documents[id], Apply(s, l).t.documents[id])
  {
    if l.Replace? {
      ReplaceResult(s.t, l.ws, l.doc, l.source, l.job, l.now);
    } else if l.Delete? {
      DeleteKeeps(s.t, l.ws, l.doc, l.job, l.now);
    } else if l.Enqueue? {
      ReconcileKeepsStanding(s.t, l.ws, l.contract, id);
    }
  }

  lemma ReconcileKeepsStanding(t: Tables, ws: Uuid, c: Contract, id: Uuid)
    requires id in t.documents
    ensures id in ApiSpec.Reconciled(t, ws, c).documents
    ensures SameStanding(t.documents[id], ApiSpec.Reconciled(t, ws, c).documents[id])
  {
    if ws in t.workspaces { ApplyContractRow(t, ws, c, Marks(t, ws, c), id); }
  }

  /** A run changes the standing of no document but its own. */
  lemma OnlyOwnDocument(s: Sys, l: Label, id: Uuid)
    requires Enabled(s, l) && RunOf(l).Some? && RunOf(l).value in s.runs && id in s.t.documents
    requires s.runs[RunOf(l).value].snapshot.document != id
    ensures id in Apply(s, l).t.documents && SameStanding(s.t.documents[id], Apply(s, l).t.documents[id])
  {
    if l.CommitPlan? {
      PlanElsewhere(s.t, s.runs[l.run], l.now, id);
    } else if IsMove(l) {
      MoveShape(s, l);
    } else if IsLocal(l) {
      LocalShape(s, l);
    } else {
      JobStepShape(s, l);
    }
  }

  lemma PlanElsewhere(t: Tables, run: Run, now: Time, id: Uuid)
    requires run.phase.Holding? && WorkspaceOf(t, run) in t.workspaces
    requires id in t.documents && run.snapshot.document != id
    ensures id in PlanEffect(t, run, now).0.documents
    ensures SameStanding(t.documents[id], PlanEffect(t, run, now).0.documents[id])
  {
    var w := WorkspaceOf(t, run);
    var t1 := ApplyContract(t, w, run.phase.contract, run.phase.marks);
    ApplyContractRow(t, w, run.phase.contract, run.phase.marks, id);
    assert PlanEffect(t, run, now) == CompletePlan(t1, run, now);
    assert id in t1.documents;
  }

  lemma OtherRunElsewhere(s: Sys, l: Label, r: nat)
    requires SysOk(s) && Enabled(s, l) && r in s.runs && Current(s.t, s.runs[r])
    requires RunOf(l).Some? && RunOf(l) != Some(r) && s.runs[r].snapshot.document in s.t.documents
    ensures
      var id := s.runs[r].snapshot.document;
      id in Apply(s, l).t.documents && SameStanding(s.t.documents[id], Apply(s, l).t.documents[id])
  {
    var q := RunOf(l).value;
    assert q in s.runs;
    if s.runs[q].snapshot.document != s.runs[r].snapshot.document {
      OnlyOwnDocument(s, l, s.runs[r].snapshot.document);
    } else {
      if Current(s.t, s.runs[q]) { OneCurrentRun(s.t, s.runs, q, r); }
      SupersededRunIsHarmless(s, l);
    }
  }

  // ----- success

  /** The document state that a finished job stands for. */
  ghost predicate EffectHolds(t: Tables, j: Job) {
    && j.document in t.documents
    && var d := t.documents[j.document];
       match j.kind
       case IndexDocument => d.status.Ready? && d.active == Some(j.revision)
       case DeleteDocument => d.status.Deleted? && d.active == Some(j.revision)
       case ReindexDocument =>
         d.status.Ready? && d.active == Some(j.revision)
         && j.revision in d.revisions && !d.revisions[j.revision].requiresReindex
  }

  lemma CommitMeansDone(s: Sys, r: nat, now: Time)
    requires SysOk(s) && InFlight(s, r, now) && s.runs[r].phase.Holding?
    requires WorkspaceOf(s.t, s.runs[r]) in s.t.workspaces
    ensures
      var (t, done) := PlanEffect(s.t, s.runs[r], now);
      done && !s.runs[r].phase.plan.IndexFirst? ==>
        s.runs[r].job in t.jobs && EffectHolds(t, t.jobs[s.runs[r].job])
  {
    var run := s.runs[r];
    var (t, done) := PlanEffect(s.t, run, now);
    if done && !run.phase.plan.IndexFirst? {
      assert RunOk(s.t, run);
      ReconcilingOk(s, r);
      var t1 := Reconciling(s, r).t;
      assert JobOk(t1, t1.jobs[run.job]);
      assert PlanFits(run.phase.plan, s.t.documents[run.snapshot.document], run.snapshot);
    }
  }

  /** The step that makes a job SUCCEEDED ends in a state where the effect of the job holds. */
  lemma StepSuccessMeansDone(s: Sys, l: Label, id: Uuid)
    requires SysOk(s) && Enabled(s, l) && id in Apply(s, l).t.jobs && Apply(s, l).t.jobs[id].status.Succeeded?
    requires id in s.t.jobs ==> !s.t.jobs[id].status.Succeeded?
    ensures EffectHolds(Apply(s, l).t, Apply(s, l).t.jobs[id])
  {
    if id !in s.t.jobs {
      NewJobsStartPending(s, l, id);
    } else if RunOf(l).Some? {
      RunSuccessMeansDone(s, l, id);
    } else if l.Claim? || l.Recover? {
      ClaimOrRecoveryMovesWell(s, l, id);
    } else {
      ApiMovesWell(s, l, id);
    }
  }

  lemma RunSuccessMeansDone(s: Sys, l: Label, id: Uuid)
    requires SysOk(s) && Enabled(s, l) && RunOf(l).Some? && id in s.t.jobs && id in Apply(s, l).t.jobs
    requires Apply(s, l).t.jobs[id].status.Succeeded? && !s.t.jobs[id].status.Succeeded?
    ensures EffectHolds(Apply(s, l).t, Apply(s, l).t.jobs[id])
  {
    if l.CommitPlan? {
      CommitTouchesOwnJob(s.t, s.runs[l.run], l.now, id);
      CommitMeansDone(s, l.run, l.now);
    } else if l.Succeed? {
      ReportedSuccessIsDone(s, l.run, l.now, id);
    } else {
      OtherStepsFinishNothing(s, l, id);
    }
  }

  lemma ReportedSuccessIsDone(s: Sys, r: nat, now: Time, id: Uuid)
    requires SysOk(s) && Enabled(s, Succeed(r, now)) && id in s.t.jobs && !s.t.jobs[id].status.Succeeded?
    requires ApplySucceed(s, r, now).t.jobs[id].status.Succeeded?
    ensures EffectHolds(ApplySucceed(s, r, now).t, ApplySucceed(s, r, now).t.jobs[id])
  {
    assert RunOk(s.t, s.runs[r]);
  }

  lemma OtherStepsFinishNothing(s: Sys, l: Label, id: Uuid)
    requires Enabled(s, l) && RunOf(l).Some? && !l.CommitPlan? && !l.Succeed? && id in s.t.jobs
    ensures id in Apply(s, l).t.jobs && (Apply(s, l).t.jobs[id].status.Succeeded? ==> s.t.jobs[id].status.Succeeded?)
  {
    if IsMove(l) {
      MoveShape(s, l);
    } else if IsLocal(l) {
      LocalShape(s, l);
    }
  }

  lemma CommitTouchesOwnJob(t: Tables, run: Run, now: Time, id: Uuid)
    requires run.phase.Holding? && WorkspaceOf(t, run) in t.workspaces && id in t.jobs
    ensures id in PlanEffect(t, run, now).0.jobs
    ensures PlanEffect(t, run, now).1 && (run.phase.plan.IndexFirst? || id != run.job) ==>
              PlanEffect(t, run, now).0.jobs[id] == t.jobs[id]
  {
    var t1 := ApplyContract(t, WorkspaceOf(t, run), run.phase.contract, run.phase.marks);
    assert t1.jobs == t.jobs;
  }

  /** Over every behaviour, with crashes and overtaken workers at any point: a job is committed
      SUCCEEDED only when its effect holds. */
  lemma SuccessMeansDone(trace: seq<Sys>, i: nat, id: Uuid)
    requires Behaviour(trace) && i + 1 < |trace| && id in trace[i + 1].t.jobs
    requires trace[i + 1].t.jobs[id].status.Succeeded?
    requires id in trace[i].t.jobs ==> !trace[i].t.jobs[id].status.Succeeded?
    ensures EffectHolds(trace[i + 1].t, trace[i + 1].t.jobs[id])
  {
    AlwaysOk(trace, i);
    assert StepAt(trace, i + 1);
    var l :| Enabled(trace[i], l) && trace[i + 1] == Apply(trace[i], l);
    StepSuccessMeansDone(trace[i], l, id);
  }

  // ----- progress

  lemma SomeRunIdIsFree(runs: map<nat, Run>)
    ensures exists r: nat :: r !in runs
  {
    var keys: set<int> := set k: int | k in runs;
    if 0 in runs {
      assert 0 in keys;
      SomeKeyIsGreatest(keys);
      var k :| k in keys && forall other | other in keys :: other <= k;
      var free: nat := k + 1;
      assert free !in keys;
      assert free !in runs;
    }
  }

  /** No active job is stuck: once its time has come, a claim or a recovery can move it. */
  lemma ActiveJobCanMove(s: Sys, id: Uuid, now: Time)
    requires SysOk(s) && id in s.t.jobs && Active(s.t.jobs[id])
    requires
      var j := s.t.jobs[id];
      if j.status.Running? then Or(j.leaseExpiresAt, now) <= now else j.availableAt <= now
    ensures exists l :: Enabled(s, l) && id in Apply(s, l).t.jobs && Progresses(s.t.jobs[id], Apply(s, l).t.jobs[id])
  {
    var j := s.t.jobs[id];
    assert JobOk(s.t, j);
    if j.status.Running? {
      var l := Recover(0, now);
      assert Enabled(s, l) && Progresses(j, Apply(s, l).t.jobs[id]);
    } else {
      SomeRunIdIsFree(s.runs);
      var r: nat :| r !in s.runs;
      var owner := "w";
      assert !IsSpace(owner[0] as nat);
      var l := Claim(r, id, owner, 1, s.t.jobs.Keys - {id}, now);
      assert Enabled(s, l) && Progresses(j, Apply(s, l).t.jobs[id]);
    }
  }
}
