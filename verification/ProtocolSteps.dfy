/** The remaining steps: API calls, contract changes, the commit under the workspace lock, and
    the preservation theorem over all steps and all behaviours. */
module ProtocolSteps {
  import opened Entities
  import opened JobSql
  import opened DocumentSql
  import opened TableInvariant
  import opened Protocol
  import opened ProtocolInvariant
  import ApiSpec

  // ----- API calls

  /** What an API call leaves alone: existing jobs, and every document with an active job. */
  ghost predicate Undisturbed(t: Tables, t': Tables) {
    && (forall id | id in t.jobs :: id in t'.jobs && t'.jobs[id] == t.jobs[id])
    && (forall id | id in t'.jobs && id !in t.jobs :: t'.jobs[id].attempts == 0 && t'.jobs[id].status.Pending?)
    && (forall d | d in t.documents && HasActiveJob(t, d) ::
          d in t'.documents && t'.documents[d].status == t.documents[d].status
          && t'.documents[d].active == t.documents[d].active)
    && (forall w | w in t.workspaces :: w in t'.workspaces && t'.workspaces[w].isActive == t.workspaces[w].isActive)
  }

  lemma UndisturbedRun(t: Tables, t': Tables, run: Run)
    requires TablesOk(t) && Undisturbed(t, t') && RunOk(t, run)
    requires forall d | d in t.documents :: d in t'.documents
    ensures RunOk(t', run)
  {
    if Current(t, run) {
      assert HasActiveJob(t, run.snapshot.document);
    }
  }

  lemma ApiStep(s: Sys, t': Tables)
    requires SysOk(s) && TablesOk(t') && Undisturbed(s.t, t') && NoNewExposure(s.t, s.built, t', s.built)
    ensures SysOk(s.(t := t'))
  {
    forall r | r in s.runs ensures RunOk(t', s.runs[r]) && LockOk(t', s.locks, r, s.runs[r]) {
      assert RunOk(s.t, s.runs[r]) && LockOk(s.t, s.locks, r, s.runs[r]);
      UndisturbedRun(s.t, t', s.runs[r]);
    }
    LocksAfter(s, t');
    ContractKept(s.t, s.built, t', s.built);
    AllMarksKept(s.t, s.built, t', s.built, s.runs);
    forall id | id in t'.jobs ensures TallyOk(t'.jobs[id], TallyOf(s.ledger, id)) {
      if id in s.t.jobs { assert TallyOk(s.t.jobs[id], TallyOf(s.ledger, id)); }
    }
  }

  lemma LocksAfter(s: Sys, t': Tables)
    requires LocksOk(s.t, s.runs, s.locks) && RunsOk(s.t, s.runs)
    requires forall r | r in s.runs :: LockOk(t', s.locks, r, s.runs[r])
    requires forall d | d in s.t.documents :: d in t'.documents && t'.documents[d].workspace == s.t.documents[d].workspace
    ensures LocksOk(t', s.runs, s.locks)
  {
    forall w | w in s.locks ensures WorkspaceOf(t', s.runs[s.locks[w]]) == w {
      assert RunOk(s.t, s.runs[s.locks[w]]);
    }
  }

  lemma StoreStep(s: Sys, ws: Uuid, doc: Uuid, source: Source, job: Uuid, now: Time)
    requires SysOk(s) && ApiSpec.Store(s.t, ws, doc, source, job, now).Some?
    ensures SysOk(s.(t := ApiSpec.Store(s.t, ws, doc, source, job, now).value))
  {
    StoreKeeps(s.t, ws, doc, source, job, now);
    ApiStep(s, ApiSpec.Store(s.t, ws, doc, source, job, now).value);
  }

  lemma ReplaceStep(s: Sys, ws: Uuid, doc: Uuid, source: Source, job: Uuid, now: Time)
    requires SysOk(s) && ApiSpec.Replace(s.t, ws, doc, source, job, now).Some?
    ensures SysOk(s.(t := ApiSpec.Replace(s.t, ws, doc, source, job, now).value))
  {
    ReplaceKeeps(s.t, ws, doc, source, job, now);
    ReplaceResult(s.t, ws, doc, source, job, now);
    ApiStep(s, ApiSpec.Replace(s.t, ws, doc, source, job, now).value);
  }

  lemma DeleteStep(s: Sys, ws: Uuid, doc: Uuid, job: Uuid, now: Time)
    requires SysOk(s) && ApiSpec.Delete(s.t, ws, doc, job, now).Some?
    ensures SysOk(s.(t := ApiSpec.Delete(s.t, ws, doc, job, now).value))
  {
    DeleteKeeps(s.t, ws, doc, job, now);
    ApiStep(s, ApiSpec.Delete(s.t, ws, doc, job, now).value);
  }

  // ----- contract changes

  lemma ApplyContractRow(t: Tables, w: Uuid, c: Contract, marks: map<Uuid, int>, d: Uuid)
    requires w in t.workspaces && d in t.documents
    ensures
      var d0, d1 := t.documents[d], ApplyContract(t, w, c, marks).documents[d];
      && d1.workspace == d0.workspace && d1.status == d0.status && d1.active == d0.active
      && d1.revisions.Keys == d0.revisions.Keys
      && (forall k | k in d0.revisions ::
            d1.revisions[k] == d0.revisions[k]
            || d1.revisions[k] == d0.revisions[k].(requiresReindex := true))
      && (d in marks && marks[d] in d0.revisions ==> d1.revisions[marks[d]].requiresReindex)
  {}

  /** With the row unlocked, a change whose marks cover the exposed revisions keeps everything. */
  lemma ContractStep(s: Sys, w: Uuid, c: Contract, marks: map<Uuid, int>)
    requires SysOk(s) && w in s.t.workspaces && w !in s.locks
    requires c != s.t.workspaces[w].contract ==> Covers(s.t, s.built, w, marks)
    ensures SysOk(s.(t := ApplyContract(s.t, w, c, marks)))
  {
    var t' := ApplyContract(s.t, w, c, marks);
    ApplyContractKeeps(s.t, w, c, marks);
    forall r | r in s.runs ensures RunAfterContract(s, w, c, marks, r) { OneRunAfterContract(s, w, c, marks, r); }
    ContractRuns(s, w, c, marks);
    LocksAfter(s, t');
    ContractAfter(s.t, s.built, w, c, marks);
  }

  ghost predicate RunAfterContract(s: Sys, w: Uuid, c: Contract, marks: map<Uuid, int>, r: nat)
    requires w in s.t.workspaces && r in s.runs
  {
    var t' := ApplyContract(s.t, w, c, marks);
    RunOk(t', s.runs[r]) && LockOk(t', s.locks, r, s.runs[r]) && MarksOk(t', s.built, s.runs[r])
  }

  lemma OneRunAfterContract(s: Sys, w: Uuid, c: Contract, marks: map<Uuid, int>, r: nat)
    requires SysOk(s) && w in s.t.workspaces && w !in s.locks && r in s.runs
    ensures RunAfterContract(s, w, c, marks, r)
  {
    assert RunOk(s.t, s.runs[r]) && LockOk(s.t, s.locks, r, s.runs[r]) && MarksOk(s.t, s.built, s.runs[r]);
    ApplyContractRow(s.t, w, c, marks, s.runs[r].snapshot.document);
    MarksAfterContract(s, w, c, marks, s.runs[r]);
  }

  lemma ContractRuns(s: Sys, w: Uuid, c: Contract, marks: map<Uuid, int>)
    requires w in s.t.workspaces
    requires forall r {:trigger RunAfterContract(s, w, c, marks, r)} | r in s.runs :: RunAfterContract(s, w, c, marks, r)
    ensures
      var t' := ApplyContract(s.t, w, c, marks);
      && RunsOk(t', s.runs) && AllMarksOk(t', s.built, s.runs)
      && forall r | r in s.runs :: LockOk(t', s.locks, r, s.runs[r])
  {
    var t' := ApplyContract(s.t, w, c, marks);
    forall r | r in s.runs
      ensures RunOk(t', s.runs[r]) && LockOk(t', s.locks, r, s.runs[r]) && MarksOk(t', s.built, s.runs[r])
    {
      assert RunAfterContract(s, w, c, marks, r);
    }
  }

  lemma StillExposed(t: Tables, built: map<(Uuid, int), Build>, w: Uuid, c: Contract, marks: map<Uuid, int>, d: Uuid, a: int)
    requires w in t.workspaces && Exposed(ApplyContract(t, w, c, marks), built, d, a)
    ensures Exposed(t, built, d, a) && !(d in marks && marks[d] == a)
  {
    ApplyContractRow(t, w, c, marks, d);
  }

  lemma ContractAfter(t: Tables, built: map<(Uuid, int), Build>, w: Uuid, c: Contract, marks: map<Uuid, int>)
    requires ContractOk(t, built) && w in t.workspaces
    requires c != t.workspaces[w].contract ==> Covers(t, built, w, marks)
    ensures ContractOk(ApplyContract(t, w, c, marks), built)
  {
    var t' := ApplyContract(t, w, c, marks);
    forall d, a | Exposed(t', built, d, a) ensures UnderContract(t', built, d, a) {
      StillExposed(t, built, w, c, marks, d, a);
      assert UnderContract(t, built, d, a);
      ApplyContractRow(t, w, c, marks, d);
    }
  }

  lemma MarksAfterContract(s: Sys, w: Uuid, c: Contract, marks: map<Uuid, int>, run: Run)
    requires RunOk(s.t, run) && MarksOk(s.t, s.built, run)
    requires w in s.t.workspaces && (run.phase.Holding? ==> WorkspaceOf(s.t, run) != w)
    ensures MarksOk(ApplyContract(s.t, w, c, marks), s.built, run)
  {
    var t' := ApplyContract(s.t, w, c, marks);
    ApplyContractRow(s.t, w, c, marks, run.snapshot.document);
    if run.phase.Holding? {
      forall d, a | Exposed(t', s.built, d, a) ensures Exposed(s.t, s.built, d, a) {
        StillExposed(s.t, s.built, w, c, marks, d, a);
      }
      forall d | d in s.t.documents ensures t'.documents[d].workspace == s.t.documents[d].workspace {
        ApplyContractRow(s.t, w, c, marks, d);
      }
    }
  }

  lemma ReindexJobsStep(s: Sys, ws: Uuid, ids: map<Uuid, Uuid>, now: Time)
    requires SysOk(s) && FreshIdsFor(s.t, ws, ids)
    ensures SysOk(s.(t := CreateWorkspaceReindex(s.t, ids, now)))
  {
    var t' := CreateWorkspaceReindex(s.t, ids, now);
    WorkspaceReindexKeeps(s.t, ws, ids, now);
    forall d, a | Exposed(t', s.built, d, a) ensures Exposed(s.t, s.built, d, a) {}
    ApiStep(s, t');
  }

  lemma EnqueueStep(s: Sys, ws: Uuid, c: Contract, ids: map<Uuid, Uuid>, now: Time)
    requires SysOk(s) && ws !in s.locks && FreshIdsFor(ApiSpec.Reconciled(s.t, ws, c), ws, ids)
    ensures SysOk(s.(t := ApiSpec.Enqueue(s.t, ws, c, ids, now)))
  {
    var t1 := ApiSpec.Reconciled(s.t, ws, c);
    if ws in s.t.workspaces {
      MarksCover(s.t, s.built, ws, c);
      ContractStep(s, ws, c, Marks(s.t, ws, c));
    } else {
      assert s.(t := s.t) == s;
    }
    ReindexJobsStep(s.(t := t1), ws, ids, now);
  }

  // ----- the commit of a run that holds the workspace row

  /** The state between the contract change and the statement that completes the plan. */
  function Reconciling(s: Sys, r: nat): Sys
    requires r in s.runs && s.runs[r].phase.Holding? && WorkspaceOf(s.t, s.runs[r]) in s.t.workspaces
  {
    var run := s.runs[r];
    var s0 := Go(s, r, Raised);
    s0.(t := ApplyContract(s.t, WorkspaceOf(s.t, run), run.phase.contract, run.phase.marks))
  }

  lemma ReconcilingOk(s: Sys, r: nat)
    requires SysOk(s) && r in s.runs && s.runs[r].phase.Holding?
    ensures WorkspaceOf(s.t, s.runs[r]) in s.t.workspaces
    ensures
      var s1 := Reconciling(s, r);
      && SysOk(s1) && WorkspaceOf(s1.t, s1.runs[r]) == WorkspaceOf(s.t, s.runs[r])
      && WorkspaceOf(s.t, s.runs[r]) !in s1.locks
      && s1.t.workspaces[WorkspaceOf(s.t, s.runs[r])].contract == s.runs[r].phase.contract
  {
    var run := s.runs[r];
    var w := WorkspaceOf(s.t, run);
    assert RunOk(s.t, run) && LockOk(s.t, s.locks, r, run) && MarksOk(s.t, s.built, run);
    SilentStep(s, r, Raised);
    ContractStep(Go(s, r, Raised), w, run.phase.contract, run.phase.marks);
    ApplyContractRow(s.t, w, run.phase.contract, run.phase.marks, run.snapshot.document);
  }

  /** When a job is done, no run on its document is current. */
  lemma NobodyIsCurrent(s: Sys, r: nat, now: Time)
    requires SysOk(s) && InFlight(s, r, now) && LiveRun(s.t, s.runs[r], now)
    ensures forall q | q in s.runs && s.runs[q].snapshot.document == s.runs[r].snapshot.document ::
              !Current(JobFinished(s, r, now).t, s.runs[q])
  {
    assert RunOk(s.t, s.runs[r]);
    forall q | q in s.runs && s.runs[q].snapshot.document == s.runs[r].snapshot.document
      ensures !Current(JobFinished(s, r, now).t, s.runs[q])
    {
      assert RunOk(s.t, s.runs[q]);
    }
  }

  /** Completion of the job together with the final row of its document. */
  lemma CompletionStep(s: Sys, r: nat, d': Document, built': map<(Uuid, int), Build>, now: Time)
    requires SysOk(s) && InFlight(s, r, now) && s.runs[r].phase.Raised?
    requires
      var run := s.runs[r];
      var id := run.snapshot.document;
      && OwnsAttempt(s.t, id, run.snapshot.revision, run.job, run.Owner(), run.Attempt(), now)
      && id in s.t.documents && d'.workspace == s.t.documents[id].workspace
      && d'.workspace !in s.locks && Shape(d') && s.t.documents[id].revisions.Keys <= d'.revisions.Keys
      && (forall k | k in built' && k.0 != id :: k in s.built && built'[k] == s.built[k])
      && (forall a | Exposed(SetDocument(s.t, id, d'), built', id, a) ::
            UnderContract(SetDocument(s.t, id, d'), built', id, a))
    ensures
      var s1 := JobFinished(s, r, now);
      SysOk(s1.(t := SetDocument(s1.t, s.runs[r].snapshot.document, d'), built := built'))
  {
    var run := s.runs[r];
    var id := run.snapshot.document;
    assert RunOk(s.t, run) && DocumentOk(s.t, s.t.documents[id]);
    StartedBeforeClaim(s.t, run, now);
    CompletionKeeps(s.t, id, run.job, run.Owner(), run.Attempt(), run.snapshot.revision, d', now);
    CompleteStep(s, r, now);
    var s1 := JobFinished(s, r, now);
    NobodyIsCurrent(s, r, now);
    var t2 := SetDocument(s1.t, id, d');
    forall a | Exposed(t2, built', id, a) ensures UnderContract(t2, built', id, a) {
      assert Exposed(SetDocument(s.t, id, d'), built', id, a);
    }
    DocumentStep(s1, id, d', built');
  }

  function BuiltBy(built: map<(Uuid, int), Build>, run: Run): map<(Uuid, int), Build>
    requires run.phase.Holding?
  {
    if run.phase.plan.DeleteActive? then built
    else built[(run.snapshot.document, run.snapshot.revision) := Build(run.phase.contract, true)]
  }

  /** What a completing statement leaves: the job done, and a well-shaped document whose active
      revision, if it is exposed, was built under the contract the transaction holds. */
  lemma CompletedRow(t: Tables, run: Run, built: map<(Uuid, int), Build>, now: Time)
    requires TablesOk(t) && RunOk(t, run.(phase := Raised)) && run.phase.Holding? && !run.phase.plan.IndexFirst?
    requires CompletePlan(t, run, now).1
    requires WorkspaceOf(t, run) in t.workspaces && t.workspaces[WorkspaceOf(t, run)].contract == run.phase.contract
    ensures
      var id := run.snapshot.document;
      var d' := CompletePlan(t, run, now).0.documents[id];
      && id in t.documents && id in CompletePlan(t, run, now).0.documents
      && OwnsAttempt(t, id, run.snapshot.revision, run.job, run.Owner(), run.Attempt(), now)
      && CompletePlan(t, run, now).0 == SetDocument(CompleteJob(t, run.job, now), id, d')
      && d'.workspace == t.documents[id].workspace && Shape(d') && t.documents[id].revisions.Keys <= d'.revisions.Keys
      && (forall a | Exposed(SetDocument(t, id, d'), BuiltBy(built, run), id, a) ::
            UnderContract(SetDocument(t, id, d'), BuiltBy(built, run), id, a))
  {
    var id := run.snapshot.document;
    assert DocumentOk(t, t.documents[id]);
    assert JobOk(t, t.jobs[run.job]);
  }

  function Committed(s: Sys, r: nat, now: Time): Sys
    requires r in s.runs && s.runs[r].phase.Holding? && WorkspaceOf(s.t, s.runs[r]) in s.t.workspaces
  {
    var run := s.runs[r];
    var tally := TallyOf(s.ledger, run.job);
    s.(t := PlanEffect(s.t, run, now).0,
       ledger := s.ledger[run.job := tally.(successes := tally.successes + 1)], built := BuiltBy(s.built, run))
  }

  lemma CommitCompletes(s: Sys, r: nat, now: Time)
    requires SysOk(s) && InFlight(s, r, now) && s.runs[r].phase.Holding? && !s.runs[r].phase.plan.IndexFirst?
    requires WorkspaceOf(s.t, s.runs[r]) in s.t.workspaces && PlanEffect(s.t, s.runs[r], now).1
    ensures SysOk(Go(Committed(s, r, now), r, Raised)) && !Current(Committed(s, r, now).t, s.runs[r])
  {
    var run := s.runs[r];
    ReconcilingOk(s, r);
    var s1 := Reconciling(s, r);
    CompleteReconciling(s1, r, run, s.built, now);
    CommittedIs(s, r, now);
  }

  lemma CommittedIs(s: Sys, r: nat, now: Time)
    requires r in s.runs && s.runs[r].phase.Holding? && WorkspaceOf(s.t, s.runs[r]) in s.t.workspaces
    ensures
      Go(Committed(s, r, now), r, Raised) == Concluded(Reconciling(s, r), s.runs[r], s.built, now)
  {}

  /** The state after the statement that ends the plan of `run`. */
  function Concluded(s: Sys, run: Run, built: map<(Uuid, int), Build>, now: Time): Sys
    requires run.phase.Holding?
  {
    var tally := TallyOf(s.ledger, run.job);
    s.(t := CompletePlan(s.t, run, now).0, built := BuiltBy(built, run),
       ledger := s.ledger[run.job := tally.(successes := tally.successes + 1)])
  }

  lemma CompleteReconciling(s: Sys, r: nat, run: Run, built: map<(Uuid, int), Build>, now: Time)
    requires SysOk(s) && InFlight(s, r, now) && s.runs[r] == run.(phase := Raised) && s.built == built
    requires run.phase.Holding? && !run.phase.plan.IndexFirst? && CompletePlan(s.t, run, now).1
    requires
      var w := WorkspaceOf(s.t, run);
      w in s.t.workspaces && w !in s.locks && s.t.workspaces[w].contract == run.phase.contract
    ensures SysOk(Concluded(s, run, built, now)) && !Current(CompletePlan(s.t, run, now).0, run)
  {
    assert RunOk(s.t, s.runs[r]);
    CompletedRow(s.t, run, built, now);
    var d' := CompletePlan(s.t, run, now).0.documents[run.snapshot.document];
    CompletionStep(s, r, d', BuiltBy(built, run), now);
    ConcludedIs(s, r, run, built, d', now);
  }

  lemma ConcludedIs(s: Sys, r: nat, run: Run, built: map<(Uuid, int), Build>, d': Document, now: Time)
    requires r in s.runs && s.runs[r] == run.(phase := Raised) && run.phase.Holding? && run.job in s.t.jobs
    requires CompletePlan(s.t, run, now).0 == SetDocument(CompleteJob(s.t, run.job, now), run.snapshot.document, d')
    ensures
      var s1 := JobFinished(s, r, now);
      Concluded(s, run, built, now) == s1.(t := SetDocument(s1.t, run.snapshot.document, d'), built := BuiltBy(built, run))
  {}

  lemma ReturnAfterCompletion(s: Sys, r: nat)
    requires r in s.runs && SysOk(Go(s, r, Raised)) && !Current(s.t, s.runs[r])
    ensures SysOk(Go(s, r, Returned))
  {
    SilentStep(Go(s, r, Raised), r, Returned);
    GoGo(s, r, Raised, Returned);
  }

  lemma CommitPlanStep(s: Sys, r: nat, now: Time)
    requires SysOk(s) && InFlight(s, r, now) && s.runs[r].phase.Holding?
    requires WorkspaceOf(s.t, s.runs[r]) in s.t.workspaces
    ensures SysOk(ApplyCommitPlan(s, r, now))
  {
    var run := s.runs[r];
    var (t, done) := PlanEffect(s.t, run, now);
    if !done {
      SilentStep(s, r, Raised);
    } else if run.phase.plan.IndexFirst? {
      ReconcilingOk(s, r);
      var s1 := Reconciling(s, r);
      assert MoveDocument(s1.t, s1.runs[r], Uploaded, Indexing, now) == Some(t);
      MoveStep(s1, r, Uploaded, Indexing, s.built, Building(run.phase.contract), now);
      assert s1.(t := t, built := s.built) == Go(s.(t := t), r, Raised);
      GoGo(s.(t := t), r, Raised, Building(run.phase.contract));
    } else {
      CommitCompletes(s, r, now);
      ReturnAfterCompletion(Committed(s, r, now), r);
    }
  }

  // ----- the end of a run

  lemma SucceedStep(s: Sys, r: nat, now: Time)
    requires SysOk(s) && InFlight(s, r, now)
    ensures SysOk(ApplySucceed(s, r, now))
  {
    if LiveRun(s.t, s.runs[r], now) {
      CompleteStep(s, r, now);
      SilentStep(JobFinished(s, r, now), r, Ended);
      assert ApplySucceed(s, r, now) == Go(JobFinished(s, r, now), r, Ended);
    } else {
      SilentStep(s, r, Ended);
      assert ApplySucceed(s, r, now) == Go(s, r, Ended);
    }
  }

  lemma FailStep(s: Sys, r: nat, code: ErrorCode, retryAfter: nat, now: Time)
    requires SysOk(s) && InFlight(s, r, now)
    ensures SysOk(ApplyFail(s, r, code, retryAfter, now))
  {
    if LiveRun(s.t, s.runs[r], now) {
      ReleaseStep(s, r, code, retryAfter, now);
      SilentStep(JobReleased(s, r, code, retryAfter, now), r, Ended);
      assert ApplyFail(s, r, code, retryAfter, now) == Go(JobReleased(s, r, code, retryAfter, now), r, Ended);
    } else {
      SilentStep(s, r, Ended);
      assert ApplyFail(s, r, code, retryAfter, now) == Go(s, r, Ended);
    }
  }

  // ----- every step, every behaviour

  lemma StepKeeps(s: Sys, l: Label)
    requires SysOk(s) && Enabled(s, l)
    ensures SysOk(Apply(s, l))
  {
    match l
    case Store(ws, doc, source, job, now) => StoreStep(s, ws, doc, source, job, now);
    case Replace(ws, doc, source, job, now) => ReplaceStep(s, ws, doc, source, job, now);
    case Delete(ws, doc, job, now) => DeleteStep(s, ws, doc, job, now);
    case Enqueue(ws, c, ids, now) => EnqueueStep(s, ws, c, ids, now);
    case Recover(retryAfter, now) => RecoverStep(s, retryAfter, now);
    case Claim(r, job, owner, leaseFor, _, now) => ClaimStep(s, r, job, owner, leaseFor, now);
    case Heartbeat(r, leaseFor, now) => HeartbeatStep(s, r, leaseFor, now);
    case Read(r) => ReadStep(s, r);
    case Reset(r, now) => ResetStep(s, r, now);
    case Reconcile(r, c) => ReconcileStep(s, r, c);
    case CommitPlan(r, now) => CommitPlanStep(s, r, now);
    case Activate(r, now) => ActivateStep(s, r, now);
    case Break(r, cancelled) => SilentStep(s, r, Cleaning(cancelled));
    case MarkFailed(r, now) => MarkFailedStep(s, r, now);
    case Raise(r) => SilentStep(s, r, Raised);
    case Abandon(r) => SilentStep(s, r, Ended);
    case Succeed(r, now) => SucceedStep(s, r, now);
    case Fail(r, code, retryAfter, now) => FailStep(s, r, code, retryAfter, now);
  }

  /** The invariant holds at every point of every behaviour. */
  lemma {:induction false} AlwaysOk(trace: seq<Sys>, i: nat)
    requires Behaviour(trace) && i < |trace|
    ensures SysOk(trace[i])
  {
    if i == 0 {
      InitOk(trace[0]);
    } else {
      AlwaysOk(trace, i - 1);
      assert StepAt(trace, i);
      var l :| Enabled(trace[i - 1], l) && trace[i] == Apply(trace[i - 1], l);
      StepKeeps(trace[i - 1], l);
    }
  }
}
