/** The invariant of the whole system and its preservation by the steps of a worker run. */
module ProtocolInvariant {
  import opened Entities
  import opened JobSql
  import opened DocumentSql
  import opened TableInvariant
  import opened Protocol

  /** No later attempt has superseded this run, and its attempt is still open. */
  predicate Current(t: Tables, run: Run) {
    run.job in t.jobs && t.jobs[run.job].status.Running? && t.jobs[run.job].attempts == run.Attempt()
  }

  ghost predicate PlanFits(plan: Plan, d: Document, job: Job) {
    match plan
    case RebuildActive => job.kind.ReindexDocument? && d.status.Ready?
    case DeleteActive => job.kind.DeleteDocument? && d.status.Deleting?
    case ReplaceActive => job.kind.IndexDocument? && d.status.Updating?
    case IndexFirst => job.kind.IndexDocument? && d.status.Uploaded?
    case Refuse => false
  }

  /** What a current run knows about its document at each program point. */
  ghost predicate PhaseFits(d: Document, run: Run) {
    match run.phase
    case Resetting(from) => d.status == from && (from.Failed? || from.Indexing?)
    case Planned(plan) => PlanFits(plan, d, run.snapshot)
    case Holding(plan, _, _) => PlanFits(plan, d, run.snapshot)
    case Building(_) => d.status.Indexing?
    case Returned => run.snapshot.kind.IndexDocument? && d.status.Ready? && d.active == Some(run.snapshot.revision)
    case _ => true
  }

  ghost predicate SameJob(j: Job, snapshot: Job) {
    && j.document == snapshot.document && j.revision == snapshot.revision && j.kind == snapshot.kind
    && j.createdAt == snapshot.createdAt && j.startedAt == snapshot.startedAt
  }

  ghost predicate RunOk(t: Tables, run: Run) {
    && run.job in t.jobs
    && run.snapshot.status.Running? && ValidSnapshot(run.snapshot)
    && SameJob(t.jobs[run.job], run.snapshot)
    && run.Attempt() <= t.jobs[run.job].attempts
    && run.snapshot.document in t.documents
    && (Current(t, run) ==>
          && t.jobs[run.job].leaseOwner == run.snapshot.leaseOwner
          && PhaseFits(t.documents[run.snapshot.document], run))
  }

  ghost predicate AttemptsDistinct(runs: map<nat, Run>) {
    forall a, b | a in runs && b in runs && runs[a].job == runs[b].job && runs[a].Attempt() == runs[b].Attempt() ::
      a == b
  }

  ghost predicate LockOk(t: Tables, locks: map<Uuid, nat>, r: nat, run: Run) {
    run.phase.Holding? ==>
      var w := WorkspaceOf(t, run);
      w in locks && locks[w] == r && w in t.workspaces && t.workspaces[w].isActive
  }

  ghost predicate LocksOk(t: Tables, runs: map<nat, Run>, locks: map<Uuid, nat>) {
    && (forall w | w in locks ::
          locks[w] in runs && runs[locks[w]].phase.Holding? && WorkspaceOf(t, runs[locks[w]]) == w)
    && (forall r {:trigger LockOk(t, locks, r, runs[r])} | r in runs :: LockOk(t, locks, r, runs[r]))
  }

  /** An unflagged active revision that a path holding the workspace lock activated or confirmed. */
  ghost predicate Exposed(t: Tables, built: map<(Uuid, int), Build>, d: Uuid, a: int) {
    && d in t.documents && t.documents[d].active == Some(a) && !t.documents[d].status.Deleted?
    && a in t.documents[d].revisions && !t.documents[d].revisions[a].requiresReindex
    && (d, a) in built && built[(d, a)].confirmed
  }

  ghost predicate UnderContract(t: Tables, built: map<(Uuid, int), Build>, d: Uuid, a: int) {
    && d in t.documents && t.documents[d].workspace in t.workspaces && (d, a) in built
    && built[(d, a)].contract == t.workspaces[t.documents[d].workspace].contract
  }

  ghost predicate ContractOk(t: Tables, built: map<(Uuid, int), Build>) {
    forall d, a | Exposed(t, built, d, a) :: UnderContract(t, built, d, a)
  }

  ghost predicate Covers(t: Tables, built: map<(Uuid, int), Build>, w: Uuid, marks: map<Uuid, int>) {
    forall d, a | Exposed(t, built, d, a) && t.documents[d].workspace == w :: d in marks && marks[d] == a
  }

  /** The uncommitted marks of a contract change cover what the change would invalidate. */
  ghost predicate MarksOk(t: Tables, built: map<(Uuid, int), Build>, run: Run) {
    run.phase.Holding? ==>
      var w := WorkspaceOf(t, run);
      && w in t.workspaces
      && (run.phase.contract != t.workspaces[w].contract ==> Covers(t, built, w, run.phase.marks))
  }

  function Count(b: bool): nat { if b then 1 else 0 }

  /** Each claim is one attempt by one owner, and each attempt but a running one has ended once. */
  ghost predicate TallyOk(j: Job, tally: Tally) {
    && |tally.owners| == j.attempts
    && |tally.owners| == tally.failures + tally.recoveries + tally.successes + Count(j.status.Running?)
    && tally.successes == Count(j.status.Succeeded?)
    && (j.status.Running? ==> |tally.owners| > 0 && j.leaseOwner == Some(tally.owners[|tally.owners| - 1]))
  }

  ghost predicate LedgerOk(jobs: map<Uuid, Job>, ledger: map<Uuid, Tally>) {
    && (forall id {:trigger TallyOk(jobs[id], TallyOf(ledger, id))} | id in jobs :: TallyOk(jobs[id], TallyOf(ledger, id)))
    && (forall id | id in ledger :: id in jobs)
  }

  ghost predicate RunCounted(ledger: map<Uuid, Tally>, run: Run) {
    var owners := TallyOf(ledger, run.job).owners;
    0 < run.Attempt() <= |owners| && owners[run.Attempt() - 1] == run.Owner()
  }

  ghost predicate RunsOk(t: Tables, runs: map<nat, Run>) {
    forall r {:trigger RunOk(t, runs[r])} | r in runs :: RunOk(t, runs[r])
  }

  ghost predicate AllMarksOk(t: Tables, built: map<(Uuid, int), Build>, runs: map<nat, Run>) {
    forall r {:trigger MarksOk(t, built, runs[r])} | r in runs :: MarksOk(t, built, runs[r])
  }

  ghost predicate AllRunsCounted(ledger: map<Uuid, Tally>, runs: map<nat, Run>) {
    forall r {:trigger RunCounted(ledger, runs[r])} | r in runs :: RunCounted(ledger, runs[r])
  }

  ghost predicate SysOk(s: Sys) {
    && TablesOk(s.t)
    && RunsOk(s.t, s.runs) && AttemptsDistinct(s.runs)
    && LocksOk(s.t, s.runs, s.locks)
    && AllMarksOk(s.t, s.built, s.runs) && ContractOk(s.t, s.built)
    && LedgerOk(s.t.jobs, s.ledger) && AllRunsCounted(s.ledger, s.runs)
  }

  lemma InitOk(s: Sys)
    requires Init(s)
    ensures SysOk(s)
  {}

  // ----- who may act

  predicate LiveRun(t: Tables, run: Run, now: Time) {
    run.job in t.jobs && Live(t.jobs[run.job], run.Owner(), run.Attempt(), now)
  }

  /** Mutual exclusion: at most one run is current on a document. */
  lemma OneCurrentRun(t: Tables, runs: map<nat, Run>, a: nat, b: nat)
    requires OneActiveJob(t) && RunsOk(t, runs) && AttemptsDistinct(runs)
    requires a in runs && b in runs && Current(t, runs[a]) && Current(t, runs[b])
    requires runs[a].snapshot.document == runs[b].snapshot.document
    ensures a == b
  {
    assert RunOk(t, runs[a]) && RunOk(t, runs[b]);
    assert runs[a].job == runs[b].job;
  }

  lemma StartedBeforeClaim(t: Tables, run: Run, now: Time)
    requires RunOk(t, run) && run.ClaimedAt() <= now
    ensures run.job in t.jobs && t.jobs[run.job].startedAt.Some? && now >= t.jobs[run.job].startedAt.value
  {}

  // ----- exposure

  /** Nothing new becomes exposed, and no contract changes. */
  ghost predicate NoNewExposure(t: Tables, built: map<(Uuid, int), Build>, t': Tables, built': map<(Uuid, int), Build>) {
    && (forall w | w in t.workspaces :: w in t'.workspaces && t'.workspaces[w].contract == t.workspaces[w].contract)
    && (forall d | d in t.documents :: d in t'.documents && t'.documents[d].workspace == t.documents[d].workspace)
    && (forall d, a | Exposed(t', built', d, a) :: Exposed(t, built, d, a) && built'[(d, a)] == built[(d, a)])
  }

  lemma ContractKept(t: Tables, built: map<(Uuid, int), Build>, t': Tables, built': map<(Uuid, int), Build>)
    requires ContractOk(t, built) && NoNewExposure(t, built, t', built')
    ensures ContractOk(t', built')
  {
    forall d, a | Exposed(t', built', d, a) ensures UnderContract(t', built', d, a) {
      assert UnderContract(t, built, d, a);
    }
  }

  lemma MarksKept(t: Tables, built: map<(Uuid, int), Build>, t': Tables, built': map<(Uuid, int), Build>, run: Run)
    requires MarksOk(t, built, run) && NoNewExposure(t, built, t', built')
    requires run.snapshot.document in t.documents
    ensures MarksOk(t', built', run)
  {
    if run.phase.Holding? && run.phase.contract != t.workspaces[WorkspaceOf(t, run)].contract {
      assert Covers(t', built', WorkspaceOf(t, run), run.phase.marks);
    }
  }

  lemma AllMarksKept(t: Tables, built: map<(Uuid, int), Build>, t': Tables, built': map<(Uuid, int), Build>, runs: map<nat, Run>)
    requires AllMarksOk(t, built, runs) && NoNewExposure(t, built, t', built')
    requires RunsOk(t, runs)
    ensures AllMarksOk(t', built', runs)
  {
    forall r | r in runs ensures MarksOk(t', built', runs[r]) {
      assert RunOk(t, runs[r]);
      MarksKept(t, built, t', built', runs[r]);
    }
  }

  // ----- steps that change only job rows

  ghost predicate JobEvolves(j: Job, j': Job) {
    && SameJob(j', j) && j'.attempts == j.attempts
    && (j'.status.Running? ==> j.status.Running? && j'.leaseOwner == j.leaseOwner)
  }

  lemma JobsStep(s: Sys, jobs': map<Uuid, Job>, ledger': map<Uuid, Tally>)
    requires SysOk(s) && TablesOk(s.t.(jobs := jobs')) && LedgerOk(jobs', ledger')
    requires jobs'.Keys == s.t.jobs.Keys
    requires forall id | id in s.t.jobs :: JobEvolves(s.t.jobs[id], jobs'[id])
    requires forall id | id in s.t.jobs :: TallyOf(ledger', id).owners == TallyOf(s.ledger, id).owners
    ensures SysOk(s.(t := s.t.(jobs := jobs'), ledger := ledger'))
  {
    RunsAfterJobs(s.t, s.runs, s.ledger, jobs', ledger');
    SameDocumentsSameFacts(s, s.t.(jobs := jobs'));
  }

  lemma RunsAfterJobs(t: Tables, runs: map<nat, Run>, ledger: map<Uuid, Tally>, jobs': map<Uuid, Job>, ledger': map<Uuid, Tally>)
    requires RunsOk(t, runs) && AllRunsCounted(ledger, runs)
    requires jobs'.Keys == t.jobs.Keys
    requires forall id | id in t.jobs :: JobEvolves(t.jobs[id], jobs'[id])
    requires forall id | id in t.jobs :: TallyOf(ledger', id).owners == TallyOf(ledger, id).owners
    ensures RunsOk(t.(jobs := jobs'), runs) && AllRunsCounted(ledger', runs)
  {
    forall r | r in runs ensures RunOk(t.(jobs := jobs'), runs[r]) && RunCounted(ledger', runs[r]) {
      assert RunOk(t, runs[r]) && RunCounted(ledger, runs[r]);
    }
  }

  /** Locks, marks and contracts do not look at job rows. */
  lemma SameDocumentsSameFacts(s: Sys, t': Tables)
    requires RunsOk(s.t, s.runs) && LocksOk(s.t, s.runs, s.locks)
    requires AllMarksOk(s.t, s.built, s.runs) && ContractOk(s.t, s.built)
    requires t'.documents == s.t.documents && t'.workspaces == s.t.workspaces
    ensures LocksOk(t', s.runs, s.locks) && AllMarksOk(t', s.built, s.runs) && ContractOk(t', s.built)
  {
    assert NoNewExposure(s.t, s.built, t', s.built);
    ContractKept(s.t, s.built, t', s.built);
    AllMarksKept(s.t, s.built, t', s.built, s.runs);
    forall r | r in s.runs ensures LockOk(t', s.locks, r, s.runs[r]) {
      assert LockOk(s.t, s.locks, r, s.runs[r]);
    }
  }

  /** One job row changes, and its history with it. */
  lemma OneJobStep(s: Sys, id: Uuid, j': Job, tally: Tally)
    requires SysOk(s) && id in s.t.jobs && JobEvolves(s.t.jobs[id], j') && RowOk(j')
    requires Active(j') ==> Active(s.t.jobs[id])
    requires tally.owners == TallyOf(s.ledger, id).owners && TallyOk(j', tally)
    ensures SysOk(s.(t := s.t.(jobs := s.t.jobs[id := j']), ledger := s.ledger[id := tally]))
  {
    JobUpdateKeeps(s.t, id, j');
    forall i | i in s.t.jobs ensures TallyOk(s.t.jobs[id := j'][i], TallyOf(s.ledger[id := tally], i)) {
      assert TallyOk(s.t.jobs[i], TallyOf(s.ledger, i));
    }
    JobsStep(s, s.t.jobs[id := j'], s.ledger[id := tally]);
  }

  lemma RecoverStep(s: Sys, retryAfter: nat, now: Time)
    requires SysOk(s)
    ensures SysOk(ApplyRecover(s, retryAfter, now))
  {
    var s' := ApplyRecover(s, retryAfter, now);
    RecoverKeeps(s.t, retryAfter, now);
    forall i | i in s.t.jobs
      ensures TallyOk(s'.t.jobs[i], TallyOf(s'.ledger, i)) && JobEvolves(s.t.jobs[i], s'.t.jobs[i])
    {
      assert TallyOk(s.t.jobs[i], TallyOf(s.ledger, i));
    }
    JobsStep(s, s'.t.jobs, s'.ledger);
    assert s' == s.(t := s.t.(jobs := s'.t.jobs), ledger := s'.ledger);
  }

  lemma HeartbeatStep(s: Sys, r: nat, leaseFor: int, now: Time)
    requires SysOk(s) && InFlight(s, r, now) && leaseFor > 0
    ensures SysOk(ApplyHeartbeat(s, r, leaseFor, now))
  {
    var run, s' := s.runs[r], ApplyHeartbeat(s, r, leaseFor, now);
    if LiveRun(s.t, run, now) {
      var j := s.t.jobs[run.job];
      assert RunOk(s.t, run) && JobOk(s.t, j) && TallyOk(j, TallyOf(s.ledger, run.job));
      StartedBeforeClaim(s.t, run, now);
      RenewedIsValid(j, leaseFor, now);
      JobUpdateKeeps(s.t, run.job, Renewed(j, leaseFor, now));
      JobsStep(s, s'.t.jobs, s.ledger);
    }
  }

  /** The job of run `r` done, and counted. */
  function JobFinished(s: Sys, r: nat, now: Time): Sys
    requires r in s.runs && s.runs[r].job in s.t.jobs
  {
    var id := s.runs[r].job;
    var tally := TallyOf(s.ledger, id);
    s.(t := CompleteJob(s.t, id, now), ledger := s.ledger[id := tally.(successes := tally.successes + 1)])
  }

  /** The job of run `r` released, and counted. */
  function JobReleased(s: Sys, r: nat, code: ErrorCode, retryAfter: nat, now: Time): Sys
    requires r in s.runs && s.runs[r].job in s.t.jobs
  {
    var id := s.runs[r].job;
    var tally := TallyOf(s.ledger, id);
    s.(t := s.t.(jobs := s.t.jobs[id := Released(s.t.jobs[id], code, retryAfter, now)]),
       ledger := s.ledger[id := tally.(failures := tally.failures + 1)])
  }

  lemma CompleteStep(s: Sys, r: nat, now: Time)
    requires SysOk(s) && InFlight(s, r, now) && LiveRun(s.t, s.runs[r], now)
    ensures SysOk(JobFinished(s, r, now))
  {
    var run := s.runs[r];
    var j, tally := s.t.jobs[run.job], TallyOf(s.ledger, run.job);
    assert RunOk(s.t, run) && JobOk(s.t, j) && TallyOk(j, tally);
    StartedBeforeClaim(s.t, run, now);
    CompletedIsValid(j, now);
    OneJobStep(s, run.job, Completed(j, now), tally.(successes := tally.successes + 1));
  }

  lemma ReleaseStep(s: Sys, r: nat, code: ErrorCode, retryAfter: nat, now: Time)
    requires SysOk(s) && InFlight(s, r, now) && LiveRun(s.t, s.runs[r], now)
    ensures SysOk(JobReleased(s, r, code, retryAfter, now))
  {
    var run := s.runs[r];
    var j, tally := s.t.jobs[run.job], TallyOf(s.ledger, run.job);
    assert RunOk(s.t, run) && JobOk(s.t, j) && TallyOk(j, tally);
    StartedBeforeClaim(s.t, run, now);
    ReleasedIsValid(j, code, retryAfter, now);
    OneJobStep(s, run.job, Released(j, code, retryAfter, now), tally.(failures := tally.failures + 1));
  }

  // ----- claims

  lemma ClaimStep(s: Sys, r: nat, job: Uuid, owner: string, leaseFor: int, now: Time)
    requires SysOk(s) && r !in s.runs && job in s.t.jobs && Claimable(s.t.jobs[job], now)
    requires ValidOwner(owner) && leaseFor > 0
    ensures SysOk(ApplyClaim(s, r, job, owner, leaseFor, now))
  {
    var s' := ApplyClaim(s, r, job, owner, leaseFor, now);
    var j, j' := s.t.jobs[job], s'.t.jobs[job];
    assert JobOk(s.t, j) && TallyOk(j, TallyOf(s.ledger, job));
    ClaimedIsValid(j, owner, leaseFor, now);
    JobUpdateKeeps(s.t, job, j');
    ClaimedRuns(s, r, job, owner, leaseFor, now);
    SameDocumentsSameFacts(s, s'.t);
    forall q | q in s'.runs
      ensures LockOk(s'.t, s'.locks, q, s'.runs[q]) && MarksOk(s'.t, s'.built, s'.runs[q])
    {
      if q != r { assert LockOk(s'.t, s.locks, q, s.runs[q]) && MarksOk(s'.t, s.built, s.runs[q]); }
    }
    assert LocksOk(s'.t, s'.runs, s'.locks);
    forall i | i in s'.t.jobs ensures TallyOk(s'.t.jobs[i], TallyOf(s'.ledger, i)) {
      assert TallyOk(s.t.jobs[i], TallyOf(s.ledger, i));
    }
  }

  /** The new run is the only one of its attempt; the runs before it are superseded. */
  lemma ClaimedRuns(s: Sys, r: nat, job: Uuid, owner: string, leaseFor: int, now: Time)
    requires TablesOk(s.t) && RunsOk(s.t, s.runs) && AttemptsDistinct(s.runs) && AllRunsCounted(s.ledger, s.runs)
    requires r !in s.runs && job in s.t.jobs && Claimable(s.t.jobs[job], now)
    requires RowOk(Claimed(s.t.jobs[job], owner, leaseFor, now))
    requires TallyOk(s.t.jobs[job], TallyOf(s.ledger, job))
    ensures
      var s' := ApplyClaim(s, r, job, owner, leaseFor, now);
      RunsOk(s'.t, s'.runs) && AttemptsDistinct(s'.runs) && AllRunsCounted(s'.ledger, s'.runs)
  {
    var s' := ApplyClaim(s, r, job, owner, leaseFor, now);
    assert JobOk(s.t, s.t.jobs[job]);
    forall q | q in s'.runs
      ensures RunOk(s'.t, s'.runs[q]) && RunCounted(s'.ledger, s'.runs[q])
      ensures q != r ==> s'.runs[q].job != job || s'.runs[q].Attempt() != s'.runs[r].Attempt()
    {
      if q != r {
        assert RunOk(s.t, s.runs[q]) && RunCounted(s.ledger, s.runs[q]);
        OlderRun(s, r, job, owner, leaseFor, now, q);
      }
    }
  }

  /** A run from before the claim. */
  lemma OlderRun(s: Sys, r: nat, job: Uuid, owner: string, leaseFor: int, now: Time, q: nat)
    requires r !in s.runs && job in s.t.jobs && Claimable(s.t.jobs[job], now) && q in s.runs
    requires RunOk(s.t, s.runs[q]) && RunCounted(s.ledger, s.runs[q]) && TallyOk(s.t.jobs[job], TallyOf(s.ledger, job))
    ensures
      var s' := ApplyClaim(s, r, job, owner, leaseFor, now);
      && s'.runs[q] == s.runs[q] && RunOk(s'.t, s'.runs[q]) && RunCounted(s'.ledger, s'.runs[q])
      && (s'.runs[q].job != job || s'.runs[q].Attempt() != s'.runs[r].Attempt())
  {}

  // ----- local moves of a run

  lemma SilentStep(s: Sys, r: nat, phase: Phase)
    requires SysOk(s) && r in s.runs && !phase.Holding?
    requires Current(s.t, s.runs[r]) && s.runs[r].snapshot.document in s.t.documents ==>
               PhaseFits(s.t.documents[s.runs[r].snapshot.document], s.runs[r].(phase := phase))
    ensures SysOk(Go(s, r, phase))
  {
    var s' := Go(s, r, phase);
    forall q | q in s'.runs
      ensures RunOk(s.t, s'.runs[q]) && RunCounted(s.ledger, s'.runs[q])
      ensures LockOk(s.t, s'.locks, q, s'.runs[q]) && MarksOk(s.t, s.built, s'.runs[q])
    {
      assert RunOk(s.t, s.runs[q]) && RunCounted(s.ledger, s.runs[q]);
      assert LockOk(s.t, s.locks, q, s.runs[q]) && MarksOk(s.t, s.built, s.runs[q]);
    }
    DistinctKept(s.runs, r, phase);
    assert LocksOk(s.t, s'.runs, s'.locks);
  }

  lemma DistinctKept(runs: map<nat, Run>, r: nat, phase: Phase)
    requires AttemptsDistinct(runs) && r in runs
    ensures AttemptsDistinct(runs[r := runs[r].(phase := phase)])
  {}

  lemma ReadStep(s: Sys, r: nat)
    requires SysOk(s) && r in s.runs && s.runs[r].phase.Reading?
    ensures SysOk(Go(s, r, AfterRead(s.t, s.runs[r].snapshot)))
  {
    var run := s.runs[r];
    assert RunOk(s.t, run);
    if Current(s.t, run) {
      assert JobOk(s.t, s.t.jobs[run.job]);
      ReadFits(s.t, run);
    }
    SilentStep(s, r, AfterRead(s.t, run.snapshot));
  }

  /** A current run's opening reads choose the branch that its document calls for. */
  lemma ReadFits(t: Tables, run: Run)
    requires TablesOk(t) && RunOk(t, run) && Current(t, run)
    ensures
      var phase := AfterRead(t, run.snapshot);
      PhaseFits(t.documents[run.snapshot.document], run.(phase := phase)) && !phase.Raised?
  {
    var d := t.documents[run.snapshot.document];
    assert JobOk(t, t.jobs[run.job]) && DocumentOk(t, d);
    ActiveRevisionIsReadable(d);
  }

  lemma ReconcileStep(s: Sys, r: nat, c: Contract)
    requires SysOk(s) && r in s.runs && s.runs[r].phase.Planned? && WorkspaceOf(s.t, s.runs[r]) !in s.locks
    ensures SysOk(ApplyReconcile(s, r, c))
  {
    var run := s.runs[r];
    var w := WorkspaceOf(s.t, run);
    assert RunOk(s.t, run);
    if w in s.t.workspaces && s.t.workspaces[w].isActive {
      LockTaken(s, r, Holding(run.phase.plan, c, Marks(s.t, w, c)), w);
    } else {
      SilentStep(s, r, Raised);
    }
  }

  /** The run takes the free row lock of its workspace. */
  lemma LockTaken(s: Sys, r: nat, phase: Phase, w: Uuid)
    requires SysOk(s) && r in s.runs && s.runs[r].phase.Planned? && RunOk(s.t, s.runs[r])
    requires w == WorkspaceOf(s.t, s.runs[r]) && w !in s.locks && w in s.t.workspaces && s.t.workspaces[w].isActive
    requires phase.Holding? && phase.plan == s.runs[r].phase.plan && phase.marks == Marks(s.t, w, phase.contract)
    ensures SysOk(Go(s, r, phase).(locks := s.locks[w := r]))
  {
    var runs' := s.runs[r := s.runs[r].(phase := phase)];
    MarksCover(s.t, s.built, w, phase.contract);
    DistinctKept(s.runs, r, phase);
    forall q | q in runs' ensures RunOk(s.t, runs'[q]) && RunCounted(s.ledger, runs'[q]) {
      assert RunOk(s.t, s.runs[q]) && RunCounted(s.ledger, s.runs[q]);
    }
    forall q | q in runs' ensures LockOk(s.t, s.locks[w := r], q, runs'[q]) && MarksOk(s.t, s.built, runs'[q]) {
      assert LockOk(s.t, s.locks, q, s.runs[q]) && MarksOk(s.t, s.built, s.runs[q]);
    }
    assert LocksOk(s.t, runs', s.locks[w := r]);
  }

  lemma MarksCover(t: Tables, built: map<(Uuid, int), Build>, w: Uuid, c: Contract)
    requires w in t.workspaces
    ensures c != t.workspaces[w].contract ==> Covers(t, built, w, Marks(t, w, c))
  {}

  // ----- document moves of the first index

  /** One document row changes, and the history of its revisions with it. Either nothing new is
      exposed, or the workspace is unlocked and what is exposed was built under its contract. */
  lemma DocumentStep(s: Sys, id: Uuid, d': Document, built': map<(Uuid, int), Build>)
    requires SysOk(s) && id in s.t.documents && d'.workspace == s.t.documents[id].workspace
    requires TablesOk(SetDocument(s.t, id, d'))
    requires forall q | q in s.runs && Current(s.t, s.runs[q]) && s.runs[q].snapshot.document == id ::
               PhaseFits(d', s.runs[q])
    requires forall k | k in built' && k.0 != id :: k in s.built && built'[k] == s.built[k]
    requires
      var t' := SetDocument(s.t, id, d');
      forall a | Exposed(t', built', id, a) ::
        || (Exposed(s.t, s.built, id, a) && built'[(id, a)] == s.built[(id, a)])
        || (d'.workspace !in s.locks && UnderContract(t', built', id, a))
    ensures SysOk(s.(t := SetDocument(s.t, id, d'), built := built'))
  {
    var t' := SetDocument(s.t, id, d');
    forall q | q in s.runs
      ensures RunOk(t', s.runs[q]) && LockOk(t', s.locks, q, s.runs[q]) && MarksOk(t', built', s.runs[q])
    {
      RunAfterDocument(s, id, d', built', q);
    }
    assert LocksOk(t', s.runs, s.locks) by {
      forall w | w in s.locks ensures WorkspaceOf(t', s.runs[s.locks[w]]) == w {}
    }
    forall d, a | Exposed(t', built', d, a) ensures UnderContract(t', built', d, a) {
      if d != id { assert (d, a).0 != id && Exposed(s.t, s.built, d, a); }
      if Exposed(s.t, s.built, d, a) { assert UnderContract(s.t, s.built, d, a); }
    }
  }

  lemma RunAfterDocument(s: Sys, id: Uuid, d': Document, built': map<(Uuid, int), Build>, q: nat)
    requires SysOk(s) && id in s.t.documents && d'.workspace == s.t.documents[id].workspace && q in s.runs
    requires TablesOk(SetDocument(s.t, id, d'))
    requires Current(s.t, s.runs[q]) && s.runs[q].snapshot.document == id ==> PhaseFits(d', s.runs[q])
    requires forall k | k in built' && k.0 != id :: k in s.built && built'[k] == s.built[k]
    requires
      var t' := SetDocument(s.t, id, d');
      forall a | Exposed(t', built', id, a) :: Exposed(s.t, s.built, id, a) || d'.workspace !in s.locks
    ensures
      var t' := SetDocument(s.t, id, d');
      RunOk(t', s.runs[q]) && LockOk(t', s.locks, q, s.runs[q]) && MarksOk(t', built', s.runs[q])
  {
    assert RunOk(s.t, s.runs[q]) && LockOk(s.t, s.locks, q, s.runs[q]) && MarksOk(s.t, s.built, s.runs[q]);
    MarksAfterDocument(s, id, d', built', s.runs[q]);
  }

  lemma MarksAfterDocument(s: Sys, id: Uuid, d': Document, built': map<(Uuid, int), Build>, run: Run)
    requires MarksOk(s.t, s.built, run) && RunOk(s.t, run)
    requires run.phase.Holding? ==> WorkspaceOf(s.t, run) in s.locks
    requires id in s.t.documents && d'.workspace == s.t.documents[id].workspace
    requires forall k | k in built' && k.0 != id :: k in s.built && built'[k] == s.built[k]
    requires
      var t' := SetDocument(s.t, id, d');
      forall a | Exposed(t', built', id, a) :: Exposed(s.t, s.built, id, a) || d'.workspace !in s.locks
    ensures MarksOk(SetDocument(s.t, id, d'), built', run)
  {
    var t' := SetDocument(s.t, id, d');
    if run.phase.Holding? {
      var w := WorkspaceOf(s.t, run);
      forall d, a | Exposed(t', built', d, a) && t'.documents[d].workspace == w ensures Exposed(s.t, s.built, d, a) {
        if d != id { assert (d, a).0 != id; }
      }
    }
  }

  /** Shared by reset, activation and failure marking: move the document, then the run. */
  lemma MoveStep(s: Sys, r: nat, from: DocumentStatus, to: DocumentStatus, built': map<(Uuid, int), Build>,
                 phase: Phase, now: Time)
    requires SysOk(s) && InFlight(s, r, now) && !phase.Holding?
    requires from.Uploaded? || from.Indexing? || from.Failed?
    requires to.Uploaded? || to.Indexing? || to.Failed? || to.Ready?
    requires MoveDocument(s.t, s.runs[r], from, to, now).Some?
    requires PhaseFits(MoveDocument(s.t, s.runs[r], from, to, now).value.documents[s.runs[r].snapshot.document],
                       s.runs[r].(phase := phase))
    requires
      var key := (s.runs[r].snapshot.document, s.runs[r].snapshot.revision);
      if to.Ready? then key in built' && !built'[key].confirmed && built' == s.built[key := built'[key]]
      else built' == s.built
    ensures SysOk(Go(s.(t := MoveDocument(s.t, s.runs[r], from, to, now).value, built := built'), r, phase))
  {
    var run := s.runs[r];
    var id := run.snapshot.document;
    var t := MoveDocument(s.t, run, from, to, now).value;
    assert RunOk(s.t, run) && JobOk(s.t, s.t.jobs[run.job]) && DocumentOk(s.t, s.t.documents[id]);
    FirstIndexMoveKeeps(s.t, WorkspaceOf(s.t, run), id, from, to, run.job, run.Owner(), run.Attempt(), now);
    SilentStep(s, r, Raised);
    var s0 := Go(s, r, Raised);
    forall q | q in s0.runs && Current(s0.t, s0.runs[q]) && s0.runs[q].snapshot.document == id
      ensures q == r
    {
      OneCurrentRun(s0.t, s0.runs, q, r);
    }
    DocumentStep(s0, id, t.documents[id], built');
    var s1 := s0.(t := t, built := built');
    assert SetDocument(s.t, id, t.documents[id]) == t;
    SilentStep(s1, r, phase);
    GoGo(s.(t := t, built := built'), r, Raised, phase);
  }

  lemma GoGo(s: Sys, r: nat, first: Phase, second: Phase)
    requires r in s.runs
    ensures Go(Go(s, r, first), r, second) == Go(s, r, second)
  {
    assert Go(Go(s, r, first), r, second).runs == Go(s, r, second).runs;
    assert Go(Go(s, r, first), r, second).locks == Go(s, r, second).locks;
  }

  lemma ResetStep(s: Sys, r: nat, now: Time)
    requires SysOk(s) && InFlight(s, r, now) && s.runs[r].phase.Resetting?
    ensures SysOk(ApplyReset(s, r, now))
  {
    var run := s.runs[r];
    match MoveDocument(s.t, run, run.phase.from, Uploaded, now) {
      case None => SilentStep(s, r, Raised);
      case Some(t) =>
        assert RunOk(s.t, run) && JobOk(s.t, s.t.jobs[run.job]);
        var d := t.documents[run.snapshot.document];
        MoveStep(s, r, run.phase.from, Uploaded, s.built,
                 Planned(ChoosePlan(run.snapshot, d, CurrentRevision(d).Some?)), now);
    }
  }

  lemma ActivateStep(s: Sys, r: nat, now: Time)
    requires SysOk(s) && InFlight(s, r, now) && s.runs[r].phase.Building?
    ensures SysOk(ApplyActivate(s, r, now))
  {
    var run := s.runs[r];
    match MoveDocument(s.t, run, Indexing, Ready, now) {
      case None => SilentStep(s, r, Cleaning(false));
      case Some(t) =>
        assert RunOk(s.t, run) && JobOk(s.t, s.t.jobs[run.job]);
        var key := (run.snapshot.document, run.snapshot.revision);
        MoveStep(s, r, Indexing, Ready, s.built[key := Build(run.phase.contract, false)], Returned, now);
    }
  }

  lemma MarkFailedStep(s: Sys, r: nat, now: Time)
    requires SysOk(s) && InFlight(s, r, now) && s.runs[r].phase.Cleaning?
    ensures SysOk(ApplyMarkFailed(s, r, now))
  {
    var run := s.runs[r];
    var phase := if run.phase.cancelled then Ended else Raised;
    match MoveDocument(s.t, run, Indexing, DocumentStatus.Failed, now) {
      case None =>
        SilentStep(s, r, phase);
        assert s.(t := s.t) == s;
      case Some(t) => MoveStep(s, r, Indexing, DocumentStatus.Failed, s.built, phase, now);
    }
  }
}
