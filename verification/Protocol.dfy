/** The leased-job and document-lifecycle protocol.

    A step is one committed transaction, or one local move of a worker process between two
    of them. Any number of worker runs, API calls and recoveries interleave. A run may stop
    for ever after any step, which is how a crash looks from outside.

    A commit may take effect and still be reported as failed: the run then raises from the program
    point behind the commit (`Raise`), or breaks off a first index that is already active (`Break`).

    Every transaction carries its own start time `now`. The only clock assumption is that a
    run's transactions start no earlier than the claim that created the run, so a stale clock
    can make an expired lease look live. */
module Protocol {
  import opened Entities
  import opened JobSql
  import opened DocumentSql
  import opened ApiSpec

  /** The branch that `process` takes once it has read the document. */
  datatype Plan = RebuildActive | DeleteActive | ReplaceActive | IndexFirst | Refuse

  /** The program point of one claimed attempt. */
  datatype Phase =
    | Reading                                                 // claimed, document not read yet
    | Resetting(from: DocumentStatus)                         // a failed or interrupted first index
    | Planned(plan: Plan)                                     // before contract reconciliation
    | Holding(plan: Plan, contract: Contract, marks: map<Uuid, int>) // workspace row locked
    | Building(contract: Contract)                            // first index under way
    | Cleaning(cancelled: bool)                               // first index broken off
    | Returned                                                // process returned
    | Raised                                                  // process raised
    | Ended                                                   // nothing more will happen

  datatype Run = Run(job: Uuid, snapshot: Job, phase: Phase) {
    function Owner(): string { Or(snapshot.leaseOwner, "") }
    function Attempt(): int { snapshot.attempts }
    function ClaimedAt(): Time { snapshot.updatedAt }
  }

  /** History of one job: the owner of each claim, and how attempts ended. */
  datatype Tally = Tally(owners: seq<string>, failures: nat, recoveries: nat, successes: nat)

  /** The contract a revision was indexed under. `confirmed` tells the paths that hold the
      workspace lock up to activation from the first-index path, which does not. */
  datatype Build = Build(contract: Contract, confirmed: bool)

  /** `ledger` and `built` are history; no transition reads them. */
  datatype Sys = Sys(
    t: Tables,
    runs: map<nat, Run>,
    locks: map<Uuid, nat>,
    ledger: map<Uuid, Tally>,
    built: map<(Uuid, int), Build>)

  datatype Label =
    | Store(ws: Uuid, doc: Uuid, source: Source, job: Uuid, now: Time)
    | Replace(ws: Uuid, doc: Uuid, source: Source, job: Uuid, now: Time)
    | Delete(ws: Uuid, doc: Uuid, job: Uuid, now: Time)
    | Enqueue(ws: Uuid, contract: Contract, ids: map<Uuid, Uuid>, now: Time)
    | Recover(retryAfter: nat, now: Time)
    | Claim(run: nat, job: Uuid, owner: string, leaseFor: int, skipped: set<Uuid>, now: Time)
    | Heartbeat(run: nat, leaseFor: int, now: Time)
    | Read(run: nat)
    | Reset(run: nat, now: Time)
    | Reconcile(run: nat, contract: Contract)
    | CommitPlan(run: nat, now: Time)
    | Activate(run: nat, now: Time)
    | Break(run: nat, cancelled: bool)
    | MarkFailed(run: nat, now: Time)
    | Raise(run: nat)
    | Abandon(run: nat)
    | Succeed(run: nat, now: Time)
    | Fail(run: nat, code: ErrorCode, retryAfter: nat, now: Time)

  ghost predicate Init(s: Sys) {
    && s.t.jobs == map[] && s.t.documents == map[]
    && s.runs == map[] && s.locks == map[] && s.ledger == map[] && s.built == map[]
  }

  // ----- local decisions of process

  function ChoosePlan(job: Job, d: Document, activeRead: bool): Plan {
    if job.kind.ReindexDocument? then
      if d.status.Ready? && d.active == Some(job.revision) then RebuildActive else Refuse
    else if job.kind.DeleteDocument? then
      if d.status.Deleting? && d.active == Some(job.revision) then DeleteActive else Refuse
    else if activeRead && d.status.Updating? && d.active != Some(job.revision) then ReplaceActive
    else IndexFirst
  }

  /** What `process` does after its opening reads. */
  function AfterRead(t: Tables, job: Job): Phase {
    if job.document !in t.documents || job.revision !in t.documents[job.document].revisions then Raised
    else
      var d := t.documents[job.document];
      var activeRead := CurrentRevision(d).Some?;
      if d.status.Ready? && job.kind.IndexDocument? then Returned
      else if !activeRead && d.active.Some? then Raised
      else if d.status.Failed? || d.status.Indexing? then Resetting(d.status)
      else Planned(ChoosePlan(job, d, activeRead))
  }

  function WorkspaceOf(t: Tables, run: Run): Uuid {
    if run.snapshot.document in t.documents then t.documents[run.snapshot.document].workspace else 0
  }

  function MoveDocument(t: Tables, run: Run, from: DocumentStatus, to: DocumentStatus, now: Time): Option<Tables> {
    TransitionStatusForJob(t, WorkspaceOf(t, run), run.snapshot.document, from, to,
                           run.job, run.Owner(), run.Attempt(), now)
  }

  /** The statement that ends the transaction of a run holding the workspace row. */
  function CompletePlan(t: Tables, run: Run, now: Time): (Tables, bool)
    requires run.phase.Holding?
  {
    var ws, doc, revision := WorkspaceOf(t, run), run.snapshot.document, run.snapshot.revision;
    match run.phase.plan
    case RebuildActive =>
      CompleteReindex(t, ws, doc, revision, run.job, run.Owner(), run.Attempt(),
                      run.phase.contract.schemaVersion, now)
    case DeleteActive => CompleteDeletion(t, ws, doc, revision, run.job, run.Owner(), run.Attempt(), now)
    case ReplaceActive => CompleteReplacement(t, ws, doc, revision, run.job, run.Owner(), run.Attempt(), now)
    case IndexFirst =>
      (match MoveDocument(t, run, Uploaded, Indexing, now)
       case Some(t1) => (t1, true)
       case None => (t, false))
    case Refuse => (t, false)
  }

  /** The whole transaction: the contract change, then the completing statement. */
  function PlanEffect(t: Tables, run: Run, now: Time): (Tables, bool)
    requires run.phase.Holding? && WorkspaceOf(t, run) in t.workspaces
  {
    CompletePlan(ApplyContract(t, WorkspaceOf(t, run), run.phase.contract, run.phase.marks), run, now)
  }

  // ----- history

  function TallyOf(ledger: map<Uuid, Tally>, job: Uuid): Tally {
    if job in ledger then ledger[job] else Tally([], 0, 0, 0)
  }

  // ----- steps

  /** The run moves to `phase`; leaving `Holding` ends its transaction and frees the row lock. */
  function Go(s: Sys, r: nat, phase: Phase): Sys
    requires r in s.runs
  {
    s.(runs := s.runs[r := s.runs[r].(phase := phase)],
       locks := map w | w in s.locks && s.locks[w] != r :: s.locks[w])
  }

  predicate InFlight(s: Sys, r: nat, now: Time) {
    r in s.runs && !s.runs[r].phase.Ended? && s.runs[r].ClaimedAt() <= now
  }

  predicate MayRaise(s: Sys, r: nat) {
    r in s.runs && !s.runs[r].phase.Raised? && !s.runs[r].phase.Ended? && s.runs[r].phase != Cleaning(true)
  }

  predicate Enabled(s: Sys, l: Label) {
    match l
    case Store(ws, doc, source, job, now) => ApiSpec.Store(s.t, ws, doc, source, job, now).Some?
    case Replace(ws, doc, source, job, now) => ApiSpec.Replace(s.t, ws, doc, source, job, now).Some?
    case Delete(ws, doc, job, now) => ApiSpec.Delete(s.t, ws, doc, job, now).Some?
    case Enqueue(ws, c, ids, now) => ws !in s.locks && FreshIdsFor(Reconciled(s.t, ws, c), ws, ids)
    case Recover(_, _) => true
    case Claim(r, job, owner, leaseFor, skipped, now) =>
      r !in s.runs && IsCandidate(s.t, job, now, skipped) && ValidOwner(owner) && leaseFor > 0
    case Heartbeat(r, leaseFor, now) => InFlight(s, r, now) && leaseFor > 0
    case Read(r) => r in s.runs && s.runs[r].phase.Reading?
    case Reset(r, now) => InFlight(s, r, now) && s.runs[r].phase.Resetting?
    case Reconcile(r, c) => r in s.runs && s.runs[r].phase.Planned? && WorkspaceOf(s.t, s.runs[r]) !in s.locks
    case CommitPlan(r, now) =>
      InFlight(s, r, now) && s.runs[r].phase.Holding? && WorkspaceOf(s.t, s.runs[r]) in s.t.workspaces
    case Activate(r, now) => InFlight(s, r, now) && s.runs[r].phase.Building?
    case Break(r, _) => r in s.runs && (s.runs[r].phase.Building? || s.runs[r].phase.Returned?)
    case MarkFailed(r, now) => InFlight(s, r, now) && s.runs[r].phase.Cleaning?
    case Raise(r) => MayRaise(s, r)
    case Abandon(r) => r in s.runs
    case Succeed(r, now) => InFlight(s, r, now) && s.runs[r].phase.Returned?
    case Fail(r, code, _, now) =>
      InFlight(s, r, now) && s.runs[r].phase.Raised? && (code.IndexingFailed? || code.DependencyUnavailable?)
  }

  function ApplyRecover(s: Sys, retryAfter: nat, now: Time): Sys {
    s.(t := RecoverExpired(s.t, retryAfter, now),
       ledger := map id | id in s.t.jobs ::
         var tally := TallyOf(s.ledger, id);
         if Expired(s.t.jobs[id], now) then tally.(recoveries := tally.recoveries + 1) else tally)
  }

  function ApplyClaim(s: Sys, r: nat, job: Uuid, owner: string, leaseFor: int, now: Time): Sys
    requires job in s.t.jobs
  {
    var tally := TallyOf(s.ledger, job);
    var t := ClaimNext(s.t, job, owner, leaseFor, now);
    s.(t := t, runs := s.runs[r := Run(job, t.jobs[job], Reading)],
       ledger := s.ledger[job := tally.(owners := tally.owners + [owner])])
  }

  function ApplyHeartbeat(s: Sys, r: nat, leaseFor: int, now: Time): Sys
    requires r in s.runs
  {
    var run := s.runs[r];
    s.(t := Or(JobSql.Heartbeat(s.t, run.job, run.Owner(), run.Attempt(), leaseFor, now), s.t))
  }

  function ApplyReset(s: Sys, r: nat, now: Time): Sys
    requires r in s.runs && s.runs[r].phase.Resetting?
  {
    var run := s.runs[r];
    match MoveDocument(s.t, run, run.phase.from, Uploaded, now)
    case None => Go(s, r, Raised)
    case Some(t) =>
      var d := t.documents[run.snapshot.document];
      Go(s.(t := t), r, Planned(ChoosePlan(run.snapshot, d, CurrentRevision(d).Some?)))
  }

  function ApplyReconcile(s: Sys, r: nat, c: Contract): Sys
    requires r in s.runs && s.runs[r].phase.Planned?
  {
    var run := s.runs[r];
    var ws := WorkspaceOf(s.t, run);
    if ws !in s.t.workspaces || !s.t.workspaces[ws].isActive then Go(s, r, Raised)
    else Go(s, r, Holding(run.phase.plan, c, Marks(s.t, ws, c))).(locks := s.locks[ws := r])
  }

  function ApplyCommitPlan(s: Sys, r: nat, now: Time): Sys
    requires r in s.runs && s.runs[r].phase.Holding? && WorkspaceOf(s.t, s.runs[r]) in s.t.workspaces
  {
    var run := s.runs[r];
    var (t, done) := PlanEffect(s.t, run, now);
    if !done then Go(s, r, Raised)
    else if run.phase.plan.IndexFirst? then Go(s.(t := t), r, Building(run.phase.contract))
    else
      var tally := TallyOf(s.ledger, run.job);
      var key := (run.snapshot.document, run.snapshot.revision);
      Go(s.(t := t, ledger := s.ledger[run.job := tally.(successes := tally.successes + 1)],
            built := if run.phase.plan.DeleteActive? then s.built
                     else s.built[key := Build(run.phase.contract, true)]),
         r, Returned)
  }

  function ApplyActivate(s: Sys, r: nat, now: Time): Sys
    requires r in s.runs && s.runs[r].phase.Building?
  {
    var run := s.runs[r];
    match MoveDocument(s.t, run, Indexing, Ready, now)
    case None => Go(s, r, Cleaning(false))
    case Some(t) =>
      var key := (run.snapshot.document, run.snapshot.revision);
      Go(s.(t := t, built := s.built[key := Build(run.phase.contract, false)]), r, Returned)
  }

  function ApplyMarkFailed(s: Sys, r: nat, now: Time): Sys
    requires r in s.runs && s.runs[r].phase.Cleaning?
  {
    var run := s.runs[r];
    var t := Or(MoveDocument(s.t, run, Indexing, DocumentStatus.Failed, now), s.t);
    Go(s.(t := t), r, if run.phase.cancelled then Ended else Raised)
  }

  function ApplySucceed(s: Sys, r: nat, now: Time): Sys
    requires r in s.runs
  {
    var run := s.runs[r];
    match JobSql.Succeed(s.t, run.job, run.Owner(), run.Attempt(), now)
    case None => Go(s, r, Ended)
    case Some(t) =>
      var tally := TallyOf(s.ledger, run.job);
      Go(s.(t := t, ledger := s.ledger[run.job := tally.(successes := tally.successes + 1)]), r, Ended)
  }

  function ApplyFail(s: Sys, r: nat, code: ErrorCode, retryAfter: nat, now: Time): Sys
    requires r in s.runs
  {
    var run := s.runs[r];
    match JobSql.Fail(s.t, run.job, run.Owner(), run.Attempt(), code, retryAfter, now)
    case None => Go(s, r, Ended)
    case Some(t) =>
      var tally := TallyOf(s.ledger, run.job);
      Go(s.(t := t, ledger := s.ledger[run.job := tally.(failures := tally.failures + 1)]), r, Ended)
  }

  function Apply(s: Sys, l: Label): Sys
    requires Enabled(s, l)
  {
    match l
    case Store(ws, doc, source, job, now) => s.(t := ApiSpec.Store(s.t, ws, doc, source, job, now).value)
    case Replace(ws, doc, source, job, now) => s.(t := ApiSpec.Replace(s.t, ws, doc, source, job, now).value)
    case Delete(ws, doc, job, now) => s.(t := ApiSpec.Delete(s.t, ws, doc, job, now).value)
    case Enqueue(ws, c, ids, now) => s.(t := ApiSpec.Enqueue(s.t, ws, c, ids, now))
    case Recover(retryAfter, now) => ApplyRecover(s, retryAfter, now)
    case Claim(r, job, owner, leaseFor, _, now) => ApplyClaim(s, r, job, owner, leaseFor, now)
    case Heartbeat(r, leaseFor, now) => ApplyHeartbeat(s, r, leaseFor, now)
    case Read(r) => Go(s, r, AfterRead(s.t, s.runs[r].snapshot))
    case Reset(r, now) => ApplyReset(s, r, now)
    case Reconcile(r, c) => ApplyReconcile(s, r, c)
    case CommitPlan(r, now) => ApplyCommitPlan(s, r, now)
    case Activate(r, now) => ApplyActivate(s, r, now)
    case Break(r, cancelled) => Go(s, r, Cleaning(cancelled))
    case MarkFailed(r, now) => ApplyMarkFailed(s, r, now)
    case Raise(r) => Go(s, r, Raised)
    case Abandon(r) => Go(s, r, Ended)
    case Succeed(r, now) => ApplySucceed(s, r, now)
    case Fail(r, code, retryAfter, now) => ApplyFail(s, r, code, retryAfter, now)
  }

  ghost predicate Next(s: Sys, s': Sys) {
    exists l :: Enabled(s, l) && s' == Apply(s, l)
  }

  /** A finite run of the whole system from an empty database. */
  ghost predicate Behaviour(trace: seq<Sys>) {
    && |trace| > 0 && Init(trace[0])
    && forall i {:trigger StepAt(trace, i)} | 0 < i < |trace| :: StepAt(trace, i)
  }

  ghost predicate StepAt(trace: seq<Sys>, i: int)
    requires 0 < i < |trace|
  {
    Next(trace[i - 1], trace[i])
  }

  lemma Append(trace: seq<Sys>, s: Sys)
    requires Behaviour(trace) && Next(trace[|trace| - 1], s)
    ensures Behaviour(trace + [s])
  {
    var longer := trace + [s];
    forall i | 0 < i < |longer| ensures StepAt(longer, i) {
      if i < |trace| { assert StepAt(trace, i); }
    }
  }

  lemma Prefix(trace: seq<Sys>, n: nat)
    requires Behaviour(trace) && 0 < n <= |trace|
    ensures Behaviour(trace[..n])
  {
    var start := trace[..n];
    forall i | 0 < i < n ensures StepAt(start, i) {
      assert StepAt(trace, i);
    }
  }
}
