/** What may legitimately stop a worker run, and what every step preserves for it. The worker code
    is proved to raise only when a call broke or one of these obstacles stood in its way. */
module Obstacles {
  import opened Entities
  import opened JobSql
  import opened DocumentSql
  import opened TableInvariant
  import opened Protocol
  import opened ProtocolInvariant
  import opened ProtocolSteps
  import opened ProtocolTheorems
  import opened Progress
  import ApiSpec
  import Rows

  /** How often a lease of this run's job has been recovered. */
  function Recoveries(s: Sys, r: nat): nat
    requires r in s.runs
  {
    TallyOf(s.ledger, s.runs[r].job).recoveries
  }

  predicate Available(t: Tables, run: Run) {
    WorkspaceOf(t, run) in t.workspaces && t.workspaces[WorkspaceOf(t, run)].isActive
  }

  /** The lease has been recovered since `s0`. */
  predicate TakenOver(s0: Sys, s: Sys, r: nat) {
    r in s0.runs && r in s.runs && Recoveries(s, r) > Recoveries(s0, r)
  }

  /** Another run holds the row of the workspace. */
  predicate LockedOut(s: Sys, r: nat)
    requires r in s.runs
  {
    var w := WorkspaceOf(s.t, s.runs[r]);
    w in s.locks && s.locks[w] != r
  }

  /** In this step the run gave up before the workspace row, which was held by another run or is not
      that of an active workspace. */
  predicate TurnedAway(s: Sys, s': Sys, r: nat) {
    && r in s.runs && s.runs[r].phase.Planned? && r in s'.runs && s'.runs[r].phase.Raised?
    && (LockedOut(s, r) || !Available(s.t, s.runs[r]))
  }

  ghost predicate Obstacle(trace: seq<Sys>, origin: nat, i: nat, r: nat)
    requires origin < i < |trace|
  {
    TakenOver(trace[origin], trace[i], r) || TurnedAway(trace[i - 1], trace[i], r)
  }

  /** The statements guarded by a run's attempt: the renewals of its lease, the moves and completions
      of its processing, and the report that ends it. */
  datatype Guarded = Renewal | Completion | Ending

  /** One such statement: the point of the trace at which it was executed, and the start time of its
      transaction. */
  datatype Try = Try(at: nat, clock: Time, kind: Guarded)

  /** The statement did not find the attempt live. */
  predicate Missed(trace: seq<Sys>, r: nat, p: Try) {
    p.at < |trace| && r in trace[p.at].runs && !LiveRun(trace[p.at].t, trace[p.at].runs[r], p.clock)
  }

  /** The attempt was still open, but by the clock of the statement its lease had run out. */
  predicate Late(trace: seq<Sys>, r: nat, p: Try) {
    Missed(trace, r, p) && Current(trace[p.at].t, trace[p.at].runs[r])
  }

  /** Since `origin` the run met an obstacle, or one of the statements it tried came too late. */
  ghost predicate Interrupted(trace: seq<Sys>, origin: nat, r: nat, tries: set<Try>) {
    || (exists i :: origin < i < |trace| && Obstacle(trace, origin, i, r))
    || exists p {:trigger Late(trace, r, p)} | p in tries :: origin <= p.at && Late(trace, r, p)
  }

  lemma StillInterrupted(trace: seq<Sys>, trace': seq<Sys>, origin: nat, r: nat, tries: set<Try>, tries': set<Try>)
    requires Interrupted(trace, origin, r, tries) && trace <= trace' && tries <= tries'
    ensures Interrupted(trace', origin, r, tries')
  {
    if i :| origin < i < |trace| && Obstacle(trace, origin, i, r) {
      assert Obstacle(trace', origin, i, r);
    } else {
      var p :| p in tries && origin <= p.at && Late(trace, r, p);
      assert Late(trace', r, p);
    }
  }

  lemma TakenOverNow(trace: seq<Sys>, origin: nat, r: nat, tries: set<Try>)
    requires origin < |trace| && TakenOver(trace[origin], trace[|trace| - 1], r)
    ensures Interrupted(trace, origin, r, tries)
  {
    assert Obstacle(trace, origin, |trace| - 1, r);
  }

  lemma TurnedAwayNow(trace: seq<Sys>, origin: nat, r: nat, tries: set<Try>)
    requires origin < |trace| - 1 && TurnedAway(trace[|trace| - 2], trace[|trace| - 1], r)
    ensures Interrupted(trace, origin, r, tries)
  {
    assert Obstacle(trace, origin, |trace| - 1, r);
  }

  // ----- what steps of others do to a run

  /** The run itself is untouched; its attempt is lost only to a recovery, and a finished job
      stays finished. */
  ghost predicate Passed(s: Sys, s': Sys, r: nat) {
    && r in s.runs && r in s'.runs && s'.runs[r] == s.runs[r]
    && AttemptKept(s, s', r)
    && WorkspaceOf(s'.t, s'.runs[r]) == WorkspaceOf(s.t, s.runs[r])
  }

  ghost predicate AttemptKept(s: Sys, s': Sys, r: nat)
    requires r in s.runs && r in s'.runs && s'.runs[r].job == s.runs[r].job
  {
    && Recoveries(s', r) >= Recoveries(s, r)
    && (Current(s.t, s.runs[r]) ==> Current(s'.t, s'.runs[r]) || Recoveries(s', r) > Recoveries(s, r))
    && (Done(s.t, s.runs[r].job) ==> Done(s'.t, s.runs[r].job))
  }

  predicate Done(t: Tables, job: Uuid) {
    job in t.jobs && t.jobs[job].status.Succeeded?
  }

  lemma PassedThrough(s: Sys, s1: Sys, s2: Sys, r: nat)
    requires Passed(s, s1, r) && Passed(s1, s2, r)
    ensures Passed(s, s2, r)
  {}

  /** Only a recovery, or an end that the run itself reports, closes its attempt. */
  lemma OnlyRecoveryTakesOver(s: Sys, l: Label, r: nat)
    requires SysOk(s) && Enabled(s, l) && r in s.runs && Current(s.t, s.runs[r])
    requires RunOf(l) != Some(r) && !l.Recover?
    ensures Current(Apply(s, l).t, s.runs[r])
  {
    var id := s.runs[r].job;
    assert RunOk(s.t, s.runs[r]);
    if RunOf(l).Some? {
      OtherRunsLeaveJob(s, l, r);
    } else if l.Claim? {
    } else {
      ApiMovesWell(s, l, id);
    }
  }

  lemma OtherRunsLeaveJob(s: Sys, l: Label, r: nat)
    requires SysOk(s) && Enabled(s, l) && r in s.runs && Current(s.t, s.runs[r])
    requires RunOf(l).Some? && RunOf(l) != Some(r)
    ensures s.runs[r].job in Apply(s, l).t.jobs && Apply(s, l).t.jobs[s.runs[r].job] == s.t.jobs[s.runs[r].job]
  {
    var q := RunOf(l).value;
    assert q in s.runs;
    if s.runs[q].job == s.runs[r].job {
      assert RunOk(s.t, s.runs[q]) && RunOk(s.t, s.runs[r]);
      if Current(s.t, s.runs[q]) { OneCurrentRun(s.t, s.runs, q, r); }
      SupersededRunIsHarmless(s, l);
    } else {
      RunTouchesOwnJob(s, l, s.runs[r].job);
    }
  }

  /** A run changes no job but its own. */
  lemma RunTouchesOwnJob(s: Sys, l: Label, id: Uuid)
    requires Enabled(s, l) && RunOf(l).Some? && RunOf(l).value in s.runs && id in s.t.jobs && s.runs[RunOf(l).value].job != id
    ensures id in Apply(s, l).t.jobs && Apply(s, l).t.jobs[id] == s.t.jobs[id]
  {
    if l.CommitPlan? {
      CommitTouchesOwnJob(s.t, s.runs[l.run], l.now, id);
    } else if IsMove(l) {
      MoveShape(s, l);
    } else if IsLocal(l) {
      LocalShape(s, l);
    }
  }

  lemma RecoveriesGrow(s: Sys, l: Label, id: Uuid)
    requires Enabled(s, l) && id in s.t.jobs
    ensures TallyOf(Apply(s, l).ledger, id).recoveries >= TallyOf(s.ledger, id).recoveries
  {
    if IsLocal(l) || IsMove(l) {
      QuietLedger(s, l);
    } else if l.CommitPlan? {
      CommitLedger(s, l.run, l.now, id);
    } else if IsJobStep(l) {
      JobStepLedger(s, l, id);
    }
  }

  lemma QuietLedger(s: Sys, l: Label)
    requires Enabled(s, l) && (IsLocal(l) || IsMove(l))
    ensures Apply(s, l).ledger == s.ledger
  {}

  lemma CommitLedger(s: Sys, r: nat, now: Time, id: Uuid)
    requires Enabled(s, CommitPlan(r, now))
    ensures TallyOf(ApplyCommitPlan(s, r, now).ledger, id).recoveries == TallyOf(s.ledger, id).recoveries
  {}

  lemma JobStepLedger(s: Sys, l: Label, id: Uuid)
    requires Enabled(s, l) && IsJobStep(l) && id in s.t.jobs
    ensures TallyOf(Apply(s, l).ledger, id).recoveries >= TallyOf(s.ledger, id).recoveries
  {}

  /** A lease is lost to a recovery only by being counted. */
  lemma RecoveryIsCounted(s: Sys, retryAfter: nat, now: Time, r: nat)
    requires r in s.runs && Current(s.t, s.runs[r])
    ensures
      var s' := ApplyRecover(s, retryAfter, now);
      Current(s'.t, s.runs[r]) || TallyOf(s'.ledger, s.runs[r].job).recoveries > Recoveries(s, r)
  {}

  lemma WorkspaceStays(s: Sys, l: Label, d: Uuid)
    requires SysOk(s) && Enabled(s, l) && d in s.t.documents
    ensures d in Apply(s, l).t.documents && Apply(s, l).t.documents[d].workspace == s.t.documents[d].workspace
  {
    if l.CommitPlan? {
      PlanKeepsWorkspace(s.t, s.runs[l.run], l.now, d);
    } else if IsLocal(l) {
      LocalShape(s, l);
    } else if IsMove(l) {
      MoveShape(s, l);
    } else if IsJobStep(l) {
      JobStepShape(s, l);
    } else {
      ApiKeepsWorkspace(s, l, d);
    }
  }

  lemma PlanKeepsWorkspace(t: Tables, run: Run, now: Time, d: Uuid)
    requires run.phase.Holding? && WorkspaceOf(t, run) in t.workspaces && d in t.documents
    ensures d in PlanEffect(t, run, now).0.documents
    ensures PlanEffect(t, run, now).0.documents[d].workspace == t.documents[d].workspace
  {
    var t1 := ApplyContract(t, WorkspaceOf(t, run), run.phase.contract, run.phase.marks);
    ApplyContractRow(t, WorkspaceOf(t, run), run.phase.contract, run.phase.marks, d);
    CompletionKeepsWorkspace(t1, run, now, d);
  }

  lemma CompletionKeepsWorkspace(t: Tables, run: Run, now: Time, d: Uuid)
    requires run.phase.Holding? && d in t.documents
    ensures d in CompletePlan(t, run, now).0.documents
    ensures CompletePlan(t, run, now).0.documents[d].workspace == t.documents[d].workspace
  {}

  lemma ApiKeepsWorkspace(s: Sys, l: Label, d: Uuid)
    requires SysOk(s) && Enabled(s, l) && IsApi(l) && d in s.t.documents
    ensures d in Apply(s, l).t.documents && Apply(s, l).t.documents[d].workspace == s.t.documents[d].workspace
  {
    if l.Replace? {
      ReplaceResult(s.t, l.ws, l.doc, l.source, l.job, l.now);
    } else if l.Enqueue? {
      ReconcileKeepsStanding(s.t, l.ws, l.contract, d);
    }
  }

  lemma RunUntouched(s: Sys, l: Label, r: nat)
    requires Enabled(s, l) && r in s.runs && (l.Heartbeat? || RunOf(l) != Some(r))
    ensures r in Apply(s, l).runs && Apply(s, l).runs[r] == s.runs[r]
  {
    SnapshotKept(s, l, r);
    if l.CommitPlan? {
      CommitMovesRun(s, l.run, l.now);
    } else if RunOf(l).Some? && !l.Heartbeat? {
      OwnRunMoves(s, l);
    }
  }

  /** What a step of anybody else, or of the run's own heartbeat, leaves to the run. */
  lemma StepPasses(s: Sys, l: Label, r: nat)
    requires SysOk(s) && Enabled(s, l) && r in s.runs && (l.Heartbeat? || RunOf(l) != Some(r))
    ensures Passed(s, Apply(s, l), r)
  {
    assert RunOk(s.t, s.runs[r]);
    RunUntouched(s, l, r);
    WorkspaceStays(s, l, s.runs[r].snapshot.document);
    RecoveriesGrow(s, l, s.runs[r].job);
    DoneForGood(s, l, s.runs[r].job);
    if Current(s.t, s.runs[r]) { AttemptStaysOpen(s, l, r); }
  }

  lemma DoneForGood(s: Sys, l: Label, id: Uuid)
    requires SysOk(s) && Enabled(s, l) && id in s.t.jobs
    ensures Done(s.t, id) ==> Done(Apply(s, l).t, id)
  {
    JobMoves(s, l, id);
  }

  lemma AttemptStaysOpen(s: Sys, l: Label, r: nat)
    requires SysOk(s) && Enabled(s, l) && r in s.runs && (l.Heartbeat? || RunOf(l) != Some(r))
    requires Current(s.t, s.runs[r])
    ensures Current(Apply(s, l).t, s.runs[r]) || TallyOf(Apply(s, l).ledger, s.runs[r].job).recoveries > Recoveries(s, r)
  {
    if l.Recover? {
      RecoveryIsCounted(s, l.retryAfter, l.now, r);
    } else if l.Heartbeat? {
      BeatKeepsJobs(s, l.run, l.leaseFor, l.now, s.runs[r].job);
    } else {
      OnlyRecoveryTakesOver(s, l, r);
    }
  }

  lemma BeatKeepsJobs(s: Sys, q: nat, leaseFor: int, now: Time, id: Uuid)
    requires q in s.runs && id in s.t.jobs
    ensures
      var t' := ApplyHeartbeat(s, q, leaseFor, now).t;
      id in t'.jobs && t'.jobs[id].status == s.t.jobs[id].status && t'.jobs[id].attempts == s.t.jobs[id].attempts
  {}

  // ----- the run's own steps

  /** The attempt is still the run's, unless its lease has been recovered since `s0`. */
  ghost predicate Owned(s0: Sys, s: Sys, r: nat) {
    && r in s0.runs && r in s.runs && s.runs[r].job == s0.runs[r].job
    && Recoveries(s, r) >= Recoveries(s0, r)
    && (Current(s.t, s.runs[r]) || Recoveries(s, r) > Recoveries(s0, r))
  }

  /** As `Owned`, or the job has been finished. */
  ghost predicate Held(s0: Sys, s: Sys, r: nat) {
    && r in s0.runs && r in s.runs && s.runs[r].job == s0.runs[r].job
    && Recoveries(s, r) >= Recoveries(s0, r)
    && (Current(s.t, s.runs[r]) || Recoveries(s, r) > Recoveries(s0, r) || Done(s.t, s.runs[r].job))
  }

  lemma PassedKeeps(s0: Sys, s: Sys, s': Sys, r: nat)
    requires Passed(s, s', r)
    ensures Owned(s0, s, r) ==> Owned(s0, s', r)
    ensures Held(s0, s, r) ==> Held(s0, s', r)
  {}

  /** An own step that finishes nothing leaves the attempt as it was. */
  lemma OwnStepKeeps(s0: Sys, s: Sys, l: Label, r: nat)
    requires Enabled(s, l) && RunOf(l) == Some(r) && (IsLocal(l) || IsMove(l)) && Owned(s0, s, r)
    ensures Owned(s0, Apply(s, l), r)
  {
    QuietLedger(s, l);
    SnapshotKept(s, l, r);
    if IsLocal(l) { LocalShape(s, l); } else { MoveShape(s, l); }
  }

  /** A run whose statement does not find its attempt live was taken over or came too late. */
  lemma MissInterrupts(trace: seq<Sys>, origin: nat, r: nat, tries: set<Try>, p: Try)
    requires p in tries && origin <= p.at && Missed(trace, r, p)
    requires Owned(trace[origin], trace[p.at], r)
    ensures Interrupted(trace, origin, r, tries)
  {
    if Current(trace[p.at].t, trace[p.at].runs[r]) {
      assert Late(trace, r, p);
    } else {
      assert Obstacle(trace, origin, p.at, r);
    }
  }

  /** A fenced move finds no row only when the attempt is not live. */
  lemma MoveMissed(s: Sys, r: nat, from: DocumentStatus, to: DocumentStatus, now: Time)
    requires SysOk(s) && r in s.runs && MoveDocument(s.t, s.runs[r], from, to, now).None?
    requires s.runs[r].phase == Resetting(from) || (s.runs[r].phase.Building? && from.Indexing?)
    ensures !LiveRun(s.t, s.runs[r], now)
  {
    var run := s.runs[r];
    assert RunOk(s.t, run);
    if run.job in s.t.jobs { assert JobOk(s.t, s.t.jobs[run.job]); }
  }

  /** So does the statement that ends a run's plan. */
  lemma PlanMissed(s: Sys, r: nat, now: Time)
    requires SysOk(s) && InFlight(s, r, now) && s.runs[r].phase.Holding? && WorkspaceOf(s.t, s.runs[r]) in s.t.workspaces
    requires !PlanEffect(s.t, s.runs[r], now).1
    ensures !LiveRun(s.t, s.runs[r], now)
  {
    assert LockOk(s.t, s.locks, r, s.runs[r]);
    if LiveRun(s.t, s.runs[r], now) {
      assert OnTrack(s, r, now);
      PlanCommits(s, r, now);
    }
  }

  /** The opening reads of a current run never refuse. */
  lemma ReadRefused(s: Sys, r: nat)
    requires SysOk(s) && r in s.runs && AfterRead(s.t, s.runs[r].snapshot).Raised?
    ensures !Current(s.t, s.runs[r])
  {
    if Current(s.t, s.runs[r]) {
      assert RunOk(s.t, s.runs[r]);
      ReadFits(s.t, s.runs[r]);
    }
  }

  /** Nor does a current run's plan. */
  lemma PlanRefused(s: Sys, r: nat)
    requires SysOk(s) && r in s.runs && s.runs[r].phase.Holding? && s.runs[r].phase.plan.Refuse?
    ensures !Current(s.t, s.runs[r])
  {
    assert RunOk(s.t, s.runs[r]);
  }

  /** A reset that found its row leaves the run before the branch for that row. */
  lemma ResetTaken(s0: Sys, s: Sys, r: nat, now: Time, t: Tables)
    requires InFlight(s, r, now) && s.runs[r].phase.Resetting? && Owned(s0, s, r)
    requires MoveDocument(s.t, s.runs[r], s.runs[r].phase.from, Uploaded, now) == Some(t)
    ensures
      var s', id := Apply(s, Reset(r, now)), s.runs[r].snapshot.document;
      && s'.t == t && id in t.documents && t.documents[id].status.Uploaded? && Owned(s0, s', r)
      && s'.runs[r] == s.runs[r].(phase := Planned(ChoosePlan(s.runs[r].snapshot, t.documents[id],
                                                                CurrentRevision(t.documents[id]).Some?)))
      && WorkspaceOf(s'.t, s'.runs[r]) == WorkspaceOf(s.t, s.runs[r])
  {
    OwnStepKeeps(s0, s, Reset(r, now), r);
  }

  /** A run that has not taken the workspace row can find it held only by another run. */
  lemma WaitIsForAnother(s: Sys, r: nat)
    requires SysOk(s) && r in s.runs && s.runs[r].phase.Planned? && WorkspaceOf(s.t, s.runs[r]) in s.locks
    ensures LockedOut(s, r)
  {}

  /** Reconciliation takes the row with its marks, or stops at a workspace that is not active. */
  lemma ReconcileTaken(s0: Sys, s: Sys, r: nat, c: Contract)
    requires Enabled(s, Reconcile(r, c)) && Owned(s0, s, r)
    ensures
      var s', w := Apply(s, Reconcile(r, c)), WorkspaceOf(s.t, s.runs[r]);
      && s'.t == s.t && Owned(s0, s', r)
      && (if Available(s.t, s.runs[r])
          then s'.runs[r] == s.runs[r].(phase := Holding(s.runs[r].phase.plan, c, Marks(s.t, w, c)))
          else s'.runs[r] == s.runs[r].(phase := Raised) && TurnedAway(s, s', r))
  {
    OwnStepKeeps(s0, s, Reconcile(r, c), r);
  }

  // ----- what a return stands for

  lemma ReadAchieves(s: Sys, r: nat)
    requires SysOk(s) && r in s.runs && AfterRead(s.t, s.runs[r].snapshot).Returned? && Current(s.t, s.runs[r])
    ensures EffectHolds(s.t, s.runs[r].snapshot)
  {
    assert RunOk(s.t, s.runs[r]);
    ReadFits(s.t, s.runs[r]);
  }

  lemma ActivateAchieves(s: Sys, r: nat, now: Time)
    requires SysOk(s) && r in s.runs && s.runs[r].phase.Building?
    requires MoveDocument(s.t, s.runs[r], Indexing, Ready, now).Some?
    ensures EffectHolds(MoveDocument(s.t, s.runs[r], Indexing, Ready, now).value, s.runs[r].snapshot)
  {
    assert RunOk(s.t, s.runs[r]) && JobOk(s.t, s.t.jobs[s.runs[r].job]);
  }

  lemma CommitAchieves(s: Sys, r: nat, now: Time)
    requires SysOk(s) && InFlight(s, r, now) && s.runs[r].phase.Holding? && !s.runs[r].phase.plan.IndexFirst?
    requires WorkspaceOf(s.t, s.runs[r]) in s.t.workspaces && PlanEffect(s.t, s.runs[r], now).1
    ensures EffectHolds(PlanEffect(s.t, s.runs[r], now).0, s.runs[r].snapshot)
    ensures Done(PlanEffect(s.t, s.runs[r], now).0, s.runs[r].job)
  {
    var run := s.runs[r];
    assert RunOk(s.t, run);
    CommitMeansDone(s, r, now);
    PlanCompletes(s.t, run, now);
  }

  lemma PlanCompletes(t: Tables, run: Run, now: Time)
    requires run.phase.Holding? && !run.phase.plan.IndexFirst? && WorkspaceOf(t, run) in t.workspaces
    requires PlanEffect(t, run, now).1
    ensures run.job in t.jobs && run.job in PlanEffect(t, run, now).0.jobs
    ensures PlanEffect(t, run, now).0.jobs[run.job] == Completed(t.jobs[run.job], now)
  {
    assert ApplyContract(t, WorkspaceOf(t, run), run.phase.contract, run.phase.marks).jobs == t.jobs;
  }

  /** Starting a first index finishes no job. */
  lemma FirstIndexKeeps(s0: Sys, s: Sys, r: nat, now: Time)
    requires Enabled(s, CommitPlan(r, now)) && s.runs[r].phase.plan.IndexFirst? && Owned(s0, s, r)
    ensures Owned(s0, ApplyCommitPlan(s, r, now), r)
  {
    var run := s.runs[r];
    assert ApplyContract(s.t, WorkspaceOf(s.t, run), run.phase.contract, run.phase.marks).jobs == s.t.jobs;
  }

  /** The rows that the fenced statement of a plan works on are those of the transaction. */
  lemma PlanView(t: Tables, run: Run)
    requires run.phase.Holding? && WorkspaceOf(t, run) in t.workspaces
    ensures WorkspaceOf(ApplyContract(t, WorkspaceOf(t, run), run.phase.contract, run.phase.marks), run) == WorkspaceOf(t, run)
  {
    if run.snapshot.document in t.documents {
      ApplyContractRow(t, WorkspaceOf(t, run), run.phase.contract, run.phase.marks, run.snapshot.document);
    }
  }

  /** In every reachable state the statement that ends a plan finds its row or touches no job. What
      its transaction has to roll back is the contract change and the marks of an overtaken run. */
  lemma MissedPlanLeavesJobs(s: Sys, r: nat, now: Time)
    requires SysOk(s) && InFlight(s, r, now) && s.runs[r].phase.Holding?
    ensures WorkspaceOf(s.t, s.runs[r]) in s.t.workspaces
    ensures
      var (t', found) := PlanEffect(s.t, s.runs[r], now);
      var w, run := WorkspaceOf(s.t, s.runs[r]), s.runs[r];
      !found ==> t' == ApplyContract(s.t, w, run.phase.contract, run.phase.marks) && t'.jobs == s.t.jobs
  {
    assert LockOk(s.t, s.locks, r, s.runs[r]);
    if !PlanEffect(s.t, s.runs[r], now).1 {
      PlanMissed(s, r, now);
      NotLivePlan(s.t, s.runs[r], now);
    }
  }

  // ----- the three outcomes of a plan

  ghost predicate PlanEnds(s: Sys, r: nat, now: Time) {
    && SysOk(s) && InFlight(s, r, now) && s.runs[r].phase.Holding? && WorkspaceOf(s.t, s.runs[r]) in s.t.workspaces
  }

  lemma PlanFailed(s: Sys, r: nat, now: Time)
    requires PlanEnds(s, r, now) && !PlanEffect(s.t, s.runs[r], now).1
    ensures !LiveRun(s.t, s.runs[r], now)
    ensures
      var s' := Apply(s, CommitPlan(r, now));
      s'.t == s.t && s'.runs[r] == s.runs[r].(phase := Raised)
  {
    PlanMissed(s, r, now);
  }

  lemma PlanDone(s0: Sys, s: Sys, r: nat, now: Time)
    requires PlanEnds(s, r, now) && PlanEffect(s.t, s.runs[r], now).1 && !s.runs[r].phase.plan.IndexFirst? && Owned(s0, s, r)
    ensures
      var s' := Apply(s, CommitPlan(r, now));
      && s'.t == PlanEffect(s.t, s.runs[r], now).0 && s'.runs[r] == s.runs[r].(phase := Returned)
      && EffectHolds(s'.t, s.runs[r].snapshot) && Held(s0, s', r)
  {
    CommitAchieves(s, r, now);
    CommitLedger(s, r, now, s.runs[r].job);
  }

  lemma FirstIndexTaken(s0: Sys, s: Sys, r: nat, now: Time)
    requires PlanEnds(s, r, now) && PlanEffect(s.t, s.runs[r], now).1 && s.runs[r].phase.plan.IndexFirst? && Owned(s0, s, r)
    ensures
      var s' := Apply(s, CommitPlan(r, now));
      && s'.t == PlanEffect(s.t, s.runs[r], now).0 && s'.runs[r] == s.runs[r].(phase := Building(s.runs[r].phase.contract))
      && Owned(s0, s', r) && WorkspaceOf(s'.t, s'.runs[r]) == WorkspaceOf(s.t, s.runs[r])
  {
    FirstIndexKeeps(s0, s, r, now);
    assert RunOk(s.t, s.runs[r]);
    PlanKeepsWorkspace(s.t, s.runs[r], now, s.runs[r].snapshot.document);
  }

  // ----- the two outcomes of an activation

  lemma ActivationTaken(s0: Sys, s: Sys, r: nat, now: Time, t: Tables)
    requires SysOk(s) && InFlight(s, r, now) && s.runs[r].phase.Building? && Owned(s0, s, r)
    requires MoveDocument(s.t, s.runs[r], Indexing, Ready, now) == Some(t)
    ensures
      var s' := Apply(s, Activate(r, now));
      && s'.t == t && s'.runs[r] == s.runs[r].(phase := Returned)
      && EffectHolds(t, s.runs[r].snapshot) && Held(s0, s', r)
      && WorkspaceOf(t, s'.runs[r]) == WorkspaceOf(s.t, s.runs[r])
  {
    ActivateAchieves(s, r, now);
    OwnStepKeeps(s0, s, Activate(r, now), r);
  }

  lemma ActivationFailed(s: Sys, r: nat, now: Time)
    requires SysOk(s) && InFlight(s, r, now) && s.runs[r].phase.Building?
    requires MoveDocument(s.t, s.runs[r], Indexing, Ready, now) == None
    ensures !LiveRun(s.t, s.runs[r], now)
    ensures
      var s' := Apply(s, Activate(r, now));
      s'.t == s.t && s'.runs[r] == s.runs[r].(phase := Cleaning(false))
  {
    MoveMissed(s, r, Indexing, Ready, now);
  }

  /** What marking the document FAILED leaves to the run, whether or not it found the row. */
  lemma MarkingTaken(s: Sys, r: nat, now: Time)
    requires InFlight(s, r, now) && s.runs[r].phase.Cleaning?
    ensures
      var s', moved := Apply(s, MarkFailed(r, now)), MoveDocument(s.t, s.runs[r], Indexing, DocumentStatus.Failed, now);
      && s'.t == Or(moved, s.t)
      && s'.runs[r] == s.runs[r].(phase := if s.runs[r].phase.cancelled then Ended else Raised)
  {}

  // ----- reports

  /** A report closes the attempt unless it came too late, and a success finishes the job unless it
      did or the lease has been recovered. */
  lemma SuccessReported(s0: Sys, s: Sys, r: nat, now: Time)
    requires Enabled(s, Succeed(r, now)) && Held(s0, s, r)
    ensures
      var s' := Apply(s, Succeed(r, now));
      && s'.runs[r] == s.runs[r].(phase := Ended)
      && (!Current(s'.t, s'.runs[r]) || !LiveRun(s.t, s.runs[r], now))
      && Recoveries(s', r) >= Recoveries(s, r) && (LiveRun(s.t, s.runs[r], now) ==> Done(s'.t, s.runs[r].job))
      && (|| Done(s'.t, s.runs[r].job) || TakenOver(s0, s', r)
          || (Current(s.t, s.runs[r]) && !LiveRun(s.t, s.runs[r], now)))
  {}

  lemma FailureReported(s: Sys, r: nat, code: ErrorCode, retryAfter: nat, now: Time)
    requires Enabled(s, Fail(r, code, retryAfter, now))
    ensures
      var s' := Apply(s, Fail(r, code, retryAfter, now));
      && s'.runs[r] == s.runs[r].(phase := Ended)
      && (!Current(s'.t, s'.runs[r]) || !LiveRun(s.t, s.runs[r], now))
      && (LiveRun(s.t, s.runs[r], now) ==> AvailableAgain(s'.t, s.runs[r], now + retryAfter))
  {
    if LiveRun(s.t, s.runs[r], now) {
      Rows.ReleasedIs(s.t.jobs[s.runs[r].job], code, retryAfter, now);
    }
  }

  /** The job of this run can be claimed again exactly if it has attempts left, and not before `from`. */
  ghost predicate AvailableAgain(t: Tables, run: Run, from: Time) {
    && run.job in t.jobs && t.jobs[run.job].attempts == run.Attempt()
    && forall n: Time :: Claimable(t.jobs[run.job], n) <==> run.Attempt() < t.jobs[run.job].maxAttempts && n >= from
  }
}
