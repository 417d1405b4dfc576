/** What a worker run achieves when nothing interrupts it, and two short behaviours that show
    where a promise about index contracts ends. */
module Progress {
  import opened Entities
  import opened JobSql
  import opened DocumentSql
  import opened TableInvariant
  import opened Protocol
  import opened ProtocolInvariant
  import opened ProtocolSteps
  import opened ProtocolTheorems
  import opened ContractSafety
  import ApiSpec

  /** A current run with a live lease, in an active workspace. */
  ghost predicate OnTrack(s: Sys, r: nat, now: Time) {
    && SysOk(s) && InFlight(s, r, now) && LiveRun(s.t, s.runs[r], now)
    && WorkspaceOf(s.t, s.runs[r]) in s.t.workspaces && s.t.workspaces[WorkspaceOf(s.t, s.runs[r])].isActive
  }

  predicate Unlocked(s: Sys, r: nat) {
    r in s.runs && WorkspaceOf(s.t, s.runs[r]) !in s.locks
  }

  lemma TrackedPhaseFits(s: Sys, r: nat, now: Time)
    requires OnTrack(s, r, now)
    ensures s.runs[r].snapshot.document in s.t.documents && s.runs[r].job in s.t.jobs
    ensures PhaseFits(s.t.documents[s.runs[r].snapshot.document], s.runs[r])
    ensures JobOk(s.t, s.t.jobs[s.runs[r].job]) && SameJob(s.t.jobs[s.runs[r].job], s.runs[r].snapshot)
    ensures DocumentOk(s.t, s.t.documents[s.runs[r].snapshot.document])
  {
    assert RunOk(s.t, s.runs[r]) && JobOk(s.t, s.t.jobs[s.runs[r].job]);
    assert DocumentOk(s.t, s.t.documents[s.runs[r].snapshot.document]);
  }

  ghost predicate NextBy(s: Sys, s': Sys, r: nat) {
    exists l :: RunOf(l) == Some(r) && Enabled(s, l) && s' == Apply(s, l)
  }

  lemma ReadOnTrack(s: Sys, r: nat, now: Time) returns (s': Sys)
    requires OnTrack(s, r, now) && Unlocked(s, r) && s.runs[r].phase.Reading?
    ensures NextBy(s, s', r) && OnTrack(s', r, now) && Unlocked(s', r) && s'.runs[r].job == s.runs[r].job
    ensures s'.runs[r].phase.Returned? || s'.runs[r].phase.Resetting? || s'.runs[r].phase.Planned?
  {
    TrackedPhaseFits(s, r, now);
    StepKeeps(s, Read(r));
    ReadFits(s.t, s.runs[r]);
    s' := Apply(s, Read(r));
  }

  lemma ResetOnTrack(s: Sys, r: nat, now: Time) returns (s': Sys)
    requires OnTrack(s, r, now) && Unlocked(s, r) && s.runs[r].phase.Resetting?
    ensures NextBy(s, s', r) && OnTrack(s', r, now) && Unlocked(s', r) && s'.runs[r].job == s.runs[r].job
    ensures s'.runs[r].phase.Planned?
  {
    TrackedPhaseFits(s, r, now);
    StepKeeps(s, Reset(r, now));
    s' := Apply(s, Reset(r, now));
  }

  lemma ReconcileOnTrack(s: Sys, r: nat, c: Contract, now: Time) returns (s': Sys)
    requires OnTrack(s, r, now) && Unlocked(s, r) && s.runs[r].phase.Planned?
    ensures NextBy(s, s', r) && OnTrack(s', r, now) && s'.runs[r].job == s.runs[r].job
    ensures s'.runs[r].phase.Holding?
  {
    StepKeeps(s, Reconcile(r, c));
    s' := Apply(s, Reconcile(r, c));
  }

  /** The plan a current run made is the one its document needs, so the commit finds its rows. */
  lemma PlanCommits(s: Sys, r: nat, now: Time)
    requires OnTrack(s, r, now) && s.runs[r].phase.Holding?
    ensures PlanEffect(s.t, s.runs[r], now).1
  {
    var run := s.runs[r];
    TrackedPhaseFits(s, r, now);
    ReconcilingOk(s, r);
    var s1 := Reconciling(s, r);
    assert RunOk(s1.t, s1.runs[r]) && JobOk(s1.t, s1.t.jobs[run.job]);
    ApplyContractRow(s.t, WorkspaceOf(s.t, run), run.phase.contract, run.phase.marks, run.snapshot.document);
  }

  ghost predicate Finished(s: Sys, job: Uuid) {
    job in s.t.jobs && s.t.jobs[job].status.Succeeded? && EffectHolds(s.t, s.t.jobs[job])
  }

  lemma FirstIndexCommits(s: Sys, r: nat, now: Time) returns (s': Sys)
    requires OnTrack(s, r, now) && s.runs[r].phase.Holding? && s.runs[r].phase.plan.IndexFirst?
    ensures NextBy(s, s', r) && OnTrack(s', r, now) && s'.runs[r].job == s.runs[r].job
    ensures s'.runs[r].phase.Building?
  {
    var run := s.runs[r];
    TrackedPhaseFits(s, r, now);
    PlanCommits(s, r, now);
    StepKeeps(s, CommitPlan(r, now));
    ApplyContractRow(s.t, WorkspaceOf(s.t, run), run.phase.contract, run.phase.marks, run.snapshot.document);
    s' := Apply(s, CommitPlan(r, now));
  }

  lemma PlanFinishes(s: Sys, r: nat, now: Time) returns (s': Sys)
    requires OnTrack(s, r, now) && s.runs[r].phase.Holding? && !s.runs[r].phase.plan.IndexFirst?
    ensures NextBy(s, s', r) && Finished(s', s.runs[r].job)
  {
    TrackedPhaseFits(s, r, now);
    PlanCommits(s, r, now);
    CommitMeansDone(s, r, now);
    var run := s.runs[r];
    assert ApplyContract(s.t, WorkspaceOf(s.t, run), run.phase.contract, run.phase.marks).jobs == s.t.jobs;
    s' := Apply(s, CommitPlan(r, now));
  }

  lemma ActivateOnTrack(s: Sys, r: nat, now: Time) returns (s': Sys)
    requires OnTrack(s, r, now) && s.runs[r].phase.Building?
    ensures NextBy(s, s', r) && OnTrack(s', r, now) && s'.runs[r].job == s.runs[r].job
    ensures s'.runs[r].phase.Returned?
  {
    TrackedPhaseFits(s, r, now);
    StepKeeps(s, Activate(r, now));
    s' := Apply(s, Activate(r, now));
  }

  lemma SucceedOnTrack(s: Sys, r: nat, now: Time) returns (s': Sys)
    requires OnTrack(s, r, now) && s.runs[r].phase.Returned?
    ensures NextBy(s, s', r) && Finished(s', s.runs[r].job)
  {
    TrackedPhaseFits(s, r, now);
    s' := Apply(s, Succeed(r, now));
  }

  ghost predicate PathBy(path: seq<Sys>, r: nat) {
    |path| > 0 && forall i | 0 <= i < |path| - 1 :: NextBy(path[i], path[i + 1], r)
  }

  lemma Extend(path: seq<Sys>, r: nat, s': Sys) returns (longer: seq<Sys>)
    requires PathBy(path, r) && NextBy(path[|path| - 1], s', r)
    ensures PathBy(longer, r) && longer[0] == path[0] && longer[|longer| - 1] == s'
  {
    longer := path + [s'];
    forall i | 0 <= i < |longer| - 1 ensures NextBy(longer[i], longer[i + 1], r) {
      if i < |path| - 1 { assert NextBy(path[i], path[i + 1], r); }
    }
  }

  lemma FromReturned(path: seq<Sys>, s: Sys, r: nat, now: Time) returns (longer: seq<Sys>)
    requires PathBy(path, r) && path[|path| - 1] == s && OnTrack(s, r, now) && s.runs[r].phase.Returned?
    ensures PathBy(longer, r) && longer[0] == path[0] && Finished(longer[|longer| - 1], s.runs[r].job)
  {
    var s' := SucceedOnTrack(s, r, now);
    longer := Extend(path, r, s');
  }

  lemma FromHolding(path: seq<Sys>, s: Sys, r: nat, now: Time) returns (longer: seq<Sys>)
    requires PathBy(path, r) && path[|path| - 1] == s && OnTrack(s, r, now) && s.runs[r].phase.Holding?
    ensures PathBy(longer, r) && longer[0] == path[0] && Finished(longer[|longer| - 1], s.runs[r].job)
  {
    if s.runs[r].phase.plan.IndexFirst? {
      var s1 := FirstIndexCommits(s, r, now);
      longer := Extend(path, r, s1);
      var s2 := ActivateOnTrack(s1, r, now);
      longer := Extend(longer, r, s2);
      longer := FromReturned(longer, s2, r, now);
    } else {
      var s1 := PlanFinishes(s, r, now);
      longer := Extend(path, r, s1);
    }
  }

  lemma FromPlanned(path: seq<Sys>, s: Sys, r: nat, c: Contract, now: Time) returns (longer: seq<Sys>)
    requires PathBy(path, r) && path[|path| - 1] == s
    requires OnTrack(s, r, now) && Unlocked(s, r) && s.runs[r].phase.Planned?
    ensures PathBy(longer, r) && longer[0] == path[0] && Finished(longer[|longer| - 1], s.runs[r].job)
  {
    var s1 := ReconcileOnTrack(s, r, c, now);
    longer := Extend(path, r, s1);
    longer := FromHolding(longer, s1, r, now);
  }

  /** From every reachable state, a freshly claimed run whose lease stays live and whose calls
      do not fail carries its job to SUCCEEDED with the job's effect, whatever its type and
      whatever an earlier attempt left behind. */
  lemma UninterruptedRunSucceeds(s: Sys, r: nat, c: Contract, now: Time) returns (path: seq<Sys>)
    requires OnTrack(s, r, now) && Unlocked(s, r) && s.runs[r].phase.Reading?
    ensures PathBy(path, r) && path[0] == s && Finished(path[|path| - 1], s.runs[r].job)
  {
    var s1 := ReadOnTrack(s, r, now);
    path := Extend([s], r, s1);
    if s1.runs[r].phase.Returned? {
      path := FromReturned(path, s1, r, now);
    } else if s1.runs[r].phase.Planned? {
      path := FromPlanned(path, s1, r, c, now);
    } else {
      var s2 := ResetOnTrack(s1, r, now);
      path := Extend(path, r, s2);
      path := FromPlanned(path, s2, r, c, now);
    }
  }

  // ----- where the contract promise ends

  /** A contract change that commits while a first index is building leaves, once the build is
      activated, a served revision that was built under the old contract and is not flagged. */
  lemma ChangeDuringFirstIndex(s: Sys, r: nat, c: Contract, ids: map<Uuid, Uuid>, now: Time)
    requires OnTrack(s, r, now) && Unlocked(s, r) && s.runs[r].phase.Building? && c != s.runs[r].phase.contract
    requires Unflagged(s.t, s.runs[r].snapshot.document, s.runs[r].snapshot.revision)
    requires Enabled(s, Enqueue(WorkspaceOf(s.t, s.runs[r]), c, ids, now))
    ensures
      var s1 := Apply(s, Enqueue(WorkspaceOf(s.t, s.runs[r]), c, ids, now));
      && Enabled(s1, Activate(r, now))
      && var s2 := Apply(s1, Activate(r, now));
         Served(s2.t, s.runs[r].snapshot.document, s.runs[r].snapshot.revision)
         && !UnderContract(s2.t, s2.built, s.runs[r].snapshot.document, s.runs[r].snapshot.revision)
  {
    var run := s.runs[r];
    var w := WorkspaceOf(s.t, run);
    var l := Enqueue(w, c, ids, now);
    TrackedPhaseFits(s, r, now);
    var s1 := Apply(s, l);
    EnqueueLeavesJobs(s.t, w, c, ids, now, run.job);
    ApplyContractRow(s.t, w, c, Marks(s.t, w, c), run.snapshot.document);
    assert run.snapshot.document !in Marks(s.t, w, c);
    assert s1.t.documents[run.snapshot.document] == s.t.documents[run.snapshot.document];
  }

  const OLD_CONTRACT := Contract(1, "old")
  const NEW_CONTRACT := Contract(1, "new")

  function Empty(): Sys {
    Sys(Tables(map[], map[], map[0 := Workspace(true, OLD_CONTRACT)]), map[], map[], map[], map[])
  }

  /** One uploaded document whose first attempt has just been claimed. */
  ghost function JustClaimed(): Sys {
    var j := NewJob(0, 1, IndexDocument, 0);
    var d := Document(0, Uploaded, None, map[1 := NewRevision(Source("key", "hash"), 0)]);
    var j' := Claimed(j, "w", 10, 0);
    Sys(Tables(map[0 := j'], map[0 := d], Empty().t.workspaces), map[0 := Run(0, j', Reading)], map[],
        map[0 := Tally(["w"], 0, 0, 0)], map[])
  }

  lemma ClaimedIsReachable() returns (trace: seq<Sys>)
    ensures Behaviour(trace) && trace[|trace| - 1] == JustClaimed()
  {
    var s0 := Empty();
    var l0 := Store(0, 0, Source("key", "hash"), 0, 0);
    assert Enabled(s0, l0);
    var s1 := Apply(s0, l0);
    var owner := "w";
    assert !IsSpace(owner[0] as nat);
    var l1 := Claim(0, 0, owner, 10, {}, 0);
    assert Enabled(s1, l1);
    var s2 := Apply(s1, l1);
    var goal := JustClaimed();
    assert s1.t.jobs == map[0 := NewJob(0, 1, IndexDocument, 0)];
    assert s2.t.jobs == goal.t.jobs && s2.t.documents == goal.t.documents;
    assert s2.ledger == goal.ledger by { assert [] + [owner] == [owner]; }
    assert s2.runs == goal.runs;
    assert Next(s0, s1) && Next(s1, s2);
    Append([s0], s1);
    Append([s0] + [s1], s2);
    trace := [s0] + [s1] + [s2];
  }

  lemma ReadAndReconcile() returns (s: Sys)
    ensures s == JustClaimed().(
      runs := map[0 := JustClaimed().runs[0].(phase := Holding(IndexFirst, OLD_CONTRACT, map[]))], locks := map[0 := 0])
    ensures exists middle :: Next(JustClaimed(), middle) && Next(middle, s)
  {
    var s0 := JustClaimed();
    MaxIs(s0.t.documents[0], 1);
    assert Enabled(s0, Read(0));
    var s1 := Apply(s0, Read(0));
    assert s1.runs[0].phase == Planned(IndexFirst);
    assert Enabled(s1, Reconcile(0, OLD_CONTRACT));
    s := Apply(s1, Reconcile(0, OLD_CONTRACT));
    assert Next(s0, s1) && Next(s1, s);
  }

  lemma CommitFirstIndex(s: Sys) returns (s': Sys)
    requires s == JustClaimed().(
      runs := map[0 := JustClaimed().runs[0].(phase := Holding(IndexFirst, OLD_CONTRACT, map[]))], locks := map[0 := 0])
    ensures Next(s, s') && s'.t.documents.Keys == {0} && s'.t.documents[0].status.Indexing?
    ensures s'.t.documents[0].revisions == JustClaimed().t.documents[0].revisions
    ensures s'.t.jobs == JustClaimed().t.jobs && s'.t.workspaces == JustClaimed().t.workspaces
    ensures s'.runs == map[0 := s.runs[0].(phase := Building(OLD_CONTRACT))] && s'.locks == map[] && s'.t.documents[0].workspace == 0
  {
    assert Enabled(s, CommitPlan(0, 0));
    s' := Apply(s, CommitPlan(0, 0));
  }

  /** A reachable state that serves an unflagged revision built under an outdated contract. */
  lemma FirstIndexEscapesItsContract() returns (trace: seq<Sys>)
    ensures Behaviour(trace) && !AllUnderContract(trace[|trace| - 1].t, trace[|trace| - 1].built)
  {
    trace := ClaimedIsReachable();
    var s4 := ReadAndReconcile();
    var s3 :| Next(JustClaimed(), s3) && Next(s3, s4);
    Append(trace, s3);
    trace := trace + [s3];
    Append(trace, s4);
    trace := trace + [s4];
    var s5 := CommitFirstIndex(s4);
    Append(trace, s5);
    trace := trace + [s5];
    AlwaysOk(trace, |trace| - 1);
    var s7 := ChangeAndActivate(s5);
    var s6 :| Next(s5, s6) && Next(s6, s7);
    Append(trace, s6);
    trace := trace + [s6];
    Append(trace, s7);
    trace := trace + [s7];
  }

  lemma ChangeIsEnabled(s: Sys)
    requires s.t.documents.Keys == {0} && s.t.documents[0].status.Indexing? && s.locks == map[]
    ensures Enabled(s, Enqueue(0, NEW_CONTRACT, map[], 0))
  {}

  lemma ChangeAndActivate(s: Sys) returns (s': Sys)
    requires SysOk(s) && s.t.documents.Keys == {0} && s.t.documents[0].status.Indexing? && s.t.documents[0].workspace == 0
    requires s.t.documents[0].revisions == JustClaimed().t.documents[0].revisions
    requires s.t.jobs == JustClaimed().t.jobs && s.t.workspaces == JustClaimed().t.workspaces
    requires s.runs == map[0 := JustClaimed().runs[0].(phase := Building(OLD_CONTRACT))] && s.locks == map[]
    ensures !AllUnderContract(s'.t, s'.built)
    ensures exists middle :: Next(s, middle) && Next(middle, s')
  {
    var l := Enqueue(0, NEW_CONTRACT, map[], 0);
    ChangeIsEnabled(s);
    ChangeDuringFirstIndex(s, 0, NEW_CONTRACT, map[], 0);
    s' := Apply(Apply(s, l), Activate(0, 0));
    assert Next(s, Apply(s, l)) && Next(Apply(s, l), s');
    assert Served(s'.t, 0, 1) && !UnderContract(s'.t, s'.built, 0, 1);
  }
}
