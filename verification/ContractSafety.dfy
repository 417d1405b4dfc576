/** Which active revisions were built under the current index contract of their workspace. */
module ContractSafety {
  import opened Entities
  import opened JobSql
  import opened DocumentSql
  import opened TableInvariant
  import opened Protocol
  import opened ProtocolInvariant
  import opened ProtocolSteps
  import opened ProtocolTheorems
  import ApiSpec

  /** Replacement and reindex: an unflagged active revision of a document that is not deleted,
      last built on either path, was built under the current contract, in every reachable state. */
  lemma ConfirmedRevisionsMatchContract(trace: seq<Sys>, i: nat, d: Uuid, a: int)
    requires Behaviour(trace) && i < |trace| && Exposed(trace[i].t, trace[i].built, d, a)
    ensures UnderContract(trace[i].t, trace[i].built, d, a)
  {
    AlwaysOk(trace, i);
  }

  // ----- all paths, the first index included

  /** An unflagged active revision of a document that is not deleted, whichever path built it. */
  predicate Served(t: Tables, d: Uuid, a: int) {
    && d in t.documents && t.documents[d].active == Some(a) && !t.documents[d].status.Deleted?
    && a in t.documents[d].revisions && !t.documents[d].revisions[a].requiresReindex
  }

  ghost predicate AllUnderContract(t: Tables, built: map<(Uuid, int), Build>) {
    forall d, a {:trigger Served(t, d, a)} {:trigger UnderContract(t, built, d, a)} |
      Served(t, d, a) :: UnderContract(t, built, d, a)
  }

  predicate Unflagged(t: Tables, d: Uuid, a: int) {
    d in t.documents && a in t.documents[d].revisions && !t.documents[d].revisions[a].requiresReindex
  }

  /** The first index captures its contract, commits, and activates later without the lock. It
      keeps the fact exactly when the contract it captured is still the current one. */
  lemma ActivationIsSafeIffContractUnchanged(s: Sys, r: nat, now: Time)
    requires SysOk(s) && AllUnderContract(s.t, s.built)
    requires InFlight(s, r, now) && s.runs[r].phase.Building?
    requires MoveDocument(s.t, s.runs[r], Indexing, Ready, now).Some?
    ensures WorkspaceOf(s.t, s.runs[r]) in s.t.workspaces
    ensures
      var s' := Apply(s, Activate(r, now));
      var w := s.t.workspaces[WorkspaceOf(s.t, s.runs[r])];
      AllUnderContract(s'.t, s'.built) <==>
        w.contract == s.runs[r].phase.contract
        || !Unflagged(s.t, s.runs[r].snapshot.document, s.runs[r].snapshot.revision)
  {
    var run := s.runs[r];
    var s' := Apply(s, Activate(r, now));
    var id, rev := run.snapshot.document, run.snapshot.revision;
    assert DocumentOk(s.t, s.t.documents[id]) && RunOk(s.t, run);
    assert Unflagged(s.t, id, rev) <==> Served(s'.t, id, rev);
    if s.t.workspaces[WorkspaceOf(s.t, run)].contract == run.phase.contract || !Unflagged(s.t, id, rev) {
      forall d, a | Served(s'.t, d, a) ensures UnderContract(s'.t, s'.built, d, a) {
        if d != id {
          assert (d, a) != (id, rev) && Served(s.t, d, a);
          assert UnderContract(s.t, s.built, d, a);
        }
      }
    } else {
      assert !UnderContract(s'.t, s'.built, id, rev);
    }
  }

  /** A served revision of another document in the workspace that the change has not marked: it
      was activated after the marks were taken, so the change will not flag it. */
  predicate EscapesMarks(t: Tables, run: Run, d: Uuid, a: int)
    requires run.phase.Holding?
  {
    && Served(t, d, a) && d != run.snapshot.document && t.documents[d].workspace == WorkspaceOf(t, run)
    && !(d in run.phase.marks && run.phase.marks[d] == a)
  }

  /** The commit of a run keeps the fact exactly when it leaves the contract of its workspace as it
      is, or nothing escaped its marks. */
  lemma CommitIsSafeIffNothingEscapes(s: Sys, r: nat, now: Time)
    requires SysOk(s) && AllUnderContract(s.t, s.built)
    requires InFlight(s, r, now) && s.runs[r].phase.Holding? && WorkspaceOf(s.t, s.runs[r]) in s.t.workspaces
    requires PlanEffect(s.t, s.runs[r], now).1
    ensures
      var s' := Apply(s, CommitPlan(r, now));
      AllUnderContract(s'.t, s'.built) <==>
        || s.t.workspaces[WorkspaceOf(s.t, s.runs[r])].contract == s.runs[r].phase.contract
        || !exists d, a :: EscapesMarks(s.t, s.runs[r], d, a)
  {
    var run := s.runs[r];
    var s' := Apply(s, CommitPlan(r, now));
    assert RunOk(s.t, run);
    var sameContract := s.t.workspaces[WorkspaceOf(s.t, run)].contract == run.phase.contract;
    forall d, a | EscapesMarks(s.t, run, d, a) ensures AllUnderContract(s'.t, s'.built) ==> sameContract {
      CommitElsewhere(s, r, now, d, a);
      assert Served(s'.t, d, a) && UnderContract(s.t, s.built, d, a);
    }
    if sameContract || !exists d, a :: EscapesMarks(s.t, run, d, a) {
      forall d, a | Served(s'.t, d, a) ensures UnderContract(s'.t, s'.built, d, a) {
        if d != run.snapshot.document {
          CommitElsewhere(s, r, now, d, a);
          assert UnderContract(s.t, s.built, d, a) && (sameContract || !EscapesMarks(s.t, run, d, a));
        } else {
          CommittedOwnRevision(s, r, now, a);
        }
      }
    }
  }

  /** What a commit does to the other documents: marks, and the contract of their workspace. */
  lemma CommitElsewhere(s: Sys, r: nat, now: Time, d: Uuid, a: int)
    requires TablesOk(s.t) && AllUnderContract(s.t, s.built)
    requires InFlight(s, r, now) && s.runs[r].phase.Holding? && WorkspaceOf(s.t, s.runs[r]) in s.t.workspaces
    requires PlanEffect(s.t, s.runs[r], now).1 && d != s.runs[r].snapshot.document
    ensures
      var run, s' := s.runs[r], Apply(s, CommitPlan(r, now));
      && (Served(s'.t, d, a) <==>
            Served(s.t, d, a) && !(d in run.phase.marks && run.phase.marks[d] == a))
      && (Served(s.t, d, a) && Served(s'.t, d, a) ==>
            (UnderContract(s'.t, s'.built, d, a) <==>
               if s.t.documents[d].workspace == WorkspaceOf(s.t, run)
               then s.built[(d, a)].contract == run.phase.contract
               else UnderContract(s.t, s.built, d, a)))
  {
    var run := s.runs[r];
    var s' := ApplyCommitPlan(s, r, now);
    MarksElsewhere(s.t, run, now, d);
    if d in s.t.documents { assert DocumentOk(s.t, s.t.documents[d]); }
    CommitBuilds(s, r, now, d, a);
    MarkedElsewhere(s.t, s'.t, s.built, s'.built, run, d, a);
  }

  lemma CommitBuilds(s: Sys, r: nat, now: Time, d: Uuid, a: int)
    requires InFlight(s, r, now) && s.runs[r].phase.Holding? && WorkspaceOf(s.t, s.runs[r]) in s.t.workspaces
    requires PlanEffect(s.t, s.runs[r], now).1 && d != s.runs[r].snapshot.document
    ensures
      var s' := ApplyCommitPlan(s, r, now);
      && s'.t == PlanEffect(s.t, s.runs[r], now).0
      && ((d, a) in s'.built <==> (d, a) in s.built) && ((d, a) in s.built ==> s'.built[(d, a)] == s.built[(d, a)])
  {}

  /** Marks decide what is still served, and the workspace row decides the contract. */
  lemma MarkedElsewhere(t: Tables, t': Tables, built: map<(Uuid, int), Build>, built': map<(Uuid, int), Build>,
                        run: Run, d: Uuid, a: int)
    requires run.phase.Holding? && WorkspaceOf(t, run) in t.workspaces
    requires d in t.documents ==> t.documents[d].workspace in t.workspaces
    requires t'.workspaces == t.workspaces[WorkspaceOf(t, run) := t.workspaces[WorkspaceOf(t, run)].(contract := run.phase.contract)]
    requires d in t'.documents <==> d in t.documents
    requires d in t.documents ==>
               t'.documents[d] == if d in run.phase.marks then Marked(t.documents[d], run.phase.marks[d]) else t.documents[d]
    requires ((d, a) in built' <==> (d, a) in built) && ((d, a) in built ==> built'[(d, a)] == built[(d, a)])
    requires Served(t, d, a) ==> (d, a) in built
    ensures Served(t', d, a) <==> Served(t, d, a) && !(d in run.phase.marks && run.phase.marks[d] == a)
    ensures Served(t, d, a) && Served(t', d, a) ==>
              (UnderContract(t', built', d, a) <==>
                 if t.documents[d].workspace == WorkspaceOf(t, run)
                 then built[(d, a)].contract == run.phase.contract
                 else UnderContract(t, built, d, a))
  {}

  lemma MarksElsewhere(t: Tables, run: Run, now: Time, d: Uuid)
    requires run.phase.Holding? && WorkspaceOf(t, run) in t.workspaces && d != run.snapshot.document
    ensures
      var w, t' := WorkspaceOf(t, run), PlanEffect(t, run, now).0;
      && t'.workspaces == t.workspaces[w := t.workspaces[w].(contract := run.phase.contract)]
      && (d in t'.documents <==> d in t.documents)
      && (d in t.documents ==>
            t'.documents[d] == if d in run.phase.marks then Marked(t.documents[d], run.phase.marks[d]) else t.documents[d])
  {
    PlanKeepsOtherRows(ApplyContract(t, WorkspaceOf(t, run), run.phase.contract, run.phase.marks), run, now, d);
  }

  lemma PlanKeepsOtherRows(t: Tables, run: Run, now: Time, d: Uuid)
    requires run.phase.Holding? && d != run.snapshot.document
    ensures
      var t' := CompletePlan(t, run, now).0;
      && t'.workspaces == t.workspaces && (d in t'.documents <==> d in t.documents)
      && (d in t.documents ==> t'.documents[d] == t.documents[d])
  {}

  lemma CommittedOwnRevision(s: Sys, r: nat, now: Time, a: int)
    requires SysOk(s) && InFlight(s, r, now) && s.runs[r].phase.Holding?
    requires WorkspaceOf(s.t, s.runs[r]) in s.t.workspaces && PlanEffect(s.t, s.runs[r], now).1
    requires
      var s' := Apply(s, CommitPlan(r, now));
      Served(s'.t, s.runs[r].snapshot.document, a)
    ensures
      var s' := Apply(s, CommitPlan(r, now));
      UnderContract(s'.t, s'.built, s.runs[r].snapshot.document, a)
  {
    CommitRows(s, r, now);
    ServedAfterCommit(s, r, now, a);
    CommittedBuild(s, r, now);
  }

  lemma CommitRows(s: Sys, r: nat, now: Time)
    requires Enabled(s, CommitPlan(r, now)) && PlanEffect(s.t, s.runs[r], now).1
    ensures Apply(s, CommitPlan(r, now)).t == PlanEffect(s.t, s.runs[r], now).0
  {}

  lemma ServedAfterCommit(s: Sys, r: nat, now: Time, a: int)
    requires SysOk(s) && InFlight(s, r, now) && s.runs[r].phase.Holding?
    requires WorkspaceOf(s.t, s.runs[r]) in s.t.workspaces && PlanEffect(s.t, s.runs[r], now).1
    requires Served(PlanEffect(s.t, s.runs[r], now).0, s.runs[r].snapshot.document, a)
    ensures !s.runs[r].phase.plan.IndexFirst? && !s.runs[r].phase.plan.DeleteActive? && a == s.runs[r].snapshot.revision
    ensures
      var run, t' := s.runs[r], PlanEffect(s.t, s.runs[r], now).0;
      && t'.documents[run.snapshot.document].workspace == WorkspaceOf(s.t, run)
      && WorkspaceOf(s.t, run) in t'.workspaces && t'.workspaces[WorkspaceOf(s.t, run)].contract == run.phase.contract
  {
    ReconcilingOk(s, r);
    var t1 := Reconciling(s, r).t;
    assert RunOk(t1, s.runs[r].(phase := Raised));
    ServedAfterPlan(t1, s.runs[r], now, a);
  }

  /** A run's own document is served after its plan only if the plan rebuilt or replaced it. */
  lemma ServedAfterPlan(t: Tables, run: Run, now: Time, a: int)
    requires TablesOk(t) && RunOk(t, run.(phase := Raised)) && run.phase.Holding? && CompletePlan(t, run, now).1
    requires Served(CompletePlan(t, run, now).0, run.snapshot.document, a)
    ensures !run.phase.plan.IndexFirst? && !run.phase.plan.DeleteActive? && a == run.snapshot.revision
    ensures CompletePlan(t, run, now).0.workspaces == t.workspaces
    ensures CompletePlan(t, run, now).0.documents[run.snapshot.document].workspace == WorkspaceOf(t, run)
  {
    assert DocumentOk(t, t.documents[run.snapshot.document]);
  }

  lemma CommittedBuild(s: Sys, r: nat, now: Time)
    requires InFlight(s, r, now) && s.runs[r].phase.Holding? && WorkspaceOf(s.t, s.runs[r]) in s.t.workspaces
    requires PlanEffect(s.t, s.runs[r], now).1 && !s.runs[r].phase.plan.IndexFirst? && !s.runs[r].phase.plan.DeleteActive?
    ensures
      var run, s' := s.runs[r], ApplyCommitPlan(s, r, now);
      s'.t == PlanEffect(s.t, run, now).0
      && s'.built == s.built[(run.snapshot.document, run.snapshot.revision) := Build(run.phase.contract, true)]
  {}

  /** No other step loses the fact. */
  lemma OtherStepsKeepContract(s: Sys, l: Label)
    requires SysOk(s) && AllUnderContract(s.t, s.built) && Enabled(s, l) && !l.Activate? && !l.CommitPlan?
    ensures AllUnderContract(Apply(s, l).t, Apply(s, l).built)
  {
    var s' := Apply(s, l);
    forall d, a | Served(s'.t, d, a) ensures UnderContract(s'.t, s'.built, d, a) {
      OtherStepServes(s, l, d, a);
      assert UnderContract(s.t, s.built, d, a);
      SameContract(s, s', d, a);
    }
  }

  lemma SameContract(s: Sys, s': Sys, d: Uuid, a: int)
    requires UnderContract(s.t, s.built, d, a) && s'.built == s.built
    requires d in s'.t.documents && s'.t.documents[d].workspace == s.t.documents[d].workspace
    requires
      var w := s.t.documents[d].workspace;
      w in s'.t.workspaces && s'.t.workspaces[w].contract == s.t.workspaces[w].contract
    ensures UnderContract(s'.t, s'.built, d, a)
  {}

  lemma OtherStepServes(s: Sys, l: Label, d: Uuid, a: int)
    requires SysOk(s) && Enabled(s, l) && !l.Activate? && !l.CommitPlan? && Served(Apply(s, l).t, d, a)
    ensures Served(s.t, d, a) && d in s.t.documents && Apply(s, l).built == s.built
    ensures d in Apply(s, l).t.documents
    ensures Apply(s, l).t.documents[d].workspace == s.t.documents[d].workspace
    ensures
      var w := s.t.documents[d].workspace;
      w in s.t.workspaces ==>
        w in Apply(s, l).t.workspaces && Apply(s, l).t.workspaces[w].contract == s.t.workspaces[w].contract
  {
    if IsMove(l) {
      MoveServes(s, l, d, a);
    } else if IsLocal(l) {
      LocalShape(s, l);
    } else if IsJobStep(l) {
      JobStepShape(s, l);
    } else {
      ApiServes(s, l, d, a);
    }
  }

  /** Only an activation changes what is served among the moves of a run. */
  lemma MoveServes(s: Sys, l: Label, d: Uuid, a: int)
    requires SysOk(s) && Enabled(s, l) && IsMove(l) && !l.Activate? && Served(Apply(s, l).t, d, a)
    ensures Served(s.t, d, a) && Apply(s, l).built == s.built && Apply(s, l).t.workspaces == s.t.workspaces
    ensures d in Apply(s, l).t.documents && Apply(s, l).t.documents[d].workspace == s.t.documents[d].workspace
  {
    MoveShape(s, l);
    assert RunOk(s.t, s.runs[RunOf(l).value]);
  }

  lemma ApiServes(s: Sys, l: Label, d: Uuid, a: int)
    requires SysOk(s) && Enabled(s, l) && IsApi(l) && Served(Apply(s, l).t, d, a)
    ensures Served(s.t, d, a) && d in s.t.documents && Apply(s, l).built == s.built
    ensures d in Apply(s, l).t.documents
    ensures Apply(s, l).t.documents[d].workspace == s.t.documents[d].workspace
    ensures
      var w := s.t.documents[d].workspace;
      w in s.t.workspaces ==>
        w in Apply(s, l).t.workspaces && Apply(s, l).t.workspaces[w].contract == s.t.workspaces[w].contract
  {
    if l.Store? {
      StoreServes(s.t, l.ws, l.doc, l.source, l.job, l.now, d, a);
    } else if l.Replace? {
      ReplaceServes(s.t, l.ws, l.doc, l.source, l.job, l.now, d, a);
    } else if l.Delete? {
      DeleteServes(s.t, l.ws, l.doc, l.job, l.now, d, a);
    } else {
      EnqueueServes(s.t, l.ws, l.contract, l.ids, l.now, d, a);
    }
  }

  /** What is served after a call was served before it, in a workspace under the same contract. */
  ghost predicate ServesAsBefore(t: Tables, t': Tables, d: Uuid, a: int) {
    Served(t', d, a) ==>
      && Served(t, d, a) && t'.documents[d].workspace == t.documents[d].workspace
      && var w := t.documents[d].workspace;
         w in t.workspaces ==> w in t'.workspaces && t'.workspaces[w].contract == t.workspaces[w].contract
  }

  lemma StoreServes(t: Tables, ws: Uuid, doc: Uuid, source: Source, job: Uuid, now: Time, d: Uuid, a: int)
    requires ApiSpec.Store(t, ws, doc, source, job, now).Some?
    ensures ServesAsBefore(t, ApiSpec.Store(t, ws, doc, source, job, now).value, d, a)
  {}

  lemma ReplaceServes(t: Tables, ws: Uuid, doc: Uuid, source: Source, job: Uuid, now: Time, d: Uuid, a: int)
    requires TablesOk(t) && ApiSpec.Replace(t, ws, doc, source, job, now).Some?
    ensures ServesAsBefore(t, ApiSpec.Replace(t, ws, doc, source, job, now).value, d, a)
  {
    ReplaceResult(t, ws, doc, source, job, now);
  }

  lemma DeleteServes(t: Tables, ws: Uuid, doc: Uuid, job: Uuid, now: Time, d: Uuid, a: int)
    requires ApiSpec.Delete(t, ws, doc, job, now).Some?
    ensures ServesAsBefore(t, ApiSpec.Delete(t, ws, doc, job, now).value, d, a)
  {}

  lemma EnqueueServes(t: Tables, ws: Uuid, c: Contract, ids: map<Uuid, Uuid>, now: Time, d: Uuid, a: int)
    ensures ServesAsBefore(t, ApiSpec.Enqueue(t, ws, c, ids, now), d, a)
  {
    if ws in t.workspaces && d in t.documents { ApplyContractRow(t, ws, c, Marks(t, ws, c), d); }
  }

  // ----- the history covers every active revision

  /** The build history knows every active revision, so `AllUnderContract` leaves none out. */
  ghost predicate ActivesBuilt(s: Sys) {
    forall d {:trigger ActiveBuilt(s, d)} | d in s.t.documents :: ActiveBuilt(s, d)
  }

  ghost predicate ActiveBuilt(s: Sys, d: Uuid)
    requires d in s.t.documents
  {
    s.t.documents[d].active.Some? ==> (d, s.t.documents[d].active.value) in s.built
  }

  /** What a step other than an activation or a commit does to the active revision. */
  lemma ActiveKept(s: Sys, l: Label, d: Uuid)
    requires SysOk(s) && Enabled(s, l) && !l.Activate? && !l.CommitPlan? && d in Apply(s, l).t.documents
    ensures Apply(s, l).built == s.built
    ensures if d in s.t.documents then Apply(s, l).t.documents[d].active == s.t.documents[d].active
            else Apply(s, l).t.documents[d].active.None?
  {
    if IsMove(l) {
      MoveShape(s, l);
    } else if IsLocal(l) {
      LocalShape(s, l);
    } else if IsJobStep(l) {
      JobStepShape(s, l);
    } else {
      ApiKeepsActive(s, l, d);
    }
  }

  lemma ApiKeepsActive(s: Sys, l: Label, d: Uuid)
    requires SysOk(s) && Enabled(s, l) && IsApi(l) && d in Apply(s, l).t.documents
    ensures Apply(s, l).built == s.built
    ensures if d in s.t.documents then Apply(s, l).t.documents[d].active == s.t.documents[d].active
            else Apply(s, l).t.documents[d].active.None?
  {
    match l
    case Store(ws, doc, source, job, now) =>
    case Replace(ws, doc, source, job, now) => ReplaceResult(s.t, ws, doc, source, job, now);
    case Delete(ws, doc, job, now) =>
    case Enqueue(ws, c, ids, now) =>
      if ws in s.t.workspaces && d in s.t.documents { ApplyContractRow(s.t, ws, c, Marks(s.t, ws, c), d); }
  }

  lemma ActivationIsBuilt(s: Sys, r: nat, now: Time, d: Uuid)
    requires SysOk(s) && ActivesBuilt(s) && Enabled(s, Activate(r, now)) && d in ApplyActivate(s, r, now).t.documents
    ensures ActiveBuilt(ApplyActivate(s, r, now), d)
  {
    assert RunOk(s.t, s.runs[r]);
    if d in s.t.documents { assert ActiveBuilt(s, d); }
  }

  lemma CommitIsBuilt(s: Sys, r: nat, now: Time, d: Uuid)
    requires SysOk(s) && ActivesBuilt(s) && Enabled(s, CommitPlan(r, now)) && d in ApplyCommitPlan(s, r, now).t.documents
    ensures ActiveBuilt(ApplyCommitPlan(s, r, now), d)
  {
    var run := s.runs[r];
    assert RunOk(s.t, run);
    if PlanEffect(s.t, run, now).1 {
      if d != run.snapshot.document { MarksElsewhere(s.t, run, now, d); }
      assert d in s.t.documents && ActiveBuilt(s, d);
      ApplyContractRow(s.t, WorkspaceOf(s.t, run), run.phase.contract, run.phase.marks, d);
      PlanActive(ApplyContract(s.t, WorkspaceOf(s.t, run), run.phase.contract, run.phase.marks), run, now, d);
    } else {
      assert ActiveBuilt(s, d);
    }
  }

  lemma PlanActive(t: Tables, run: Run, now: Time, d: Uuid)
    requires run.phase.Holding? && d in t.documents && CompletePlan(t, run, now).1
    ensures
      var active := CompletePlan(t, run, now).0.documents[d].active;
      || active == t.documents[d].active
      || (run.phase.plan.ReplaceActive? && d == run.snapshot.document && active == Some(run.snapshot.revision))
  {}

  lemma StepKeepsBuilt(s: Sys, l: Label)
    requires SysOk(s) && ActivesBuilt(s) && Enabled(s, l)
    ensures ActivesBuilt(Apply(s, l))
  {
    forall d | d in Apply(s, l).t.documents ensures ActiveBuilt(Apply(s, l), d) { StepIsBuilt(s, l, d); }
  }

  lemma StepIsBuilt(s: Sys, l: Label, d: Uuid)
    requires SysOk(s) && ActivesBuilt(s) && Enabled(s, l) && d in Apply(s, l).t.documents
    ensures ActiveBuilt(Apply(s, l), d)
  {
    if l.Activate? {
      ActivationIsBuilt(s, l.run, l.now, d);
    } else if l.CommitPlan? {
      CommitIsBuilt(s, l.run, l.now, d);
    } else {
      ActiveKept(s, l, d);
      if d in s.t.documents { assert ActiveBuilt(s, d); }
    }
  }

  lemma {:induction false} AlwaysBuilt(trace: seq<Sys>, i: nat)
    requires Behaviour(trace) && i < |trace|
    ensures ActivesBuilt(trace[i])
  {
    if i > 0 {
      AlwaysBuilt(trace, i - 1);
      AlwaysOk(trace, i - 1);
      assert StepAt(trace, i);
      var l :| Enabled(trace[i - 1], l) && trace[i] == Apply(trace[i - 1], l);
      StepKeepsBuilt(trace[i - 1], l);
    }
  }
}
