/** The worker code, statement by statement, on database connections of its own, while other
    workers and API calls act between any two of its statements. Each of its transactions commits
    exactly the tables of one protocol step, so every theorem on behaviours applies to it. */
module WorkerService {
  import opened Entities
  import opened JobSql
  import opened DocumentSql
  import opened TableInvariant
  import opened Protocol
  import opened ProtocolInvariant
  import opened ProtocolSteps
  import opened ProtocolTheorems
  import opened Progress
  import opened Obstacles
  import opened Persistence
  import Rows

  /** The committed tables, and everybody who changes them. */
  class Cluster {
    var sys: Sys
    ghost var trace: seq<Sys>

    constructor (workspaces: map<Uuid, Workspace>)
      ensures Valid() && sys.runs == map[]
    {
      sys := Sys(Tables(map[], map[], workspaces), map[], map[], map[], map[]);
      trace := [Sys(Tables(map[], map[], workspaces), map[], map[], map[], map[])];
    }

    ghost predicate Valid()
      reads this
    {
      Behaviour(trace) && trace[|trace| - 1] == sys
    }

    lemma Sound()
      requires Valid()
      ensures SysOk(sys)
    {
      AlwaysOk(trace, |trace| - 1);
    }

    /** The system takes step `l`. */
    method Record(l: Label)
      requires Valid() && Enabled(sys, l)
      modifies this
      ensures Valid() && sys == Apply(old(sys), l) && trace == old(trace) + [sys]
    {
      ghost var before := sys;
      sys := Apply(sys, l);
      assert Next(before, sys);
      Append(trace, sys);
      trace := trace + [sys];
    }

    /** An event inside a worker, which changes no table. */
    method Event(l: Label)
      requires Valid() && Enabled(sys, l) && Apply(sys, l).t == sys.t
      modifies this
      ensures Valid() && sys == Apply(old(sys), l) && trace == old(trace) + [sys]
    {
      Record(l);
    }

    /** What the next statement of an open transaction sees. */
    method Sync(c: Connection)
      modifies c`committed, c`pending
      ensures c.committed == sys.t && c.pending == View(sys.t, c.own)
    {
      c.committed := sys.t;
      c.Refresh();
    }

    /** The commit of a transaction whose rows are those of step `l`. */
    method Commit(c: Connection, l: Label) returns (o: Outcome<()>)
      requires Valid() && Enabled(sys, l)
      requires c.committed == sys.t && c.pending == Apply(sys, l).t && !c.ackLost
      modifies this, c
      ensures Valid() && c.own == None && c.committed == c.pending == sys.t
      ensures if o.Value? || c.ackLost
              then sys == Apply(old(sys), l) && trace == old(trace) + [sys]
              else sys == old(sys) && trace == old(trace)
      ensures o.Value? ==> !c.ackLost && c.faults == old(c.faults)
      ensures o.Raised? ==> c.faults == old(c.faults) + 1
    {
      o := c.Commit();
      if o.Value? || c.ackLost { Record(l); }
    }

    /** The commit of a transaction that has changed no row. */
    method CommitNothing(c: Connection) returns (o: Outcome<()>)
      requires c.pending == c.committed && !c.ackLost
      modifies c
      ensures c.committed == c.pending == old(c.committed)
      ensures c.faults == old(c.faults) + if o.Value? then 0 else 1
    {
      o := c.Commit();
    }

    /** Any number of steps of anybody but run `r`. */
    method OthersAct(r: nat)
      requires Valid() && r in sys.runs
      modifies this
      ensures Valid() && old(trace) <= trace && Passed(old(sys), sys, r)
    {
      Sound();
      assert RunOk(sys.t, sys.runs[r]);
      var n: int := *;
      while n > 0
        invariant Valid() && old(trace) <= trace && Passed(old(sys), sys, r)
      {
        n := n - 1;
        var l: Label := *;
        if Enabled(sys, l) && RunOf(l) != Some(r) { ActBy(l, r); }
      }
    }

    method ActBy(l: Label, r: nat)
      requires Valid() && Enabled(sys, l) && r in sys.runs && (l.Heartbeat? || RunOf(l) != Some(r))
      modifies this
      ensures Valid() && trace == old(trace) + [sys] && sys == Apply(old(sys), l)
      ensures forall s :: Passed(s, old(sys), r) ==> Passed(s, sys, r)
    {
      Sound();
      StepPasses(sys, l, r);
      Record(l);
      forall s | Passed(s, old(sys), r) ensures Passed(s, sys, r) {
        PassedThrough(s, old(sys), sys, r);
      }
    }

    /** The start time of a transaction that the run opens after its claim. */
    method Clock(r: nat) returns (now: Time)
      requires r in sys.runs
      ensures now >= sys.runs[r].ClaimedAt()
    {
      now := *;
      if now < sys.runs[r].ClaimedAt() { now := sys.runs[r].ClaimedAt(); }
    }
  }

  /** The job store: every call is a connection, one statement and a commit. */
  class JobStore {
    const cluster: Cluster
    const connection: Connection
    const jobs: JobRepository

    constructor (cluster: Cluster, connection: Connection)
      ensures this.cluster == cluster && this.connection == connection && jobs.connection == connection
    {
      this.cluster, this.connection := cluster, connection;
      jobs := new JobRepository(connection);
    }

    method Open()
      modifies connection`committed, connection`pending, connection`own, connection`ackLost
      ensures connection.committed == connection.pending == cluster.sys.t && connection.own == None && !connection.ackLost
    {
      connection.committed := cluster.sys.t;
      connection.Begin();
    }

    method RecoverExpired(retryAfter: nat, now: Time) returns (o: Outcome<()>)
      requires cluster.Valid() && jobs.connection == connection
      modifies cluster, connection
      ensures cluster.Valid() && old(cluster.trace) <= cluster.trace && cluster.sys.runs == old(cluster.sys.runs)
      ensures if o.Value? then connection.faults == old(connection.faults) else connection.faults > old(connection.faults)
      ensures o.Value? ==> cluster.sys == Apply(old(cluster.sys), Recover(retryAfter, now))
                           && cluster.trace == old(cluster.trace) + [cluster.sys]
    {
      Open();
      var _ :- jobs.RecoverExpired(retryAfter, now);
      o := cluster.Commit(connection, Recover(retryAfter, now));
    }

    /** Claims a job for the new run `r`. */
    method ClaimNext(r: nat, owner: string, leaseFor: int, locked: set<Uuid>, now: Time) returns (o: Outcome<Option<Uuid>>)
      requires cluster.Valid() && jobs.connection == connection && r !in cluster.sys.runs && ValidOwner(owner) && leaseFor > 0
      modifies cluster, connection
      ensures cluster.Valid() && old(cluster.trace) <= cluster.trace
      ensures if o.Value? then connection.faults == old(connection.faults) else connection.faults > old(connection.faults)
      ensures o == Value(None) ==>
                && cluster.sys == old(cluster.sys)
                && forall id | id in cluster.sys.t.jobs && id !in locked :: !Claimable(cluster.sys.t.jobs[id], now)
      ensures o.Value? && o.value.Some? ==>
                && IsCandidate(old(cluster.sys).t, o.value.value, now, locked)
                && cluster.sys == Apply(old(cluster.sys), Claim(r, o.value.value, owner, leaseFor, locked, now))
    {
      Open();
      var claimed :- jobs.ClaimNext(owner, leaseFor, now, locked);
      if claimed.None? {
        var _ :- cluster.CommitNothing(connection);
        return Value(None);
      }
      var _ :- cluster.Commit(connection, Claim(r, claimed.value, owner, leaseFor, locked, now));
      return Value(claimed);
    }

    /** The calls of run `r` about its own attempt. */
    ghost predicate Mine(r: nat, id: Uuid, owner: string, attempt: int, now: Time)
      reads cluster
    {
      && cluster.Valid() && InFlight(cluster.sys, r, now)
      && cluster.sys.runs[r].job == id && cluster.sys.runs[r].Owner() == owner && cluster.sys.runs[r].Attempt() == attempt
    }

    method Heartbeat(r: nat, id: Uuid, owner: string, attempt: int, leaseFor: int, now: Time) returns (o: Outcome<bool>)
      requires Mine(r, id, owner, attempt, now) && jobs.connection == connection && leaseFor > 0
      modifies cluster, connection
      ensures cluster.Valid() && old(cluster.trace) <= cluster.trace && Passed(old(cluster.sys), cluster.sys, r)
      ensures if o.Value? then connection.faults == old(connection.faults) else connection.faults > old(connection.faults)
      ensures o.Value? ==> cluster.sys == Apply(old(cluster.sys), Protocol.Heartbeat(r, leaseFor, now))
      ensures o == Value(true) ==> id in cluster.sys.t.jobs
                                   && Rows.LeasedUntil(cluster.sys.t.jobs[id], owner, attempt, now + leaseFor)
      ensures o.Value? ==> (o.value <==> LiveRun(old(cluster.sys).t, old(cluster.sys).runs[r], now))
    {
      cluster.Sound();
      assert RunOk(cluster.sys.t, cluster.sys.runs[r]);
      StepPasses(cluster.sys, Protocol.Heartbeat(r, leaseFor, now), r);
      Open();
      var renewed :- jobs.Heartbeat(id, owner, attempt, leaseFor, now);
      var _ :- cluster.Commit(connection, Protocol.Heartbeat(r, leaseFor, now));
      return Value(renewed);
    }

    method Succeed(r: nat, id: Uuid, owner: string, attempt: int, now: Time) returns (o: Outcome<bool>)
      requires Mine(r, id, owner, attempt, now) && jobs.connection == connection && cluster.sys.runs[r].phase.Returned?
      modifies cluster, connection
      ensures cluster.Valid() && old(cluster.trace) <= cluster.trace
      ensures if o.Value? then connection.faults == old(connection.faults) else connection.faults > old(connection.faults)
      ensures o.Value? ==> cluster.sys == Apply(old(cluster.sys), Protocol.Succeed(r, now))
      ensures o.Value? ==> (o.value <==> LiveRun(old(cluster.sys).t, old(cluster.sys).runs[r], now))
    {
      Open();
      var done :- jobs.Succeed(id, owner, attempt, now);
      var _ :- cluster.Commit(connection, Protocol.Succeed(r, now));
      return Value(done);
    }

    method Fail(r: nat, id: Uuid, owner: string, attempt: int, code: ErrorCode, retryAfter: nat, now: Time)
      returns (o: Outcome<bool>)
      requires Mine(r, id, owner, attempt, now) && jobs.connection == connection && cluster.sys.runs[r].phase.Raised?
      requires code.IndexingFailed? || code.DependencyUnavailable?
      modifies cluster, connection
      ensures cluster.Valid() && old(cluster.trace) <= cluster.trace
      ensures if o.Value? then connection.faults == old(connection.faults) else connection.faults > old(connection.faults)
      ensures o.Value? ==> cluster.sys == Apply(old(cluster.sys), Protocol.Fail(r, code, retryAfter, now))
      ensures o.Value? ==> (o.value <==> LiveRun(old(cluster.sys).t, old(cluster.sys).runs[r], now))
    {
      Open();
      var released :- jobs.Fail(id, owner, attempt, code, retryAfter, now);
      var _ :- cluster.Commit(connection, Protocol.Fail(r, code, retryAfter, now));
      return Value(released);
    }
  }

  class IndexingJobProcessor {
    const cluster: Cluster
    const connection: Connection
    const documents: DocumentRepository
    const workspaces: WorkspaceRepository
    const store: JobStore      // used by the heartbeat task that accompanies the processing
    const contract: Contract   // the contract of this process's settings
    const leaseFor: int

    var cancelled: bool            // the heartbeat task has ended, and the processing with it
    ghost var origin: nat          // the point of the trace at which the processing started
    ghost var callsBefore: nat     // the calls of its connection that had broken by then
    ghost var beatsBefore: nat     // the calls of the job store that had
    ghost var tries: set<Try>      // the guarded statements that the run has executed since
    ghost var loss: Try            // the renewal that found no live attempt

    constructor (cluster: Cluster, connection: Connection, store: JobStore, contract: Contract, leaseFor: int)
      requires store.cluster == cluster && store.connection != connection && store.jobs.connection == store.connection
      requires leaseFor > 0
      ensures Bound() && this.cluster == cluster && this.connection == connection
      ensures this.store == store && this.contract == contract && this.leaseFor == leaseFor
    {
      this.cluster, this.connection, this.store := cluster, connection, store;
      this.contract, this.leaseFor := contract, leaseFor;
      documents := new DocumentRepository(connection);
      workspaces := new WorkspaceRepository(connection);
      cancelled, origin, callsBefore, beatsBefore, tries, loss := false, 0, 0, 0, {}, Try(0, 0, Renewal);
    }

    ghost predicate Bound() {
      && documents.connection == workspaces.connection == connection
      && store.cluster == cluster && store.connection != connection && store.jobs.connection == store.connection
      && leaseFor > 0
    }

    /** A call of the run or of its heartbeat has broken since the processing started. */
    ghost predicate Broke()
      reads this, connection, store.connection
    {
      connection.faults > callsBefore || store.connection.faults > beatsBefore
    }

    // ----- what the contracts speak of

    /** Run `r` processes this job. */
    ghost predicate Processing(r: nat, id: Uuid, job: Job)
      reads this, cluster, connection, store.connection
    {
      && Bound() && cluster.Valid() && origin < |cluster.trace|
      && connection.faults >= callsBefore && store.connection.faults >= beatsBefore
      && (cancelled ==> HeartbeatLost(r))
      && r in cluster.sys.runs && cluster.sys.runs[r].job == id && cluster.sys.runs[r].snapshot == job
      && r in cluster.trace[origin].runs && cluster.trace[origin].runs[r].job == id
    }

    /** A call of the job store broke, or a renewal did not find the attempt live. */
    ghost predicate HeartbeatLost(r: nat)
      reads this, cluster, store.connection
    {
      || store.connection.faults > beatsBefore
      || (loss in tries && loss.kind.Renewal? && origin <= loss.at && Missed(cluster.trace, r, loss))
    }

    ghost predicate At(r: nat, phase: Phase)
      reads this, cluster
    {
      r in cluster.sys.runs && cluster.sys.runs[r].phase == phase
    }

    ghost predicate Owns(r: nat)
      reads this, cluster
    {
      origin < |cluster.trace| && Owned(cluster.trace[origin], cluster.sys, r)
    }

    ghost predicate Holds(r: nat)
      reads this, cluster
    {
      origin < |cluster.trace| && Held(cluster.trace[origin], cluster.sys, r)
    }

    /** The job's lease has been recovered since the processing started. */
    ghost predicate Recovered(r: nat)
      reads this, cluster
    {
      origin < |cluster.trace| && TakenOver(cluster.trace[origin], cluster.sys, r)
    }

    /** Since the processing started the effect of the job was in place. */
    ghost predicate Achieved(job: Job)
      reads this, cluster
    {
      exists i :: origin < i < |cluster.trace| && EffectHolds(cluster.trace[i].t, job)
    }

    /** Since the processing started a call broke, or the lease was recovered, or one of the run's
        guarded statements found it run out, or the run gave up before the workspace row, which was
        held by another run or is not that of an active workspace. */
    ghost predicate Excused(r: nat)
      reads this, cluster, connection, store.connection
    {
      Broke() || Interrupted(cluster.trace, origin, r, tries)
    }

    /** A guarded statement of the processing is executed now, in a transaction started at `now`. */
    ghost predicate Tried(now: Time)
      reads this, cluster
    {
      |cluster.trace| > 0 && Try(|cluster.trace| - 1, now, Completion) in tries
    }

    /** The report did not find the attempt live. */
    ghost predicate ReportMissed(r: nat)
      reads this, cluster
    {
      exists p {:trigger Missed(cluster.trace, r, p)} | p in tries :: p.kind.Ending? && Missed(cluster.trace, r, p)
    }

    /** The last renewal has just found no live attempt. */
    ghost predicate NotLive(r: nat)
      reads this, cluster
    {
      && loss in tries && loss.kind.Renewal? && origin <= loss.at < |cluster.trace| && cluster.trace[loss.at] == cluster.sys
      && r in cluster.sys.runs && !LiveRun(cluster.sys.t, cluster.sys.runs[r], loss.clock)
    }

    /** A failure for which one call of the connection broke, or else none and the heartbeat or an
        obstacle is to blame. */
    ghost predicate FailedOnce(r: nat, before: nat)
      reads this, cluster, connection, store.connection
    {
      || connection.faults == before + 1
      || (connection.faults == before
          && (store.connection.faults > beatsBefore || Interrupted(cluster.trace, origin, r, tries)))
    }

    /** How the processing ends. A return means that the job's effect was reached by this run or
        that the job is no longer this run's; an exception is always excused. */
    ghost predicate Ends(r: nat, id: Uuid, job: Job, o: Outcome<()>)
      reads this, cluster, connection, store.connection
    {
      && Processing(r, id, job)
      && (o.Value? ==> At(r, Returned) && Holds(r) && (Achieved(job) || Recovered(r)))
      && (o.Raised? ==> Excused(r) && (At(r, Phase.Raised) || (cancelled && At(r, Ended))))
    }

    twostate predicate Continues()
      reads this, cluster, connection, store.connection
    {
      && old(cluster.trace) <= cluster.trace && old(tries) <= tries
      && connection.faults >= old(connection.faults) && store.connection.faults >= old(store.connection.faults)
    }

    lemma InterruptedNow(r: nat, p: Try)
      requires cluster.Valid() && Owns(r) && p in tries && origin <= p.at < |cluster.trace| && cluster.trace[p.at] == cluster.sys
      requires !LiveRun(cluster.sys.t, cluster.sys.runs[r], p.clock)
      ensures Interrupted(cluster.trace, origin, r, tries)
    {
      MissInterrupts(cluster.trace, origin, r, tries, p);
    }

    lemma ExcuseTaken(r: nat)
      requires cluster.Valid() && Owns(r) && !Current(cluster.sys.t, cluster.sys.runs[r])
      ensures Excused(r) && Recovered(r)
    {
      TakenOverNow(cluster.trace, origin, r, tries);
    }

    lemma KeepExcuse(r: nat, before: seq<Sys>, triesBefore: set<Try>)
      requires before <= cluster.trace && triesBefore <= tries
      requires Broke() || Interrupted(before, origin, r, triesBefore)
      ensures Excused(r)
    {
      if Interrupted(before, origin, r, triesBefore) {
        StillInterrupted(before, cluster.trace, origin, r, triesBefore, tries);
      }
    }

    lemma ReportedAt(r: nat, before: seq<Sys>, now: Time)
      requires origin < |before| && before <= cluster.trace && r in before[|before| - 1].runs
      requires Try(|before| - 1, now, Ending) in tries
      ensures !LiveRun(before[|before| - 1].t, before[|before| - 1].runs[r], now) ==> ReportMissed(r)
      ensures Late(before, r, Try(|before| - 1, now, Ending)) ==> Interrupted(cluster.trace, origin, r, tries)
    {
      var p := Try(|before| - 1, now, Ending);
      assert Missed(before, r, p) ==> Missed(cluster.trace, r, p);
      assert Late(before, r, p) ==> Late(cluster.trace, r, p);
    }

    // ----- suspensions

    /** Others act, and the heartbeat task of this run with them; `lost` when that task ends
        because its call broke or found no live attempt. */
    method Suspend(r: nat, id: Uuid, job: Job) returns (lost: bool)
      requires Processing(r, id, job) && !At(r, Ended)
      modifies this`tries, this`loss, cluster, store.connection
      ensures Processing(r, id, job) && Continues() && Passed(old(cluster.sys), cluster.sys, r)
      ensures lost ==> store.connection.faults > beatsBefore || NotLive(r)
    {
      var beats: nat := *;
      lost := false;
      while beats > 0 && !lost
        invariant Processing(r, id, job) && Continues() && Passed(old(cluster.sys), cluster.sys, r)
        invariant lost ==> store.connection.faults > beatsBefore || NotLive(r)
        decreases beats
      {
        beats := beats - 1;
        lost := ActAndBeat(r, id, job);
      }
      if !lost { cluster.OthersAct(r); }
    }

    method ActAndBeat(r: nat, id: Uuid, job: Job) returns (lost: bool)
      requires Processing(r, id, job) && !At(r, Ended)
      modifies this`tries, this`loss, cluster, store.connection
      ensures Processing(r, id, job) && Continues() && Passed(old(cluster.sys), cluster.sys, r)
      ensures lost ==> store.connection.faults > beatsBefore || NotLive(r)
    {
      cluster.OthersAct(r);
      lost := Beat(r, id, job);
    }

    /** A renewal of this run has leased its attempt until `leaseFor` after its clock. */
    ghost predicate RenewedNow(id: Uuid, job: Job)
      reads this, cluster
    {
      && id in cluster.sys.t.jobs
      && exists p {:trigger p.clock} | p in tries ::
           && p.kind.Renewal?
           && Rows.LeasedUntil(cluster.sys.t.jobs[id], Or(job.leaseOwner, ""), job.attempts, p.clock + leaseFor)
    }

    /** One renewal of the heartbeat task. */
    method Beat(r: nat, id: Uuid, job: Job) returns (lost: bool)
      requires Processing(r, id, job) && !At(r, Ended)
      modifies this`tries, this`loss, cluster, store.connection
      ensures !lost ==> RenewedNow(id, job)
      ensures Processing(r, id, job) && Continues() && Passed(old(cluster.sys), cluster.sys, r)
      ensures lost ==> store.connection.faults > beatsBefore || NotLive(r)
    {
      var now := cluster.Clock(r);
      ghost var p := Try(|cluster.trace| - 1, now, Renewal);
      tries := tries + {p};
      var renewed := store.Heartbeat(r, id, Or(job.leaseOwner, ""), job.attempts, leaseFor, now);
      lost := renewed.Raised? || !renewed.value;
      if renewed.Value? && lost { loss := p; }
    }

    /** The same, and when the heartbeat task ends the processing is cancelled. */
    method SuspendOrCancel(r: nat, id: Uuid, job: Job) returns (lost: bool)
      requires Processing(r, id, job) && !At(r, Ended)
      modifies this`tries, this`cancelled, this`loss, cluster, store.connection
      ensures Processing(r, id, job) && Continues() && Passed(old(cluster.sys), cluster.sys, r)
      ensures old(cancelled) ==> cancelled
      ensures lost ==> cancelled && (store.connection.faults > beatsBefore || NotLive(r))
    {
      lost := Suspend(r, id, job);
      if lost { cancelled := true; }
    }

    /** A call outside the database, or any other wait. It may break, and a lost heartbeat cancels it. */
    method External(r: nat, id: Uuid, job: Job) returns (o: Outcome<()>)
      requires Processing(r, id, job) && !At(r, Ended)
      modifies this`tries, this`cancelled, this`loss, cluster, store.connection, connection`faults
      ensures Processing(r, id, job) && Continues() && Passed(old(cluster.sys), cluster.sys, r)
      ensures old(cancelled) ==> cancelled
      ensures old(Owns(r)) ==> Owns(r) && (o.Raised? ==> Excused(r))
      ensures o.Value? ==> connection.faults == old(connection.faults)
      ensures old(Owns(r)) && o.Raised? ==> FailedOnce(r, old(connection.faults))
    {
      var lost := SuspendOrCancel(r, id, job);
      PassedKeeps(cluster.trace[origin], old(cluster.sys), cluster.sys, r);
      if lost {
        if Owns(r) && NotLive(r) { InterruptedNow(r, loss); }
        return Outcome.Raised;
      }
      var broken := connection.Breaks();
      return if broken then Outcome.Raised else Value(());
    }

    /** The same after `process` has ended: its result stands. */
    method SuspendAfter(r: nat, id: Uuid, job: Job, o: Outcome<()>) returns (lost: bool)
      requires Ends(r, id, job, o) && !At(r, Ended)
      modifies this`tries, this`cancelled, this`loss, cluster, store.connection
      ensures Ends(r, id, job, o) && Continues() && cluster.sys.runs[r] == old(cluster.sys.runs[r])
      ensures lost ==> cancelled && (Broke() || NotLive(r))
    {
      lost := SuspendOrCancel(r, id, job);
      PassedKeeps(cluster.trace[origin], old(cluster.sys), cluster.sys, r);
      if o.Raised? { KeepExcuse(r, old(cluster.trace), old(tries)); } else { KeepAchieved(job, old(cluster.trace)); }
    }

    lemma KeepAchieved(job: Job, before: seq<Sys>)
      requires before <= cluster.trace
      ensures (exists i :: origin < i < |before| && EffectHolds(before[i].t, job)) ==> Achieved(job)
    {
      if i :| origin < i < |before| && EffectHolds(before[i].t, job) {
        assert EffectHolds(cluster.trace[i].t, job);
      }
    }

    /** A run that returned and does not find its attempt live has finished its job, if nothing
        stood in its way. */
    lemma Finished(r: nat, id: Uuid, job: Job)
      requires Ends(r, id, job, Value(())) && (Broke() || NotLive(r))
      ensures Excused(r) || (Done(cluster.sys.t, id) && Achieved(job))
    {
      if Recovered(r) {
        TakenOverNow(cluster.trace, origin, r, tries);
      } else if Current(cluster.sys.t, cluster.sys.runs[r]) && NotLive(r) {
        InterruptedNow(r, loss);
      }
    }

    // ----- leaving

    method RaiseEvent(r: nat, id: Uuid, job: Job)
      requires Processing(r, id, job) && MayRaise(cluster.sys, r)
      modifies cluster
      ensures Processing(r, id, job) && At(r, Phase.Raised) && cluster.trace == old(cluster.trace) + [cluster.sys]
    {
      cluster.Event(Raise(r));
    }

    /** An exception leaves `process`: the transaction rolls back. */
    method Abort(r: nat, id: Uuid, job: Job) returns (o: Outcome<()>)
      requires Processing(r, id, job) && Excused(r) && MayRaise(cluster.sys, r)
      modifies cluster, connection`pending, connection`own
      ensures Ends(r, id, job, o) && o.Raised? && old(cluster.trace) <= cluster.trace
    {
      connection.Rollback();
      RaiseEvent(r, id, job);
      KeepExcuse(r, old(cluster.trace), tries);
      return Outcome.Raised;
    }

    /** The connection closes: its context manager commits, and nothing is left to be committed. */
    method Leave(r: nat, id: Uuid, job: Job) returns (o: Outcome<()>)
      requires Ends(r, id, job, Value(())) && connection.Clean()
      modifies cluster, connection
      ensures Ends(r, id, job, o) && old(cluster.trace) <= cluster.trace && connection.faults >= old(connection.faults)
    {
      o := cluster.CommitNothing(connection);
      if o.Raised? { o := Abort(r, id, job); }
    }

    /** The commit of a step of this run, which may not be acknowledged. */
    method TryCommit(r: nat, id: Uuid, job: Job, l: Label, ghost s': Sys) returns (o: Outcome<()>)
      requires Processing(r, id, job) && Enabled(cluster.sys, l) && s' == Apply(cluster.sys, l)
      requires connection.committed == cluster.sys.t && connection.pending == s'.t && !connection.ackLost
      requires r in s'.runs && s'.runs[r].job == id && s'.runs[r].snapshot == job
      modifies cluster, connection
      ensures Processing(r, id, job) && connection.own == None && connection.pending == connection.committed
      ensures connection.faults == old(connection.faults) + if o.Value? then 0 else 1
      ensures if o.Value? || connection.ackLost
              then cluster.sys == s' && cluster.trace == old(cluster.trace) + [s']
              else cluster.sys == old(cluster.sys) && cluster.trace == old(cluster.trace)
      ensures o.Value? ==> !connection.ackLost
    {
      o := cluster.Commit(connection, l);
    }

    /** When a commit of `process` is not acknowledged it raises, whether or not the step was taken. */
    method CommitStep(r: nat, id: Uuid, job: Job, l: Label, ghost s': Sys) returns (o: Outcome<()>)
      requires Processing(r, id, job) && Enabled(cluster.sys, l) && s' == Apply(cluster.sys, l)
      requires connection.committed == cluster.sys.t && connection.pending == s'.t
      requires !connection.ackLost
      requires r in s'.runs && s'.runs[r].job == id && s'.runs[r].snapshot == job
      requires MayRaise(cluster.sys, r) && MayRaise(s', r)
      modifies cluster, connection
      ensures Processing(r, id, job) && Continues()
      ensures o.Raised? ==> Ends(r, id, job, Outcome.Raised)
      ensures o.Value? ==> cluster.sys == s' && cluster.trace == old(cluster.trace) + [s']
                           && connection.own == None && connection.Clean()
    {
      o := TryCommit(r, id, job, l, s');
      if o.Raised? { o := Abort(r, id, job); }
    }

    /** A suspension of `process` itself: what breaks there leaves it. */
    method Await(r: nat, id: Uuid, job: Job) returns (o: Outcome<()>)
      requires Processing(r, id, job) && Owns(r) && MayRaise(cluster.sys, r)
      modifies this`tries, this`cancelled, this`loss, cluster, store.connection, connection`faults, connection`pending, connection`own
      ensures Processing(r, id, job) && Continues()
      ensures o.Raised? ==> Ends(r, id, job, o)
      ensures o.Value? ==> Owns(r) && cluster.sys.runs[r] == old(cluster.sys.runs[r]) && connection.own == old(connection.own)
                           && WorkspaceOf(cluster.sys.t, cluster.sys.runs[r]) == old(WorkspaceOf(cluster.sys.t, cluster.sys.runs[r]))
    {
      o := External(r, id, job);
      if o.Raised? { o := Abort(r, id, job); }
    }

    /** As `CommitStep`, for a step that ends the processing with the effect of the job in place. */
    method CommitReturn(r: nat, id: Uuid, job: Job, l: Label, ghost s': Sys) returns (o: Outcome<()>)
      requires Processing(r, id, job) && Enabled(cluster.sys, l) && s' == Apply(cluster.sys, l)
      requires connection.committed == cluster.sys.t && connection.pending == s'.t
      requires !connection.ackLost && MayRaise(cluster.sys, r)
      requires r in s'.runs && s'.runs[r] == cluster.sys.runs[r].(phase := Returned)
      requires EffectHolds(s'.t, job) && Held(cluster.trace[origin], s', r)
      modifies cluster, connection
      ensures Ends(r, id, job, o) && Continues() && (o.Value? ==> connection.Clean())
    {
      o := CommitStep(r, id, job, l, s');
    }

    // ----- the steps of process

    /** The opening reads: the workspace of the document, the revision, and the active row. */
    method OpeningReads(job: Job) returns (o: Outcome<(Uuid, Document, bool)>)
      requires Bound()
      modifies connection`faults
      ensures if o.Value? then connection.faults == old(connection.faults) else connection.faults >= old(connection.faults)
      ensures o.Raised? ==> connection.faults > old(connection.faults) || AfterRead(connection.pending, job).Raised?
      ensures o.Value? ==>
                && !AfterRead(connection.pending, job).Raised? && job.document in connection.pending.documents
                && o.value.1 == connection.pending.documents[job.document] && o.value.0 == o.value.1.workspace
                && ((o.value.1.status.Ready? && job.kind.IndexDocument?) || o.value.2 == CurrentRevision(o.value.1).Some?)
    {
      var ws :- documents.WorkspaceId(job.document);
      if ws.None? { return Outcome.Raised; }
      var found :- documents.GetRevision(ws.value, job.document, job.revision);
      if found.None? { return Outcome.Raised; }
      var document := found.value;
      if document.status.Ready? && job.kind.IndexDocument? { return Value((ws.value, document, false)); }
      var active :- documents.Get(ws.value, job.document);
      if active.None? && document.active.Some? { return Outcome.Raised; }
      return Value((ws.value, document, active.Some?));
    }

    /** The fenced transition of the run's document, in a transaction without contract change. */
    method Move(r: nat, id: Uuid, job: Job, ws: Uuid, from: DocumentStatus, to: DocumentStatus, now: Time)
      returns (o: Outcome<Option<Document>>)
      requires Processing(r, id, job) && ws == WorkspaceOf(cluster.sys.t, cluster.sys.runs[r])
      requires connection.own == None && !connection.ackLost
      modifies this`tries, connection`committed, connection`pending, connection`faults
      ensures Processing(r, id, job) && Continues()
      ensures connection.faults == old(connection.faults) + if o.Value? then 0 else 1
      ensures MoveFound(r, job, from, to, now, o)
    {
      tries := tries + {Try(|cluster.trace| - 1, now, Completion)};
      o := MoveRow(r, id, job, ws, from, to, now);
    }

    method MoveRow(r: nat, id: Uuid, job: Job, ws: Uuid, from: DocumentStatus, to: DocumentStatus, now: Time)
      returns (o: Outcome<Option<Document>>)
      requires Processing(r, id, job) && ws == WorkspaceOf(cluster.sys.t, cluster.sys.runs[r]) && Tried(now)
      requires connection.own == None && !connection.ackLost
      modifies connection`committed, connection`pending, connection`faults
      ensures connection.faults == old(connection.faults) + if o.Value? then 0 else 1
      ensures MoveFound(r, job, from, to, now, o)
    {
      cluster.Sync(connection);
      o := documents.TransitionStatusForJob(ws, job.document, from, to, id, Or(job.leaseOwner, ""), job.attempts, now);
    }

    /** Puts a failed or interrupted first index back to UPLOADED. */
    method ResetDocument(r: nat, id: Uuid, job: Job, ws: Uuid, from: DocumentStatus, now: Time) returns (o: Outcome<Document>)
      requires Processing(r, id, job) && At(r, Resetting(from)) && Owns(r)
      requires ws == WorkspaceOf(cluster.sys.t, cluster.sys.runs[r])
      requires now >= cluster.sys.runs[r].ClaimedAt() && connection.own == None && !connection.ackLost
      modifies this`tries, this`cancelled, this`loss, cluster, store.connection, connection
      ensures Processing(r, id, job) && Continues()
      ensures o.Raised? ==> Ends(r, id, job, Outcome.Raised)
      ensures o.Value? ==> ReadyToPlan(r, job, ws, o.value) && o.value.status.Uploaded?
    {
      var _ :- Await(r, id, job);
      var moved := Move(r, id, job, ws, from, Uploaded, now);
      o := FinishReset(r, id, job, ws, from, moved, now);
    }

    /** What `Move` found: a row that was moved and is to be committed, no row, or an error. */
    ghost predicate MoveFound(r: nat, job: Job, from: DocumentStatus, to: DocumentStatus, now: Time,
                              moved: Outcome<Option<Document>>)
      reads this, cluster, connection, store.connection
    {
      && r in cluster.sys.runs && !connection.ackLost && Tried(now)
      && match moved
         case Raised => Broke()
         case Value(None) => MoveDocument(cluster.sys.t, cluster.sys.runs[r], from, to, now) == None
         case Value(Some(document)) =>
           && MoveDocument(cluster.sys.t, cluster.sys.runs[r], from, to, now) == Some(connection.pending)
           && connection.committed == cluster.sys.t
           && job.document in connection.pending.documents && document == connection.pending.documents[job.document]
    }

    method FinishReset(r: nat, id: Uuid, job: Job, ws: Uuid, from: DocumentStatus, moved: Outcome<Option<Document>>, now: Time)
      returns (o: Outcome<Document>)
      requires Processing(r, id, job) && At(r, Resetting(from)) && Owns(r)
      requires MoveFound(r, job, from, Uploaded, now, moved)
      requires ws == WorkspaceOf(cluster.sys.t, cluster.sys.runs[r]) && InFlight(cluster.sys, r, now)
      modifies cluster, connection
      ensures Processing(r, id, job) && Continues()
      ensures o.Raised? ==> Ends(r, id, job, Outcome.Raised)
      ensures o.Value? ==> ReadyToPlan(r, job, ws, o.value) && o.value.status.Uploaded?
    {
      if moved.Raised? {
        var _ := Abort(r, id, job);
        return Outcome.Raised;
      }
      if moved.value.None? {
        ResetMissed(r, id, job, from, now); // the document changed concurrently
        return Outcome.Raised;
      }
      o := CommitReset(r, id, job, ws, from, moved.value.value, now);
    }

    /** The run can take the branch for this row of its document. */
    ghost predicate ReadyToPlan(r: nat, job: Job, ws: Uuid, document: Document)
      reads this, cluster, connection
    {
      && At(r, Planned(ChoosePlan(job, document, CurrentRevision(document).Some?)))
      && Owns(r) && connection.own == None && !connection.ackLost
      && WorkspaceOf(cluster.sys.t, cluster.sys.runs[r]) == ws
    }

    method ResetMissed(r: nat, id: Uuid, job: Job, from: DocumentStatus, now: Time)
      requires Processing(r, id, job) && At(r, Resetting(from)) && Owns(r) && InFlight(cluster.sys, r, now)
      requires MoveDocument(cluster.sys.t, cluster.sys.runs[r], from, Uploaded, now) == None && Tried(now)
      modifies cluster
      ensures Ends(r, id, job, Outcome.Raised) && old(cluster.trace) <= cluster.trace
    {
      cluster.Sound();
      MoveMissed(cluster.sys, r, from, Uploaded, now);
      InterruptedNow(r, Try(|cluster.trace| - 1, now, Completion));
      cluster.Event(Reset(r, now));
      KeepExcuse(r, old(cluster.trace), tries);
    }

    method CommitReset(r: nat, id: Uuid, job: Job, ws: Uuid, from: DocumentStatus, document: Document, now: Time)
      returns (o: Outcome<Document>)
      requires Processing(r, id, job) && At(r, Resetting(from)) && Owns(r) && InFlight(cluster.sys, r, now)
      requires MoveDocument(cluster.sys.t, cluster.sys.runs[r], from, Uploaded, now) == Some(connection.pending)
      requires job.document in connection.pending.documents && document == connection.pending.documents[job.document]
      requires connection.committed == cluster.sys.t && !connection.ackLost
      requires ws == WorkspaceOf(cluster.sys.t, cluster.sys.runs[r])
      modifies cluster, connection
      ensures Processing(r, id, job) && Continues()
      ensures o.Raised? ==> Ends(r, id, job, Outcome.Raised)
      ensures o.Value? ==> ReadyToPlan(r, job, ws, document) && o.value == document && document.status.Uploaded?
    {
      ResetTaken(cluster.trace[origin], cluster.sys, r, now, connection.pending);
      var committed := CommitStep(r, id, job, Reset(r, now), Apply(cluster.sys, Reset(r, now)));
      return if committed.Raised? then Outcome.Raised else Value(document);
    }

    // ----- contract reconciliation and the branches

    /** The run holds the workspace row: its transaction has the contract change of its plan. */
    ghost predicate HoldsPlan(r: nat, ws: Uuid)
      reads this, cluster, connection
    {
      && r in cluster.sys.runs && cluster.sys.runs[r].phase.Holding? && cluster.sys.runs[r].phase.contract == contract
      && ws == WorkspaceOf(cluster.sys.t, cluster.sys.runs[r]) && Owns(r) && !connection.ackLost
      && connection.own == Some(ContractWrite(ws, contract, cluster.sys.runs[r].phase.marks))
    }

    /** Waits for the workspace row; a wait that goes on for ever counts as an exception. */
    method AwaitRow(r: nat, id: Uuid, job: Job, ws: Uuid) returns (o: Outcome<()>)
      requires Processing(r, id, job) && Owns(r) && cluster.sys.runs[r].phase.Planned?
      requires ws == WorkspaceOf(cluster.sys.t, cluster.sys.runs[r])
      modifies this`tries, this`cancelled, this`loss, cluster, store.connection, connection`faults, connection`pending, connection`own
      ensures Processing(r, id, job) && Continues()
      ensures o.Raised? ==> Ends(r, id, job, o)
      ensures o.Value? ==> Owns(r) && cluster.sys.runs[r] == old(cluster.sys.runs[r]) && connection.own == old(connection.own)
                           && WorkspaceOf(cluster.sys.t, cluster.sys.runs[r]) == ws && ws !in cluster.sys.locks
    {
      o := Await(r, id, job);
      if o.Value? && ws in cluster.sys.locks { o := StopWaiting(r, id, job, ws); }
    }

    method StopWaiting(r: nat, id: Uuid, job: Job, ws: Uuid) returns (o: Outcome<()>)
      requires Processing(r, id, job) && Owns(r) && cluster.sys.runs[r].phase.Planned?
      requires ws == WorkspaceOf(cluster.sys.t, cluster.sys.runs[r]) && ws in cluster.sys.locks
      modifies cluster, connection`pending, connection`own
      ensures Ends(r, id, job, o) && o.Raised? && old(cluster.trace) <= cluster.trace
    {
      cluster.Sound();
      WaitIsForAnother(cluster.sys, r);
      connection.Rollback();
      RaiseEvent(r, id, job);
      TurnedAwayNow(cluster.trace, origin, r, tries);
      return Outcome.Raised;
    }

    /** Takes the workspace row under the contract of this process. */
    method Reconcile(r: nat, id: Uuid, job: Job, ws: Uuid, plan: Plan) returns (o: Outcome<()>)
      requires Processing(r, id, job) && At(r, Planned(plan)) && Owns(r)
      requires ws == WorkspaceOf(cluster.sys.t, cluster.sys.runs[r]) && connection.own == None && !connection.ackLost
      requires ws !in cluster.sys.locks
      modifies cluster, connection`committed, connection`pending, connection`own, connection`faults
      ensures Processing(r, id, job) && Continues()
      ensures o.Raised? ==> Ends(r, id, job, o)
      ensures o.Value? ==> HoldsPlan(r, ws) && cluster.sys.runs[r].phase.plan == plan
    {
      var active := LockRow(ws);
      if active.Raised? {
        o := Abort(r, id, job);
      } else {
        ReconcileEvent(r, id, job, ws, plan, active.value);
        o := if active.value then Value(()) else Outcome.Raised;
      }
    }

    /** The run holds the row, or stops because the workspace is not active. */
    method ReconcileEvent(r: nat, id: Uuid, job: Job, ws: Uuid, plan: Plan, active: bool)
      requires Processing(r, id, job) && At(r, Planned(plan)) && Owns(r) && !connection.ackLost
      requires ws == WorkspaceOf(cluster.sys.t, cluster.sys.runs[r]) && ws !in cluster.sys.locks
      requires active <==> Available(cluster.sys.t, cluster.sys.runs[r])
      requires active ==> connection.own == Some(ContractWrite(ws, contract, Marks(cluster.sys.t, ws, contract)))
      modifies cluster
      ensures Processing(r, id, job) && old(cluster.trace) <= cluster.trace
      ensures if active then HoldsPlan(r, ws) && cluster.sys.runs[r].phase.plan == plan
              else Ends(r, id, job, Outcome.Raised)
    {
      ReconcileTaken(cluster.trace[origin], cluster.sys, r, contract);
      TakeEvent(r, id, job, Protocol.Reconcile(r, contract), Apply(cluster.sys, Protocol.Reconcile(r, contract)));
      if !active { TurnedAwayNow(cluster.trace, origin, r, tries); }
    }

    /** The locking read and update of the workspace row; whether the workspace is there and active. */
    method LockRow(ws: Uuid) returns (o: Outcome<bool>)
      requires Bound() && connection.own == None
      modifies connection`committed, connection`pending, connection`own, connection`faults
      ensures if o.Value? then connection.faults == old(connection.faults) else connection.faults > old(connection.faults)
      ensures o.Value? ==> (o.value <==> ws in cluster.sys.t.workspaces && cluster.sys.t.workspaces[ws].isActive)
      ensures o == Value(true) ==> connection.own == Some(ContractWrite(ws, contract, Marks(cluster.sys.t, ws, contract)))
    {
      cluster.Sync(connection);
      var row :- workspaces.EnsureIndexContract(ws, contract);
      return Value(row.Some? && row.value.isActive);
    }

    /** An event of this run. */
    method TakeEvent(r: nat, id: Uuid, job: Job, l: Label, ghost s': Sys)
      requires Processing(r, id, job) && Enabled(cluster.sys, l) && s' == Apply(cluster.sys, l) && s'.t == cluster.sys.t
      requires r in s'.runs && s'.runs[r].job == id && s'.runs[r].snapshot == job
      modifies cluster
      ensures Processing(r, id, job) && cluster.sys == s' && cluster.trace == old(cluster.trace) + [s']
    {
      cluster.Event(l);
    }

    /** What the fenced statement of the plan did to the rows the transaction sees. */
    ghost predicate PlanFound(r: nat, now: Time, completed: Outcome<bool>)
      reads this, cluster, connection, store.connection
    {
      && r in cluster.sys.runs && cluster.sys.runs[r].phase.Holding? && Tried(now)
      && WorkspaceOf(cluster.sys.t, cluster.sys.runs[r]) in cluster.sys.t.workspaces
      && if completed.Raised? then Broke()
         else (connection.pending, completed.value) == PlanEffect(cluster.sys.t, cluster.sys.runs[r], now)
              && connection.committed == cluster.sys.t
    }

    /** A missing row raises; otherwise the transaction commits. */
    method FinishPlan(r: nat, id: Uuid, job: Job, ws: Uuid, completed: Outcome<bool>, now: Time) returns (o: Outcome<()>)
      requires Processing(r, id, job) && HoldsPlan(r, ws) && !cluster.sys.runs[r].phase.plan.IndexFirst?
      requires PlanFound(r, now, completed) && InFlight(cluster.sys, r, now)
      modifies cluster, connection
      ensures Ends(r, id, job, o) && Continues() && (o.Value? ==> connection.Clean())
    {
      if completed.Raised? {
        o := Abort(r, id, job);
      } else if completed.value {
        o := CommitDone(r, id, job, now);
      } else {
        PlanWithoutRow(r, id, job, now); // the lease was lost
        o := Outcome.Raised;
      }
    }

    method PlanWithoutRow(r: nat, id: Uuid, job: Job, now: Time)
      requires Processing(r, id, job) && Owns(r) && Tried(now) && InFlight(cluster.sys, r, now)
      requires cluster.sys.runs[r].phase.Holding? && WorkspaceOf(cluster.sys.t, cluster.sys.runs[r]) in cluster.sys.t.workspaces
      requires !PlanEffect(cluster.sys.t, cluster.sys.runs[r], now).1
      modifies cluster
      ensures Ends(r, id, job, Outcome.Raised) && old(cluster.trace) <= cluster.trace
    {
      cluster.Sound();
      PlanFailed(cluster.sys, r, now);
      InterruptedNow(r, Try(|cluster.trace| - 1, now, Completion));
      TakeEvent(r, id, job, CommitPlan(r, now), Apply(cluster.sys, CommitPlan(r, now)));
      KeepExcuse(r, old(cluster.trace), tries);
    }

    method CommitDone(r: nat, id: Uuid, job: Job, now: Time) returns (o: Outcome<()>)
      requires Processing(r, id, job) && Owns(r) && InFlight(cluster.sys, r, now)
      requires cluster.sys.runs[r].phase.Holding? && !cluster.sys.runs[r].phase.plan.IndexFirst?
      requires WorkspaceOf(cluster.sys.t, cluster.sys.runs[r]) in cluster.sys.t.workspaces
      requires PlanEffect(cluster.sys.t, cluster.sys.runs[r], now) == (connection.pending, true)
      requires connection.committed == cluster.sys.t && !connection.ackLost
      modifies cluster, connection
      ensures Ends(r, id, job, o) && Continues() && (o.Value? ==> connection.Clean())
    {
      cluster.Sound();
      PlanDone(cluster.trace[origin], cluster.sys, r, now);
      o := CommitReturn(r, id, job, CommitPlan(r, now), Apply(cluster.sys, CommitPlan(r, now)));
    }

    /** A check of `_reindex` or `_delete` fails: the document is not in the state of the job. */
    method Refused(r: nat, id: Uuid, job: Job, ws: Uuid) returns (o: Outcome<()>)
      requires Processing(r, id, job) && HoldsPlan(r, ws) && cluster.sys.runs[r].phase.plan.Refuse?
      modifies cluster, connection`pending, connection`own
      ensures Ends(r, id, job, o) && o.Raised? && old(cluster.trace) <= cluster.trace
    {
      cluster.Sound();
      PlanRefused(cluster.sys, r);
      ExcuseTaken(r);
      o := Abort(r, id, job);
    }

    /** The rows that the next statement of a run with this plan sees. */
    method SyncPlan(r: nat, ws: Uuid, now: Time)
      requires cluster.Valid() && HoldsPlan(r, ws)
      modifies this`tries, connection`committed, connection`pending
      ensures Tried(now) && tries == old(tries) + {Try(|cluster.trace| - 1, now, Completion)}
      ensures ws in cluster.sys.t.workspaces && connection.committed == cluster.sys.t
      ensures connection.pending == ApplyContract(cluster.sys.t, ws, contract, cluster.sys.runs[r].phase.marks)
      ensures WorkspaceOf(connection.pending, cluster.sys.runs[r]) == ws
    {
      cluster.Sound();
      assert LockOk(cluster.sys.t, cluster.sys.locks, r, cluster.sys.runs[r]);
      PlanView(cluster.sys.t, cluster.sys.runs[r]);
      tries := tries + {Try(|cluster.trace| - 1, now, Completion)};
      cluster.Sync(connection);
    }

    method Reindex(r: nat, id: Uuid, job: Job, ws: Uuid, document: Document, activeRead: bool, now: Time) returns (o: Outcome<()>)
      requires Processing(r, id, job) && HoldsPlan(r, ws) && job.kind.ReindexDocument?
      requires cluster.sys.runs[r].phase.plan == ChoosePlan(job, document, activeRead)
      requires InFlight(cluster.sys, r, now)
      modifies this`tries, this`cancelled, this`loss, cluster, store.connection, connection
      ensures Ends(r, id, job, o) && Continues() && (o.Value? ==> connection.Clean())
    {
      if !document.status.Ready? || document.active != Some(job.revision) {
        o := Refused(r, id, job, ws);
        return;
      }
      o := Await(r, id, job); // source, parser, runtime, insert
      if o.Value? { o := CompleteReindex(r, id, job, ws, now); }
    }

    method CompleteReindex(r: nat, id: Uuid, job: Job, ws: Uuid, now: Time) returns (o: Outcome<()>)
      requires Processing(r, id, job) && HoldsPlan(r, ws) && cluster.sys.runs[r].phase.plan.RebuildActive?
      requires InFlight(cluster.sys, r, now)
      modifies this`tries, cluster, connection
      ensures Ends(r, id, job, o) && Continues() && (o.Value? ==> connection.Clean())
    {
      SyncPlan(r, ws, now);
      var completed := documents.CompleteReindex(ws, job.document, job.revision, id, Or(job.leaseOwner, ""), job.attempts,
                                             contract.schemaVersion, now);
      o := FinishPlan(r, id, job, ws, completed, now);
    }

    method DeleteIndexed(r: nat, id: Uuid, job: Job, ws: Uuid, document: Document, activeRead: bool, now: Time) returns (o: Outcome<()>)
      requires Processing(r, id, job) && HoldsPlan(r, ws) && job.kind.DeleteDocument?
      requires cluster.sys.runs[r].phase.plan == ChoosePlan(job, document, activeRead)
      requires InFlight(cluster.sys, r, now)
      modifies this`tries, this`cancelled, this`loss, cluster, store.connection, connection
      ensures Ends(r, id, job, o) && Continues() && (o.Value? ==> connection.Clean())
    {
      if !document.status.Deleting? || document.active != Some(job.revision) {
        o := Refused(r, id, job, ws);
        return;
      }
      o := Await(r, id, job); // source, parser, runtime, deletes
      if o.Value? { o := CompleteDeletion(r, id, job, ws, now); }
    }

    method CompleteDeletion(r: nat, id: Uuid, job: Job, ws: Uuid, now: Time) returns (o: Outcome<()>)
      requires Processing(r, id, job) && HoldsPlan(r, ws) && cluster.sys.runs[r].phase.plan.DeleteActive?
      requires InFlight(cluster.sys, r, now)
      modifies this`tries, cluster, connection
      ensures Ends(r, id, job, o) && Continues() && (o.Value? ==> connection.Clean())
    {
      SyncPlan(r, ws, now);
      var completed := documents.CompleteDeletion(ws, job.document, job.revision, id, Or(job.leaseOwner, ""), job.attempts, now);
      o := FinishPlan(r, id, job, ws, completed, now);
    }

    method Replace(r: nat, id: Uuid, job: Job, ws: Uuid, now: Time) returns (o: Outcome<()>)
      requires Processing(r, id, job) && HoldsPlan(r, ws) && cluster.sys.runs[r].phase.plan.ReplaceActive?
      requires InFlight(cluster.sys, r, now)
      modifies this`tries, this`cancelled, this`loss, cluster, store.connection, connection
      ensures Ends(r, id, job, o) && Continues() && (o.Value? ==> connection.Clean())
    {
      o := Await(r, id, job); // both sources, parser, runtime, deletes, inserts
      if o.Value? { o := CompleteReplacement(r, id, job, ws, now); }
    }

    method CompleteReplacement(r: nat, id: Uuid, job: Job, ws: Uuid, now: Time) returns (o: Outcome<()>)
      requires Processing(r, id, job) && HoldsPlan(r, ws) && cluster.sys.runs[r].phase.plan.ReplaceActive?
      requires InFlight(cluster.sys, r, now)
      modifies this`tries, cluster, connection
      ensures Ends(r, id, job, o) && Continues() && (o.Value? ==> connection.Clean())
    {
      SyncPlan(r, ws, now);
      var completed := documents.CompleteReplacement(ws, job.document, job.revision, id, Or(job.leaseOwner, ""), job.attempts, now);
      o := FinishPlan(r, id, job, ws, completed, now);
    }

    // ----- the first index

    /** `IndexingService.index`: INDEXING is committed before the build starts. */
    method Index(r: nat, id: Uuid, job: Job, ws: Uuid, now: Time) returns (o: Outcome<()>)
      requires Processing(r, id, job) && HoldsPlan(r, ws) && cluster.sys.runs[r].phase.plan.IndexFirst?
      requires InFlight(cluster.sys, r, now)
      modifies this`tries, this`cancelled, this`loss, cluster, store.connection, connection
      ensures Ends(r, id, job, o) && Continues() && (o.Value? ==> connection.Clean())
    {
      o := BeginIndexing(r, id, job, ws, now);
      if o.Value? { o := Build(r, id, job, ws); }
    }

    method BeginIndexing(r: nat, id: Uuid, job: Job, ws: Uuid, now: Time) returns (o: Outcome<()>)
      requires Processing(r, id, job) && HoldsPlan(r, ws) && cluster.sys.runs[r].phase.plan.IndexFirst?
      requires InFlight(cluster.sys, r, now)
      modifies this`tries, this`cancelled, this`loss, cluster, store.connection, connection
      ensures Processing(r, id, job) && Continues()
      ensures o.Raised? ==> Ends(r, id, job, o)
      ensures o.Value? ==> IsBuilding(r, ws)
    {
      o := Await(r, id, job);
      if o.Value? {
        var started := StartIndexing(r, id, job, ws, now);
        o := FinishStart(r, id, job, ws, started, now);
      }
    }

    method FinishStart(r: nat, id: Uuid, job: Job, ws: Uuid, started: Outcome<bool>, now: Time) returns (o: Outcome<()>)
      requires Processing(r, id, job) && HoldsPlan(r, ws) && cluster.sys.runs[r].phase.plan.IndexFirst?
      requires PlanFound(r, now, started) && InFlight(cluster.sys, r, now)
      modifies cluster, connection
      ensures Processing(r, id, job) && Continues()
      ensures o.Raised? ==> Ends(r, id, job, o)
      ensures o.Value? ==> IsBuilding(r, ws)
    {
      if started.Raised? {
        o := Abort(r, id, job);
      } else if started.value {
        o := CommitIndexing(r, id, job, ws, now);
      } else {
        PlanWithoutRow(r, id, job, now);
        o := Outcome.Raised;
      }
    }

    /** UPLOADED to INDEXING, in the transaction that holds the workspace row. */
    method StartIndexing(r: nat, id: Uuid, job: Job, ws: Uuid, now: Time) returns (started: Outcome<bool>)
      requires Processing(r, id, job) && HoldsPlan(r, ws) && cluster.sys.runs[r].phase.plan.IndexFirst?
      modifies this`tries, connection`committed, connection`pending, connection`faults
      ensures Processing(r, id, job) && Continues() && PlanFound(r, now, started)
    {
      SyncPlan(r, ws, now);
      var moved :- documents.TransitionStatusForJob(ws, job.document, Uploaded, Indexing, id, Or(job.leaseOwner, ""), job.attempts, now);
      return Value(moved.Some?);
    }

    method CommitIndexing(r: nat, id: Uuid, job: Job, ws: Uuid, now: Time) returns (o: Outcome<()>)
      requires Processing(r, id, job) && Owns(r) && InFlight(cluster.sys, r, now)
      requires cluster.sys.runs[r].phase.Holding? && cluster.sys.runs[r].phase.plan.IndexFirst?
      requires ws == WorkspaceOf(cluster.sys.t, cluster.sys.runs[r]) && ws in cluster.sys.t.workspaces
      requires PlanEffect(cluster.sys.t, cluster.sys.runs[r], now) == (connection.pending, true)
      requires connection.committed == cluster.sys.t && !connection.ackLost
      modifies cluster, connection
      ensures Processing(r, id, job) && Continues()
      ensures o.Raised? ==> Ends(r, id, job, o)
      ensures o.Value? ==> IsBuilding(r, ws)
    {
      cluster.Sound();
      FirstIndexTaken(cluster.trace[origin], cluster.sys, r, now);
      o := CommitStep(r, id, job, CommitPlan(r, now), Apply(cluster.sys, CommitPlan(r, now)));
    }

    ghost predicate IsBuilding(r: nat, ws: Uuid)
      reads this, cluster, connection
    {
      && r in cluster.sys.runs && cluster.sys.runs[r].phase.Building? && Owns(r)
      && ws == WorkspaceOf(cluster.sys.t, cluster.sys.runs[r]) && connection.own == None && !connection.ackLost
    }

    /** The `try` block and its handlers: build, commit READY, or mark the document FAILED. */
    method Build(r: nat, id: Uuid, job: Job, ws: Uuid) returns (o: Outcome<()>)
      requires Processing(r, id, job) && IsBuilding(r, ws)
      modifies this`tries, this`cancelled, this`loss, cluster, store.connection, connection
      ensures Ends(r, id, job, o) && Continues() && (o.Value? ==> connection.Clean())
      ensures o.Raised? && connection.faults == old(connection.faults) ==> exists now :: LastStep(MarkFailed(r, now))
      ensures o.Raised? && BuildBroke(r, old(connection.faults)) ==> exists now :: LastStep(MarkFailed(r, now))
    {
      o := TryBuild(r, id, job, ws);
      ghost var before, triesBefore := cluster.trace, tries;
      if o.Raised? {
        MarkFailedBestEffort(r, id, job, ws);
        if Interrupted(before, origin, r, triesBefore) {
          StillInterrupted(before, cluster.trace, origin, r, triesBefore, tries);
        }
      }
    }

    /** One call of the connection broke, and nothing else went wrong since the processing started. */
    ghost predicate BuildBroke(r: nat, before: nat)
      reads this, cluster, connection, store.connection
    {
      && connection.faults == before + 1 && store.connection.faults == beatsBefore
      && !Interrupted(cluster.trace, origin, r, tries)
    }

    method TryBuild(r: nat, id: Uuid, job: Job, ws: Uuid) returns (o: Outcome<()>)
      requires Processing(r, id, job) && IsBuilding(r, ws)
      modifies this`tries, this`cancelled, this`loss, cluster, store.connection, connection
      ensures Processing(r, id, job) && Continues()
      ensures o.Value? ==> Ends(r, id, job, o) && connection.Clean()
      ensures o.Raised? ==> IsCleaning(r, ws) && FailedOnce(r, old(connection.faults))
    {
      o := External(r, id, job); // source, parser, runtime, insert
      if o.Raised? {
        BreakOff(r, id, job, ws, cancelled);
      } else {
        o := ActivateDocument(r, id, job, ws);
      }
    }

    /** The build has been broken off: what is left is to mark the document FAILED. */
    ghost predicate IsCleaning(r: nat, ws: Uuid)
      reads this, cluster, connection, store.connection
    {
      && r in cluster.sys.runs && cluster.sys.runs[r].phase.Cleaning? && Excused(r)
      && (cluster.sys.runs[r].phase.cancelled ==> cancelled) && ws == WorkspaceOf(cluster.sys.t, cluster.sys.runs[r])
    }

    method BreakOff(r: nat, id: Uuid, job: Job, ws: Uuid, byCancellation: bool)
      requires Processing(r, id, job) && Excused(r) && (byCancellation ==> cancelled)
      requires cluster.sys.runs[r].phase.Building? || cluster.sys.runs[r].phase.Returned?
      requires ws == WorkspaceOf(cluster.sys.t, cluster.sys.runs[r])
      modifies cluster
      ensures Processing(r, id, job) && old(cluster.trace) <= cluster.trace && IsCleaning(r, ws)
      ensures Interrupted(old(cluster.trace), origin, r, tries) ==> Interrupted(cluster.trace, origin, r, tries)
    {
      cluster.Event(Break(r, byCancellation));
      KeepExcuse(r, old(cluster.trace), tries);
      if Interrupted(old(cluster.trace), origin, r, tries) {
        StillInterrupted(old(cluster.trace), cluster.trace, origin, r, tries, tries);
      }
    }

    /** INDEXING to READY, in a transaction of its own. */
    method ActivateDocument(r: nat, id: Uuid, job: Job, ws: Uuid) returns (o: Outcome<()>)
      requires Processing(r, id, job) && IsBuilding(r, ws)
      modifies this`tries, cluster, connection
      ensures Processing(r, id, job) && Continues()
      ensures o.Value? ==> Ends(r, id, job, o) && connection.Clean()
      ensures o.Raised? ==> IsCleaning(r, ws) && FailedOnce(r, old(connection.faults))
    {
      connection.Begin();
      var now := cluster.Clock(r);
      var moved := Move(r, id, job, ws, Indexing, Ready, now);
      if moved.Raised? {
        BreakOff(r, id, job, ws, false);
        o := Outcome.Raised;
      } else if moved.value.None? {
        ActivationWithoutRow(r, id, job, ws, now);
        o := Outcome.Raised;
      } else {
        o := CommitActivation(r, id, job, ws, now);
      }
    }

    method ActivationWithoutRow(r: nat, id: Uuid, job: Job, ws: Uuid, now: Time)
      requires Processing(r, id, job) && IsBuilding(r, ws) && Tried(now) && InFlight(cluster.sys, r, now)
      requires MoveDocument(cluster.sys.t, cluster.sys.runs[r], Indexing, Ready, now) == None
      modifies cluster
      ensures Processing(r, id, job) && old(cluster.trace) <= cluster.trace && IsCleaning(r, ws)
      ensures Interrupted(cluster.trace, origin, r, tries)
    {
      cluster.Sound();
      ActivationFailed(cluster.sys, r, now);
      MissInterrupts(cluster.trace, origin, r, tries, Try(|cluster.trace| - 1, now, Completion));
      TakeEvent(r, id, job, Activate(r, now), Apply(cluster.sys, Activate(r, now)));
      StillInterrupted(old(cluster.trace), cluster.trace, origin, r, tries, tries);
    }

    method CommitActivation(r: nat, id: Uuid, job: Job, ws: Uuid, now: Time) returns (o: Outcome<()>)
      requires Processing(r, id, job) && IsBuilding(r, ws) && InFlight(cluster.sys, r, now)
      requires MoveDocument(cluster.sys.t, cluster.sys.runs[r], Indexing, Ready, now) == Some(connection.pending)
      requires connection.committed == cluster.sys.t
      modifies cluster, connection
      ensures Processing(r, id, job) && Continues()
      ensures o.Value? ==> Ends(r, id, job, o) && connection.Clean()
      ensures o.Raised? ==> IsCleaning(r, ws) && connection.faults == old(connection.faults) + 1
    {
      cluster.Sound();
      ActivationTaken(cluster.trace[origin], cluster.sys, r, now, connection.pending);
      o := CommitOrBreakOff(r, id, job, ws, Activate(r, now), Apply(cluster.sys, Activate(r, now)));
    }

    /** The commit that ends the build; when it is not acknowledged the build is broken off, whether
        or not the document is active. */
    method CommitOrBreakOff(r: nat, id: Uuid, job: Job, ws: Uuid, l: Label, ghost s': Sys) returns (o: Outcome<()>)
      requires Processing(r, id, job) && Enabled(cluster.sys, l) && s' == Apply(cluster.sys, l)
      requires connection.committed == cluster.sys.t && connection.pending == s'.t && !connection.ackLost
      requires cluster.sys.runs[r].phase.Building? && ws == WorkspaceOf(cluster.sys.t, cluster.sys.runs[r])
      requires r in s'.runs && s'.runs[r] == cluster.sys.runs[r].(phase := Returned) && WorkspaceOf(s'.t, s'.runs[r]) == ws
      requires EffectHolds(s'.t, job) && Held(cluster.trace[origin], s', r)
      modifies cluster, connection
      ensures Processing(r, id, job) && Continues()
      ensures o.Value? ==> Ends(r, id, job, o) && connection.Clean()
      ensures o.Raised? ==> IsCleaning(r, ws) && connection.faults == old(connection.faults) + 1
    {
      o := TryCommit(r, id, job, l, s');
      if o.Raised? { BreakOff(r, id, job, ws, false); }
    }

    ghost predicate LastStep(l: Label)
      reads cluster
    {
      var n := |cluster.trace|;
      n > 1 && Enabled(cluster.trace[n - 2], l) && cluster.trace[n - 1] == Apply(cluster.trace[n - 2], l)
    }

    /** `_mark_failed`: its own failure is swallowed, and the first failure is raised again. If no
        call of the clean-up breaks, it takes its step. */
    method MarkFailedBestEffort(r: nat, id: Uuid, job: Job, ws: Uuid)
      requires Processing(r, id, job) && IsCleaning(r, ws)
      modifies this`tries, this`loss, cluster, store.connection, connection
      ensures Ends(r, id, job, Outcome.Raised) && Continues()
      ensures connection.faults == old(connection.faults) ==> exists now :: LastStep(MarkFailed(r, now))
    {
      var _ := Suspend(r, id, job); // the clean-up is shielded from cancellation
      KeepExcuse(r, old(cluster.trace), old(tries));
      MarkDocumentFailed(r, id, job, ws);
    }

    method MarkDocumentFailed(r: nat, id: Uuid, job: Job, ws: Uuid)
      requires Processing(r, id, job) && IsCleaning(r, ws)
      modifies this`tries, cluster, connection
      ensures Ends(r, id, job, Outcome.Raised) && Continues()
      ensures connection.faults == old(connection.faults) ==> exists now :: LastStep(MarkFailed(r, now))
    {
      connection.Begin();
      var now := cluster.Clock(r);
      var moved := Move(r, id, job, ws, Indexing, DocumentStatus.Failed, now);
      KeepExcuse(r, cluster.trace, old(tries));
      FinishMarking(r, id, job, ws, moved, now);
    }

    method FinishMarking(r: nat, id: Uuid, job: Job, ws: Uuid, moved: Outcome<Option<Document>>, now: Time)
      requires Processing(r, id, job) && IsCleaning(r, ws) && InFlight(cluster.sys, r, now)
      requires MoveFound(r, job, Indexing, DocumentStatus.Failed, now, moved)
      modifies cluster, connection
      ensures Ends(r, id, job, Outcome.Raised) && old(cluster.trace) <= cluster.trace
      ensures connection.faults >= old(connection.faults)
      ensures moved.Value? && connection.faults == old(connection.faults) ==> LastStep(MarkFailed(r, now))
    {
      if moved.Raised? {
        GiveUp(r, id, job);
      } else if moved.value.None? {
        MarkWithoutRow(r, id, job, now);
      } else {
        CommitMarking(r, id, job, now);
      }
      KeepExcuse(r, old(cluster.trace), tries);
    }

    method MarkWithoutRow(r: nat, id: Uuid, job: Job, now: Time)
      requires Processing(r, id, job) && cluster.sys.runs[r].phase.Cleaning? && InFlight(cluster.sys, r, now)
      requires MoveDocument(cluster.sys.t, cluster.sys.runs[r], Indexing, DocumentStatus.Failed, now) == None
      modifies cluster
      ensures Processing(r, id, job) && old(cluster.trace) <= cluster.trace
      ensures At(r, AfterCleaning(old(cluster.sys.runs[r].phase))) && LastStep(MarkFailed(r, now))
    {
      MarkingTaken(cluster.sys, r, now);
      TakeEvent(r, id, job, MarkFailed(r, now), Apply(cluster.sys, MarkFailed(r, now)));
    }

    method CommitMarking(r: nat, id: Uuid, job: Job, now: Time)
      requires Processing(r, id, job) && cluster.sys.runs[r].phase.Cleaning? && InFlight(cluster.sys, r, now)
      requires MoveDocument(cluster.sys.t, cluster.sys.runs[r], Indexing, DocumentStatus.Failed, now) == Some(connection.pending)
      requires connection.committed == cluster.sys.t && !connection.ackLost
      modifies cluster, connection
      ensures Processing(r, id, job) && old(cluster.trace) <= cluster.trace && connection.faults >= old(connection.faults)
      ensures At(r, AfterCleaning(old(cluster.sys.runs[r].phase)))
      ensures connection.faults == old(connection.faults) ==> LastStep(MarkFailed(r, now))
    {
      MarkingTaken(cluster.sys, r, now);
      var committed := TryCommit(r, id, job, MarkFailed(r, now), Apply(cluster.sys, MarkFailed(r, now)));
      if committed.Raised? && !connection.ackLost { GiveUp(r, id, job); }
    }

    /** The clean-up failed; the run ends as it would have. */
    method GiveUp(r: nat, id: Uuid, job: Job)
      requires Processing(r, id, job) && cluster.sys.runs[r].phase.Cleaning?
      modifies cluster
      ensures Processing(r, id, job) && old(cluster.trace) <= cluster.trace
      ensures At(r, AfterCleaning(old(cluster.sys.runs[r].phase)))
    {
      cluster.Event(if cluster.sys.runs[r].phase.cancelled then Abandon(r) else Raise(r));
    }

    // ----- process

    /** Reconciles the index contract and takes the branch of the job type. */
    method Dispatch(r: nat, id: Uuid, job: Job, ws: Uuid, document: Document, activeRead: bool, now: Time) returns (o: Outcome<()>)
      requires Processing(r, id, job) && At(r, Planned(ChoosePlan(job, document, activeRead))) && Owns(r)
      requires ws == WorkspaceOf(cluster.sys.t, cluster.sys.runs[r]) && connection.own == None && !connection.ackLost
      requires InFlight(cluster.sys, r, now)
      modifies this`tries, this`cancelled, this`loss, cluster, store.connection, connection
      ensures Ends(r, id, job, o) && Continues() && (o.Value? ==> connection.Clean())
    {
      var _ :- EnsureIndexContract(r, id, job, ws, ChoosePlan(job, document, activeRead));
      o := Branch(r, id, job, ws, document, activeRead, now);
    }

    method EnsureIndexContract(r: nat, id: Uuid, job: Job, ws: Uuid, plan: Plan) returns (o: Outcome<()>)
      requires Processing(r, id, job) && At(r, Planned(plan)) && Owns(r)
      requires ws == WorkspaceOf(cluster.sys.t, cluster.sys.runs[r]) && connection.own == None && !connection.ackLost
      modifies this`tries, this`cancelled, this`loss, cluster, store.connection, connection
      ensures Processing(r, id, job) && Continues()
      ensures o.Raised? ==> Ends(r, id, job, o)
      ensures o.Value? ==> HoldsPlan(r, ws) && cluster.sys.runs[r].phase.plan == plan
    {
      o := AwaitRow(r, id, job, ws);
      if o.Value? { o := Reconcile(r, id, job, ws, plan); }
    }

    method Branch(r: nat, id: Uuid, job: Job, ws: Uuid, document: Document, activeRead: bool, now: Time) returns (o: Outcome<()>)
      requires Processing(r, id, job) && HoldsPlan(r, ws)
      requires cluster.sys.runs[r].phase.plan == ChoosePlan(job, document, activeRead)
      requires InFlight(cluster.sys, r, now)
      modifies this`tries, this`cancelled, this`loss, cluster, store.connection, connection
      ensures Ends(r, id, job, o) && Continues() && (o.Value? ==> connection.Clean())
    {
      if job.kind.ReindexDocument? {
        o := Reindex(r, id, job, ws, document, activeRead, now);
      } else if job.kind.DeleteDocument? {
        o := DeleteIndexed(r, id, job, ws, document, activeRead, now);
      } else if activeRead && document.status.Updating? && document.active != Some(job.revision) {
        o := Replace(r, id, job, ws, now);
      } else {
        o := Index(r, id, job, ws, now);
      }
    }

    /** `process`: it starts on the current attempt of a job it has just claimed. */
    method Process(r: nat, id: Uuid, job: Job) returns (o: Outcome<()>)
      requires Bound() && cluster.Valid() && r in cluster.sys.runs && cluster.sys.runs[r] == Run(id, job, Reading)
      requires Current(cluster.sys.t, cluster.sys.runs[r])
      modifies this, cluster, store.connection, connection
      ensures origin == |old(cluster.trace)| - 1 && old(cluster.trace) <= cluster.trace
      ensures callsBefore == old(connection.faults) && beatsBefore == old(store.connection.faults)
      ensures Ends(r, id, job, o) && connection.faults >= old(connection.faults)
      ensures store.connection.faults >= old(store.connection.faults)
    {
      var now := Enter(r, id, job);
      o := Connected(r, id, job, now);
      if o.Value? { o := Leave(r, id, job); }
    }

    method Connected(r: nat, id: Uuid, job: Job, now: Time) returns (o: Outcome<()>)
      requires Processing(r, id, job) && At(r, Reading) && Owns(r) && connection.own == None && !connection.ackLost
      requires InFlight(cluster.sys, r, now)
      modifies this`tries, this`cancelled, this`loss, cluster, store.connection, connection
      ensures Ends(r, id, job, o) && Continues() && (o.Value? ==> connection.Clean())
    {
      o := Await(r, id, job); // connection and advisory lock
      if o.Value? { o := Body(r, id, job, now); }
    }

    method Enter(r: nat, id: Uuid, job: Job) returns (now: Time)
      requires Bound() && cluster.Valid() && r in cluster.sys.runs && cluster.sys.runs[r] == Run(id, job, Reading)
      requires Current(cluster.sys.t, cluster.sys.runs[r])
      modifies this, connection
      ensures origin == |cluster.trace| - 1 && callsBefore == old(connection.faults) == connection.faults
      ensures beatsBefore == store.connection.faults
      ensures Processing(r, id, job) && Owns(r) && InFlight(cluster.sys, r, now)
      ensures connection.own == None && !connection.ackLost
    {
      origin, callsBefore, beatsBefore := |cluster.trace| - 1, connection.faults, store.connection.faults;
      tries, cancelled := {}, false;
      connection.Begin();
      now := cluster.Clock(r);
    }

    /** The body of the connection's context. */
    method Body(r: nat, id: Uuid, job: Job, now: Time) returns (o: Outcome<()>)
      requires Processing(r, id, job) && At(r, Reading) && Owns(r) && connection.own == None && !connection.ackLost
      requires InFlight(cluster.sys, r, now)
      modifies this`tries, this`cancelled, this`loss, cluster, store.connection, connection
      ensures Ends(r, id, job, o) && Continues() && (o.Value? ==> connection.Clean())
    {
      cluster.Sync(connection);
      var rows := OpeningReads(job);
      if rows.Raised? {
        o := LookupFailed(r, id, job);
        return;
      }
      var (ws, document, activeRead) := rows.value;
      ReadDocument(r, id, job);
      if document.status.Ready? && job.kind.IndexDocument? {
        return Value(()); // an earlier attempt had activated it
      }
      if document.status.Failed? || document.status.Indexing? {
        o := ResetAndDispatch(r, id, job, ws, document.status, activeRead, now);
      } else {
        o := Dispatch(r, id, job, ws, document, activeRead, now);
      }
    }

    method LookupFailed(r: nat, id: Uuid, job: Job) returns (o: Outcome<()>)
      requires Processing(r, id, job) && At(r, Reading) && Owns(r)
      requires Broke() || AfterRead(cluster.sys.t, job).Raised?
      modifies cluster, connection`pending, connection`own
      ensures Ends(r, id, job, o) && o.Raised? && old(cluster.trace) <= cluster.trace
    {
      cluster.Sound();
      if AfterRead(cluster.sys.t, job).Raised? {
        ReadRefused(cluster.sys, r);
        ExcuseTaken(r);
      }
      o := Abort(r, id, job);
    }

    /** The event of the opening reads. */
    method ReadDocument(r: nat, id: Uuid, job: Job)
      requires Processing(r, id, job) && At(r, Reading) && Owns(r)
      modifies cluster
      ensures Processing(r, id, job) && At(r, AfterRead(old(cluster.sys.t), job)) && Owns(r)
      ensures cluster.sys.t == old(cluster.sys.t) && old(cluster.trace) <= cluster.trace
      ensures AfterRead(old(cluster.sys.t), job).Returned? ==> Ends(r, id, job, Value(()))
    {
      cluster.Sound();
      OwnStepKeeps(cluster.trace[origin], cluster.sys, Read(r), r);
      if AfterRead(cluster.sys.t, job).Returned? && Current(cluster.sys.t, cluster.sys.runs[r]) {
        ReadAchieves(cluster.sys, r);
      }
      TakeEvent(r, id, job, Read(r), Apply(cluster.sys, Read(r)));
    }

    method ResetAndDispatch(r: nat, id: Uuid, job: Job, ws: Uuid, from: DocumentStatus, activeRead: bool, now: Time)
      returns (o: Outcome<()>)
      requires Processing(r, id, job) && At(r, Resetting(from)) && Owns(r)
      requires ws == WorkspaceOf(cluster.sys.t, cluster.sys.runs[r])
      requires InFlight(cluster.sys, r, now) && connection.own == None && !connection.ackLost
      modifies this`tries, this`cancelled, this`loss, cluster, store.connection, connection
      ensures Ends(r, id, job, o) && Continues() && (o.Value? ==> connection.Clean())
    {
      var document :- ResetDocument(r, id, job, ws, from, now);
      var later := cluster.Clock(r); // the next transaction
      assert ChoosePlan(job, document, activeRead) == ChoosePlan(job, document, CurrentRevision(document).Some?);
      o := Dispatch(r, id, job, ws, document, activeRead, later);
    }
  }

  function AfterCleaning(phase: Phase): Phase
    requires phase.Cleaning?
  {
    if phase.cancelled then Ended else Phase.Raised
  }

  class Worker {
    const cluster: Cluster
    const processor: IndexingJobProcessor
    const store: JobStore
    const owner: string
    const leaseFor: int
    const retryAfter: nat

    constructor (processor: IndexingJobProcessor, owner: string, leaseFor: int, retryAfter: nat)
      requires processor.Bound() && ValidOwner(owner) && leaseFor > 0
      ensures Bound() && this.processor == processor && this.owner == owner && this.leaseFor == leaseFor
    {
      cluster, store, this.processor := processor.cluster, processor.store, processor;
      this.owner, this.leaseFor, this.retryAfter := owner, leaseFor, retryAfter;
    }

    ghost predicate Bound() {
      processor.Bound() && processor.cluster == cluster && processor.store == store && ValidOwner(owner) && leaseFor > 0
    }

    /** An unused run number; run numbers exist only in this model. */
    method FreshRun() returns (r: nat)
      ensures r !in cluster.sys.runs
    {
      var rest := cluster.sys.runs.Keys;
      r := 0;
      while rest != {}
        invariant rest <= cluster.sys.runs.Keys
        invariant forall k | k in cluster.sys.runs && k !in rest :: k < r
        decreases |rest|
      {
        ghost var some := Pick(rest);
        var k :| k in rest;
        rest := rest - {k};
        if k >= r { r := k + 1; }
      }
    }

    /** The report of a failure released the job: it can be claimed again `retryAfter` later, if it has
        attempts left. */
    ghost predicate Released(run: Run)
      reads cluster, processor
    {
      exists p {:trigger p.clock} | p in processor.tries ::
        p.kind.Ending? && AvailableAgain(cluster.sys.t, run, p.clock + retryAfter)
    }

    /** What work done means for the run `r` of the claimed job. Its attempt is closed, unless the
        heartbeat was lost or the report did not find it live, and then its job has succeeded or is
        released for a later attempt; and if nothing stood in its way, the
        job has succeeded and its effect was reached. */
    ghost predicate Worked(r: nat)
      reads cluster, processor, processor.connection, store.connection
    {
      && processor.store == store && processor.cluster == cluster
      && r in cluster.sys.runs && cluster.sys.runs[r].phase.Ended? && cluster.sys.runs[r].Owner() == owner
      && var run := cluster.sys.runs[r];
         && (|| processor.HeartbeatLost(r) || processor.ReportMissed(r)
             || (!Current(cluster.sys.t, run) && (Done(cluster.sys.t, run.job) || Released(run))))
         && (!processor.Excused(r) ==> Done(cluster.sys.t, run.job) && processor.Achieved(run.snapshot))
    }

    /** Recover stale leases, claim at most one job, process it, and report the outcome. It raises
        only if a call to the job store broke, and otherwise recovers before anything else. */
    method RunOnce(stopped: bool, recoveryClock: Time, stoppedMeanwhile: bool, claimClock: Time, locked: set<Uuid>)
      returns (o: Outcome<bool>, ghost r: nat)
      requires Bound() && cluster.Valid()
      modifies cluster, processor, processor.connection, store.connection
      ensures cluster.Valid() && old(cluster.trace) <= cluster.trace
      ensures o.Raised? ==> store.connection.faults > old(store.connection.faults)
      ensures o.Value? && !stopped ==>
                && |cluster.trace| > |old(cluster.trace)|
                && cluster.trace[|old(cluster.trace)|] == Apply(old(cluster.sys), Recover(retryAfter, recoveryClock))
      ensures o == Value(false) ==>
                || stopped || stoppedMeanwhile
                || forall id | id in cluster.sys.t.jobs && id !in locked :: !Claimable(cluster.sys.t.jobs[id], claimClock)
      ensures o == Value(true) ==> r !in old(cluster.sys.runs) && Worked(r)
      ensures o == Value(true) ==> cluster.sys.runs[r].snapshot.leaseExpiresAt == Some(claimClock + leaseFor)
    {
      r := 0;
      if stopped { return Value(false), r; }
      var recovered := store.RecoverExpired(retryAfter, recoveryClock);
      if recovered.Raised? { return Outcome.Raised, r; }
      if stoppedMeanwhile { return Value(false), r; }
      o, r := ClaimAndWork(claimClock, locked);
    }

    method ClaimAndWork(claimClock: Time, locked: set<Uuid>) returns (o: Outcome<bool>, ghost r: nat)
      requires Bound() && cluster.Valid()
      modifies cluster, processor, processor.connection, store.connection
      ensures cluster.Valid() && old(cluster.trace) <= cluster.trace
      ensures o.Raised? ==> store.connection.faults > old(store.connection.faults)
      ensures o == Value(false) ==>
                forall id | id in cluster.sys.t.jobs && id !in locked :: !Claimable(cluster.sys.t.jobs[id], claimClock)
      ensures o == Value(true) ==> r !in old(cluster.sys.runs) && Worked(r)
      ensures o == Value(true) ==> cluster.sys.runs[r].snapshot.leaseExpiresAt == Some(claimClock + leaseFor)
    {
      var run := FreshRun();
      r := run;
      var claimed := store.ClaimNext(run, owner, leaseFor, locked, claimClock);
      if claimed.Raised? { return Outcome.Raised, r; }
      if claimed.value.None? { return Value(false), r; }
      o := Work(run, claimed.value.value);
    }

    /** Process the claimed job and report. */
    method Work(r: nat, id: Uuid) returns (o: Outcome<bool>)
      requires Bound() && cluster.Valid() && r in cluster.sys.runs
      requires cluster.sys.runs[r] == Run(id, cluster.sys.runs[r].snapshot, Reading)
      requires Current(cluster.sys.t, cluster.sys.runs[r]) && cluster.sys.runs[r].snapshot.leaseOwner == Some(owner)
      modifies cluster, processor, processor.connection, store.connection
      ensures cluster.Valid() && old(cluster.trace) <= cluster.trace
      ensures o.Raised? ==> store.connection.faults > old(store.connection.faults)
      ensures o.Value? ==> o.value && Worked(r) && cluster.sys.runs[r].snapshot == old(cluster.sys.runs[r].snapshot)
    {
      var job := cluster.sys.runs[r].snapshot;
      var processed := processor.Process(r, id, job);
      o := Report(r, id, job, processed);
    }

    /** Reports the outcome; a lost heartbeat ends the run without a report. */
    method Report(r: nat, id: Uuid, job: Job, processed: Outcome<()>) returns (o: Outcome<bool>)
      requires Bound() && processor.Ends(r, id, job, processed)
      requires job.leaseOwner == Some(owner)
      modifies cluster, processor`tries, processor`cancelled, processor`loss, store.connection
      ensures cluster.Valid() && old(cluster.trace) <= cluster.trace
      ensures o.Raised? ==> store.connection.faults > old(store.connection.faults)
      ensures o.Value? ==> o.value && Worked(r) && cluster.sys.runs[r].snapshot == job
    {
      if processor.cancelled && processed.Raised? {
        EndUnreported(r, id, job, processed);
        return Value(true);
      }
      var lost := processor.SuspendAfter(r, id, job, processed);
      if lost {
        EndUnreported(r, id, job, processed);
        o := Value(true);
      } else if processed.Value? {
        o := ReportSuccess(r, id, job);
      } else {
        o := ReportFailure(r, id, job);
      }
    }

    method EndUnreported(r: nat, id: Uuid, job: Job, processed: Outcome<()>)
      requires Bound() && processor.Ends(r, id, job, processed) && processor.cancelled && job.leaseOwner == Some(owner)
      requires processed.Value? ==> processor.Broke() || processor.NotLive(r)
      modifies cluster
      ensures cluster.Valid() && old(cluster.trace) <= cluster.trace && Worked(r) && cluster.sys.runs[r].snapshot == job
    {
      ghost var before := cluster.trace;
      if processed.Value? { processor.Finished(r, id, job); }
      cluster.Event(Abandon(r));
      processor.KeepAchieved(job, before);
      if old(processor.Excused(r)) { processor.KeepExcuse(r, before, processor.tries); }
    }

    method ReportSuccess(r: nat, id: Uuid, job: Job) returns (o: Outcome<bool>)
      requires Bound() && processor.Ends(r, id, job, Value(()))
      requires job.leaseOwner == Some(owner)
      modifies cluster, processor`tries, store.connection
      ensures cluster.Valid() && old(cluster.trace) <= cluster.trace
      ensures o.Raised? ==> store.connection.faults > old(store.connection.faults)
      ensures o.Value? ==> o.value && Worked(r) && cluster.sys.runs[r].snapshot == job
    {
      ghost var before := cluster.trace;
      var now := cluster.Clock(r);
      processor.tries := processor.tries + {Try(|cluster.trace| - 1, now, Ending)};
      var done := store.Succeed(r, id, owner, job.attempts, now);
      if done.Raised? { return Outcome.Raised; }
      SuccessWorked(r, id, job, before, now);
      return Value(true);
    }

    lemma SuccessWorked(r: nat, id: Uuid, job: Job, before: seq<Sys>, now: Time)
      requires Bound() && cluster.Valid() && processor.origin < |before| && before < cluster.trace && job.leaseOwner == Some(owner)
      requires Try(|before| - 1, now, Ending) in processor.tries
      requires Held(cluster.trace[processor.origin], before[|before| - 1], r)
      requires before[|before| - 1].runs[r] == Run(id, job, Returned)
      requires Enabled(before[|before| - 1], Succeed(r, now)) && cluster.sys == Apply(before[|before| - 1], Succeed(r, now))
      requires || (exists i :: processor.origin < i < |before| && EffectHolds(before[i].t, job))
               || TakenOver(cluster.trace[processor.origin], before[|before| - 1], r)
      ensures Worked(r)
    {
      SuccessReported(cluster.trace[processor.origin], before[|before| - 1], r, now);
      processor.KeepAchieved(job, before);
      processor.ReportedAt(r, before, now);
      if processor.Recovered(r) { TakenOverNow(cluster.trace, processor.origin, r, processor.tries); }
    }

    method ReportFailure(r: nat, id: Uuid, job: Job) returns (o: Outcome<bool>)
      requires Bound() && processor.Ends(r, id, job, Outcome.Raised)
      requires job.leaseOwner == Some(owner) && !processor.At(r, Ended)
      modifies cluster, processor`tries, store.connection
      ensures cluster.Valid() && old(cluster.trace) <= cluster.trace
      ensures o.Raised? ==> store.connection.faults > old(store.connection.faults)
      ensures o.Value? ==> o.value && Worked(r) && cluster.sys.runs[r].snapshot == job
    {
      ghost var before, triesBefore := cluster.trace, processor.tries;
      var now := cluster.Clock(r);
      var code := ClassifyError();
      FailureReported(cluster.sys, r, code, retryAfter, now);
      processor.tries := processor.tries + {Try(|cluster.trace| - 1, now, Ending)};
      var released := store.Fail(r, id, owner, job.attempts, code, retryAfter, now);
      if released.Raised? { return Outcome.Raised; }
      processor.KeepExcuse(r, before, triesBefore);
      processor.ReportedAt(r, before, now);
      assert Try(|before| - 1, now, Ending).clock == now;
      return Value(true);
    }

    /** `classify_error`: which of the two codes an exception maps to is not modelled. */
    method ClassifyError() returns (code: ErrorCode)
      ensures code.IndexingFailed? || code.DependencyUnavailable?
    {
      var dependency: bool := *;
      code := if dependency then DependencyUnavailable else IndexingFailed;
    }
  }
}
