/** The order in which claims take the available jobs: no claimable job waits for ever behind others. */
module Queue {
  import opened Entities
  import opened JobSql
  import opened Protocol
  import opened ProtocolInvariant
  import opened ProtocolSteps
  import opened ProtocolTheorems

  ghost predicate IsFirst(t: Tables, ids: set<Uuid>, id: Uuid)
    requires forall i | i in ids :: i in t.jobs
  {
    id in ids && forall other | other in ids :: other == id || ClaimedBefore(t, id, other)
  }

  /** The claim order has a first element on every nonempty set of jobs. */
  lemma {:induction false} FirstExists(t: Tables, ids: set<Uuid>) returns (id: Uuid)
    requires ids != {} && forall i | i in ids :: i in t.jobs
    ensures IsFirst(t, ids, id)
  {
    id := Pick(ids);
    if ids != {id} {
      var first := FirstExists(t, ids - {id});
      var picked := id;
      if ClaimedBefore(t, first, picked) { id := first; }
      forall other | other in ids ensures other == id || ClaimedBefore(t, id, other) {
        ClaimOrder(t, picked, first, if other in ids - {picked} then other else first);
      }
    }
  }

  ghost function ClaimableIds(t: Tables, now: Time): set<Uuid> {
    set id | id in t.jobs && Claimable(t.jobs[id], now)
  }

  /** The claimable jobs that the query puts before this one. */
  ghost function Ahead(t: Tables, id: Uuid, now: Time): set<Uuid>
    requires id in t.jobs
  {
    set other | other in t.jobs && Claimable(t.jobs[other], now) && ClaimedBefore(t, other, id)
  }

  /** With no row locked by anybody else, some claim is enabled whenever a job is claimable. */
  lemma SomeClaimIsEnabled(s: Sys, now: Time, id: Uuid) returns (l: Label)
    requires id in s.t.jobs && Claimable(s.t.jobs[id], now)
    ensures l.Claim? && l.skipped == {} && l.now == now && Enabled(s, l)
    ensures IsFirst(s.t, ClaimableIds(s.t, now), l.job)
  {
    assert id in ClaimableIds(s.t, now);
    var first := FirstExists(s.t, ClaimableIds(s.t, now));
    SomeRunIdIsFree(s.runs);
    var r: nat :| r !in s.runs;
    var owner := "w";
    assert !IsSpace(owner[0] as nat);
    l := Claim(r, first, owner, 1, {}, now);
  }

  /** A claim of another job takes one job from those ahead. */
  lemma ClaimShortensQueue(t: Tables, first: Uuid, id: Uuid, owner: string, leaseFor: int, now: Time)
    requires id in t.jobs && Claimable(t.jobs[id], now) && first != id
    requires IsFirst(t, ClaimableIds(t, now), first)
    ensures first in Ahead(t, id, now)
    ensures
      var t' := ClaimNext(t, first, owner, leaseFor, now);
      && id in t'.jobs && t'.jobs[id] == t.jobs[id] && Ahead(t', id, now) == Ahead(t, id, now) - {first}
  {
    assert id in ClaimableIds(t, now);
    var t' := ClaimNext(t, first, owner, leaseFor, now);
    forall other ensures other in Ahead(t', id, now) <==> other in Ahead(t, id, now) - {first} {}
  }

  ghost predicate ClaimStepAt(path: seq<Sys>, i: int, now: Time)
    requires 0 < i < |path|
  {
    exists l: Label :: l.Claim? && l.skipped == {} && l.now == now && Enabled(path[i - 1], l) && path[i] == Apply(path[i - 1], l)
  }

  ghost predicate ClaimsOnly(path: seq<Sys>, now: Time) {
    |path| > 0 && forall i {:trigger ClaimStepAt(path, i, now)} | 0 < i < |path| :: ClaimStepAt(path, i, now)
  }

  lemma Prepend(s: Sys, l: Label, path: seq<Sys>, now: Time)
    requires ClaimsOnly(path, now) && Enabled(s, l) && path[0] == Apply(s, l)
    requires l.Claim? && l.skipped == {} && l.now == now
    ensures ClaimsOnly([s] + path, now)
  {
    var longer := [s] + path;
    forall i | 0 < i < |longer| ensures ClaimStepAt(longer, i, now) {
      if i > 1 { assert ClaimStepAt(path, i - 1, now); }
    }
  }

  /** A claimable job is claimed after exactly as many claims as there are jobs ahead of it. */
  lemma {:induction false} JobIsReached(s: Sys, id: Uuid, now: Time) returns (path: seq<Sys>)
    requires id in s.t.jobs && Claimable(s.t.jobs[id], now)
    ensures ClaimsOnly(path, now) && path[0] == s && |path| == |Ahead(s.t, id, now)| + 2
    ensures
      var after := path[|path| - 1].t.jobs;
      id in after && after[id].status.Running? && after[id].attempts == s.t.jobs[id].attempts + 1
    decreases |Ahead(s.t, id, now)|
  {
    var l := SomeClaimIsEnabled(s, now, id);
    var s' := Apply(s, l);
    if l.job == id {
      NoneAhead(s.t, id, now);
      Prepend(s, l, [s'], now);
      path := [s] + [s'];
    } else {
      ClaimShortensQueue(s.t, l.job, id, l.owner, l.leaseFor, now);
      var rest := JobIsReached(s', id, now);
      Prepend(s, l, rest, now);
      path := [s] + rest;
    }
  }

  lemma NoneAhead(t: Tables, id: Uuid, now: Time)
    requires id in t.jobs && IsFirst(t, ClaimableIds(t, now), id)
    ensures Ahead(t, id, now) == {}
  {
    forall other | other in t.jobs && Claimable(t.jobs[other], now) ensures !ClaimedBefore(t, other, id) {
      assert other in ClaimableIds(t, now);
      ClaimOrder(t, other, id, id);
    }
  }
}
