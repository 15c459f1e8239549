/** The timeout sweep under its limit: what one sweep leaves alone, and how many sweeps it takes to end a
    backlog of overdue jobs. */
module SweepRounds {
  import opened Text
  import opened Model
  import opened Runtimes
  import opened Policies
  import opened Jobs
  import opened Lifecycle

  const SWEEP_LIMIT := 200

  // ---- a sweep changes a job only by ending it ----

  /** Only jobs in `ids` have changed, and each of those only by ending. */
  predicate OnlyEnds(before: JobMap, after: JobMap, ids: set<Id>) {
    && before.Keys == after.Keys
    && forall id | id in before ::
         after[id] == before[id] || (id in ids && !Terminal(before[id].status) && Terminal(after[id].status))
  }

  lemma OnlyEndsChains(a: JobMap, b: JobMap, c: JobMap, ids: set<Id>)
    requires OnlyEnds(a, b, ids) && OnlyEnds(b, c, ids)
    ensures OnlyEnds(a, c, ids)
  {
  }

  lemma CompleteParentEnds(s: State, id: Id, failureMsg: string, emitFailure: bool, now: Time)
    ensures OnlyEnds(s.jobs, CompleteParent(s, id, failureMsg, emitFailure, now).jobs, {id})
  {
  }

  lemma FailJobEnds(s: State, agentId: Id, id: Id, msg: string, now: Time)
    requires id in s.jobs
    ensures OnlyEnds(s.jobs, FailJob(s, agentId, id, msg, now).jobs, {id, s.jobs[id].parentId})
  {
    if !Terminal(s.jobs[id].status) {
      var job := s.jobs[id];
      var cleared := if agentId != NoId then s.(running := Clear(s.running, agentId, id)) else s;
      var told := AddEvent(cleared.(jobs := SetStatus(s.jobs, id, Failed, msg, now)), StreamOf(job), Message(agentId, msg));
      assert OnlyEnds(s.jobs, told.jobs, {id, job.parentId});
      if job.parentId != NoId {
        CompleteParentEnds(told, job.parentId, "", false, now);
      }
    }
  }

  lemma FailChildrenEnds(s: State, p: Id, now: Time)
    ensures OnlyEnds(s.jobs, FailChildren(s, p, now).jobs, Children(s.jobs, p))
  {
  }

  /** The jobs one round may end: a job that timed out with its parent, or an overdue parent with its
      children, or a parent whose children have all ended. */
  function MayEnd(jobs: JobMap, job: Job, policies: PolicySource, now: Time): set<Id> {
    if RunningParent(jobs, job) && !ParentOverdue(job, policies, now) then {job.id}
    else if !JobTimedOut(job, policies, now) then {}
    else if HasFanout(jobs, job) then Children(jobs, job.id) + {job.id}
    else {job.id, job.parentId}
  }

  lemma SweepOneEnds(s: State, job: Job, policies: PolicySource, now: Time)
    requires job.id in s.jobs && SameJob(s.jobs[job.id], job)
    ensures OnlyEnds(s.jobs, SweepOne(s, job, policies, now).jobs, MayEnd(s.jobs, job, policies, now))
  {
    if Deferred(s, job, policies, now) {
      CompleteParentEnds(s, job.id, "", false, now);
    } else if JobTimedOut(job, policies, now) {
      if HasFanout(s.jobs, job) {
        var ids := Children(s.jobs, job.id) + {job.id};
        var mid := FailChildren(s, job.id, now);
        FailChildrenEnds(s, job.id, now);
        CompleteParentEnds(mid, job.id, "job_timeout", true, now);
        OnlyEndsChains(s.jobs, mid.jobs, SweepOne(s, job, policies, now).jobs, ids);
      } else {
        FailJobEnds(s, job.agentId, job.id, "job_timeout", now);
      }
    }
  }

  // ---- a sweep leaves alone what is not overdue ----

  /** The job of an agent has time left, and so has its parent if it has one. */
  predicate HasTime(jobs: JobMap, job: Job, policies: PolicySource, now: Time) {
    && job.agentId != NoId && !JobTimedOut(job, policies, now)
    && (job.parentId in jobs ==> !ParentOverdue(jobs[job.parentId], policies, now))
  }

  /** A listed job that is still open, as the store has it. */
  predicate ListedOpen(jobs: JobMap, job: Job) { job.id in jobs && jobs[job.id] == job && !Terminal(job.status) }

  lemma NotAmongEnded(s: State, mid: JobMap, job: Job, policies: PolicySource, now: Time, id: Id)
    requires Inv(s) && Later(s.jobs, mid) && ListedOpen(s.jobs, job)
    requires id in s.jobs && HasTime(s.jobs, s.jobs[id], policies, now)
    ensures id !in MayEnd(mid, job, policies, now)
  {
    SameChildren(s.jobs, mid, job.id);
    if Children(s.jobs, job.id) != {} {
      OpenParentRuns(s.jobs, job.id);
    }
    if job.parentId != NoId {
      assert ParentShape(s.jobs, job.parentId);
    }
  }

  /** A sweep, whatever stale list it works from, leaves every agent's job that has time left, and whose
      parent has, exactly as it was. */
  lemma {:induction false} SweepSparesOthers(s: State, listing: seq<Job>, policies: PolicySource, now: Time, id: Id)
    requires Inv(s) && Coherent(policies(NoId)) && forall i | 0 <= i < |listing| :: ListedOpen(s.jobs, listing[i])
    requires id in s.jobs && HasTime(s.jobs, s.jobs[id], policies, now)
    ensures var t := Sweep(s, listing, policies, now); id in t.jobs && t.jobs[id] == s.jobs[id]
  {
    if listing != [] {
      var n := |listing| - 1;
      var mid := Sweep(s, listing[..n], policies, now);
      SweepSparesOthers(s, listing[..n], policies, now, id);
      SweepKeeps(s, listing[..n], policies, now);
      SweepOneEnds(mid, listing[n], policies, now);
      NotAmongEnded(s, mid.jobs, listing[n], policies, now, id);
    }
  }

  // ---- a backlog longer than the limit ----

  /** A sweep changes jobs only by ending them. */
  lemma {:induction false} SweepOnlyEnds(s: State, listing: seq<Job>, policies: PolicySource, now: Time)
    requires Inv(s) && Coherent(policies(NoId)) && FromStore(s.jobs, listing)
    ensures OnlyEnds(s.jobs, Sweep(s, listing, policies, now).jobs, s.jobs.Keys)
  {
    if listing != [] {
      var n := |listing| - 1;
      var mid := Sweep(s, listing[..n], policies, now);
      SweepOnlyEnds(s, listing[..n], policies, now);
      SweepKeeps(s, listing[..n], policies, now);
      SweepOneEnds(mid, listing[n], policies, now);
      EndsWider(mid.jobs, Sweep(s, listing, policies, now).jobs, MayEnd(mid.jobs, listing[n], policies, now));
      OnlyEndsChains(s.jobs, mid.jobs, Sweep(s, listing, policies, now).jobs, s.jobs.Keys);
    }
  }

  lemma EndsWider(before: JobMap, after: JobMap, ids: set<Id>)
    requires OnlyEnds(before, after, ids)
    ensures OnlyEnds(before, after, before.Keys)
  {
  }

  /** The active jobs created no later than `c`. */
  function OldActive(jobs: JobMap, c: Time): set<Id> { set id | id in ActiveIds(jobs) && jobs[id].createdAt <= c }

  /** All of them are overdue at `t0`. */
  predicate OldOverdue(jobs: JobMap, c: Time, policies: PolicySource, t0: Time) {
    forall id | id in OldActive(jobs, c) :: Overdue(jobs, jobs[id], policies, t0)
  }

  lemma OverdueLater(jobs: JobMap, job: Job, policies: PolicySource, t0: Time, now: Time)
    requires Overdue(jobs, job, policies, t0) && t0 <= now
    ensures Overdue(jobs, job, policies, now)
  {
  }

  lemma BacklogStaysOverdue(s: State, t: State, c: Time, policies: PolicySource, t0: Time)
    requires OldOverdue(s.jobs, c, policies, t0) && OnlyEnds(s.jobs, t.jobs, s.jobs.Keys) && Later(s.jobs, t.jobs)
    ensures OldActive(t.jobs, c) <= OldActive(s.jobs, c) && OldOverdue(t.jobs, c, policies, t0)
  {
    forall id | id in OldActive(t.jobs, c) ensures id in OldActive(s.jobs, c) && Overdue(t.jobs, t.jobs[id], policies, t0) {
      assert t.jobs[id] == s.jobs[id];
      SameChildren(s.jobs, t.jobs, id);
    }
  }

  function IdsOf(listing: seq<Job>): set<Id> { set i | 0 <= i < |listing| :: listing[i].id }

  lemma {:induction false} IdsCount(listing: seq<Job>)
    requires DistinctIds(listing)
    ensures |IdsOf(listing)| == |listing|
  {
    if listing != [] {
      var n := |listing| - 1;
      IdsCount(listing[..n]);
      assert IdsOf(listing) == IdsOf(listing[..n]) + {listing[n].id};
    }
  }

  /** One sweep ends the whole old backlog, or 200 jobs of it. */
  lemma RoundShrinks(s: State, listing: seq<Job>, policies: PolicySource, now: Time, c: Time, t0: Time)
    requires Inv(s) && Coherent(policies(NoId)) && Listing(s.jobs, ActiveIds(s.jobs), SWEEP_LIMIT, listing)
    requires OldOverdue(s.jobs, c, policies, t0) && t0 <= now
    ensures var t := Sweep(s, listing, policies, now);
        && Inv(t) && OldOverdue(t.jobs, c, policies, t0)
        && (OldActive(t.jobs, c) == {} || |OldActive(t.jobs, c)| + SWEEP_LIMIT <= |OldActive(s.jobs, c)|)
  {
    var t := Sweep(s, listing, policies, now);
    SweepKeeps(s, listing, policies, now);
    SweepOnlyEnds(s, listing, policies, now);
    BacklogStaysOverdue(s, t, c, policies, t0);
    if x :| x in OldActive(t.jobs, c) {
      ListedOldEnd(s, listing, policies, now, c, t0);
      CutOff(s, listing, t, c, x);
      IdsCount(listing);
      SubsetSize(OldActive(t.jobs, c), OldActive(s.jobs, c) - IdsOf(listing));
      Removed(OldActive(s.jobs, c), IdsOf(listing));
    }
  }

  lemma Removed(all: set<Id>, ids: set<Id>)
    requires ids <= all
    ensures |all - ids| == |all| - |ids|
  {
    assert all == (all - ids) + ids;
  }

  /** The old jobs of the listing have ended after the sweep. */
  lemma ListedOldEnd(s: State, listing: seq<Job>, policies: PolicySource, now: Time, c: Time, t0: Time)
    requires Inv(s) && Coherent(policies(NoId)) && Listing(s.jobs, ActiveIds(s.jobs), SWEEP_LIMIT, listing)
    requires OldOverdue(s.jobs, c, policies, t0) && t0 <= now
    ensures var t := Sweep(s, listing, policies, now);
        forall i | 0 <= i < |listing| && listing[i].createdAt <= c :: listing[i].id !in OldActive(t.jobs, c)
  {
    forall i | 0 <= i < |listing| && listing[i].createdAt <= c
      ensures listing[i].id !in OldActive(Sweep(s, listing, policies, now).jobs, c)
    {
      assert listing[i].id in OldActive(s.jobs, c);
      OverdueLater(s.jobs, listing[i], policies, t0, now);
      SweepEnds(s, listing, policies, now, i);
    }
  }

  /** If an old job is still active, the limit was used up by jobs that are at least as old. */
  lemma CutOff(s: State, listing: seq<Job>, t: State, c: Time, x: Id)
    requires Listing(s.jobs, ActiveIds(s.jobs), SWEEP_LIMIT, listing) && Keyed(s.jobs)
    requires x in OldActive(t.jobs, c) && OldActive(t.jobs, c) <= OldActive(s.jobs, c)
    requires forall i | 0 <= i < |listing| && listing[i].createdAt <= c :: listing[i].id !in OldActive(t.jobs, c)
    ensures |listing| == SWEEP_LIMIT && IdsOf(listing) <= OldActive(s.jobs, c) && OldActive(t.jobs, c) !! IdsOf(listing)
  {
    var job := s.jobs[x];
    assert job !in listing by {
      if i :| 0 <= i < |listing| && listing[i] == job {
        assert listing[i].id == x;
      }
    }
  }

  /** Consecutive sweeps, each with the list it read and its time. */
  datatype Round = Round(listing: seq<Job>, now: Time)

  function AfterRounds(s: State, rounds: seq<Round>, policies: PolicySource): State {
    if rounds == [] then s
    else
      var last := rounds[|rounds| - 1];
      Sweep(AfterRounds(s, rounds[..|rounds| - 1], policies), last.listing, policies, last.now)
  }

  /** Every sweep reads the 200 oldest active jobs of its own state, no earlier than `t0`. */
  ghost predicate Sweeps(s: State, rounds: seq<Round>, policies: PolicySource, t0: Time) {
    rounds == [] ||
    var init, last := rounds[..|rounds| - 1], rounds[|rounds| - 1];
    var jobs := AfterRounds(s, init, policies).jobs;
    Sweeps(s, init, policies, t0) && Listing(jobs, ActiveIds(jobs), SWEEP_LIMIT, last.listing) && t0 <= last.now
  }

  lemma {:induction false} BacklogShrinks(s: State, rounds: seq<Round>, policies: PolicySource, c: Time, t0: Time)
    requires Inv(s) && Coherent(policies(NoId)) && OldOverdue(s.jobs, c, policies, t0) && Sweeps(s, rounds, policies, t0)
    ensures var t := AfterRounds(s, rounds, policies);
        && Inv(t) && OldOverdue(t.jobs, c, policies, t0)
        && (OldActive(t.jobs, c) == {} || |OldActive(t.jobs, c)| + SWEEP_LIMIT * |rounds| <= |OldActive(s.jobs, c)|)
  {
    if rounds != [] {
      var n := |rounds| - 1;
      var mid := AfterRounds(s, rounds[..n], policies);
      BacklogShrinks(s, rounds[..n], policies, c, t0);
      RoundShrinks(mid, rounds[n].listing, policies, rounds[n].now, c, t0);
      BacklogStaysEmpty(mid, rounds[n].listing, policies, rounds[n].now, c);
    }
  }

  lemma BacklogStaysEmpty(s: State, listing: seq<Job>, policies: PolicySource, now: Time, c: Time)
    requires Inv(s) && Coherent(policies(NoId)) && FromStore(s.jobs, listing)
    ensures OldActive(s.jobs, c) == {} ==> OldActive(Sweep(s, listing, policies, now).jobs, c) == {}
  {
    SweepOnlyEnds(s, listing, policies, now);
  }

  /** When the n oldest active jobs are all overdue, k consecutive sweeps with 200 k >= n end every one
      of them. */
  lemma SweepsEndBacklog(s: State, rounds: seq<Round>, policies: PolicySource, c: Time, t0: Time, id: Id)
    requires Inv(s) && Coherent(policies(NoId)) && OldOverdue(s.jobs, c, policies, t0) && Sweeps(s, rounds, policies, t0)
    requires SWEEP_LIMIT * |rounds| >= |OldActive(s.jobs, c)|
    requires id in OldActive(s.jobs, c)
    ensures var t := AfterRounds(s, rounds, policies); id in t.jobs && Terminal(t.jobs[id].status)
  {
    BacklogShrinks(s, rounds, policies, c, t0);
    RoundsKeep(s, rounds, policies, t0);
    var t := AfterRounds(s, rounds, policies);
    assert OldActive(t.jobs, c) == {};
  }

  lemma {:induction false} RoundsKeep(s: State, rounds: seq<Round>, policies: PolicySource, t0: Time)
    requires Inv(s) && Coherent(policies(NoId)) && Sweeps(s, rounds, policies, t0)
    ensures Inv(AfterRounds(s, rounds, policies)) && Later(s.jobs, AfterRounds(s, rounds, policies).jobs)
  {
    if rounds != [] {
      var n := |rounds| - 1;
      var mid := AfterRounds(s, rounds[..n], policies);
      RoundsKeep(s, rounds[..n], policies, t0);
      SweepKeeps(mid, rounds[n].listing, policies, rounds[n].now);
      LaterChains(s.jobs, mid.jobs, AfterRounds(s, rounds, policies).jobs);
    }
  }
}
