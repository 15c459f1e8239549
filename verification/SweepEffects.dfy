/** Disconnects and sweeps by the clock: which jobs of agents fail, with which message, and which stay. */
module SweepEffects {
  import opened Text
  import opened Model
  import opened Runtimes
  import opened Policies
  import opened Jobs
  import opened Lifecycle
  import LifecycleRuns
  import opened SweepRounds
  import opened EndEffects

  // ---- failing jobs of agents ----

  /** Parents have no agent of their own. */
  ghost predicate ParentsAgentless(jobs: JobMap) {
    forall c | c in jobs && jobs[c].parentId in jobs && jobs[c].parentId != NoId :: jobs[jobs[c].parentId].agentId == NoId
  }

  lemma FamilyAgentless(jobs: JobMap)
    requires Family(jobs)
    ensures ParentsAgentless(jobs)
  {
    forall c | c in jobs && jobs[c].parentId in jobs && jobs[c].parentId != NoId ensures jobs[jobs[c].parentId].agentId == NoId {
      assert ParentShape(jobs, jobs[c].parentId);
    }
  }

  ghost predicate SameJobs(before: JobMap, after: JobMap) {
    before.Keys == after.Keys && forall k | k in before :: SameJob(before[k], after[k])
  }

  lemma SameJobsAgentless(before: JobMap, after: JobMap)
    requires SameJobs(before, after) && ParentsAgentless(before)
    ensures ParentsAgentless(after)
  {
  }

  /** Of the jobs of agents, exactly the open ones in `ids` have failed with the message. */
  ghost predicate AgentJobsFail(before: JobMap, after: JobMap, ids: set<Id>, msg: string, now: Time) {
    && SameJobs(before, after)
    && forall k | k in before && before[k].agentId != NoId ::
         after[k] == if k in ids && !Terminal(before[k].status) then FailedJob(before[k], msg, now) else before[k]
  }

  lemma AgentJobsFailMore(a: JobMap, b: JobMap, c: JobMap, ids: set<Id>, more: set<Id>, msg: string, now: Time)
    requires AgentJobsFail(a, b, ids, msg, now) && AgentJobsFail(b, c, more, msg, now)
    ensures AgentJobsFail(a, c, ids + more, msg, now)
  {
  }

  lemma OneChanged(before: JobMap, p: Id, job: Job)
    requires p in before && SameJob(before[p], job)
    ensures SameJobs(before, before[p := job]) && OthersSame(before, before[p := job], {p})
  {
  }

  lemma ParentOnly(s: State, p: Id, failureMsg: string, emit: bool, now: Time)
    ensures var t := CompleteParent(s, p, failureMsg, emit, now);
        SameJobs(s.jobs, t.jobs) && OthersSame(s.jobs, t.jobs, {p})
  {
    var t := CompleteParent(s, p, failureMsg, emit, now);
    if p in s.jobs && !Terminal(s.jobs[p].status) && Children(s.jobs, p) != {} && AllTerminal(s.jobs, Children(s.jobs, p)) {
      var status := if AnySucceeded(s.jobs, Children(s.jobs, p)) then Succeeded else Failed;
      var msg := if status == Succeeded then "" else if failureMsg == "" then "one or more fanout jobs failed" else failureMsg;
      var job := WithStatus(s.jobs[p], status, msg, now);
      OneChanged(s.jobs, p, job);
      assert t.jobs == s.jobs[p := job];
    }
  }

  lemma FailJobFails(s: State, a: Id, id: Id, msg: string, now: Time)
    requires ParentsAgentless(s.jobs) && id in s.jobs
    ensures AgentJobsFail(s.jobs, FailJob(s, a, id, msg, now).jobs, {id}, msg, now)
  {
    if !Terminal(s.jobs[id].status) {
      var job := s.jobs[id];
      var cleared := if a != NoId then s.(running := Clear(s.running, a, id)) else s;
      var told := AddEvent(cleared.(jobs := SetStatus(s.jobs, id, Failed, msg, now)), StreamOf(job), Message(a, msg));
      OneFails(s.jobs, id, msg, now);
      assert told.jobs == s.jobs[id := FailedJob(job, msg, now)];
      if job.parentId != NoId {
        ParentOnly(told, job.parentId, "", false, now);
        ThenParent(s.jobs, told.jobs, CompleteParent(told, job.parentId, "", false, now).jobs, id, job.parentId, msg, now);
      }
    }
  }

  lemma OneFails(before: JobMap, id: Id, msg: string, now: Time)
    requires id in before && !Terminal(before[id].status)
    ensures AgentJobsFail(before, before[id := FailedJob(before[id], msg, now)], {id}, msg, now)
  {
  }

  lemma ThenParent(before: JobMap, mid: JobMap, after: JobMap, id: Id, p: Id, msg: string, now: Time)
    requires AgentJobsFail(before, mid, {id}, msg, now) && SameJobs(mid, after) && OthersSame(mid, after, {p})
    requires p in before ==> before[p].agentId == NoId
    ensures AgentJobsFail(before, after, {id}, msg, now)
  {
  }

  lemma {:induction false} FailAllFails(s: State, a: Id, ids: seq<Id>, msg: string, now: Time)
    requires ParentsAgentless(s.jobs) && forall i | 0 <= i < |ids| :: ids[i] in s.jobs
    ensures AgentJobsFail(s.jobs, FailAll(s, a, ids, msg, now).jobs, Named(ids), msg, now)
  {
    if ids != [] {
      var n := |ids| - 1;
      var mid := FailAll(s, a, ids[..n], msg, now);
      FailAllFails(s, a, ids[..n], msg, now);
      SameJobsAgentless(s.jobs, mid.jobs);
      FailJobFails(mid, a, ids[n], msg, now);
      AgentJobsFailMore(s.jobs, mid.jobs, FailAll(s, a, ids, msg, now).jobs, Named(ids[..n]), {ids[n]}, msg, now);
      assert ids == ids[..n] + [ids[n]];
      assert Named(ids) == Named(ids[..n]) + {ids[n]};
    }
  }

  /** After a disconnect exactly the running jobs of the agent have failed, with the message
      "agent disconnected", and every other job of an agent is as it was. */
  lemma DisconnectFails(s: State, a: Id, inflight: seq<Id>, now: Time)
    requires Inv(s) && a != NoId && Lists(inflight, Inflight(s.running, a))
    ensures var t := Disconnect(s, a, inflight, now);
        t.jobs.Keys == s.jobs.Keys && forall k | k in s.jobs && s.jobs[k].agentId != NoId ::
          t.jobs[k] == if s.jobs[k].agentId == a && s.jobs[k].status == Running
                       then FailedJob(s.jobs[k], "agent disconnected", now) else s.jobs[k]
  {
    forall i | 0 <= i < |inflight| ensures inflight[i] in s.jobs {
      assert TableEntry(s.jobs, a, inflight[i]);
    }
    FamilyAgentless(s.jobs);
    FailAllFails(s.(running := s.running - {a}), a, inflight, "agent disconnected", now);
    LifecycleRuns.TableIsExact(s, a);
    forall k | k in s.jobs ensures k in Named(inflight) <==> s.jobs[k].agentId == a && s.jobs[k].status == Running {
      assert k in Named(inflight) <==> k in LifecycleRuns.RunningJobs(s.jobs, a);
    }
  }

  // ---- the sweep ----

  /** Of the jobs of agents, some open ones have failed with "job_timeout"; the others are as they were. */
  ghost predicate SomeTimedOut(before: JobMap, after: JobMap, now: Time) {
    && SameJobs(before, after)
    && forall k | k in before && before[k].agentId != NoId ::
         after[k] == before[k] || (!Terminal(before[k].status) && after[k] == FailedJob(before[k], "job_timeout", now))
  }

  lemma SomeTimedOutChains(a: JobMap, b: JobMap, c: JobMap, now: Time)
    requires SomeTimedOut(a, b, now) && SomeTimedOut(b, c, now)
    ensures SomeTimedOut(a, c, now)
  {
  }

  lemma ParentTimesOutNone(s: State, p: Id, failureMsg: string, emit: bool, now: Time)
    requires p in s.jobs ==> s.jobs[p].agentId == NoId
    ensures SomeTimedOut(s.jobs, CompleteParent(s, p, failureMsg, emit, now).jobs, now)
  {
    ParentOnly(s, p, failureMsg, emit, now);
  }

  lemma ChildrenTimeOut(s: State, p: Id, now: Time)
    ensures SomeTimedOut(s.jobs, FailChildren(s, p, now).jobs, now)
  {
  }

  lemma SweepOneTimesOut(s: State, job: Job, policies: PolicySource, now: Time)
    requires ParentsAgentless(s.jobs) && job.id in s.jobs && SameJob(s.jobs[job.id], job)
    ensures SomeTimedOut(s.jobs, SweepOne(s, job, policies, now).jobs, now)
  {
    if Deferred(s, job, policies, now) {
      ParentTimesOutNone(s, job.id, "", false, now);
    } else if JobTimedOut(job, policies, now) {
      if HasFanout(s.jobs, job) {
        var mid := FailChildren(s, job.id, now);
        ChildrenTimeOut(s, job.id, now);
        ParentTimesOutNone(mid, job.id, "job_timeout", true, now);
        SomeTimedOutChains(s.jobs, mid.jobs, SweepOne(s, job, policies, now).jobs, now);
      } else {
        FailJobFails(s, job.agentId, job.id, "job_timeout", now);
      }
    }
  }

  lemma {:induction false} SweepTimesOut(s: State, listing: seq<Job>, policies: PolicySource, now: Time)
    requires ParentsAgentless(s.jobs) && FromStore(s.jobs, listing)
    ensures SomeTimedOut(s.jobs, Sweep(s, listing, policies, now).jobs, now)
  {
    if listing != [] {
      var n := |listing| - 1;
      var mid := Sweep(s, listing[..n], policies, now);
      SweepTimesOut(s, listing[..n], policies, now);
      SameJobsAgentless(s.jobs, mid.jobs);
      SweepOneTimesOut(mid, listing[n], policies, now);
      SomeTimedOutChains(s.jobs, mid.jobs, Sweep(s, listing, policies, now).jobs, now);
    }
  }

  // ---- what a sweep sees ----

  function OpenIds(jobs: JobMap): set<Id> { set id | id in jobs && !Terminal(jobs[id].status) }

  /** A sweep lists queued and running jobs, and all of them when there are at most 200. */
  lemma SweepSees(jobs: JobMap, listing: seq<Job>)
    requires Keyed(jobs) && Listing(jobs, ActiveIds(jobs), 200, listing)
    ensures forall i | 0 <= i < |listing| :: ListedOpen(jobs, listing[i])
    ensures |OpenIds(jobs)| <= 200 ==> SawAllActive(jobs, listing)
  {
    if |OpenIds(jobs)| <= 200 {
      forall id | id in jobs && !Terminal(jobs[id].status) ensures jobs[id] in listing {
        assert id in ActiveIds(jobs);
        if jobs[id] !in listing {
          TooMany(jobs, listing, id);
        }
      }
    }
  }

  /** A full listing that misses an open job shows that there are more than 200. */
  lemma TooMany(jobs: JobMap, listing: seq<Job>, id: Id)
    requires id in OpenIds(jobs) && id !in IdsOf(listing) && |listing| == 200 && DistinctIds(listing)
    requires forall i | 0 <= i < |listing| :: listing[i].id in OpenIds(jobs)
    ensures |OpenIds(jobs)| > 200
  {
    IdsCount(listing);
    SubsetSize(IdsOf(listing) + {id}, OpenIds(jobs));
  }

  // ---- by the clock ----

  /** The clock of an open job started at `t0`: when it was started, or created if it has not been. */
  predicate ClockFrom(job: Job, t0: Time) {
    t0 != ZERO_TIME &&
    ((job.status == Running && job.startedAt == Some(t0)) ||
     (job.createdAt == t0 && (job.status == Queued || (job.status == Running && job.startedAt == None))))
  }

  /** The policies give the tool `T` seconds: its own timeout, or the runtime's if it is not available. */
  predicate Allows(p: PolicySet, tool: Tool, T: int) {
    T > 0 && (if tool in p.byTool then p.byTool[tool].timeout == T else ToolTimeout(tool, p.runtime) == T)
  }

  /** The job has no parent, or one that started less than the overall timeout ago. */
  predicate ParentInTime(jobs: JobMap, job: Job, overall: int, now: Time) {
    job.parentId in jobs ==>
      var parent := jobs[job.parentId];
      var start := if parent.startedAt.Some? then parent.startedAt.value else parent.createdAt;
      start == ZERO_TIME || now < start + overall * SECOND
  }

  lemma TimesOutByClock(job: Job, policies: PolicySource, now: Time, a: Id, t0: Time, T: int)
    requires job.agentId == a && ClockFrom(job, t0) && Allows(policies(a), job.tool, T)
    ensures JobTimedOut(job, policies, now) <==> t0 + T * SECOND <= now
  {
  }

  /** A sweep that saw all active jobs fails an agent's open job with "job_timeout" once the timeout that
      the agent's own policies give its tool has passed since its start. While there is time left, for it
      and for its parent, it leaves the job exactly as it was. */
  lemma SweepByClock(s: State, listing: seq<Job>, policies: PolicySource, now: Time, id: Id, a: Id, t0: Time, T: int)
    requires Inv(s) && Coherent(policies(NoId)) && SawAllActive(s.jobs, listing)
    requires forall i | 0 <= i < |listing| :: ListedOpen(s.jobs, listing[i])
    requires id in s.jobs && s.jobs[id].agentId == a != NoId && ClockFrom(s.jobs[id], t0) && Allows(policies(a), s.jobs[id].tool, T)
    ensures var t := Sweep(s, listing, policies, now);
        && id in t.jobs
        && (t0 + T * SECOND <= now ==> t.jobs[id] == FailedJob(s.jobs[id], "job_timeout", now))
        && (now < t0 + T * SECOND && ParentInTime(s.jobs, s.jobs[id], NormalizeRuntime(policies(NoId).runtime).maxToolTimeout, now) ==>
              t.jobs[id] == s.jobs[id])
  {
    TimesOutByClock(s.jobs[id], policies, now, a, t0, T);
    FamilyAgentless(s.jobs);
    SweepTimesOut(s, listing, policies, now);
    if t0 + T * SECOND <= now {
      OverdueJobEnds(s, listing, policies, now, id);
    } else if ParentInTime(s.jobs, s.jobs[id], NormalizeRuntime(policies(NoId).runtime).maxToolTimeout, now) {
      SweepSparesOthers(s, listing, policies, now, id);
    }
  }

  /** The same sweep ends a fan-out parent once the overall timeout of the general policies has passed since
      its start. */
  lemma SweepEndsParentByClock(s: State, listing: seq<Job>, policies: PolicySource, now: Time, id: Id, t0: Time)
    requires Inv(s) && Coherent(policies(NoId)) && SawAllActive(s.jobs, listing) && FromStore(s.jobs, listing)
    requires id in s.jobs && Children(s.jobs, id) != {} && s.jobs[id].startedAt == Some(t0) && t0 != ZERO_TIME
    requires t0 + NormalizeRuntime(policies(NoId).runtime).maxToolTimeout * SECOND <= now
    ensures var t := Sweep(s, listing, policies, now); id in t.jobs && Terminal(t.jobs[id].status)
  {
    PositiveFields(NormalizeRuntime(policies(NoId).runtime));
    if !Terminal(s.jobs[id].status) {
      OpenParentRuns(s.jobs, id);
    }
    OverdueJobEnds(s, listing, policies, now, id);
  }
}
