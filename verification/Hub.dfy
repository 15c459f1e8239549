/** The in-memory store. */
module Store {
  import opened Text
  import opened Model
  import opened Jobs
  import opened Lifecycle

  class Memory {
    var jobs: JobMap
    var events: EventTable

    constructor ()
      ensures jobs == map[] && events == map[]
    {
      jobs, events := map[], map[];
    }

    method CreateJobs(batch: seq<Job>)
      modifies this`jobs
      ensures jobs == Insert(old(jobs), batch)
    {
      for k := 0 to |batch|
        invariant jobs == Insert(old(jobs), batch[..k])
      {
        assert batch[..k + 1][..k] == batch[..k];
        jobs := jobs[batch[k].id := batch[k]];
      }
      assert batch[..|batch|] == batch;
    }

    method GetJob(id: Id) returns (job: Option<Job>)
      ensures job == if id in jobs then Some(jobs[id]) else None
    {
      return if id in jobs then Some(jobs[id]) else None;
    }

    /** Returns true exactly when the job was queued for this agent. */
    method ClaimQueuedJob(id: Id, agentId: Id, now: Time) returns (claimed: bool)
      modifies this`jobs
      ensures claimed <==> CanClaim(old(jobs), id, agentId)
      ensures jobs == Claim(old(jobs), id, agentId, now)
    {
      if id !in jobs || jobs[id].status != Queued || jobs[id].agentId != agentId {
        return false;
      }
      var job := jobs[id].(status := Running);
      if job.startedAt.None? {
        job := job.(startedAt := Some(now));
      }
      jobs := jobs[id := job];
      return true;
    }

    method UpdateJobStatus(id: Id, status: Status, msg: string, now: Time) returns (found: bool)
      modifies this`jobs
      ensures found <==> id in old(jobs)
      ensures jobs == SetStatus(old(jobs), id, status, msg, now)
    {
      if id !in jobs {
        return false;
      }
      var job := jobs[id].(status := status);
      if status == Running && job.startedAt.None? {
        job := job.(startedAt := Some(now));
      }
      if status == Succeeded || status == Failed || status == Canceled {
        job := job.(completedAt := Some(now));
      }
      if msg != "" {
        job := job.(error := msg);
      }
      jobs := jobs[id := job];
      return true;
    }

    method AddJobEvent(id: Id, e: Event) returns (found: bool)
      modifies this`events
      ensures found <==> id in jobs
      ensures events == AddEvent(State(jobs, map[], old(events)), id, e).events
    {
      if id !in jobs {
        return false;
      }
      events := events[id := EventsOf(events, id) + [e]];
      return true;
    }

    method ListActiveJobs(limit: int) returns (out: seq<Job>)
      requires Keyed(jobs)
      ensures Listing(jobs, ActiveIds(jobs), limit, out)
    {
      out := OldestFirst(jobs, ActiveIds(jobs), limit);
    }

    method ListQueuedJobs(agentId: Id, caps: set<Tool>, protocols: ProtocolMask, limit: int) returns (out: seq<Job>)
      requires Keyed(jobs)
      ensures Listing(jobs, QueuedIds(jobs, agentId, caps, protocols), limit, out)
    {
      out := OldestFirst(jobs, QueuedIds(jobs, agentId, caps, protocols), limit);
    }

    method ListChildJobs(parentId: Id) returns (out: seq<Job>)
      requires Keyed(jobs)
      ensures Listing(jobs, Children(jobs, parentId), 0, out)
    {
      out := OldestFirst(jobs, Children(jobs, parentId), 0);
    }
  }

  /** `out` lists the jobs of `ids` outside `rest`, none of them younger than any in `rest`. */
  ghost predicate Taken(jobs: JobMap, ids: set<Id>, rest: set<Id>, out: seq<Job>)
    requires ids <= jobs.Keys && rest <= ids
  {
    && (forall i | 0 <= i < |out| :: out[i].id in ids && out[i].id !in rest && jobs[out[i].id] == out[i])
    && (forall id | id in ids && id !in rest :: jobs[id] in out)
    && DistinctIds(out)
    && (forall i, j | 0 <= i < j < |out| :: out[i].createdAt <= out[j].createdAt)
    && (forall i, id | 0 <= i < |out| && id in rest :: out[i].createdAt <= jobs[id].createdAt)
  }

  lemma TakeOldest(jobs: JobMap, ids: set<Id>, rest: set<Id>, out: seq<Job>, next: Id)
    requires Keyed(jobs) && ids <= jobs.Keys && rest <= ids && Taken(jobs, ids, rest, out)
    requires next in rest && forall id | id in rest :: jobs[next].createdAt <= jobs[id].createdAt
    ensures Taken(jobs, ids, rest - {next}, out + [jobs[next]])
  {
    var more := out + [jobs[next]];
    forall id | id in ids && id !in rest - {next} ensures jobs[id] in more {
      if id == next {
        assert more[|out|] == jobs[id];
      }
    }
  }

  /** The jobs in `ids`, oldest first, cut at a positive limit: repeatedly takes one of the oldest
      that are left, since jobs of the same age may come in any order. */
  method OldestFirst(jobs: JobMap, ids: set<Id>, limit: int) returns (out: seq<Job>)
    requires Keyed(jobs) && ids <= jobs.Keys
    ensures Listing(jobs, ids, limit, out)
  {
    out := [];
    var rest := ids;
    while rest != {} && (limit <= 0 || |out| < limit)
      invariant rest <= ids && (limit > 0 ==> |out| <= limit)
      invariant Taken(jobs, ids, rest, out)
      decreases |rest|
    {
      OldestExists(jobs, rest);
      var next :| next in rest && forall id | id in rest :: jobs[next].createdAt <= jobs[id].createdAt;
      TakeOldest(jobs, ids, rest, out, next);
      rest := rest - {next};
      out := out + [jobs[next]];
    }
  }

  lemma {:induction false} OldestExists(jobs: JobMap, ids: set<Id>)
    requires ids != {} && ids <= jobs.Keys
    ensures exists oldest :: oldest in ids && forall id | id in ids :: jobs[oldest].createdAt <= jobs[id].createdAt
  {
    var some :| some in ids;
    var rest := ids - {some};
    if rest != {} {
      OldestExists(jobs, rest);
      var oldest :| oldest in rest && forall id | id in rest :: jobs[oldest].createdAt <= jobs[id].createdAt;
      assert jobs[some].createdAt <= jobs[oldest].createdAt ==> forall id | id in ids :: jobs[some].createdAt <= jobs[id].createdAt;
      assert jobs[some].createdAt > jobs[oldest].createdAt ==> forall id | id in ids :: jobs[oldest].createdAt <= jobs[id].createdAt;
    } else {
      assert ids == {some};
    }
  }
}

/** The hub: the handlers of the job protocol, over the store and the in-flight table. */
module Hubs {
  import opened Text
  import opened Model
  import opened Runtimes
  import opened Policies
  import opened Jobs
  import opened Lifecycle
  import opened LifecycleRuns
  import opened Store

  class Hub {
    const store: Memory
    var running: InflightTable

    constructor ()
      ensures fresh(store) && View() == START
    {
      store := new Memory();
      running := map[];
    }

    /** The protocol state the hub is in. */
    ghost function View(): State
      reads this, store
    {
      State(store.jobs, running, store.events)
    }

    method ClearInflight(agentId: Id, id: Id)
      modifies this`running
      ensures running == Clear(old(running), agentId, id)
    {
      if agentId in running {
        running := running[agentId := running[agentId] - {id}];
      }
    }

    method MarkInflight(agentId: Id, id: Id)
      modifies this`running
      ensures running == Mark(old(running), agentId, id)
    {
      if agentId !in running {
        running := running[agentId := {}];
      }
      running := running[agentId := running[agentId] + {id}];
    }

    method EmitProgress(id: Id, message: string)
      modifies store`events
      ensures View() == Lifecycle.EmitProgress(old(View()), id, message)
    {
      var job := store.GetJob(id);
      if job.Some? {
        var eventJobId := if job.value.parentId != NoId then job.value.parentId else job.value.id;
        var _ := store.AddJobEvent(eventJobId, Progress(message));
      }
    }

    /** Closes a fan-out parent when its last child has ended. */
    method CompleteParentIfDone(parentId: Id, failureMsg: string, emitFailure: bool, now: Time)
      requires Keyed(store.jobs)
      modifies store
      ensures View() == CompleteParent(old(View()), parentId, failureMsg, emitFailure, now)
      ensures Keyed(store.jobs)
    {
      var parent := store.GetJob(parentId);
      if parent.None? || Terminal(parent.value.status) {
        return;
      }
      var children := store.ListChildJobs(parentId);
      var succeeded := false;
      for k := 0 to |children|
        invariant forall i | 0 <= i < k :: Terminal(children[i].status)
        invariant succeeded <==> exists i | 0 <= i < k :: children[i].status == Succeeded
      {
        if !Terminal(children[k].status) {
          assert children[k].id in Children(store.jobs, parentId);
          return;
        }
        if children[k].status == Succeeded {
          succeeded := true;
        }
      }
      ListedChildren(store.jobs, parentId, children);
      if |children| == 0 {
        return;
      }
      var status := Failed;
      var msg := failureMsg;
      if succeeded {
        status, msg := Succeeded, "";
      } else if msg == "" {
        msg := "one or more fanout jobs failed";
      }
      var _ := store.UpdateJobStatus(parentId, status, msg, now);
      if status == Failed && emitFailure && msg != "" {
        var _ := store.AddJobEvent(parentId, Message(NoId, msg));
      }
      EmitProgress(parentId, ProgressMessage(status));
    }

    method FailJob(agentId: Id, id: Id, msg: string, now: Time)
      requires Keyed(store.jobs)
      modifies this`running, store
      ensures View() == Lifecycle.FailJob(old(View()), agentId, id, msg, now)
      ensures Keyed(store.jobs)
    {
      if agentId != NoId {
        ClearInflight(agentId, id);
      }
      var job := store.GetJob(id);
      if job.None? || Terminal(job.value.status) {
        return;
      }
      var _ := store.UpdateJobStatus(id, Failed, msg, now);
      var eventJobId := if job.value.parentId != NoId then job.value.parentId else id;
      var _ := store.AddJobEvent(eventJobId, Message(agentId, msg));
      if job.value.parentId != NoId {
        CompleteParentIfDone(job.value.parentId, "", false, now);
      } else {
        EmitProgress(id, "failed");
      }
    }

    method HandleResult(agentId: Id, id: Id, wire: Wire, now: Time)
      requires Keyed(store.jobs)
      modifies this`running, store
      ensures View() == Lifecycle.HandleResult(old(View()), agentId, id, wire, now)
      ensures Keyed(store.jobs)
    {
      var found := store.GetJob(id);
      if found.None? {
        return;
      }
      var job := found.value;
      if agentId == NoId || job.agentId != agentId || agentId !in running || id !in running[agentId] {
        return;
      }
      if Terminal(job.status) || wire.Malformed? {
        return;
      }
      var eventJobId := if job.parentId != NoId then job.parentId else job.id;
      var stored := store.AddJobEvent(eventJobId, FromAgent(agentId, wire));
      if !stored || !wire.Summary? {
        return;
      }
      ClearInflight(agentId, id);
      var status := if wire.exitCode == 0 then Succeeded else Failed;
      var msg := if wire.exitCode == 0 then "" else FailureType(wire.status);
      var _ := store.UpdateJobStatus(id, status, msg, now);
      if job.parentId != NoId {
        CompleteParentIfDone(job.parentId, "", false, now);
      } else {
        EmitProgress(id, ProgressMessage(status));
      }
    }

    method RegisterAgent(agentId: Id)
      modifies this`running
      ensures View() == Take(old(View()), Connect(agentId))
    {
      if agentId !in running {
        running := running[agentId := {}];
      }
    }

    /** A request without an agent: one running parent and a queued child for every target. The IDs
        are fresh. */
    method CreateFanoutJob(tool: Tool, version: IPVersion, targets: seq<DispatchTarget>, parentId: Id, childIds: seq<Id>, now: Time)
      returns (parent: Job, children: seq<Job>)
      requires targets != [] && |childIds| == |targets| && FreshIds(store.jobs, [parentId] + childIds)
      modifies store
      ensures Enabled(old(View()), CreateFanout(parent, children))
      ensures View() == Take(old(View()), CreateFanout(parent, children))
      ensures |children| == |targets| && forall i | 0 <= i < |children| ::
          children[i].agentId == targets[i].agentId && children[i].ipVersion == targets[i].ipVersion && children[i].tool == tool
    {
      parent := Job(parentId, NoId, NoId, tool, version, NoId, Running, now, Some(now), None, "");
      children := [];
      for k := 0 to |targets|
        invariant |children| == k
        invariant forall i | 0 <= i < k :: children[i] == parent.(id := childIds[i], parentId := parent.id,
            agentId := targets[i].agentId, ipVersion := targets[i].ipVersion, status := Queued, startedAt := None)
      {
        var child := parent.(id := childIds[k], parentId := parent.id, agentId := targets[k].agentId, ipVersion := targets[k].ipVersion);
        child := child.(status := Queued, startedAt := None, completedAt := None, error := "");
        children := children + [child];
      }
      FreshFanout(store.jobs, [parentId] + childIds, [parent] + children);
      store.CreateJobs([parent] + children);
      var _ := store.AddJobEvent(parent.id, Progress("started"));
    }

    /** One tick of an agent's poll loop. `sent` bounds how many listed jobs are handled before the
        connection fails. The listing that was worked from is returned. */
    method PollAgent(agentId: Id, limit: int, caps: set<Tool>, protocols: ProtocolMask, sent: nat, now: Time)
      returns (listing: seq<Job>)
      requires Keyed(store.jobs)
      modifies this`running, store
      ensures Enabled(old(View()), Poll(agentId, limit, caps, protocols, listing, |listing|, now))
      ensures View() == Take(old(View()), Poll(agentId, limit, caps, protocols, listing, if sent < |listing| then sent else |listing|, now))
    {
      listing := [];
      var inflight := if agentId in running then |running[agentId]| else 0;
      var remaining := limit - inflight;
      if remaining <= 0 {
        return;
      }
      listing := store.ListQueuedJobs(agentId, caps, protocols, remaining);
      DispatchListed(agentId, listing[..if sent < |listing| then sent else |listing|], now);
    }

    method DispatchListed(agentId: Id, listing: seq<Job>, now: Time)
      requires Keyed(store.jobs)
      modifies this`running, store
      ensures View() == DispatchAll(old(View()), agentId, listing, now)
    {
      for k := 0 to |listing|
        invariant Keyed(store.jobs)
        invariant View() == DispatchAll(old(View()), agentId, listing[..k], now)
      {
        assert listing[..k + 1][..k] == listing[..k];
        DispatchJob(agentId, listing[k], now);
      }
      assert listing[..|listing|] == listing;
    }

    method DispatchJob(agentId: Id, job: Job, now: Time)
      requires Keyed(store.jobs)
      modifies this`running, store
      ensures View() == Dispatch(old(View()), agentId, job, now)
      ensures Keyed(store.jobs)
    {
      var claimed := store.ClaimQueuedJob(job.id, agentId, now);
      if claimed {
        MarkInflight(agentId, job.id);
        if job.parentId == NoId {
          EmitProgress(job.id, "started");
        }
      }
    }

    /** The end of a connection; `inflight` is the agent's table entry in the order it is read. */
    method Disconnect(agentId: Id, inflight: seq<Id>, now: Time)
      requires Keyed(store.jobs) && Lists(inflight, Inflight(running, agentId))
      modifies this`running, store
      ensures View() == Lifecycle.Disconnect(old(View()), agentId, inflight, now)
    {
      running := running - {agentId};
      ghost var forgot := View();
      for k := 0 to |inflight|
        invariant Keyed(store.jobs)
        invariant View() == FailAll(forgot, agentId, inflight[..k], "agent disconnected", now)
      {
        assert inflight[..k + 1][..k] == inflight[..k];
        FailJob(agentId, inflight[k], "agent disconnected", now);
      }
      assert inflight[..|inflight|] == inflight;
    }

    /** Fails the open children of a timed-out parent; false when the job is not a parent. */
    method FailFanoutChildren(parent: Job, now: Time) returns (isParent: bool)
      requires Keyed(store.jobs) && parent.id != NoId
      modifies this`running, store
      ensures isParent <==> HasFanout(old(store.jobs), parent)
      ensures View() == if isParent then FailChildren(old(View()), parent.id, now) else old(View())
      ensures Keyed(store.jobs)
    {
      if parent.parentId != NoId || parent.agentId != NoId {
        return false;
      }
      var children := store.ListChildJobs(parent.id);
      ListedChildren(store.jobs, parent.id, children);
      if |children| == 0 {
        return false;
      }
      ghost var start := View();
      FailOpenNone(start, now);
      for k := 0 to |children|
        invariant Keyed(store.jobs)
        invariant View() == FailOpen(start, Ids(children[..k]), now)
      {
        var child := children[k];
        assert start.jobs[child.id] == child;
        FailOpenOneMore(start, children, k, now);
        TimeOutChild(child, now);
      }
      assert children[..|children|] == children;
      assert Ids(children) == Children(start.jobs, parent.id);
      return true;
    }

    method TimeOutChild(child: Job, now: Time)
      requires Keyed(store.jobs)
      modifies this`running, store`jobs
      ensures Keyed(store.jobs)
      ensures View() == if Terminal(child.status) then old(View())
          else State(SetStatus(old(store.jobs), child.id, Failed, "job_timeout", now),
                     Release(old(running), child.agentId, child.id), old(store.events))
    {
      if !Terminal(child.status) {
        if child.agentId != NoId {
          ClearInflight(child.agentId, child.id);
        }
        var _ := store.UpdateJobStatus(child.id, Failed, "job_timeout", now);
      }
    }

    /** The timeout sweep: a list read once, then one round for each listed job. */
    method FailTimedOutJobs(policies: PolicySource, now: Time) returns (listing: seq<Job>)
      requires Keyed(store.jobs)
      modifies this`running, store
      ensures Listing(old(store.jobs), ActiveIds(old(store.jobs)), 200, listing)
      ensures View() == Sweep(old(View()), listing, policies, now)
    {
      listing := store.ListActiveJobs(200);
      SweepListed(listing, policies, now);
    }

    method SweepListed(listing: seq<Job>, policies: PolicySource, now: Time)
      requires Keyed(store.jobs) && forall i | 0 <= i < |listing| :: listing[i].id != NoId
      modifies this`running, store
      ensures View() == Sweep(old(View()), listing, policies, now)
    {
      for k := 0 to |listing|
        invariant Keyed(store.jobs)
        invariant View() == Sweep(old(View()), listing[..k], policies, now)
      {
        assert listing[..k + 1][..k] == listing[..k];
        SweepRound(listing[k], policies, now);
      }
      assert listing[..|listing|] == listing;
    }

    method SweepRound(job: Job, policies: PolicySource, now: Time)
      requires Keyed(store.jobs) && job.id != NoId
      modifies this`running, store
      ensures View() == SweepOne(old(View()), job, policies, now) && Keyed(store.jobs)
    {
      var deferred := DeferFanoutParentTimeout(job, policies, now);
      if deferred || !JobTimedOut(job, policies, now) {
        return;
      }
      var isParent := FailFanoutChildren(job, now);
      if isParent {
        CompleteParentIfDone(job.id, "job_timeout", true, now);
      } else {
        FailJob(job.agentId, job.id, "job_timeout", now);
      }
    }

    method DeferFanoutParentTimeout(job: Job, policies: PolicySource, now: Time) returns (deferred: bool)
      requires Keyed(store.jobs)
      modifies store
      ensures deferred <==> Deferred(old(View()), job, policies, now)
      ensures View() == if deferred && AllTerminal(old(store.jobs), Children(old(store.jobs), job.id))
                        then CompleteParent(old(View()), job.id, "", false, now) else old(View())
      ensures Keyed(store.jobs)
    {
      if job.parentId != NoId || job.agentId != NoId || job.status != Running {
        return false;
      }
      var children := store.ListChildJobs(job.id);
      ListedChildren(store.jobs, job.id, children);
      if |children| == 0 || ParentOverdue(job, policies, now) {
        return false;
      }
      for k := 0 to |children|
        invariant forall i | 0 <= i < k :: Terminal(children[i].status)
      {
        if !Terminal(children[k].status) {
          assert children[k].id in Children(store.jobs, job.id);
          return true;
        }
      }
      CompleteParentIfDone(job.id, "", false, now);
      return true;
    }
  }

  datatype DispatchTarget = DispatchTarget(agentId: Id, ipVersion: IPVersion)

  predicate FreshIds(jobs: JobMap, ids: seq<Id>) {
    && (forall i, j | 0 <= i < j < |ids| :: ids[i] != ids[j])
    && forall i | 0 <= i < |ids| :: ids[i] !in jobs && ids[i] != NoId
  }

  lemma FreshFanout(jobs: JobMap, ids: seq<Id>, batch: seq<Job>)
    requires FreshIds(jobs, ids) && |batch| == |ids| && forall i | 0 <= i < |ids| :: batch[i].id == ids[i]
    ensures FreshBatch(jobs, batch)
  {
  }

  lemma ListedChildren(jobs: JobMap, parentId: Id, children: seq<Job>)
    requires Keyed(jobs) && Listing(jobs, Children(jobs, parentId), 0, children)
    ensures |children| == 0 <==> Children(jobs, parentId) == {}
    ensures forall id | id in Children(jobs, parentId) :: jobs[id] in children
    ensures (forall i | 0 <= i < |children| :: Terminal(children[i].status)) <==> AllTerminal(jobs, Children(jobs, parentId))
    ensures (exists i | 0 <= i < |children| :: children[i].status == Succeeded) <==> AnySucceeded(jobs, Children(jobs, parentId))
  {
    var kids := Children(jobs, parentId);
    forall id | id in kids ensures jobs[id] in children {
    }
    if children != [] {
      assert children[0].id in kids;
    }
    if i :| 0 <= i < |children| && children[i].status == Succeeded {
      assert children[i].id in kids && jobs[children[i].id].status == Succeeded;
    }
  }

  ghost function Ids(jobs: seq<Job>): set<Id> { set i | 0 <= i < |jobs| :: jobs[i].id }

  lemma FailOpenNone(s: State, now: Time)
    ensures FailOpen(s, Ids([]), now) == s
  {
    assert Ids([]) == {};
    var t := FailOpen(s, {}, now);
    assert t.jobs == s.jobs;
    forall a | a in s.running ensures t.running[a] == s.running[a] {
    }
    assert t.running == s.running;
  }

  lemma FailOpenOneMore(s: State, children: seq<Job>, k: nat, now: Time)
    requires k < |children| && DistinctIds(children) && children[k].id in s.jobs && s.jobs[children[k].id] == children[k]
    ensures var mid := FailOpen(s, Ids(children[..k]), now); var child := children[k];
        FailOpen(s, Ids(children[..k + 1]), now) ==
        if Terminal(child.status) then mid
        else mid.(jobs := SetStatus(mid.jobs, child.id, Failed, "job_timeout", now), running := Release(mid.running, child.agentId, child.id))
  {
    var child := children[k];
    var ids := Ids(children[..k]);
    var more := Ids(children[..k + 1]);
    assert children[..k + 1] == children[..k] + [child];
    forall id ensures id in more <==> id in ids || id == child.id {
      if id in ids {
        var i :| 0 <= i < k && children[i].id == id;
        assert children[..k + 1][i].id == id;
      }
      if id == child.id {
        assert children[..k + 1][k].id == id;
      }
    }
    FailOpenAdd(s, ids, more, child, now);
  }

  lemma FailOpenAdd(s: State, ids: set<Id>, more: set<Id>, child: Job, now: Time)
    requires child.id !in ids && more == ids + {child.id} && child.id in s.jobs && s.jobs[child.id] == child
    ensures var mid := FailOpen(s, ids, now);
        FailOpen(s, more, now) ==
        if Terminal(child.status) then mid
        else mid.(jobs := SetStatus(mid.jobs, child.id, Failed, "job_timeout", now), running := Release(mid.running, child.agentId, child.id))
  {
    var mid := FailOpen(s, ids, now);
    var t := FailOpen(s, more, now);
    var u := if Terminal(child.status) then mid
        else mid.(jobs := SetStatus(mid.jobs, child.id, Failed, "job_timeout", now), running := Release(mid.running, child.agentId, child.id));
    assert t.jobs == u.jobs;
    forall a | a in s.running ensures t.running[a] == u.running[a] {
    }
    assert t.running == u.running;
  }
}
