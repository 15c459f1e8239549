/** What a poll does, told by the fields it changes. */
module PollEffects {
  import opened Text
  import opened Model
  import opened Jobs
  import opened Lifecycle
  import opened LifecycleRuns
  import opened HttpRuns

  // ---- queued jobs have never been started ----

  ghost predicate Unstarted(jobs: JobMap) { forall id | id in jobs && jobs[id].status == Queued :: jobs[id].startedAt == None }

  lemma CreationUnstarted(s: State, step: Step)
    requires Enabled(s, step) && Creates(step) && Unstarted(s.jobs)
    ensures Unstarted(Take(s, step).jobs)
  {
    match step
    case CreatePinned(job) => InsertUnstarted(s.jobs, [job]);
    case CreateRefused(job) => InsertUnstarted(s.jobs, [job]);
    case CreateFanout(parent, children) =>
      var batch := [parent] + children;
      forall i | 0 <= i < |batch| && batch[i].status == Queued ensures batch[i].startedAt == None {
        assert i > 0 ==> batch[i] == children[i - 1];
      }
      InsertUnstarted(s.jobs, batch);
    case CreateScheduled(batch) => InsertUnstarted(s.jobs, batch);
  }

  lemma InsertUnstarted(jobs: JobMap, batch: seq<Job>)
    requires FreshBatch(jobs, batch) && Unstarted(jobs)
    requires forall i | 0 <= i < |batch| && batch[i].status == Queued :: batch[i].startedAt == None
    ensures Unstarted(Insert(jobs, batch))
  {
    InsertFresh(jobs, batch);
  }

  /** In every reachable state a queued job has no start time. */
  lemma {:induction false} QueuedNeverStarted(steps: seq<Step>)
    requires Legal(steps)
    ensures Unstarted(After(steps).jobs)
  {
    if steps != [] {
      var init, last := steps[..|steps| - 1], steps[|steps| - 1];
      LegalPrefix(steps);
      QueuedNeverStarted(init);
      ReachableInv(init);
      if Creates(last) {
        CreationUnstarted(After(init), last);
      } else {
        StepIsLater(After(init), last);
      }
    }
  }

  // ---- claiming listed jobs ----

  /** The job waits for agent `a`, under its own ID. */
  predicate Waiting(jobs: JobMap, job: Job, a: Id) {
    job.id in jobs && jobs[job.id] == job && job.status == Queued && job.agentId == a && job.startedAt == None
  }

  predicate Waits(jobs: JobMap, listing: seq<Job>, a: Id) {
    DistinctIds(listing) && forall i | 0 <= i < |listing| :: Waiting(jobs, listing[i], a)
  }

  predicate Among(listing: seq<Job>, id: Id) { exists i | 0 <= i < |listing| :: listing[i].id == id }

  /** From `s` to `t` the listed jobs were started at `now` for agent `a`: each runs, is in flight, and tells
      its own stream if it has no parent. Nothing else has changed. */
  ghost predicate StartedBetween(s: State, t: State, a: Id, listing: seq<Job>, now: Time) {
    && JobsStarted(s.jobs, t.jobs, listing, now)
    && InflightAdded(s.running, t.running, a, listing)
    && StreamsTold(s, t, listing)
  }

  ghost predicate JobsStarted(before: JobMap, after: JobMap, listing: seq<Job>, now: Time) {
    && after.Keys == before.Keys
    && (forall i | 0 <= i < |listing| :: listing[i].id in before &&
          after[listing[i].id] == listing[i].(status := Running, startedAt := Some(now)))
    && (forall id | id in before && !Among(listing, id) :: after[id] == before[id])
  }

  ghost predicate InflightAdded(before: InflightTable, after: InflightTable, a: Id, listing: seq<Job>) {
    && (forall id :: id in Inflight(after, a) <==> id in Inflight(before, a) || Among(listing, id))
    && (forall b | b != a :: Inflight(after, b) == Inflight(before, b))
  }

  /** Every top-level listed job's stream gains "started", and no other stream changes. */
  ghost predicate StreamsTold(s: State, t: State, listing: seq<Job>) {
    && (forall i | 0 <= i < |listing| && listing[i].parentId == NoId ::
          EventsOf(t.events, listing[i].id) == EventsOf(s.events, listing[i].id) + [Progress("started")])
    && (forall id | !Among(listing, id) || (id in s.jobs && s.jobs[id].parentId != NoId) ::
          EventsOf(t.events, id) == EventsOf(s.events, id))
  }

  lemma AmongSnoc(listing: seq<Job>, job: Job)
    ensures forall id :: Among(listing + [job], id) <==> Among(listing, id) || id == job.id
    ensures forall id :: Among([job], id) <==> id == job.id
  {
    var more := listing + [job];
    assert more[|listing|] == job && [job][0] == job;
    forall id | Among(listing, id) ensures Among(more, id) {
      var i :| 0 <= i < |listing| && listing[i].id == id;
      assert more[i].id == id;
    }
  }

  lemma JobsStartedMore(a: JobMap, b: JobMap, c: JobMap, listing: seq<Job>, job: Job, now: Time)
    requires JobsStarted(a, b, listing, now) && JobsStarted(b, c, [job], now) && !Among(listing, job.id)
    ensures JobsStarted(a, c, listing + [job], now)
  {
    AmongSnoc(listing, job);
    var more := listing + [job];
    forall i | 0 <= i < |more| ensures more[i].id in a && c[more[i].id] == more[i].(status := Running, startedAt := Some(now)) {
      if i < |listing| {
        assert Among(listing, listing[i].id);
      } else {
        assert [job][0] == more[i];
      }
    }
  }

  lemma StreamsToldMore(s: State, m: State, t: State, listing: seq<Job>, job: Job)
    requires StreamsTold(s, m, listing) && StreamsTold(m, t, [job]) && !Among(listing, job.id)
    requires job.id in s.jobs && s.jobs[job.id] == job && job.id in m.jobs && m.jobs[job.id] == job
    requires m.jobs.Keys == s.jobs.Keys && forall id | id in s.jobs :: m.jobs[id].parentId == s.jobs[id].parentId
    ensures StreamsTold(s, t, listing + [job])
  {
    AmongSnoc(listing, job);
    var more := listing + [job];
    forall i | 0 <= i < |more| && more[i].parentId == NoId
      ensures EventsOf(t.events, more[i].id) == EventsOf(s.events, more[i].id) + [Progress("started")]
    {
      if i < |listing| {
        assert Among(listing, listing[i].id) && listing[i].id != job.id;
      } else {
        assert [job][0] == more[i];
      }
    }
  }

  lemma DispatchStarts(s: State, a: Id, job: Job, now: Time)
    requires Waiting(s.jobs, job, a)
    ensures StartedBetween(s, Dispatch(s, a, job, now), a, [job], now)
  {
    var t := Dispatch(s, a, job, now);
    assert CanClaim(s.jobs, job.id, a);
    assert [job][0].id == job.id && forall id :: Among([job], id) <==> id == job.id;
  }

  /** A poll that handles its listing starts every job on it and does nothing else. */
  lemma {:induction false} DispatchAllStarts(s: State, a: Id, listing: seq<Job>, now: Time)
    requires Keyed(s.jobs) && Waits(s.jobs, listing, a)
    ensures StartedBetween(s, DispatchAll(s, a, listing, now), a, listing, now)
  {
    if listing != [] {
      var init := listing[..|listing| - 1];
      assert Waits(s.jobs, init, a);
      DispatchAllStarts(s, a, init, now);
      NextStarts(s, DispatchAll(s, a, init, now), a, listing, now);
    }
  }

  lemma NextStarts(s: State, m: State, a: Id, listing: seq<Job>, now: Time)
    requires listing != [] && Waits(s.jobs, listing, a) && StartedBetween(s, m, a, listing[..|listing| - 1], now)
    ensures StartedBetween(s, Dispatch(m, a, listing[|listing| - 1], now), a, listing, now)
  {
    var init, job := listing[..|listing| - 1], listing[|listing| - 1];
    NextWaits(s.jobs, m.jobs, a, listing, now);
    DispatchStarts(m, a, job, now);
    StartedMore(s, m, Dispatch(m, a, job, now), a, init, job, now);
    assert init + [job] == listing;
  }

  lemma NextWaits(before: JobMap, after: JobMap, a: Id, listing: seq<Job>, now: Time)
    requires listing != [] && Waits(before, listing, a) && JobsStarted(before, after, listing[..|listing| - 1], now)
    ensures var init, job := listing[..|listing| - 1], listing[|listing| - 1];
        Waits(before, init, a) && Waiting(before, job, a) && !Among(init, job.id) && Waiting(after, job, a)
  {
  }

  lemma StartedMore(s: State, m: State, t: State, a: Id, listing: seq<Job>, job: Job, now: Time)
    requires StartedBetween(s, m, a, listing, now) && StartedBetween(m, t, a, [job], now)
    requires Waits(s.jobs, listing, a) && Waiting(s.jobs, job, a) && Waiting(m.jobs, job, a) && !Among(listing, job.id)
    ensures StartedBetween(s, t, a, listing + [job], now)
  {
    JobsStartedMore(s.jobs, m.jobs, t.jobs, listing, job, now);
    AmongSnoc(listing, job);
    ParentsKept(s.jobs, m.jobs, listing, a, now);
    StreamsToldMore(s, m, t, listing, job);
  }

  lemma ParentsKept(before: JobMap, after: JobMap, listing: seq<Job>, a: Id, now: Time)
    requires JobsStarted(before, after, listing, now) && Waits(before, listing, a)
    ensures forall id | id in before :: after[id].parentId == before[id].parentId
  {
    forall id | id in before ensures after[id].parentId == before[id].parentId {
      if Among(listing, id) {
        var i :| 0 <= i < |listing| && listing[i].id == id;
      }
    }
  }

  // ---- a whole poll ----

  /** A job that an agent with these tools and protocols (one bit for each IP version) can run. */
  predicate Runnable(job: Job, a: Id, caps: set<Tool>, protocols: ProtocolMask) {
    && job.status == Queued && job.agentId == a && job.tool in caps
    && (job.ipVersion == 4 ==> protocols & 1 != 0) && (job.ipVersion == 6 ==> protocols & 2 != 0)
  }

  lemma ListedRunnable(s: State, a: Id, caps: set<Tool>, protocols: ProtocolMask, id: Id)
    requires id in s.jobs
    ensures id in QueuedIds(s.jobs, a, caps, protocols) <==> Runnable(s.jobs[id], a, caps, protocols)
  {
  }

  /** In every reachable state, a poll of an agent with room for more jobs starts the first jobs of its
      listing, as many as it gets to: each runs from now on, is in flight, and announces itself on its own
      stream unless it is a child. Nothing else changes. */
  lemma PollStarts(steps: seq<Step>, a: Id, limit: int, caps: set<Tool>, protocols: ProtocolMask, listing: seq<Job>, sent: nat, now: Time)
    requires Legal(steps) && Enabled(After(steps), Poll(a, limit, caps, protocols, listing, sent, now))
    requires |Inflight(After(steps).running, a)| < limit
    ensures var s := After(steps);
        StartedBetween(s, Take(s, Poll(a, limit, caps, protocols, listing, sent, now)), a, listing[..sent], now)
  {
    var s := After(steps);
    ReachableInv(steps);
    QueuedNeverStarted(steps);
    forall i | 0 <= i < sent ensures Waiting(s.jobs, listing[i], a) {
      assert listing[i].id in QueuedIds(s.jobs, a, caps, protocols);
    }
    DispatchAllStarts(s, a, listing[..sent], now);
  }

  /** The listing holds only jobs the agent can run, the oldest ones, and all of them if they fit. */
  lemma PollLists(s: State, a: Id, limit: int, caps: set<Tool>, protocols: ProtocolMask, listing: seq<Job>, sent: nat, now: Time)
    requires Inv(s) && Enabled(s, Poll(a, limit, caps, protocols, listing, sent, now))
    requires |Inflight(s.running, a)| < limit
    ensures forall i | 0 <= i < |listing| :: listing[i].id in s.jobs && s.jobs[listing[i].id] == listing[i] && Runnable(listing[i], a, caps, protocols)
    ensures |listing| <= limit - |Inflight(s.running, a)|
    ensures forall id | id in s.jobs && Runnable(s.jobs[id], a, caps, protocols) && !Among(listing, id) ::
        |listing| == limit - |Inflight(s.running, a)| && forall i | 0 <= i < |listing| :: listing[i].createdAt <= s.jobs[id].createdAt
  {
    forall id | id in s.jobs ensures id in QueuedIds(s.jobs, a, caps, protocols) <==> Runnable(s.jobs[id], a, caps, protocols) {
      ListedRunnable(s, a, caps, protocols, id);
    }
    forall id | id in s.jobs && s.jobs[id] in listing ensures Among(listing, id) {
      var i :| 0 <= i < |listing| && listing[i] == s.jobs[id];
      assert listing[i].id == id;
    }
  }
}
