/** Jobs as the store keeps them, and the effect of the single store calls that change them. */
module Jobs {
  import opened Text
  import opened Model

  datatype Status = Queued | Running | Succeeded | Failed | Canceled

  predicate Terminal(status: Status) { status == Succeeded || status == Failed || status == Canceled }

  function Rank(status: Status): nat {
    if status == Queued then 0 else if status == Running then 1 else 2
  }

  datatype Job = Job(
    id: Id, parentId: Id, scheduledId: Id, tool: Tool, ipVersion: IPVersion, agentId: Id,
    status: Status, createdAt: Time, startedAt: Option<Time>, completedAt: Option<Time>, error: string)

  type JobMap = map<Id, Job>

  /** Every job is stored under its own non-empty ID. */
  predicate Keyed(jobs: JobMap) { forall id | id in jobs :: jobs[id].id == id && id != NoId }

  predicate CanClaim(jobs: JobMap, id: Id, agentId: Id) {
    id in jobs && jobs[id].status == Queued && jobs[id].agentId == agentId
  }

  function Started(job: Job, now: Time): Job {
    job.(status := Running, startedAt := if job.startedAt.None? then Some(now) else job.startedAt)
  }

  /** `ClaimQueuedJob`: only a queued job of this very agent can be claimed. */
  function Claim(jobs: JobMap, id: Id, agentId: Id, now: Time): JobMap {
    if CanClaim(jobs, id, agentId) then jobs[id := Started(jobs[id], now)] else jobs
  }

  function WithStatus(job: Job, status: Status, msg: string, now: Time): Job {
    job.(status := status,
         startedAt := if status == Running && job.startedAt.None? then Some(now) else job.startedAt,
         completedAt := if Terminal(status) then Some(now) else job.completedAt,
         error := if msg != "" then msg else job.error)
  }

  /** `UpdateJobStatus`: overwrites the status of a stored job, whatever it was. */
  function SetStatus(jobs: JobMap, id: Id, status: Status, msg: string, now: Time): JobMap {
    if id in jobs then jobs[id := WithStatus(jobs[id], status, msg, now)] else jobs
  }

  /** `CreateJobs`: later entries of a batch overwrite earlier ones. */
  function Insert(jobs: JobMap, batch: seq<Job>): JobMap {
    if batch == [] then jobs
    else Insert(jobs, batch[..|batch| - 1])[batch[|batch| - 1].id := batch[|batch| - 1]]
  }

  predicate DistinctIds(batch: seq<Job>) { forall i, j | 0 <= i < j < |batch| :: batch[i].id != batch[j].id }

  /** A batch of new jobs: their IDs are fresh. */
  predicate FreshBatch(jobs: JobMap, batch: seq<Job>) {
    DistinctIds(batch) && forall i | 0 <= i < |batch| :: batch[i].id !in jobs && batch[i].id != NoId
  }

  /** A listing of the jobs in `ids`, oldest first, cut at a positive limit. */
  predicate Listing(jobs: JobMap, ids: set<Id>, limit: int, out: seq<Job>) {
    && (forall i | 0 <= i < |out| :: out[i].id in ids && out[i].id in jobs && jobs[out[i].id] == out[i])
    && DistinctIds(out)
    && (forall i, j | 0 <= i < j < |out| :: out[i].createdAt <= out[j].createdAt)
    && (limit > 0 ==> |out| <= limit)
    && (forall id | id in ids && id in jobs && jobs[id] !in out ::
          limit > 0 && |out| == limit && forall i | 0 <= i < |out| :: out[i].createdAt <= jobs[id].createdAt)
  }

  function ActiveIds(jobs: JobMap): set<Id> {
    set id | id in jobs && (jobs[id].status == Queued || jobs[id].status == Running)
  }

  /** The queued jobs of an agent that its tools and protocols cover. */
  function QueuedIds(jobs: JobMap, agentId: Id, caps: set<Tool>, protocols: ProtocolMask): set<Id> {
    set id | id in jobs && jobs[id].status == Queued && jobs[id].agentId == agentId &&
             jobs[id].tool in caps && Speaks(protocols, jobs[id].ipVersion)
  }

  lemma {:induction false} InsertFresh(jobs: JobMap, batch: seq<Job>)
    requires FreshBatch(jobs, batch)
    ensures forall id :: id in Insert(jobs, batch) <==> id in jobs || exists i | 0 <= i < |batch| :: batch[i].id == id
    ensures forall id | id in jobs :: Insert(jobs, batch)[id] == jobs[id]
    ensures forall i | 0 <= i < |batch| :: Insert(jobs, batch)[batch[i].id] == batch[i]
  {
    if batch != [] {
      InsertFresh(jobs, batch[..|batch| - 1]);
    }
  }
}

/** Arbitrary interleavings of single store calls. The hub changes a status only to a terminal
    one, and new jobs have fresh IDs; nothing else is assumed. */
module StoreRuns {
  import opened Text
  import opened Model
  import opened Jobs

  datatype Call =
    | Create(batch: seq<Job>)
    | ClaimCall(id: Id, agentId: Id, now: Time)
    | Finish(id: Id, status: Status, msg: string, now: Time)

  predicate Allowed(jobs: JobMap, call: Call) {
    match call
    case Create(batch) => FreshBatch(jobs, batch)
    case ClaimCall(_, _, _) => true
    case Finish(_, status, _, _) => Terminal(status)
  }

  function Apply(jobs: JobMap, call: Call): JobMap {
    match call
    case Create(batch) => Insert(jobs, batch)
    case ClaimCall(id, agentId, now) => Claim(jobs, id, agentId, now)
    case Finish(id, status, msg, now) => SetStatus(jobs, id, status, msg, now)
  }

  /** The store after the first calls of a run. */
  function After(jobs: JobMap, calls: seq<Call>): JobMap {
    if calls == [] then jobs else Apply(After(jobs, calls[..|calls| - 1]), calls[|calls| - 1])
  }

  predicate Legal(jobs: JobMap, calls: seq<Call>) {
    forall k | 0 <= k < |calls| :: Allowed(After(jobs, calls[..k]), calls[k])
  }

  /** What a job never loses. */
  predicate NoStepBack(before: JobMap, after: JobMap) {
    forall id | id in before ::
      && id in after
      && Rank(before[id].status) <= Rank(after[id].status)
      && after[id].agentId == before[id].agentId
      && (before[id].startedAt.Some? ==> after[id].startedAt == before[id].startedAt)
  }

  lemma CallNeverStepsBack(jobs: JobMap, call: Call)
    requires Allowed(jobs, call)
    ensures NoStepBack(jobs, Apply(jobs, call))
  {
    if call.Create? {
      InsertFresh(jobs, call.batch);
    }
  }

  /** In every run the rank queued < running < terminal of each job never decreases, its agent
      never changes, and its start time, once set, never changes. */
  lemma {:induction false} RunNeverStepsBack(jobs: JobMap, calls: seq<Call>, i: nat, j: nat)
    requires Legal(jobs, calls) && i <= j <= |calls|
    ensures NoStepBack(After(jobs, calls[..i]), After(jobs, calls[..j]))
    decreases j
  {
    if i < j {
      RunNeverStepsBack(jobs, calls, i, j - 1);
      AfterOneMore(jobs, calls, j - 1);
      var s := After(jobs, calls[..j - 1]);
      CallNeverStepsBack(s, calls[j - 1]);
      NoStepBackChains(After(jobs, calls[..i]), s, Apply(s, calls[j - 1]));
    }
  }

  lemma AfterOneMore(jobs: JobMap, calls: seq<Call>, k: nat)
    requires k < |calls|
    ensures After(jobs, calls[..k + 1]) == Apply(After(jobs, calls[..k]), calls[k])
  {
    assert calls[..k + 1][..k] == calls[..k];
  }

  lemma NoStepBackChains(a: JobMap, b: JobMap, c: JobMap)
    requires NoStepBack(a, b) && NoStepBack(b, c)
    ensures NoStepBack(a, c)
  {
  }

  /** Call `k` of the run is a claim that returns true. */
  predicate ClaimSucceeds(jobs: JobMap, calls: seq<Call>, k: nat)
    requires k < |calls|
  {
    calls[k].ClaimCall? && CanClaim(After(jobs, calls[..k]), calls[k].id, calls[k].agentId)
  }

  /** A claim returns true at most once for a job, and only to the agent the job is assigned to
      for the whole rest of the run. */
  lemma ClaimedAtMostOnce(jobs: JobMap, calls: seq<Call>, i: nat, j: nat)
    requires Legal(jobs, calls) && i < |calls| && j < |calls|
    requires ClaimSucceeds(jobs, calls, i)
    ensures ClaimSucceeds(jobs, calls, j) && calls[i].id == calls[j].id ==> i == j
    ensures i <= j ==> calls[i].id in After(jobs, calls[..j]) && After(jobs, calls[..j])[calls[i].id].agentId == calls[i].agentId
  {
    if i < j {
      ClaimRaisesRank(jobs, calls, i);
      RunNeverStepsBack(jobs, calls, i + 1, j);
    } else if j < i && ClaimSucceeds(jobs, calls, j) && calls[i].id == calls[j].id {
      ClaimRaisesRank(jobs, calls, j);
      RunNeverStepsBack(jobs, calls, j + 1, i);
    }
  }

  lemma ClaimRaisesRank(jobs: JobMap, calls: seq<Call>, k: nat)
    requires k < |calls| && ClaimSucceeds(jobs, calls, k)
    ensures var after := After(jobs, calls[..k + 1]); var id := calls[k].id;
        id in after && Rank(after[id].status) == 1 && after[id].agentId == calls[k].agentId && after[id].startedAt.Some?
  {
    AfterOneMore(jobs, calls, k);
  }

  /** What a successful claim records: the job runs, since now if it has never been started. */
  lemma ClaimRecords(jobs: JobMap, id: Id, agentId: Id, now: Time)
    requires id in jobs && jobs[id].status == Queued && jobs[id].agentId == agentId
    ensures var after := Claim(jobs, id, agentId, now);
        && after.Keys == jobs.Keys && (forall k | k in jobs && k != id :: after[k] == jobs[k])
        && after[id] == jobs[id].(status := Running, startedAt := after[id].startedAt)
        && after[id].startedAt == (if jobs[id].startedAt.Some? then jobs[id].startedAt else Some(now))
  {
  }

  /** What the end of a job records: its status, the time, and the error unless it is blank. */
  lemma EndRecords(jobs: JobMap, id: Id, status: Status, msg: string, now: Time)
    requires id in jobs && (status == Succeeded || status == Failed || status == Canceled)
    ensures var after := SetStatus(jobs, id, status, msg, now);
        && after.Keys == jobs.Keys && (forall k | k in jobs && k != id :: after[k] == jobs[k])
        && after[id] == jobs[id].(status := status, completedAt := Some(now), error := after[id].error)
        && after[id].error == (if msg == "" then jobs[id].error else msg)
  {
  }
}
