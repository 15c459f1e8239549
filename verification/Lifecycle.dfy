/** The job protocol as a state machine. Each function is the whole effect of one hub handler on
    the jobs, the in-flight table and the event lists; the hub class carries them out. */
module Lifecycle {
  import opened Text
  import opened Model
  import opened Runtimes
  import opened Policies
  import opened Jobs

  /** A result line of an agent: unreadable, a progress line, or the final summary. */
  datatype Wire = Malformed | StreamLine(kind: string, text: string) | Summary(exitCode: int, status: string)

  datatype Event = Progress(message: string) | Message(agentId: Id, text: string) | FromAgent(agentId: Id, wire: Wire)

  type InflightTable = map<Id, set<Id>>

  type EventTable = map<Id, seq<Event>>

  datatype State = State(jobs: JobMap, running: InflightTable, events: EventTable)

  // ---- small operations ----

  function Inflight(running: InflightTable, agentId: Id): set<Id> {
    if agentId in running then running[agentId] else {}
  }

  function Mark(running: InflightTable, agentId: Id, id: Id): InflightTable {
    running[agentId := Inflight(running, agentId) + {id}]
  }

  function Clear(running: InflightTable, agentId: Id, id: Id): InflightTable {
    if agentId in running then running[agentId := running[agentId] - {id}] else running
  }

  function EventsOf(events: EventTable, id: Id): seq<Event> {
    if id in events then events[id] else []
  }

  /** `AddJobEvent`: events of unknown jobs are refused. */
  function AddEvent(s: State, id: Id, e: Event): State {
    if id in s.jobs then s.(events := s.events[id := EventsOf(s.events, id) + [e]]) else s
  }

  /** A child reports on its parent's stream. */
  function StreamOf(job: Job): Id { if job.parentId != NoId then job.parentId else job.id }

  function EmitProgress(s: State, id: Id, message: string): State {
    if id in s.jobs then AddEvent(s, StreamOf(s.jobs[id]), Progress(message)) else s
  }

  function ProgressMessage(status: Status): string {
    match status
    case Succeeded => "completed"
    case Failed => "failed"
    case Canceled => "canceled"
    case Queued => "queued"
    case Running => "running"
  }

  function Children(jobs: JobMap, parentId: Id): set<Id> {
    set id | id in jobs && jobs[id].parentId == parentId
  }

  predicate AllTerminal(jobs: JobMap, ids: set<Id>) { forall id | id in ids :: id in jobs && Terminal(jobs[id].status) }

  predicate AnySucceeded(jobs: JobMap, ids: set<Id>) { exists id | id in ids :: id in jobs && jobs[id].status == Succeeded }

  // ---- handlers ----

  /** Closing a fan-out parent once all its children have ended. */
  function CompleteParent(s: State, id: Id, failureMsg: string, emitFailure: bool, now: Time): State {
    if id !in s.jobs || Terminal(s.jobs[id].status) then s
    else
      var children := Children(s.jobs, id);
      if children == {} || !AllTerminal(s.jobs, children) then s
      else
        var status := if AnySucceeded(s.jobs, children) then Succeeded else Failed;
        var msg := if status == Succeeded then "" else if failureMsg == "" then "one or more fanout jobs failed" else failureMsg;
        var closed := s.(jobs := SetStatus(s.jobs, id, status, msg, now));
        var told := if status == Failed && emitFailure && msg != "" then AddEvent(closed, id, Message(NoId, msg)) else closed;
        EmitProgress(told, id, ProgressMessage(status))
  }

  function FailJob(s: State, agentId: Id, id: Id, msg: string, now: Time): State {
    var cleared := if agentId != NoId then s.(running := Clear(s.running, agentId, id)) else s;
    if id !in s.jobs || Terminal(s.jobs[id].status) then cleared
    else
      var job := s.jobs[id];
      var failed := cleared.(jobs := SetStatus(s.jobs, id, Failed, msg, now));
      var told := AddEvent(failed, StreamOf(job), Message(agentId, msg));
      if job.parentId != NoId then CompleteParent(told, job.parentId, "", false, now)
      else EmitProgress(told, id, "failed")
  }

  predicate AgentOwnsJob(s: State, agentId: Id, job: Job) {
    agentId != NoId && job.agentId == agentId && job.id in Inflight(s.running, agentId)
  }

  function FailureType(status: string): string {
    if status == "target_blocked" || status == "unsupported_protocol" || status == "unsupported_tool" then status else "tool_failed"
  }

  function HandleResult(s: State, agentId: Id, id: Id, wire: Wire, now: Time): State {
    if id !in s.jobs || !AgentOwnsJob(s, agentId, s.jobs[id]) || Terminal(s.jobs[id].status) || wire.Malformed? then s
    else
      var job := s.jobs[id];
      if StreamOf(job) !in s.jobs then s
      else
        var told := AddEvent(s, StreamOf(job), FromAgent(agentId, wire));
        if !wire.Summary? then told
        else
          var status := if wire.exitCode == 0 then Succeeded else Failed;
          var msg := if wire.exitCode == 0 then "" else FailureType(wire.status);
          var done := told.(running := Clear(s.running, agentId, id), jobs := SetStatus(s.jobs, id, status, msg, now));
          if job.parentId != NoId then CompleteParent(done, job.parentId, "", false, now)
          else EmitProgress(done, id, ProgressMessage(status))
  }

  /** Claiming one listed job and putting it in flight. */
  function Dispatch(s: State, agentId: Id, job: Job, now: Time): State {
    if !CanClaim(s.jobs, job.id, agentId) then s
    else
      var claimed := s.(jobs := Claim(s.jobs, job.id, agentId, now), running := Mark(s.running, agentId, job.id));
      if job.parentId != NoId then claimed else EmitProgress(claimed, job.id, "started")
  }

  function DispatchAll(s: State, agentId: Id, listing: seq<Job>, now: Time): State {
    if listing == [] then s
    else Dispatch(DispatchAll(s, agentId, listing[..|listing| - 1], now), agentId, listing[|listing| - 1], now)
  }

  function FailAll(s: State, agentId: Id, ids: seq<Id>, msg: string, now: Time): State {
    if ids == [] then s
    else FailJob(FailAll(s, agentId, ids[..|ids| - 1], msg, now), agentId, ids[|ids| - 1], msg, now)
  }

  /** The end of a connection: forget the agent's table entry, then fail what was in flight. */
  function Disconnect(s: State, agentId: Id, inflight: seq<Id>, now: Time): State {
    FailAll(s.(running := s.running - {agentId}), agentId, inflight, "agent disconnected", now)
  }

  // ---- the timeout sweep ----

  /** A timeout of so many seconds has passed since an instant. */
  predicate Due(start: Time, timeout: int, now: Time) { timeout > 0 && start != ZERO_TIME && start + timeout * SECOND <= now }

  /** The policies of an agent, or of every agent for the empty ID. */
  type PolicySource = Id -> PolicySet

  /** In seconds, as all policy timeouts are. */
  function JobTimeout(job: Job, policies: PolicySource): int {
    var s := policies(job.agentId);
    if job.tool in s.byTool && s.byTool[job.tool].timeout > 0 then s.byTool[job.tool].timeout
    else ToolTimeout(job.tool, s.runtime)
  }

  function TimeoutStart(job: Job): Time {
    if job.status == Running && job.startedAt.Some? then job.startedAt.value else job.createdAt
  }

  predicate JobTimedOut(job: Job, policies: PolicySource, now: Time) {
    Due(TimeoutStart(job), JobTimeout(job, policies), now)
  }

  /** A fan-out parent that is running, as a sweep sees it. */
  predicate RunningParent(jobs: JobMap, job: Job) {
    job.parentId == NoId && job.agentId == NoId && job.status == Running && Children(jobs, job.id) != {}
  }

  predicate ParentOverdue(job: Job, policies: PolicySource, now: Time) {
    Due(if job.startedAt.Some? then job.startedAt.value else job.createdAt, MaxToolTimeout(policies(NoId).runtime), now)
  }

  /** A parent that still has time is left alone, or closed if its children have ended. */
  predicate Deferred(s: State, job: Job, policies: PolicySource, now: Time) {
    RunningParent(s.jobs, job) && !ParentOverdue(job, policies, now)
  }

  predicate HasFanout(jobs: JobMap, job: Job) {
    job.parentId == NoId && job.agentId == NoId && Children(jobs, job.id) != {}
  }

  function TimedOut(job: Job, now: Time): Job {
    if Terminal(job.status) then job else WithStatus(job, Failed, "job_timeout", now)
  }

  predicate OpenEntry(jobs: JobMap, a: Id, id: Id) {
    a != NoId && id in jobs && jobs[id].agentId == a && !Terminal(jobs[id].status)
  }

  /** Failing the open jobs among `ids` and taking them out of flight. */
  function FailOpen(s: State, ids: set<Id>, now: Time): State {
    s.(jobs := map id | id in s.jobs :: if id in ids then TimedOut(s.jobs[id], now) else s.jobs[id],
       running := map a | a in s.running :: set id | id in s.running[a] && !(id in ids && OpenEntry(s.jobs, a, id)))
  }

  function FailChildren(s: State, parentId: Id, now: Time): State { FailOpen(s, Children(s.jobs, parentId), now) }

  /** One round of the sweep, for one job as the stale list has it. */
  function SweepOne(s: State, job: Job, policies: PolicySource, now: Time): State {
    if Deferred(s, job, policies, now) then
      if AllTerminal(s.jobs, Children(s.jobs, job.id)) then CompleteParent(s, job.id, "", false, now) else s
    else if !JobTimedOut(job, policies, now) then s
    else if HasFanout(s.jobs, job) then
      CompleteParent(FailChildren(s, job.id, now), job.id, "job_timeout", true, now)
    else FailJob(s, job.agentId, job.id, "job_timeout", now)
  }

  function Sweep(s: State, listing: seq<Job>, policies: PolicySource, now: Time): State {
    if listing == [] then s
    else SweepOne(Sweep(s, listing[..|listing| - 1], policies, now), listing[|listing| - 1], policies, now)
  }

  // ---- invariants ----

  /** Children hang under a top-level parent that has no agent of its own and is never queued. */
  ghost predicate Family(jobs: JobMap) {
    && Keyed(jobs)
    && forall c | c in jobs && jobs[c].parentId != NoId :: ParentShape(jobs, jobs[c].parentId)
  }

  predicate ParentShape(jobs: JobMap, p: Id) {
    p in jobs && jobs[p].parentId == NoId && jobs[p].agentId == NoId && jobs[p].status != Queued
  }

  /** A fan-out parent is terminal exactly when all its children are, and a terminal parent has
      succeeded exactly when some child has. */
  ghost predicate ParentAgrees(jobs: JobMap, p: Id)
    requires p in jobs
  {
    var kids := Children(jobs, p);
    kids != {} ==>
      && (Terminal(jobs[p].status) <==> AllTerminal(jobs, kids))
      && (Terminal(jobs[p].status) ==> (jobs[p].status == Succeeded <==> AnySucceeded(jobs, kids)))
  }

  /** An entry of the table is a job of that agent, and a running one unless the ID is empty. */
  predicate TableEntry(jobs: JobMap, a: Id, id: Id) {
    && id in jobs && jobs[id].agentId == a
    && jobs[id].status != Queued && (a != NoId ==> jobs[id].status == Running)
  }

  ghost predicate EntriesOk(jobs: JobMap, running: InflightTable) {
    forall a, id | id in Inflight(running, a) :: TableEntry(jobs, a, id)
  }

  ghost predicate Covers(jobs: JobMap, running: InflightTable, pending: set<Id>) {
    forall id | id in jobs && jobs[id].agentId != NoId && jobs[id].status == Running && id !in pending ::
      id in Inflight(running, jobs[id].agentId)
  }

  /** The in-flight table of a non-empty agent ID is exactly its running jobs, the jobs in `pending`
      aside; no fan-out parent is ever in the entry of the empty ID. */
  ghost predicate TableAgrees(s: State, pending: set<Id>) {
    && EntriesOk(s.jobs, s.running)
    && Covers(s.jobs, s.running, pending)
    && forall c | c in s.jobs && s.jobs[c].parentId != NoId :: s.jobs[c].parentId !in Inflight(s.running, NoId)
  }

  /** The invariant while parent `q` still has to be looked at and the jobs in `pending` have
      been forgotten by the table but not failed yet. */
  ghost predicate InvBut(s: State, q: Id, pending: set<Id>) {
    && Family(s.jobs)
    && TableAgrees(s, pending)
    && (forall p | p in s.jobs && p != q :: ParentAgrees(s.jobs, p))
    && (q in s.jobs && Terminal(s.jobs[q].status) ==> ParentAgrees(s.jobs, q))
  }

  /** What holds between handlers. */
  ghost predicate Inv(s: State) { InvBut(s, NoId, {}) }

  predicate SameJob(a: Job, b: Job) {
    a.id == b.id && a.parentId == b.parentId && a.agentId == b.agentId && a.tool == b.tool && a.createdAt == b.createdAt
  }

  /** The same job, never queued again, not changed while it stays queued, and never once it has ended. */
  predicate Onward(a: Job, b: Job) {
    SameJob(a, b) && (b.status == Queued ==> b == a) && (Terminal(a.status) ==> b == a)
  }

  /** What handlers that create no jobs do to the jobs. */
  ghost predicate Later(before: JobMap, after: JobMap) {
    && before.Keys == after.Keys
    && forall id | id in before :: Onward(before[id], after[id])
  }

  lemma LaterChains(a: JobMap, b: JobMap, c: JobMap)
    requires Later(a, b) && Later(b, c)
    ensures Later(a, c)
  {
  }

  lemma SameChildren(a: JobMap, b: JobMap, p: Id)
    requires Later(a, b)
    ensures Children(a, p) == Children(b, p)
  {
  }

  // ---- every handler keeps the invariant ----

  lemma OneJobLater(jobs: JobMap, id: Id, job: Job)
    requires id in jobs && SameJob(jobs[id], job) && !Terminal(jobs[id].status) && job.status != Queued
    ensures Later(jobs, jobs[id := job])
  {
  }

  /** A parent's verdict is not touched by changing a job that is neither it nor its child. */
  lemma ParentUntouched(jobs: JobMap, after: JobMap, id: Id, p: Id)
    requires Later(jobs, after) && id in jobs && p in jobs && p != id && jobs[id].parentId != p
    requires forall k | k in jobs && k != id :: after[k] == jobs[k]
    ensures ParentAgrees(jobs, p) <==> ParentAgrees(after, p)
  {
    SameChildren(jobs, after, p);
    var kids := Children(jobs, p);
    assert AllTerminal(jobs, kids) <==> AllTerminal(after, kids);
    assert AnySucceeded(jobs, kids) <==> AnySucceeded(after, kids);
  }

  /** Changing one childless job keeps the family, and all parents but its own. */
  lemma ChildChanges(s: State, id: Id, job: Job, after: State, pending: set<Id>)
    requires InvBut(s, NoId, pending) && id in s.jobs && SameJob(s.jobs[id], job)
    requires !Terminal(s.jobs[id].status) && job.status != Queued && Children(s.jobs, id) == {}
    requires after.jobs == s.jobs[id := job]
    ensures Family(after.jobs) && Later(s.jobs, after.jobs)
    ensures forall p | p in after.jobs && p != job.parentId :: ParentAgrees(after.jobs, p)
    ensures job.parentId in after.jobs ==> !Terminal(after.jobs[job.parentId].status)
    ensures !Terminal(job.status) && job.parentId in after.jobs ==> ParentAgrees(after.jobs, job.parentId)
  {
    OneJobLater(s.jobs, id, job);
    var q := job.parentId;
    forall p | p in after.jobs && p != q ensures ParentAgrees(after.jobs, p) {
      if p != id {
        ParentUntouched(s.jobs, after.jobs, id, p);
      } else {
        SameChildren(s.jobs, after.jobs, id);
      }
    }
    if q in s.jobs {
      assert id in Children(s.jobs, q) && ParentAgrees(s.jobs, q);
      SameChildren(s.jobs, after.jobs, q);
    }
  }

  lemma EventsAside(s: State, t: State, q: Id, pending: set<Id>)
    requires s.jobs == t.jobs && s.running == t.running
    ensures InvBut(s, q, pending) <==> InvBut(t, q, pending)
  {
  }

  /** Closing a parent restores the invariant, and closes it whenever its children have ended. */
  lemma CompleteParentKeeps(s: State, id: Id, failureMsg: string, emitFailure: bool, now: Time, pending: set<Id>)
    requires InvBut(s, id, pending)
    ensures var t := CompleteParent(s, id, failureMsg, emitFailure, now);
        && InvBut(t, NoId, pending) && Later(s.jobs, t.jobs) && t.running == s.running
        && (forall k | k in s.jobs && k != id :: t.jobs[k] == s.jobs[k])
        && (id in s.jobs && Children(s.jobs, id) != {} && AllTerminal(s.jobs, Children(s.jobs, id)) ==> Terminal(t.jobs[id].status))
  {
    var t := CompleteParent(s, id, failureMsg, emitFailure, now);
    if id in s.jobs && !Terminal(s.jobs[id].status) && Children(s.jobs, id) != {} && AllTerminal(s.jobs, Children(s.jobs, id)) {
      ParentCloses(s, id, t.jobs[id], t, pending);
    }
  }

  lemma ParentCloses(s: State, id: Id, job: Job, t: State, pending: set<Id>)
    requires InvBut(s, id, pending) && id in s.jobs && !Terminal(s.jobs[id].status)
    requires Children(s.jobs, id) != {} && AllTerminal(s.jobs, Children(s.jobs, id))
    requires SameJob(s.jobs[id], job)
    requires job.status == (if AnySucceeded(s.jobs, Children(s.jobs, id)) then Succeeded else Failed)
    requires t.running == s.running && t.jobs == s.jobs[id := job]
    ensures InvBut(t, NoId, pending) && Later(s.jobs, t.jobs)
  {
    var kids := Children(s.jobs, id);
    var kid :| kid in kids;
    assert ParentShape(s.jobs, id) && kid != id;
    OneJobLater(s.jobs, id, job);
    ParentVerdict(s.jobs, t.jobs, id);
    forall p | p in t.jobs && p != id ensures ParentAgrees(t.jobs, p) {
      assert p != NoId;
      ParentUntouched(s.jobs, t.jobs, id, p);
    }
    TableIgnoresParents(s, t, id, pending);
  }

  lemma ParentVerdict(jobs: JobMap, after: JobMap, id: Id)
    requires Later(jobs, after) && id in jobs && Children(jobs, id) != {} && id !in Children(jobs, id)
    requires AllTerminal(jobs, Children(jobs, id))
    requires after == jobs[id := after[id]] && Terminal(after[id].status)
    requires after[id].status == Succeeded <==> AnySucceeded(jobs, Children(jobs, id))
    ensures ParentAgrees(after, id)
  {
    SameChildren(jobs, after, id);
    var kids := Children(jobs, id);
    assert AllTerminal(after, kids);
    assert AnySucceeded(jobs, kids) <==> AnySucceeded(after, kids);
  }

  lemma TableIgnoresParents(s: State, t: State, id: Id, pending: set<Id>)
    requires TableAgrees(s, pending) && id in s.jobs && id != NoId && Children(s.jobs, id) != {} && s.jobs[id].agentId == NoId
    requires t.running == s.running && Later(s.jobs, t.jobs)
    requires forall k | k in s.jobs && k != id :: t.jobs[k] == s.jobs[k]
    ensures TableAgrees(t, pending)
  {
    var kid :| kid in Children(s.jobs, id);
    assert s.jobs[kid].parentId == id && t.jobs[kid].parentId == id;
  }

  /** In-flight tables only shrink. */
  ghost predicate Shrinks(before: InflightTable, after: InflightTable) {
    forall a :: Inflight(after, a) <= Inflight(before, a)
  }

  function Release(running: InflightTable, agentId: Id, id: Id): InflightTable {
    if agentId != NoId then Clear(running, agentId, id) else running
  }

  /** A childless job ends and leaves its agent's table entry. */
  lemma JobEnds(s: State, id: Id, job: Job, t: State, pending: set<Id>)
    requires InvBut(s, NoId, pending) && id in s.jobs && SameJob(s.jobs[id], job)
    requires !Terminal(s.jobs[id].status) && Terminal(job.status) && Children(s.jobs, id) == {}
    requires t.jobs == s.jobs[id := job] && t.running == Release(s.running, job.agentId, id)
    ensures InvBut(t, job.parentId, pending - {id})
    ensures Later(s.jobs, t.jobs) && Shrinks(s.running, t.running)
  {
    ChildChanges(s, id, job, t, pending);
    TableAfterEnd(s, t, id, pending);
  }

  lemma TableAfterEnd(s: State, t: State, id: Id, pending: set<Id>)
    requires TableAgrees(s, pending) && id in s.jobs && Later(s.jobs, t.jobs)
    requires t.jobs == s.jobs[id := t.jobs[id]] && Terminal(t.jobs[id].status)
    requires t.running == Release(s.running, s.jobs[id].agentId, id)
    ensures TableAgrees(t, pending - {id}) && Shrinks(s.running, t.running)
  {
    EntriesAfterEnd(s, t, id);
    CoversAfterEnd(s, t, id, pending);
  }

  lemma EntriesAfterEnd(s: State, t: State, id: Id)
    requires EntriesOk(s.jobs, s.running) && id in s.jobs && id in t.jobs && t.jobs == s.jobs[id := t.jobs[id]]
    requires SameJob(s.jobs[id], t.jobs[id]) && Terminal(t.jobs[id].status)
    requires t.running == Release(s.running, s.jobs[id].agentId, id)
    ensures EntriesOk(t.jobs, t.running)
  {
    forall a, k | k in Inflight(t.running, a) ensures TableEntry(t.jobs, a, k) {
      assert k in Inflight(s.running, a) && TableEntry(s.jobs, a, k);
    }
  }

  lemma CoversAfterEnd(s: State, t: State, id: Id, pending: set<Id>)
    requires Covers(s.jobs, s.running, pending) && id in s.jobs && id in t.jobs && t.jobs == s.jobs[id := t.jobs[id]]
    requires Terminal(t.jobs[id].status) && t.running == Release(s.running, s.jobs[id].agentId, id)
    ensures Covers(t.jobs, t.running, pending - {id})
  {
  }

  predicate OwnChildless(jobs: JobMap, agentId: Id, id: Id) {
    id in jobs ==> jobs[id].agentId == agentId && Children(jobs, id) == {}
  }

  /** Failing a childless job of the agent ends it, closes its parent if it was the last, and
      leaves every job that had ended as it was. */
  lemma FailJobKeeps(s: State, agentId: Id, id: Id, msg: string, now: Time, pending: set<Id>)
    requires InvBut(s, NoId, pending) && OwnChildless(s.jobs, agentId, id)
    ensures var t := FailJob(s, agentId, id, msg, now);
        && InvBut(t, NoId, pending - {id}) && Later(s.jobs, t.jobs) && Shrinks(s.running, t.running)
        && (id in s.jobs ==> Terminal(t.jobs[id].status))
  {
    if id !in s.jobs || Terminal(s.jobs[id].status) {
      TerminalCleared(s, agentId, id, pending);
    } else {
      OpenJobFails(s, id, msg, now, pending);
    }
  }

  lemma OpenJobFails(s: State, id: Id, msg: string, now: Time, pending: set<Id>)
    requires InvBut(s, NoId, pending) && id in s.jobs && !Terminal(s.jobs[id].status) && Children(s.jobs, id) == {}
    ensures var t := FailJob(s, s.jobs[id].agentId, id, msg, now);
        && InvBut(t, NoId, pending - {id}) && Later(s.jobs, t.jobs) && Shrinks(s.running, t.running)
        && Terminal(t.jobs[id].status)
  {
    var agentId := s.jobs[id].agentId;
    var t := FailJob(s, agentId, id, msg, now);
    var job := WithStatus(s.jobs[id], Failed, msg, now);
    var ended := State(s.jobs[id := job], Release(s.running, agentId, id), s.events);
    JobEnds(s, id, job, ended, pending);
    var told := AddEvent(ended, StreamOf(job), Message(agentId, msg));
    EventsAside(ended, told, job.parentId, pending - {id});
    if job.parentId != NoId {
      assert t == CompleteParent(told, job.parentId, "", false, now);
      assert ParentShape(s.jobs, job.parentId);
      CompleteParentKeeps(told, job.parentId, "", false, now, pending - {id});
      LaterChains(s.jobs, told.jobs, t.jobs);
    } else {
      assert t.jobs == ended.jobs && t.running == ended.running;
      EventsAside(ended, t, NoId, pending - {id});
    }
  }

  lemma TerminalCleared(s: State, agentId: Id, id: Id, pending: set<Id>)
    requires InvBut(s, NoId, pending) && (id in s.jobs ==> Terminal(s.jobs[id].status))
    ensures InvBut(s.(running := Release(s.running, agentId, id)), NoId, pending - {id})
    ensures Shrinks(s.running, Release(s.running, agentId, id))
  {
  }

  /** Results only matter for a running job of the sender, and end it at most once. */
  lemma HandleResultKeeps(s: State, agentId: Id, id: Id, wire: Wire, now: Time)
    requires Inv(s)
    ensures var t := HandleResult(s, agentId, id, wire, now);
        Inv(t) && Later(s.jobs, t.jobs) && Shrinks(s.running, t.running)
  {
    var t := HandleResult(s, agentId, id, wire, now);
    if id !in s.jobs || !AgentOwnsJob(s, agentId, s.jobs[id]) || Terminal(s.jobs[id].status) || wire.Malformed? {
      return;
    }
    var told := AddEvent(s, StreamOf(s.jobs[id]), FromAgent(agentId, wire));
    EventsAside(s, told, NoId, {});
    if StreamOf(s.jobs[id]) !in s.jobs || !wire.Summary? {
      return;
    }
    InflightIsChildless(s, agentId, id);
    var status := if wire.exitCode == 0 then Succeeded else Failed;
    var job := WithStatus(s.jobs[id], status, if wire.exitCode == 0 then "" else FailureType(wire.status), now);
    var done := State(s.jobs[id := job], Release(s.running, agentId, id), told.events);
    JobEnds(told, id, job, done, {});
    assert {} - {id} == {};
    if job.parentId != NoId {
      CompleteParentKeeps(done, job.parentId, "", false, now, {});
      LaterChains(s.jobs, done.jobs, t.jobs);
    } else {
      EventsAside(done, t, NoId, {});
    }
  }

  /** Claiming a listed job keeps the invariant and adds at most that job to the agent's entry. */
  lemma DispatchKeeps(s: State, agentId: Id, job: Job, now: Time)
    requires Inv(s)
    ensures var t := Dispatch(s, agentId, job, now);
        && Inv(t) && Later(s.jobs, t.jobs)
        && (forall a | a != agentId :: Inflight(t.running, a) == Inflight(s.running, a))
        && Inflight(t.running, agentId) <= Inflight(s.running, agentId) + {job.id}
  {
    if CanClaim(s.jobs, job.id, agentId) {
      ClaimKeeps(s, agentId, job.id, now);
      var claimed := State(Claim(s.jobs, job.id, agentId, now), Mark(s.running, agentId, job.id), s.events);
      var t := Dispatch(s, agentId, job, now);
      assert t.jobs == claimed.jobs && t.running == claimed.running;
      EventsAside(claimed, t, NoId, {});
    }
  }

  lemma ClaimKeeps(s: State, agentId: Id, id: Id, now: Time)
    requires Inv(s) && CanClaim(s.jobs, id, agentId)
    ensures var t := State(Claim(s.jobs, id, agentId, now), Mark(s.running, agentId, id), s.events);
        Inv(t) && Later(s.jobs, t.jobs)
  {
    var started := Started(s.jobs[id], now);
    var t := State(s.jobs[id := started], Mark(s.running, agentId, id), s.events);
    QueuedIsChildless(s.jobs, id);
    ChildChanges(s, id, started, t, {});
    TableAfterClaim(s, t, agentId, id);
  }

  lemma TableAfterClaim(s: State, t: State, agentId: Id, id: Id)
    requires TableAgrees(s, {}) && id in s.jobs && s.jobs[id].agentId == agentId
    requires forall c | c in s.jobs :: s.jobs[c].parentId != id
    requires Later(s.jobs, t.jobs) && t.jobs == s.jobs[id := t.jobs[id]] && t.jobs[id].status == Running
    requires t.running == Mark(s.running, agentId, id)
    ensures TableAgrees(t, {})
  {
    EntriesAfterClaim(s, t, agentId, id);
  }

  lemma EntriesAfterClaim(s: State, t: State, agentId: Id, id: Id)
    requires EntriesOk(s.jobs, s.running) && id in s.jobs && s.jobs[id].agentId == agentId
    requires id in t.jobs && t.jobs == s.jobs[id := t.jobs[id]]
    requires SameJob(s.jobs[id], t.jobs[id]) && t.jobs[id].status == Running
    requires t.running == Mark(s.running, agentId, id)
    ensures EntriesOk(t.jobs, t.running)
  {
    forall a, k | k in Inflight(t.running, a) ensures TableEntry(t.jobs, a, k) {
      if k != id || a != agentId {
        assert k in Inflight(s.running, a) && TableEntry(s.jobs, a, k);
      }
    }
  }

  lemma QueuedIsChildless(jobs: JobMap, id: Id)
    requires Family(jobs) && id in jobs && (jobs[id].status == Queued || jobs[id].agentId != NoId || jobs[id].parentId != NoId)
    ensures Children(jobs, id) == {}
    ensures forall c | c in jobs :: jobs[c].parentId != id
  {
    forall c | c in jobs ensures jobs[c].parentId != id {
      assert jobs[c].parentId != NoId ==> ParentShape(jobs, jobs[c].parentId);
    }
  }

  lemma {:induction false} DispatchAllKeeps(s: State, agentId: Id, listing: seq<Job>, now: Time)
    requires Inv(s)
    ensures var t := DispatchAll(s, agentId, listing, now);
        && Inv(t) && Later(s.jobs, t.jobs)
        && (forall a | a != agentId :: Inflight(t.running, a) == Inflight(s.running, a))
        && |Inflight(t.running, agentId)| <= |Inflight(s.running, agentId)| + |listing|
  {
    if listing != [] {
      var n := |listing| - 1;
      var mid := DispatchAll(s, agentId, listing[..n], now);
      DispatchAllKeeps(s, agentId, listing[..n], now);
      DispatchKeeps(mid, agentId, listing[n], now);
      var t := DispatchAll(s, agentId, listing, now);
      LaterChains(s.jobs, mid.jobs, t.jobs);
      GrowsByOne(Inflight(mid.running, agentId), Inflight(t.running, agentId), listing[n].id);
    }
  }

  lemma GrowsByOne(small: set<Id>, big: set<Id>, id: Id)
    requires big <= small + {id}
    ensures |big| <= |small| + 1
  {
    assert big - {id} <= small;
    SubsetSize(big - {id}, small);
    assert big <= (big - {id}) + {id};
    SubsetSize(big, (big - {id}) + {id});
  }

  lemma {:induction false} SubsetSize(a: set<Id>, b: set<Id>)
    requires a <= b
    ensures |a| <= |b|
  {
    if x :| x in a {
      SubsetSize(a - {x}, b - {x});
    }
  }

  predicate Lists(ids: seq<Id>, all: set<Id>) {
    (forall i | 0 <= i < |ids| :: ids[i] in all) && forall id | id in all :: id in ids
  }

  function Named(ids: seq<Id>): set<Id> { set id | id in ids }

  lemma NamedSnoc(ids: seq<Id>, pending: set<Id>)
    requires ids != []
    ensures var n := |ids| - 1; pending - Named(ids) == pending - Named(ids[..n]) - {ids[n]}
  {
    var n := |ids| - 1;
    assert ids == ids[..n] + [ids[n]];
  }

  /** `t` is `s` with the jobs in `ids` ended. */
  ghost predicate Ended(s: State, t: State, ids: seq<Id>) {
    && Later(s.jobs, t.jobs) && Shrinks(s.running, t.running)
    && forall id | id in ids && id in s.jobs :: Terminal(t.jobs[id].status)
  }

  lemma {:induction false} FailAllKeeps(s: State, agentId: Id, ids: seq<Id>, msg: string, now: Time, pending: set<Id>)
    requires InvBut(s, NoId, pending) && forall i | 0 <= i < |ids| :: OwnChildless(s.jobs, agentId, ids[i])
    ensures var t := FailAll(s, agentId, ids, msg, now);
        InvBut(t, NoId, pending - Named(ids)) && Ended(s, t, ids)
  {
    if ids == [] {
      assert pending - Named(ids) == pending;
    } else {
      var n := |ids| - 1;
      var mid := FailAll(s, agentId, ids[..n], msg, now);
      FailAllKeeps(s, agentId, ids[..n], msg, now, pending);
      SameChildren(s.jobs, mid.jobs, ids[n]);
      assert OwnChildless(s.jobs, agentId, ids[n]);
      FailJobKeeps(mid, agentId, ids[n], msg, now, pending - Named(ids[..n]));
      NamedSnoc(ids, pending);
      EndedSnoc(s, mid, FailAll(s, agentId, ids, msg, now), ids);
    }
  }

  lemma EndedSnoc(s: State, mid: State, t: State, ids: seq<Id>)
    requires ids != [] && Ended(s, mid, ids[..|ids| - 1]) && Later(mid.jobs, t.jobs) && Shrinks(mid.running, t.running)
    requires ids[|ids| - 1] in mid.jobs ==> Terminal(t.jobs[ids[|ids| - 1]].status)
    ensures Ended(s, t, ids)
  {
    LaterChains(s.jobs, mid.jobs, t.jobs);
    var n := |ids| - 1;
    assert ids == ids[..n] + [ids[n]];
  }

  lemma InflightIsChildless(s: State, agentId: Id, id: Id)
    requires Inv(s) && id in Inflight(s.running, agentId)
    ensures OwnChildless(s.jobs, agentId, id)
  {
    forall c | c in s.jobs ensures s.jobs[c].parentId != id {
      assert s.jobs[c].parentId != NoId ==> ParentShape(s.jobs, s.jobs[c].parentId);
    }
  }

  /** After a disconnect no job of the agent is left running, and its table entry is gone. */
  lemma DisconnectKeeps(s: State, agentId: Id, inflight: seq<Id>, now: Time)
    requires Inv(s) && Lists(inflight, Inflight(s.running, agentId))
    ensures var t := Disconnect(s, agentId, inflight, now);
        && Inv(t) && Later(s.jobs, t.jobs) && Shrinks(s.running, t.running)
        && Inflight(t.running, agentId) == {}
        && (agentId != NoId ==> forall id | id in t.jobs && t.jobs[id].agentId == agentId :: t.jobs[id].status != Running)
  {
    var all := Inflight(s.running, agentId);
    var forgot := s.(running := s.running - {agentId});
    assert InvBut(forgot, NoId, all);
    forall i | 0 <= i < |inflight| ensures OwnChildless(s.jobs, agentId, inflight[i]) {
      InflightIsChildless(s, agentId, inflight[i]);
    }
    FailAllKeeps(forgot, agentId, inflight, "agent disconnected", now, all);
    assert all - Named(inflight) == {};
  }

  // ---- the sweep ----

  lemma ParentsAside(jobs: JobMap, after: JobMap, p: Id, q: Id)
    requires Family(jobs) && Later(jobs, after) && p != NoId && q in jobs && q != p && ParentAgrees(jobs, q)
    requires forall id | id in jobs && jobs[id].parentId != p :: after[id] == jobs[id]
    ensures ParentAgrees(after, q)
  {
    SameChildren(jobs, after, q);
    var kids := Children(jobs, q);
    if kids != {} {
      var kid :| kid in kids;
      assert kid in jobs && ParentShape(jobs, jobs[kid].parentId);
      assert AllTerminal(jobs, kids) <==> AllTerminal(after, kids);
      assert AnySucceeded(jobs, kids) <==> AnySucceeded(after, kids);
    }
  }

  lemma ChildrenLater(s: State, p: Id, now: Time)
    ensures Later(s.jobs, FailChildren(s, p, now).jobs)
    ensures Shrinks(s.running, FailChildren(s, p, now).running)
  {
  }

  lemma TableWithoutChildren(s: State, p: Id, now: Time)
    requires Inv(s) && p != NoId
    ensures TableAgrees(FailChildren(s, p, now), {})
  {
    var t := FailChildren(s, p, now);
    ChildrenLater(s, p, now);
    forall a, k | k in Inflight(t.running, a) ensures TableEntry(t.jobs, a, k) {
      assert k in Inflight(s.running, a) && TableEntry(s.jobs, a, k);
    }
    forall k | k in t.jobs && t.jobs[k].agentId != NoId && t.jobs[k].status == Running
      ensures k in Inflight(t.running, t.jobs[k].agentId)
    {
      assert t.jobs[k] == s.jobs[k];
      assert k in Inflight(s.running, s.jobs[k].agentId);
    }
  }

  lemma NoOpenChildren(s: State, p: Id, now: Time)
    requires AllTerminal(s.jobs, Children(s.jobs, p))
    ensures FailChildren(s, p, now).jobs == s.jobs
  {
    forall id | id in Children(s.jobs, p) ensures TimedOut(s.jobs[id], now) == s.jobs[id] {
    }
  }

  /** Failing the children leaves only their parent to be closed. */
  lemma FailChildrenKeeps(s: State, p: Id, now: Time)
    requires Inv(s) && p in s.jobs && s.jobs[p].parentId == NoId
    ensures var t := FailChildren(s, p, now);
        && InvBut(t, p, {}) && Later(s.jobs, t.jobs) && Shrinks(s.running, t.running)
        && Children(t.jobs, p) == Children(s.jobs, p) && AllTerminal(t.jobs, Children(t.jobs, p))
  {
    var t := FailChildren(s, p, now);
    ChildrenLater(s, p, now);
    TableWithoutChildren(s, p, now);
    SameChildren(s.jobs, t.jobs, p);
    forall q | q in t.jobs && q != p ensures ParentAgrees(t.jobs, q) {
      ParentsAside(s.jobs, t.jobs, p, q);
    }
    if Terminal(s.jobs[p].status) {
      assert ParentAgrees(s.jobs, p);
      NoOpenChildren(s, p, now);
    }
  }

  lemma OverdueIsTimedOut(job: Job, policies: PolicySource, now: Time)
    requires job.agentId == NoId && job.status == Running && Coherent(policies(NoId)) && ParentOverdue(job, policies, now)
    ensures JobTimedOut(job, policies, now)
  {
    TimeoutBounds(job.tool, policies(NoId).runtime);
  }

  predicate Overdue(jobs: JobMap, job: Job, policies: PolicySource, now: Time) {
    (job.agentId != NoId && JobTimedOut(job, policies, now)) || (RunningParent(jobs, job) && ParentOverdue(job, policies, now))
  }

  /** One round, on a possibly stale copy of a job, keeps the invariant, changes no job that has
      ended, and ends the job if the copy is overdue. */
  lemma SweepOneKeeps(s: State, job: Job, policies: PolicySource, now: Time)
    requires Inv(s) && Coherent(policies(NoId)) && job.id in s.jobs && SameJob(job, s.jobs[job.id])
    ensures var t := SweepOne(s, job, policies, now);
        && Inv(t) && Later(s.jobs, t.jobs) && Shrinks(s.running, t.running)
        && (Overdue(s.jobs, job, policies, now) ==> Terminal(t.jobs[job.id].status))
  {
    if RunningParent(s.jobs, job) && ParentOverdue(job, policies, now) {
      OverdueIsTimedOut(job, policies, now);
    }
    if Deferred(s, job, policies, now) {
      CompleteParentKeeps(s, job.id, "", false, now, {});
    } else if JobTimedOut(job, policies, now) {
      if HasFanout(s.jobs, job) {
        var mid := FailChildren(s, job.id, now);
        FailChildrenKeeps(s, job.id, now);
        CompleteParentKeeps(mid, job.id, "job_timeout", true, now, {});
        LaterChains(s.jobs, mid.jobs, SweepOne(s, job, policies, now).jobs);
      } else {
        if job.parentId != NoId || job.agentId != NoId {
          QueuedIsChildless(s.jobs, job.id);
        }
        FailJobKeeps(s, job.agentId, job.id, "job_timeout", now, {});
        assert {} - {job.id} == {};
      }
    }
  }

  predicate FromStore(jobs: JobMap, listing: seq<Job>) {
    forall i | 0 <= i < |listing| :: listing[i].id in jobs && jobs[listing[i].id] == listing[i]
  }

  lemma {:induction false} SweepKeeps(s: State, listing: seq<Job>, policies: PolicySource, now: Time)
    requires Inv(s) && Coherent(policies(NoId)) && FromStore(s.jobs, listing)
    ensures var t := Sweep(s, listing, policies, now);
        Inv(t) && Later(s.jobs, t.jobs) && Shrinks(s.running, t.running)
  {
    if listing != [] {
      var n := |listing| - 1;
      var mid := Sweep(s, listing[..n], policies, now);
      SweepKeeps(s, listing[..n], policies, now);
      SweepOneMore(s, mid, listing[n], policies, now);
    }
  }

  lemma SweepOneMore(s: State, mid: State, job: Job, policies: PolicySource, now: Time)
    requires Inv(mid) && Later(s.jobs, mid.jobs) && Shrinks(s.running, mid.running) && Coherent(policies(NoId))
    requires job.id in s.jobs && s.jobs[job.id] == job
    ensures var t := SweepOne(mid, job, policies, now);
        && Inv(t) && Later(s.jobs, t.jobs) && Shrinks(s.running, t.running)
        && (forall id | id in mid.jobs && Terminal(mid.jobs[id].status) :: Terminal(t.jobs[id].status))
        && (Overdue(s.jobs, job, policies, now) ==> Terminal(t.jobs[job.id].status))
  {
    SameChildren(s.jobs, mid.jobs, job.id);
    SweepOneKeeps(mid, job, policies, now);
    LaterChains(s.jobs, mid.jobs, SweepOne(mid, job, policies, now).jobs);
  }

  lemma SweepSnoc(s: State, listing: seq<Job>, policies: PolicySource, now: Time, k: nat)
    requires k < |listing|
    ensures Sweep(s, listing[..k + 1], policies, now) == SweepOne(Sweep(s, listing[..k], policies, now), listing[k], policies, now)
  {
    assert listing[..k + 1][..k] == listing[..k];
  }

  lemma {:induction false} SweepPrefix(s: State, listing: seq<Job>, policies: PolicySource, now: Time, k: nat)
    requires Inv(s) && Coherent(policies(NoId)) && FromStore(s.jobs, listing) && k <= |listing|
    ensures Later(Sweep(s, listing[..k], policies, now).jobs, Sweep(s, listing, policies, now).jobs)
    decreases |listing| - k
  {
    if k == |listing| {
      assert listing[..k] == listing;
    } else {
      SweepPrefix(s, listing, policies, now, k + 1);
      SweepNext(s, listing, policies, now, k);
      LaterChains(Sweep(s, listing[..k], policies, now).jobs, Sweep(s, listing[..k + 1], policies, now).jobs,
                  Sweep(s, listing, policies, now).jobs);
    }
  }

  lemma SweepNext(s: State, listing: seq<Job>, policies: PolicySource, now: Time, k: nat)
    requires Inv(s) && Coherent(policies(NoId)) && FromStore(s.jobs, listing) && k < |listing|
    ensures Later(Sweep(s, listing[..k], policies, now).jobs, Sweep(s, listing[..k + 1], policies, now).jobs)
  {
    var mid := Sweep(s, listing[..k], policies, now);
    SweepKeeps(s, listing[..k], policies, now);
    SweepSnoc(s, listing, policies, now, k);
    SweepOneKeeps(mid, listing[k], policies, now);
  }

  lemma SweepEnds(s: State, listing: seq<Job>, policies: PolicySource, now: Time, k: nat)
    requires Inv(s) && Coherent(policies(NoId)) && FromStore(s.jobs, listing)
    requires k < |listing| && Overdue(s.jobs, listing[k], policies, now)
    ensures var t := Sweep(s, listing, policies, now);
        listing[k].id in t.jobs && Terminal(t.jobs[listing[k].id].status)
  {
    SweepKeeps(s, listing[..k], policies, now);
    SweepSnoc(s, listing, policies, now, k);
    SweepOneMore(s, Sweep(s, listing[..k], policies, now), listing[k], policies, now);
    SweepPrefix(s, listing, policies, now, k + 1);
  }

  /** The list a sweep works from holds every active job. */
  predicate SawAllActive(jobs: JobMap, listing: seq<Job>) {
    forall id | id in jobs && !Terminal(jobs[id].status) :: jobs[id] in listing
  }

  /** A sweep that saw all active jobs leaves terminal every agent's job past its timeout and
      every fan-out parent past the overall timeout, and never changes a job that had ended. */
  lemma SweepEndsOverdueJobs(s: State, listing: seq<Job>, policies: PolicySource, now: Time)
    requires Inv(s) && Coherent(policies(NoId)) && FromStore(s.jobs, listing) && SawAllActive(s.jobs, listing)
    ensures var t := Sweep(s, listing, policies, now);
        && t.jobs.Keys == s.jobs.Keys
        && (forall id | id in s.jobs && s.jobs[id].agentId != NoId && JobTimedOut(s.jobs[id], policies, now) ::
              Terminal(t.jobs[id].status))
        && (forall id | id in s.jobs && Children(s.jobs, id) != {} && ParentOverdue(s.jobs[id], policies, now) ::
              Terminal(t.jobs[id].status))
        && (forall id | id in s.jobs && Terminal(s.jobs[id].status) :: t.jobs[id] == s.jobs[id])
  {
    SweepKeeps(s, listing, policies, now);
    forall id | id in s.jobs && s.jobs[id].agentId != NoId && JobTimedOut(s.jobs[id], policies, now)
      ensures Terminal(Sweep(s, listing, policies, now).jobs[id].status)
    {
      OverdueJobEnds(s, listing, policies, now, id);
    }
    forall id | id in s.jobs && Children(s.jobs, id) != {} && ParentOverdue(s.jobs[id], policies, now)
      ensures Terminal(Sweep(s, listing, policies, now).jobs[id].status)
    {
      if !Terminal(s.jobs[id].status) {
        OpenParentRuns(s.jobs, id);
      }
      OverdueJobEnds(s, listing, policies, now, id);
    }
  }

  lemma OpenParentRuns(jobs: JobMap, id: Id)
    requires Family(jobs) && id in jobs && Children(jobs, id) != {} && !Terminal(jobs[id].status)
    ensures RunningParent(jobs, jobs[id])
  {
    var kid :| kid in Children(jobs, id);
    assert ParentShape(jobs, jobs[kid].parentId);
  }

  lemma OverdueJobEnds(s: State, listing: seq<Job>, policies: PolicySource, now: Time, id: Id)
    requires Inv(s) && Coherent(policies(NoId)) && FromStore(s.jobs, listing) && SawAllActive(s.jobs, listing)
    requires id in s.jobs && (Terminal(s.jobs[id].status) || Overdue(s.jobs, s.jobs[id], policies, now))
    ensures var t := Sweep(s, listing, policies, now); id in t.jobs && Terminal(t.jobs[id].status)
  {
    if Terminal(s.jobs[id].status) {
      SweepKeeps(s, listing, policies, now);
    } else {
      var i :| 0 <= i < |listing| && listing[i] == s.jobs[id];
      SweepEnds(s, listing, policies, now, i);
    }
  }
}
