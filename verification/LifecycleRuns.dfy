/** Closing messages: what the event stream of a top-level job says about its end. */
module LifecycleEvents {
  import opened Text
  import opened Model
  import opened Jobs
  import opened Lifecycle

  predicate Closing(e: Event) {
    e.Progress? && (e.message == "completed" || e.message == "failed" || e.message == "canceled")
  }

  /** The closing messages of a stream, in order. */
  function Closings(es: seq<Event>): seq<string> {
    if es == [] then []
    else
      var init := Closings(es[..|es| - 1]);
      var last := es[|es| - 1];
      if Closing(last) then init + [last.message] else init
  }

  /** What a stream ought to say: nothing while the job is open, its outcome once it has ended. */
  function Verdict(job: Job): seq<string> { if Terminal(job.status) then [ProgressMessage(job.status)] else [] }

  /** Every top-level stream, those of `silent` jobs aside, carries exactly the verdict. */
  ghost predicate Told(s: State, silent: set<Id>) {
    && (forall id | id in s.events :: id in s.jobs)
    && (forall id | id in s.jobs && s.jobs[id].parentId == NoId && id !in silent :: TellsAt(s, id))
    && (forall id | id in silent :: id in s.jobs && Terminal(s.jobs[id].status))
  }

  ghost predicate TellsAt(s: State, id: Id)
    requires id in s.jobs
  {
    Closings(EventsOf(s.events, id)) == Verdict(s.jobs[id])
  }

  lemma ClosingsAppend(es: seq<Event>, e: Event)
    ensures Closings(es + [e]) == Closings(es) + (if Closing(e) then [e.message] else [])
  {
    assert (es + [e])[..|es|] == es;
  }

  lemma QuietEvent(s: State, id: Id, e: Event, silent: set<Id>)
    requires Told(s, silent) && !Closing(e)
    ensures Told(AddEvent(s, id, e), silent)
  {
    var t := AddEvent(s, id, e);
    ClosingsAppend(EventsOf(s.events, id), e);
    forall k | k in t.jobs && t.jobs[k].parentId == NoId && k !in silent ensures TellsAt(t, k) {
      assert TellsAt(s, k);
    }
  }

  /** An open top-level job ends, with quiet events before its closing message. */
  lemma JobCloses(s: State, id: Id, job: Job, t: State, silent: set<Id>)
    requires Told(s, silent) && id in s.jobs && s.jobs[id].parentId == NoId && !Terminal(s.jobs[id].status)
    requires SameJob(s.jobs[id], job) && (job.status == Succeeded || job.status == Failed) && t.jobs == s.jobs[id := job]
    requires Closings(EventsOf(t.events, id)) == [] && t.events.Keys <= s.events.Keys + {id}
    requires forall k | k in s.events && k != id :: k in t.events && t.events[k] == s.events[k]
    ensures Told(AddEvent(t, id, Progress(ProgressMessage(job.status))), silent)
  {
    var closing := Progress(ProgressMessage(job.status));
    var done := AddEvent(t, id, closing);
    ClosingsAppend(EventsOf(t.events, id), closing);
    forall k | k in done.jobs && done.jobs[k].parentId == NoId && k !in silent ensures TellsAt(done, k) {
      if k != id {
        assert TellsAt(s, k);
        assert EventsOf(done.events, k) == EventsOf(s.events, k);
      }
    }
  }

  lemma OpenStreamQuiet(s: State, id: Id, e: Event, silent: set<Id>)
    requires Told(s, silent) && id in s.jobs && s.jobs[id].parentId == NoId && !Terminal(s.jobs[id].status) && !Closing(e)
    ensures Closings(EventsOf(s.events, id)) == [] && Closings(EventsOf(s.events, id) + [e]) == []
  {
    assert TellsAt(s, id);
    ClosingsAppend(EventsOf(s.events, id), e);
  }

  lemma CompleteParentTells(s: State, id: Id, failureMsg: string, emitFailure: bool, now: Time, silent: set<Id>)
    requires Told(s, silent) && Family(s.jobs)
    ensures Told(CompleteParent(s, id, failureMsg, emitFailure, now), silent)
  {
    if id in s.jobs && !Terminal(s.jobs[id].status) && Children(s.jobs, id) != {} && AllTerminal(s.jobs, Children(s.jobs, id)) {
      var kid :| kid in Children(s.jobs, id);
      assert ParentShape(s.jobs, s.jobs[kid].parentId);
      var status := if AnySucceeded(s.jobs, Children(s.jobs, id)) then Succeeded else Failed;
      var msg := if status == Succeeded then "" else if failureMsg == "" then "one or more fanout jobs failed" else failureMsg;
      var job := WithStatus(s.jobs[id], status, msg, now);
      var closed := s.(jobs := s.jobs[id := job]);
      var told := if status == Failed && emitFailure && msg != "" then AddEvent(closed, id, Message(NoId, msg)) else closed;
      OpenStreamQuiet(s, id, Message(NoId, msg), silent);
      JobCloses(s, id, job, told, silent);
    }
  }

  lemma ChildStatusAside(s: State, t: State, silent: set<Id>)
    requires Told(s, silent) && Later(s.jobs, t.jobs) && t.events == s.events
    requires forall id | id in s.jobs && s.jobs[id].parentId == NoId && id !in silent :: t.jobs[id].status == s.jobs[id].status
    ensures Told(t, silent)
  {
    forall id | id in t.jobs && t.jobs[id].parentId == NoId && id !in silent ensures TellsAt(t, id) {
      assert TellsAt(s, id);
    }
  }

  lemma FailJobTells(s: State, agentId: Id, id: Id, msg: string, now: Time, silent: set<Id>)
    requires Told(s, silent) && Family(s.jobs)
    ensures Told(FailJob(s, agentId, id, msg, now), silent)
  {
    var cleared := s.(running := Release(s.running, agentId, id));
    ChildStatusAside(s, cleared, silent);
    if id in s.jobs && !Terminal(s.jobs[id].status) {
      if s.jobs[id].parentId != NoId {
        ChildFailTells(cleared, agentId, id, msg, now, silent);
      } else {
        TopLevelFailTells(cleared, agentId, id, msg, now, silent);
      }
    }
  }

  lemma ChildFailTells(s: State, agentId: Id, id: Id, msg: string, now: Time, silent: set<Id>)
    requires Told(s, silent) && Family(s.jobs) && id in s.jobs && !Terminal(s.jobs[id].status) && s.jobs[id].parentId != NoId
    ensures var job := WithStatus(s.jobs[id], Failed, msg, now);
        var told := AddEvent(s.(jobs := s.jobs[id := job]), job.parentId, Message(agentId, msg));
        Told(CompleteParent(told, job.parentId, "", false, now), silent)
  {
    var job := WithStatus(s.jobs[id], Failed, msg, now);
    var failed := s.(jobs := s.jobs[id := job]);
    ChildEndTells(s, id, job, failed, silent);
    QuietEvent(failed, job.parentId, Message(agentId, msg), silent);
    CompleteParentTells(AddEvent(failed, job.parentId, Message(agentId, msg)), job.parentId, "", false, now, silent);
  }

  lemma TopLevelFailTells(s: State, agentId: Id, id: Id, msg: string, now: Time, silent: set<Id>)
    requires Told(s, silent) && Keyed(s.jobs) && id in s.jobs && !Terminal(s.jobs[id].status) && s.jobs[id].parentId == NoId
    ensures var job := WithStatus(s.jobs[id], Failed, msg, now);
        var told := AddEvent(s.(jobs := s.jobs[id := job]), id, Message(agentId, msg));
        Told(AddEvent(told, id, Progress("failed")), silent)
  {
    var job := WithStatus(s.jobs[id], Failed, msg, now);
    ClosesAfter(s, id, job, Message(agentId, msg), silent);
  }

  /** An open top-level job ends with one quiet event before its closing message. */
  lemma ClosesAfter(s: State, id: Id, job: Job, e: Event, silent: set<Id>)
    requires Told(s, silent) && id in s.jobs && s.jobs[id].parentId == NoId && !Terminal(s.jobs[id].status) && !Closing(e)
    requires SameJob(s.jobs[id], job) && (job.status == Succeeded || job.status == Failed)
    ensures Told(AddEvent(AddEvent(s.(jobs := s.jobs[id := job]), id, e), id, Progress(ProgressMessage(job.status))), silent)
  {
    var told := AddEvent(s.(jobs := s.jobs[id := job]), id, e);
    OpenStreamQuiet(s, id, e, silent);
    assert EventsOf(told.events, id) == EventsOf(s.events, id) + [e];
    JobCloses(s, id, job, told, silent);
  }

  lemma ChildEndTells(s: State, id: Id, job: Job, t: State, silent: set<Id>)
    requires Told(s, silent) && Family(s.jobs) && id in s.jobs && !Terminal(s.jobs[id].status) && s.jobs[id].parentId != NoId
    requires SameJob(s.jobs[id], job) && Terminal(job.status) && t.jobs == s.jobs[id := job] && t.events == s.events
    ensures Told(t, silent) && Family(t.jobs)
  {
    OneJobLater(s.jobs, id, job);
    ChildStatusAside(s, t, silent);
    forall c | c in t.jobs && t.jobs[c].parentId != NoId ensures ParentShape(t.jobs, t.jobs[c].parentId) {
      assert ParentShape(s.jobs, s.jobs[c].parentId);
    }
  }

  lemma HandleResultTells(s: State, agentId: Id, id: Id, wire: Wire, now: Time, silent: set<Id>)
    requires Told(s, silent) && Family(s.jobs)
    ensures Told(HandleResult(s, agentId, id, wire, now), silent)
  {
    if id !in s.jobs || !AgentOwnsJob(s, agentId, s.jobs[id]) || Terminal(s.jobs[id].status) || wire.Malformed?
       || StreamOf(s.jobs[id]) !in s.jobs {
      return;
    }
    var told := AddEvent(s, StreamOf(s.jobs[id]), FromAgent(agentId, wire));
    QuietEvent(s, StreamOf(s.jobs[id]), FromAgent(agentId, wire), silent);
    if wire.Summary? {
      var status := if wire.exitCode == 0 then Succeeded else Failed;
      var job := WithStatus(s.jobs[id], status, if wire.exitCode == 0 then "" else FailureType(wire.status), now);
      var done := told.(running := Clear(s.running, agentId, id), jobs := s.jobs[id := job]);
      if job.parentId != NoId {
        ChildEndTells(told, id, job, done, silent);
        CompleteParentTells(done, job.parentId, "", false, now, silent);
      } else {
        OpenStreamQuiet(told, id, FromAgent(agentId, wire), silent);
        JobCloses(told, id, job, done, silent);
      }
    }
  }

  lemma DispatchTells(s: State, agentId: Id, job: Job, now: Time, silent: set<Id>)
    requires Told(s, silent)
    ensures Told(Dispatch(s, agentId, job, now), silent)
  {
    if CanClaim(s.jobs, job.id, agentId) {
      var claimed := s.(jobs := Claim(s.jobs, job.id, agentId, now), running := Mark(s.running, agentId, job.id));
      forall k | k in claimed.jobs && claimed.jobs[k].parentId == NoId && k !in silent ensures TellsAt(claimed, k) {
        assert TellsAt(s, k);
      }
      if job.parentId == NoId {
        QuietEvent(claimed, StreamOf(claimed.jobs[job.id]), Progress("started"), silent);
      }
    }
  }
}

/** Whole runs of the protocol, one handler as one step. */
module LifecycleRuns {
  import opened Text
  import opened Model
  import opened Runtimes
  import opened Policies
  import opened Jobs
  import opened Lifecycle
  import opened LifecycleEvents

  datatype Step =
    | CreatePinned(job: Job)
    | CreateRefused(job: Job)
    | CreateFanout(parent: Job, children: seq<Job>)
    | CreateScheduled(batch: seq<Job>)
    | Connect(agentId: Id)
    | Poll(agentId: Id, limit: int, caps: set<Tool>, protocols: ProtocolMask, listing: seq<Job>, sent: nat, now: Time)
    | Result(agentId: Id, id: Id, wire: Wire, now: Time)
    | Fail(agentId: Id, id: Id, msg: string, now: Time)
    | Hangup(agentId: Id, inflight: seq<Id>, now: Time)
    | Timeouts(listing: seq<Job>, policies: PolicySource, now: Time)

  /** A new top-level job for an agent. */
  predicate NewTopLevel(job: Job) { job.parentId == NoId && job.status == Queued && job.startedAt.None? }

  predicate NewFanout(parent: Job, children: seq<Job>) {
    && parent.parentId == NoId && parent.agentId == NoId && parent.status == Running && parent.startedAt.Some?
    && children != []
    && forall i | 0 <= i < |children| ::
         children[i].parentId == parent.id && children[i].status == Queued && children[i].startedAt.None?
  }

  function Remaining(s: State, agentId: Id, limit: int): int { limit - |Inflight(s.running, agentId)| }

  /** When a step can be taken. Lists handed to a handler come from the store: in any order the
      store may produce, cut at its limit; an agent's failure report is about its own job. */
  ghost predicate Enabled(s: State, step: Step) {
    match step
    case CreatePinned(job) => FreshBatch(s.jobs, [job]) && NewTopLevel(job) && job.agentId != NoId
    case CreateRefused(job) => FreshBatch(s.jobs, [job]) && job.parentId == NoId && job.agentId != NoId && job.status == Failed
    case CreateFanout(parent, children) => FreshBatch(s.jobs, [parent] + children) && NewFanout(parent, children)
    case CreateScheduled(batch) => FreshBatch(s.jobs, batch) && forall i | 0 <= i < |batch| :: NewTopLevel(batch[i])
    case Connect(_) => true
    case Poll(a, limit, caps, protocols, listing, sent, _) =>
      && sent <= |listing|
      && (Remaining(s, a, limit) > 0 ==> Listing(s.jobs, QueuedIds(s.jobs, a, caps, protocols), Remaining(s, a, limit), listing))
    case Result(_, _, _, _) => true
    case Fail(a, id, _, _) => a != NoId && (id in s.jobs ==> s.jobs[id].agentId == a)
    case Hangup(a, inflight, _) => Lists(inflight, Inflight(s.running, a))
    case Timeouts(listing, policies, _) => Listing(s.jobs, ActiveIds(s.jobs), 200, listing) && Coherent(policies(NoId))
  }

  function Take(s: State, step: Step): State {
    match step
    case CreatePinned(job) => s.(jobs := Insert(s.jobs, [job]))
    case CreateRefused(job) => AddEvent(s.(jobs := Insert(s.jobs, [job])), job.id, Message(job.agentId, job.error))
    case CreateFanout(parent, children) =>
      AddEvent(s.(jobs := Insert(s.jobs, [parent] + children)), parent.id, Progress("started"))
    case CreateScheduled(batch) => s.(jobs := Insert(s.jobs, batch))
    case Connect(a) => s.(running := s.running[a := Inflight(s.running, a)])
    case Poll(a, limit, _, _, listing, sent, now) =>
      if Remaining(s, a, limit) <= 0 || sent > |listing| then s else DispatchAll(s, a, listing[..sent], now)
    case Result(a, id, wire, now) => HandleResult(s, a, id, wire, now)
    case Fail(a, id, msg, now) => FailJob(s, a, id, msg, now)
    case Hangup(a, inflight, now) => Disconnect(s, a, inflight, now)
    case Timeouts(listing, policies, now) => Sweep(s, listing, policies, now)
  }

  const START := State(map[], map[], map[])

  function After(steps: seq<Step>): State {
    if steps == [] then START else Take(After(steps[..|steps| - 1]), steps[|steps| - 1])
  }

  ghost predicate Legal(steps: seq<Step>) {
    forall k | 0 <= k < |steps| :: Enabled(After(steps[..k]), steps[k])
  }

  // ---- creating jobs ----

  lemma NewSinglesKeep(s: State, batch: seq<Job>)
    requires Inv(s) && FreshBatch(s.jobs, batch)
    requires forall i | 0 <= i < |batch| :: batch[i].parentId == NoId && batch[i].status != Running
    ensures Inv(s.(jobs := Insert(s.jobs, batch)))
  {
    var t := s.(jobs := Insert(s.jobs, batch));
    SinglesFamily(s.jobs, batch);
    forall p | p in t.jobs ensures p != NoId && ParentAgrees(t.jobs, p) {
      assert p in s.jobs && p != NoId ==> ParentAgrees(s.jobs, p);
      NewSinglesChildless(s.jobs, batch, p);
    }
    SinglesTable(s, batch);
  }

  lemma SinglesFamily(jobs: JobMap, batch: seq<Job>)
    requires Family(jobs) && FreshBatch(jobs, batch)
    requires forall i | 0 <= i < |batch| :: batch[i].parentId == NoId
    ensures Family(Insert(jobs, batch))
  {
    var after := Insert(jobs, batch);
    InsertFresh(jobs, batch);
    forall c | c in after && after[c].parentId != NoId ensures ParentShape(after, after[c].parentId) {
      assert c in jobs && ParentShape(jobs, jobs[c].parentId);
    }
  }

  lemma SinglesTable(s: State, batch: seq<Job>)
    requires Keyed(s.jobs) && TableAgrees(s, {}) && FreshBatch(s.jobs, batch)
    requires forall i | 0 <= i < |batch| :: batch[i].parentId == NoId && batch[i].status != Running
    ensures TableAgrees(s.(jobs := Insert(s.jobs, batch)), {})
  {
    var jobs := Insert(s.jobs, batch);
    SinglesExtend(s.jobs, batch);
    TableExtends(s, jobs);
  }

  lemma SinglesExtend(jobs: JobMap, batch: seq<Job>)
    requires FreshBatch(jobs, batch)
    requires forall i | 0 <= i < |batch| :: batch[i].status != Running && batch[i].parentId == NoId
    ensures var after := Insert(jobs, batch);
        && (forall id | id in jobs :: id in after && after[id] == jobs[id])
        && (forall id | id in after && id !in jobs :: after[id].status != Running && after[id].parentId == NoId)
  {
    InsertFresh(jobs, batch);
  }

  lemma TableExtends(s: State, jobs: JobMap)
    requires TableAgrees(s, {})
    requires forall id | id in s.jobs :: id in jobs && jobs[id] == s.jobs[id]
    requires forall id | id in jobs && id !in s.jobs :: jobs[id].status != Running || jobs[id].agentId == NoId
    requires forall id | id in jobs && id !in s.jobs && jobs[id].parentId != NoId :: jobs[id].parentId !in s.jobs
    ensures TableAgrees(s.(jobs := jobs), {})
  {
  }

  lemma NewSinglesChildless(jobs: JobMap, batch: seq<Job>, p: Id)
    requires Family(jobs) && FreshBatch(jobs, batch) && p != NoId && (p in jobs ==> ParentAgrees(jobs, p))
    requires forall i | 0 <= i < |batch| :: batch[i].parentId == NoId
    ensures Children(Insert(jobs, batch), p) == Children(jobs, p)
    ensures p !in jobs ==> Children(jobs, p) == {}
    ensures p in Insert(jobs, batch) ==> ParentAgrees(Insert(jobs, batch), p)
  {
    var after := Insert(jobs, batch);
    InsertFresh(jobs, batch);
    var kids := Children(jobs, p);
    assert Children(after, p) == kids;
    if p !in jobs {
      forall c | c in jobs ensures jobs[c].parentId != p {
        assert jobs[c].parentId != NoId ==> ParentShape(jobs, jobs[c].parentId);
      }
    } else {
      assert AllTerminal(jobs, kids) <==> AllTerminal(after, kids);
      assert AnySucceeded(jobs, kids) <==> AnySucceeded(after, kids);
    }
  }

  lemma FanoutChildren(jobs: JobMap, parent: Job, children: seq<Job>, p: Id)
    requires Family(jobs) && FreshBatch(jobs, [parent] + children) && NewFanout(parent, children) && p != NoId
    ensures var after := Insert(jobs, [parent] + children);
        && (p != parent.id ==> Children(after, p) == Children(jobs, p))
        && (p !in jobs ==> Children(jobs, p) == {})
        && children[0].id in Children(after, parent.id)
  {
    var batch := [parent] + children;
    InsertFresh(jobs, batch);
    assert batch[1] == children[0];
    forall c | c in jobs ensures jobs[c].parentId != NoId ==> ParentShape(jobs, jobs[c].parentId) {
    }
    forall i | 0 <= i < |batch| ensures batch[i].parentId == NoId || batch[i].parentId == parent.id {
      if i > 0 {
        assert batch[i] == children[i - 1];
      }
    }
  }

  lemma FanoutParents(s: State, parent: Job, children: seq<Job>, p: Id)
    requires Inv(s) && FreshBatch(s.jobs, [parent] + children) && NewFanout(parent, children)
    requires p in Insert(s.jobs, [parent] + children) && p != NoId
    ensures ParentAgrees(Insert(s.jobs, [parent] + children), p)
  {
    var after := Insert(s.jobs, [parent] + children);
    InsertFresh(s.jobs, [parent] + children);
    FanoutChildren(s.jobs, parent, children, p);
    if p == parent.id {
      assert ([parent] + children)[0] == parent && ([parent] + children)[1] == children[0];
      assert !AllTerminal(after, Children(after, p));
    } else if p in s.jobs {
      var kids := Children(s.jobs, p);
      assert AllTerminal(s.jobs, kids) <==> AllTerminal(after, kids);
      assert AnySucceeded(s.jobs, kids) <==> AnySucceeded(after, kids);
    }
  }

  lemma NewFanoutKeeps(s: State, parent: Job, children: seq<Job>)
    requires Inv(s) && FreshBatch(s.jobs, [parent] + children) && NewFanout(parent, children)
    ensures Inv(s.(jobs := Insert(s.jobs, [parent] + children)))
  {
    var batch := [parent] + children;
    var jobs := Insert(s.jobs, batch);
    FanoutFamily(s.jobs, parent, children);
    FanoutExtends(s.jobs, parent, children);
    TableExtends(s, jobs);
    forall p | p in jobs ensures p != NoId && ParentAgrees(jobs, p) {
      FanoutParents(s, parent, children, p);
    }
  }

  lemma FanoutExtends(jobs: JobMap, parent: Job, children: seq<Job>)
    requires FreshBatch(jobs, [parent] + children) && NewFanout(parent, children)
    ensures var after := Insert(jobs, [parent] + children);
        && (forall id | id in jobs :: id in after && after[id] == jobs[id])
        && (forall id | id in after && id !in jobs :: after[id].status != Running || after[id].agentId == NoId)
        && (forall id | id in after && id !in jobs && after[id].parentId != NoId :: after[id].parentId !in jobs)
  {
    var batch := [parent] + children;
    InsertFresh(jobs, batch);
    assert batch[0] == parent;
    forall i | 0 < i < |batch| ensures batch[i] == children[i - 1] {
    }
  }

  lemma FanoutFamily(jobs: JobMap, parent: Job, children: seq<Job>)
    requires Family(jobs) && FreshBatch(jobs, [parent] + children) && NewFanout(parent, children)
    ensures Family(Insert(jobs, [parent] + children))
  {
    var batch := [parent] + children;
    var after := Insert(jobs, batch);
    InsertFresh(jobs, batch);
    assert batch[0] == parent && after[parent.id] == parent;
    forall c | c in after && after[c].parentId != NoId ensures ParentShape(after, after[c].parentId) {
      if c in jobs {
        assert ParentShape(jobs, jobs[c].parentId);
      } else {
        var i :| 0 <= i < |batch| && batch[i].id == c;
        assert i > 0 ==> batch[i] == children[i - 1];
      }
    }
  }

  // ---- every step, every run ----

  predicate Creates(step: Step) {
    step.CreatePinned? || step.CreateRefused? || step.CreateFanout? || step.CreateScheduled?
  }

  lemma CreationKeeps(s: State, step: Step)
    requires Inv(s) && Enabled(s, step) && Creates(step)
    ensures Inv(Take(s, step))
  {
    match step
    case CreatePinned(job) => NewSinglesKeep(s, [job]);
    case CreateRefused(job) =>
      NewSinglesKeep(s, [job]);
      EventsAside(s.(jobs := Insert(s.jobs, [job])), Take(s, step), NoId, {});
    case CreateFanout(parent, children) =>
      NewFanoutKeeps(s, parent, children);
      EventsAside(s.(jobs := Insert(s.jobs, [parent] + children)), Take(s, step), NoId, {});
    case CreateScheduled(batch) => NewSinglesKeep(s, batch);
  }

  lemma ReportKeeps(s: State, agentId: Id, id: Id, msg: string, now: Time)
    requires Inv(s) && Enabled(s, Fail(agentId, id, msg, now))
    ensures Inv(FailJob(s, agentId, id, msg, now)) && Shrinks(s.running, FailJob(s, agentId, id, msg, now).running)
  {
    if id in s.jobs {
      QueuedIsChildless(s.jobs, id);
    }
    FailJobKeeps(s, agentId, id, msg, now, {});
    assert {} - {id} == {};
  }

  /** Every handler keeps the invariant. */
  lemma StepKeeps(s: State, step: Step)
    requires Inv(s) && Enabled(s, step)
    ensures Inv(Take(s, step))
  {
    if Creates(step) {
      CreationKeeps(s, step);
    } else {
      match step
      case Connect(_) =>
      case Poll(a, _, _, _, listing, sent, now) => DispatchAllKeeps(s, a, listing[..sent], now);
      case Result(a, id, wire, now) => HandleResultKeeps(s, a, id, wire, now);
      case Fail(a, id, msg, now) => ReportKeeps(s, a, id, msg, now);
      case Hangup(a, inflight, now) => DisconnectKeeps(s, a, inflight, now);
      case Timeouts(listing, policies, now) => SweepKeeps(s, listing, policies, now);
    }
  }

  lemma LegalPrefix(steps: seq<Step>)
    requires Legal(steps) && steps != []
    ensures Legal(steps[..|steps| - 1]) && Enabled(After(steps[..|steps| - 1]), steps[|steps| - 1])
  {
    var n := |steps| - 1;
    forall k | 0 <= k < n ensures Enabled(After(steps[..n][..k]), steps[..n][k]) {
      assert steps[..n][..k] == steps[..k];
      assert Enabled(After(steps[..k]), steps[k]);
    }
  }

  /** The invariant holds in every reachable state. */
  lemma {:induction false} ReachableInv(steps: seq<Step>)
    requires Legal(steps)
    ensures Inv(After(steps))
  {
    if steps != [] {
      LegalPrefix(steps);
      ReachableInv(steps[..|steps| - 1]);
      StepKeeps(After(steps[..|steps| - 1]), steps[|steps| - 1]);
    }
  }

  /** In every reachable state the in-flight entry of a non-empty agent ID is exactly the set of
      that agent's running jobs. */
  lemma InflightIsRunning(steps: seq<Step>, agentId: Id)
    requires Legal(steps) && agentId != NoId
    ensures var s := After(steps);
        Inflight(s.running, agentId) == RunningJobs(s.jobs, agentId)
  {
    ReachableInv(steps);
    TableIsExact(After(steps), agentId);
  }

  function RunningJobs(jobs: JobMap, agentId: Id): set<Id> {
    set id | id in jobs && jobs[id].agentId == agentId && jobs[id].status == Running
  }

  lemma TableIsExact(s: State, agentId: Id)
    requires TableAgrees(s, {}) && agentId != NoId
    ensures Inflight(s.running, agentId) == RunningJobs(s.jobs, agentId)
  {
    forall id | id in Inflight(s.running, agentId) ensures id in RunningJobs(s.jobs, agentId) {
      assert TableEntry(s.jobs, agentId, id);
    }
  }

  /** In every reachable state a fan-out parent is terminal exactly when all its children are, and
      a terminal parent has succeeded exactly when some child has. */
  lemma ParentsAgree(steps: seq<Step>, p: Id)
    requires Legal(steps) && p in After(steps).jobs && Children(After(steps).jobs, p) != {}
    ensures var jobs := After(steps).jobs; var kids := Children(jobs, p);
        && (Terminal(jobs[p].status) <==> forall c | c in kids :: Terminal(jobs[c].status))
        && (Terminal(jobs[p].status) ==> (jobs[p].status == Succeeded <==> exists c | c in kids :: jobs[c].status == Succeeded))
  {
    ReachableInv(steps);
    var jobs := After(steps).jobs;
    assert p != NoId && ParentAgrees(jobs, p);
    var kids := Children(jobs, p);
    assert AllTerminal(jobs, kids) <==> forall c | c in kids :: Terminal(jobs[c].status);
    assert AnySucceeded(jobs, kids) <==> exists c | c in kids :: jobs[c].status == Succeeded;
  }

  /** After the connection of an agent has ended, none of its jobs is left running. */
  lemma HangupLeavesNoneRunning(steps: seq<Step>, agentId: Id, inflight: seq<Id>, now: Time)
    requires Legal(steps + [Hangup(agentId, inflight, now)]) && agentId != NoId
    ensures var s := After(steps + [Hangup(agentId, inflight, now)]);
        && Inflight(s.running, agentId) == {}
        && forall id | id in s.jobs && s.jobs[id].agentId == agentId :: s.jobs[id].status != Running
  {
    var all := steps + [Hangup(agentId, inflight, now)];
    LegalPrefix(all);
    assert all[..|all| - 1] == steps;
    ReachableInv(steps);
    DisconnectKeeps(After(steps), agentId, inflight, now);
  }

  // ---- the in-flight limit ----

  /** Every poll of the run is taken under a limit of at most `m`. */
  predicate LimitedBy(steps: seq<Step>, m: int) {
    forall k | 0 <= k < |steps| && steps[k].Poll? :: steps[k].limit <= m
  }

  /** Only a poll of the agent below its limit adds jobs in flight, and never past that limit; in
      particular a poll at or above a lowered limit adds none. */
  lemma StepBound(s: State, step: Step, agentId: Id)
    requires Inv(s) && Enabled(s, step)
    ensures var before, after := |Inflight(s.running, agentId)|, |Inflight(Take(s, step).running, agentId)|;
        if step.Poll? && step.agentId == agentId && before < step.limit then after <= step.limit else after <= before
  {
    var t := Take(s, step);
    match step
    case CreatePinned(_) =>
    case CreateRefused(_) =>
    case CreateFanout(_, _) =>
    case CreateScheduled(_) =>
    case Connect(_) =>
    case Poll(a, limit, _, _, listing, sent, now) =>
      if Remaining(s, a, limit) > 0 {
        DispatchAllKeeps(s, a, listing[..sent], now);
      }
    case Result(a, id, wire, now) =>
      HandleResultKeeps(s, a, id, wire, now);
      SubsetSize(Inflight(t.running, agentId), Inflight(s.running, agentId));
    case Fail(a, id, msg, now) =>
      ReportKeeps(s, a, id, msg, now);
      SubsetSize(Inflight(t.running, agentId), Inflight(s.running, agentId));
    case Hangup(a, inflight, now) =>
      DisconnectKeeps(s, a, inflight, now);
      SubsetSize(Inflight(t.running, agentId), Inflight(s.running, agentId));
    case Timeouts(listing, policies, now) =>
      SweepKeeps(s, listing, policies, now);
      SubsetSize(Inflight(t.running, agentId), Inflight(s.running, agentId));
  }

  /** With limits of at most `m`, no agent ever has more than `m` jobs in flight. */
  lemma {:induction false} InflightBounded(steps: seq<Step>, m: nat, agentId: Id)
    requires Legal(steps) && LimitedBy(steps, m)
    ensures |Inflight(After(steps).running, agentId)| <= m
  {
    if steps != [] {
      LegalPrefix(steps);
      ReachableInv(steps[..|steps| - 1]);
      InflightBounded(steps[..|steps| - 1], m, agentId);
      StepBound(After(steps[..|steps| - 1]), steps[|steps| - 1], agentId);
    }
  }

  // ---- closing messages ----

  /** The jobs of a run that were refused when they were created: they end without a run. */
  function Refused(steps: seq<Step>): set<Id> {
    if steps == [] then {}
    else
      var last := steps[|steps| - 1];
      Refused(steps[..|steps| - 1]) + (if last.CreateRefused? then {last.job.id} else {})
  }

  lemma NewJobsTell(s: State, batch: seq<Job>, silent: set<Id>)
    requires Told(s, silent) && FreshBatch(s.jobs, batch)
    requires forall i | 0 <= i < |batch| :: !Terminal(batch[i].status)
    ensures Told(s.(jobs := Insert(s.jobs, batch)), silent)
  {
    var t := s.(jobs := Insert(s.jobs, batch));
    InsertFresh(s.jobs, batch);
    forall id | id in t.jobs && t.jobs[id].parentId == NoId && id !in silent ensures TellsAt(t, id) {
      if id in s.jobs {
        assert TellsAt(s, id);
      } else {
        assert EventsOf(t.events, id) == [];
      }
    }
  }

  lemma RefusedJobTells(s: State, job: Job, silent: set<Id>)
    requires Told(s, silent) && FreshBatch(s.jobs, [job]) && Terminal(job.status)
    ensures Told(s.(jobs := Insert(s.jobs, [job])), silent + {job.id})
  {
    var t := s.(jobs := Insert(s.jobs, [job]));
    InsertFresh(s.jobs, [job]);
    assert [job][0] == job;
    forall id | id in t.jobs && t.jobs[id].parentId == NoId && id !in silent + {job.id} ensures TellsAt(t, id) {
      assert id in s.jobs && TellsAt(s, id);
    }
  }

  lemma {:induction false} DispatchAllTells(s: State, agentId: Id, listing: seq<Job>, now: Time, silent: set<Id>)
    requires Told(s, silent)
    ensures Told(DispatchAll(s, agentId, listing, now), silent)
  {
    if listing != [] {
      var n := |listing| - 1;
      DispatchAllTells(s, agentId, listing[..n], now, silent);
      DispatchTells(DispatchAll(s, agentId, listing[..n], now), agentId, listing[n], now, silent);
    }
  }

  lemma {:induction false} FailAllTells(s: State, agentId: Id, ids: seq<Id>, msg: string, now: Time, pending: set<Id>, silent: set<Id>)
    requires Told(s, silent) && InvBut(s, NoId, pending) && forall i | 0 <= i < |ids| :: OwnChildless(s.jobs, agentId, ids[i])
    ensures Told(FailAll(s, agentId, ids, msg, now), silent)
  {
    if ids != [] {
      var n := |ids| - 1;
      FailAllTells(s, agentId, ids[..n], msg, now, pending, silent);
      FailAllKeeps(s, agentId, ids[..n], msg, now, pending);
      FailJobTells(FailAll(s, agentId, ids[..n], msg, now), agentId, ids[n], msg, now, silent);
    }
  }

  lemma HangupTells(s: State, agentId: Id, inflight: seq<Id>, now: Time, silent: set<Id>)
    requires Inv(s) && Told(s, silent) && Lists(inflight, Inflight(s.running, agentId))
    ensures Told(Disconnect(s, agentId, inflight, now), silent)
  {
    var forgot := s.(running := s.running - {agentId});
    assert InvBut(forgot, NoId, Inflight(s.running, agentId));
    ChildStatusAside(s, forgot, silent);
    forall i | 0 <= i < |inflight| ensures OwnChildless(s.jobs, agentId, inflight[i]) {
      InflightIsChildless(s, agentId, inflight[i]);
    }
    FailAllTells(forgot, agentId, inflight, "agent disconnected", now, Inflight(s.running, agentId), silent);
  }

  lemma SweepOneTells(s: State, job: Job, policies: PolicySource, now: Time, silent: set<Id>)
    requires Inv(s) && Told(s, silent) && job.id in s.jobs && SameJob(job, s.jobs[job.id])
    ensures Told(SweepOne(s, job, policies, now), silent)
  {
    if Deferred(s, job, policies, now) {
      CompleteParentTells(s, job.id, "", false, now, silent);
    } else if JobTimedOut(job, policies, now) {
      if HasFanout(s.jobs, job) {
        var mid := FailChildren(s, job.id, now);
        FailChildrenKeeps(s, job.id, now);
        ChildStatusAside(s, mid, silent);
        CompleteParentTells(mid, job.id, "job_timeout", true, now, silent);
      } else {
        FailJobTells(s, job.agentId, job.id, "job_timeout", now, silent);
      }
    }
  }

  lemma {:induction false} SweepTells(s: State, listing: seq<Job>, policies: PolicySource, now: Time, silent: set<Id>)
    requires Inv(s) && Told(s, silent) && Coherent(policies(NoId)) && FromStore(s.jobs, listing)
    ensures Told(Sweep(s, listing, policies, now), silent)
  {
    if listing != [] {
      var n := |listing| - 1;
      SweepTells(s, listing[..n], policies, now, silent);
      SweepKeeps(s, listing[..n], policies, now);
      SweepOneTells(Sweep(s, listing[..n], policies, now), listing[n], policies, now, silent);
    }
  }

  lemma StepTells(s: State, step: Step, silent: set<Id>)
    requires Inv(s) && Told(s, silent) && Enabled(s, step)
    ensures Told(Take(s, step), silent + (if step.CreateRefused? then {step.job.id} else {}))
  {
    assert silent + {} == silent;
    match step
    case CreatePinned(job) => NewJobsTell(s, [job], silent);
    case CreateRefused(job) =>
      RefusedJobTells(s, job, silent);
      QuietEvent(s.(jobs := Insert(s.jobs, [job])), job.id, Message(job.agentId, job.error), silent + {job.id});
    case CreateFanout(parent, children) =>
      var batch := [parent] + children;
      forall i | 0 <= i < |batch| ensures !Terminal(batch[i].status) {
        assert i > 0 ==> batch[i] == children[i - 1];
      }
      NewJobsTell(s, batch, silent);
      QuietEvent(s.(jobs := Insert(s.jobs, batch)), parent.id, Progress("started"), silent);
    case CreateScheduled(batch) => NewJobsTell(s, batch, silent);
    case Connect(_) => ChildStatusAside(s, Take(s, step), silent);
    case Poll(a, _, _, _, listing, sent, now) => DispatchAllTells(s, a, listing[..sent], now, silent);
    case Result(a, id, wire, now) => HandleResultTells(s, a, id, wire, now, silent);
    case Fail(a, id, msg, now) => FailJobTells(s, a, id, msg, now, silent);
    case Hangup(a, inflight, now) => HangupTells(s, a, inflight, now, silent);
    case Timeouts(listing, policies, now) => SweepTells(s, listing, policies, now, silent);
  }

  lemma {:induction false} ReachableTold(steps: seq<Step>)
    requires Legal(steps)
    ensures Told(After(steps), Refused(steps))
  {
    if steps != [] {
      var init := steps[..|steps| - 1];
      LegalPrefix(steps);
      ReachableTold(init);
      ReachableInv(init);
      StepTells(After(init), steps[|steps| - 1], Refused(init));
    }
  }

  /** In every reachable state the stream of a top-level job that was not refused at creation
      carries no closing message while the job is open and exactly one, its outcome, once it has
      ended, whichever handler ended it. */
  lemma ClosedExactlyOnce(steps: seq<Step>, id: Id)
    requires Legal(steps) && id in After(steps).jobs && After(steps).jobs[id].parentId == NoId && id !in Refused(steps)
    ensures var s := After(steps);
        Closings(EventsOf(s.events, id)) ==
          match s.jobs[id].status
          case Succeeded => ["completed"]
          case Failed => ["failed"]
          case Canceled => ["canceled"]
          case _ => []
  {
    ReachableTold(steps);
    assert TellsAt(After(steps), id);
  }
}
