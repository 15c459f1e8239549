/** What results, failures, disconnects and sweeps do, told by the fields they change. */
module EndEffects {
  import opened Text
  import opened Model
  import opened Runtimes
  import opened Policies
  import opened Jobs
  import opened Lifecycle
  import opened LifecycleRuns
  import opened HttpInvocations
  import opened SweepRounds

  /** A job that has failed with a message. */
  function FailedJob(job: Job, msg: string, now: Time): Job {
    job.(status := Failed, completedAt := Some(now), error := if msg == "" then job.error else msg)
  }

  /** The closing message of a stream whose job has this state: none while it is open. */
  function ClosingOf(job: Job): seq<Event> {
    if job.status == Succeeded then [Progress("completed")]
    else if job.status == Failed then [Progress("failed")]
    else if job.status == Canceled then [Progress("canceled")]
    else []
  }

  /** Exactly one stream has grown, by these events. */
  ghost predicate Tells(s: State, t: State, stream: Id, news: seq<Event>) {
    forall k :: EventsOf(t.events, k) == if k == stream then EventsOf(s.events, k) + news else EventsOf(s.events, k)
  }

  lemma TellsTwice(s: State, m: State, t: State, stream: Id, first: seq<Event>, then_: seq<Event>)
    requires Tells(s, m, stream, first) && Tells(m, t, stream, then_)
    ensures Tells(s, t, stream, first + then_)
  {
    forall k ensures EventsOf(t.events, k) == if k == stream then EventsOf(s.events, k) + (first + then_) else EventsOf(s.events, k) {
      assert EventsOf(s.events, k) + first + then_ == EventsOf(s.events, k) + (first + then_);
    }
  }

  /** Jobs other than these are as they were. */
  ghost predicate OthersSame(before: JobMap, after: JobMap, ids: set<Id>) {
    before.Keys == after.Keys && forall k | k in before && k !in ids :: after[k] == before[k]
  }

  // ---- closing a parent ----

  predicate ChildrenEnded(jobs: JobMap, p: Id) {
    (exists c | c in jobs :: jobs[c].parentId == p) && forall c | c in jobs && jobs[c].parentId == p :: Terminal(jobs[c].status)
  }

  predicate ChildWon(jobs: JobMap, p: Id) { exists c | c in jobs :: jobs[c].parentId == p && jobs[c].status == Succeeded }

  lemma ChildrenTerms(jobs: JobMap, p: Id)
    ensures ChildrenEnded(jobs, p) <==> Children(jobs, p) != {} && AllTerminal(jobs, Children(jobs, p))
    ensures ChildWon(jobs, p) <==> AnySucceeded(jobs, Children(jobs, p))
  {
    forall c | c in jobs && jobs[c].parentId == p ensures c in Children(jobs, p) {
    }
    if c :| c in Children(jobs, p) {
      assert c in jobs && jobs[c].parentId == p;
    }
  }

  lemma AddTells(s: State, id: Id, e: Event)
    requires id in s.jobs
    ensures Tells(s, AddEvent(s, id, e), id, [e])
  {
  }

  /** An open parent closes exactly when it has children and all have ended. It succeeds if some child did;
      otherwise it fails, with the given message or the usual one. Its stream gets that message if it is to
      be told, and then its closing message. */
  lemma ParentCloses(s: State, p: Id, failureMsg: string, emit: bool, now: Time)
    requires p in s.jobs && !Terminal(s.jobs[p].status) && s.jobs[p].parentId == NoId && s.jobs[p].id == p
    ensures var t := CompleteParent(s, p, failureMsg, emit, now);
        var msg := if failureMsg == "" then "one or more fanout jobs failed" else failureMsg;
        if !ChildrenEnded(s.jobs, p) then t == s
        else
          && t.running == s.running && OthersSame(s.jobs, t.jobs, {p})
          && t.jobs[p] == (if ChildWon(s.jobs, p) then s.jobs[p].(status := Succeeded, completedAt := Some(now)) else FailedJob(s.jobs[p], msg, now))
          && Tells(s, t, p, (if !ChildWon(s.jobs, p) && emit then [Message(NoId, msg)] else []) + ClosingOf(t.jobs[p]))
  {
    ChildrenTerms(s.jobs, p);
    if ChildrenEnded(s.jobs, p) {
      var msg := if failureMsg == "" then "one or more fanout jobs failed" else failureMsg;
      var job := if ChildWon(s.jobs, p) then s.jobs[p].(status := Succeeded, completedAt := Some(now)) else FailedJob(s.jobs[p], msg, now);
      ClosingTells(s, p, job, if !ChildWon(s.jobs, p) && emit then [Message(NoId, msg)] else []);
    }
  }

  lemma ClosingTells(s: State, p: Id, job: Job, before: seq<Event>)
    requires p in s.jobs && job.id == p && job.parentId == NoId && (job.status == Succeeded || job.status == Failed) && |before| <= 1
    ensures var closed := s.(jobs := s.jobs[p := job]);
        var told := if before != [] then AddEvent(closed, p, before[0]) else closed;
        Tells(s, EmitProgress(told, p, ProgressMessage(job.status)), p, before + ClosingOf(job))
  {
    var closed := s.(jobs := s.jobs[p := job]);
    var told := if before != [] then AddEvent(closed, p, before[0]) else closed;
    if before != [] {
      AddTells(closed, p, before[0]);
      assert before == [before[0]];
    }
    AddTells(told, p, Progress(ProgressMessage(job.status)));
    TellsTwice(s, told, EmitProgress(told, p, ProgressMessage(job.status)), p, before, ClosingOf(job));
  }

  /** Closing a parent without a message of its own. */
  lemma ParentMayClose(s: State, p: Id, now: Time)
    requires p in s.jobs && !Terminal(s.jobs[p].status) && s.jobs[p].parentId == NoId && s.jobs[p].id == p
    ensures var t := CompleteParent(s, p, "", false, now);
        && t.running == s.running && OthersSame(s.jobs, t.jobs, {p}) && Tells(s, t, p, ClosingOf(t.jobs[p]))
        && (Terminal(t.jobs[p].status) <==> ChildrenEnded(s.jobs, p))
  {
    ParentCloses(s, p, "", false, now);
  }

  // ---- a job ends ----

  /** What the end of a job does: the job has its new state, it has left its agent's table entry, its stream
      (its parent's if it is a child) has gained `e` and then the closing message of the stream's job, and
      nothing else has changed but its parent, which closes with its last child. */
  ghost predicate EndsAs(s: State, t: State, a: Id, id: Id, job: Job, e: Event)
    requires id in s.jobs
  {
    var p := s.jobs[id].parentId;
    var stream := if p != NoId then p else id;
    && OthersSame(s.jobs, t.jobs, {id, p}) && t.jobs[id] == job
    && (forall x :: x in Inflight(t.running, a) <==> x in Inflight(s.running, a) && x != id)
    && (forall b | b != a :: Inflight(t.running, b) == Inflight(s.running, b))
    && stream in t.jobs && Tells(s, t, stream, [e] + ClosingOf(t.jobs[stream]))
    && (p != NoId ==> (Terminal(t.jobs[p].status) <==> ChildrenEnded(s.jobs[id := job], p)))
  }

  /** A child's parent is an open top-level job while the child is open. */
  lemma OpenChildsParent(s: State, id: Id)
    requires Inv(s) && id in s.jobs && !Terminal(s.jobs[id].status) && s.jobs[id].parentId != NoId
    ensures var p := s.jobs[id].parentId;
        p in s.jobs && p != id && s.jobs[p].id == p && s.jobs[p].parentId == NoId && s.jobs[p].agentId == NoId && !Terminal(s.jobs[p].status)
  {
    var p := s.jobs[id].parentId;
    assert ParentShape(s.jobs, p) && id in Children(s.jobs, p) && ParentAgrees(s.jobs, p);
  }

  lemma ClearRemoves(running: InflightTable, a: Id, id: Id)
    ensures forall x :: x in Inflight(Clear(running, a, id), a) <==> x in Inflight(running, a) && x != id
    ensures forall b | b != a :: Inflight(Clear(running, a, id), b) == Inflight(running, b)
  {
  }

  lemma EndOfChild(s: State, a: Id, id: Id, job: Job, e: Event, now: Time)
    requires Inv(s) && id in s.jobs && !Terminal(s.jobs[id].status) && SameJob(s.jobs[id], job) && job.parentId != NoId
    requires job.status == Succeeded || job.status == Failed
    ensures var done := s.(running := Clear(s.running, a, id), jobs := s.jobs[id := job]);
        EndsAs(s, CompleteParent(AddEvent(done, job.parentId, e), job.parentId, "", false, now), a, id, job, e)
  {
    var p := job.parentId;
    var done := s.(running := Clear(s.running, a, id), jobs := s.jobs[id := job]);
    var told := AddEvent(done, p, e);
    var t := CompleteParent(told, p, "", false, now);
    OpenChildsParent(s, id);
    ClearRemoves(s.running, a, id);
    AddTells(done, p, e);
    ParentMayClose(told, p, now);
    TellsTwice(s, told, t, p, [e], ClosingOf(t.jobs[p]));
  }

  lemma EndOfTopLevel(s: State, a: Id, id: Id, job: Job, e: Event)
    requires Keyed(s.jobs) && id in s.jobs && SameJob(s.jobs[id], job) && job.parentId == NoId
    requires job.status == Succeeded || job.status == Failed
    ensures var done := s.(running := Clear(s.running, a, id), jobs := s.jobs[id := job]);
        EndsAs(s, EmitProgress(AddEvent(done, id, e), id, ProgressMessage(job.status)), a, id, job, e)
  {
    var done := s.(running := Clear(s.running, a, id), jobs := s.jobs[id := job]);
    var told := AddEvent(done, id, e);
    ClearRemoves(s.running, a, id);
    AddTells(done, id, e);
    AddTells(told, id, Progress(ProgressMessage(job.status)));
    TellsTwice(s, told, EmitProgress(told, id, ProgressMessage(job.status)), id, [e], ClosingOf(job));
  }

  // ---- creation ----

  /** A fan-out announces itself on the parent's stream, a refused job its error on its own; jobs created
      otherwise say nothing yet. The table is not touched. */
  lemma CreationTells(s: State, step: Step)
    requires Enabled(s, step) && Creates(step)
    ensures var t := Take(s, step);
        && t.running == s.running
        && (step.CreateFanout? ==> Tells(s, t, step.parent.id, [Progress("started")]))
        && (step.CreateRefused? ==> Tells(s, t, step.job.id, [Message(step.job.agentId, step.job.error)]))
        && (step.CreatePinned? || step.CreateScheduled? ==> t.events == s.events)
  {
    match step
    case CreateFanout(parent, children) =>
      var batch := [parent] + children;
      InsertFresh(s.jobs, batch);
      assert batch[0] == parent && parent.id in Insert(s.jobs, batch);
      AddTells(s.(jobs := Insert(s.jobs, batch)), parent.id, Progress("started"));
    case CreateRefused(job) =>
      InsertFresh(s.jobs, [job]);
      assert [job][0] == job && job.id in Insert(s.jobs, [job]);
      AddTells(s.(jobs := Insert(s.jobs, [job])), job.id, Message(job.agentId, job.error));
    case _ =>
  }

  // ---- results ----

  /** The job after a summary. */
  function ResultJob(job: Job, exitCode: int, status: string, now: Time): Job {
    if exitCode == 0 then job.(status := Succeeded, completedAt := Some(now))
    else if status == "target_blocked" || status == "unsupported_protocol" || status == "unsupported_tool" then FailedJob(job, status, now)
    else FailedJob(job, "tool_failed", now)
  }

  lemma OwnsWhatRuns(s: State, a: Id, id: Id)
    requires Inv(s)
    ensures RunningFor(s, a, id) <==> id in s.jobs && AgentOwnsJob(s, a, s.jobs[id])
  {
    if a != NoId && id in Inflight(s.running, a) {
      assert TableEntry(s.jobs, a, id);
    }
  }

  lemma StreamStored(s: State, a: Id, id: Id)
    requires Inv(s) && RunningFor(s, a, id)
    ensures StreamOf(s.jobs[id]) in s.jobs && s.jobs[id].id == id
  {
    if s.jobs[id].parentId != NoId {
      OpenChildsParent(s, id);
    }
  }

  /** In every state that keeps the protocol invariant, and so in every reachable one, a readable line of
      the agent that runs the job is stored on the job's stream, or on its parent's. A summary also ends the
      job and is followed by what closes the stream; any other line changes nothing else. */
  lemma ResultReaches(s: State, a: Id, id: Id, wire: Wire, now: Time)
    requires Inv(s) && RunningFor(s, a, id) && !wire.Malformed?
    ensures var t := HandleResult(s, a, id, wire, now);
        var stream := if s.jobs[id].parentId != NoId then s.jobs[id].parentId else id;
        if wire.Summary? then EndsAs(s, t, a, id, ResultJob(s.jobs[id], wire.exitCode, wire.status, now), FromAgent(a, wire))
        else t.jobs == s.jobs && t.running == s.running && Tells(s, t, stream, [FromAgent(a, wire)])
  {
    OwnsWhatRuns(s, a, id);
    StreamStored(s, a, id);
    if wire.Summary? {
      SummaryEnds(s, a, id, wire, now);
    } else {
      LineTells(s, a, id, wire, now);
    }
  }

  lemma LineTells(s: State, a: Id, id: Id, wire: Wire, now: Time)
    requires id in s.jobs && AgentOwnsJob(s, a, s.jobs[id]) && s.jobs[id].status == Running && StreamOf(s.jobs[id]) in s.jobs
    requires wire.StreamLine?
    ensures var t := HandleResult(s, a, id, wire, now);
        t.jobs == s.jobs && t.running == s.running && Tells(s, t, StreamOf(s.jobs[id]), [FromAgent(a, wire)])
  {
    AddTells(s, StreamOf(s.jobs[id]), FromAgent(a, wire));
  }

  lemma SummaryUnfolds(s: State, a: Id, id: Id, wire: Wire, now: Time)
    requires id in s.jobs && AgentOwnsJob(s, a, s.jobs[id]) && s.jobs[id].status == Running && StreamOf(s.jobs[id]) in s.jobs
    requires s.jobs[id].id == id && wire.Summary?
    ensures var job := ResultJob(s.jobs[id], wire.exitCode, wire.status, now);
        var done := s.(running := Clear(s.running, a, id), jobs := s.jobs[id := job]);
        var told := AddEvent(done, StreamOf(job), FromAgent(a, wire));
        HandleResult(s, a, id, wire, now) ==
        if job.parentId != NoId then CompleteParent(told, job.parentId, "", false, now) else EmitProgress(told, id, ProgressMessage(job.status))
  {
    var job := ResultJob(s.jobs[id], wire.exitCode, wire.status, now);
    assert s.jobs[id := job] == SetStatus(s.jobs, id, if wire.exitCode == 0 then Succeeded else Failed,
                                          if wire.exitCode == 0 then "" else FailureType(wire.status), now);
  }

  lemma SummaryEnds(s: State, a: Id, id: Id, wire: Wire, now: Time)
    requires Inv(s) && RunningFor(s, a, id) && wire.Summary? && AgentOwnsJob(s, a, s.jobs[id]) && StreamOf(s.jobs[id]) in s.jobs
    ensures EndsAs(s, HandleResult(s, a, id, wire, now), a, id, ResultJob(s.jobs[id], wire.exitCode, wire.status, now), FromAgent(a, wire))
  {
    StreamStored(s, a, id);
    SummaryUnfolds(s, a, id, wire, now);
    ResultJobEnds(s, a, id, ResultJob(s.jobs[id], wire.exitCode, wire.status, now), FromAgent(a, wire), now);
  }

  lemma ResultJobEnds(s: State, a: Id, id: Id, job: Job, e: Event, now: Time)
    requires Inv(s) && id in s.jobs && !Terminal(s.jobs[id].status) && SameJob(s.jobs[id], job)
    requires job.status == Succeeded || job.status == Failed
    ensures var done := s.(running := Clear(s.running, a, id), jobs := s.jobs[id := job]);
        var told := AddEvent(done, StreamOf(job), e);
        EndsAs(s, if job.parentId != NoId then CompleteParent(told, job.parentId, "", false, now)
                  else EmitProgress(told, id, ProgressMessage(job.status)), a, id, job, e)
  {
    if job.parentId != NoId {
      EndOfChild(s, a, id, job, e, now);
    } else {
      EndOfTopLevel(s, a, id, job, e);
    }
  }

  /** A line that is unreadable, or comes from an agent that does not run the job, changes nothing at all. */
  lemma ResultDropped(s: State, a: Id, id: Id, wire: Wire, now: Time)
    requires Inv(s) && (wire.Malformed? || !RunningFor(s, a, id))
    ensures HandleResult(s, a, id, wire, now) == s
  {
    OwnsWhatRuns(s, a, id);
    Dropped(s, a, id, wire, now);
  }

  lemma Dropped(s: State, a: Id, id: Id, wire: Wire, now: Time)
    requires wire.Malformed? || !(id in s.jobs && AgentOwnsJob(s, a, s.jobs[id]))
    ensures HandleResult(s, a, id, wire, now) == s
  {
  }

  // ---- failures ----

  /** Failing an open job of an agent ends it with the message, told on its stream. */
  lemma FailureEnds(s: State, a: Id, id: Id, msg: string, now: Time)
    requires Inv(s) && id in s.jobs && !Terminal(s.jobs[id].status) && s.jobs[id].agentId == a != NoId
    ensures EndsAs(s, FailJob(s, a, id, msg, now), a, id, FailedJob(s.jobs[id], msg, now), Message(a, msg))
  {
    var job := FailedJob(s.jobs[id], msg, now);
    if job.parentId != NoId {
      EndOfChild(s, a, id, job, Message(a, msg), now);
    } else {
      EndOfTopLevel(s, a, id, job, Message(a, msg));
    }
  }

  /** Failing a job that has ended only takes it out of the table. */
  lemma FailureOfEnded(s: State, a: Id, id: Id, msg: string, now: Time)
    requires id in s.jobs && Terminal(s.jobs[id].status) && a != NoId
    ensures var t := FailJob(s, a, id, msg, now);
        t.jobs == s.jobs && t.events == s.events && forall x :: x in Inflight(t.running, a) <==> x in Inflight(s.running, a) && x != id
  {
    ClearRemoves(s.running, a, id);
  }
}
