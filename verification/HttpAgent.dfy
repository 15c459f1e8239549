/** Invoking an agent over HTTP: the attempts of one call, and what the invocation does to its job. */
module HttpInvocations {
  import opened Text
  import opened Model
  import opened Jobs
  import opened Lifecycle

  const DEFAULT_ATTEMPTS := 3

  /** A line of the answer; the job and the agent it speaks for are those of the call. */
  datatype Line = TextLine(kind: string, text: string) | BadText | SummaryLine(exitCode: int, status: string) | BadSummary

  predicate IsSummary(line: Line) { line.SummaryLine? || line.BadSummary? }

  /** How the hub reads a line: a summary without a usable exit code is malformed. */
  function WireOf(line: Line): Wire {
    match line
    case TextLine(kind, text) => StreamLine(kind, text)
    case SummaryLine(exitCode, status) => Summary(exitCode, status)
    case BadText | BadSummary => Malformed
  }

  /** Text lines and well-formed summaries are read as they are; any other line is unreadable. */
  lemma WireMeaning(line: Line)
    ensures line.TextLine? ==> WireOf(line) == StreamLine(line.kind, line.text)
    ensures line.SummaryLine? ==> WireOf(line) == Summary(line.exitCode, line.status)
    ensures line.BadText? || line.BadSummary? ==> WireOf(line) == Malformed
  {
  }

  datatype Outcome = Clean | Broken(connection: bool, msg: string)

  datatype Attempt = Attempt(lines: seq<Line>, outcome: Outcome)

  /** A failed attempt that may be repeated: the connection broke before any line arrived. */
  predicate Repeatable(a: Attempt) { a.outcome.Broken? && a.outcome.connection && a.lines == [] }

  function AttemptLimit(attempts: int): (n: int)
    ensures if attempts <= 0 then n == 3 else n == attempts
  {
    if attempts <= 0 then DEFAULT_ATTEMPTS else attempts
  }

  /** The attempts of a call, numbered from 1; `stop` tells whether the call is cancelled after an attempt
      or in the pause that follows. All reported lines come from the last attempt, every earlier one was
      repeatable, and the call gives up early only on a final answer or when it is cancelled. */
  method CallWithAttempts(attempts: int, world: int -> Attempt, stop: int -> bool) returns (lines: seq<Line>, err: Outcome, tries: int)
    ensures 1 <= tries <= AttemptLimit(attempts)
    ensures Attempt(lines, err) == world(tries)
    ensures forall k | 1 <= k < tries :: Repeatable(world(k)) && !stop(k)
    ensures tries == AttemptLimit(attempts) || !Repeatable(world(tries)) || stop(tries)
  {
    lines, tries := [], 0;
    var limit := if attempts <= 0 then DEFAULT_ATTEMPTS else attempts;
    while true
      invariant 0 <= tries < limit && lines == []
      invariant forall k | 1 <= k <= tries :: Repeatable(world(k)) && !stop(k)
      decreases limit - tries
    {
      tries := tries + 1;
      var a := world(tries);
      lines := lines + a.lines;
      err := a.outcome;
      if err.Clean? || a.lines != [] || !err.connection || tries == limit || stop(tries) {
        return;
      }
    }
  }

  // ---- the effect on the job ----

  /** The state after the hub has handled the lines in turn. */
  function Reported(s: State, agentId: Id, id: Id, lines: seq<Line>, now: Time): State {
    if lines == [] then s
    else HandleResult(Reported(s, agentId, id, lines[..|lines| - 1], now), agentId, id, WireOf(lines[|lines| - 1]), now)
  }

  predicate GotSummary(lines: seq<Line>) {
    lines != [] && (IsSummary(lines[|lines| - 1]) || GotSummary(lines[..|lines| - 1]))
  }

  /** The invocation as a whole: a broken call fails the job, and so does one that brought no summary. */
  function Invoked(s: State, agentId: Id, id: Id, lines: seq<Line>, err: Outcome, now: Time): State {
    var t := Reported(s, agentId, id, lines, now);
    if err.Broken? then FailJob(t, agentId, id, err.msg, now)
    else if !GotSummary(lines) then FailJob(t, agentId, id, "http agent did not return parsed result", now)
    else t
  }

  /** The first well-formed summary. */
  function FirstSummary(lines: seq<Line>): Option<Line> {
    if lines == [] then None
    else
      var earlier := FirstSummary(lines[..|lines| - 1]);
      if earlier.Some? then earlier else if lines[|lines| - 1].SummaryLine? then Some(lines[|lines| - 1]) else None
  }

  predicate RunningFor(s: State, agentId: Id, id: Id) {
    agentId != NoId && id in s.jobs && s.jobs[id].agentId == agentId && s.jobs[id].status == Running
  }

  /** What a first summary makes of the job. */
  function Verdict(line: Line): Status {
    if line.SummaryLine? && line.exitCode == 0 then Succeeded else Failed
  }

  lemma ResultEffect(s: State, agentId: Id, id: Id, wire: Wire, now: Time)
    requires Inv(s) && RunningFor(s, agentId, id)
    ensures var t := HandleResult(s, agentId, id, wire, now);
        if wire.Summary? then id in t.jobs && t.jobs[id].status == (if wire.exitCode == 0 then Succeeded else Failed)
        else RunningFor(t, agentId, id)
  {
    assert id in Inflight(s.running, agentId);
    var job := s.jobs[id];
    assert StreamOf(job) in s.jobs by {
      if job.parentId != NoId {
        assert ParentShape(s.jobs, job.parentId);
      }
    }
    assert job.parentId != NoId ==> ParentShape(s.jobs, job.parentId);
    assert job.parentId != id;
  }

  lemma {:induction false} ReportedStatus(s: State, agentId: Id, id: Id, lines: seq<Line>, now: Time)
    requires Inv(s) && RunningFor(s, agentId, id)
    ensures var t := Reported(s, agentId, id, lines, now); var first := FirstSummary(lines);
        && Inv(t) && id in t.jobs && t.jobs[id].agentId == agentId
        && t.jobs[id].status == if first.None? then Running else Verdict(first.value)
  {
    if lines != [] {
      var n := |lines| - 1;
      var mid := Reported(s, agentId, id, lines[..n], now);
      ReportedStatus(s, agentId, id, lines[..n], now);
      VerdictEnds(FirstSummary(lines[..n]));
      if FirstSummary(lines[..n]).None? {
        RunningLine(mid, agentId, id, lines[n], now);
      } else {
        EndedLine(mid, agentId, id, WireOf(lines[n]), now);
      }
    }
  }

  lemma VerdictEnds(first: Option<Line>)
    ensures first.Some? ==> Terminal(Verdict(first.value))
  {
  }

  lemma RunningLine(s: State, agentId: Id, id: Id, line: Line, now: Time)
    requires Inv(s) && RunningFor(s, agentId, id)
    ensures var t := HandleResult(s, agentId, id, WireOf(line), now);
        && Inv(t) && id in t.jobs && t.jobs[id].agentId == agentId
        && t.jobs[id].status == if line.SummaryLine? then Verdict(line) else Running
  {
    HandleResultKeeps(s, agentId, id, WireOf(line), now);
    ResultEffect(s, agentId, id, WireOf(line), now);
  }

  lemma EndedLine(s: State, agentId: Id, id: Id, wire: Wire, now: Time)
    requires Inv(s) && id in s.jobs && Terminal(s.jobs[id].status)
    ensures var t := HandleResult(s, agentId, id, wire, now); Inv(t) && id in t.jobs && t.jobs[id] == s.jobs[id]
  {
    HandleResultKeeps(s, agentId, id, wire, now);
  }

  /** The whole invocation of a running job while no other handler runs: its first well-formed summary decides the outcome, whatever
      comes after it. Without one the job fails if the call broke or brought no summary at all, and is
      left running exactly when a clean call brought only malformed summaries; the timeout sweep ends it
      then. */
  lemma InvocationDecides(s: State, agentId: Id, id: Id, lines: seq<Line>, err: Outcome, now: Time)
    requires Inv(s) && RunningFor(s, agentId, id)
    ensures var t := Invoked(s, agentId, id, lines, err, now); var first := FirstSummary(lines);
        && Inv(t) && id in t.jobs
        && t.jobs[id].status ==
           if first.Some? then Verdict(first.value) else if err.Broken? || !GotSummary(lines) then Failed else Running
  {
    var t := Reported(s, agentId, id, lines, now);
    ReportedStatus(s, agentId, id, lines, now);
    if err.Broken? {
      FailDecides(t, agentId, id, err.msg, now);
    } else if !GotSummary(lines) {
      FailDecides(t, agentId, id, "http agent did not return parsed result", now);
    }
  }

  lemma FailDecides(t: State, agentId: Id, id: Id, msg: string, now: Time)
    requires Inv(t) && id in t.jobs && t.jobs[id].agentId == agentId != NoId && t.jobs[id].status != Queued
    ensures var u := FailJob(t, agentId, id, msg, now);
        && Inv(u) && id in u.jobs
        && u.jobs[id].status == if Terminal(t.jobs[id].status) then t.jobs[id].status else Failed
  {
    QueuedIsChildless(t.jobs, id);
    FailJobKeeps(t, agentId, id, msg, now, {});
    assert {} - {id} == {};
    FailedStatus(t, agentId, id, msg, now);
  }

  lemma FailedStatus(t: State, agentId: Id, id: Id, msg: string, now: Time)
    requires Family(t.jobs) && id in t.jobs && t.jobs[id].agentId == agentId != NoId
    ensures var u := FailJob(t, agentId, id, msg, now);
        id in u.jobs && u.jobs[id].status == if Terminal(t.jobs[id].status) then t.jobs[id].status else Failed
  {
    var job := t.jobs[id];
    assert job.parentId != NoId ==> ParentShape(t.jobs, job.parentId);
    assert job.parentId != id;
  }

  /** Taking a job out of flight before failing it changes nothing more. */
  lemma ClearTwice(running: InflightTable, agentId: Id, id: Id)
    ensures Clear(Clear(running, agentId, id), agentId, id) == Clear(running, agentId, id)
  {
    if agentId in running {
      assert running[agentId] - {id} - {id} == running[agentId] - {id};
    }
  }
}

/** A call among other handlers: it lasts for seconds, so any step of the protocol may come between its
    lines. */
module HttpRuns {
  import opened Text
  import opened Model
  import opened Jobs
  import opened Lifecycle
  import opened LifecycleRuns
  import opened HttpInvocations

  /** A step of a run, marked when it belongs to the call. */
  datatype Entry = Entry(own: bool, step: Step)

  function Continue(s: State, run: seq<Entry>): State {
    if run == [] then s else Take(Continue(s, run[..|run| - 1]), run[|run| - 1].step)
  }

  ghost predicate LegalFrom(s: State, run: seq<Entry>) {
    run == [] || (LegalFrom(s, run[..|run| - 1]) && Enabled(Continue(s, run[..|run| - 1]), run[|run| - 1].step))
  }

  function OwnSteps(run: seq<Entry>): seq<Step> {
    if run == [] then []
    else
      var init := OwnSteps(run[..|run| - 1]);
      var last := run[|run| - 1];
      if last.own then init + [last.step] else init
  }

  /** A step of the call: a line that is handled, or the failure that closes the call. */
  predicate CallStep(step: Step, agentId: Id, id: Id) {
    (step.Result? || step.Fail?) && step.agentId == agentId && step.id == id
  }

  /** The steps are those of a call: its lines in order, then a failure iff the call broke or brought no
      summary. Their times are whatever the clock showed. */
  predicate IsCall(own: seq<Step>, agentId: Id, id: Id, lines: seq<Line>, err: Outcome) {
    && |own| == |lines| + (if FailsCall(lines, err) then 1 else 0)
    && (forall k | 0 <= k < |own| :: CallStep(own[k], agentId, id))
    && (forall k | 0 <= k < |lines| :: own[k].Result? && own[k].wire == WireOf(lines[k]))
    && (FailsCall(lines, err) ==> own[|lines|].Fail? && own[|lines|].msg == FailureOf(err))
  }

  predicate FailsCall(lines: seq<Line>, err: Outcome) { err.Broken? || !GotSummary(lines) }

  function FailureOf(err: Outcome): string {
    if err.Broken? then err.msg else "http agent did not return parsed result"
  }

  /** What the steps of a call say about the job when nothing else ends it: the first that ends it. */
  function OwnVerdict(own: seq<Step>): Option<Status> {
    if own == [] then None
    else
      var earlier := OwnVerdict(own[..|own| - 1]);
      var last := own[|own| - 1];
      if earlier.Some? then earlier
      else if last.Fail? then Some(Failed)
      else if last.Result? && last.wire.Summary? then Some(if last.wire.exitCode == 0 then Succeeded else Failed)
      else None
  }

  // ---- every step moves jobs onward ----

  /** Jobs are never lost, queued again, or changed once they have ended. */
  ghost predicate Keeps(before: JobMap, after: JobMap) { forall id | id in before :: id in after && Onward(before[id], after[id]) }

  lemma CreationKeepsJobs(s: State, step: Step)
    requires Enabled(s, step) && Creates(step)
    ensures Keeps(s.jobs, Take(s, step).jobs)
  {
    match step
    case CreatePinned(job) => InsertFresh(s.jobs, [job]);
    case CreateRefused(job) => InsertFresh(s.jobs, [job]);
    case CreateFanout(parent, children) => InsertFresh(s.jobs, [parent] + children);
    case CreateScheduled(batch) => InsertFresh(s.jobs, batch);
  }

  lemma StepIsLater(s: State, step: Step)
    requires Inv(s) && Enabled(s, step) && !Creates(step)
    ensures Later(s.jobs, Take(s, step).jobs)
  {
    match step
    case Connect(_) =>
    case Poll(a, _, _, _, listing, sent, now) => DispatchAllKeeps(s, a, listing[..sent], now);
    case Result(a, id, wire, now) => HandleResultKeeps(s, a, id, wire, now);
    case Fail(a, id, msg, now) => ReportIsLater(s, a, id, msg, now);
    case Hangup(a, inflight, now) => DisconnectKeeps(s, a, inflight, now);
    case Timeouts(listing, policies, now) => SweepKeeps(s, listing, policies, now);
  }

  lemma ReportIsLater(s: State, agentId: Id, id: Id, msg: string, now: Time)
    requires Inv(s) && Enabled(s, Fail(agentId, id, msg, now))
    ensures Later(s.jobs, FailJob(s, agentId, id, msg, now).jobs)
  {
    if id in s.jobs {
      QueuedIsChildless(s.jobs, id);
    }
    FailJobKeeps(s, agentId, id, msg, now, {});
  }

  lemma StepKeepsJobs(s: State, step: Step)
    requires Inv(s) && Enabled(s, step)
    ensures Keeps(s.jobs, Take(s, step).jobs)
  {
    if Creates(step) {
      CreationKeepsJobs(s, step);
    } else {
      StepIsLater(s, step);
    }
  }

  // ---- the step that ends the job ----

  predicate Open(s: State, id: Id) { id in s.jobs && !Terminal(s.jobs[id].status) }

  /** How many steps of the run it takes until the job has ended, or nothing while it is open. */
  function EndedAfter(s: State, run: seq<Entry>, id: Id): (n: Option<nat>)
    ensures n.Some? ==> 0 < n.value <= |run|
  {
    if run == [] then None
    else
      var earlier := EndedAfter(s, run[..|run| - 1], id);
      if earlier.Some? then earlier else if Open(Continue(s, run), id) then None else Some(|run|)
  }

  /** The job ended with the first `n` steps and not before. */
  ghost predicate EndedWith(s: State, run: seq<Entry>, agentId: Id, id: Id, n: nat)
    requires 0 < n <= |run|
  {
    && RunningFor(Continue(s, run[..n - 1]), agentId, id)
    && id in Continue(s, run[..n]).jobs && Terminal(Continue(s, run[..n]).jobs[id].status)
  }

  /** The job runs until the run has ended it. */
  lemma {:induction false} RunsUntilEnded(s: State, run: seq<Entry>, agentId: Id, id: Id)
    requires Inv(s) && RunningFor(s, agentId, id) && LegalFrom(s, run)
    ensures var t := Continue(s, run);
        && Inv(t) && id in t.jobs
        && if EndedAfter(s, run, id).None? then RunningFor(t, agentId, id) else Terminal(t.jobs[id].status)
  {
    if run != [] {
      RunsUntilEnded(s, run[..|run| - 1], agentId, id);
      NextStep(s, run, agentId, id);
    }
  }

  lemma EndedWithPrefix(s: State, run: seq<Entry>, agentId: Id, id: Id, m: nat, n: nat)
    requires 0 < n <= m <= |run|
    ensures EndedWith(s, run[..m], agentId, id, n) <==> EndedWith(s, run, agentId, id, n)
    ensures run[..m][..n] == run[..n]
  {
    assert run[..m][..n] == run[..n] && run[..m][..n - 1] == run[..n - 1];
  }

  /** The first step that ends a running job decides it for good, whoever takes it. */
  lemma {:induction false} FirstEndDecides(s: State, run: seq<Entry>, agentId: Id, id: Id)
    requires Inv(s) && RunningFor(s, agentId, id) && LegalFrom(s, run) && EndedAfter(s, run, id).Some?
    ensures var t := Continue(s, run); var n := EndedAfter(s, run, id).value;
        && EndedWith(s, run, agentId, id, n)
        && id in t.jobs && t.jobs[id] == Continue(s, run[..n]).jobs[id]
  {
    var m := |run| - 1;
    var earlier := EndedAfter(s, run[..m], id);
    RunsUntilEnded(s, run, agentId, id);
    RunsUntilEnded(s, run[..m], agentId, id);
    if earlier.Some? {
      FirstEndDecides(s, run[..m], agentId, id);
      NextStep(s, run, agentId, id);
      EndedWithPrefix(s, run, agentId, id, m, earlier.value);
    } else {
      assert run[..|run|] == run;
    }
  }

  /** One more step: an ended job stays as it is, a running one runs on or ends. */
  lemma NextStep(s: State, run: seq<Entry>, agentId: Id, id: Id)
    requires run != [] && LegalFrom(s, run) && Inv(Continue(s, run[..|run| - 1])) && id in Continue(s, run[..|run| - 1]).jobs
    ensures var before, after := Continue(s, run[..|run| - 1]), Continue(s, run);
        && Inv(after) && id in after.jobs
        && (Terminal(before.jobs[id].status) ==> after.jobs[id] == before.jobs[id])
        && (RunningFor(before, agentId, id) ==> Terminal(after.jobs[id].status) || RunningFor(after, agentId, id))
  {
    var before := Continue(s, run[..|run| - 1]);
    StepKeeps(before, run[|run| - 1].step);
    StepKeepsJobs(before, run[|run| - 1].step);
    assert Onward(before.jobs[id], Continue(s, run).jobs[id]);
  }

  // ---- the outcome of a call ----

  /** What a step of the call does to a running job. */
  lemma OwnStepEffect(s: State, step: Step, agentId: Id, id: Id)
    requires Inv(s) && RunningFor(s, agentId, id) && Enabled(s, step) && CallStep(step, agentId, id)
    ensures var t := Take(s, step); var v := OwnVerdict([step]);
        id in t.jobs && t.jobs[id].status == if v.Some? then v.value else Running
  {
    if step.Result? {
      ResultEffect(s, agentId, id, step.wire, step.now);
    } else {
      FailedStatus(s, agentId, id, step.msg, step.now);
    }
  }

  lemma OwnVerdictMore(own: seq<Step>, step: Step)
    ensures OwnVerdict(own + [step]) == if OwnVerdict(own).Some? then OwnVerdict(own) else OwnVerdict([step])
  {
    assert (own + [step])[..|own|] == own;
    assert [step][..0] == [];
  }

  /** The job is not ended by a step of another handler. */
  predicate EndedByOther(s: State, run: seq<Entry>, id: Id) {
    var n := EndedAfter(s, run, id);
    n.Some? && !run[n.value - 1].own
  }

  lemma {:induction false} VerdictIsFinal(own: seq<Step>)
    ensures OwnVerdict(own).Some? ==> Terminal(OwnVerdict(own).value)
  {
    if own != [] {
      VerdictIsFinal(own[..|own| - 1]);
    }
  }

  /** The job's status is what the steps of the call say. */
  predicate AsSaid(t: State, id: Id, own: seq<Step>) {
    id in t.jobs && t.jobs[id].status == if OwnVerdict(own).Some? then OwnVerdict(own).value else Running
  }

  lemma OwnStepAgrees(before: State, step: Step, agentId: Id, id: Id, own: seq<Step>)
    requires Inv(before) && Enabled(before, step) && CallStep(step, agentId, id) && AsSaid(before, id, own)
    requires RunningFor(before, agentId, id) || Terminal(before.jobs[id].status)
    ensures AsSaid(Take(before, step), id, own + [step])
  {
    OwnVerdictMore(own, step);
    VerdictIsFinal(own);
    if RunningFor(before, agentId, id) {
      OwnStepEffect(before, step, agentId, id);
    } else {
      StepKeepsJobs(before, step);
      assert Onward(before.jobs[id], Take(before, step).jobs[id]);
    }
  }

  lemma OtherStepAgrees(before: State, step: Step, agentId: Id, id: Id, own: seq<Step>)
    requires Inv(before) && Enabled(before, step) && AsSaid(before, id, own)
    requires RunningFor(before, agentId, id) ==> Open(Take(before, step), id)
    requires RunningFor(before, agentId, id) || Terminal(before.jobs[id].status)
    ensures AsSaid(Take(before, step), id, own)
  {
    StepKeepsJobs(before, step);
    assert Onward(before.jobs[id], Take(before, step).jobs[id]);
  }

  lemma EndedEarlier(s: State, run: seq<Entry>, id: Id)
    requires run != [] && EndedByOther(s, run[..|run| - 1], id)
    ensures EndedByOther(s, run, id)
  {
  }

  /** Unless another handler ends the job, its state is what the steps of the call say. */
  lemma {:induction false} OwnStepsDecide(s: State, run: seq<Entry>, agentId: Id, id: Id)
    requires Inv(s) && RunningFor(s, agentId, id) && LegalFrom(s, run) && !EndedByOther(s, run, id)
    requires forall k | 0 <= k < |OwnSteps(run)| :: CallStep(OwnSteps(run)[k], agentId, id)
    ensures AsSaid(Continue(s, run), id, OwnSteps(run))
  {
    if run != [] {
      var m := |run| - 1;
      var init, last := run[..m], run[m];
      if EndedByOther(s, init, id) {
        EndedEarlier(s, run, id);
      }
      assert OwnSteps(init) <= OwnSteps(run);
      OwnStepsDecide(s, init, agentId, id);
      RunsUntilEnded(s, init, agentId, id);
      if last.own {
        assert OwnSteps(run)[|OwnSteps(init)|] == last.step;
        OwnStepAgrees(Continue(s, init), last.step, agentId, id, OwnSteps(init));
      } else {
        OtherStepAgrees(Continue(s, init), last.step, agentId, id, OwnSteps(init));
      }
    }
  }

  /** The steps of a call say: the verdict of the first well-formed summary, else failure if the call
      broke or brought no summary. */
  lemma CallVerdict(own: seq<Step>, agentId: Id, id: Id, lines: seq<Line>, err: Outcome)
    requires IsCall(own, agentId, id, lines, err)
    ensures OwnVerdict(own) ==
        if FirstSummary(lines).Some? then Some(Verdict(FirstSummary(lines).value)) else if FailsCall(lines, err) then Some(Failed) else None
  {
    LinesVerdict(own[..|lines|], lines);
    if FailsCall(lines, err) {
      assert own == own[..|lines|] + [own[|lines|]];
      OwnVerdictMore(own[..|lines|], own[|lines|]);
    } else {
      assert own[..|lines|] == own;
    }
  }

  lemma {:induction false} LinesVerdict(own: seq<Step>, lines: seq<Line>)
    requires |own| == |lines| && forall k | 0 <= k < |lines| :: own[k].Result? && own[k].wire == WireOf(lines[k])
    ensures OwnVerdict(own) == if FirstSummary(lines).Some? then Some(Verdict(FirstSummary(lines).value)) else None
  {
    if lines != [] {
      var n := |lines| - 1;
      LinesVerdict(own[..n], lines[..n]);
      SummaryIsLine(lines);
    }
  }

  lemma {:induction false} SummaryIsLine(lines: seq<Line>)
    ensures FirstSummary(lines).Some? ==> FirstSummary(lines).value.SummaryLine?
  {
    if lines != [] {
      SummaryIsLine(lines[..|lines| - 1]);
    }
  }

  /** A call for a running job with any other steps between its own. If another handler ends the job
      first, the job stays as that step left it. Otherwise the first well-formed summary decides; without
      one the job has failed if the call broke or brought no summary, and is left running exactly when a
      clean call brought only malformed summaries. */
  lemma CallAmongOthers(s: State, run: seq<Entry>, agentId: Id, id: Id, lines: seq<Line>, err: Outcome)
    requires Inv(s) && RunningFor(s, agentId, id) && LegalFrom(s, run) && IsCall(OwnSteps(run), agentId, id, lines, err)
    ensures var t := Continue(s, run); var n := EndedAfter(s, run, id); var first := FirstSummary(lines);
        && id in t.jobs
        && if EndedByOther(s, run, id) then
             EndedWith(s, run, agentId, id, n.value) && t.jobs[id] == Continue(s, run[..n.value]).jobs[id]
           else
             t.jobs[id].status == if first.Some? then Verdict(first.value) else if FailsCall(lines, err) then Failed else Running
  {
    if EndedByOther(s, run, id) {
      FirstEndDecides(s, run, agentId, id);
    } else {
      OwnStepsDecide(s, run, agentId, id);
      CallVerdict(OwnSteps(run), agentId, id, lines, err);
    }
  }

  /** A clean call that brings one malformed summary leaves its job running. */
  lemma MalformedSummaryLeavesRunning(s: State, agentId: Id, id: Id, now: Time)
    requires Inv(s) && RunningFor(s, agentId, id)
    ensures RunningFor(Invoked(s, agentId, id, [BadSummary], Clean, now), agentId, id)
  {
    InvocationDecides(s, agentId, id, [BadSummary], Clean, now);
    assert [BadSummary][..0] == [];
    assert FirstSummary([BadSummary]) == None && GotSummary([BadSummary]);
    ReportedStatus(s, agentId, id, [BadSummary], now);
  }
}

/** The part of the hub that talks to HTTP agents. Each line that arrives and the end of the call are
    steps of their own. */
module HttpAgents {
  import opened Text
  import opened Model
  import opened Jobs
  import opened Lifecycle
  import opened HttpInvocations
  import opened HttpRuns
  import opened Hubs

  /** Handles one line as it arrives and notes whether a summary has been seen. */
  method HandleLine(hub: Hub, agentId: Id, id: Id, line: Line, gotParsed: bool, now: Time) returns (got: bool)
    requires Keyed(hub.store.jobs)
    modifies hub`running, hub.store
    ensures got == (gotParsed || IsSummary(line)) && Keyed(hub.store.jobs)
    ensures hub.View() == HandleResult(old(hub.View()), agentId, id, WireOf(line), now)
  {
    got := gotParsed;
    if IsSummary(line) {
      got := true;
    }
    hub.HandleResult(agentId, id, WireOf(line), now);
  }

  /** The end of the call: a failure step iff the call broke or brought no summary. */
  method FinishCall(hub: Hub, agentId: Id, id: Id, err: Outcome, gotParsed: bool, now: Time)
    requires Keyed(hub.store.jobs) && agentId != NoId
    modifies hub`running, hub.store
    ensures Keyed(hub.store.jobs)
    ensures hub.View() == if err.Broken? || !gotParsed
        then FailJob(old(hub.View()), agentId, id, FailureOf(err), now) else old(hub.View())
  {
    ClearTwice(hub.running, agentId, id);
    if err.Broken? {
      hub.ClearInflight(agentId, id);
      hub.FailJob(agentId, id, err.msg, now);
    } else if !gotParsed {
      hub.ClearInflight(agentId, id);
      hub.FailJob(agentId, id, "http agent did not return parsed result", now);
    }
  }

  /** A whole invocation while no other handler runs. HTTP agents have non-empty IDs. */
  method InvokeHttpAgent(hub: Hub, agentId: Id, id: Id, attempts: int, world: int -> Attempt, stop: int -> bool, now: Time)
    returns (lines: seq<Line>, err: Outcome, tries: int)
    requires Keyed(hub.store.jobs) && agentId != NoId
    modifies hub`running, hub.store
    ensures 1 <= tries <= AttemptLimit(attempts) && Attempt(lines, err) == world(tries)
    ensures hub.View() == Invoked(old(hub.View()), agentId, id, lines, err, now) && Keyed(hub.store.jobs)
  {
    lines, err, tries := CallWithAttempts(attempts, world, stop);
    var gotParsed := false;
    for k := 0 to |lines|
      invariant Keyed(hub.store.jobs) && (gotParsed <==> GotSummary(lines[..k]))
      invariant hub.View() == Reported(old(hub.View()), agentId, id, lines[..k], now)
    {
      assert lines[..k + 1][..k] == lines[..k];
      gotParsed := HandleLine(hub, agentId, id, lines[k], gotParsed, now);
    }
    assert lines[..|lines|] == lines;
    FinishCall(hub, agentId, id, err, gotParsed, now);
  }
}
