/** The jobs of a tick as jobs of the protocol: what the scheduler stores is a legal creation step. */
module ScheduledJobs {
  import opened Text
  import opened Model
  import opened Jobs
  import opened Lifecycle
  import opened LifecycleRuns
  import opened Schedules
  import opened ScheduleRuns
  import ScheduleStore

  /** The queued job of a run, under a generated ID; `key` names agents as the protocol does. */
  function ToJob(run: Run, id: Id, key: string -> Id, now: Time): Job {
    Job(id, NoId, run.scheduleId, run.tool, run.ipVersion, key(run.agentId), Queued, now, None, None, "")
  }

  function ToJobs(runs: seq<Run>, ids: seq<Id>, key: string -> Id, now: Time): (jobs: seq<Job>)
    requires |ids| == |runs|
    ensures |jobs| == |runs| && forall i | 0 <= i < |runs| :: jobs[i] == ToJob(runs[i], ids[i], key, now)
  {
    seq(|runs|, i requires 0 <= i < |runs| => ToJob(runs[i], ids[i], key, now))
  }

  /** Generated IDs: distinct, and used by no job. */
  predicate NewIds(jobs: JobMap, ids: seq<Id>) {
    && (forall i, j | 0 <= i < j < |ids| :: ids[i] != ids[j])
    && forall i | 0 <= i < |ids| :: ids[i] !in jobs && ids[i] != NoId
  }

  ghost predicate Injective(key: string -> Id) { forall a, b | key(a) == key(b) :: a == b }

  lemma LegalMore(steps: seq<Step>, step: Step)
    requires Legal(steps) && Enabled(After(steps), step)
    ensures Legal(steps + [step]) && After(steps + [step]) == Take(After(steps), step)
  {
    var more := steps + [step];
    assert more[..|steps|] == steps;
    forall k | 0 <= k < |more| ensures Enabled(After(more[..k]), more[k]) {
      if k < |steps| {
        assert more[..k] == steps[..k];
      }
    }
  }

  /** Each run has its job, and different jobs are for different agents. */
  ghost predicate OneJobEach(jobs: JobMap, ids: seq<Id>, runs: seq<Run>, key: string -> Id) {
    && |ids| == |runs|
    && (forall i | 0 <= i < |runs| :: ids[i] in jobs && jobs[ids[i]].agentId == key(runs[i].agentId))
    && (forall i, j | 0 <= i < j < |runs| && ids[i] in jobs && ids[j] in jobs :: jobs[ids[i]].agentId != jobs[ids[j]].agentId)
  }

  /** One queued job of the schedule is added for each run, and no other job changes. */
  ghost predicate Added(before: JobMap, after: JobMap, scheduleId: Id, ids: seq<Id>, runs: seq<Run>, key: string -> Id) {
    && (forall id | id in before :: id in after && after[id] == before[id])
    && (forall id | id in after && id !in before :: id in ids && after[id].status == Queued && after[id].scheduledId == scheduleId)
    && OneJobEach(after, ids, runs, key)
  }

  /** The runs of one schedule, each for another agent. */
  predicate RunsOf(runs: seq<Run>, scheduleId: Id) {
    && (forall i | 0 <= i < |runs| :: runs[i].scheduleId == scheduleId)
    && (forall i, j | 0 <= i < j < |runs| :: runs[i].agentId != runs[j].agentId)
  }

  lemma BatchRuns(site: Site, facts: TargetFacts, s: Schedule, now: Time, runs: seq<Run>)
    requires BatchOf(site, facts, s, now, runs)
    ensures RunsOf(runs, s.id)
  {
  }

  lemma JobsAdded(before: JobMap, scheduleId: Id, runs: seq<Run>, ids: seq<Id>, key: string -> Id, now: Time)
    requires RunsOf(runs, scheduleId) && |ids| == |runs| && NewIds(before, ids) && Injective(key)
    ensures var jobs := ToJobs(runs, ids, key, now);
        && FreshBatch(before, jobs) && (forall i | 0 <= i < |jobs| :: NewTopLevel(jobs[i]))
        && Added(before, Insert(before, jobs), scheduleId, ids, runs, key)
  {
    var jobs := ToJobs(runs, ids, key, now);
    InsertFresh(before, jobs);
    var after := Insert(before, jobs);
    forall i | 0 <= i < |runs| ensures ids[i] in after && after[ids[i]] == jobs[i] {
      assert jobs[i].id == ids[i];
    }
  }

  /** After any legal run, the jobs a tick creates from one schedule are a legal step. It adds, for each
      agent that is chosen, exactly one queued job of the schedule, and changes no other job. */
  lemma BatchIsStep(steps: seq<Step>, site: Site, facts: TargetFacts, s: Schedule, now: Time, runs: seq<Run>,
                    ids: seq<Id>, key: string -> Id)
    requires Legal(steps) && BatchOf(site, facts, s, now, runs) && |ids| == |runs| && NewIds(After(steps).jobs, ids)
    requires Injective(key)
    ensures var step := CreateScheduled(ToJobs(runs, ids, key, now));
        && Legal(steps + [step])
        && Added(After(steps).jobs, After(steps + [step]).jobs, s.id, ids, runs, key)
  {
    BatchRuns(site, facts, s, now, runs);
    RunsAreStep(steps, s.id, now, runs, ids, key);
  }

  lemma RunsAreStep(steps: seq<Step>, scheduleId: Id, now: Time, runs: seq<Run>, ids: seq<Id>, key: string -> Id)
    requires Legal(steps) && RunsOf(runs, scheduleId) && |ids| == |runs| && NewIds(After(steps).jobs, ids) && Injective(key)
    ensures var step := CreateScheduled(ToJobs(runs, ids, key, now));
        && Legal(steps + [step])
        && Added(After(steps).jobs, After(steps + [step]).jobs, scheduleId, ids, runs, key)
  {
    JobsAdded(After(steps).jobs, scheduleId, runs, ids, key, now);
    LegalMore(steps, CreateScheduled(ToJobs(runs, ids, key, now)));
  }

  /** A whole tick: one creation step for each batch, with IDs generated when the batch is stored. */
  function TickSteps(steps: seq<Step>, batches: seq<seq<Run>>, ids: seq<seq<Id>>, key: string -> Id, now: Time): seq<Step>
    requires |ids| == |batches| && forall k | 0 <= k < |batches| :: |ids[k]| == |batches[k]|
  {
    if batches == [] then steps
    else
      var n := |batches| - 1;
      TickSteps(steps, batches[..n], ids[..n], key, now) + [CreateScheduled(ToJobs(batches[n], ids[n], key, now))]
  }

  ghost predicate IdsNew(steps: seq<Step>, batches: seq<seq<Run>>, ids: seq<seq<Id>>, key: string -> Id, now: Time)
    requires |ids| == |batches| && forall k | 0 <= k < |batches| :: |ids[k]| == |batches[k]|
  {
    batches == [] ||
    var n := |batches| - 1;
    IdsNew(steps, batches[..n], ids[..n], key, now) && NewIds(After(TickSteps(steps, batches[..n], ids[..n], key, now)).jobs, ids[n])
  }

  /** All batches of a tick continue any legal run. */
  lemma {:induction false} TickContinuesRun(steps: seq<Step>, list: seq<Schedule>, batches: seq<seq<Run>>, ids: seq<seq<Id>>,
                                            key: string -> Id, now: Time)
    requires Legal(steps) && |list| == |ids| == |batches| && Injective(key)
    requires forall k | 0 <= k < |batches| :: |ids[k]| == |batches[k]| && RunsOf(batches[k], list[k].id)
    requires IdsNew(steps, batches, ids, key, now)
    ensures Legal(TickSteps(steps, batches, ids, key, now))
  {
    if batches != [] {
      var n := |batches| - 1;
      TickContinuesRun(steps, list[..n], batches[..n], ids[..n], key, now);
      RunsAreStep(TickSteps(steps, batches[..n], ids[..n], key, now), list[n].id, now, batches[n], ids[n], key);
    }
  }

  /** The same for the batches of a tick as the store records them. */
  lemma TickIsLegal(steps: seq<Step>, site: Site, facts: Id -> TargetFacts, now: Time, list: seq<Schedule>,
                    batches: seq<seq<Run>>, outs: seq<Schedule>, ids: seq<seq<Id>>, key: string -> Id)
    requires ScheduleStore.Ran(site, facts, now, list, batches, outs) && |list| == |ids| == |batches|
    requires Legal(steps) && Injective(key) && (forall k | 0 <= k < |batches| :: |ids[k]| == |batches[k]|)
    requires IdsNew(steps, batches, ids, key, now)
    ensures Legal(TickSteps(steps, batches, ids, key, now))
  {
    forall k | 0 <= k < |batches| ensures RunsOf(batches[k], list[k].id) {
      ScheduleStore.RanAt(site, facts, now, list, batches, outs, k);
      BatchRuns(site, facts(list[k].id), list[k], now, batches[k]);
    }
    TickContinuesRun(steps, list, batches, ids, key, now);
  }
}
