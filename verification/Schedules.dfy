/** Scheduled jobs: their targets, the aggregate run times that serve as an index over the targets,
    and the step that moves due targets on. */
module Schedules {
  import opened Text
  import opened Model
  import opened AllowedArgs

  /** One target of a schedule: the agents carrying the label `tag`, narrowed to `allowed` unless that
      is empty. */
  datatype Target = Target(
    id: Id, tag: string, allowed: seq<string>, intervalSeconds: int, nextRunAt: Time, lastRunAt: Option<Time>)

  datatype Schedule = Schedule(
    id: Id, revision: int, enabled: bool, tool: Tool, target: string, args: Args, ipVersion: IPVersion,
    resolveOnAgent: bool, intervalSeconds: int, nextRunAt: Time, lastRunAt: Option<Time>, targets: seq<Target>)

  // ---- the aggregate run times ----

  ghost predicate IsEarliest(next: Time, targets: seq<Target>) {
    && (exists i | 0 <= i < |targets| :: targets[i].nextRunAt == next)
    && (forall i | 0 <= i < |targets| :: next <= targets[i].nextRunAt)
  }

  ghost predicate IsLatest(last: Option<Time>, targets: seq<Target>) {
    && (last.Some? ==> exists i | 0 <= i < |targets| :: targets[i].lastRunAt == last)
    && (forall i | 0 <= i < |targets| && targets[i].lastRunAt.Some? :: last.Some? && targets[i].lastRunAt.value <= last.value)
  }

  /** The aggregate fields are the earliest next run and the latest last run of the targets. */
  ghost predicate Indexed(s: Schedule) { IsEarliest(s.nextRunAt, s.targets) && IsLatest(s.lastRunAt, s.targets) }

  /** The loop shared by both copies of the aggregation. */
  method AggregateRunFields(targets: seq<Target>) returns (next: Time, last: Option<Time>)
    requires targets != []
    ensures IsEarliest(next, targets) && IsLatest(last, targets)
  {
    next, last := targets[0].nextRunAt, None;
    for k := 0 to |targets|
      invariant exists i | 0 <= i < |targets| :: targets[i].nextRunAt == next
      invariant forall i | 0 <= i < k :: next <= targets[i].nextRunAt
      invariant last.Some? ==> exists i | 0 <= i < |targets| :: targets[i].lastRunAt == last
      invariant forall i | 0 <= i < k && targets[i].lastRunAt.Some? :: last.Some? && targets[i].lastRunAt.value <= last.value
    {
      if targets[k].nextRunAt < next {
        next := targets[k].nextRunAt;
      }
      if targets[k].lastRunAt.Some? && (last.None? || targets[k].lastRunAt.value > last.value) {
        last := targets[k].lastRunAt;
      }
    }
  }

  /** The hub's copy. */
  method SyncAggregateRunFields(s: Schedule) returns (out: Schedule)
    ensures out == s.(nextRunAt := out.nextRunAt, lastRunAt := out.lastRunAt)
    ensures if s.targets == [] then out == s else Indexed(out)
  {
    out := s;
    if s.targets != [] {
      var next, last := AggregateRunFields(s.targets);
      out := s.(nextRunAt := next, lastRunAt := last);
    }
  }

  /** The API's copy, which also takes over the interval of the first target. */
  method NormalizeRunFields(s: Schedule) returns (out: Schedule)
    ensures out == s.(nextRunAt := out.nextRunAt, lastRunAt := out.lastRunAt, intervalSeconds := out.intervalSeconds)
    ensures if s.targets == [] then out == s else Indexed(out) && out.intervalSeconds == s.targets[0].intervalSeconds
  {
    out := s;
    if s.targets != [] {
      var next, last := AggregateRunFields(s.targets);
      out := s.(nextRunAt := next, lastRunAt := last, intervalSeconds := s.targets[0].intervalSeconds);
    }
  }

  // ---- due targets ----

  predicate Due(t: Target, now: Time) { t.nextRunAt == ZERO_TIME || t.nextRunAt <= now }

  /** The index works: a schedule's own next run is due iff some target is. */
  lemma IndexFindsDue(s: Schedule, now: Time)
    requires Indexed(s) && now >= ZERO_TIME
    ensures s.nextRunAt <= now <==> exists t | t in s.targets :: Due(t, now)
  {
    var i :| 0 <= i < |s.targets| && s.targets[i].nextRunAt == s.nextRunAt;
    assert s.targets[i] in s.targets;
  }

  /** The due targets, in their order. */
  function DueOf(targets: seq<Target>, now: Time): (r: seq<Target>)
    ensures forall t :: t in r <==> t in targets && Due(t, now)
  {
    if targets == [] then []
    else
      var n := |targets| - 1;
      assert targets == targets[..n] + [targets[n]];
      var init := DueOf(targets[..n], now);
      if Due(targets[n], now) then init + [targets[n]] else init
  }

  method DueTargets(s: Schedule, now: Time) returns (out: seq<Target>)
    ensures out == DueOf(s.targets, now)
    ensures forall t :: t in out <==> t in s.targets && Due(t, now)
  {
    out := [];
    for k := 0 to |s.targets|
      invariant out == DueOf(s.targets[..k], now)
    {
      assert s.targets[..k + 1][..k] == s.targets[..k];
      if Due(s.targets[k], now) {
        out := out + [s.targets[k]];
      }
    }
    assert s.targets[..|s.targets|] == s.targets;
  }

  // ---- moving a target on ----

  /** In nanoseconds; ten seconds when none is set. */
  function IntervalOf(t: Target): (d: Time)
    ensures t.intervalSeconds > 0 ==> d == t.intervalSeconds * SECOND
    ensures t.intervalSeconds <= 0 ==> d == 10 * SECOND
  {
    if t.intervalSeconds * SECOND <= 0 then 10 * SECOND else t.intervalSeconds * SECOND
  }

  /** The next run is in the future; for a due target it is at most one interval away, and it keeps the
      old phase exactly when the run is less than one interval late. */
  function NextTargetRun(t: Target, now: Time): (next: Time)
    ensures next > now
    ensures t.intervalSeconds > 0 ==> NextAfter(t.nextRunAt, t.intervalSeconds * SECOND, now, next)
    ensures t.intervalSeconds <= 0 ==> NextAfter(t.nextRunAt, 10 * SECOND, now, next)
  {
    var candidate := t.nextRunAt + IntervalOf(t);
    if candidate > now then candidate else now + IntervalOf(t)
  }

  /** `next` is one interval after the planned run if that is still to come, else one interval from now. */
  predicate NextAfter(planned: Time, interval: Time, now: Time, next: Time) {
    && (planned + interval > now ==> next == planned + interval)
    && (planned + interval <= now ==> next == now + interval)
    && (planned <= now ==> next <= now + interval)
  }

  function Advanced(t: Target, now: Time): Target {
    if Due(t, now) then t.(lastRunAt := Some(now), nextRunAt := NextTargetRun(t, now)) else t
  }

  /** The target has run at `now`: its last run is now, its next run one interval on, and the rest is as it
      was. */
  predicate HasRun(t: Target, now: Time, u: Target) {
    && u == t.(nextRunAt := u.nextRunAt, lastRunAt := Some(now)) && u.nextRunAt > now
    && NextAfter(t.nextRunAt, if t.intervalSeconds > 0 then t.intervalSeconds * SECOND else 10 * SECOND, now, u.nextRunAt)
  }

  /** A target whose time has come runs, and any other stays as it is. */
  lemma AdvancedRuns(t: Target, now: Time)
    requires now >= ZERO_TIME
    ensures if t.nextRunAt <= now then HasRun(t, now, Advanced(t, now)) else Advanced(t, now) == t
  {
  }

  ghost predicate DistinctTargets(targets: seq<Target>) {
    && (forall i, j | 0 <= i < j < |targets| :: targets[i].id != targets[j].id)
    && (forall i, j | 0 <= i < j < |targets| :: targets[i].tag != targets[j].tag)
  }

  /** What every stored schedule keeps. */
  ghost predicate Kept(s: Schedule) { s.targets != [] && DistinctTargets(s.targets) && Indexed(s) }

  /** Moves on every due target, leaves the others as they are, and keeps the index. */
  method AdvanceTargets(s: Schedule, due: seq<Target>, now: Time) returns (out: Schedule)
    requires DistinctTargets(s.targets) && forall t :: t in due <==> t in s.targets && Due(t, now)
    ensures out == s.(targets := out.targets, nextRunAt := out.nextRunAt, lastRunAt := out.lastRunAt)
    ensures |out.targets| == |s.targets| && forall i | 0 <= i < |s.targets| :: out.targets[i] == Advanced(s.targets[i], now)
    ensures forall i | 0 <= i < |s.targets| && s.targets[i] in due :: HasRun(s.targets[i], now, out.targets[i])
    ensures forall i | 0 <= i < |s.targets| && s.targets[i] !in due :: out.targets[i] == s.targets[i]
    ensures if s.targets == [] then out == s else Kept(out)
  {
    var ids := CollectIds(due);
    var targets := s.targets;
    for i := 0 to |targets|
      invariant |targets| == |s.targets|
      invariant forall j | 0 <= j < i :: targets[j] == Advanced(s.targets[j], now)
      invariant forall j | i <= j < |targets| :: targets[j] == s.targets[j]
    {
      DueById(s.targets, due, now, i);
      if targets[i].id in ids {
        targets := targets[i := targets[i].(lastRunAt := Some(now), nextRunAt := NextTargetRun(targets[i], now))];
      }
    }
    out := SyncAggregateRunFields(s.(targets := targets));
    AdvancedDistinct(s.targets, out.targets, now);
  }

  method CollectIds(targets: seq<Target>) returns (ids: set<Id>)
    ensures forall id :: id in ids <==> exists t | t in targets :: t.id == id
  {
    ids := {};
    for k := 0 to |targets|
      invariant forall id :: id in ids <==> exists t | t in targets[..k] :: t.id == id
    {
      assert targets[..k + 1] == targets[..k] + [targets[k]];
      ids := ids + {targets[k].id};
    }
    assert targets[..|targets|] == targets;
  }

  lemma DueById(targets: seq<Target>, due: seq<Target>, now: Time, i: int)
    requires 0 <= i < |targets| && DistinctTargets(targets) && forall t :: t in due <==> t in targets && Due(t, now)
    ensures (exists t | t in due :: t.id == targets[i].id) <==> Due(targets[i], now)
  {
    if t :| t in due && t.id == targets[i].id {
      var j :| 0 <= j < |targets| && targets[j] == t;
      assert i == j;
    }
    if Due(targets[i], now) {
      assert targets[i] in due;
    }
  }

  lemma AdvancedDistinct(targets: seq<Target>, after: seq<Target>, now: Time)
    requires DistinctTargets(targets) && |after| == |targets|
    requires forall i | 0 <= i < |targets| :: after[i] == Advanced(targets[i], now)
    ensures DistinctTargets(after)
  {
    forall i | 0 <= i < |targets| ensures after[i].id == targets[i].id && after[i].tag == targets[i].tag {
    }
  }

  /** After a run nothing of the schedule is due at the same time any more. */
  lemma NothingDueAfterRun(s: Schedule, out: Schedule, now: Time)
    requires now >= ZERO_TIME && |out.targets| == |s.targets| && Indexed(out)
    requires forall i | 0 <= i < |s.targets| :: out.targets[i] == Advanced(s.targets[i], now)
    ensures out.nextRunAt > now
  {
    var i :| 0 <= i < |out.targets| && out.targets[i].nextRunAt == out.nextRunAt;
    assert out.targets[i] == Advanced(s.targets[i], now);
  }

  // ---- many ticks ----

  /** A target after ticks at the given times. */
  function AfterTicks(t: Target, ticks: seq<Time>): Target {
    if ticks == [] then t else Advanced(AfterTicks(t, ticks[..|ticks| - 1]), ticks[|ticks| - 1])
  }

  /** How often the target ran. */
  function Firings(t: Target, ticks: seq<Time>): nat {
    if ticks == [] then 0
    else
      var init := ticks[..|ticks| - 1];
      Firings(t, init) + if Due(AfterTicks(t, init), ticks[|ticks| - 1]) then 1 else 0
  }

  predicate Clock(ticks: seq<Time>) {
    && (forall i | 0 <= i < |ticks| :: ticks[i] >= ZERO_TIME)
    && (forall i, j | 0 <= i < j < |ticks| :: ticks[i] <= ticks[j])
  }

  lemma {:induction false} TicksKeepInterval(t: Target, ticks: seq<Time>)
    ensures IntervalOf(AfterTicks(t, ticks)) == IntervalOf(t)
  {
    if ticks != [] {
      TicksKeepInterval(t, ticks[..|ticks| - 1]);
    }
  }

  lemma AdvancedMovesOn(t: Target, now: Time)
    requires now >= ZERO_TIME
    ensures Advanced(t, now).nextRunAt >= t.nextRunAt + if Due(t, now) then IntervalOf(t) else 0
  {
  }

  lemma OneMore(k: nat, d: Time)
    ensures (k + 1) * d == k * d + d
  {
  }

  /** Every firing moves the next run on by at least one interval `d`. */
  lemma {:induction false} FiringsMoveOn(t: Target, ticks: seq<Time>, d: Time)
    requires Clock(ticks) && d == if t.intervalSeconds > 0 then t.intervalSeconds * SECOND else 10 * SECOND
    ensures AfterTicks(t, ticks).nextRunAt >= t.nextRunAt + Firings(t, ticks) * d
  {
    if ticks != [] {
      var init := ticks[..|ticks| - 1];
      FiringsMoveOn(t, init, d);
      TicksKeepInterval(t, init);
      AdvancedMovesOn(AfterTicks(t, init), ticks[|ticks| - 1]);
      OneMore(Firings(t, init), d);
    }
  }

  /** However the ticks fall, a target never runs more often than its interval allows: k runs up to
      the time `now` need k - 1 whole intervals since its first planned run. */
  lemma {:induction false} FiringsBounded(t: Target, ticks: seq<Time>, now: Time, d: Time)
    requires Clock(ticks) && forall i | 0 <= i < |ticks| :: ticks[i] <= now
    requires d == if t.intervalSeconds > 0 then t.intervalSeconds * SECOND else 10 * SECOND
    ensures Firings(t, ticks) > 0 ==> t.nextRunAt + (Firings(t, ticks) - 1) * d <= now
  {
    if ticks != [] {
      var init := ticks[..|ticks| - 1];
      if Due(AfterTicks(t, init), ticks[|ticks| - 1]) {
        FiringsMoveOn(t, init, d);
      } else {
        FiringsBounded(t, init, now, d);
      }
    }
  }
}
