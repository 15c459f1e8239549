/** A tick of the scheduler: which agents get a job from the due targets of a schedule. */
module ScheduleRuns {
  import opened Text
  import opened Model
  import opened AllowedArgs
  import opened Runtimes
  import opened Policies
  import opened Authz
  import opened Schedules

  /** What the hub knows when a tick comes: the directory, the agents switched off, and for the
      schedule's target the outcomes of the address checks and of name resolution. */
  datatype Site = Site(dir: Directory, disabled: set<string>, order: seq<string>)

  /** `ok`: the target is well formed for the tool; `literal`: the version of a literal address, IP_ANY
      for a name, None on an error; `resolved`: the version name resolution gives, None on an error. */
  datatype TargetFacts = TargetFacts(ok: bool, literal: Option<IPVersion>, resolved: Option<IPVersion>)

  /** A job created for one agent. */
  datatype Run = Run(agentId: string, scheduleId: Id, revision: int, tool: Tool, target: string, args: Args, ipVersion: IPVersion)

  ghost predicate SiteKept(site: Site) {
    WellKept(site.dir) && forall id :: id in site.order <==> id in site.dir.agents
  }

  // ---- which agents ----

  predicate AllowsAgent(t: Target, id: string) { t.allowed == [] || id in t.allowed }

  predicate MatchesAgent(t: Target, agent: Agent) { exists l | l in agent.labels :: TrimSpace(l) == TrimSpace(t.tag) }

  /** The target reaches the agent: enabled, labelled, allowed, online and able. */
  predicate Reaches(site: Site, s: Schedule, version: IPVersion, t: Target, id: string) {
    && id in site.dir.agents && id !in site.disabled
    && var agent := ManagedAgent(site.dir, id);
    && MatchesAgent(t, agent) && AllowsAgent(t, id) && AgentSupports(agent, s.tool, version)
  }

  /** The agent's own labels accept the schedule: the tool is available and every argument is accepted. */
  ghost predicate Passes(site: Site, s: Schedule, ok: bool, id: string) {
    var labels := ManagedLabels(site.dir, id);
    && ok && ToolAvailable(site.dir, labels, s.tool)
    && (RequiresPortArg(s.tool) ==> TrimSpace(ArgOr(s.args, "port", "")) != "")
    && forall key | key in s.args && !ServerOwned(key) :: ValueAccepted(site.dir, labels, s.tool, key, s.args[key])
  }

  /** Some due target of the schedule reaches the agent, and the agent's own labels accept it. */
  ghost predicate Chosen(site: Site, s: Schedule, version: IPVersion, ok: bool, now: Time, id: string) {
    Passes(site, s, ok, id) && exists t | t in s.targets && Due(t, now) :: Reaches(site, s, version, t, id)
  }

  ghost predicate AreChosen(site: Site, s: Schedule, version: IPVersion, ok: bool, now: Time, ids: set<string>) {
    forall id :: id in ids <==> Chosen(site, s, version, ok, now, id)
  }

  /** The agents of the list that the target reaches, in their order. */
  function ReachedOf(site: Site, s: Schedule, version: IPVersion, t: Target, ids: seq<string>): seq<string> {
    if ids == [] then []
    else
      var init := ReachedOf(site, s, version, t, ids[..|ids| - 1]);
      var last := ids[|ids| - 1];
      if Reaches(site, s, version, t, last) then init + [last] else init
  }

  method TargetAgents(site: Site, s: Schedule, version: IPVersion, t: Target) returns (out: seq<string>)
    requires SiteKept(site)
    ensures out == ReachedOf(site, s, version, t, site.order)
    ensures forall id :: id in out <==> Reaches(site, s, version, t, id)
  {
    out := [];
    for k := 0 to |site.order|
      invariant forall id :: id in out <==> id in site.order[..k] && Reaches(site, s, version, t, id)
      invariant out == ReachedOf(site, s, version, t, site.order[..k])
    {
      var id := site.order[k];
      assert site.order[..k + 1] == site.order[..k] + [id] && site.order[..k + 1][..k] == site.order[..k];
      assert id in site.order;
      var agent := ManagedAgent(site.dir, id);
      if id !in site.disabled && MatchesAgent(t, agent) && AllowsAgent(t, id) && AgentSupports(agent, s.tool, version) {
        out := out + [id];
      }
    }
    assert site.order[..|site.order|] == site.order;
  }

  // ---- the agent's own policy ----

  /** The arguments of a job: the schedule's own, with those the server owns set from the limits of the
      agent's labels. */
  ghost predicate ArgsFor(site: Site, s: Schedule, id: string, args: Args) {
    && (forall key | !ServerOwned(key) :: key in args <==> key in s.args)
    && (forall key | !ServerOwned(key) && key in s.args :: args[key] == s.args[key])
    && ("count" in args <==> s.tool == Ping || s.tool == Mtr)
    && ("max_hops" in args <==> s.tool == Traceroute || s.tool == Mtr)
    && exists r :: PointwiseLeast(r, site.dir.base.runtime, LabelRuntimes(site.dir.configs, ManagedLabels(site.dir, id)))
         && ("count" in args ==> args["count"] == Itoa(PositiveOr(r.count, 10)))
         && ("max_hops" in args ==> args["max_hops"] == Itoa(PositiveOr(r.maxHops, 30)))
  }

  method CheckAgent(site: Site, s: Schedule, ok: bool, id: string) returns (passes: bool, args: Args)
    requires WellKept(site.dir)
    ensures passes <==> Passes(site, s, ok, id)
    ensures passes ==> ArgsFor(site, s, id, args)
  {
    var labels := ManagedLabels(site.dir, id);
    var policies := HubPoliciesForLabels(site.dir.base, site.dir.configs, labels);
    var req := Request(s.tool, s.args, s.ipVersion, id, s.resolveOnAgent);
    passes := Validate(policies, req, false, ok);
    args := ServerArgs(s.tool, s.args, policies.runtime);
    AdmitsIsPasses(site, s, ok, id, policies, req);
  }

  lemma AdmitsIsPasses(site: Site, s: Schedule, ok: bool, id: string, policies: PolicySet, req: Request)
    requires EffectivePolicies(site.dir.base, site.dir.configs, ManagedLabels(site.dir, id), policies)
    requires req == Request(s.tool, s.args, s.ipVersion, id, s.resolveOnAgent)
    ensures Admits(policies, req, false, ok) <==> Passes(site, s, ok, id)
  {
    var labels := ManagedLabels(site.dir, id);
    if s.tool in policies.byTool {
      forall key | key in s.args
        ensures ArgsAccept(policies.byTool[s.tool].allowedArgs, key, s.args[key]) <==>
                ValueAccepted(site.dir, labels, s.tool, key, s.args[key])
      {
      }
    }
  }

  // ---- the jobs of one schedule ----

  ghost predicate RunFor(site: Site, s: Schedule, version: IPVersion, run: Run) {
    && run == Run(run.agentId, s.id, s.revision, s.tool, s.target, run.args, version)
    && ArgsFor(site, s, run.agentId, run.args)
  }

  /** One job for each agent in `ids`, none for any other and none twice. */
  ghost predicate OnePerAgent(site: Site, s: Schedule, version: IPVersion, runs: seq<Run>, ids: set<string>) {
    && (forall i | 0 <= i < |runs| :: runs[i].agentId in ids && RunFor(site, s, version, runs[i]))
    && (forall id | id in ids :: exists i | 0 <= i < |runs| :: runs[i].agentId == id)
    && (forall i, j | 0 <= i < j < |runs| :: runs[i].agentId != runs[j].agentId)
  }

  lemma OneMoreAgent(site: Site, s: Schedule, version: IPVersion, runs: seq<Run>, ids: set<string>, run: Run)
    requires OnePerAgent(site, s, version, runs, ids) && run.agentId !in ids && RunFor(site, s, version, run)
    ensures OnePerAgent(site, s, version, runs + [run], ids + {run.agentId})
  {
    var more := runs + [run];
    assert more[|runs|].agentId == run.agentId;
    forall id | id in ids ensures exists i | 0 <= i < |more| :: more[i].agentId == id {
      var i :| 0 <= i < |runs| && runs[i].agentId == id;
      assert more[i].agentId == id;
    }
  }

  /** The jobs for the agents one target reaches, leaving out agents already served. */
  method RunsForAgents(site: Site, s: Schedule, version: IPVersion, ok: bool, agents: seq<string>, runs: seq<Run>, seen: set<string>)
    returns (outRuns: seq<Run>, outSeen: set<string>)
    requires WellKept(site.dir) && OnePerAgent(site, s, version, runs, seen)
    ensures OnePerAgent(site, s, version, outRuns, outSeen)
    ensures forall id :: id in outSeen <==> id in seen || (id in agents && Passes(site, s, ok, id))
  {
    outRuns, outSeen := runs, seen;
    for k := 0 to |agents|
      invariant OnePerAgent(site, s, version, outRuns, outSeen)
      invariant forall id :: id in outSeen <==> id in seen || (id in agents[..k] && Passes(site, s, ok, id))
    {
      var id := agents[k];
      assert agents[..k + 1] == agents[..k] + [id];
      if id !in outSeen {
        var passes, args := CheckAgent(site, s, ok, id);
        if passes {
          var run := Run(id, s.id, s.revision, s.tool, s.target, args, version);
          OneMoreAgent(site, s, version, outRuns, outSeen, run);
          outSeen := outSeen + {id};
          outRuns := outRuns + [run];
        }
      }
    }
    assert agents[..|agents|] == agents;
  }

  /** The jobs for all due targets, however they overlap. */
  method RunsForTargets(site: Site, s: Schedule, version: IPVersion, ok: bool, due: seq<Target>)
    returns (runs: seq<Run>, seen: set<string>)
    requires SiteKept(site)
    ensures OnePerAgent(site, s, version, runs, seen)
    ensures forall id :: id in seen <==> Passes(site, s, ok, id) && exists t | t in due :: Reaches(site, s, version, t, id)
  {
    runs, seen := [], {};
    for k := 0 to |due|
      invariant OnePerAgent(site, s, version, runs, seen)
      invariant forall id :: id in seen <==> Passes(site, s, ok, id) && exists t | t in due[..k] :: Reaches(site, s, version, t, id)
    {
      assert due[..k + 1] == due[..k] + [due[k]];
      var agents := TargetAgents(site, s, version, due[k]);
      runs, seen := RunsForAgents(site, s, version, ok, agents, runs, seen);
    }
    assert due[..|due|] == due;
  }

  /** The IP version of the jobs, or nothing when the target cannot be judged or resolved. */
  function JobVersion(s: Schedule, facts: TargetFacts): Option<IPVersion> {
    if s.resolveOnAgent then
      if facts.literal.None? then None
      else if facts.literal.value != IP_ANY && s.ipVersion == IP_ANY then facts.literal else Some(s.ipVersion)
    else if s.tool != Dns then
      if facts.resolved.None? then None
      else if s.ipVersion == IP_ANY && facts.resolved.value != IP_ANY then facts.resolved else Some(s.ipVersion)
    else Some(s.ipVersion)
  }

  /** A version the schedule names is kept. One it leaves open is that of a literal address when agents
      resolve the target, or that of the address the server resolved; names resolved by agents, and DNS
      queries, leave it open. A target that cannot be judged or resolved gives no jobs. */
  lemma JobVersionMeaning(s: Schedule, facts: TargetFacts)
    ensures s.resolveOnAgent ==> (JobVersion(s, facts) == None <==> facts.literal == None)
    ensures !s.resolveOnAgent && s.tool != Dns ==> (JobVersion(s, facts) == None <==> facts.resolved == None)
    ensures !s.resolveOnAgent && s.tool == Dns ==> JobVersion(s, facts) == Some(s.ipVersion)
    ensures s.ipVersion != 0 ==> JobVersion(s, facts) == None || JobVersion(s, facts) == Some(s.ipVersion)
    ensures s.ipVersion == 0 && s.resolveOnAgent ==> JobVersion(s, facts) == facts.literal
    ensures s.ipVersion == 0 && !s.resolveOnAgent && s.tool != Dns ==> JobVersion(s, facts) == facts.resolved
  {
  }

  predicate AnyDue(s: Schedule, now: Time) { exists t | t in s.targets :: Due(t, now) }

  /** The jobs a tick creates from a schedule: none when nothing is due, when the tool is switched off
      for everyone or when the target does not resolve; otherwise one for each chosen agent. */
  ghost predicate BatchOf(site: Site, facts: TargetFacts, s: Schedule, now: Time, runs: seq<Run>) {
    if AnyDue(s, now) && ToolAvailable(site.dir, [AGENT_ALL_LABEL], s.tool) && JobVersion(s, facts).Some? then
      var version := JobVersion(s, facts).value;
      exists ids :: OnePerAgent(site, s, version, runs, ids) && AreChosen(site, s, version, facts.ok, now, ids)
    else runs == []
  }

  /** The schedule after the tick: every due target moved on, the others as before, the index kept. */
  ghost predicate MovedOn(s: Schedule, now: Time, out: Schedule) {
    && out == s.(targets := out.targets, nextRunAt := out.nextRunAt, lastRunAt := out.lastRunAt)
    && |out.targets| == |s.targets| && (forall i | 0 <= i < |s.targets| :: out.targets[i] == Advanced(s.targets[i], now))
    && Kept(out)
  }

  method RunSchedule(site: Site, facts: TargetFacts, s: Schedule, now: Time) returns (runs: seq<Run>, out: Schedule)
    requires SiteKept(site) && Kept(s)
    ensures BatchOf(site, facts, s, now, runs)
    ensures if AnyDue(s, now) then MovedOn(s, now, out) else out == s
  {
    runs, out := [], s;
    var everyone := HubPoliciesForLabels(site.dir.base, site.dir.configs, [AGENT_ALL_LABEL]);
    var due := DueTargets(s, now);
    if |due| == 0 {
      return;
    }
    assert AnyDue(s, now) by {
      assert due[0] in due;
    }
    var version := JobVersion(s, facts);
    if s.tool in everyone.byTool && version.Some? {
      var seen;
      runs, seen := RunsForTargets(site, s, version.value, facts.ok, due);
      assert AreChosen(site, s, version.value, facts.ok, now, seen);
    }
    out := AdvanceTargets(s, due, now);
  }
}

/** The stored schedules and the tick over all of them. */
module ScheduleStore {
  import opened Text
  import opened Model
  import opened Schedules
  import opened ScheduleRuns

  type Book = map<Id, Schedule>

  ghost predicate BookKept(book: Book) { forall id | id in book :: book[id].id == id && Kept(book[id]) }

  function DueIds(book: Book, now: Time): set<Id> {
    set id | id in book && book[id].enabled && book[id].nextRunAt <= now
  }

  /** The index finds what a scan of all targets would find. */
  lemma DueIdsIsScan(book: Book, now: Time, id: Id)
    requires BookKept(book) && now >= ZERO_TIME
    ensures id in DueIds(book, now) <==> id in book && book[id].enabled && AnyDue(book[id], now)
  {
    if id in book {
      IndexFindsDue(book[id], now);
    }
  }

  /** `out` lists schedules of `ids` by next run, and what is left out comes no earlier. */
  ghost predicate Listed(book: Book, ids: set<Id>, rest: set<Id>, out: seq<Schedule>)
    requires ids <= book.Keys && rest <= ids
  {
    && (forall i | 0 <= i < |out| :: out[i].id in ids && out[i].id !in rest && out[i] == book[out[i].id])
    && (forall id | id in ids && id !in rest :: exists i | 0 <= i < |out| :: out[i].id == id)
    && (forall i, j | 0 <= i < j < |out| :: out[i].id != out[j].id && out[i].nextRunAt <= out[j].nextRunAt)
    && (forall i, id | 0 <= i < |out| && id in rest :: out[i].nextRunAt <= book[id].nextRunAt)
  }

  /** The due listing under a limit: what is left out is only what a positive limit cuts off. */
  ghost predicate DueListing(book: Book, now: Time, limit: int, rest: set<Id>, out: seq<Schedule>) {
    && rest <= DueIds(book, now) && Listed(book, DueIds(book, now), rest, out)
    && (rest != {} ==> 0 < limit == |out|)
    && (limit > 0 ==> |out| <= limit)
  }

  lemma {:induction false} EarliestExists(book: Book, ids: set<Id>)
    requires ids != {} && ids <= book.Keys
    ensures exists first :: first in ids && forall id | id in ids :: book[first].nextRunAt <= book[id].nextRunAt
  {
    var some :| some in ids;
    var rest := ids - {some};
    if rest != {} {
      EarliestExists(book, rest);
      var first :| first in rest && forall id | id in rest :: book[first].nextRunAt <= book[id].nextRunAt;
      var best := if book[some].nextRunAt <= book[first].nextRunAt then some else first;
      assert forall id | id in ids :: id == some || id in rest;
      assert best in ids && forall id | id in ids :: book[best].nextRunAt <= book[id].nextRunAt;
    } else {
      assert ids == {some};
    }
  }

  lemma ListOneMore(book: Book, ids: set<Id>, rest: set<Id>, out: seq<Schedule>, next: Id)
    requires BookKept(book) && ids <= book.Keys && rest <= ids && Listed(book, ids, rest, out)
    requires next in rest && forall id | id in rest :: book[next].nextRunAt <= book[id].nextRunAt
    ensures Listed(book, ids, rest - {next}, out + [book[next]])
  {
    var more := out + [book[next]];
    forall id | id in ids && id !in rest - {next} ensures exists i | 0 <= i < |more| :: more[i].id == id {
      if id == next {
        assert more[|out|].id == id;
      } else {
        var i :| 0 <= i < |out| && out[i].id == id;
        assert more[i].id == id;
      }
    }
  }

  class Memory {
    var schedules: Book
    var jobs: seq<Run>

    ghost predicate Valid()
      reads this
    {
      BookKept(schedules)
    }

    constructor ()
      ensures Valid() && schedules == map[] && jobs == []
    {
      schedules, jobs := map[], [];
    }

    method CreateScheduledJob(s: Schedule)
      requires Valid() && Kept(s)
      modifies this`schedules
      ensures Valid() && schedules == old(schedules)[s.id := s]
    {
      schedules := schedules[s.id := s];
    }

    method UpdateScheduledJob(s: Schedule) returns (found: bool)
      requires Valid() && Kept(s)
      modifies this`schedules
      ensures Valid() && found == (s.id in old(schedules))
      ensures schedules == if found then old(schedules)[s.id := s] else old(schedules)
    {
      found := s.id in schedules;
      if found {
        schedules := schedules[s.id := s];
      }
    }

    method DeleteScheduledJob(id: Id) returns (found: bool)
      requires Valid()
      modifies this`schedules
      ensures Valid() && found == (id in old(schedules)) && schedules == old(schedules) - {id}
    {
      found := id in schedules;
      schedules := schedules - {id};
    }

    /** Due schedules by next run, cut at a positive limit; ties come in any order. */
    method ListDueScheduledJobs(now: Time, limit: int) returns (out: seq<Schedule>, ghost rest: set<Id>)
      requires Valid()
      ensures DueListing(schedules, now, limit, rest, out)
    {
      var ids := DueIds(schedules, now);
      var left := ids;
      out := [];
      while left != {} && (limit <= 0 || |out| < limit)
        invariant left <= ids && (limit > 0 ==> |out| <= limit) && Listed(schedules, ids, left, out)
        decreases |left|
      {
        EarliestExists(schedules, left);
        var next :| next in left && forall id | id in left :: schedules[next].nextRunAt <= schedules[id].nextRunAt;
        ListOneMore(schedules, ids, left, out, next);
        left := left - {next};
        out := out + [schedules[next]];
      }
      rest := left;
    }

    /** A tick: at most 50 due schedules, the most overdue first. Each one's due targets create their
        jobs and move on; every other schedule stays as it was. */
    method RunDueSchedules(site: Site, facts: Id -> TargetFacts, now: Time)
      returns (list: seq<Schedule>, batches: seq<seq<Run>>, ghost outs: seq<Schedule>, ghost rest: set<Id>)
      requires Valid() && SiteKept(site) && now >= ZERO_TIME
      modifies this
      ensures Valid() && DueListing(old(schedules), now, 50, rest, list)
      ensures Ran(site, facts, now, list, batches, outs) && |batches| == |list|
      ensures jobs == old(jobs) + Flatten(batches)
      ensures schedules == Put(old(schedules), outs) && schedules.Keys == old(schedules.Keys)
    {
      list, rest := ListDueScheduledJobs(now, 50);
      ListedKept(schedules, now, rest, list);
      batches, outs := RunListedSchedules(site, facts, now, list);
      TickKeepsBook(site, facts, now, old(schedules), list, batches, outs);
    }

    /** The loop of the tick: each schedule's jobs are stored, then its new state. */
    method RunListedSchedules(site: Site, facts: Id -> TargetFacts, now: Time, list: seq<Schedule>)
      returns (batches: seq<seq<Run>>, ghost outs: seq<Schedule>)
      requires SiteKept(site) && now >= ZERO_TIME && Runnable(schedules, now, list)
      modifies this
      ensures Ran(site, facts, now, list, batches, outs) && |batches| == |list|
      ensures jobs == old(jobs) + Flatten(batches) && schedules == Put(old(schedules), outs)
    {
      batches, outs := [], [];
      for k := 0 to |list|
        invariant |batches| == |outs| == k && Ran(site, facts, now, list, batches, outs)
        invariant jobs == old(jobs) + Flatten(batches) && schedules == Put(old(schedules), outs)
      {
        var runs, out := RunNext(site, facts, now, list, batches, outs);
        FlattenMore(old(jobs), batches, runs);
        PutMore(old(schedules), outs, out);
        jobs := jobs + runs;
        schedules := schedules[out.id := out];
        batches, outs := batches + [runs], outs + [out];
      }
    }
  }

  /** A list of stored schedules to run, none twice. */
  ghost predicate Runnable(book: Book, now: Time, list: seq<Schedule>) {
    && (forall i | 0 <= i < |list| :: list[i].id in book && Kept(list[i]) && list[i].nextRunAt <= now)
    && DistinctIds(list)
  }

  lemma ListedKept(book: Book, now: Time, rest: set<Id>, list: seq<Schedule>)
    requires BookKept(book) && DueListing(book, now, 50, rest, list)
    ensures Runnable(book, now, list)
  {
  }

  /** The jobs and the new state of one listed schedule. */
  ghost predicate RanOne(site: Site, facts: Id -> TargetFacts, now: Time, s: Schedule, runs: seq<Run>, out: Schedule) {
    && BatchOf(site, facts(s.id), s, now, runs)
    && MovedOn(s, now, out) && out.nextRunAt > now
  }

  /** The listed schedules that were run so far, in order. */
  ghost predicate Ran(site: Site, facts: Id -> TargetFacts, now: Time, list: seq<Schedule>, batches: seq<seq<Run>>, outs: seq<Schedule>)
    decreases |batches|
  {
    && |batches| == |outs| <= |list|
    && (batches != [] ==>
          var k := |batches| - 1;
          Ran(site, facts, now, list, batches[..k], outs[..k]) && RanOne(site, facts, now, list[k], batches[k], outs[k]))
  }

  lemma {:induction false} RanAt(site: Site, facts: Id -> TargetFacts, now: Time, list: seq<Schedule>, batches: seq<seq<Run>>,
                                 outs: seq<Schedule>, i: int)
    requires Ran(site, facts, now, list, batches, outs) && 0 <= i < |batches|
    ensures RanOne(site, facts, now, list[i], batches[i], outs[i])
    decreases |batches|
  {
    var k := |batches| - 1;
    if i < k {
      RanAt(site, facts, now, list, batches[..k], outs[..k], i);
    }
  }

  lemma RanMore(site: Site, facts: Id -> TargetFacts, now: Time, list: seq<Schedule>, batches: seq<seq<Run>>,
                outs: seq<Schedule>, runs: seq<Run>, out: Schedule)
    requires Ran(site, facts, now, list, batches, outs) && |batches| < |list|
    requires RanOne(site, facts, now, list[|batches|], runs, out)
    ensures Ran(site, facts, now, list, batches + [runs], outs + [out])
  {
    assert (batches + [runs])[..|batches|] == batches && (outs + [out])[..|outs|] == outs;
  }

  /** The book with the given schedules written into it, one after the other. */
  function Put(book: Book, outs: seq<Schedule>): Book {
    if outs == [] then book else Put(book, outs[..|outs| - 1])[outs[|outs| - 1].id := outs[|outs| - 1]]
  }

  lemma PutMore(book: Book, outs: seq<Schedule>, out: Schedule)
    ensures Put(book, outs + [out]) == Put(book, outs)[out.id := out]
  {
    assert (outs + [out])[..|outs|] == outs;
  }

  ghost predicate DistinctIds(outs: seq<Schedule>) { forall i, j | 0 <= i < j < |outs| :: outs[i].id != outs[j].id }

  lemma {:induction false} PutAt(book: Book, outs: seq<Schedule>, i: int)
    requires DistinctIds(outs) && 0 <= i < |outs|
    ensures outs[i].id in Put(book, outs) && Put(book, outs)[outs[i].id] == outs[i]
  {
    if i < |outs| - 1 {
      PutAt(book, outs[..|outs| - 1], i);
    }
  }

  lemma {:induction false} PutElse(book: Book, outs: seq<Schedule>, id: Id)
    requires forall i | 0 <= i < |outs| :: outs[i].id != id
    ensures id in Put(book, outs) <==> id in book
    ensures id in book ==> Put(book, outs)[id] == book[id]
  {
    if outs != [] {
      PutElse(book, outs[..|outs| - 1], id);
    }
  }

  /** What a whole tick did to one schedule: a listed one ran, with its jobs and its due targets moved
      on; any other is as it was. */
  lemma TickEffect(site: Site, facts: Id -> TargetFacts, now: Time, book: Book, list: seq<Schedule>,
                   batches: seq<seq<Run>>, outs: seq<Schedule>, id: Id)
    requires Ran(site, facts, now, list, batches, outs) && |batches| == |list| && DistinctIds(list)
    requires forall i | 0 <= i < |list| :: list[i].id in book
    ensures id in Put(book, outs) <==> id in book
    ensures forall i | 0 <= i < |list| && list[i].id == id ::
        id in Put(book, outs) && RanOne(site, facts, now, list[i], batches[i], Put(book, outs)[id])
    ensures id in book && (forall i | 0 <= i < |list| :: list[i].id != id) ==> Put(book, outs)[id] == book[id]
  {
    SameIds(site, facts, now, list, batches, outs);
    if i :| 0 <= i < |list| && list[i].id == id {
      PutAt(book, outs, i);
      RanAt(site, facts, now, list, batches, outs, i);
    } else {
      PutElse(book, outs, id);
    }
  }

  lemma {:induction false} SameIds(site: Site, facts: Id -> TargetFacts, now: Time, list: seq<Schedule>,
                                   batches: seq<seq<Run>>, outs: seq<Schedule>)
    requires Ran(site, facts, now, list, batches, outs)
    ensures forall i | 0 <= i < |outs| :: outs[i].id == list[i].id
  {
    forall i | 0 <= i < |outs| ensures outs[i].id == list[i].id {
      RanAt(site, facts, now, list, batches, outs, i);
    }
  }

  lemma TickKeepsBook(site: Site, facts: Id -> TargetFacts, now: Time, book: Book, list: seq<Schedule>,
                      batches: seq<seq<Run>>, outs: seq<Schedule>)
    requires BookKept(book) && Ran(site, facts, now, list, batches, outs) && |batches| == |list| && Runnable(book, now, list)
    ensures BookKept(Put(book, outs)) && Put(book, outs).Keys == book.Keys
  {
    forall id ensures id in Put(book, outs) <==> id in book
      ensures id in book ==> Put(book, outs)[id].id == id && Kept(Put(book, outs)[id])
    {
      TickEffect(site, facts, now, book, list, batches, outs, id);
      if i :| 0 <= i < |list| && list[i].id == id {
        assert MovedOn(list[i], now, Put(book, outs)[id]);
      }
    }
  }

  /** The next listed schedule of a tick. */
  method RunNext(site: Site, facts: Id -> TargetFacts, now: Time, list: seq<Schedule>, batches: seq<seq<Run>>, ghost outs: seq<Schedule>)
    returns (runs: seq<Run>, out: Schedule)
    requires SiteKept(site) && now >= ZERO_TIME && Ran(site, facts, now, list, batches, outs) && |batches| < |list|
    requires Kept(list[|batches|]) && list[|batches|].nextRunAt <= now
    ensures Ran(site, facts, now, list, batches + [runs], outs + [out])
  {
    runs, out := RunListed(site, facts, list[|batches|], now);
    RanMore(site, facts, now, list, batches, outs, runs, out);
  }

  method RunListed(site: Site, facts: Id -> TargetFacts, s: Schedule, now: Time) returns (runs: seq<Run>, out: Schedule)
    requires SiteKept(site) && Kept(s) && s.nextRunAt <= now && now >= ZERO_TIME
    ensures RanOne(site, facts, now, s, runs, out) && out.id == s.id
  {
    IndexFindsDue(s, now);
    runs, out := RunSchedule(site, facts(s.id), s, now);
    NothingDueAfterRun(s, out, now);
  }

  function Flatten(batches: seq<seq<Run>>): seq<Run> {
    if batches == [] then [] else Flatten(batches[..|batches| - 1]) + batches[|batches| - 1]
  }

  lemma FlattenMore(jobs: seq<Run>, batches: seq<seq<Run>>, runs: seq<Run>)
    ensures jobs + Flatten(batches + [runs]) == jobs + Flatten(batches) + runs
  {
    assert (batches + [runs])[..|batches|] == batches;
    assert jobs + (Flatten(batches) + runs) == jobs + Flatten(batches) + runs;
  }

  lemma DueIsListed(book: Book, now: Time, rest: set<Id>, list: seq<Schedule>, id: Id)
    requires DueListing(book, now, 50, rest, list) && |list| < 50
    ensures id in DueIds(book, now) ==> exists i | 0 <= i < |list| :: list[i].id == id
  {
    assert rest == {};
  }

  /** When the limit cuts nothing off, no enabled schedule has a due target left after the tick. */
  lemma TickClearsDue(site: Site, facts: Id -> TargetFacts, now: Time, book: Book, list: seq<Schedule>, rest: set<Id>,
                      batches: seq<seq<Run>>, outs: seq<Schedule>, id: Id)
    requires BookKept(book) && now >= ZERO_TIME && DueListing(book, now, 50, rest, list) && |list| < 50
    requires Ran(site, facts, now, list, batches, outs) && |batches| == |list|
    requires id in Put(book, outs) && Put(book, outs)[id].enabled
    ensures !AnyDue(Put(book, outs)[id], now)
  {
    ListedKept(book, now, rest, list);
    TickKeepsBook(site, facts, now, book, list, batches, outs);
    TickEffect(site, facts, now, book, list, batches, outs, id);
    IndexFindsDue(Put(book, outs)[id], now);
    DueIsListed(book, now, rest, list, id);
  }
}
