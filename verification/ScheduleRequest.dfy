/** Checking the targets of a schedule request: their shape, and the agents its author may use. */
module ScheduleRequests {
  import opened Text
  import opened Model
  import opened AllowedArgs
  import opened Policies
  import opened Authz
  import opened Schedules
  import opened ScheduleRuns
  import opened ScheduleUpdate
  import opened SortedText

  datatype TargetRequest = TargetRequest(tag: string, intervalSeconds: int)

  /** The item is blank, has an interval outside ten seconds to a day, or repeats an earlier label. */
  ghost predicate Refused(reqs: seq<TargetRequest>, i: int)
    requires 0 <= i < |reqs|
  {
    || TrimSpace(reqs[i].tag) == "" || reqs[i].intervalSeconds < 10 || reqs[i].intervalSeconds > 86400
    || exists j | 0 <= j < i :: TrimSpace(reqs[j].tag) == TrimSpace(reqs[i].tag)
  }

  /** The targets of a request, one for each item with a fresh ID, due at once. */
  method TargetsFromRequest(reqs: seq<TargetRequest>, at: Time, newId: int -> Id) returns (r: Option<seq<Target>>)
    requires forall i, j :: newId(i) == newId(j) ==> i == j
    ensures r.None? <==> reqs == [] || exists i | 0 <= i < |reqs| :: Refused(reqs, i)
    ensures r.Some? ==> |r.value| == |reqs| && DistinctTargets(r.value)
    ensures r.Some? ==> forall i | 0 <= i < |reqs| ::
        r.value[i] == Target(newId(i), TrimSpace(reqs[i].tag), [], reqs[i].intervalSeconds, at, None)
  {
    if |reqs| == 0 {
      return None;
    }
    var out: seq<Target> := [];
    var seen: set<string> := {};
    for i := 0 to |reqs|
      invariant |out| == i && forall j | 0 <= j < i :: !Refused(reqs, j)
      invariant forall j | 0 <= j < i :: out[j] == Target(newId(j), TrimSpace(reqs[j].tag), [], reqs[j].intervalSeconds, at, None)
      invariant forall tag :: tag in seen <==> exists j | 0 <= j < i :: out[j].tag == tag
      invariant forall j, k | 0 <= j < k < i :: out[j].tag != out[k].tag
    {
      var tag := TrimSpace(reqs[i].tag);
      if tag == "" || reqs[i].intervalSeconds < 10 || reqs[i].intervalSeconds > 86400 || tag in seen {
        assert Refused(reqs, i);
        return None;
      }
      seen := seen + {tag};
      out := out + [Target(newId(i), tag, [], reqs[i].intervalSeconds, at, None)];
      assert out[i].tag == tag;
    }
    return Some(out);
  }

  /** The author's token covers the agent, which carries the label, can run the tool and accepts the
      request under its own labels. */
  ghost predicate MayUse(site: Site, scope: Scope, draft: Schedule, ok: bool, t: Target, id: string) {
    && id in site.dir.agents
    && var agent := ManagedAgent(site.dir, id);
    && MatchesAgent(t, agent) && ScopeAllowsAgentRecord(scope, agent) && AgentSupports(agent, draft.tool, draft.ipVersion)
    && Passes(site, draft, ok, id)
  }

  method UsableAgents(site: Site, scope: Scope, draft: Schedule, ok: bool, t: Target) returns (out: seq<string>)
    requires SiteKept(site)
    ensures IsSorted(out) && forall id :: id in out <==> MayUse(site, scope, draft, ok, t, id)
  {
    var ids: seq<string> := [];
    for k := 0 to |site.order|
      invariant forall id :: id in ids <==> id in site.order[..k] && MayUse(site, scope, draft, ok, t, id)
    {
      var id := site.order[k];
      assert site.order[..k + 1] == site.order[..k] + [id];
      assert id in site.order;
      var agent := ManagedAgent(site.dir, id);
      if MatchesAgent(t, agent) && ScopeAllowsAgentRecord(scope, agent) && AgentSupports(agent, draft.tool, draft.ipVersion) {
        var passes, _ := CheckAgent(site, draft, ok, id);
        if passes {
          ids := ids + [id];
        }
      }
    }
    assert site.order[..|site.order|] == site.order;
    out := Sort(ids);
    assert forall id :: id in out <==> id in multiset(out);
  }

  ghost predicate NoneUsable(site: Site, scope: Scope, draft: Schedule, ok: bool, t: Target) {
    forall id :: !MayUse(site, scope, draft, ok, t, id)
  }

  /** The target with exactly the agents its author may use, at least one. */
  ghost predicate AuthorizedAs(site: Site, scope: Scope, draft: Schedule, ok: bool, t: Target, out: Target) {
    && out == t.(allowed := out.allowed) && out.allowed != [] && IsSorted(out.allowed)
    && forall id :: id in out.allowed <==> MayUse(site, scope, draft, ok, t, id)
  }

  method AuthorizeTarget(site: Site, scope: Scope, draft: Schedule, ok: bool, t: Target) returns (r: Option<Target>)
    requires SiteKept(site)
    ensures if r.None? then NoneUsable(site, scope, draft, ok, t) else AuthorizedAs(site, scope, draft, ok, t, r.value)
  {
    var ids := UsableAgents(site, scope, draft, ok, t);
    if |ids| == 0 {
      return None;
    }
    return Some(t.(allowed := ids));
  }

  /** The first targets of a request, each authorized. */
  ghost predicate AuthorizedAll(site: Site, scope: Scope, draft: Schedule, ok: bool, targets: seq<Target>, out: seq<Target>)
    decreases |out|
  {
    |out| <= |targets| && (out != [] ==>
      var k := |out| - 1;
      AuthorizedAll(site, scope, draft, ok, targets, out[..k]) && AuthorizedAs(site, scope, draft, ok, targets[k], out[k]))
  }

  lemma {:induction false} AuthorizedAt(site: Site, scope: Scope, draft: Schedule, ok: bool, targets: seq<Target>, out: seq<Target>, i: int)
    requires AuthorizedAll(site, scope, draft, ok, targets, out) && 0 <= i < |out|
    ensures AuthorizedAs(site, scope, draft, ok, targets[i], out[i]) && !NoneUsable(site, scope, draft, ok, targets[i])
    decreases |out|
  {
    var k := |out| - 1;
    if i < k {
      AuthorizedAt(site, scope, draft, ok, targets, out[..k], i);
    } else {
      assert out[i].allowed[0] in out[i].allowed;
    }
  }

  lemma AuthorizedMore(site: Site, scope: Scope, draft: Schedule, ok: bool, targets: seq<Target>, out: seq<Target>, t: Target)
    requires AuthorizedAll(site, scope, draft, ok, targets, out) && |out| < |targets|
    requires AuthorizedAs(site, scope, draft, ok, targets[|out|], t)
    ensures AuthorizedAll(site, scope, draft, ok, targets, out + [t])
  {
    assert (out + [t])[..|out|] == out;
  }

  /** All targets authorized, or an error naming one that has no agent its author may use. */
  method AuthorizeTargets(site: Site, scope: Scope, draft: Schedule, ok: bool, targets: seq<Target>)
    returns (r: Option<seq<Target>>, failed: int)
    requires SiteKept(site)
    ensures r.Some? ==> |r.value| == |targets| && AuthorizedAll(site, scope, draft, ok, targets, r.value)
    ensures r.None? ==> 0 <= failed < |targets| && NoneUsable(site, scope, draft, ok, targets[failed])
  {
    var out: seq<Target> := [];
    failed := -1;
    for k := 0 to |targets|
      invariant |out| == k && AuthorizedAll(site, scope, draft, ok, targets, out)
    {
      var t := AuthorizeTarget(site, scope, draft, ok, targets[k]);
      if t.None? {
        return None, k;
      }
      AuthorizedMore(site, scope, draft, ok, targets, out, t.value);
      out := out + [t.value];
    }
    r := Some(out);
  }

  /** The agents written into a target are exactly those that carry its label, are covered by the lists of
      the author's token, are online with the tool and the version, and accept the request. */
  lemma WrittenAgents(site: Site, scope: Scope, draft: Schedule, ok: bool, t: Target, out: Target, id: string)
    requires AuthorizedAs(site, scope, draft, ok, t, out) && WellKept(site.dir)
    ensures id in out.allowed <==>
        && id in site.dir.agents
        && (exists l | l in ManagedLabels(site.dir, id) :: TrimSpace(l) == TrimSpace(t.tag))
        && Covers(scope, id, ManagedLabels(site.dir, id))
        && AgentSupports(ManagedAgent(site.dir, id), draft.tool, draft.ipVersion)
        && Passes(site, draft, ok, id)
  {
    if id in site.dir.agents {
      RecordIsCovered(scope, ManagedAgent(site.dir, id));
    }
  }

  // ---- what ticks and updates leave of it ----

  /** Who wrote the targets of a schedule, and what the server knew then. */
  datatype Author = Author(site: Site, scope: Scope, draft: Schedule, ok: bool)

  /** The target allows exactly the agents its author may use for its label, at least one. */
  ghost predicate WrittenBy(author: Author, t: Target) {
    t.allowed != [] && forall id :: id in t.allowed <==> MayUse(author.site, author.scope, author.draft, author.ok, t, id)
  }

  ghost predicate AllWrittenBy(author: Author, targets: seq<Target>) {
    forall i | 0 <= i < |targets| :: WrittenBy(author, targets[i])
  }

  /** What can happen to the targets of a schedule: a tick, or an update that writes new targets and may
      carry over the run state of the old ones. */
  datatype Change = Ticked(now: Time) | Updated(author: Author, next: seq<Target>, carried: bool)

  function Changed(targets: seq<Target>, change: Change): seq<Target> {
    match change
    case Ticked(now) => seq(|targets|, i requires 0 <= i < |targets| => Advanced(targets[i], now))
    case Updated(_, next, carried) =>
      if carried then seq(|next|, i requires 0 <= i < |next| => MergedTarget(next[i], targets)) else next
  }

  function TargetsAfter(targets: seq<Target>, changes: seq<Change>): seq<Target> {
    if changes == [] then targets else Changed(TargetsAfter(targets, changes[..|changes| - 1]), changes[|changes| - 1])
  }

  /** The author of the last write. */
  function LastAuthor(author: Author, changes: seq<Change>): Author {
    if changes == [] then author
    else
      var last := changes[|changes| - 1];
      if last.Updated? then last.author else LastAuthor(author, changes[..|changes| - 1])
  }

  /** Every update writes targets that were authorized for its author. */
  ghost predicate AuthorizedChanges(changes: seq<Change>) {
    forall k | 0 <= k < |changes| && changes[k].Updated? :: AllWrittenBy(changes[k].author, changes[k].next)
  }

  /** Authorizing a request makes its targets written by the author. */
  lemma AuthorizedIsWritten(author: Author, targets: seq<Target>, out: seq<Target>)
    requires AuthorizedAll(author.site, author.scope, author.draft, author.ok, targets, out)
    ensures AllWrittenBy(author, out)
  {
    forall i | 0 <= i < |out| ensures WrittenBy(author, out[i]) {
      AuthorizedAt(author.site, author.scope, author.draft, author.ok, targets, out, i);
      SameLabelSameUse(author, targets[i], out[i]);
    }
  }

  lemma SameLabelSameUse(author: Author, t: Target, u: Target)
    requires t.tag == u.tag
    ensures forall id ::
        MayUse(author.site, author.scope, author.draft, author.ok, t, id) <==> MayUse(author.site, author.scope, author.draft, author.ok, u, id)
  {
  }

  lemma StaysWritten(author: Author, t: Target, u: Target)
    requires WrittenBy(author, t) && u.tag == t.tag && u.allowed == t.allowed
    ensures WrittenBy(author, u)
  {
    SameLabelSameUse(author, t, u);
  }

  lemma ChangeKeepsAuthor(author: Author, targets: seq<Target>, change: Change)
    requires AllWrittenBy(author, targets) && (change.Updated? ==> AllWrittenBy(change.author, change.next))
    ensures AllWrittenBy(if change.Updated? then change.author else author, Changed(targets, change))
  {
    var after := Changed(targets, change);
    forall i | 0 <= i < |after| ensures WrittenBy(if change.Updated? then change.author else author, after[i]) {
      if change.Updated? {
        StaysWritten(change.author, change.next[i], after[i]);
      } else {
        StaysWritten(author, targets[i], after[i]);
      }
    }
  }

  /** Through any sequence of ticks and updates the targets allow exactly the agents that the author of the
      last write could use when writing. */
  lemma {:induction false} ChangesKeepAuthor(author: Author, targets: seq<Target>, changes: seq<Change>)
    requires AllWrittenBy(author, targets) && AuthorizedChanges(changes)
    ensures AllWrittenBy(LastAuthor(author, changes), TargetsAfter(targets, changes))
  {
    if changes != [] {
      var n := |changes| - 1;
      ChangesKeepAuthor(author, targets, changes[..n]);
      ChangeKeepsAuthor(LastAuthor(author, changes[..n]), TargetsAfter(targets, changes[..n]), changes[n]);
    }
  }

  /** The changes are those of the code: a run of the schedule, and an update of it. */
  lemma TickIsChange(s: Schedule, now: Time, out: Schedule)
    requires MovedOn(s, now, out)
    ensures out.targets == Changed(s.targets, Ticked(now))
  {
  }

  lemma UpdateIsChange(s: Schedule, details: Details, out: Schedule, author: Author)
    requires if Carries(s, details) then MergedInto(details.targets, s.targets, out.targets) else out.targets == details.targets
    ensures out.targets == Changed(s.targets, Updated(author, details.targets, Carries(s, details)))
  {
  }

  /** Whatever happened to a schedule since it was written, and to labels, policies and agents, every job
      of a tick goes to an agent that the author of the last write could use for some target of the schedule
      when writing it. */
  lemma TickKeepsToAuthor(author: Author, targets: seq<Target>, changes: seq<Change>, site: Site, facts: TargetFacts,
                          s: Schedule, now: Time, runs: seq<Run>, k: int)
    requires AllWrittenBy(author, targets) && AuthorizedChanges(changes) && s.targets == TargetsAfter(targets, changes)
    requires BatchOf(site, facts, s, now, runs) && 0 <= k < |runs|
    ensures var w := LastAuthor(author, changes);
        exists t | t in s.targets :: Due(t, now) && MayUse(w.site, w.scope, w.draft, w.ok, t, runs[k].agentId)
  {
    ChangesKeepAuthor(author, targets, changes);
    var t := ReachingTarget(site, facts, s, now, runs, k);
    assert runs[k].agentId in t.allowed;
    var i :| 0 <= i < |s.targets| && s.targets[i] == t;
    assert WrittenBy(LastAuthor(author, changes), s.targets[i]);
  }

  /** The due target that a job comes from. */
  lemma ReachingTarget(site: Site, facts: TargetFacts, s: Schedule, now: Time, runs: seq<Run>, k: int) returns (t: Target)
    requires BatchOf(site, facts, s, now, runs) && 0 <= k < |runs|
    ensures t in s.targets && Due(t, now) && AllowsAgent(t, runs[k].agentId)
  {
    var version := JobVersion(s, facts).value;
    var ids :| OnePerAgent(site, s, version, runs, ids) && AreChosen(site, s, version, facts.ok, now, ids);
    assert runs[k].agentId in ids;
    t :| t in s.targets && Due(t, now) && Reaches(site, s, version, t, runs[k].agentId);
  }
}
