/** Updating a schedule: what counts as a new definition, and what run state is carried over. */
module SortedText {

  /** The order of sorted string lists. */
  predicate LexLe(a: string, b: string) {
    a == "" || (b != "" && (a[0] < b[0] || (a[0] == b[0] && LexLe(a[1..], b[1..]))))
  }

  lemma {:induction false} LexTotal(a: string, b: string)
    ensures LexLe(a, b) || LexLe(b, a)
  {
    if a != "" && b != "" && a[0] == b[0] {
      LexTotal(a[1..], b[1..]);
    }
  }

  lemma {:induction false} LexAntisymmetric(a: string, b: string)
    requires LexLe(a, b) && LexLe(b, a)
    ensures a == b
  {
    if a != "" && b != "" {
      LexAntisymmetric(a[1..], b[1..]);
      assert a == [a[0]] + a[1..] && b == [b[0]] + b[1..];
    }
  }

  lemma {:induction false} LexTransitive(a: string, b: string, c: string)
    requires LexLe(a, b) && LexLe(b, c)
    ensures LexLe(a, c)
  {
    if a != "" && b != "" && c != "" && a[0] == b[0] && b[0] == c[0] {
      LexTransitive(a[1..], b[1..], c[1..]);
    }
  }

  predicate IsSorted(xs: seq<string>) { forall i, j | 0 <= i < j < |xs| :: LexLe(xs[i], xs[j]) }

  method Insert(xs: seq<string>, x: string) returns (out: seq<string>)
    requires IsSorted(xs)
    ensures IsSorted(out) && multiset(out) == multiset(xs) + multiset{x}
  {
    var k := |xs|;
    while k > 0 && !LexLe(xs[k - 1], x)
      invariant 0 <= k <= |xs|
      invariant forall i | k <= i < |xs| :: LexLe(x, xs[i])
    {
      LexTotal(xs[k - 1], x);
      k := k - 1;
    }
    forall i | 0 <= i < k ensures LexLe(xs[i], x) {
      if i < k - 1 {
        LexTransitive(xs[i], xs[k - 1], x);
      }
    }
    out := xs[..k] + [x] + xs[k..];
    assert xs == xs[..k] + xs[k..];
  }

  method Sort(xs: seq<string>) returns (out: seq<string>)
    ensures IsSorted(out) && multiset(out) == multiset(xs)
  {
    out := [];
    for k := 0 to |xs|
      invariant IsSorted(out) && multiset(out) == multiset(xs[..k])
    {
      assert xs[..k + 1] == xs[..k] + [xs[k]];
      out := Insert(out, xs[k]);
    }
    assert xs[..|xs|] == xs;
  }

  /** A sorted list is determined by its items. */
  lemma {:induction false} SortedUnique(a: seq<string>, b: seq<string>)
    requires IsSorted(a) && IsSorted(b) && multiset(a) == multiset(b)
    ensures a == b
  {
    SameSize(a, b);
    if a != [] {
      SameHead(a, b);
      Tail(a);
      Tail(b);
      SortedUnique(a[1..], b[1..]);
      assert a == [a[0]] + a[1..] && b == [b[0]] + b[1..];
    }
  }

  lemma SameHead(a: seq<string>, b: seq<string>)
    requires IsSorted(a) && IsSorted(b) && multiset(a) == multiset(b) && a != [] && b != []
    ensures a[0] == b[0]
  {
    assert a[0] in multiset(b) && b[0] in multiset(a);
    HeadLeast(a, b[0]);
    HeadLeast(b, a[0]);
    LexAntisymmetric(a[0], b[0]);
  }

  lemma Tail(a: seq<string>)
    requires a != []
    ensures multiset(a[1..]) == multiset(a) - multiset{a[0]}
  {
    assert a == [a[0]] + a[1..];
  }

  lemma SameSize(a: seq<string>, b: seq<string>)
    requires multiset(a) == multiset(b)
    ensures |a| == |b|
  {
    assert |multiset(a)| == |a| && |multiset(b)| == |b|;
  }

  lemma HeadLeast(a: seq<string>, x: string)
    requires IsSorted(a) && a != [] && x in a
    ensures LexLe(a[0], x)
  {
    LexTotal(x, x);
  }
}

module ScheduleUpdate {
  import opened Text
  import opened Model
  import opened AllowedArgs
  import opened Schedules
  import opened SortedText

  const NUL: char := '\0'

  /** The text that stands for a target's definition. */
  function Key(t: Target): string { t.tag + [NUL] + AgentsText(t) }

  function AgentsText(t: Target): string { Join(t.allowed, ',') }

  /** The same label with the same text for its agents. */
  predicate SameSpot(t: Target, u: Target) { t.tag == u.tag && AgentsText(t) == AgentsText(u) }

  function Keys(targets: seq<Target>): (r: seq<string>)
    ensures |r| == |targets| && forall i | 0 <= i < |r| :: r[i] == Key(targets[i])
  {
    seq(|targets|, i requires 0 <= i < |targets| => Key(targets[i]))
  }

  method CollectKeys(targets: seq<Target>) returns (keys: seq<string>)
    ensures keys == Keys(targets)
  {
    keys := [];
    for k := 0 to |targets|
      invariant |keys| == k && forall i | 0 <= i < k :: keys[i] == Key(targets[i])
    {
      keys := keys + [Key(targets[k])];
    }
  }

  /** The targets define the same set of keys, in whatever order. */
  method SameDefinition(left: seq<Target>, right: seq<Target>) returns (same: bool)
    ensures same <==> multiset(Keys(left)) == multiset(Keys(right))
  {
    if |left| != |right| {
      if multiset(Keys(left)) == multiset(Keys(right)) {
        SameSize(Keys(left), Keys(right));
      }
      return false;
    }
    var leftKeys := CollectKeys(left);
    var rightKeys := CollectKeys(right);
    var l := Sort(leftKeys);
    var r := Sort(rightKeys);
    SameSize(l, leftKeys);
    SameSize(r, rightKeys);
    if multiset(leftKeys) == multiset(rightKeys) {
      SortedUnique(l, r);
    }
    for i := 0 to |l|
      invariant l[..i] == r[..i]
    {
      if l[i] != r[i] {
        return false;
      }
    }
    assert l[..|l|] == l && r[..|r|] == r;
    return true;
  }

  // ---- what a key says ----

  /** One has NUL in its label and the other in its agents' text. */
  predicate Clash(t: Target, u: Target) {
    (NUL in t.tag && NUL in AgentsText(u)) || (NUL in u.tag && NUL in AgentsText(t))
  }

  /** Two targets that do not clash have the same key iff they agree in label and agents' text. */
  lemma KeyTells(t: Target, u: Target)
    requires !Clash(t, u)
    ensures Key(t) == Key(u) <==> SameSpot(t, u)
  {
    if Key(t) == Key(u) {
      if |t.tag| < |u.tag| {
        LongerLabelClashes(t, u);
      } else if |u.tag| < |t.tag| {
        LongerLabelClashes(u, t);
      } else {
        assert Key(t)[..|t.tag|] == t.tag && Key(u)[..|u.tag|] == u.tag;
        assert Key(t)[|t.tag| + 1..] == AgentsText(t) && Key(u)[|u.tag| + 1..] == AgentsText(u);
      }
    }
  }

  lemma LongerLabelClashes(t: Target, u: Target)
    requires Key(t) == Key(u) && |t.tag| < |u.tag|
    ensures NUL in u.tag && NUL in AgentsText(t)
  {
    assert u.tag[|t.tag|] == Key(u)[|t.tag|] == Key(t)[|t.tag|] == NUL;
    assert AgentsText(t)[|u.tag| - |t.tag| - 1] == Key(t)[|u.tag|] == Key(u)[|u.tag|] == NUL;
  }

  /** The key of a target belongs to no other label and agents' text iff neither holds a NUL. */
  lemma KeyIsUnique(t: Target)
    ensures (forall u: Target | Key(u) == Key(t) :: SameSpot(u, t)) <==> NUL !in t.tag && NUL !in AgentsText(t)
  {
    if NUL !in t.tag && NUL !in AgentsText(t) {
      forall u: Target | Key(u) == Key(t) ensures SameSpot(u, t) {
        KeyTells(u, t);
      }
    } else {
      var u := SharesKey(t);
    }
  }

  /** Another target under the key of one that holds a NUL: the key is split at that NUL instead. */
  lemma SharesKey(t: Target) returns (u: Target)
    requires NUL in t.tag || NUL in AgentsText(t)
    ensures Key(u) == Key(t) && !SameSpot(u, t)
  {
    if NUL in t.tag {
      var i :| 0 <= i < |t.tag| && t.tag[i] == NUL;
      u := t.(tag := t.tag[..i], allowed := [t.tag[i + 1..] + [NUL] + AgentsText(t)]);
      assert t.tag == t.tag[..i] + [NUL] + t.tag[i + 1..];
    } else {
      var text := AgentsText(t);
      var i :| 0 <= i < |text| && text[i] == NUL;
      u := t.(tag := t.tag + [NUL] + text[..i], allowed := [text[i + 1..]]);
      assert text == text[..i] + [NUL] + text[i + 1..];
    }
  }

  /** Such a pair of distinct targets exists. */
  lemma NulConfusesKeys(t: Target)
    ensures Key(t.(tag := "a", allowed := ["b\0c"])) == Key(t.(tag := "a\0b", allowed := ["c"]))
  {
    assert "a" + [NUL] + "b\0c" == "a\0b" + [NUL] + "c";
  }

  /** No label among the targets holds a NUL, or no agents' text does. */
  predicate Plain(targets: seq<Target>) {
    || (forall i | 0 <= i < |targets| :: NUL !in targets[i].tag)
    || (forall i | 0 <= i < |targets| :: NUL !in AgentsText(targets[i]))
  }

  lemma PlainPair(targets: seq<Target>, i: int, j: int)
    requires Plain(targets) && 0 <= i < |targets| && 0 <= j < |targets|
    ensures !Clash(targets[i], targets[j])
  {
  }

  lemma PlainParts(left: seq<Target>, right: seq<Target>, i: int, j: int)
    requires Plain(left + right) && 0 <= i < |left| && 0 <= j < |right|
    ensures !Clash(left[i], right[j])
  {
    PlainPair(left + right, i, |left| + j);
  }

  lemma PlainEach(left: seq<Target>, right: seq<Target>)
    requires Plain(left + right)
    ensures Plain(left) && Plain(right) && Plain(right + left)
  {
    assert forall i | 0 <= i < |left| :: (left + right)[i] == left[i];
    assert forall j | 0 <= j < |right| :: (left + right)[|left| + j] == right[j];
  }

  predicate PlainIds(ids: seq<string>) { |ids| >= 1 && forall id | id in ids :: ',' !in id }

  /** A key tells the agents themselves apart when no agent ID holds a comma. */
  lemma KeyTellsAgents(t: Target, u: Target)
    requires !Clash(t, u) && PlainIds(t.allowed) && PlainIds(u.allowed)
    ensures Key(t) == Key(u) <==> t.tag == u.tag && t.allowed == u.allowed
  {
    KeyTells(t, u);
    SplitJoin(t.allowed, ',');
    SplitJoin(u.allowed, ',');
  }

  // ---- intervals ----

  /** The interval of the last target with the key, 0 if there is none. */
  function IntervalFor(targets: seq<Target>, key: string): int {
    if targets == [] then 0
    else
      var last := targets[|targets| - 1];
      if Key(last) == key then last.intervalSeconds else IntervalFor(targets[..|targets| - 1], key)
  }

  predicate SameIntervals(left: seq<Target>, right: seq<Target>) {
    |left| == |right| && forall i | 0 <= i < |right| :: IntervalFor(left, Key(right[i])) == right[i].intervalSeconds
  }

  method IntervalsChanged(left: seq<Target>, right: seq<Target>) returns (changed: bool)
    ensures changed <==> !SameIntervals(left, right)
  {
    if |left| != |right| {
      return true;
    }
    var byKey: map<string, int> := map[];
    for k := 0 to |left|
      invariant forall key :: (if key in byKey then byKey[key] else 0) == IntervalFor(left[..k], key)
    {
      assert left[..k + 1][..k] == left[..k];
      byKey := byKey[Key(left[k]) := left[k].intervalSeconds];
    }
    assert left[..|left|] == left;
    for i := 0 to |right|
      invariant forall j | 0 <= j < i :: IntervalFor(left, Key(right[j])) == right[j].intervalSeconds
    {
      var key := Key(right[i]);
      if (if key in byKey then byKey[key] else 0) != right[i].intervalSeconds {
        return true;
      }
    }
    return false;
  }

  // ---- carrying run state over ----

  /** The last target with the label. */
  function OldFor(existing: seq<Target>, tag: string): Option<Target> {
    if existing == [] then None
    else
      var last := existing[|existing| - 1];
      if last.tag == tag then Some(last) else OldFor(existing[..|existing| - 1], tag)
  }

  /** The target with the ID and the run times of the old target that has its label, if there is one. */
  function MergedTarget(t: Target, existing: seq<Target>): Target {
    match OldFor(existing, t.tag)
    case None => t
    case Some(was) => t.(id := was.id, nextRunAt := was.nextRunAt, lastRunAt := was.lastRunAt)
  }

  ghost predicate MergedInto(next: seq<Target>, existing: seq<Target>, out: seq<Target>) {
    |out| == |next| && forall i | 0 <= i < |out| :: out[i] == MergedTarget(next[i], existing)
  }

  lemma {:induction false} OldForFinds(existing: seq<Target>, j: int)
    requires DistinctTargets(existing) && 0 <= j < |existing|
    ensures OldFor(existing, existing[j].tag) == Some(existing[j])
  {
    if j < |existing| - 1 {
      OldForFinds(existing[..|existing| - 1], j);
    }
  }

  lemma {:induction false} OldForIsOld(existing: seq<Target>, tag: string)
    ensures OldFor(existing, tag).Some? ==> OldFor(existing, tag).value in existing && OldFor(existing, tag).value.tag == tag
  {
    if existing != [] {
      OldForIsOld(existing[..|existing| - 1], tag);
    }
  }

  method MergeRunState(next: array<Target>, existing: seq<Target>, reset: bool)
    modifies next
    ensures forall i | 0 <= i < next.Length :: next[i] == if reset then old(next[i]) else MergedTarget(old(next[i]), existing)
  {
    if reset {
      return;
    }
    var byTag: map<string, Target> := map[];
    for k := 0 to |existing|
      invariant forall tag :: (if tag in byTag then Some(byTag[tag]) else None) == OldFor(existing[..k], tag)
    {
      assert existing[..k + 1][..k] == existing[..k];
      byTag := byTag[existing[k].tag := existing[k]];
    }
    assert existing[..|existing|] == existing;
    for i := 0 to next.Length
      invariant forall j | 0 <= j < i :: next[j] == MergedTarget(old(next[j]), existing)
      invariant forall j | i <= j < next.Length :: next[j] == old(next[j])
    {
      var tag := next[i].tag;
      assert (if tag in byTag then Some(byTag[tag]) else None) == OldFor(existing, tag);
      if tag in byTag {
        var was := byTag[tag];
        next[i] := next[i].(id := was.id, nextRunAt := was.nextRunAt, lastRunAt := was.lastRunAt);
      }
    }
  }

  // ---- the update ----

  /** A validated request: its targets are new, one for each label, due at the time of the request. */
  datatype Details = Details(
    tool: Tool, target: string, args: Args, ipVersion: IPVersion, resolveOnAgent: bool, enabled: bool, targets: seq<Target>)

  ghost predicate Requested(details: Details, at: Time) {
    && details.targets != [] && DistinctTargets(details.targets)
    && forall i | 0 <= i < |details.targets| :: details.targets[i].nextRunAt == at && details.targets[i].lastRunAt == None
  }

  /** The IDs of the request's targets are new. */
  ghost predicate NewIds(targets: seq<Target>, existing: seq<Target>) {
    forall i, j | 0 <= i < |targets| && 0 <= j < |existing| :: targets[i].id != existing[j].id
  }

  predicate DefinitionChanged(s: Schedule, details: Details) {
    || s.tool != details.tool || s.target != details.target || s.ipVersion != details.ipVersion
    || s.resolveOnAgent != details.resolveOnAgent
    || multiset(Keys(s.targets)) != multiset(Keys(details.targets))
    || s.args != details.args
  }

  /** The run state is carried over: same definition, same intervals, and the schedule was enabled. */
  predicate Carries(s: Schedule, details: Details) {
    !DefinitionChanged(s, details) && SameIntervals(s.targets, details.targets) && s.enabled
  }

  function RevisionAfter(s: Schedule, details: Details): int {
    (if s.revision <= 0 then 1 else s.revision) + if DefinitionChanged(s, details) then 1 else 0
  }

  /** Each field of the definition counts on its own: if one differs the revision rises by one and nothing
      is carried over. */
  lemma EveryFieldCounts(s: Schedule, details: Details)
    requires s.tool != details.tool || s.target != details.target || s.ipVersion != details.ipVersion
        || s.resolveOnAgent != details.resolveOnAgent || s.args != details.args
        || multiset(Keys(s.targets)) != multiset(Keys(details.targets))
    ensures RevisionAfter(s, details) == (if s.revision > 0 then s.revision + 1 else 2) && !Carries(s, details)
  {
  }

  /** With the same definition the revision stays, and the run state is carried over iff the schedule was
      enabled and no interval differs. */
  lemma SameFieldsKeepRevision(s: Schedule, details: Details)
    requires s.tool == details.tool && s.target == details.target && s.ipVersion == details.ipVersion
        && s.resolveOnAgent == details.resolveOnAgent && s.args == details.args
        && multiset(Keys(s.targets)) == multiset(Keys(details.targets))
    ensures RevisionAfter(s, details) == (if s.revision > 0 then s.revision else 1)
    ensures Carries(s, details) <==> s.enabled && SameIntervals(s.targets, details.targets)
  {
  }

  method CreateSchedule(id: Id, details: Details, at: Time, now: Time) returns (out: Schedule)
    requires Requested(details, at)
    ensures Kept(out) && out.id == id && out.revision == 1 && out.targets == details.targets && out.enabled == details.enabled
  {
    out := Schedule(id, 1, details.enabled, details.tool, details.target, details.args, details.ipVersion,
                    details.resolveOnAgent, 0, now, None, details.targets);
    out := NormalizeRunFields(out);
  }

  /** A definition change raises the revision by one. The targets keep their run state exactly when the
      definition and the intervals are the same and the schedule was enabled; otherwise every target is
      new and due at the time of the request. */
  method UpdateSchedule(s: Schedule, details: Details, at: Time, now: Time) returns (out: Schedule)
    requires DistinctTargets(s.targets) && Requested(details, at) && NewIds(details.targets, s.targets)
    ensures Kept(out) && out.id == s.id && out.revision == RevisionAfter(s, details) && out.enabled == details.enabled
    ensures out.tool == details.tool && out.target == details.target && out.args == details.args
    ensures out.ipVersion == details.ipVersion && out.resolveOnAgent == details.resolveOnAgent
    ensures if Carries(s, details) then MergedInto(details.targets, s.targets, out.targets)
            else out.targets == details.targets
  {
    var nextRunAt := s.nextRunAt;
    var definitionChanged := HasChanged(s, details);
    var intervalChanged := IntervalsChanged(s.targets, details.targets);
    if nextRunAt == ZERO_TIME || (details.enabled && (!s.enabled || definitionChanged || intervalChanged)) {
      nextRunAt := now;
    }
    var revision := s.revision;
    if revision <= 0 {
      revision := 1;
    }
    if definitionChanged {
      revision := revision + 1;
    }
    var targets := CarryOver(s, details, definitionChanged, intervalChanged);
    out := Schedule(s.id, revision, details.enabled, details.tool, details.target, details.args, details.ipVersion,
                    details.resolveOnAgent, 0, nextRunAt, s.lastRunAt, targets);
    out := NormalizeRunFields(out);
  }

  method HasChanged(s: Schedule, details: Details) returns (changed: bool)
    ensures changed == DefinitionChanged(s, details)
  {
    var same := SameDefinition(s.targets, details.targets);
    changed := s.tool != details.tool || s.target != details.target || s.ipVersion != details.ipVersion ||
      s.resolveOnAgent != details.resolveOnAgent || !same || s.args != details.args;
  }

  /** The targets of the updated schedule. */
  method CarryOver(s: Schedule, details: Details, definitionChanged: bool, intervalChanged: bool) returns (out: seq<Target>)
    requires DistinctTargets(s.targets) && DistinctTargets(details.targets) && NewIds(details.targets, s.targets)
    ensures |out| == |details.targets| && DistinctTargets(out)
    ensures if definitionChanged || intervalChanged || !s.enabled then out == details.targets
            else MergedInto(details.targets, s.targets, out)
  {
    var targets := new Target[|details.targets|](i requires 0 <= i < |details.targets| => details.targets[i]);
    if targets.Length > 0 && !definitionChanged {
      MergeRunState(targets, s.targets, intervalChanged || !s.enabled);
    }
    out := targets[..];
    if definitionChanged || intervalChanged || !s.enabled {
      assert out == details.targets;
    } else {
      MergedDistinct(s.targets, details.targets, out);
    }
  }

  lemma MergedDistinct(existing: seq<Target>, next: seq<Target>, out: seq<Target>)
    requires DistinctTargets(existing) && DistinctTargets(next) && NewIds(next, existing) && MergedInto(next, existing, out)
    ensures DistinctTargets(out)
  {
    forall i, j | 0 <= i < j < |out| ensures out[i].id != out[j].id {
      OldForIsOld(existing, next[i].tag);
      OldForIsOld(existing, next[j].tag);
      MergedIdsDiffer(existing, next, i, j);
    }
  }

  lemma MergedIdsDiffer(existing: seq<Target>, next: seq<Target>, i: int, j: int)
    requires DistinctTargets(existing) && DistinctTargets(next) && NewIds(next, existing) && 0 <= i < j < |next|
    ensures MergedTarget(next[i], existing).id != MergedTarget(next[j], existing).id
  {
    var a, b := OldFor(existing, next[i].tag), OldFor(existing, next[j].tag);
    OldForIsOld(existing, next[i].tag);
    OldForIsOld(existing, next[j].tag);
    if a.Some? && b.Some? {
      var k :| 0 <= k < |existing| && existing[k] == a.value;
      var l :| 0 <= l < |existing| && existing[l] == b.value;
      assert k != l;
    }
  }

  /** A schedule that holds the targets of a request is due from the time of the request on, with every
      target. */
  lemma NewTargetsAreDue(details: Details, at: Time, out: Schedule, now: Time)
    requires Requested(details, at) && Kept(out) && out.targets == details.targets && at <= now
    ensures out.nextRunAt == at && out.lastRunAt == None && forall t | t in out.targets :: Due(t, now)
  {
  }

  // ---- what an update keeps ----

  lemma {:induction false} IntervalForFinds(targets: seq<Target>, j: int)
    requires DistinctTargets(targets) && Plain(targets) && 0 <= j < |targets|
    ensures IntervalFor(targets, Key(targets[j])) == targets[j].intervalSeconds
  {
    var n := |targets| - 1;
    if j < n {
      PlainPair(targets, n, j);
      KeyTells(targets[n], targets[j]);
      IntervalForFinds(targets[..n], j);
    }
  }

  /** Without clashing labels, intervals are compared label by label. */
  lemma SameIntervalsMeaning(left: seq<Target>, right: seq<Target>)
    requires DistinctTargets(left) && Plain(left) && |left| == |right|
    requires forall i | 0 <= i < |right| :: exists j | 0 <= j < |left| :: SameSpot(left[j], right[i])
    ensures SameIntervals(left, right) <==>
        forall i, j | 0 <= i < |right| && 0 <= j < |left| && SameSpot(left[j], right[i]) :: left[j].intervalSeconds == right[i].intervalSeconds
  {
    forall i, j | 0 <= i < |right| && 0 <= j < |left| && SameSpot(left[j], right[i])
      ensures IntervalFor(left, Key(right[i])) == left[j].intervalSeconds
    {
      IntervalForFinds(left, j);
    }
  }

  /** Each target of `right` has the label and the agents of some target of `left`. */
  ghost predicate Covered(left: seq<Target>, right: seq<Target>) {
    forall i {:trigger HasSpot(left, right[i])} | 0 <= i < |right| :: HasSpot(left, right[i])
  }

  ghost predicate HasSpot(targets: seq<Target>, u: Target) { exists j | 0 <= j < |targets| :: SameSpot(targets[j], u) }

  /** Comparing sorted keys compares, label by label and in any order, the agents allowed. */
  lemma SameKeysByLabel(left: seq<Target>, right: seq<Target>)
    requires DistinctTargets(left) && DistinctTargets(right) && Plain(left + right)
    ensures multiset(Keys(left)) == multiset(Keys(right)) <==> Covered(left, right) && Covered(right, left)
  {
    PlainEach(left, right);
    if multiset(Keys(left)) == multiset(Keys(right)) {
      KeysCover(left, right);
      KeysCover(right, left);
    }
    if Covered(left, right) && Covered(right, left) {
      KeysOnce(left);
      KeysOnce(right);
      forall k ensures multiset(Keys(left))[k] == multiset(Keys(right))[k] {
        CoveredKey(left, right, k);
        CoveredKey(right, left, k);
      }
    }
  }

  lemma KeysCover(left: seq<Target>, right: seq<Target>)
    requires Plain(left + right) && multiset(Keys(left)) == multiset(Keys(right))
    ensures Covered(left, right)
  {
    forall i | 0 <= i < |right| ensures HasSpot(left, right[i]) {
      assert Keys(right)[i] in multiset(Keys(left));
      var j :| 0 <= j < |left| && Keys(left)[j] == Keys(right)[i];
      PlainParts(left, right, j, i);
      KeyTells(left[j], right[i]);
      assert SameSpot(left[j], right[i]);
    }
  }

  lemma CoveredKey(left: seq<Target>, right: seq<Target>, k: string)
    requires Covered(left, right)
    ensures k in Keys(right) ==> k in Keys(left)
  {
    if k in Keys(right) {
      var i :| 0 <= i < |right| && Keys(right)[i] == k;
      assert HasSpot(left, right[i]);
      var j :| 0 <= j < |left| && SameSpot(left[j], right[i]);
      assert Keys(left)[j] == k;
    }
  }

  lemma KeysOnce(targets: seq<Target>)
    requires DistinctTargets(targets) && Plain(targets)
    ensures forall k :: multiset(Keys(targets))[k] == if k in Keys(targets) then 1 else 0
  {
    var keys := Keys(targets);
    forall i, j | 0 <= i < j < |keys| ensures keys[i] != keys[j] {
      PlainPair(targets, i, j);
      KeyTells(targets[i], targets[j]);
    }
    OnceEach(keys);
  }

  lemma {:induction false} OnceEach(keys: seq<string>)
    requires forall i, j | 0 <= i < j < |keys| :: keys[i] != keys[j]
    ensures forall k :: multiset(keys)[k] == if k in keys then 1 else 0
  {
    if keys != [] {
      var n := |keys| - 1;
      assert keys == keys[..n] + [keys[n]];
      OnceEach(keys[..n]);
    }
  }

  /** The new target is the old one under the same label, with the agents spelled the same. */
  predicate SameTarget(t: Target, u: Target) {
    u == t.(allowed := u.allowed) && AgentsText(t) == AgentsText(u)
  }

  ghost predicate HasSame(targets: seq<Target>, u: Target) { exists j | 0 <= j < |targets| :: SameTarget(targets[j], u) }

  /** The targets of `right` are targets of `left`, in any order. */
  ghost predicate Repeats(left: seq<Target>, right: seq<Target>) {
    forall i {:trigger HasSame(left, right[i])} | 0 <= i < |right| :: HasSame(left, right[i])
  }

  /** An update that leaves definition and intervals of an enabled schedule as they were keeps the
      revision and, whatever the order of the request, every target with its ID and its run times, and
      so the run times of the schedule. */
  lemma UnchangedUpdateKeepsRuns(s: Schedule, details: Details, out: Schedule)
    requires Kept(s) && Kept(out) && DistinctTargets(details.targets) && Plain(s.targets + details.targets)
    requires Carries(s, details) && out.revision == RevisionAfter(s, details)
    requires MergedInto(details.targets, s.targets, out.targets)
    ensures s.revision > 0 ==> out.revision == s.revision
    ensures Repeats(s.targets, out.targets) && Repeats(out.targets, s.targets)
    ensures out.nextRunAt == s.nextRunAt && out.lastRunAt == s.lastRunAt
  {
    KeepsBothWays(s.targets, details.targets, out.targets);
    SameRunTimes(s, out);
  }

  lemma KeepsBothWays(existing: seq<Target>, next: seq<Target>, out: seq<Target>)
    requires DistinctTargets(existing) && DistinctTargets(next) && Plain(existing + next)
    requires multiset(Keys(existing)) == multiset(Keys(next)) && SameIntervals(existing, next) && MergedInto(next, existing, out)
    ensures Repeats(existing, out) && Repeats(out, existing)
  {
    SameKeysByLabel(existing, next);
    PlainEach(existing, next);
    KeepsTargets(existing, next, out);
    KeepsAllTargets(existing, next, out);
  }

  lemma SameRunTimes(s: Schedule, out: Schedule)
    requires Indexed(s) && Indexed(out) && Repeats(s.targets, out.targets) && Repeats(out.targets, s.targets)
    ensures out.nextRunAt == s.nextRunAt && out.lastRunAt == s.lastRunAt
  {
    EarlierOrSame(s.targets, out.targets, s.nextRunAt, out.nextRunAt);
    EarlierOrSame(out.targets, s.targets, out.nextRunAt, s.nextRunAt);
    LaterOrSame(s.targets, out.targets, s.lastRunAt, out.lastRunAt);
    LaterOrSame(out.targets, s.targets, out.lastRunAt, s.lastRunAt);
  }

  lemma KeepsTargets(existing: seq<Target>, next: seq<Target>, out: seq<Target>)
    requires DistinctTargets(existing) && Plain(existing) && SameIntervals(existing, next)
    requires Covered(existing, next) && MergedInto(next, existing, out)
    ensures Repeats(existing, out)
  {
    forall i | 0 <= i < |out| ensures HasSame(existing, out[i]) {
      assert HasSpot(existing, next[i]);
      var j :| 0 <= j < |existing| && SameSpot(existing[j], next[i]);
      KeptTarget(existing, next, i, j);
    }
  }

  lemma KeepsAllTargets(existing: seq<Target>, next: seq<Target>, out: seq<Target>)
    requires DistinctTargets(existing) && Plain(existing) && SameIntervals(existing, next)
    requires Covered(next, existing) && MergedInto(next, existing, out)
    ensures Repeats(out, existing)
  {
    forall j | 0 <= j < |existing| ensures HasSame(out, existing[j]) {
      assert HasSpot(next, existing[j]);
      var i :| 0 <= i < |next| && SameSpot(next[i], existing[j]);
      KeptTarget(existing, next, i, j);
      assert SameTarget(out[i], existing[j]);
    }
  }

  /** The restriction is needed: with a clash an update can change a label unnoticed. The revision stays,
      and the target under the new label starts over. */
  lemma NulHidesChange(s: Schedule, details: Details, was: Target, next: Target)
    requires s.enabled && s.targets == [was] && was.tag == "a" && was.allowed == ["b\0c"]
    requires details.targets == [next] && next.tag == "a\0b" && next.allowed == ["c"]
    requires next.intervalSeconds == was.intervalSeconds && details.args == s.args && details.tool == s.tool
    requires details.target == s.target && details.ipVersion == s.ipVersion && details.resolveOnAgent == s.resolveOnAgent
    ensures Carries(s, details) && MergedTarget(next, s.targets) == next
  {
    NulConfusesKeys(was);
    assert Key(was) == Key(next);
    assert Keys(s.targets) == [Key(was)] && Keys(details.targets) == [Key(next)];
    assert |was.tag| == 1 && |next.tag| == 3;
    assert s.targets[..0] == [] && OldFor(s.targets, next.tag) == None;
  }

  lemma KeptTarget(existing: seq<Target>, next: seq<Target>, i: int, j: int)
    requires DistinctTargets(existing) && Plain(existing) && SameIntervals(existing, next)
    requires 0 <= i < |next| && 0 <= j < |existing| && SameSpot(existing[j], next[i])
    ensures SameTarget(existing[j], MergedTarget(next[i], existing))
  {
    OldForFinds(existing, j);
    IntervalForFinds(existing, j);
  }

  lemma EarlierOrSame(left: seq<Target>, right: seq<Target>, a: Time, b: Time)
    requires Repeats(left, right) && IsEarliest(a, left) && IsEarliest(b, right)
    ensures a <= b
  {
    var i :| 0 <= i < |right| && right[i].nextRunAt == b;
    assert HasSame(left, right[i]);
    var j :| 0 <= j < |left| && SameTarget(left[j], right[i]);
  }

  lemma LaterOrSame(left: seq<Target>, right: seq<Target>, a: Option<Time>, b: Option<Time>)
    requires Repeats(left, right) && IsLatest(a, left) && IsLatest(b, right)
    ensures b.Some? ==> a.Some? && b.value <= a.value
  {
    if b.Some? {
      var i :| 0 <= i < |right| && right[i].lastRunAt == b;
      assert HasSame(left, right[i]);
      var j :| 0 <= j < |left| && SameTarget(left[j], right[i]);
    }
  }
}
