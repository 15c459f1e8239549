/** The probe loops of the agent: ping, traceroute and mtr. What the network answers is given from
    outside; durations are whole nanoseconds and round-trip times are reals. */
module Probes {
  import opened Text
  import opened Model
  import opened Runtimes
  import opened AllowedArgs
  import opened Policies

  /** The outcome of one probe: no answer, or an answer after `rtt` milliseconds. */
  datatype Reply = Lost(cost: int) | Got(cost: int, rtt: real, ip: string, reached: bool)

  predicate Reached(r: Reply) { r.Got? && r.reached }

  /** What a run meets: the reply to each probe, whether the context is found cancelled at the check before
      a probe and, for ping, how far into the gap after a probe it is cancelled, if it is. */
  datatype World = World(replies: nat -> Reply, cancelled: nat -> bool, cutGap: nat -> Option<int>)

  /** Every probe ends within its step, and a gap is cut before it is over. */
  ghost predicate WithinStep(w: World, step: int) {
    && (forall k: nat :: 0 <= w.replies(k).cost <= step)
    && (forall k: nat :: w.cutGap(k).Some? ==> 0 <= w.cutGap(k).value <= SECOND)
  }

  function ParsePositiveInt(v: string): (n: int)
    ensures n >= 1
  {
    var parsed := Atoi(v);
    if parsed.None? || parsed.value <= 0 then 1 else parsed.value
  }

  function IntArg(args: Args, key: string, fallback: string): (n: int)
    ensures n >= 1
  {
    ParsePositiveInt(if ArgOr(args, key, "") == "" then fallback else args[key])
  }

  lemma ServerOwnedArgReads(args: Args, key: string, fallback: string, n: int)
    requires 1 <= n <= INT_MAX && key in args && args[key] == Itoa(n)
    ensures IntArg(args, key, fallback) == n
  {
    AtoiItoa(n);
  }

  /** A probe may take one second unless a positive time is set. */
  function StepOf(probeTimeout: int): (step: int)
    ensures probeTimeout <= 0 ==> step == 1_000_000_000
    ensures probeTimeout > 0 ==> step == probeTimeout
  {
    if probeTimeout <= 0 then SECOND else probeTimeout
  }

  /** An absent or empty argument reads as its default; a numeral that is malformed or not positive as 1. */
  lemma IntArgMeaning(args: Args, key: string, fallback: string)
    ensures var text := if key in args && args[key] != "" then args[key] else fallback;
        && (Atoi(text).Some? && Atoi(text).value > 0 ==> IntArg(args, key, fallback) == Atoi(text).value)
        && (Atoi(text).None? || Atoi(text).value <= 0 ==> IntArg(args, key, fallback) == 1)
  {
  }

  // ---- statistics ----

  function Sum(xs: seq<real>): real { if xs == [] then 0.0 else Sum(xs[..|xs| - 1]) + xs[|xs| - 1] }

  datatype Stats = Stats(best: real, avg: real, worst: real, last: real)

  /** `s` summarizes the samples: the extremes are samples that bound all others, the average is the
      exact mean, and average and last lie between the extremes. */
  ghost predicate Summarizes(s: Stats, samples: seq<real>) {
    && samples != []
    && s.best in samples && s.worst in samples && s.last == samples[|samples| - 1]
    && (forall i | 0 <= i < |samples| :: s.best <= samples[i] <= s.worst)
    && s.avg * |samples| as real == Sum(samples)
    && s.best <= s.avg <= s.worst && s.best <= s.last <= s.worst
  }

  lemma {:induction false} SumBetween(xs: seq<real>, lo: real, hi: real)
    requires forall i | 0 <= i < |xs| :: lo <= xs[i] <= hi
    ensures lo * |xs| as real <= Sum(xs) <= hi * |xs| as real
  {
    if xs != [] {
      var n := |xs| - 1;
      SumBetween(xs[..n], lo, hi);
      assert lo * (n as real + 1.0) == lo * n as real + lo && hi * (n as real + 1.0) == hi * n as real + hi;
    }
  }

  lemma MeanBetween(sum: real, n: real, lo: real, hi: real)
    requires n > 0.0 && lo * n <= sum <= hi * n
    ensures lo <= sum / n <= hi && (sum / n) * n == sum
  {
    var avg := sum / n;
    assert avg * n == sum;
    ScaledOrder(lo, avg, n);
    ScaledOrder(avg, hi, n);
  }

  lemma ScaledOrder(a: real, b: real, n: real)
    requires n > 0.0 && a * n <= b * n
    ensures a <= b
  {
  }

  method Extremes(samples: seq<real>) returns (minV: real, maxV: real, sum: real)
    requires samples != []
    ensures minV in samples && maxV in samples
    ensures forall i | 0 <= i < |samples| :: minV <= samples[i] <= maxV
    ensures sum == Sum(samples)
  {
    minV, maxV, sum := samples[0], samples[0], 0.0;
    for k := 0 to |samples|
      invariant minV in samples && maxV in samples
      invariant forall i | 0 <= i < k :: minV <= samples[i] <= maxV
      invariant sum == Sum(samples[..k])
    {
      assert samples[..k + 1][..k] == samples[..k];
      if k == 0 || samples[k] < minV {
        minV := samples[k];
      }
      if k == 0 || samples[k] > maxV {
        maxV := samples[k];
      }
      sum := sum + samples[k];
    }
    assert samples[..|samples|] == samples;
  }

  method ComputeStats(samples: seq<real>) returns (s: Stats)
    requires samples != []
    ensures Summarizes(s, samples)
  {
    var minV, maxV, sum := Extremes(samples);
    SumBetween(samples, minV, maxV);
    MeanBetween(sum, |samples| as real, minV, maxV);
    s := Stats(minV, sum / |samples| as real, maxV, samples[|samples| - 1]);
  }

  method ComputeLoss(sent: int, received: int) returns (loss: real)
    ensures loss == LossPct(sent, received)
    ensures 0 <= received <= sent ==> 0.0 <= loss <= 100.0
  {
    if 0 <= received <= sent && sent > 0 {
      LossBetween(sent, received);
    }
    loss := 0.0;
    if sent > 0 {
      loss := (sent - received) as real / sent as real * 100.0;
    }
  }

  function LossPct(sent: int, received: int): real {
    if sent > 0 then (sent - received) as real / sent as real * 100.0 else 0.0
  }

  lemma LossBetween(sent: int, received: int)
    requires sent > 0 && 0 <= received <= sent
    ensures 0.0 <= LossPct(sent, received) <= 100.0
    ensures LossPct(sent, received) * sent as real == (sent - received) as real * 100.0
  {
    var n, lost := sent as real, (sent - received) as real;
    MeanBetween(lost, n, 0.0, 1.0);
    assert lost / n * 100.0 * n == (lost / n * n) * 100.0;
  }

  // ---- ping ----

  /** The result of a ping: exit code -1 when cancelled, 1 when nothing answered, 0 otherwise. */
  datatype PingResult = PingResult(
    exitCode: int, transmitted: int, received: int, loss: real, stats: Option<Stats>, cost: int)

  /** The first `n` replies. */
  function Replies(w: World, n: nat): (r: seq<Reply>)
    ensures |r| == n
  {
    if n == 0 then [] else Replies(w, n - 1) + [w.replies(n - 1)]
  }

  /** The loop: the probes sent, the times of those answered, and the time spent. */
  method SendPings(count: int, step: int, w: World) returns (finished: bool, attempted: int, samples: seq<real>, cost: int)
    requires count >= 1 && step >= 0 && WithinStep(w, step)
    ensures 0 <= attempted <= count && (finished ==> attempted == count)
    ensures samples == Rtts(Replies(w, attempted))
    ensures 0 <= cost <= count * step + (count - 1) * SECOND
  {
    finished, attempted, cost := false, 0, 0;
    samples := [];
    for k := 0 to count
      invariant attempted == k && samples == Rtts(Replies(w, k))
      invariant 0 <= cost <= k * step + k * SECOND && (k == count ==> cost <= count * step + (count - 1) * SECOND)
    {
      PingStepCost(count, step, k);
      if w.cancelled(k) {
        return;
      }
      attempted := k + 1;
      assert Replies(w, k + 1)[..k] == Replies(w, k);
      var reply := w.replies(k);
      cost := cost + reply.cost;
      if reply.Got? {
        samples := samples + [reply.rtt];
      }
      if k + 1 < count {
        if w.cutGap(k).Some? {
          cost := cost + w.cutGap(k).value;
          return;
        }
        cost := cost + SECOND;
      }
    }
    finished := true;
  }

  /** A whole ping: counts, loss and times are those of the probes sent, and the exit code tells a
      cancelled run, a run without answers and a successful one apart. */
  method RunPing(count: int, step: int, w: World) returns (r: PingResult, finished: bool)
    requires count >= 1 && step >= 0 && WithinStep(w, step)
    ensures 0 <= r.received <= r.transmitted <= count && (finished ==> r.transmitted == count)
    ensures r.exitCode == if !finished then -1 else if r.received == 0 then 1 else 0
    ensures var samples := Rtts(Replies(w, r.transmitted));
        && r.received == |samples| && (r.stats.None? <==> samples == [])
        && (r.stats.Some? ==> Summarizes(r.stats.value, samples))
    ensures r.loss == LossPct(r.transmitted, r.received) && 0.0 <= r.loss <= 100.0
    ensures 0 <= r.cost <= count * step + (count - 1) * SECOND
  {
    var attempted, samples, cost;
    finished, attempted, samples, cost := SendPings(count, step, w);
    var loss := ComputeLoss(attempted, |samples|);
    var stats := None;
    if samples != [] {
      var s := ComputeStats(samples);
      stats := Some(s);
    }
    var exitCode := 0;
    if !finished {
      exitCode := -1;
    } else if |samples| == 0 {
      exitCode := 1;
    }
    r := PingResult(exitCode, attempted, |samples|, loss, stats, cost);
  }

  lemma PingStepCost(count: int, step: int, k: int)
    requires 0 <= k < count && step >= 0
    ensures (k + 1) * step == k * step + step
    ensures 0 <= k * step && k * step + step <= count * step
    ensures k * step + k * SECOND + step <= count * step + (count - 1) * SECOND
    ensures k + 1 < count ==> k * step + k * SECOND + step + SECOND <= count * step + (count - 1) * SECOND
  {
    assert (k + 1) * step <= count * step;
  }

  // ---- traceroute ----

  /** The result of one trace: the replies of hops 1, 2, ..., whether the target was reached, and
      whether the trace ended in an error. */
  datatype Trace = Trace(hops: seq<Reply>, ok: bool, failed: bool, cost: int)

  predicate Resolvable(w: World) { !w.cancelled(0) }

  /** What a trace under a hop limit is: the replies in order, ending at the first hop that reached
      the target; one that neither reached it nor failed used the whole limit. */
  ghost predicate TraceOf(w: World, maxHops: int, t: Trace) {
    && |t.hops| <= maxHops
    && (forall i | 0 <= i < |t.hops| :: t.hops[i] == w.replies(i + 1))
    && (forall i | 0 <= i < |t.hops| - 1 :: t.hops[i].Got? ==> !t.hops[i].reached)
    && (t.ok <==> t.hops != [] && t.hops[|t.hops| - 1].Got? && t.hops[|t.hops| - 1].reached)
    && (t.failed ==> !t.ok)
    && (!t.ok && !t.failed ==> |t.hops| == maxHops)
  }

  /** A trace fails exactly where it is cancelled: before the first probe, or before the next one. */
  ghost predicate FailsWhereCancelled(w: World, t: Trace) {
    && (forall ttl: nat | 1 <= ttl <= |t.hops| :: !w.cancelled(ttl))
    && (w.cancelled(0) ==> t.failed && t.hops == [])
    && (t.failed ==> w.cancelled(0) || w.cancelled(|t.hops| + 1))
  }

  method RunTrace(w: World, maxHops: int, step: int) returns (t: Trace)
    requires maxHops >= 0 && step >= 0 && WithinStep(w, step)
    ensures TraceOf(w, maxHops, t) && FailsWhereCancelled(w, t)
    ensures 0 <= t.cost <= |t.hops| * step
  {
    if !Resolvable(w) {
      return Trace([], false, true, 0);
    }
    var hops: seq<Reply> := [];
    var cost := 0;
    for ttl := 1 to maxHops + 1
      invariant |hops| == ttl - 1
      invariant forall i | 0 <= i < |hops| :: hops[i] == w.replies(i + 1) && !Reached(hops[i])
      invariant !w.cancelled(0) && forall k: nat | 1 <= k <= |hops| :: !w.cancelled(k)
      invariant 0 <= cost <= |hops| * step
    {
      if w.cancelled(ttl) {
        return Trace(hops, false, true, cost);
      }
      var reply := w.replies(ttl);
      assert (|hops| + 1) * step == |hops| * step + step;
      hops := hops + [reply];
      cost := cost + reply.cost;
      if Reached(reply) {
        return Trace(hops, true, false, cost);
      }
    }
    return Trace(hops, false, false, cost);
  }

  // ---- mtr ----

  /** The probes of hop `i` over the cycles run, in order. */
  function ProbesAt(traces: seq<Trace>, i: int): (r: seq<Reply>)
    requires i >= 1
    ensures |r| <= |traces|
  {
    if traces == [] then []
    else
      var init := ProbesAt(traces[..|traces| - 1], i);
      var last := traces[|traces| - 1];
      if |last.hops| >= i then init + [last.hops[i - 1]] else init
  }

  datatype HopSummary = HopSummary(index: int, ip: string, sent: int, received: int, loss: real, stats: Option<Stats>)

  function Rtts(probes: seq<Reply>): (r: seq<real>)
    ensures |r| <= |probes|
  {
    if probes == [] then []
    else
      var init := Rtts(probes[..|probes| - 1]);
      var last := probes[|probes| - 1];
      if last.Got? then init + [last.rtt] else init
  }

  function IpOf(r: Reply): string { if r.Got? then r.ip else "" }

  predicate NoIp(r: Reply) { r.Got? ==> r.ip == "" }

  /** `ip` is the address of the first probe that carries one. */
  ghost predicate FirstIp(ip: string, probes: seq<Reply>) {
    if ip == "" then forall k | 0 <= k < |probes| :: NoIp(probes[k])
    else exists k | 0 <= k < |probes| :: probes[k].Got? && probes[k].ip == ip && forall j | 0 <= j < k :: NoIp(probes[j])
  }

  ghost predicate HopOk(h: HopSummary, index: int, probes: seq<Reply>, sent: int) {
    && h.index == index && h.sent == sent && h.received == |Rtts(probes)| && FirstIp(h.ip, probes)
    && h.loss == LossPct(sent, h.received)
    && (|probes| <= sent ==> h.received <= sent && 0.0 <= h.loss <= 100.0)
    && (h.stats.None? <==> Rtts(probes) == [])
    && (h.stats.Some? ==> Summarizes(h.stats.value, Rtts(probes)))
  }

  method SummarizeHop(index: int, probes: seq<Reply>, sent: int) returns (h: HopSummary)
    ensures HopOk(h, index, probes, sent)
  {
    var samples, ip := ReadProbes(probes);
    var loss := ComputeLoss(sent, |samples|);
    var stats := None;
    if samples != [] {
      var s := ComputeStats(samples);
      stats := Some(s);
    }
    h := HopSummary(index, ip, sent, |samples|, loss, stats);
  }

  lemma FirstIpMore(ip: string, probes: seq<Reply>, r: Reply)
    requires FirstIp(ip, probes)
    ensures FirstIp(if ip == "" then IpOf(r) else ip, probes + [r])
  {
    var more := probes + [r];
    if ip != "" {
      var k :| 0 <= k < |probes| && probes[k].Got? && probes[k].ip == ip && forall j | 0 <= j < k :: NoIp(probes[j]);
      assert more[k] == probes[k] && forall j | 0 <= j < k :: NoIp(more[j]);
    } else if IpOf(r) != "" {
      assert more[|probes|] == r && forall j | 0 <= j < |probes| :: NoIp(more[j]);
    }
  }

  lemma RttsMore(probes: seq<Reply>, r: Reply)
    ensures Rtts(probes + [r]) == if r.Got? then Rtts(probes) + [r.rtt] else Rtts(probes)
  {
    assert (probes + [r])[..|probes|] == probes;
  }

  method ReadProbes(probes: seq<Reply>) returns (samples: seq<real>, ip: string)
    ensures samples == Rtts(probes) && FirstIp(ip, probes)
  {
    samples, ip := [], "";
    for k := 0 to |probes|
      invariant samples == Rtts(probes[..k]) && FirstIp(ip, probes[..k])
    {
      FirstIpMore(ip, probes[..k], probes[k]);
      RttsMore(probes[..k], probes[k]);
      assert probes[..k] + [probes[k]] == probes[..k + 1];
      if IpOf(probes[k]) != "" && ip == "" {
        ip := IpOf(probes[k]);
      }
      if probes[k].Got? {
        samples := samples + [probes[k].rtt];
      }
    }
    assert probes[..|probes|] == probes;
  }

  datatype MtrResult = Aborted(trace: Trace) | Aggregate(ok: bool, hops: seq<HopSummary>)

  /** `m` is the length of the shortest successful trace, or the limit if none succeeded. */
  ghost predicate ShortestPath(m: int, limit: int, traces: seq<Trace>) {
    && m <= limit
    && (forall j | 0 <= j < |traces| && traces[j].ok :: m <= |traces[j].hops|)
    && (m == limit || exists j | 0 <= j < |traces| :: traces[j].ok && |traces[j].hops| == m)
  }

  /** The hop limit of each cycle: the limit of the run until a cycle succeeds, then the length of
      the last success. */
  function LimitAfter(limit: int, traces: seq<Trace>): int {
    if traces == [] then limit
    else
      var last := traces[|traces| - 1];
      if last.ok then |last.hops| else LimitAfter(limit, traces[..|traces| - 1])
  }

  /** The cycles of a run: each ran under the limit its predecessors left, and at most the last failed. */
  ghost predicate CyclesOf(worlds: nat -> World, limit: int, traces: seq<Trace>) {
    traces == [] ||
    var init := traces[..|traces| - 1];
    && CyclesOf(worlds, limit, init) && NoneFailed(init)
    && TraceOf(worlds(|init|), LimitAfter(limit, init), traces[|init|])
  }

  /** The probe table: for every hop, the probes gathered so far. */
  type ProbeTable = map<int, seq<Reply>>

  function At(acc: ProbeTable, i: int): seq<Reply> { if i in acc then acc[i] else [] }

  ghost predicate GathersHops(acc: ProbeTable, hops: seq<Reply>, out: ProbeTable) {
    forall i :: At(out, i) == if 1 <= i <= |hops| then At(acc, i) + [hops[i - 1]] else At(acc, i)
  }

  method Gather(acc: ProbeTable, hops: seq<Reply>) returns (out: ProbeTable)
    ensures GathersHops(acc, hops, out)
  {
    out := acc;
    for k := 0 to |hops|
      invariant forall i :: At(out, i) == if 1 <= i <= k then At(acc, i) + [hops[i - 1]] else At(acc, i)
    {
      out := out[k + 1 := At(out, k + 1) + [hops[k]]];
    }
  }

  /** What holds after some cycles: the probe table, the hop limit and the cost follow from the traces. */
  ghost predicate Progress(worlds: nat -> World, limit: int, bound: int, traces: seq<Trace>, acc: ProbeTable,
                           maxHops: int, cost: int) {
    && CyclesOf(worlds, limit, traces) && Gathered(acc, traces)
    && 1 <= maxHops == LimitAfter(limit, traces) && ShortestPath(maxHops, limit, traces)
    && cost == TotalCost(traces) && AllWithin(traces, bound)
  }

  lemma ProgressMore(worlds: nat -> World, limit: int, bound: int, traces: seq<Trace>, acc: ProbeTable,
                     maxHops: int, cost: int, t: Trace, nextAcc: ProbeTable)
    requires NoneFailed(traces) && Progress(worlds, limit, bound, traces, acc, maxHops, cost)
    requires TraceOf(worlds(|traces|), maxHops, t) && WithinBound(t, bound) && GathersHops(acc, t.hops, nextAcc)
    ensures Progress(worlds, limit, bound, traces + [t], nextAcc, if t.ok then |t.hops| else maxHops, cost + t.cost)
  {
    AnotherWithin(traces, t, bound);
    TotalCostMore(traces, t);
    AnotherCycle(worlds, limit, traces, t);
    ShorterPath(limit, traces, t, maxHops);
    GatheredMore(acc, traces, t, nextAcc);
  }

  /** One trace under a hop limit that may have shrunk. */
  method TraceWithin(w: World, maxHops: int, limit: int, step: int, ghost bound: int) returns (t: Trace)
    requires 0 <= maxHops <= limit && step >= 0 && WithinStep(w, step) && bound == limit * step
    ensures TraceOf(w, maxHops, t) && WithinBound(t, bound)
  {
    t := RunTrace(w, maxHops, step);
    assert |t.hops| * step <= limit * step;
  }

  /** The cycles of mtr, with the probe table, the hop limit left over and the total cost. */
  method RunCycles(worlds: nat -> World, count: int, limit: int, step: int, ghost bound: int)
    returns (traces: seq<Trace>, acc: ProbeTable, maxHops: int, cost: int)
    requires count >= 1 && limit >= 1 && step >= 0 && forall j: nat :: WithinStep(worlds(j), step)
    requires bound == limit * step
    ensures 1 <= |traces| <= count && Progress(worlds, limit, bound, traces, acc, maxHops, cost)
    ensures |traces| < count ==> traces[|traces| - 1].failed
  {
    traces, acc, maxHops, cost := [], map[], limit, 0;
    for k := 0 to count
      invariant |traces| == k && NoneFailed(traces) && Progress(worlds, limit, bound, traces, acc, maxHops, cost)
    {
      var t := TraceWithin(worlds(k), maxHops, limit, step, bound);
      var nextAcc := Gather(acc, t.hops);
      ProgressMore(worlds, limit, bound, traces, acc, maxHops, cost, t, nextAcc);
      traces, acc, cost := traces + [t], nextAcc, cost + t.cost;
      if t.failed {
        return;
      }
      if t.ok {
        maxHops := |t.hops|;
      }
    }
  }

  predicate NoneFailed(traces: seq<Trace>) { forall j | 0 <= j < |traces| :: !traces[j].failed }

  ghost predicate Gathered(acc: ProbeTable, traces: seq<Trace>) {
    forall i | i >= 1 :: At(acc, i) == ProbesAt(traces, i)
  }

  lemma GatheredMore(acc: ProbeTable, traces: seq<Trace>, t: Trace, next: ProbeTable)
    requires Gathered(acc, traces)
    requires GathersHops(acc, t.hops, next)
    ensures Gathered(next, traces + [t])
  {
    assert (traces + [t])[..|traces|] == traces;
    forall i | i >= 1 ensures At(next, i) == ProbesAt(traces + [t], i) {
      assert At(acc, i) == ProbesAt(traces, i);
    }
  }

  function TotalCost(traces: seq<Trace>): int {
    if traces == [] then 0 else TotalCost(traces[..|traces| - 1]) + traces[|traces| - 1].cost
  }

  predicate WithinBound(t: Trace, bound: int) { 0 <= t.cost <= bound }

  predicate AllWithin(traces: seq<Trace>, bound: int) { forall j | 0 <= j < |traces| :: WithinBound(traces[j], bound) }

  lemma AnotherWithin(traces: seq<Trace>, t: Trace, bound: int)
    requires AllWithin(traces, bound) && WithinBound(t, bound)
    ensures AllWithin(traces + [t], bound)
  {
  }

  lemma TotalCostMore(traces: seq<Trace>, t: Trace)
    ensures TotalCost(traces + [t]) == TotalCost(traces) + t.cost
  {
    assert (traces + [t])[..|traces|] == traces;
  }

  lemma {:induction false} TotalCostBound(traces: seq<Trace>, bound: int, count: int)
    requires bound >= 0 && |traces| <= count && AllWithin(traces, bound)
    ensures 0 <= TotalCost(traces) <= count * bound
  {
    if traces == [] {
      assert 0 <= count * bound;
    } else {
      TotalCostBound(traces[..|traces| - 1], bound, count - 1);
      assert count * bound == (count - 1) * bound + bound;
    }
  }

  lemma AnotherCycle(worlds: nat -> World, limit: int, traces: seq<Trace>, t: Trace)
    requires CyclesOf(worlds, limit, traces) && NoneFailed(traces)
    requires TraceOf(worlds(|traces|), LimitAfter(limit, traces), t)
    ensures CyclesOf(worlds, limit, traces + [t])
  {
    assert (traces + [t])[..|traces|] == traces;
  }

  lemma ShorterPath(limit: int, traces: seq<Trace>, t: Trace, maxHops: int)
    requires maxHops == LimitAfter(limit, traces) && ShortestPath(maxHops, limit, traces) && |t.hops| <= maxHops
    ensures LimitAfter(limit, traces + [t]) == if t.ok then |t.hops| else maxHops
    ensures ShortestPath(LimitAfter(limit, traces + [t]), limit, traces + [t])
  {
    var more := traces + [t];
    var n := |traces|;
    assert more[..n] == traces && more[n] == t;
    var m := if t.ok then |t.hops| else maxHops;
    if m != limit && !t.ok {
      var j :| 0 <= j < n && traces[j].ok && |traces[j].hops| == m;
      assert more[j].ok && |more[j].hops| == m;
    }
  }

  /** mtr returns an aggregate unless its very first cycle fails. The hops are 1 to m, where m is the
      shortest successful path or the limit; every hop holds at most one probe per cycle, with losses
      and times in order; and the whole run costs at most count times limit times step. */
  method RunMtr(worlds: nat -> World, count: int, limit: int, step: int)
    returns (result: MtrResult, traces: seq<Trace>, cost: int)
    requires count >= 1 && limit >= 1 && step >= 0 && forall j: nat :: WithinStep(worlds(j), step)
    ensures 1 <= |traces| <= count && CyclesOf(worlds, limit, traces)
    ensures |traces| < count ==> traces[|traces| - 1].failed
    ensures if traces[0].failed then result == Aborted(traces[0]) else result.Aggregate?
    ensures result.Aggregate? ==>
        && result.ok == traces[|traces| - 1].ok
        && ShortestPath(|result.hops|, limit, traces)
        && forall i | 1 <= i <= |result.hops| :: HopOk(result.hops[i - 1], i, ProbesAt(traces, i), count)
    ensures 0 <= cost <= count * (limit * step)
  {
    var acc, maxHops;
    traces, acc, maxHops, cost := RunCycles(worlds, count, limit, step, limit * step);
    TotalCostBound(traces, limit * step, count);
    if traces[0].failed {
      assert |traces| == 1;
      return Aborted(traces[0]), traces, cost;
    }
    var hops: seq<HopSummary> := [];
    for i := 1 to maxHops + 1
      invariant |hops| == i - 1
      invariant forall k | 1 <= k < i :: HopOk(hops[k - 1], k, ProbesAt(traces, k), count)
    {
      assert At(acc, i) == ProbesAt(traces, i);
      var hop := SummarizeHop(i, At(acc, i), count);
      hops := hops + [hop];
    }
    result := Aggregate(traces[|traces| - 1].ok, hops);
  }

  // ---- the timeout formula covers the loops ----

  /** A ping job with the arguments the server owns ends within the timeout formula. */
  method PingJob(r: Runtime, args: Args, w: World) returns (result: PingResult)
    requires Positive(r) && 1 <= r.count <= INT_MAX && "count" in args && args["count"] == Itoa(r.count)
    requires WithinStep(w, StepOf(r.probeStepTimeout * SECOND))
    ensures 0 <= result.cost <= UnclampedTimeout(Ping, r) * SECOND
  {
    PositiveFields(r);
    ServerOwnedArgReads(args, "count", "10", r.count);
    var count := IntArg(args, "count", "10");
    var step := StepOf(r.probeStepTimeout * SECOND);
    var finished;
    result, finished := RunPing(count, step, w);
    assert count * step == (r.count * r.probeStepTimeout) * SECOND;
  }

  /** A traceroute job ends within the timeout formula. */
  method TracerouteJob(r: Runtime, args: Args, w: World) returns (t: Trace)
    requires Positive(r) && 1 <= r.maxHops <= INT_MAX && "max_hops" in args && args["max_hops"] == Itoa(r.maxHops)
    requires WithinStep(w, StepOf(r.probeStepTimeout * SECOND))
    ensures TraceOf(w, r.maxHops, t)
    ensures 0 <= t.cost <= UnclampedTimeout(Traceroute, r) * SECOND
  {
    PositiveFields(r);
    ServerOwnedArgReads(args, "max_hops", "30", r.maxHops);
    var maxHops := IntArg(args, "max_hops", "30");
    var step := StepOf(r.probeStepTimeout * SECOND);
    t := RunTrace(w, maxHops, step);
    TraceFormula(r, |t.hops|, step);
  }

  /** An mtr job ends within the timeout formula, however its hop limit shrinks. */
  method MtrJob(r: Runtime, args: Args, worlds: nat -> World) returns (result: MtrResult, cost: int)
    requires Positive(r) && 1 <= r.count <= INT_MAX && 1 <= r.maxHops <= INT_MAX
    requires "count" in args && args["count"] == Itoa(r.count) && "max_hops" in args && args["max_hops"] == Itoa(r.maxHops)
    requires forall j: nat :: WithinStep(worlds(j), StepOf(r.probeStepTimeout * SECOND))
    ensures result.Aggregate? ==> |result.hops| <= r.maxHops
    ensures 0 <= cost <= UnclampedTimeout(Mtr, r) * SECOND
  {
    PositiveFields(r);
    ServerOwnedArgReads(args, "count", "10", r.count);
    ServerOwnedArgReads(args, "max_hops", "30", r.maxHops);
    var count := IntArg(args, "count", "10");
    var maxHops := IntArg(args, "max_hops", "30");
    var step := StepOf(r.probeStepTimeout * SECOND);
    var traces;
    result, traces, cost := RunMtr(worlds, count, maxHops, step);
    MtrFormula(r, count, maxHops, step);
  }

  lemma TraceFormula(r: Runtime, hops: int, step: int)
    requires 0 <= hops <= r.maxHops && 0 <= step == r.probeStepTimeout * SECOND
    ensures hops * step <= UnclampedTimeout(Traceroute, r) * SECOND
  {
    assert hops * step <= r.maxHops * step;
    assert r.maxHops * (r.probeStepTimeout * SECOND) == (r.maxHops * r.probeStepTimeout) * SECOND;
  }

  lemma MtrFormula(r: Runtime, count: int, maxHops: int, step: int)
    requires count == r.count && maxHops == r.maxHops && step == r.probeStepTimeout * SECOND
    ensures count * (maxHops * step) == UnclampedTimeout(Mtr, r) * SECOND
  {
    var c, h, p := r.count, r.maxHops, r.probeStepTimeout;
    assert h * (p * SECOND) == (h * p) * SECOND;
    assert c * ((h * p) * SECOND) == (c * (h * p)) * SECOND;
    assert c * (h * p) == (c * h) * p;
  }
}
