/** Runtime limits: defaults, folding the limits of several labels, and the timeout of a tool. */
module Runtimes {
  import opened Model

  datatype Runtime = Runtime(
    count: int, maxHops: int, probeStepTimeout: int, maxToolTimeout: int, httpTimeout: int,
    dnsTimeout: int, resolveTimeout: int, httpInvokeAttempts: int, httpMaxHealthInterval: int)

  const DEFAULT_RUNTIME := Runtime(10, 30, 1, 300, 5, 5, 3, 3, 300)

  /** The nine limits by number, so that facts about all of them can be said once. */
  function Limit(r: Runtime, i: nat): int
    requires i < 9
  {
    [r.count, r.maxHops, r.probeStepTimeout, r.maxToolTimeout, r.httpTimeout,
     r.dnsTimeout, r.resolveTimeout, r.httpInvokeAttempts, r.httpMaxHealthInterval][i]
  }

  predicate Positive(r: Runtime) { forall i: nat | i < 9 :: Limit(r, i) > 0 }

  predicate AtMost(r: Runtime, s: Runtime) { forall i: nat | i < 9 :: Limit(r, i) <= Limit(s, i) }

  function OrDefault(x: int, d: int): int { if x == 0 then d else x }

  /** A limit of zero stands for its default; a negative limit stays as it is. */
  function DefaultRuntimeValues(r: Runtime): (out: Runtime)
    ensures forall i: nat | i < 9 :: Limit(out, i) == OrDefault(Limit(r, i), Limit(DEFAULT_RUNTIME, i))
  {
    Runtime(
      OrDefault(r.count, 10), OrDefault(r.maxHops, 30), OrDefault(r.probeStepTimeout, 1),
      OrDefault(r.maxToolTimeout, 300), OrDefault(r.httpTimeout, 5), OrDefault(r.dnsTimeout, 5),
      OrDefault(r.resolveTimeout, 3), OrDefault(r.httpInvokeAttempts, 3), OrDefault(r.httpMaxHealthInterval, 300))
  }

  function PositiveOr(x: int, d: int): int { if x <= 0 then d else x }

  /** Reading a stored runtime: every limit that is not positive becomes its default. */
  function NormalizeRuntime(r: Runtime): (out: Runtime)
    ensures Positive(out)
    ensures Positive(r) ==> out == r
    ensures forall i: nat | i < 9 :: Limit(out, i) == if Limit(r, i) > 0 then Limit(r, i) else Limit(DEFAULT_RUNTIME, i)
  {
    assert Limit(r, 0) == r.count && Limit(r, 1) == r.maxHops && Limit(r, 2) == r.probeStepTimeout &&
           Limit(r, 3) == r.maxToolTimeout && Limit(r, 4) == r.httpTimeout && Limit(r, 5) == r.dnsTimeout &&
           Limit(r, 6) == r.resolveTimeout && Limit(r, 7) == r.httpInvokeAttempts && Limit(r, 8) == r.httpMaxHealthInterval;
    Runtime(
      PositiveOr(r.count, 10), PositiveOr(r.maxHops, 30), PositiveOr(r.probeStepTimeout, 1),
      PositiveOr(r.maxToolTimeout, 300), PositiveOr(r.httpTimeout, 5), PositiveOr(r.dnsTimeout, 5),
      PositiveOr(r.resolveTimeout, 3), PositiveOr(r.httpInvokeAttempts, 3), PositiveOr(r.httpMaxHealthInterval, 300))
  }

  function MinPositive(left: int, right: int): int {
    if left <= 0 then right
    else if right <= 0 then left
    else if right < left then right
    else left
  }

  lemma FieldLimits(r: Runtime)
    ensures Limit(r, 0) == r.count && Limit(r, 1) == r.maxHops && Limit(r, 2) == r.probeStepTimeout
    ensures Limit(r, 3) == r.maxToolTimeout && Limit(r, 4) == r.httpTimeout && Limit(r, 5) == r.dnsTimeout
    ensures Limit(r, 6) == r.resolveTimeout && Limit(r, 7) == r.httpInvokeAttempts && Limit(r, 8) == r.httpMaxHealthInterval
  {
  }

  function MinRuntime(base: Runtime, next: Runtime): (out: Runtime)
    ensures forall i: nat | i < 9 ::
      Limit(out, i) == MinPositive(Limit(DefaultRuntimeValues(base), i), Limit(DefaultRuntimeValues(next), i))
  {
    var b, n := DefaultRuntimeValues(base), DefaultRuntimeValues(next);
    FieldLimits(b);
    FieldLimits(n);
    Runtime(
      MinPositive(b.count, n.count), MinPositive(b.maxHops, n.maxHops),
      MinPositive(b.probeStepTimeout, n.probeStepTimeout), MinPositive(b.maxToolTimeout, n.maxToolTimeout),
      MinPositive(b.httpTimeout, n.httpTimeout), MinPositive(b.dnsTimeout, n.dnsTimeout),
      MinPositive(b.resolveTimeout, n.resolveTimeout), MinPositive(b.httpInvokeAttempts, n.httpInvokeAttempts),
      MinPositive(b.httpMaxHealthInterval, n.httpMaxHealthInterval))
  }

  // ---- folding the runtimes of several labels ----

  /** The value label runtime `r` contributes for limit `i`; zero reads as the default. */
  function Contribution(r: Runtime, i: nat): (x: int)
    requires i < 9
    ensures if Limit(r, i) == 0 then x == Limit(DEFAULT_RUNTIME, i) else x == Limit(r, i)
  {
    OrDefault(Limit(r, i), Limit(DEFAULT_RUNTIME, i))
  }

  /** `x` is the least of `base` and the positive contributions of the runtimes to limit `i`. */
  ghost predicate LeastLimit(x: int, base: int, rs: set<Runtime>, i: nat)
    requires i < 9
  {
    && x <= base
    && (forall r | r in rs && Contribution(r, i) > 0 :: x <= Contribution(r, i))
    && (x == base || exists r | r in rs :: Contribution(r, i) > 0 && x == Contribution(r, i))
  }

  ghost predicate PointwiseLeast(out: Runtime, base: Runtime, rs: set<Runtime>) {
    forall i: nat | i < 9 :: LeastLimit(Limit(out, i), Limit(base, i), rs, i)
  }

  ghost function Elements(rs: seq<Runtime>): set<Runtime> { set r | r in rs }

  /** The loop over label configurations: folding onto a positive base gives, limit by limit, the
      least of the base and of every positive contribution. */
  method FoldRuntimes(base: Runtime, runtimes: seq<Runtime>) returns (out: Runtime)
    requires Positive(base)
    ensures PointwiseLeast(out, base, Elements(runtimes))
    ensures Positive(out)
  {
    out := base;
    for k := 0 to |runtimes|
      invariant Positive(out)
      invariant PointwiseLeast(out, base, Elements(runtimes[..k]))
    {
      var next := MinRuntime(out, runtimes[k]);
      assert runtimes[..k + 1] == runtimes[..k] + [runtimes[k]];
      FoldStep(out, runtimes[k], base, Elements(runtimes[..k]));
      assert Elements(runtimes[..k + 1]) == Elements(runtimes[..k]) + {runtimes[k]};
      out := next;
    }
    assert runtimes[..|runtimes|] == runtimes;
  }

  lemma FoldStep(acc: Runtime, next: Runtime, base: Runtime, rs: set<Runtime>)
    requires Positive(acc) && PointwiseLeast(acc, base, rs)
    ensures Positive(MinRuntime(acc, next))
    ensures PointwiseLeast(MinRuntime(acc, next), base, rs + {next})
  {
    var out := MinRuntime(acc, next);
    forall i: nat | i < 9
      ensures Limit(out, i) > 0 && LeastLimit(Limit(out, i), Limit(base, i), rs + {next}, i)
    {
      assert LeastLimit(Limit(acc, i), Limit(base, i), rs, i) && Limit(acc, i) > 0;
      assert Limit(out, i) == MinPositive(Limit(acc, i), Contribution(next, i));
    }
  }

  lemma LimitsDetermine(a: Runtime, b: Runtime)
    requires forall i: nat | i < 9 :: Limit(a, i) == Limit(b, i)
    ensures a == b
  {
    assert Limit(a, 0) == Limit(b, 0) && Limit(a, 1) == Limit(b, 1) && Limit(a, 2) == Limit(b, 2);
    assert Limit(a, 3) == Limit(b, 3) && Limit(a, 4) == Limit(b, 4) && Limit(a, 5) == Limit(b, 5);
    assert Limit(a, 6) == Limit(b, 6) && Limit(a, 7) == Limit(b, 7) && Limit(a, 8) == Limit(b, 8);
  }

  /** The fold depends on the set of label runtimes only, not on their order or repetition, and
      more runtimes never raise a limit. */
  lemma FoldIsMonotone(base: Runtime, few: set<Runtime>, many: set<Runtime>, a: Runtime, b: Runtime)
    requires few <= many && PointwiseLeast(a, base, few) && PointwiseLeast(b, base, many)
    ensures AtMost(b, a)
    ensures few == many ==> a == b
  {
    forall i: nat | i < 9
      ensures Limit(b, i) <= Limit(a, i) && (few == many ==> Limit(a, i) == Limit(b, i))
    {
      assert LeastLimit(Limit(a, i), Limit(base, i), few, i);
      assert LeastLimit(Limit(b, i), Limit(base, i), many, i);
    }
    if few == many {
      LimitsDetermine(a, b);
    }
  }

  // ---- timeouts, in seconds ----

  /** The time a tool may need when every probe takes its whole step. */
  function UnclampedTimeout(tool: Tool, r: Runtime): int {
    match tool
    case Ping => r.count * r.probeStepTimeout + (r.count - 1)
    case Traceroute => r.maxHops * r.probeStepTimeout
    case Mtr => (r.count * r.maxHops) * r.probeStepTimeout
    case Http => r.httpTimeout
    case Dns => r.dnsTimeout
    case _ => r.probeStepTimeout
  }

  function ToolTimeout(tool: Tool, runtime: Runtime): int {
    var r := NormalizeRuntime(runtime);
    var timeout := UnclampedTimeout(tool, r);
    var positive := if timeout <= 0 then r.probeStepTimeout else timeout;
    if positive > r.maxToolTimeout then r.maxToolTimeout else positive
  }

  function MaxToolTimeout(runtime: Runtime): int { NormalizeRuntime(runtime).maxToolTimeout }

  lemma PositiveFields(r: Runtime)
    requires Positive(r)
    ensures r.count > 0 && r.maxHops > 0 && r.probeStepTimeout > 0 && r.maxToolTimeout > 0
    ensures r.httpTimeout > 0 && r.dnsTimeout > 0
  {
    assert Limit(r, 0) > 0 && Limit(r, 1) > 0 && Limit(r, 2) > 0 && Limit(r, 3) > 0 && Limit(r, 4) > 0 && Limit(r, 5) > 0;
  }

  lemma ProductMonotone(a: int, b: int, c: int, d: int)
    requires 0 <= a <= b && 0 <= c <= d
    ensures 0 <= a * c <= b * d
  {
    assert a * c <= b * c <= b * d;
  }

  lemma UnclampedMonotone(tool: Tool, a: Runtime, b: Runtime)
    requires Positive(a) && Positive(b) && AtMost(a, b)
    ensures 0 < UnclampedTimeout(tool, a) <= UnclampedTimeout(tool, b)
  {
    PositiveFields(a);
    PositiveFields(b);
    assert Limit(a, 0) <= Limit(b, 0) && Limit(a, 1) <= Limit(b, 1) && Limit(a, 2) <= Limit(b, 2);
    assert Limit(a, 4) <= Limit(b, 4) && Limit(a, 5) <= Limit(b, 5);
    ProductMonotone(a.count, b.count, a.maxHops, b.maxHops);
    match tool
    case Ping =>
      ProductMonotone(a.count, b.count, a.probeStepTimeout, b.probeStepTimeout);
      ProductMonotone(1, a.count, 1, a.probeStepTimeout);
    case Traceroute =>
      ProductMonotone(a.maxHops, b.maxHops, a.probeStepTimeout, b.probeStepTimeout);
      ProductMonotone(1, a.maxHops, 1, a.probeStepTimeout);
    case Mtr =>
      ProductMonotone(a.count * a.maxHops, b.count * b.maxHops, a.probeStepTimeout, b.probeStepTimeout);
      ProductMonotone(1, a.count, 1, a.maxHops);
      ProductMonotone(1, a.count * a.maxHops, 1, a.probeStepTimeout);
    case _ =>
  }

  /** A tool timeout is positive and never exceeds the overall tool timeout. */
  lemma TimeoutBounds(tool: Tool, runtime: Runtime)
    ensures 0 < ToolTimeout(tool, runtime) <= MaxToolTimeout(runtime)
  {
    var r := NormalizeRuntime(runtime);
    PositiveFields(r);
    assert AtMost(r, r);
    UnclampedMonotone(tool, r, r);
  }

  /** The timeouts spelled out for positive limits, in seconds: what every probe may take together, with a
      gap of one second between pings, or the tool's own limit; never more than the overall limit. */
  lemma TimeoutFormula(r: Runtime, max: int)
    requires Positive(r) && max == r.maxToolTimeout
    ensures MaxToolTimeout(r) == max
    ensures ToolTimeout(Ping, r) == Least(r.count * r.probeStepTimeout + (r.count - 1), max)
    ensures ToolTimeout(Traceroute, r) == Least(r.maxHops * r.probeStepTimeout, max)
    ensures ToolTimeout(Mtr, r) == Least((r.count * r.maxHops) * r.probeStepTimeout, max)
    ensures ToolTimeout(Http, r) == Least(r.httpTimeout, max) && ToolTimeout(Dns, r) == Least(r.dnsTimeout, max)
    ensures ToolTimeout(Port, r) == Least(r.probeStepTimeout, max)
    ensures forall name :: ToolTimeout(Unknown(name), r) == Least(r.probeStepTimeout, max)
  {
    assert AtMost(r, r);
    UnclampedMonotone(Ping, r, r);
    UnclampedMonotone(Traceroute, r, r);
    UnclampedMonotone(Mtr, r, r);
    PositiveFields(r);
  }

  function Least(a: int, b: int): (m: int)
    ensures m <= a && m <= b && (m == a || m == b)
  {
    if a < b then a else b
  }

  /** The formula the probe loops are measured against, and the defaults of a server without settings. */
  lemma ProbeFormula(r: Runtime)
    ensures UnclampedTimeout(Ping, r) == r.count * r.probeStepTimeout + (r.count - 1)
    ensures UnclampedTimeout(Traceroute, r) == r.maxHops * r.probeStepTimeout
    ensures UnclampedTimeout(Mtr, r) == (r.count * r.maxHops) * r.probeStepTimeout
    ensures DEFAULT_RUNTIME == Runtime(10, 30, 1, 300, 5, 5, 3, 3, 300)
  {
  }

  /** The timeout is monotone in the limits. */
  lemma TimeoutMonotone(tool: Tool, a: Runtime, b: Runtime)
    requires Positive(a) && Positive(b) && AtMost(a, b)
    ensures ToolTimeout(tool, a) <= ToolTimeout(tool, b)
    ensures MaxToolTimeout(a) <= MaxToolTimeout(b)
  {
    UnclampedMonotone(tool, a, b);
    assert Limit(a, 3) <= Limit(b, 3);
  }

  /** More labels never lengthen a timeout, and every label set leaves one that is positive and
      at most the overall timeout of the base. */
  lemma MoreLabelsNeverLengthen(tool: Tool, base: Runtime, few: set<Runtime>, many: set<Runtime>, a: Runtime, b: Runtime)
    requires Positive(base) && Positive(a) && Positive(b)
    requires few <= many && PointwiseLeast(a, base, few) && PointwiseLeast(b, base, many)
    ensures 0 < ToolTimeout(tool, b) <= ToolTimeout(tool, a) <= ToolTimeout(tool, base)
    ensures ToolTimeout(tool, b) <= MaxToolTimeout(b) <= MaxToolTimeout(base)
  {
    FoldIsMonotone(base, few, many, a, b);
    forall i: nat | i < 9 ensures Limit(a, i) <= Limit(base, i) && Limit(b, i) <= Limit(base, i) {
      assert LeastLimit(Limit(a, i), Limit(base, i), few, i);
      assert LeastLimit(Limit(b, i), Limit(base, i), many, i);
    }
    TimeoutBounds(tool, b);
    TimeoutMonotone(tool, b, a);
    TimeoutMonotone(tool, a, base);
    TimeoutMonotone(tool, b, base);
  }
}
