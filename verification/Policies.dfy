/** Tool policies: the built-in policy, the restrictions of labels folded onto it, and the
    check of a request against the result. */
module Policies {
  import opened Text
  import opened Model
  import opened PortRules
  import opened AllowedArgs
  import opened Runtimes

  /** What a label says about one tool. */
  datatype ToolRule = ToolRule(enabled: bool, allowedArgs: Option<Args>)

  type ToolPolicies = map<Tool, ToolRule>

  datatype LabelConfig = LabelConfig(runtime: Option<Runtime>, toolPolicies: ToolPolicies)

  type LabelConfigs = map<string, LabelConfig>

  /** The effective policy of one tool. */
  datatype Policy = Policy(timeout: int, probeTimeout: int, allowedArgs: Args)

  datatype PolicySet = PolicySet(byTool: map<Tool, Policy>, runtime: Runtime)

  const BUILT_IN_TOOLS: set<Tool> := {Ping, Traceroute, Mtr, Http, Dns, Port}

  function BuiltInArgs(tool: Tool): Args {
    match tool
    case Http => map["method" := "GET,HEAD"]
    case Dns => map["type" := "A,AAAA,CNAME,MX,TXT,NS"]
    case Port => map["port" := DEFAULT_PORT_RANGE]
    case _ => map["protocol" := "icmp,tcp", "port" := DEFAULT_PORT_RANGE]
  }

  function PoliciesWithRuntime(runtime: Runtime): (s: PolicySet)
    ensures Coherent(s)
  {
    var r := NormalizeRuntime(runtime);
    PolicySet(map t | t in BUILT_IN_TOOLS :: Policy(ToolTimeout(t, r), r.probeStepTimeout, BuiltInArgs(t)), r)
  }

  /** A rule of two values lists exactly them. */
  lemma TwoValues(rule: string, a: string, b: string)
    requires Clean(a) && Clean(b) && rule == a + "," + b
    ensures forall v :: v in CsvValues(rule) <==> v == a || v == b
  {
    var values := [a, b];
    assert values[1..] == [b];
    CsvJoin(values);
  }

  lemma TwoValueEntry(args: Args, key: string, a: string, b: string, v: string)
    requires key in args && key != "port" && Clean(a) && Clean(b) && args[key] == a + "," + b
    ensures ArgsAccept(args, key, v) <==> v == a || v == b
  {
    TwoValues(args[key], a, b);
  }

  lemma AnyPortEntry(args: Args, v: string)
    requires "port" in args && args["port"] == DEFAULT_PORT_RANGE
    ensures ArgsAccept(args, "port", v) <==> PortOf(v).Some?
  {
    if PortOf(v).Some? {
      BlankAllowsAll(args["port"], PortOf(v).value);
    }
  }

  /** HTTP requests may use GET and HEAD; ping, traceroute and mtr ICMP and TCP; every tool with a port any
      port from 1 to 65535. No other argument is known for these tools. */
  lemma BuiltInMeaning(t: Tool, key: string, v: string)
    requires t == Http || t == Port || t == Ping || t == Traceroute || t == Mtr
    ensures ArgsAccept(BuiltInArgs(t), key, v) <==>
        || (t == Http && key == "method" && (v == "GET" || v == "HEAD"))
        || (t != Http && t != Port && key == "protocol" && (v == "icmp" || v == "tcp"))
        || (t != Http && key == "port" && PortOf(v).Some?)
  {
    var args := BuiltInArgs(t);
    if t == Http && key == "method" {
      TwoValueEntry(args, key, "GET", "HEAD", v);
    } else if t != Http && t != Port && key == "protocol" {
      TwoValueEntry(args, key, "icmp", "tcp", v);
    } else if t != Http && key == "port" {
      AnyPortEntry(args, v);
    } else {
      assert key !in args;
    }
  }

  lemma JoinMore(v: string, rest: seq<string>)
    requires rest != []
    ensures Join([v] + rest, ',') == v + "," + Join(rest, ',')
  {
    assert ([v] + rest)[1..] == rest;
  }

  lemma JoinSix(v: seq<string>)
    requires |v| == 6
    ensures Join(v, ',') == v[0] + "," + (v[1] + "," + (v[2] + "," + (v[3] + "," + (v[4] + "," + v[5]))))
  {
    assert v == [v[0]] + v[1..] && v[1..] == [v[1]] + v[2..] && v[2..] == [v[2]] + v[3..];
    assert v[3..] == [v[3]] + v[4..] && v[4..] == [v[4]] + v[5..] && v[5..] == [v[5]];
    JoinMore(v[0], v[1..]);
    JoinMore(v[1], v[2..]);
    JoinMore(v[2], v[3..]);
    JoinMore(v[3], v[4..]);
    JoinMore(v[4], v[5..]);
  }

  lemma ListEntry(args: Args, key: string, values: seq<string>, v: string)
    requires key in args && key != "port" && values != [] && args[key] == Join(values, ',') && forall w | w in values :: Clean(w)
    ensures ArgsAccept(args, key, v) <==> v in values
  {
    CsvJoin(values);
  }

  const DNS_TYPES: seq<string> := ["A", "AAAA", "CNAME", "MX", "TXT", "NS"]

  lemma LastDnsTypes()
    ensures "MX" + "," + ("TXT" + "," + "NS") == "MX,TXT,NS"
  {
  }

  lemma FirstDnsTypes(rest: string)
    requires rest == "MX,TXT,NS"
    ensures "A" + "," + ("AAAA" + "," + ("CNAME" + "," + rest)) == "A,AAAA,CNAME,MX,TXT,NS"
  {
  }

  lemma DnsTypesText(types: seq<string>, rule: string)
    requires types == DNS_TYPES && rule == "A,AAAA,CNAME,MX,TXT,NS"
    ensures rule == Join(types, ',')
  {
    LastDnsTypes();
    FirstDnsTypes("MX" + "," + ("TXT" + "," + "NS"));
    JoinSix(types);
  }

  lemma DnsTypesClean(types: seq<string>)
    requires types == DNS_TYPES
    ensures forall w | w in types :: Clean(w)
  {
  }

  /** DNS requests may ask for six record types. */
  lemma BuiltInDns(t: Tool, types: seq<string>, key: string, v: string)
    requires t == Dns && types == DNS_TYPES
    ensures ArgsAccept(BuiltInArgs(t), key, v) <==> key == "type" && v in types
  {
    DnsEntry(BuiltInArgs(t), types, key, v);
  }

  lemma DnsEntry(args: Args, types: seq<string>, key: string, v: string)
    requires types == DNS_TYPES && args.Keys == {"type"} && args["type"] == "A,AAAA,CNAME,MX,TXT,NS"
    ensures ArgsAccept(args, key, v) <==> key == "type" && v in types
  {
    if key == "type" {
      DnsTypesText(types, args[key]);
      DnsTypesClean(types);
      ListEntry(args, key, types, v);
    }
  }

  lemma BuiltInTools(runtime: Runtime)
    ensures PoliciesWithRuntime(runtime).byTool.Keys == {Ping, Traceroute, Mtr, Http, Dns, Port}
    ensures forall t | t in PoliciesWithRuntime(runtime).byTool :: PoliciesWithRuntime(runtime).byTool[t].allowedArgs == BuiltInArgs(t)
    ensures PoliciesWithRuntime(runtime).runtime == NormalizeRuntime(runtime)
  {
  }

  /** What every policy set keeps: only built-in tools, limits that are positive, the timeouts
      of its own runtime, and no rule that the request check would read as "any value". */
  predicate Coherent(s: PolicySet) {
    && Positive(s.runtime)
    && forall t | t in s.byTool ::
         && t in BUILT_IN_TOOLS
         && s.byTool[t].timeout == ToolTimeout(t, s.runtime)
         && s.byTool[t].probeTimeout == s.runtime.probeStepTimeout
         && NoEmptyRule(s.byTool[t].allowedArgs)
  }

  // ---- the meaning of label restrictions ----

  predicate ToolEnabled(cfg: ToolPolicies, t: Tool) { t in cfg ==> cfg[t].enabled }

  predicate ToolAccepts(cfg: ToolPolicies, t: Tool, key: string, v: string) {
    t in cfg && cfg[t].enabled ==> LimitAccepts(cfg[t].allowedArgs, key, v)
  }

  predicate LabelsEnable(configs: LabelConfigs, labels: seq<string>, t: Tool) {
    forall l | l in labels && l in configs :: ToolEnabled(configs[l].toolPolicies, t)
  }

  predicate LabelsAccept(configs: LabelConfigs, labels: seq<string>, t: Tool, key: string, v: string) {
    forall l | l in labels && l in configs :: ToolAccepts(configs[l].toolPolicies, t, key, v)
  }

  ghost function LabelRuntimes(configs: LabelConfigs, labels: seq<string>): set<Runtime> {
    set l | l in labels && l in configs && configs[l].runtime.Some? :: configs[l].runtime.value
  }

  /** The effective policies of a list of labels: a tool is available exactly when it is in the
      base and no label disables it, a value is accepted exactly when the base and every label
      accept it, and the limits are the least of the base and of every label. */
  ghost predicate EffectivePolicies(base: PolicySet, configs: LabelConfigs, labels: seq<string>, out: PolicySet) {
    && Coherent(out)
    && PointwiseLeast(out.runtime, base.runtime, LabelRuntimes(configs, labels))
    && (forall t :: t in out.byTool <==> t in base.byTool && LabelsEnable(configs, labels, t))
    && (forall t, key, v | t in out.byTool ::
          ArgsAccept(out.byTool[t].allowedArgs, key, v) <==>
          ArgsAccept(base.byTool[t].allowedArgs, key, v) && LabelsAccept(configs, labels, t, key, v))
  }

  // ---- merging two configurations: the hub's copy and the API's copy ----

  /** `out` restricts every tool exactly as `left` and `right` together. */
  ghost predicate Merges(left: ToolPolicies, right: ToolPolicies, out: ToolPolicies) {
    forall t :: MergesAt(left, right, out, t)
  }

  ghost predicate MergesAt(left: ToolPolicies, right: ToolPolicies, out: ToolPolicies, t: Tool) {
    && (ToolEnabled(out, t) <==> ToolEnabled(left, t) && ToolEnabled(right, t))
    && (ToolEnabled(out, t) ==> forall key, v ::
          ToolAccepts(out, t, key, v) <==> ToolAccepts(left, t, key, v) && ToolAccepts(right, t, key, v))
  }

  method HubIntersectConfigPolicies(left: ToolPolicies, right: ToolPolicies) returns (out: ToolPolicies)
    ensures Merges(left, right, out)
  {
    out := left;
    var todo := right.Keys;
    while todo != {}
      invariant todo <= right.Keys
      invariant forall t | t in todo || t !in right :: t in out <==> t in left
      invariant forall t | (t in todo || t !in right) && t in left :: out[t] == left[t]
      invariant forall t | t in right && t !in todo :: MergesAt(left, right, out, t)
      decreases |todo|
    {
      var name :| name in todo;
      todo := todo - {name};
      var rightPolicy := right[name];
      var leftPolicy := if name in out then Some(out[name]) else None;
      if !rightPolicy.enabled {
        out := out[name := rightPolicy];
      } else if leftPolicy.None? {
        out := out[name := rightPolicy];
      } else if !leftPolicy.value.enabled {
        out := out[name := leftPolicy.value];
      } else if rightPolicy.allowedArgs.Some? {
        var args := IntersectAllowedArgs(leftPolicy.value.allowedArgs, rightPolicy.allowedArgs);
        out := out[name := ToolRule(true, args)];
      }
      assert MergesAt(left, right, out, name);
    }
    forall t | t !in right ensures MergesAt(left, right, out, t) {
    }
  }

  method ApiIntersectConfigPolicies(left: ToolPolicies, right: ToolPolicies) returns (out: ToolPolicies)
    ensures Merges(left, right, out)
  {
    out := left;
    var todo := right.Keys;
    while todo != {}
      invariant todo <= right.Keys
      invariant forall t | t in todo || t !in right :: t in out <==> t in left
      invariant forall t | (t in todo || t !in right) && t in left :: out[t] == left[t]
      invariant forall t | t in right && t !in todo :: MergesAt(left, right, out, t)
      decreases |todo|
    {
      var name :| name in todo;
      todo := todo - {name};
      var rightPolicy := right[name];
      if !rightPolicy.enabled || name !in out {
        out := out[name := rightPolicy];
      } else if out[name].enabled && rightPolicy.allowedArgs.Some? {
        var args := IntersectAllowedArgs(out[name].allowedArgs, rightPolicy.allowedArgs);
        out := out[name := out[name].(allowedArgs := args)];
      }
      assert MergesAt(left, right, out, name);
    }
    forall t | t !in right ensures MergesAt(left, right, out, t) {
    }
  }

  // ---- folding the labels ----

  method LabelConfigsFor(configs: LabelConfigs, labels: seq<string>) returns (out: seq<LabelConfig>)
    ensures forall cfg :: cfg in out <==> exists l | l in labels && l in configs :: configs[l] == cfg
  {
    out := [];
    for k := 0 to |labels|
      invariant forall cfg :: cfg in out <==> exists l | l in labels[..k] && l in configs :: configs[l] == cfg
    {
      assert labels[..k + 1] == labels[..k] + [labels[k]];
      if labels[k] in configs {
        out := out + [configs[labels[k]]];
      }
    }
    assert labels[..|labels|] == labels;
  }

  /** `merged` restricts every tool exactly as all of `cfgs` together. */
  ghost predicate MergesAll(cfgs: seq<LabelConfig>, merged: ToolPolicies) {
    forall t ::
      && (ToolEnabled(merged, t) <==> forall cfg | cfg in cfgs :: ToolEnabled(cfg.toolPolicies, t))
      && (ToolEnabled(merged, t) ==> forall key, v ::
            ToolAccepts(merged, t, key, v) <==> forall cfg | cfg in cfgs :: ToolAccepts(cfg.toolPolicies, t, key, v))
  }

  lemma MergeOneMore(cfgs: seq<LabelConfig>, cfg: LabelConfig, merged: ToolPolicies, out: ToolPolicies)
    requires MergesAll(cfgs, merged) && Merges(merged, cfg.toolPolicies, out)
    ensures MergesAll(cfgs + [cfg], out)
  {
    forall t
      ensures ToolEnabled(out, t) <==> forall c | c in cfgs + [cfg] :: ToolEnabled(c.toolPolicies, t)
      ensures ToolEnabled(out, t) ==> forall key, v ::
            ToolAccepts(out, t, key, v) <==> forall c | c in cfgs + [cfg] :: ToolAccepts(c.toolPolicies, t, key, v)
    {
      assert MergesAt(merged, cfg.toolPolicies, out, t);
      assert forall c :: c in cfgs + [cfg] <==> c in cfgs || c == cfg;
    }
  }

  /** `merged` restricts every tool exactly as the listed labels together. */
  ghost predicate MergesLabels(configs: LabelConfigs, labels: seq<string>, merged: ToolPolicies) {
    forall t ::
      && (ToolEnabled(merged, t) <==> LabelsEnable(configs, labels, t))
      && (ToolEnabled(merged, t) ==> forall key, v ::
            ToolAccepts(merged, t, key, v) <==> LabelsAccept(configs, labels, t, key, v))
  }

  lemma LabelsMerged(configs: LabelConfigs, labels: seq<string>, cfgs: seq<LabelConfig>, merged: ToolPolicies)
    requires forall cfg :: cfg in cfgs <==> exists l | l in labels && l in configs :: configs[l] == cfg
    requires MergesAll(cfgs, merged)
    ensures MergesLabels(configs, labels, merged)
  {
    forall l | l in labels && l in configs ensures configs[l] in cfgs {
    }
  }

  method HubToolPoliciesForLabels(configs: LabelConfigs, labels: seq<string>) returns (merged: ToolPolicies)
    ensures MergesLabels(configs, labels, merged)
  {
    var list := LabelConfigsFor(configs, labels);
    var started := false;
    merged := map[];
    for k := 0 to |list|
      invariant !started ==> merged == map[]
      invariant MergesAll(list[..k], merged)
    {
      assert list[..k + 1] == list[..k] + [list[k]];
      var next := list[k].toolPolicies;
      ghost var before := merged;
      if |next| > 0 {
        if !started {
          merged := next;
          started := true;
        } else {
          merged := HubIntersectConfigPolicies(merged, next);
        }
      }
      assert Merges(before, next, merged) by {
        if |next| == 0 || before == map[] {
          forall t ensures MergesAt(before, next, merged, t) {
          }
        }
      }
      MergeOneMore(list[..k], list[k], before, merged);
    }
    assert list[..|list|] == list;
    LabelsMerged(configs, labels, list, merged);
  }

  method ApiToolPoliciesForLabels(configs: LabelConfigs, labels: seq<string>) returns (merged: ToolPolicies)
    ensures MergesLabels(configs, labels, merged)
  {
    var list := LabelConfigsFor(configs, labels);
    var started := false;
    merged := map[];
    for k := 0 to |list|
      invariant !started ==> merged == map[]
      invariant MergesAll(list[..k], merged)
    {
      assert list[..k + 1] == list[..k] + [list[k]];
      var next := list[k].toolPolicies;
      ghost var before := merged;
      if |next| > 0 {
        if !started {
          merged := next;
          started := true;
        } else {
          merged := ApiIntersectConfigPolicies(merged, next);
        }
      }
      assert Merges(before, next, merged) by {
        if |next| == 0 || before == map[] {
          forall t ensures MergesAt(before, next, merged, t) {
          }
        }
      }
      MergeOneMore(list[..k], list[k], before, merged);
    }
    assert list[..|list|] == list;
    LabelsMerged(configs, labels, list, merged);
  }

  // ---- the effective policies ----

  /** Intersecting a policy set with a configuration under a runtime. */
  method WithIntersection(s: PolicySet, cfg: ToolPolicies, runtime: Runtime) returns (out: PolicySet)
    requires Coherent(s)
    ensures Coherent(out) && out.runtime == NormalizeRuntime(runtime)
    ensures forall t :: t in out.byTool <==> t in s.byTool && ToolEnabled(cfg, t)
    ensures forall t, key, v | t in out.byTool ::
        ArgsAccept(out.byTool[t].allowedArgs, key, v) <==>
        ArgsAccept(s.byTool[t].allowedArgs, key, v) && ToolAccepts(cfg, t, key, v)
  {
    var base := PoliciesWithRuntime(runtime);
    var byTool: map<Tool, Policy> :=
      map t | t in base.byTool && t in s.byTool :: base.byTool[t].(allowedArgs := s.byTool[t].allowedArgs);
    assert byTool.Keys == s.byTool.Keys;
    var restricted := RestrictAll(byTool, cfg, base.byTool.Keys);
    out := PolicySet(restricted, base.runtime);
    RestrictedTools(s, cfg, out);
  }

  /** The loop of the intersection over the configured tools. */
  method RestrictAll(start: map<Tool, Policy>, cfg: ToolPolicies, known: set<Tool>) returns (out: map<Tool, Policy>)
    requires start.Keys <= known
    requires forall t | t in start :: NoEmptyRule(start[t].allowedArgs)
    ensures forall t :: t in out <==> t in start && ToolEnabled(cfg, t)
    ensures forall t | t in out :: out[t] == start[t].(allowedArgs := out[t].allowedArgs) && NoEmptyRule(out[t].allowedArgs)
    ensures forall t | t in out && t !in cfg :: out[t].allowedArgs == start[t].allowedArgs
    ensures forall t | t in out && t in cfg ::
        Restricted(start[t].allowedArgs, cfg[t].allowedArgs, out[t].allowedArgs)
  {
    out := start;
    var todo := cfg.Keys;
    while todo != {}
      invariant todo <= cfg.Keys && out.Keys <= start.Keys
      invariant forall t | t in todo || t !in cfg :: t in out <==> t in start
      invariant forall t | (t in todo || t !in cfg) && t in out :: out[t].allowedArgs == start[t].allowedArgs
      invariant forall t | t in cfg && t !in todo :: t in out <==> t in start && cfg[t].enabled
      invariant forall t | t in out :: out[t] == start[t].(allowedArgs := out[t].allowedArgs) && NoEmptyRule(out[t].allowedArgs)
      invariant forall t | t in cfg && t !in todo && t in out ::
          Restricted(start[t].allowedArgs, cfg[t].allowedArgs, out[t].allowedArgs)
      decreases |todo|
    {
      var t :| t in todo;
      todo := todo - {t};
      if !cfg[t].enabled {
        if t in known {
          out := out - {t};
        }
      } else if t in out && cfg[t].allowedArgs.Some? {
        var both := IntersectAllowedArgs(Some(out[t].allowedArgs), cfg[t].allowedArgs);
        RestrictedBoth(out[t].allowedArgs, cfg[t].allowedArgs, both.value);
        out := out[t := out[t].(allowedArgs := both.value)];
      }
    }
  }

  /** `out` accepts exactly what `base` accepts within `limit`. */
  ghost predicate Restricted(base: Args, limit: Option<Args>, out: Args) {
    forall key, v :: ArgsAccept(out, key, v) <==> ArgsAccept(base, key, v) && LimitAccepts(limit, key, v)
  }

  lemma RestrictedBoth(base: Args, limit: Option<Args>, out: Args)
    requires forall key, v :: LimitAccepts(Some(out), key, v) <==>
        LimitAccepts(Some(base), key, v) && LimitAccepts(limit, key, v)
    ensures Restricted(base, limit, out)
  {
    forall key, v
      ensures ArgsAccept(out, key, v) <==> ArgsAccept(base, key, v) && LimitAccepts(limit, key, v)
    {
      assert LimitAccepts(Some(out), key, v) <==> ArgsAccept(out, key, v);
      assert LimitAccepts(Some(base), key, v) <==> ArgsAccept(base, key, v);
    }
  }

  lemma RestrictedTools(s: PolicySet, cfg: ToolPolicies, out: PolicySet)
    requires forall t | t in out.byTool :: t in s.byTool && ToolEnabled(cfg, t)
    requires forall t | t in out.byTool && t !in cfg :: out.byTool[t].allowedArgs == s.byTool[t].allowedArgs
    requires forall t | t in out.byTool && t in cfg ::
        Restricted(s.byTool[t].allowedArgs, cfg[t].allowedArgs, out.byTool[t].allowedArgs)
    ensures forall t, key, v | t in out.byTool ::
        ArgsAccept(out.byTool[t].allowedArgs, key, v) <==>
        ArgsAccept(s.byTool[t].allowedArgs, key, v) && ToolAccepts(cfg, t, key, v)
  {
  }

  method LabelRuntimesFor(configs: LabelConfigs, labels: seq<string>) returns (out: seq<Runtime>)
    ensures Elements(out) == LabelRuntimes(configs, labels)
  {
    out := [];
    for k := 0 to |labels|
      invariant Elements(out) == LabelRuntimes(configs, labels[..k])
    {
      assert labels[..k + 1] == labels[..k] + [labels[k]];
      ghost var before := out;
      if labels[k] in configs && configs[labels[k]].runtime.Some? {
        out := out + [configs[labels[k]].runtime.value];
        assert Elements(out) == Elements(before) + {configs[labels[k]].runtime.value};
      }
    }
    assert labels[..|labels|] == labels;
  }

  /** The policies of a list of labels, as the API computes them. */
  method ApiPoliciesForLabels(base: PolicySet, configs: LabelConfigs, labels: seq<string>) returns (out: PolicySet)
    requires Coherent(base)
    ensures EffectivePolicies(base, configs, labels, out)
  {
    var merged := ApiToolPoliciesForLabels(configs, labels);
    var runtimes := LabelRuntimesFor(configs, labels);
    var runtime := FoldRuntimes(NormalizeRuntime(base.runtime), runtimes);
    out := WithIntersection(base, merged, runtime);
    EffectiveFrom(base, configs, labels, merged, out);
  }

  /** The policies of a list of labels, as the hub computes them. */
  method HubPoliciesForLabels(base: PolicySet, configs: LabelConfigs, labels: seq<string>) returns (out: PolicySet)
    requires Coherent(base)
    ensures EffectivePolicies(base, configs, labels, out)
  {
    var runtimes := LabelRuntimesFor(configs, labels);
    var merged := HubToolPoliciesForLabels(configs, labels);
    var runtime := FoldRuntimes(NormalizeRuntime(base.runtime), runtimes);
    out := WithIntersection(base, merged, runtime);
    EffectiveFrom(base, configs, labels, merged, out);
  }

  lemma EffectiveFrom(base: PolicySet, configs: LabelConfigs, labels: seq<string>, merged: ToolPolicies, out: PolicySet)
    requires MergesLabels(configs, labels, merged) && Coherent(out)
    requires PointwiseLeast(out.runtime, base.runtime, LabelRuntimes(configs, labels))
    requires forall t :: t in out.byTool <==> t in base.byTool && ToolEnabled(merged, t)
    requires forall t, key, v | t in out.byTool ::
        ArgsAccept(out.byTool[t].allowedArgs, key, v) <==>
        ArgsAccept(base.byTool[t].allowedArgs, key, v) && ToolAccepts(merged, t, key, v)
    ensures EffectivePolicies(base, configs, labels, out)
  {
    forall t, key, v | t in out.byTool
      ensures ArgsAccept(out.byTool[t].allowedArgs, key, v) <==>
              ArgsAccept(base.byTool[t].allowedArgs, key, v) && LabelsAccept(configs, labels, t, key, v)
    {
      assert ToolEnabled(merged, t);
      assert ToolAccepts(merged, t, key, v) <==> LabelsAccept(configs, labels, t, key, v);
    }
  }

  // ---- checking a request ----

  datatype Request = Request(tool: Tool, args: Args, ipVersion: IPVersion, agentId: string, resolveOnAgent: bool)

  predicate RequiresPinnedAgent(tool: Tool) { tool == Traceroute || tool == Mtr }

  predicate RequiresPortArg(tool: Tool) { tool == Port }

  function ArgOr(args: Args, key: string, fallback: string): string {
    if key in args then args[key] else fallback
  }

  /** What a policy set accepts; whether the target itself is well formed is `targetOk`. */
  predicate Admits(s: PolicySet, req: Request, requirePinned: bool, targetOk: bool) {
    && req.tool in s.byTool
    && targetOk
    && (requirePinned && RequiresPinnedAgent(req.tool) ==> TrimSpace(req.agentId) != "")
    && ArgsAdmitted(s.byTool[req.tool].allowedArgs, req)
  }

  /** The argument checks alone. */
  predicate ArgsAdmitted(allowed: Args, req: Request) {
    && (RequiresPortArg(req.tool) ==> TrimSpace(ArgOr(req.args, "port", "")) != "")
    && forall key | key in req.args && !ServerOwned(key) :: ArgsAccept(allowed, key, req.args[key])
  }

  /** The check of one argument, reading an empty rule as "any value". */
  method CheckArg(allowed: Args, key: string, value: string) returns (ok: bool)
    requires NoEmptyRule(allowed)
    ensures ok <==> ArgsAccept(allowed, key, value)
  {
    if key !in allowed {
      return false;
    }
    if key == "port" {
      var r := ValidatePortAllowed(allowed[key], value);
      return r == Allowed;
    }
    if allowed[key] == "" {
      return true;
    }
    ok := AllowedArgContains(allowed[key], value);
  }

  method ServerArgs(tool: Tool, args: Args, runtime: Runtime) returns (out: Args)
    ensures forall key | !ServerOwned(key) :: key in out <==> key in args
    ensures forall key | !ServerOwned(key) && key in args :: out[key] == args[key]
    ensures "max_hop" !in out
    ensures "count" in out <==> tool == Ping || tool == Mtr
    ensures "max_hops" in out <==> tool == Traceroute || tool == Mtr
    ensures "count" in out ==> out["count"] == Itoa(PositiveOr(runtime.count, 10))
    ensures "max_hops" in out ==> out["max_hops"] == Itoa(PositiveOr(runtime.maxHops, 30))
  {
    var r := NormalizeRuntime(runtime);
    PositiveFields(r);
    out := map[];
    var todo := args.Keys;
    while todo != {}
      invariant todo <= args.Keys
      invariant forall key | key in out :: key in args && !ServerOwned(key) && out[key] == args[key]
      invariant forall key | key in args && key !in todo && !ServerOwned(key) :: key in out
      decreases |todo|
    {
      var key :| key in todo;
      todo := todo - {key};
      if !ServerOwned(key) {
        out := out[key := args[key]];
      }
    }
    match tool
    case Ping =>
      out := out["count" := Itoa(r.count)];
    case Traceroute =>
      out := out["max_hops" := Itoa(r.maxHops)];
    case Mtr =>
      out := out["count" := Itoa(r.count)]["max_hops" := Itoa(r.maxHops)];
    case _ =>
  }

  /** `Validate` and, with `requirePinned` off, `ValidateSchedule`: server-owned arguments are
      replaced first, and every other argument must be accepted by the tool's policy. */
  method Validate(s: PolicySet, req: Request, requirePinned: bool, targetOk: bool) returns (ok: bool)
    requires Coherent(s)
    ensures ok <==> Admits(s, req, requirePinned, targetOk)
  {
    var args := ServerArgs(req.tool, req.args, s.runtime);
    if req.tool !in s.byTool || !targetOk {
      return false;
    }
    if requirePinned && RequiresPinnedAgent(req.tool) && TrimSpace(req.agentId) == "" {
      return false;
    }
    assert ArgOr(args, "port", "") == ArgOr(req.args, "port", "");
    if RequiresPortArg(req.tool) && TrimSpace(ArgOr(args, "port", "")) == "" {
      return false;
    }
    var allowed := s.byTool[req.tool].allowedArgs;
    var todo := args.Keys;
    while todo != {}
      invariant todo <= args.Keys
      invariant forall key | key in args && key !in todo && !ServerOwned(key) :: ArgsAccept(allowed, key, args[key])
      decreases |todo|
    {
      var key :| key in todo;
      todo := todo - {key};
      if !ServerOwned(key) {
        var accepted := CheckArg(allowed, key, args[key]);
        if !accepted {
          return false;
        }
      }
    }
    return true;
  }

  // ---- consequences for lists of labels ----

  /** The order and repetition of labels do not matter, and neither does which of the two copies
      computed the policies: limits, timeouts, tools and accepted requests are the same. */
  lemma LabelOrderIrrelevant(base: PolicySet, configs: LabelConfigs, labels: seq<string>, others: seq<string>, a: PolicySet, b: PolicySet)
    requires Coherent(base)
    requires EffectivePolicies(base, configs, labels, a) && EffectivePolicies(base, configs, others, b)
    requires forall l :: l in labels <==> l in others
    ensures a.runtime == b.runtime && a.byTool.Keys == b.byTool.Keys
    ensures forall t | t in a.byTool :: a.byTool[t].timeout == b.byTool[t].timeout
    ensures forall req, pinned, targetOk :: Admits(a, req, pinned, targetOk) <==> Admits(b, req, pinned, targetOk)
  {
    assert LabelRuntimes(configs, labels) == LabelRuntimes(configs, others);
    var rs := LabelRuntimes(configs, labels);
    FoldIsMonotone(base.runtime, rs, rs, a.runtime, b.runtime);
    MoreLabelsAdmitLess(base, configs, labels, others, a, b);
    MoreLabelsAdmitLess(base, configs, others, labels, b, a);
  }

  /** Adding labels never admits a request that was rejected and never lengthens a timeout. */
  lemma MoreLabelsAdmitLess(base: PolicySet, configs: LabelConfigs, few: seq<string>, many: seq<string>, a: PolicySet, b: PolicySet)
    requires Coherent(base)
    requires EffectivePolicies(base, configs, few, a) && EffectivePolicies(base, configs, many, b)
    requires forall l | l in few :: l in many
    ensures b.byTool.Keys <= a.byTool.Keys
    ensures forall t | t in b.byTool :: 0 < b.byTool[t].timeout <= a.byTool[t].timeout
    ensures forall req, pinned, targetOk :: Admits(b, req, pinned, targetOk) ==> Admits(a, req, pinned, targetOk)
  {
    forall t | t in b.byTool ensures t in a.byTool && 0 < b.byTool[t].timeout <= a.byTool[t].timeout {
      assert LabelsEnable(configs, few, t);
      MoreLabelsNeverLengthen(t, base.runtime, LabelRuntimes(configs, few), LabelRuntimes(configs, many), a.runtime, b.runtime);
    }
    forall req, pinned, targetOk | Admits(b, req, pinned, targetOk)
      ensures Admits(a, req, pinned, targetOk)
    {
      var t := req.tool;
      forall key | key in req.args && !ServerOwned(key)
        ensures ArgsAccept(a.byTool[t].allowedArgs, key, req.args[key])
      {
        var v := req.args[key];
        assert ArgsAccept(b.byTool[t].allowedArgs, key, v);
        assert LabelsAccept(configs, many, t, key, v);
        assert LabelsAccept(configs, few, t, key, v);
      }
    }
  }
}
