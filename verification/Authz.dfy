/** What a token may do: the tool permissions advertised for an agent, and the authorization of
    a request. */
module Authz {
  import opened Text
  import opened Model
  import opened PortRules
  import opened AllowedArgs
  import opened Runtimes
  import opened Policies

  datatype ToolScope = ToolScope(allowedArgs: Option<Args>, resolveOnAgent: Option<bool>, ipVersions: seq<IPVersion>)

  datatype Scope = Scope(
    all: bool, agents: seq<string>, deniedAgents: seq<string>, agentTags: seq<string>, deniedTags: seq<string>,
    tools: map<Tool, ToolScope>)

  datatype Permission = Permission(
    allowedArgs: Args, resolveOnAgent: Option<bool>, ipVersions: seq<IPVersion>, requiresAgent: bool)

  /** The part of the store that decides labels, and the policies in force. */
  datatype Directory = Directory(
    agents: map<string, Agent>, grpcLabels: map<string, seq<string>>, httpLabels: map<string, seq<string>>,
    base: PolicySet, configs: LabelConfigs)

  // ---- labels of an agent ----

  const AGENT_GRPC_LABEL := "agent:grpc"
  const AGENT_HTTP_LABEL := "agent:http"

  function AddLabel(out: seq<string>, name: string): seq<string> {
    var l := TrimSpace(name);
    if l == "" || l in out then out else out + [l]
  }

  predicate ReservedLabel(name: string) {
    var l := TrimSpace(name);
    l == AGENT_ALL_LABEL || l == AGENT_GRPC_LABEL || l == AGENT_HTTP_LABEL || "id:" <= l
  }

  function AddLabels(out: seq<string>, labels: seq<string>): seq<string> {
    if labels == [] then out
    else
      var init := AddLabels(out, labels[..|labels| - 1]);
      var name := labels[|labels| - 1];
      if ReservedLabel(name) then init else AddLabel(init, name)
  }

  /** The reserved labels of an agent followed by its own labels, trimmed and without repetition. */
  function NormalizeAgentLabels(id: string, transportLabel: string, labels: seq<string>): seq<string> {
    AddLabels(AddLabel(AddLabel(AddLabel([], AGENT_ALL_LABEL), transportLabel), "id:" + TrimSpace(id)), labels)
  }

  /** Labels that an agent cannot give itself. */
  lemma ReservedMeaning(name: string)
    ensures ReservedLabel(name) <==>
        TrimSpace(name) == "agent" || TrimSpace(name) == "agent:grpc" || TrimSpace(name) == "agent:http" || "id:" <= TrimSpace(name)
  {
  }

  lemma {:induction false} AddedLabels(out: seq<string>, labels: seq<string>, l: string)
    ensures l in AddLabels(out, labels) <==>
        l in out || exists k | 0 <= k < |labels| :: !ReservedLabel(labels[k]) && l == TrimSpace(labels[k]) && l != ""
  {
    if labels != [] {
      var n := |labels| - 1;
      AddedLabels(out, labels[..n], l);
      assert forall k | 0 <= k < n :: labels[..n][k] == labels[k];
    }
  }

  /** An agent has the label of all agents, that of its transport, its own, and the trimmed labels it was
      given that are neither blank nor reserved. */
  lemma LabelsMeaning(id: string, transportLabel: string, labels: seq<string>, l: string)
    requires transportLabel == AGENT_GRPC_LABEL || transportLabel == AGENT_HTTP_LABEL
    ensures l in NormalizeAgentLabels(id, transportLabel, labels) <==>
        || l == "agent" || l == transportLabel || l == TrimSpace("id:" + TrimSpace(id))
        || exists k | 0 <= k < |labels| :: !ReservedLabel(labels[k]) && l == TrimSpace(labels[k]) && l != ""
  {
    var own := "id:" + TrimSpace(id);
    var first := AddLabel([], AGENT_ALL_LABEL);
    var second := AddLabel(first, transportLabel);
    OwnLabelKept(own);
    assert Trimmed(AGENT_ALL_LABEL) && Trimmed(transportLabel);
    AddedLabel([], AGENT_ALL_LABEL, l);
    AddedLabel(first, transportLabel, l);
    AddedLabel(second, own, l);
    AddedLabels(AddLabel(second, own), labels, l);
  }

  lemma AddedLabel(out: seq<string>, name: string, l: string)
    ensures l in AddLabel(out, name) <==> l in out || (l == TrimSpace(name) && l != "")
  {
  }

  lemma OwnLabelKept(own: string)
    requires own != "" && !IsSpace(own[0])
    ensures TrimSpace(own) != ""
  {
    assert TrimLeft(own) == own;
    KeepsHead(own);
  }

  function StoredLabels(labels: map<string, seq<string>>, id: string): seq<string> {
    if id in labels then labels[id] else []
  }

  /** The labels of an agent, registered or not: those of its HTTP record if it has one. */
  function ManagedLabels(dir: Directory, id: string): seq<string> {
    if id in dir.httpLabels then NormalizeAgentLabels(id, AGENT_HTTP_LABEL, dir.httpLabels[id])
    else NormalizeAgentLabels(id, AGENT_GRPC_LABEL, StoredLabels(dir.grpcLabels, id))
  }

  function ManagedAgent(dir: Directory, id: string): Agent
    requires id in dir.agents
  {
    dir.agents[id].(labels := ManagedLabels(dir, id))
  }

  lemma ReservedLabelsOnly(id: string)
    ensures |NormalizeAgentLabels(id, AGENT_GRPC_LABEL, [])| == 3
  {
    var own := "id:" + TrimSpace(id);
    assert own[0] == 'i' && !IsSpace(own[0]);
    assert TrimLeft(own) == own;
    KeepsHead(own);
    var l := TrimSpace(own);
    assert l[0] == 'i' && AGENT_ALL_LABEL[0] == 'a' && AGENT_GRPC_LABEL[0] == 'a';
    assert Trimmed(AGENT_ALL_LABEL) && Trimmed(AGENT_GRPC_LABEL);
    assert |AGENT_ALL_LABEL| == 5 && |AGENT_GRPC_LABEL| == 10;
    assert AddLabel([], AGENT_ALL_LABEL) == [AGENT_ALL_LABEL];
    assert AddLabel([AGENT_ALL_LABEL], AGENT_GRPC_LABEL) == [AGENT_ALL_LABEL, AGENT_GRPC_LABEL];
    assert l !in [AGENT_ALL_LABEL, AGENT_GRPC_LABEL];
  }

  lemma {:induction false} KeepsHead(s: string)
    requires s != "" && !IsSpace(s[0])
    ensures TrimRight(s) != "" && TrimRight(s)[0] == s[0]
  {
    if IsSpace(s[|s| - 1]) {
      KeepsHead(s[..|s| - 1]);
    }
  }

  /** The labels the API judges a pinned request by: it re-reads the agent's record when only the
      reserved labels are there, and always ends with the managed labels. */
  method ApiLabelsForAgent(dir: Directory, id: string) returns (labels: seq<string>)
    ensures labels == ManagedLabels(dir, id)
  {
    labels := NormalizeAgentLabels(id, AGENT_GRPC_LABEL, []);
    ReservedLabelsOnly(id);
    if id in dir.agents {
      labels := ManagedAgent(dir, id).labels;
    }
    if |labels| == 3 {
      if id in dir.httpLabels {
        labels := NormalizeAgentLabels(id, AGENT_HTTP_LABEL, dir.httpLabels[id]);
      } else {
        labels := NormalizeAgentLabels(id, AGENT_GRPC_LABEL, StoredLabels(dir.grpcLabels, id));
      }
    }
  }

  // ---- meaning of the policies in force ----

  predicate ToolAvailable(dir: Directory, labels: seq<string>, t: Tool) {
    t in dir.base.byTool && LabelsEnable(dir.configs, labels, t)
  }

  predicate ValueAccepted(dir: Directory, labels: seq<string>, t: Tool, key: string, v: string) {
    t in dir.base.byTool && ArgsAccept(dir.base.byTool[t].allowedArgs, key, v) && LabelsAccept(dir.configs, labels, t, key, v)
  }

  /** The labels whose policies a request is judged by. */
  function JobLabels(dir: Directory, req: Request): seq<string> {
    if req.agentId != "" then ManagedLabels(dir, req.agentId) else [AGENT_ALL_LABEL]
  }

  // ---- which agents a token may use ----

  predicate ScopeAllowsAllAgents(scope: Scope) {
    scope.all || (scope.agents == [] && scope.agentTags == []) || "*" in scope.agents
  }

  predicate ScopeAllowsAgent(scope: Scope, id: string) {
    && id !in scope.deniedAgents
    && (ScopeAllowsAllAgents(scope) || (scope.agents == [] && scope.agentTags != []) || id in scope.agents)
  }

  predicate HasAnyLabel(agent: Agent, labels: seq<string>) { exists l | l in labels :: l in agent.labels }

  predicate ScopeAllowsAgentRecord(scope: Scope, agent: Agent) {
    && ScopeAllowsAgent(scope, agent.id)
    && !HasAnyLabel(agent, scope.deniedTags)
    && (scope.agentTags == [] || HasAnyLabel(agent, scope.agentTags))
  }

  /** The token's lists cover an agent with this ID and these labels: neither is denied, the ID is listed
      unless no agents are or all are, and some label is wanted if any are. */
  predicate Covers(scope: Scope, id: string, labels: seq<string>) {
    && id !in scope.deniedAgents
    && (forall l | l in scope.deniedTags :: l !in labels)
    && (scope.all || scope.agents == [] || "*" in scope.agents || id in scope.agents)
    && (scope.agentTags != [] ==> exists l | l in scope.agentTags :: l in labels)
  }

  lemma RecordIsCovered(scope: Scope, agent: Agent)
    ensures ScopeAllowsAgentRecord(scope, agent) <==> Covers(scope, agent.id, agent.labels)
  {
  }

  // ---- defaults ----

  /** The argument a tool fills in when the request leaves it out or empty. */
  function DefaultArg(tool: Tool): Option<(string, string)> {
    match tool
    case Ping | Traceroute | Mtr => Some(("protocol", "icmp"))
    case Http => Some(("method", "GET"))
    case Dns => Some(("type", "A"))
    case _ => None
  }

  function EffectiveArgs(req: Request): Args {
    var own := map key | key in req.args && !ServerOwned(key) :: req.args[key];
    var d := DefaultArg(req.tool);
    if d.Some? && ArgOr(own, d.value.0, "") == "" then own[d.value.0 := d.value.1] else own
  }

  /** Every argument that is not the server's is kept; ping, traceroute and mtr fill in "icmp" for an absent
      or empty protocol, HTTP "GET" for the method, DNS "A" for the type. */
  lemma EffectiveArgsMeaning(req: Request, key: string)
    ensures var d := if req.tool == Ping || req.tool == Traceroute || req.tool == Mtr then ("protocol", "icmp")
                     else if req.tool == Http then ("method", "GET") else if req.tool == Dns then ("type", "A") else ("", "");
        var own := if key in req.args && key != "count" && key != "max_hops" && key != "max_hop" then Some(req.args[key]) else None;
        (if key in EffectiveArgs(req) then Some(EffectiveArgs(req)[key]) else None) ==
        if d.0 != "" && key == d.0 && (own == None || own == Some("")) then Some(d.1) else own
  {
  }

  method CollectEffectiveArgs(req: Request) returns (out: Args)
    ensures out == EffectiveArgs(req)
  {
    out := map[];
    var todo := req.args.Keys;
    while todo != {}
      invariant todo <= req.args.Keys
      invariant out == map key | key in req.args && key !in todo && !ServerOwned(key) :: req.args[key]
      decreases |todo|
    {
      var key :| key in todo;
      todo := todo - {key};
      if !ServerOwned(key) {
        out := out[key := req.args[key]];
      }
    }
    var d := DefaultArg(req.tool);
    if d.Some? && ArgOr(out, d.value.0, "") == "" {
      out := out[d.value.0 := d.value.1];
    }
  }

  // ---- authorizing a request ----

  ghost predicate Authorized(dir: Directory, scope: Scope, req: Request) {
    var labels := JobLabels(dir, req);
    scope.all || (
      && req.tool in scope.tools
      && var ts := scope.tools[req.tool];
      && ToolAvailable(dir, labels, req.tool)
      && (ts.ipVersions != [] ==> req.ipVersion in ts.ipVersions)
      && (ts.resolveOnAgent.Some? ==> req.resolveOnAgent == ts.resolveOnAgent.value)
      && (req.agentId != "" ==> req.agentId in dir.agents && ScopeAllowsAgentRecord(scope, ManagedAgent(dir, req.agentId)))
      && (ts.allowedArgs.Some? ==> forall key | key in EffectiveArgs(req) ::
            && ValueAccepted(dir, labels, req.tool, key, EffectiveArgs(req)[key])
            && ArgsAccept(ts.allowedArgs.value, key, EffectiveArgs(req)[key])))
  }

  predicate WellKept(dir: Directory) {
    Coherent(dir.base) && forall id | id in dir.agents :: dir.agents[id].id == id
  }

  method AuthorizeJob(dir: Directory, scope: Scope, req: Request) returns (ok: bool)
    requires WellKept(dir)
    ensures ok <==> Authorized(dir, scope, req)
    ensures ok && !scope.all && req.agentId != "" ==>
        req.agentId in dir.agents && Covers(scope, req.agentId, ManagedLabels(dir, req.agentId))
  {
    if scope.all {
      return true;
    }
    if req.tool !in scope.tools {
      return false;
    }
    var ts := scope.tools[req.tool];
    var labels := [AGENT_ALL_LABEL];
    if req.agentId != "" {
      labels := ApiLabelsForAgent(dir, req.agentId);
    }
    var s := ApiPoliciesForLabels(dir.base, dir.configs, labels);
    if req.tool !in s.byTool {
      return false;
    }
    if |ts.ipVersions| > 0 && req.ipVersion !in ts.ipVersions {
      return false;
    }
    if ts.resolveOnAgent.Some? && req.resolveOnAgent != ts.resolveOnAgent.value {
      return false;
    }
    if req.agentId != "" {
      if req.agentId !in dir.agents || !ScopeAllowsAgentRecord(scope, ManagedAgent(dir, req.agentId)) {
        return false;
      }
      RecordIsCovered(scope, ManagedAgent(dir, req.agentId));
    }
    if ts.allowedArgs.Some? {
      ok := CheckScopeArgs(s.byTool[req.tool].allowedArgs, ts.allowedArgs.value, req);
      return;
    }
    return true;
  }

  /** A limited token is never authorized for a pinned agent that its lists do not cover: one that is denied,
      carries a denied label, is not among the listed agents, or lacks every wanted label. */
  lemma UncoveredIsRefused(dir: Directory, scope: Scope, req: Request)
    requires WellKept(dir) && !scope.all && req.agentId != ""
    requires
      || req.agentId in scope.deniedAgents
      || (exists l | l in scope.deniedTags :: l in ManagedLabels(dir, req.agentId))
      || (scope.agents != [] && "*" !in scope.agents && req.agentId !in scope.agents)
      || (scope.agentTags != [] && forall l | l in scope.agentTags :: l !in ManagedLabels(dir, req.agentId))
    ensures !Authorized(dir, scope, req)
  {
    if req.agentId in dir.agents {
      RecordIsCovered(scope, ManagedAgent(dir, req.agentId));
    }
  }

  /** The agent never stands in the way when the lists cover it: the rest of the request decides. */
  lemma CoveredAgentPasses(dir: Directory, scope: Scope, req: Request)
    requires WellKept(dir) && !scope.all && req.agentId != "" && req.agentId in dir.agents
    requires Covers(scope, req.agentId, ManagedLabels(dir, req.agentId)) && req.tool in scope.tools
    ensures var ts := scope.tools[req.tool]; var labels := ManagedLabels(dir, req.agentId);
        Authorized(dir, scope, req) <==>
          && ToolAvailable(dir, labels, req.tool)
          && (ts.ipVersions == [] || req.ipVersion in ts.ipVersions)
          && (ts.resolveOnAgent == None || ts.resolveOnAgent == Some(req.resolveOnAgent))
          && (ts.allowedArgs.Some? ==> forall key | key in EffectiveArgs(req) ::
                && ValueAccepted(dir, labels, req.tool, key, EffectiveArgs(req)[key])
                && ArgsAccept(ts.allowedArgs.value, key, EffectiveArgs(req)[key]))
  {
    RecordIsCovered(scope, ManagedAgent(dir, req.agentId));
  }

  /** The argument loop of the authorization, against the tool policy within the token's limit. */
  method CheckScopeArgs(policyArgs: Args, scopeArgs: Args, req: Request) returns (ok: bool)
    ensures ok <==> forall key | key in EffectiveArgs(req) ::
        ArgsAccept(policyArgs, key, EffectiveArgs(req)[key]) && ArgsAccept(scopeArgs, key, EffectiveArgs(req)[key])
  {
    var allowed := IntersectAllowedArgs(Some(policyArgs), Some(scopeArgs));
    RestrictedBoth(policyArgs, Some(scopeArgs), allowed.value);
    var args := CollectEffectiveArgs(req);
    var todo := args.Keys;
    while todo != {}
      invariant todo <= args.Keys
      invariant forall key | key in args && key !in todo ::
          ArgsAccept(policyArgs, key, args[key]) && ArgsAccept(scopeArgs, key, args[key])
      decreases |todo|
    {
      var key :| key in todo;
      todo := todo - {key};
      var accepted := CheckArg(allowed.value, key, args[key]);
      assert accepted <==> ArgsAccept(policyArgs, key, args[key]) && LimitAccepts(Some(scopeArgs), key, args[key]);
      if !accepted {
        return false;
      }
    }
    return true;
  }

  // ---- advertised permissions ----

  const ALL_TOOLS: seq<Tool> := [Ping, Traceroute, Mtr, Http, Dns, Port]

  /** The IP versions a token may ask for with a tool. */
  function ScopeVersions(scope: Scope, t: Tool): seq<IPVersion> {
    if scope.all || t !in scope.tools || scope.tools[t].ipVersions == [] then [IP_ANY, IPV4, IPV6]
    else scope.tools[t].ipVersions
  }

  /** The token's own limit on a tool's arguments. */
  function ScopeLimit(scope: Scope, t: Tool): Option<Args> {
    if scope.all || t !in scope.tools then None else scope.tools[t].allowedArgs
  }

  predicate MayOffer(dir: Directory, agent: Agent, scope: Scope, t: Tool) {
    && ToolAvailable(dir, agent.labels, t)
    && (scope.all || (t in scope.tools && ToolAvailable(dir, [AGENT_ALL_LABEL], t)))
    && t in agent.capabilities
  }

  /** The entry of a tool says exactly what the agent's policies and the token allow together. */
  ghost predicate EntryFor(dir: Directory, agent: Agent, scope: Scope, t: Tool, p: Permission) {
    && (forall key, v :: ArgsAccept(p.allowedArgs, key, v) <==>
          ValueAccepted(dir, agent.labels, t, key, v) && LimitAccepts(ScopeLimit(scope, t), key, v))
    && p.resolveOnAgent == (if t in scope.tools then scope.tools[t].resolveOnAgent else None)
    && (forall version :: version in p.ipVersions <==>
          version in ScopeVersions(scope, t) && Speaks(AgentProtocols(agent), version))
    && p.requiresAgent == RequiresPinnedAgent(t)
  }

  /** Some value and some IP version of the tool can be asked for. */
  ghost predicate Usable(dir: Directory, agent: Agent, scope: Scope, t: Tool) {
    && MayOffer(dir, agent, scope, t)
    && (exists key, v :: ValueAccepted(dir, agent.labels, t, key, v) && LimitAccepts(ScopeLimit(scope, t), key, v))
    && (exists version | version in ScopeVersions(scope, t) :: Speaks(AgentProtocols(agent), version))
  }

  /** Every advertised tool may be offered with exactly its entry, and every usable tool is advertised. */
  ghost predicate Advertised(dir: Directory, agent: Agent, scope: Scope, tools: map<Tool, Permission>) {
    && (forall t | t in tools :: MayOffer(dir, agent, scope, t) && EntryFor(dir, agent, scope, t, tools[t]))
    && (forall t | Usable(dir, agent, scope, t) :: t in tools)
  }

  /** A tool is offered if the agent has it, its labels allow it and the token covers it; a limited token
      must name it, and it must be available to everyone. */
  lemma OfferMeaning(dir: Directory, agent: Agent, scope: Scope, t: Tool)
    ensures MayOffer(dir, agent, scope, t) <==>
        && t in agent.capabilities && t in dir.base.byTool && LabelsEnable(dir.configs, agent.labels, t)
        && (!scope.all ==> t in scope.tools && LabelsEnable(dir.configs, ["agent"], t))
  {
  }

  /** The entry lists the versions that the token allows (any, 4 and 6 unless it names some) and the agent
      speaks, and the values that the built-in policy, the agent's labels and the token accept. */
  lemma AdvertisedEntry(dir: Directory, agent: Agent, scope: Scope, t: Tool, p: Permission)
    requires EntryFor(dir, agent, scope, t, p)
    ensures forall v :: v in p.ipVersions <==>
        && (if !scope.all && t in scope.tools && scope.tools[t].ipVersions != [] then v in scope.tools[t].ipVersions
            else v == 0 || v == 4 || v == 6)
        && (v == 4 ==> agent.protocols == 0 || agent.protocols & 1 != 0)
        && (v == 6 ==> agent.protocols == 0 || agent.protocols & 2 != 0)
    ensures forall key, v :: ArgsAccept(p.allowedArgs, key, v) <==>
        && t in dir.base.byTool && ArgsAccept(dir.base.byTool[t].allowedArgs, key, v)
        && LabelsAccept(dir.configs, agent.labels, t, key, v)
        && (!scope.all && t in scope.tools && scope.tools[t].allowedArgs.Some? ==> ArgsAccept(scope.tools[t].allowedArgs.value, key, v))
    ensures p.requiresAgent <==> t == Traceroute || t == Mtr
  {
  }

  method VersionsForAgent(versions: seq<IPVersion>, agent: Agent) returns (out: seq<IPVersion>)
    ensures forall v :: v in out <==> v in versions && Speaks(AgentProtocols(agent), v)
  {
    out := [];
    for k := 0 to |versions|
      invariant forall v :: v in out <==> v in versions[..k] && Speaks(AgentProtocols(agent), v)
    {
      assert versions[..k + 1] == versions[..k] + [versions[k]];
      if Speaks(AgentProtocols(agent), versions[k]) {
        out := out + [versions[k]];
      }
    }
    assert versions[..|versions|] == versions;
  }

  /** One tool's entry before pruning; the policies of the agent's labels are `s`. */
  method ToolEntry(dir: Directory, agent: Agent, scope: Scope, t: Tool, s: PolicySet) returns (p: Permission)
    requires EffectivePolicies(dir.base, dir.configs, agent.labels, s) && t in s.byTool
    ensures EntryFor(dir, agent, scope, t, p)
  {
    var args := s.byTool[t].allowedArgs;
    var limit := ScopeLimit(scope, t);
    if limit.Some? {
      var both := IntersectAllowedArgs(Some(args), limit);
      args := both.value;
      RestrictedBoth(s.byTool[t].allowedArgs, limit, args);
    }
    var versions := VersionsForAgent(ScopeVersions(scope, t), agent);
    p := Permission(args, if t in scope.tools then scope.tools[t].resolveOnAgent else None, versions, RequiresPinnedAgent(t));
    EntryMeaning(dir, agent, scope, t, s, args);
  }

  lemma EntryMeaning(dir: Directory, agent: Agent, scope: Scope, t: Tool, s: PolicySet, args: Args)
    requires EffectivePolicies(dir.base, dir.configs, agent.labels, s) && t in s.byTool
    requires Restricted(s.byTool[t].allowedArgs, ScopeLimit(scope, t), args)
    ensures forall key, v :: ArgsAccept(args, key, v) <==>
        ValueAccepted(dir, agent.labels, t, key, v) && LimitAccepts(ScopeLimit(scope, t), key, v)
  {
  }

  /** Building and pruning one tool's entry. */
  method OfferTool(dir: Directory, agent: Agent, scope: Scope, t: Tool, everyone: PolicySet, s: PolicySet) returns (offer: Option<Permission>)
    requires EffectivePolicies(dir.base, dir.configs, [AGENT_ALL_LABEL], everyone)
    requires EffectivePolicies(dir.base, dir.configs, agent.labels, s)
    ensures offer.Some? ==> MayOffer(dir, agent, scope, t) && EntryFor(dir, agent, scope, t, offer.value)
    ensures offer.None? ==> !Usable(dir, agent, scope, t)
  {
    if t !in s.byTool || !(scope.all || (t in scope.tools && t in everyone.byTool)) {
      return None;
    }
    var p := ToolEntry(dir, agent, scope, t, s);
    if t !in agent.capabilities || |p.allowedArgs| == 0 || |p.ipVersions| == 0 {
      Unusable(dir, agent, scope, t, p);
      return None;
    }
    return Some(p);
  }

  lemma Unusable(dir: Directory, agent: Agent, scope: Scope, t: Tool, p: Permission)
    requires EntryFor(dir, agent, scope, t, p)
    requires t !in agent.capabilities || |p.allowedArgs| == 0 || |p.ipVersions| == 0
    ensures !Usable(dir, agent, scope, t)
  {
  }

  /** The tools an agent is listed with for a token. */
  method AgentToolPermissions(dir: Directory, agent: Agent, scope: Scope) returns (tools: map<Tool, Permission>)
    requires WellKept(dir)
    ensures Advertised(dir, agent, scope, tools)
  {
    var everyone := ApiPoliciesForLabels(dir.base, dir.configs, [AGENT_ALL_LABEL]);
    var s := ApiPoliciesForLabels(dir.base, dir.configs, agent.labels);
    tools := map[];
    for k := 0 to |ALL_TOOLS|
      invariant forall t | t in tools :: MayOffer(dir, agent, scope, t) && EntryFor(dir, agent, scope, t, tools[t])
      invariant forall t | t in ALL_TOOLS[..k] && Usable(dir, agent, scope, t) :: t in tools
    {
      var t := ALL_TOOLS[k];
      assert ALL_TOOLS[..k + 1] == ALL_TOOLS[..k] + [t];
      var offer := OfferTool(dir, agent, scope, t, everyone, s);
      if offer.Some? {
        tools := tools[t := offer.value];
      }
    }
    assert ALL_TOOLS[..|ALL_TOOLS|] == ALL_TOOLS;
    forall t | Usable(dir, agent, scope, t) ensures t in ALL_TOOLS {
      BuiltInListed(dir, t);
    }
  }

  lemma BuiltInListed(dir: Directory, t: Tool)
    requires WellKept(dir) && t in dir.base.byTool
    ensures t in ALL_TOOLS
  {
  }

  // ---- advertised requests pass ----

  /** A request keeps to an advertised entry once defaults are filled in. */
  predicate Conforms(p: Permission, req: Request) {
    && (forall key | key in EffectiveArgs(req) :: ArgsAccept(p.allowedArgs, key, EffectiveArgs(req)[key]))
    && req.ipVersion in p.ipVersions
    && (p.resolveOnAgent.Some? ==> req.resolveOnAgent == p.resolveOnAgent.value)
  }

  /** The request names the tool's default argument but leaves it empty. */
  predicate EmptiesDefault(req: Request) {
    var d := DefaultArg(req.tool);
    d.Some? && d.value.0 in req.args && req.args[d.value.0] == ""
  }

  /** A request pinned to a listed agent that conforms to the agent's advertised entry is
      authorized, and it passes the argument checks of the agent's policies exactly when it does
      not spell out an empty default argument and, for the port tool, names a port. */
  lemma AdvertisedRequestPasses(dir: Directory, scope: Scope, id: string, tools: map<Tool, Permission>, req: Request, s: PolicySet)
    requires WellKept(dir) && id in dir.agents && id != ""
    requires ScopeAllowsAgentRecord(scope, ManagedAgent(dir, id))
    requires Advertised(dir, ManagedAgent(dir, id), scope, tools)
    requires req.agentId == id && req.tool in tools && Conforms(tools[req.tool], req)
    requires EffectivePolicies(dir.base, dir.configs, ManagedLabels(dir, id), s)
    ensures Authorized(dir, scope, req)
    ensures req.tool in s.byTool
    ensures ArgsAdmitted(s.byTool[req.tool].allowedArgs, req) <==>
        !EmptiesDefault(req) && (RequiresPortArg(req.tool) ==> "port" in req.args)
  {
    var agent := ManagedAgent(dir, id);
    var t := req.tool;
    var eff := EffectiveArgs(req);
    assert MayOffer(dir, agent, scope, t) && EntryFor(dir, agent, scope, t, tools[t]);
    forall key | key in eff
      ensures ValueAccepted(dir, agent.labels, t, key, eff[key]) && LimitAccepts(ScopeLimit(scope, t), key, eff[key])
      ensures ArgsAccept(s.byTool[t].allowedArgs, key, eff[key])
    {
      assert ArgsAccept(tools[t].allowedArgs, key, eff[key]);
    }
    ConformingArgs(s.byTool[t].allowedArgs, req);
  }

  lemma ConformingArgs(allowed: Args, req: Request)
    requires forall key | key in EffectiveArgs(req) :: ArgsAccept(allowed, key, EffectiveArgs(req)[key])
    ensures ArgsAdmitted(allowed, req) <==> !EmptiesDefault(req) && (RequiresPortArg(req.tool) ==> "port" in req.args)
  {
    var eff := EffectiveArgs(req);
    if EmptiesDefault(req) {
      EmptyNeverListed(allowed, DefaultArg(req.tool).value.0);
    } else {
      forall key | key in req.args && !ServerOwned(key) ensures ArgsAccept(allowed, key, req.args[key]) {
        assert key in eff && eff[key] == req.args[key];
      }
      if RequiresPortArg(req.tool) && "port" in req.args {
        assert ArgsAccept(allowed, "port", req.args["port"]);
        assert PortOf(req.args["port"]).Some?;
      }
    }
  }

  lemma EmptyNeverListed(allowed: Args, key: string)
    requires key != "port"
    ensures !ArgsAccept(allowed, key, "")
  {
  }

  lemma IcmpIsListed()
    ensures "icmp" in CsvValues("icmp,tcp")
  {
    var words := ["icmp", "tcp"];
    assert Join(words[1..], ',') == "tcp";
    assert Join(words, ',') == "icmp,tcp";
    CsvJoin(words);
    assert "icmp" in words;
  }

  // ---- the two exceptions at an input ----

  /** A server with the built-in policies only, and a token without limits. */
  predicate BuiltInSite(dir: Directory, scope: Scope) {
    && dir.base == PoliciesWithRuntime(DEFAULT_RUNTIME) && dir.configs == map[] && WellKept(dir)
    && scope.all && scope.tools == map[]
  }

  /** An agent of such a server that has the tool. */
  predicate Listed(dir: Directory, id: string, t: Tool) {
    id != "" && id in dir.agents && t in dir.agents[id].capabilities
  }

  lemma BuiltInEntry(dir: Directory, scope: Scope, id: string, t: Tool, tools: map<Tool, Permission>, key: string, v: string)
    requires BuiltInSite(dir, scope) && Listed(dir, id, t) && Advertised(dir, ManagedAgent(dir, id), scope, tools)
    requires t in BUILT_IN_TOOLS && ArgsAccept(BuiltInArgs(t), key, v)
    ensures t in tools && IP_ANY in tools[t].ipVersions && tools[t].resolveOnAgent == None
    ensures ArgsAccept(tools[t].allowedArgs, key, v)
  {
    var agent := ManagedAgent(dir, id);
    assert MayOffer(dir, agent, scope, t);
    assert ValueAccepted(dir, agent.labels, t, key, v) && LimitAccepts(ScopeLimit(scope, t), key, v);
    assert IP_ANY in ScopeVersions(scope, t) && Speaks(AgentProtocols(agent), IP_ANY);
    assert Usable(dir, agent, scope, t);
  }

  lemma BuiltInTool(dir: Directory, scope: Scope, id: string, t: Tool, s: PolicySet)
    requires BuiltInSite(dir, scope) && t in BUILT_IN_TOOLS
    requires EffectivePolicies(dir.base, dir.configs, ManagedLabels(dir, id), s)
    ensures t in s.byTool
  {
  }

  function EmptyProtocolPing(id: string): Request { Request(Ping, map["protocol" := ""], IP_ANY, id, false) }

  lemma EmptyProtocolConforms(p: Permission, id: string)
    requires ArgsAccept(p.allowedArgs, "protocol", "icmp") && IP_ANY in p.ipVersions && p.resolveOnAgent == None
    ensures Conforms(p, EmptyProtocolPing(id))
  {
    var eff := EffectiveArgs(EmptyProtocolPing(id));
    assert eff.Keys == {"protocol"} && eff["protocol"] == "icmp";
  }

  lemma EmptyProtocolFails(allowed: Args, id: string)
    ensures !ArgsAdmitted(allowed, EmptyProtocolPing(id))
  {
    EmptyNeverListed(allowed, "protocol");
    assert "protocol" in EmptyProtocolPing(id).args && !ServerOwned("protocol");
  }

  /** On a server with the built-in policies, a ping that spells out an empty protocol keeps to the
      advertised entry and is authorized, and the argument checks reject it. */
  lemma EmptyProtocolIsRejected(dir: Directory, scope: Scope, id: string, tools: map<Tool, Permission>, s: PolicySet)
    requires BuiltInSite(dir, scope) && Listed(dir, id, Ping) && Advertised(dir, ManagedAgent(dir, id), scope, tools)
    requires EffectivePolicies(dir.base, dir.configs, ManagedLabels(dir, id), s)
    ensures Ping in tools && Conforms(tools[Ping], EmptyProtocolPing(id)) && Authorized(dir, scope, EmptyProtocolPing(id))
    ensures Ping in s.byTool && !ArgsAdmitted(s.byTool[Ping].allowedArgs, EmptyProtocolPing(id))
  {
    IcmpIsListed();
    BuiltInEntry(dir, scope, id, Ping, tools, "protocol", "icmp");
    EmptyProtocolConforms(tools[Ping], id);
    BuiltInTool(dir, scope, id, Ping, s);
    EmptyProtocolFails(s.byTool[Ping].allowedArgs, id);
  }

  lemma SomePortIsListed(rule: string) returns (v: string)
    requires rule == DEFAULT_PORT_RANGE
    ensures PortValueAllowed(rule, v)
  {
    v := Itoa(1);
    AtoiItoa(1);
    BlankAllowsAll(rule, 1);
  }

  lemma PortToolTakesPort() returns (v: string)
    ensures ArgsAccept(BuiltInArgs(Port), "port", v)
  {
    v := SomePortIsListed(BuiltInArgs(Port)["port"]);
  }

  function PortlessRequest(id: string): Request { Request(Port, map[], IP_ANY, id, false) }

  lemma PortlessConforms(p: Permission, id: string)
    requires IP_ANY in p.ipVersions && p.resolveOnAgent == None
    ensures Conforms(p, PortlessRequest(id))
  {
    assert EffectiveArgs(PortlessRequest(id)) == map[];
  }

  lemma PortlessFails(allowed: Args, id: string)
    ensures !ArgsAdmitted(allowed, PortlessRequest(id))
  {
    assert TrimSpace("") == "";
  }

  /** On such a server, a request of the port tool without a port keeps to the advertised entry and is
      authorized, and the argument checks reject it. */
  lemma MissingPortIsRejected(dir: Directory, scope: Scope, id: string, tools: map<Tool, Permission>, s: PolicySet)
    requires BuiltInSite(dir, scope) && Listed(dir, id, Port) && Advertised(dir, ManagedAgent(dir, id), scope, tools)
    requires EffectivePolicies(dir.base, dir.configs, ManagedLabels(dir, id), s)
    ensures Port in tools && Conforms(tools[Port], PortlessRequest(id)) && Authorized(dir, scope, PortlessRequest(id))
    ensures Port in s.byTool && !ArgsAdmitted(s.byTool[Port].allowedArgs, PortlessRequest(id))
  {
    var v := PortToolTakesPort();
    BuiltInEntry(dir, scope, id, Port, tools, "port", v);
    PortlessConforms(tools[Port], id);
    BuiltInTool(dir, scope, id, Port, s);
    PortlessFails(s.byTool[Port].allowedArgs, id);
  }
}
