/** The vocabulary shared by the server and its agents. */
module Model {
  import opened Text

  datatype Tool = Ping | Traceroute | Mtr | Http | Dns | Port | Unknown(name: string)

  /** IDs of jobs and agents are fresh values that are compared and never taken apart; there is
      one empty ID. */
  datatype Id = NoId | Id(key: nat)

  /** Instants and durations in nanoseconds. */
  type Time = int
  const ZERO_TIME: Time := 0
  const SECOND: Time := 1_000_000_000

  /** IP versions are numbers: 0 for any, 4 and 6. */
  type IPVersion = int
  const IP_ANY: IPVersion := 0
  const IPV4: IPVersion := 4
  const IPV6: IPVersion := 6

  /** The protocols an agent speaks, one bit for each IP version. */
  type ProtocolMask = bv8
  const PROTOCOL_IPV4: ProtocolMask := 1
  const PROTOCOL_IPV6: ProtocolMask := 2
  const PROTOCOL_ALL: ProtocolMask := 3

  function RequiredProtocol(version: IPVersion): ProtocolMask {
    if version == IPV4 then PROTOCOL_IPV4 else if version == IPV6 then PROTOCOL_IPV6 else 0
  }

  /** Whether a mask covers an IP version; no version at all is always covered. */
  predicate Speaks(protocols: ProtocolMask, version: IPVersion) {
    RequiredProtocol(version) == 0 || protocols & RequiredProtocol(version) != 0
  }

  datatype Agent = Agent(
    id: string, labels: seq<string>, capabilities: seq<Tool>, protocols: ProtocolMask, online: bool)

  /** An agent that announces no protocols is taken to speak all of them. */
  function AgentProtocols(agent: Agent): ProtocolMask {
    if agent.protocols == 0 then PROTOCOL_ALL else agent.protocols
  }

  predicate AgentSupports(agent: Agent, tool: Tool, version: IPVersion) {
    agent.online && tool in agent.capabilities && Speaks(AgentProtocols(agent), version)
  }

  /** Bit 0 of a mask stands for IPv4 and bit 1 for IPv6; any other version is always covered. */
  lemma SpeaksMeaning(protocols: ProtocolMask, version: IPVersion)
    ensures version == 4 ==> (Speaks(protocols, version) <==> protocols & 1 != 0)
    ensures version == 6 ==> (Speaks(protocols, version) <==> protocols & 2 != 0)
    ensures version != 4 && version != 6 ==> Speaks(protocols, version)
  {
  }

  /** An agent can run a tool if it is online, has it, and speaks the version; one that announces no
      protocols speaks both. */
  lemma AgentSupportsMeaning(agent: Agent, tool: Tool, version: IPVersion)
    ensures AgentSupports(agent, tool, version) <==>
        && agent.online && tool in agent.capabilities
        && (version == 4 ==> agent.protocols == 0 || agent.protocols & 1 != 0)
        && (version == 6 ==> agent.protocols == 0 || agent.protocols & 2 != 0)
  {
  }

  /** Arguments the server fills in itself. */
  predicate ServerOwned(key: string) { key == "count" || key == "max_hops" || key == "max_hop" }

  const AGENT_ALL_LABEL := "agent"
}
