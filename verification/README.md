# Verified model of the mtr server and agent

This project models the network diagnostics server and its agents in Dafny and proves what they keep
over whole runs. It covers the in-memory store, the scheduler hub, the policy algebra, the live event
stream, schedules, and the agent's probe loops.

| module(s) | part of the system |
|---|---|
| `Jobs`, `StoreRuns`, `Store` | jobs, single store calls and their interleavings, the store class |
| `Lifecycle`, `LifecycleEvents`, `LifecycleRuns`, `Hubs` | the job protocol as a state machine, its invariant, runs of handlers, the hub class that carries it out |
| `PollEffects`, `EndEffects`, `SweepEffects` | what polls, results, failures, disconnects and sweeps do, told by the fields they change |
| `SweepRounds` | what a timeout sweep spares, and backlogs longer than its limit |
| `HttpInvocations`, `HttpRuns`, `HttpAgents` | the attempts of a call to an HTTP agent, what the call does to its job, alone and among other handlers |
| `EventStream` | publishers, history and the bounded channel of stream clients |
| `PortRules`, `AllowedArgs`, `Runtimes`, `Policies`, `Authz` | rules as text and what they mean, label policies and limits, permissions and authorization |
| `Schedules`, `ScheduleRuns`, `ScheduleStore`, `ScheduleRequests`, `ScheduleUpdate`, `SortedText`, `ScheduledJobs` | schedule targets, ticks, the stored schedules, requests and updates, and the jobs of a tick as a protocol step |
| `Probes`, `EchoMatch` | ping, traceroute and mtr loops, and the matching of ICMP answers to probes |
| `Text`, `Model` | string helpers with their inverses, shared vocabulary |

`dafny verify dfyconfig.toml` checks everything.

How the parts fit together:

- **Job protocol.** `Lifecycle` gives each handler as a function on (jobs, `running` table, events) and
  proves that each keeps one invariant. `LifecycleRuns` takes these handlers as steps of arbitrary runs and
  draws the safety theorems from the invariant. `Hubs.Hub` is the imperative hub over `Store.Memory`; every
  method is proved to have exactly the effect of its step, so the theorems hold of the loops and field
  updates. One handler is one atomic step; single store calls interleave freely in `StoreRuns`. The sweep
  works from a list read once, so every later round sees a stale copy of its job. A call to an HTTP agent is
  many steps, one for each line and one for its end, with any other handlers between them.
- **Policies.** Rules stay text, as in the source; contracts say which values a text accepts. Conventions:
  no map is no limit, a name missing from a map is rejected, a blank list accepts nothing, a blank port rule
  is every port, a malformed port rule is none.
- **Event stream.** Every lock-protected action of every publisher and client is one step.
- **Schedules.** A stored schedule keeps distinct targets and an aggregate that indexes them; ticks, requests
  and updates preserve that.
- **Probes.** Network answers, costs and cancellation are inputs; statistics are over the reals.

Where the code and the expectation differ:

- A request that conforms to an advertised tool entry is always authorized, but is rejected by the argument
  check when it spells out an empty default argument or, for the port tool, leaves out the port:
  `Authz.AdvertisedRequestPasses` states the exact condition, `Authz.EmptyProtocolIsRejected` and
  `Authz.MissingPortIsRejected` are instances.
- A clean HTTP invocation whose only summaries are malformed leaves its job running until the timeout sweep:
  `HttpRuns.CallAmongOthers`, with an instance in `HttpRuns.MalformedSummaryLeavesRunning`.
- The definition key of a schedule target is shared by another label and agents' text iff its label or its
  agents' text holds a NUL (`ScheduleUpdate.KeyIsUnique`); two targets collide only if one holds it in the
  label and the other in the agents' text (`ScheduleUpdate.KeyTells`). An update can then change a label
  unnoticed: `ScheduleUpdate.NulHidesChange`.

Matching of answers is stated for sequence numbers below 2^16, because a larger one does not fit the echo
header and is never answered (`EchoMatch.LargeNumberIsNeverAnswered`); traces number their probes by hop and
stay far below.

## Model

| member | source | states |
|---|---|---|
| `LifecycleRuns.ReachableInv` | internal/scheduler/hub.go:571-842 | the protocol invariant (families, in-flight table, parents agree with children) holds after every legal run of handlers: creation, connect, poll, result, failure, disconnect, timeout sweep |
| `LifecycleRuns.InflightIsRunning` | internal/scheduler/hub.go:540-646 | in every reachable state the `running` entry of a non-empty agent ID is exactly the set of that agent's running jobs |
| `LifecycleRuns.HangupLeavesNoneRunning` | internal/scheduler/hub.go:403-417 | after a disconnect step the agent's table entry is empty and none of its jobs is left running |
| `LifecycleRuns.ParentsAgree` | internal/scheduler/hub.go:648-694 | in every reachable state a fan-out parent is terminal iff all its children are, and a terminal parent has succeeded iff some child has, whichever handler ended the last child |
| `LifecycleRuns.ClosedExactlyOnce` | internal/scheduler/hub.go:700-734 | in every reachable state the stream of a top-level job not refused at creation holds no closing progress event written by the hub while the job is open and exactly one, its outcome, afterwards; lines of the agent itself are not counted, whatever they say |
| `LifecycleRuns.InflightBounded` | internal/scheduler/hub.go:521-556 | with poll limits of at most m, every reachable state has at most m in-flight jobs for each agent |
| `LifecycleRuns.StepBound` | internal/scheduler/http_agent.go:273-306 | only a poll of the agent below its limit adds in-flight jobs and never past that limit; a poll at or above a lowered limit, and every other handler, adds none |
| `Lifecycle.SweepEndsOverdueJobs` | internal/scheduler/hub.go:736-842 | a sweep over a list read once that saw all active jobs leaves terminal every agent's job past its timeout and every fan-out parent past the overall timeout, and changes no job that had already ended |
| `SweepRounds.SweepSparesOthers` | internal/scheduler/hub.go:736-842 | a sweep over any stale list of open jobs leaves every agent's job that has time left, and whose parent has, exactly as it was |
| `SweepRounds.SweepsEndBacklog` | internal/scheduler/hub.go:736-763 | when the n oldest active jobs are all overdue, k consecutive sweeps of at most 200 jobs with 200 k >= n end every one of them |
| `Lifecycle.SweepKeeps` | internal/scheduler/hub.go:736-763 | a sweep over a stale list keeps the protocol invariant, the identity of every job and every terminal job as it was, and only shrinks the in-flight table |
| `Lifecycle.FailJobKeeps` | internal/scheduler/hub.go:707-734 | failing a childless job of the agent ends it, takes it out of the table, closes its parent if it was the last child, and keeps the invariant, also while a disconnect is half done |
| `Lifecycle.HandleResultKeeps` | internal/scheduler/hub.go:571-646 | a result line of any kind from any agent keeps the invariant and never changes a terminal job |
| `Lifecycle.DispatchAllKeeps` | internal/scheduler/hub.go:531-556 | claiming a list of jobs keeps the invariant, leaves other agents' entries alone and adds at most one entry per listed job |
| `Lifecycle.DisconnectKeeps` | internal/scheduler/hub.go:403-417 | forgetting an agent's entry and then failing what it held keeps the invariant and leaves none of its jobs running |
| `LifecycleRuns.NewFanoutKeeps` | internal/api/server.go:339-370 | adding a running parent with queued children keeps the invariant |
| `LifecycleEvents.CompleteParentTells` | internal/scheduler/hub.go:652-694 | closing a parent adds exactly its verdict to the parent's stream and disturbs no other stream |
| `StoreRuns.RunNeverStepsBack` | internal/store/memory.go:118-170 | under any interleaving of single store calls the rank queued < running < terminal of a job never decreases, its agent never changes and its start time once set never changes |
| `StoreRuns.ClaimedAtMostOnce` | internal/store/memory.go:118-136 | under any interleaving a claim returns true at most once per job, and only to the agent the job stays assigned to |
| `StoreRuns.ClaimRecords` | internal/store/memory.go:118-136 | a successful claim makes the job run and sets its start time to the claim unless it has one |
| `StoreRuns.EndRecords` | internal/store/memory.go:149-170 | the end of a job records its status, the time and a non-blank error, and leaves other jobs alone |
| `PollEffects.PollStarts` | internal/scheduler/hub.go:521-556 | in every reachable state a poll of an agent with room starts the first listed jobs, as many as it gets to: each runs from now on, is in flight and announces itself unless it is a child; nothing else changes |
| `PollEffects.PollLists` | internal/store/memory.go:97-116 | the listing of a poll holds only queued jobs of the agent that its tools and protocol bits cover, the oldest ones, and all of them if they fit |
| `PollEffects.QueuedNeverStarted` | internal/store/memory.go:118-136 | in every reachable state a queued job has no start time |
| `EndEffects.ParentCloses` | internal/scheduler/hub.go:652-694 | an open parent closes exactly when it has children and all have ended, as succeeded iff some child did, with its error, completion time, failure message and closing message |
| `EndEffects.ResultReaches` | internal/scheduler/hub.go:571-632 | a readable line of the agent that runs the job is stored on the job's stream or its parent's; a summary ends the job with its outcome and error and closes the stream, any other line changes nothing else |
| `EndEffects.ResultDropped` | internal/scheduler/hub.go:571-590 | an unreadable line, or one of an agent that does not run the job, changes nothing at all |
| `EndEffects.FailureEnds` | internal/scheduler/hub.go:707-734 | failing an open job records failure, message and time, takes it out of the table and tells its stream; only its parent may close with it |
| `EndEffects.CreationTells` | internal/api/server.go:339-402 | a fan-out announces itself, a refused job tells its error, other new jobs say nothing |
| `SweepEffects.DisconnectFails` | internal/scheduler/hub.go:403-417 | a disconnect fails exactly the running jobs of the agent with its message and leaves every other agent job as it was |
| `SweepEffects.SweepByClock` | internal/scheduler/hub.go:736-815 | a sweep that saw all active jobs fails an agent's open job with `job_timeout` once the seconds its own policies give its tool have passed since its start (or creation), and leaves it as it was while it and its parent have time |
| `SweepEffects.SweepEndsParentByClock` | internal/scheduler/hub.go:765-792 | the same sweep ends a fan-out parent once the overall timeout has passed since its start |
| `SweepEffects.SweepSees` | internal/store/memory.go:81-95 | a sweep lists open jobs only, and all of them when there are at most 200 |
| `Store.Memory.CreateJobs` | internal/store/memory.go:49-56 | the batch is inserted, later entries overwriting earlier ones, and nothing else changes |
| `Jobs.InsertFresh` | internal/store/memory.go:49-56 | inserting a batch with fresh IDs adds exactly these jobs and leaves all others as they were |
| `Store.Memory.ClaimQueuedJob` | internal/store/memory.go:118-136 | true iff the job is queued and assigned to this agent; then it runs with its start time set once; otherwise nothing changes |
| `Store.Memory.UpdateJobStatus` | internal/store/memory.go:149-170 | a stored job's status is overwritten, with start, completion and error filled as the status demands; an unknown ID is an error |
| `Store.Memory.AddJobEvent` | internal/store/memory.go:172-180 | the event is appended to the job's list, or refused for an unknown job |
| `Store.Memory.ListQueuedJobs` | internal/store/memory.go:97-116 | the agent's queued jobs its tools and protocols cover, oldest first; a positive limit cuts off only younger ones |
| `Store.Memory.ListActiveJobs` | internal/store/memory.go:81-95 | the queued and running jobs, oldest first; a positive limit cuts off only younger ones |
| `Store.Memory.ListChildJobs` | internal/store/memory.go:68-79 | exactly the children of the parent, oldest first |
| `Hubs.Hub.CompleteParentIfDone` | internal/scheduler/hub.go:648-694 | the loop over the children has the effect of the protocol step that closes a parent |
| `Hubs.Hub.FailJob` | internal/scheduler/hub.go:707-734 | has the effect of the protocol's failure step on jobs, table and events |
| `Hubs.Hub.HandleResult` | internal/scheduler/hub.go:571-646 | has the effect of the protocol's result step, including every case in which the line is dropped |
| `Hubs.Hub.RegisterAgent` | internal/scheduler/hub.go:394-399 | a connecting agent gets a table entry and keeps what was in it |
| `Hubs.Hub.PollAgent` | internal/scheduler/hub.go:521-556 | works from a listing of queued jobs cut at the remaining capacity and has the effect of the poll step, also when the connection fails in the middle |
| `Hubs.Hub.DispatchJob` | internal/scheduler/hub.go:540-551 | claims, marks in flight and announces one job iff it can be claimed |
| `Hubs.Hub.Disconnect` | internal/scheduler/hub.go:403-417 | has the effect of the disconnect step |
| `Hubs.Hub.FailTimedOutJobs` | internal/scheduler/hub.go:736-763 | reads at most 200 active jobs once and has the effect of sweeping that stale list |
| `Hubs.Hub.DeferFanoutParentTimeout` | internal/scheduler/hub.go:765-792 | true iff the job is a running fan-out parent that is not past the overall timeout; closes it if its children have all ended |
| `Hubs.Hub.FailFanoutChildren` | internal/scheduler/hub.go:816-842 | true iff the job is a fan-out parent; then exactly its open children fail and leave the table |
| `Hubs.Hub.CreateFanoutJob` | internal/api/server.go:339-371 | one running parent and one queued child per dispatch target, with the target's agent and version, as a legal creation step |
| `HttpInvocations.CallWithAttempts` | internal/scheduler/http_agent.go:595-618 | all reported lines come from the last attempt; every earlier attempt broke its connection before any line; the call stops early only on a final answer or a cancellation |
| `HttpRuns.FirstEndDecides` | internal/scheduler/hub.go:571-842 | in any legal run the first step that ends a running job decides it for good, whoever takes it |
| `HttpRuns.CallAmongOthers` | internal/scheduler/http_agent.go:545-589 | a call with arbitrary other handlers between its lines: if another handler ends the job first it stays as that left it; otherwise the first well-formed summary decides, without one the job fails if the call broke or brought no summary, and is left running exactly when a clean call brought only malformed summaries |
| `HttpRuns.MalformedSummaryLeavesRunning` | internal/scheduler/http_agent.go:545-589 | the last case at an input: a clean call with one malformed summary leaves its job running |
| `HttpInvocations.InvocationDecides` | internal/scheduler/http_agent.go:545-589 | the same outcome for a whole call during which no other handler runs, with the protocol invariant kept |
| `HttpAgents.HandleLine` | internal/scheduler/http_agent.go:553-564 | one line has the effect of a result step of its own and is remembered as a summary by its type |
| `HttpAgents.FinishCall` | internal/scheduler/http_agent.go:565-588 | the end of a call has the effect of a failure step iff the call broke or brought no summary |
| `HttpAgents.InvokeHttpAgent` | internal/scheduler/http_agent.go:545-589 | while no other handler runs, a call has exactly the effect of its lines and its end in order |
| `EventStream.ReachableInv` | internal/api/stream.go:31-72 | the stream invariant holds in every interleaving of publishers and any number of clients |
| `EventStream.NoGapNoDuplicate` | internal/api/stream.go:31-72 | in every interleaving no event is written twice to a client, only stored events are written, and every published event is written, pending or was dropped at a full channel |
| `EventStream.PublishIsSafe` | internal/scheduler/hub.go:1027-1058 | publishing never sends on a closed channel, and an event is dropped only by its own publish step at a channel holding 32 events |
| `EventStream.DrainedClientIsComplete` | internal/api/stream.go:37-72 | once everything stored is published, a live client with a drained channel that dropped nothing has written exactly the stored events, each once |
| `EventStream.WrittenInOrder` | internal/api/stream.go:37-72 | in every interleaving a client writes a prefix of the stored events in stored order and then live events in the order they were published; without drops it gets every event published since it subscribed |
| `EventStream.OfferToAll` | internal/scheduler/hub.go:1048-1058 | the loop over the subscribers offers the event to each of them without blocking |
| `EventStream.Broker.PublishEvent` | internal/scheduler/hub.go:1048-1062 | has the effect of the publish step |
| `EventStream.Broker.SubscribeJob` | internal/scheduler/hub.go:1027-1034 | registers an empty channel as the subscribe step |
| `EventStream.Broker.ListJobEvents` | internal/api/stream.go:31-36 | reads the stored events as the history step |
| `EventStream.Broker.Unregister` | internal/scheduler/hub.go:1035-1042 | ends the subscription under the publishers' lock |
| `EventStream.Broker.CloseChannel` | internal/scheduler/hub.go:1043-1044 | closes a channel that is no longer subscribed |
| `EventStream.Broker.WriteOne` | internal/api/stream.go:44-49 | writing one history event marks it seen and has the effect of the history step |
| `EventStream.Broker.ReceiveOne` | internal/api/stream.go:61-71 | one turn of the live loop skips what was already written and has the effect of the receive step |
| `PortRules.ParseFormat` | internal/policy/policy.go:378-426 | parsing the printed form of any non-empty list of valid port ranges gives back that list |
| `PortRules.ParsePortRanges` | internal/policy/policy.go:378-414 | the loops compute `Parse`; a blank rule is every port, a bad item or no item at all is an error |
| `PortRules.FormatPortRanges` | internal/policy/policy.go:416-426 | the printed text parses back to the ranges |
| `PortRules.BlankAllowsAll` | internal/policy/policy.go:378-384 | a blank rule allows exactly the ports from 1 to 65535 |
| `PortRules.BadItemSpoils` | internal/policy/policy.go:384-410 | one bad item makes a rule malformed, so that it allows no port |
| `PortRules.RuleMeaning` | internal/policy/policy.go:384-413 | a rule without bad items allows a port iff one of its comma-separated items includes it |
| `PortRules.ItemMeaning` | internal/policy/policy.go:385-409 | an item is blank, or a port or ordered pair of ports from 1 to 65535 with optional white space |
| `PortRules.IntersectPortRules` | internal/policy/policy.go:118-141 | a result exists iff some port satisfies both rules, and it allows exactly the ports both allow; a malformed rule allows none |
| `PortRules.ValidatePortAllowed` | internal/policy/policy.go:356-371 | accepts iff the value is a port number from 1 to 65535 that the rule allows; tells a malformed rule apart |
| `AllowedArgs.ReadCsv` | internal/policy/policy.go:453-463 | the loop reads exactly the trimmed non-empty items of a rule in order |
| `AllowedArgs.CsvMeaning` | internal/policy/policy.go:453-463 | a rule lists exactly its trimmed non-blank items |
| `AllowedArgs.CsvJoin` | internal/policy/policy.go:428-463 | joining clean values with commas and reading the rule back gives the same values |
| `AllowedArgs.IntersectCsvValues` | internal/policy/policy.go:428-442 | the values of the first rule that the second lists too, in the first rule's order |
| `AllowedArgs.AllowedArgContains` | internal/policy/policy.go:444-451 | true iff the rule lists the value |
| `AllowedArgs.IntersectAllowedArgs` | internal/policy/policy.go:90-116 | a value is accepted by the result iff both maps accept it, with a missing map as no limit; no rule of the result is the empty text that the request check would read as any value |
| `Policies.BuiltInMeaning` | internal/policy/policy.go:48-59 | what the built-in rules of HTTP, ping, traceroute, mtr and port accept, value by value |
| `Policies.BuiltInDns` | internal/policy/policy.go:48-59 | what the built-in rule of DNS accepts |
| `Policies.WithIntersection` | internal/policy/policy.go:61-88 | a tool remains iff it is in the set and not disabled; a value is accepted iff the set and the configuration accept it; timeouts follow the new runtime |
| `Policies.ApiIntersectConfigPolicies` | internal/api/server.go:2255-2277 | the merged configuration disables and accepts exactly as both configurations together |
| `Policies.HubIntersectConfigPolicies` | internal/scheduler/hub.go:1432-1454 | the hub's copy: the merged configuration disables and accepts exactly as both configurations together |
| `Policies.ApiToolPoliciesForLabels` | internal/api/server.go:2202-2225 | the merged label policies restrict each tool exactly as all listed labels together |
| `Policies.HubToolPoliciesForLabels` | internal/scheduler/hub.go:1219-1243 | the hub's copy: the merged label policies restrict each tool exactly as all listed labels together |
| `Policies.ApiPoliciesForLabels` | internal/api/server.go:267-278 | accepts a value iff the built-in policy and every listed label accept it; limits are the least of base and labels |
| `Policies.HubPoliciesForLabels` | internal/scheduler/hub.go:1166-1176 | the hub's copy meets the same specification |
| `Policies.LabelOrderIrrelevant` | internal/api/server.go:2212-2277 | order and repetition of labels, and which copy computed the policies, change neither limits nor timeouts nor tools nor accepted requests |
| `Policies.MoreLabelsAdmitLess` | internal/api/server.go:267-278 | adding labels never admits a rejected request and never lengthens a timeout |
| `Policies.ServerArgs` | internal/policy/policy.go:213-232 | server-owned arguments, `max_hop` included, are dropped, and count and hop limit set again from the runtime for the tools that use them; all others stay |
| `Policies.Validate` | internal/policy/policy.go:306-354 | accepts iff the tool is enabled, the target is well formed, a pinned tool names an agent, the port tool a port, and every argument not owned by the server is accepted |
| `Runtimes.FoldRuntimes` | internal/api/server.go:2227-2253 | folding label runtimes onto a positive base gives the pointwise least of the base and the positive contributions |
| `Runtimes.FoldIsMonotone` | internal/api/server.go:2227-2253 | the fold depends only on the set of runtimes, and more of them never raise a limit |
| `Runtimes.TimeoutFormula` | internal/policy/policy.go:179-207 | the timeout of every tool spelled out in seconds, cut at the overall timeout |
| `Runtimes.TimeoutBounds` | internal/policy/policy.go:179-207 | 0 < timeout <= overall timeout for every tool and runtime |
| `Runtimes.TimeoutMonotone` | internal/policy/policy.go:179-207 | the timeout, products included, is monotone in the limits |
| `Runtimes.MoreLabelsNeverLengthen` | internal/policy/policy.go:143-207 | every label set gives a positive timeout at most that of fewer labels and at most the base's overall timeout |
| `Authz.ApiLabelsForAgent` | internal/api/server.go:247-265 | the API always ends with the managed labels of the agent, although it re-reads its record only when three labels are there |
| `Authz.CollectEffectiveArgs` | internal/api/authz.go:366-389 | the request's own arguments with the tool's default filled in when missing or empty |
| `Authz.AuthorizeJob` | internal/api/authz.go:92-150 | passes iff the token covers the tool, the agent, the IP version and the resolve flag, and every effective argument is accepted by policy and token |
| `Authz.UncoveredIsRefused` | internal/api/authz.go:295-328 | a limited token is never authorized for a pinned agent that is denied, carries a denied label, is not among listed agents without `*`, or lacks every wanted label |
| `Authz.CoveredAgentPasses` | internal/api/authz.go:92-150 | for an agent the token's lists cover, authorization depends only on tool, version, resolve flag and arguments |
| `Authz.EffectiveArgsMeaning` | internal/api/authz.go:366-389 | the effective value of every argument, with the defaults of each tool |
| `Authz.LabelsMeaning` | internal/model/model.go:386-415 | an agent's labels are those of all agents, its transport and itself, and its own trimmed ones that are neither blank nor reserved |
| `Authz.AdvertisedEntry` | internal/api/authz.go:204-247 | an entry lists the versions token and agent share and accepts the values built-in policy, labels and token accept |
| `Authz.OfferTool` | internal/api/authz.go:204-223 | a tool is offered only if agent and token allow it, with exactly the rules both accept, and every usable tool is offered |
| `Authz.AgentToolPermissions` | internal/api/authz.go:162-184 | the advertised table holds only tools the agent may be asked for, each with exactly what policies and token accept, and every usable tool |
| `Authz.AdvertisedRequestPasses` | internal/api/authz.go:92-223 | a pinned request that conforms to the advertised entry is authorized, and passes the argument checks iff it does not spell out an empty default argument and, for the port tool, names a port |
| `Authz.EmptyProtocolIsRejected` | internal/policy/policy.go:321-354 | with built-in policies, a ping with an explicitly empty protocol conforms to the entry of any advertised table, is authorized and fails the argument check |
| `Authz.MissingPortIsRejected` | internal/policy/policy.go:321-354 | with built-in policies, a request of the port tool without a port conforms to the entry of any advertised table, is authorized and fails the argument check |
| `Probes.SendPings` | internal/runner/builtin.go:90-123 | the samples are the answered probes in order, and the cost, a gap cut short included, is at most count steps and count - 1 gaps of one second |
| `Probes.RunPing` | internal/runner/builtin.go:60-129 | counts, loss and times are those of the probes sent; the exit code is -1 when cancelled, 1 when nothing answered, 0 otherwise; the cost bound holds |
| `Probes.RunTrace` | internal/runner/builtin.go:237-271 | hops are the replies in order up to the first that reached the target, an unfinished trace used the whole limit, and the cost is at most hops times step |
| `Probes.RunCycles` | internal/runner/builtin.go:401-419 | each cycle ran under the limit its predecessors left, the probe table holds exactly the probes of every hop, the limit left is the shortest successful path |
| `Probes.RunMtr` | internal/runner/builtin.go:394-436 | an aggregate unless the first cycle fails; its hops are 1..m with m the shortest successful path or the limit; losses and times are ordered; the cost is at most count * limit * step |
| `Probes.SummarizeHop` | internal/runner/builtin.go:952-995 | loss, received count and address of the first probe that has one; best and worst are samples bounding all, the average is the exact mean between them, last is the last sample |
| `Probes.PingJob` | internal/runner/builtin.go:60-123 | a ping with server-owned arguments costs at most the unclamped timeout formula |
| `Probes.TracerouteJob` | internal/runner/builtin.go:199-271 | a traceroute with server-owned arguments costs at most the unclamped timeout formula |
| `Probes.MtrJob` | internal/runner/builtin.go:394-436 | an mtr with server-owned arguments costs at most the unclamped timeout formula, however its hop limit shrinks |
| `EchoMatch.SeqDistinct` | internal/runner/builtin.go:338-343 | distinct (ttl, probe) pairs of a trace have distinct sequence numbers |
| `EchoMatch.NumberedFromOne` | internal/runner/builtin.go:338-343 | probes are numbered from one, one after the other |
| `EchoMatch.MatchesExactly` | internal/runner/builtin.go:345-388 | any byte string is matched iff it is a legal IPv4 header of any length, or a plain IPv6 header, followed by an echo request with the asked id and number |
| `EchoMatch.QuotedProbeMatches` | internal/runner/builtin.go:345-388 | a quoted probe is matched iff id and number are those sent, cut to 16 bits |
| `EchoMatch.Await` | internal/runner/builtin.go:307-335 | the wait ends at the first message that answers the probe; only an echo reply means the target was reached |
| `EchoMatch.ReplyAnswersItsProbe` | internal/runner/builtin.go:307-388 | with numbers below 2^16, a reply to one probe of a trace answers exactly that probe |
| `EchoMatch.LargeNumberIsNeverAnswered` | internal/runner/builtin.go:307-388 | the bound is needed: a probe numbered 2^16 or more is never answered by its own reply |
| `Schedules.SyncAggregateRunFields` | internal/scheduler/hub.go:297-314 | the aggregate fields become the earliest next run and the latest last run of the targets |
| `Schedules.NormalizeRunFields` | internal/api/schedule.go:351-369 | the API's copy: the same aggregate, and the interval of the first target |
| `Schedules.IndexFindsDue` | internal/store/memory.go:216-230 | the schedule's own next run is due iff some target is due |
| `Schedules.DueTargets` | internal/scheduler/hub.go:257-266 | exactly the due targets, in their order |
| `Schedules.NextTargetRun` | internal/scheduler/hub.go:285-295 | in the future; one interval of `intervalSeconds` seconds (ten if not positive) after the planned run if that is later than now, else after now |
| `Schedules.AdvanceTargets` | internal/scheduler/hub.go:268-283 | every due target has run now and is planned one interval on, the others stay, and the index is kept |
| `Schedules.AdvancedRuns` | internal/scheduler/hub.go:268-295 | a target whose time has come runs now and is planned by its own seconds, ten if none are set; any other stays as it is |
| `Schedules.NothingDueAfterRun` | internal/scheduler/hub.go:268-314 | after a run nothing of the schedule is due at the same time |
| `Schedules.FiringsMoveOn` | internal/scheduler/hub.go:268-295 | over any sequence of ticks every firing moves the next run on by at least one interval |
| `Schedules.FiringsBounded` | internal/scheduler/hub.go:268-295 | over any sequence of ticks a target never runs more often than its interval allows since its first planned run |
| `Model.AgentSupportsMeaning` | internal/policy/policy.go:610-641 | an agent can run a tool iff it is online, has it, and its protocol bits cover the version, all versions if it announces none |
| `ScheduleRuns.JobVersionMeaning` | internal/scheduler/hub.go:166-205 | the IP version of a tick's jobs, and when a target gives no jobs |
| `ScheduleRuns.TargetAgents` | internal/scheduler/hub.go:316-358 | exactly the agents that are enabled, carry the label, are allowed and support tool and version, in the order they are listed |
| `ScheduleRuns.CheckAgent` | internal/scheduler/hub.go:223-241 | passes iff the agent's own labels accept the schedule; the arguments are the schedule's with the server-owned ones set from the agent's limits |
| `ScheduleRuns.RunsForTargets` | internal/scheduler/hub.go:207-243 | one job for each agent some due target reaches and that passes, none for any other and none twice, however targets overlap |
| `ScheduleRuns.RunSchedule` | internal/scheduler/hub.go:158-255 | the jobs of one schedule's tick, the cases in which none are created, and the move of every due target |
| `ScheduleStore.DueIdsIsScan` | internal/store/memory.go:216-230 | the due listing before its limit equals a scan for enabled schedules with a due target |
| `ScheduleStore.Memory.ListDueScheduledJobs` | internal/store/memory.go:216-230 | due schedules by next run; a positive limit cuts off only later ones |
| `ScheduleStore.Memory.CreateScheduledJob` | internal/store/memory.go:188-193 | the schedule is stored and every stored schedule keeps its index |
| `ScheduleStore.Memory.UpdateScheduledJob` | internal/store/memory.go:232-240 | a known schedule is replaced, an unknown one is an error, and every stored schedule keeps its index |
| `ScheduleStore.Memory.DeleteScheduledJob` | internal/store/memory.go:242-250 | a known schedule is removed, an unknown one is an error |
| `ScheduleStore.Memory.RunDueSchedules` | internal/scheduler/hub.go:151-255 | a tick runs the listed schedules in order, stores their jobs and their new state, touches no other schedule and keeps every index |
| `ScheduleStore.TickEffect` | internal/scheduler/hub.go:151-255 | a listed schedule got its jobs and moved on; any other is as it was |
| `ScheduleStore.TickClearsDue` | internal/scheduler/hub.go:151-255 | when the limit of 50 cuts nothing off, no enabled schedule has a due target after the tick |
| `SortedText.SortedUnique` | internal/api/schedule.go:303-304 | sorted string lists with the same items are equal |
| `ScheduleUpdate.SameDefinition` | internal/api/schedule.go:291-311 | true iff both target lists have the same definition keys, counted, in any order |
| `ScheduleUpdate.SameKeysByLabel` | internal/api/schedule.go:291-315 | when no label holds a NUL, or no agents' text does, the keys agree iff each side's targets have, label by label, the agents' text of the other side's |
| `ScheduleUpdate.KeyTells` | internal/api/schedule.go:313-315 | two targets have the same key iff label and agents' text agree, unless one holds NUL in its label and the other in its agents' text |
| `ScheduleUpdate.KeyIsUnique` | internal/api/schedule.go:313-315 | the key of a target belongs to no other label and agents' text iff neither holds a NUL |
| `ScheduleUpdate.KeyTellsAgents` | internal/api/schedule.go:313-315 | for targets that do not clash and agent IDs without commas a key determines label and agents |
| `ScheduleUpdate.NulConfusesKeys` | internal/api/schedule.go:313-315 | a concrete pair: label `a` with an agent ID holding NUL, and a label holding NUL, share a key |
| `ScheduleUpdate.NulHidesChange` | internal/api/schedule.go:82-115 | with such a pair an update changes a label without a new revision, and the target starts over |
| `ScheduleUpdate.IntervalsChanged` | internal/api/schedule.go:317-332 | false iff the lists are equally long and each target has the interval recorded last for its key, a missing one counting as 0 |
| `ScheduleUpdate.MergeRunState` | internal/api/schedule.go:334-349 | in place: unless reset, each target takes ID and run times from the existing target with its label |
| `ScheduleUpdate.CreateSchedule` | internal/api/schedule.go:33-52 | a new schedule has revision 1 and a correct index over the requested targets |
| `ScheduleUpdate.EveryFieldCounts` | internal/api/schedule.go:82-94 | a change of tool, target, version, resolve flag, arguments or definition keys alone raises the revision by one and carries nothing over |
| `ScheduleUpdate.SameFieldsKeepRevision` | internal/api/schedule.go:82-115 | with the same definition the revision stays, and run state is carried over iff the schedule was enabled and no interval differs |
| `ScheduleUpdate.SameIntervalsMeaning` | internal/api/schedule.go:317-332 | without clashing labels intervals are compared label by label |
| `ScheduleUpdate.UpdateSchedule` | internal/api/schedule.go:82-115 | the revision rises by one exactly on a definition change; run state is carried over exactly when definition and intervals are the same and the schedule was enabled, otherwise every target is new; the index is kept |
| `ScheduleUpdate.NewTargetsAreDue` | internal/api/schedule.go:82-115 | a schedule holding the targets of a request is due with every target from the time of the request on |
| `ScheduleUpdate.UnchangedUpdateKeepsRuns` | internal/api/schedule.go:82-115 | when no label holds a NUL, or no agents' text does, an unchanged update keeps the revision and, under any reordering, every target's ID, interval, next and last run, and so the schedule's own run times |
| `ScheduleRequests.TargetsFromRequest` | internal/api/schedule.go:262-289 | refused iff empty or some item is blank, has an interval outside 10 to 86400 s or repeats a label; otherwise one due target per item with distinct labels and IDs |
| `ScheduleRequests.AuthorizeTargets` | internal/api/schedule.go:205-241 | every target gets exactly the agents its author may use, sorted, or the request fails at a target that has none |
| `ScheduleRequests.WrittenAgents` | internal/api/schedule.go:205-241 | the agents written into a target are exactly those that carry its label, are covered by the token's lists, support tool and version and accept the request |
| `ScheduleRequests.ChangesKeepAuthor` | internal/api/schedule.go:205-241 | through any sequence of ticks and updates the targets allow exactly the agents the author of the last write could use when writing |
| `ScheduleRequests.TickKeepsToAuthor` | internal/scheduler/hub.go:151-255 | whatever happened since, to the schedule by ticks and updates or to labels, policies and agents, every job of a tick goes to an agent the author of the last write could use for a due target when writing it |
| `ScheduledJobs.BatchIsStep` | internal/scheduler/hub.go:207-251 | after any legal run of the job protocol the jobs of one schedule's tick are a legal creation step that adds one queued job per chosen agent and changes no other job |
| `ScheduledJobs.TickIsLegal` | internal/scheduler/hub.go:151-255 | all batches of a tick continue any legal run of the job protocol |

## Left out

- PostgreSQL and SQLite stores; the in-memory store is the reference.
- gRPC, HTTP, TLS, JSON, sockets, DNS and ICMP I/O; their outcomes are parameters. Whether a target is well formed, literal or resolvable is a parameter too.
- Rate limiting, client address resolution, token storage, audit log, GeoIP, configuration loading, the web frontend: plumbing or library behaviour.
- Retry and health-check back-off times, heartbeats, agent staleness, cancel messages to agents (`inflightCancels`, `grpcCancels`): they change no state modelled here.
- Two handlers racing on one job and concurrent reconnects under one agent ID: one handler is one atomic step, reading the clock once.
- `SweepRounds.SweepsEndBacklog`: speaks of consecutive sweeps; older active jobs that are not overdue can hide overdue ones behind the limit until they end themselves.
- Store errors other than an unknown ID: the in-memory store has no others.
- The in-flight entry of the empty agent ID: fan-out parents carry that ID, and the exactness of the table is stated for other IDs.
- The one store of the source is two classes here, one for jobs and one for schedules, and agents are named by text in the directory and by opaque IDs in the job protocol; `ScheduledJobs` relates the two by an injective naming.
- IDs: fresh values compared for equality; uniqueness of generated IDs is an assumption of the creating steps.
- Fields that no decision reads (names, `UpdatedAt`, resolved addresses, hop host names, standard deviation, flattened single probes); public wording of error types is not mapped.
- The single-agent creation request and the refused one are protocol steps (`CreatePinned`, `CreateRefused`) without a method of their own: they insert one job.
- Integer width: durations, counts and times are mathematical integers, and float rounding of statistics is not modelled.
- Traces send one probe per hop, as every caller in the source asks for; `EchoMatch` covers any number.
- Sharing of the target slice between a stored schedule and its working copy: schedules are values, so an in-place change becomes visible only when the schedule is written back.
- Schedule history, bucketing and summaries: queries that would only add easy members.
- `Probes.PingJob`: name resolution before the first probe is not part of the cost, because the timeout formula does not count it either; the same holds for `Probes.TracerouteJob` and `Probes.MtrJob`.
- `EventStream`: a client that has left or was unsubscribed gets no completeness claim, because its channel is closed.
