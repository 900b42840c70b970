# Verification of the ARP server, its mock, and the conformance runner

This project models three parts of the repository in Dafny and proves what they promise.

**The ARP reference server** (`arp/server`). One mutex guards projects, workspaces, agents, tokens
and ports, but a spawn, stop, restart or destroy gives it up while the backend works, so each of
these RPCs is several critical sections. The model has these layers:

- `Registry` holds the state and every critical section as a function on it. Entries the Go code
  reaches through pointers live in append-only heaps and are named by position, so that an RPC can
  hold on to an entry that has been deleted from its map, as it can in the source.
- `Interleaving` runs any number of RPCs at once, each with its next section and the locals that
  section needs. `Safety` proves what every section keeps; `Guarantees`, `WorkspaceIndex`,
  `IndexAgreement`, `Ports`, `PortConservation`, `PortBalance`, `StopHandles` and `Sequential` draw
  the conclusions for whole runs.
- `ServerObjects` is the server as a class with mutable maps and entries, each method proved equal
  to its section; `Rpcs` strings the sections together as the handlers do when nothing runs in
  between. `Segments` shows that each RPC so run is a segment of a run, and `Service` has the RPCs
  from authentication to answer on a server that never leaves the states runs reach, so that the
  results about runs hold of the object.
- What the RPCs do for their callers is pinned down against the calls: `Credentials` says whom a bearer
  admits and that a token gives exactly what was asked for, until it expires; `Launching` which spawns
  begin, what they enter and whose card an agent advertises; `AloneLeaves` what stops, restarts and
  rows of spawns leave; `Access` who may look up, list, discover, register, create and destroy what.
- `Listing` is what the reading RPCs return; `Watching` is the event channels and a WatchAgent stream
  under every interleaving with its publishers.

**The conformance runner** (`internal/runner`). `Matcher` is the partial matcher with its wildcards,
`Interpolation` the path resolver and the interpolator, `EventStream` the reader of event streams.

**The mock lifecycle server and the tool-call translator.** `ArpMock` is the mock with its delayed
"become ready" steps, `Routes` the translation of tool calls into requests and what the mock makes
of them, `Urls` the URL syntax the requests go through in between. `ToolCalls` goes from the step as written,
tool by tool, to the request and to the section of the mock it ends in, `MockEffects` from there to the
answer and the agents started, stopped and removed.

Where a natural property is false of the code, the code is kept, the failing inputs are shown, and an
if-and-only-if lemma says exactly when the property holds. For the server `Hazards` has the sections that
go wrong, `HazardRuns` extends any run at rest by one that goes through them, and `SomeAgentServes`
shows that there are runs to extend.

- A stop of an agent that does not hold its port frees the port under whoever has it by now. Ports
  are conserved at every moment exactly in the runs whose sections are all proper
  (`PortsConservedIffProper`): a stop finds its agent READY or STOPPING, at its end at least with a
  port nobody has, and a launch ends on an entry that holds no port. Stopping twice, one RPC after
  the other, is enough to fail (`RepeatedStopHappens`, `PortsMayBreak`), and so is stopping an agent
  before its workspace is destroyed (`CleanUpHappens`, `CleanUpMayBreak`). A rule callers can follow
  is to stop and restart READY agents only, and to destroy workspaces only while all their agents
  are READY (`DisciplineIsProper`).
- A spawn between the two sections of a destroy leaves an agent without a workspace
  (`LateSpawnHappens`). Every agent is housed at every moment exactly in the runs where each
  destroy's snapshot was still complete (`AlwaysHousedIffSettled`); RPCs run one after another always
  are such runs.
- The last section of a stop drops whatever handle the entry has by then. It drops one of a process
  it did not stop exactly if a launch brought that process in between and no other stop ended since
  (`StopDropsForeignHandleIffRelaunched`, `OverlappingStopHappens`).
- A failed launch does not refresh the stored card: it is current exactly in READY, STOPPING and
  STOPPED (`CardCurrentIffRefreshed`, `StaleCardHappens`).
- A watch may lose events published since its snapshot. It loses none exactly if it had subscribed
  before the first of them and none was published while 32 were waiting (`NothingLostIff`,
  `StopInTheGapIsMissed`).
- A delayed ready step of the mock overwrites "stopped": a stop sticks exactly if none is pending
  (`StopSticksIffNothingPending`).
- A tool call does not always act on what it names: names are not escaped when they become part of
  a URL, and the mock redirects paths that are not clean. It does exactly for plain names
  (`UnregisterReachesItsProject`, `StopReachesItsAgent`), and the ids the mock gives out are plain.
- Matching is reflexive exactly on values without malformed numbers; on numbers that are multiples
  of a step it is transitive exactly if the step is at least the tolerance
  (`TransitiveIffGridIsWide`); and a match survives every extension of the actual value exactly if
  no literal string was matched against a container (`SurvivesExtensionIffTextMeetsScalars`).

## Assumptions

- Random token ids and bearers do not collide with existing ones (`FreshFor`). Results about the
  agent sets of workspaces also assume that no agent id is used twice (`FreshRun`); the others do
  not, so they cover spawns with a fixed id.
- The permission of a token is one of the declared enum values.
- The operating system's answers (free ports, fallback port), the backend's answers (a handle or a
  failure) and the fetched card are arbitrary. Only port conservation assumes that the backend
  binds the port it was given and that a fallback port is not reserved already (`FairWorld`), and
  only the result on dropped handles that a new process has a new handle (`NewProcesses`).
- Strings are byte strings.
- Maps are enumerated in arbitrary order.

## Where code and documentation differ

The model follows the code.

- `arp-spec/identity-and-scopes.md:185` lets a SESSION token destroy a workspace only if all agents in
  it are of its own session; `arp/server/server.go:288-304` asks for one such agent
  (`SessionDestroyNeedsOneOwnAgent`).
- The reader of event streams joins the data lines of one event without a newline, unlike section
  9.2 (Server-sent events) of the WHATWG HTML Living Standard, and knows no other field than `data`.

## Model

| member | source | states |
|---|---|---|
| Scopes.ScopeSubset | arp/server/scope.go:10-31 | the check as run, with its set of names, answers as its branches say |
| Scopes.SubsetIsExact | arp/server/scope.go:10-31 | for an explicit child the check says yes iff every one of the infinitely many project names the child reaches the parent reaches |
| Scopes.NilChildPasses | arp/server/scope.go:14-17 | a nil child always passes, although as a scope it is no wider only than a global parent |
| Scopes.SubsetIsTransitive | arp/server/scope.go:10-31 | narrowing twice is narrowing |
| Guarantees.NeverDangling | arp/server/agent.go:134-170 | in every reachable state of every interleaving each RPC in flight can run its next section |
| Guarantees.EveryEntryConsistent | arp/server/agent.go:112-170 | every entry ever made, listed or not: READY has a handle with its url, port and pid; STOPPED has none and pid 0; STARTING has none; never BUSY or UNSPECIFIED; in READY, STOPPING and STOPPED the stored card is the enriched one |
| Guarantees.CardCurrentIffRefreshed | arp/server/server.go:497-540 | the stored card equals recomputation exactly in READY, STOPPING and STOPPED |
| Guarantees.SessionsCoherent | arp/server/agent.go:92-124 | an agent shares one non-empty session with the token issued to it and with the token that spawned it, which is that token's parent |
| Guarantees.TokensWrittenOnce | arp/server/agent.go:39-52 | between any two moments of a run a token changes in nothing but an empty session becoming non-empty |
| Guarantees.TokensFormForest | arp/server/scope.go:74-89 | in every reachable state both token indexes name exactly the same tokens, parents are in the store and older, and no child is above its parent |
| Guarantees.AncestorBounds | arp/server/scope.go:43-72 | every ancestor reaches all projects its descendant reaches and ranks no lower |
| Guarantees.SeenByAncestor | arp/server/server.go:276-284 | one agent shown to a token is shown to each of its ancestors, by induction along the chain |
| Guarantees.VisibilityShrinks | arp/server/server.go:276-304 | in every reachable state whatever agent or workspace a token may see or act on, each of its ancestors may |
| Guarantees.WorkspaceSeenByAncestor | arp/server/server.go:288-304 | a workspace visible to a token is visible to each of its ancestors |
| Credentials.BearerAdmitted | arp/server/server.go:208-226 | in every sound state the bearer of a token admits its holder with the subject, scope, permission and session of the token, and is refused iff the token has an expiry and now is after it |
| Credentials.AdmittedHoldsToken | arp/server/server.go:208-215 | nobody is admitted by a bearer that belongs to no token, loopback or not |
| Credentials.NoBearerNeedsLoopback | arp/server/server.go:227-236 | without a bearer exactly a loopback caller is admitted, as global administrator, where the configuration allows it |
| Credentials.BearerAdmittedLater | arp/server/server.go:208-226 | over any run, from the moment a token exists until it expires its bearer admits the same holder with the same rights |
| Credentials.RankIsOrder | arp/server/scope.go:67-72 | permissions are ordered SESSION, PROJECT, ADMIN |
| Credentials.IssuedAsAsked | arp/server/scope.go:43-90 | a token is issued iff it reaches no project name the caller does not and ranks no higher; then it reaches exactly the names asked for (the caller's, if none), with the permission, subject, session, parent and expiry asked for, and is stored under id and bearer |
| Credentials.CreatedTokenLives | arp/server/token.go:12-41 | over any run a token made by CreateToken acts with exactly the reach and permission asked for at every later moment, and is refused once more than its time to live has passed |
| Credentials.SessionIsFor | arp/server/agent.go:39-52 | the session is the token's, or a new one that is written to this token and no other |
| Credentials.CallerKeepsSession | arp/server/agent.go:39-52 | the caller goes on in the session of its token, or in that of its first spawn |
| Credentials.SpawnIssues | arp/server/agent.go:92-124 | a begun spawn has issued one token as the call asked, in the session of the new agent, which names it |
| Credentials.AutoAgentInherits | arp/server/workspace.go:60-64 | an auto agent gets exactly the reach and the permission of whoever creates the workspace |
| Credentials.SpawnedTokenLives | arp/server/agent.go:92-142 | over any run the token of a spawned agent admits it at every later moment with exactly the reach and permission asked for and the session of the agent |
| Safety.SectionKeeps | arp/server/agent.go:70-365 | any section of any RPC keeps the invariant on tokens, entries and indexes, and only moves the state forward |
| Safety.NextKeeps | arp/server/agent.go:70-365 | any step of the concurrent system keeps the invariant of the state and of every RPC in flight |
| Safety.RunIsOk | arp/server/agent.go:70-365 | the invariant holds at the end of every run |
| WorkspaceIndex.NextKeepsSets | arp/server/workspace.go:132-158 | any step keeps the agent sets of workspaces and the snapshots of destroys in flight sound |
| WorkspaceIndex.LiveIdsResolve | arp/server/agent.go:130-131 | over every interleaving, overlapping destroys and re-creations included, each id in a live workspace's set is in the agent table under that workspace |
| IndexAgreement.HousedMeansAgreement | arp/server/server.go:473-487 | if all agents are housed, a workspace's set is what a scan of the agents finds |
| IndexAgreement.DestroyHousesIffSettled | arp/server/workspace.go:142-158 | the last section of a destroy leaves every remaining agent housed iff no agent was added since the snapshot |
| IndexAgreement.StepKeepsHoused | arp/server/workspace.go:142-158 | a step of the system keeps all agents housed iff it is not the end of an unsettled destroy |
| IndexAgreement.SettledRunAgrees | arp/server/workspace.go:142-158 | index and scan agree at the end of every run with settled destroys |
| IndexAgreement.AlwaysHousedIffSettled | arp/server/workspace.go:142-158 | all agents are housed at every moment of a run iff every destroy in it was settled |
| Lifecycle.SettledWalksAreRegular | arp/server/agent.go:112-360 | the settled walks of the status graph are exactly the words STARTING (READY or ERROR) (STOPPING STOPPED (READY or ERROR)?)* |
| Sequential.AloneContinues | arp/server/agent.go:240-365 | a step of a run with one RPC at a time leaves every other entry at rest and moves its own along an allowed edge |
| Sequential.SequentialIndexAgrees | arp/server/workspace.go:148-158 | after any sequence of RPCs with arbitrary backend failures every workspace's set equals the scan and every agent sits in a live workspace of its project |
| Sequential.SequentialMessagesAgree | arp/server/server.go:473-487 | after any such sequence a workspace message lists what the administrator's filtered ListAgents lists, in the same order |
| Sequential.HistoryIsWalk | arp/server/agent.go:112-360 | the statuses an entry goes through in a sequential run form a walk of the status graph that ends at its present status |
| Sequential.SequentialHistoriesAreRegular | arp/server/agent.go:112-360 | in sequential runs every agent's status history is a word of the regular language whenever no RPC is in flight |
| Ports.ReadyStopKeepsBooks | arp/server/agent.go:276-292 | a stop begun on a READY agent keeps the port books balanced |
| Ports.OtherStopBreaksBooks | arp/server/agent.go:276-292 | a stop begun on any other agent unbalances them: on a STOPPING one only because two RPCs now share the entry, on any other the ports themselves are no longer conserved |
| PortConservation.StepBooks | arp/server/server.go:312-333 | with honest ports a step keeps the books, which are the ports and one RPC per entry, balanced iff it is disciplined |
| PortConservation.BooksBalanceIffDisciplined | arp/server/server.go:312-333 | in a fair run the books balance at every moment iff every stop began on a READY agent, and every restart whose agent was gone by then on an entry that is down and that nobody works on |
| PortBalance.StepConservesIffProper | arp/server/server.go:312-333 | with honest ports a step keeps usedPorts the disjoint union of the ports of starting, ready, stopping and relaunching agents iff its section is proper, whoever else works on the entry |
| PortBalance.PortsConservedIffProper | arp/server/server.go:312-333 | in an honest run the ports are conserved at every moment iff every section was proper |
| PortBalance.ConservedWhileProper | arp/server/server.go:312-333 | up to the first section that is not proper they are conserved |
| PortBalance.ProperRunSharesNoPort | arp/server/agent.go:87-106 | after proper sections no two agents that run or are being stopped have one port |
| PortBalance.DisciplineIsProper | arp/server/agent.go:276-292 | in a fair disciplined run every section is proper, so the ports are conserved |
| StopHandles.HandleStep | arp/server/agent.go:276-292 | of all sections only a successful launch and the end of a stop write the handle of an entry |
| StopHandles.StopCaptures | arp/server/agent.go:276-279 | the first section of a stop hands the handle it finds to the second |
| StopHandles.StopDropsForeignHandleIffRelaunched | arp/server/agent.go:276-292 | the end of a stop drops a handle other than the one captured and stopped iff a launch put a new process behind the entry in between that no other stop ended since |
| PortConservation.NoSharedPort | arp/server/agent.go:87-106 | in a fair disciplined run no two READY agents share a port |
| Hazards.RepeatedStopFreesLivePort | arp/server/agent.go:286-290 | stopping a STOPPED agent frees its old port although a READY agent has it by now |
| Hazards.OverlappingStopDropsNewHandle | arp/server/agent.go:286-292 | a stop that ends after a whole restart, its own stop included, drops the new handle and frees the new port |
| Hazards.FailedRestartLeavesStaleCard | arp/server/agent.go:337-342 | after a failed relaunch the stored card still shows "stopped" |
| Hazards.SessionDestroyNeedsOneOwnAgent | arp/server/server.go:288-304 | a SESSION token is admitted to a destroy iff one agent of the workspace is of its own session |
| Hazards.SessionDestroysForeignAgent | arp/server/workspace.go:138-141 | it may thereby destroy a workspace holding an agent it may not see |
| HazardRuns.SomeAgentServes | arp/server/agent.go:70-175 | with any configuration that admits the local administrator some run of honest answers, one RPC at a time, leads to an agent READY on any port chosen |
| HazardRuns.RepeatedStopHappens | arp/server/agent.go:286-290 | from any run at rest with a listed agent, stopping, spawning on the freed port and stopping again makes two entries hold one port and then frees it under the READY one |
| HazardRuns.PortsMayBreak | arp/server/server.go:312-333 | there is a sequential run of honest answers with a shared port, neither proper nor disciplined |
| HazardRuns.CleanUpHappens | arp/server/workspace.go:148-150 | from any run at rest, stopping an agent, spawning on its port in another workspace and destroying the first workspace frees the port under the READY agent |
| HazardRuns.CleanUpMayBreak | arp/server/workspace.go:148-150 | there is such a run from the empty server, sequential and of honest answers, neither proper nor disciplined |
| HazardRuns.LateSpawnHappens | arp/server/workspace.go:142-158 | from any run at rest a destroy overtaken by a spawn ends with a READY agent listed under a workspace that is gone; that run is not settled |
| HazardRuns.OverlappingStopHappens | arp/server/agent.go:276-292 | from any run at rest with a listed agent a stop that outlasts a restart drops the new handle while it holds the old one, and frees the port of the new process |
| HazardRuns.StaleCardHappens | arp/server/agent.go:337-342 | from any run at rest with a listed agent a restart that fails leaves it in ERROR with a card that says stopped |
| HazardRuns.ForeignAgentDestroyed | arp/server/workspace.go:138-141 | from any run at rest a SESSION caller with one agent of its own in a workspace destroys another session's agent there, which it is denied otherwise |
| HazardRuns.ForeignAgentHappens | arp/server/server.go:288-304 | two spawns by the administrator make such a caller and such an agent |
| SpawnShape.SpawnBeginShape | arp/server/agent.go:71-132 | the first section of a spawn either enters one STARTING agent under its id in the table and the workspace and reserves one port, or leaves tables and ports as they were |
| Launching.PortChosen | arp/server/server.go:312-329 | the port reserved is the lowest of the range that is neither reserved nor taken; the fallback iff there is none |
| Launching.TemplateChosen | arp/server/agent.go:23-35 | the template is the first of its name in the project, else the server's, else none |
| Launching.SpawnBeginsIff | arp/server/agent.go:71-132 | a spawn begins iff nothing speaks against it, and is refused with the first of six reasons otherwise; then its entry has the id, template, workspace, project, port, token, session and spawner of the call |
| Launching.CardHasIffAdvertises | arp/server/discovery.go:159-183 | the search finds a capability iff some path skills, position, tags, position of the card leads to it |
| Launching.LaunchedIsUp | arp/server/agent.go:161-170 | an agent brought up carries the card fetched from it, or one that advertises exactly its template's tags; url, port, pid and start time are those of the launch; the card shown describes the entry |
| Launching.SpawnBringsUp | arp/server/agent.go:154-170 | the step of a run in which the backend answers a spawn leaves the agent so, and every other entry as it was |
| Launching.RestartBringsUp | arp/server/agent.go:344-359 | the step in which it answers a restart likewise, started now |
| Launching.FallbackNames | arp/server/agent.go:394-421 | the made-up card carries the names and the description of the template |
| Launching.CardDescribes | arp/server/server.go:497-540 | in every reachable state the stored card of a READY, STOPPING or STOPPED agent shows its id, workspace, project, template, status, urls and start time |
| AloneLeaves.StopLeaves | arp/server/agent.go:266-295 | a stop run alone leaves the agent STOPPED without process, its port free, and everything else as it was |
| AloneLeaves.RelaunchLeaves | arp/server/agent.go:321-365 | a relaunch run alone leaves the agent up on the new process, or in ERROR with the port given back |
| AloneLeaves.AutosServe | arp/server/workspace.go:60-64 | the auto agents of a workspace are READY, one for each name in order; after a failure exactly those before it |
| Access.FoundIff | arp/server/agent.go:56-65 | an agent is found by exactly those whose scope reaches its project and, with SESSION permission, whose session it has |
| Access.DestroyAdmittedIff | arp/server/workspace.go:132-141 | a destroy is admitted iff the caller reaches the project and, with SESSION permission, has an own agent in the workspace |
| Access.LookupLetsThroughIff | arp/server/agent.go:240-263 | in every run a stop, restart or destroy gets beyond its lookup iff the caller may see what it names, and goes on with exactly that |
| Access.DestroyEndLeaves | arp/server/workspace.go:152-158 | the end of a destroy removes the ids of the snapshot and the name and nothing else, and marks the entry inactive |
| Access.RegisteredIff | arp/server/project.go:47-66 | an administrator within reach adds or replaces exactly this project; nobody else does |
| Access.UnregisteredIff | arp/server/project.go:79-107 | in every reachable state a project goes iff an administrator within reach asks and every agent of it still listed is STOPPED or ERROR |
| Access.CreatedIff | arp/server/workspace.go:27-58 | a workspace is created empty and active iff its project is registered and within reach and its name is free |
| Access.TokenCreatedIff | arp/server/token.go:26-36 | a token is created iff the caller is administrator and the scope reaches nothing the caller does not; it has no session |
| Listing.SortIdsSorts | arp/server/agent.go:385-392 | the ids come out sorted, each once, none missing |
| Listing.SortedUnique | arp/server/agent.go:385-392 | there is only one sorted list of a set of ids |
| Access.LeIsBefore | arp/server/agent.go:385-392 | the order of ids is: a proper prefix, or smaller at the first difference |
| Access.ListsExactly | arp/server/agent.go:193-219 | in every reachable state ListAgents returns the messages of exactly the agents the caller may see that fit the filters set, each once, in the order of their ids |
| Access.ShownExactly | arp/server/discovery.go:19-36 | in every reachable state local discovery shows exactly the READY agents the caller may see whose card advertises the capability |
| Access.UpIsShownIffOffered | arp/server/agent.go:154-170 | right after a spawn or restart discovery shows the agent for a capability iff its own card has it or, where none could be fetched, its template has the tag |
| Listing.DiscoveryAgreesWithListing | arp/server/discovery.go:19-36 | in every reachable state local discovery returns the stored cards of the READY agents ListAgents returns that have the capability, in the same order |
| Listing.FallbackAdvertisesTags | arp/server/agent.go:394-421 | the card made up for an agent without one advertises exactly its template's tags |
| Listing.WorkspaceMessageAgrees | arp/server/server.go:473-487 | where index and scan agree a workspace message equals the administrator's ListAgents filtered by it, order included |
| ServerObjects.Server.Authenticate | arp/server/server.go:208-236 | the method on the maps in place answers as its section does, which `Credentials.BearerAdmitted`, `AdmittedHoldsToken` and `NoBearerNeedsLoopback` pin down, expiry included |
| ServerObjects.Server.CanSeeAgent | arp/server/server.go:276-284 | the branches compute the visibility rule |
| ServerObjects.Server.WorkspaceVisible | arp/server/server.go:288-304 | the search through the workspace's ids finds an own-session agent iff there is one |
| ServerObjects.Server.AllocPort | arp/server/server.go:312-329 | reserves the first port of the range that is neither reserved nor taken, or else the fallback |
| ServerObjects.Server.ResolveSession | arp/server/agent.go:39-52 | establishes a session on the token at its first spawn and copies it to the caller |
| ServerObjects.Server.IssueToken | arp/server/scope.go:43-90 | the method computes its section, which `Credentials.IssuedAsAsked` pins down: refused iff wider or higher, else the child token as asked, in both indexes |
| ServerObjects.Server.ResolveTemplate | arp/server/agent.go:23-35 | the project's own template of a name shadows the server's |
| ServerObjects.Server.SpawnBegin | arp/server/agent.go:71-132 | the first section of a spawn, error exits included, which give the port back |
| ServerObjects.Server.SpawnFailed | arp/server/agent.go:144-150 | whatever entry now carries the id becomes ERROR and the port is freed |
| ServerObjects.Server.SpawnReady | arp/server/agent.go:161-170 | the method computes its section, which `Launching.LaunchedIsUp` pins down: the entry takes over the handle, the card fetched and READY |
| ServerObjects.Server.StopBegin | arp/server/agent.go:270-279 | the first section of a stop, by id |
| ServerObjects.Server.StopEnd | arp/server/agent.go:286-292 | the last section of a stop, on the entry held since the first |
| ServerObjects.Server.RestartFailed | arp/server/agent.go:337-342 | ERROR, and the new port is freed |
| ServerObjects.Server.RestartReady | arp/server/agent.go:349-357 | likewise on the entry held, started now |
| ServerObjects.Server.CreateWorkspace | arp/server/workspace.go:27-58 | the guards in their order, then a new empty workspace |
| ServerObjects.Server.DestroyEnd | arp/server/workspace.go:152-158 | drops the snapshot's ids and whatever workspace now has the name |
| ServerObjects.Server.RegisterProject | arp/server/project.go:36-67 | administrators in scope register or replace a project |
| ServerObjects.Server.UnregisterProject | arp/server/project.go:71-107 | refused while an active agent of the project is listed |
| ServerObjects.Server.CreateToken | arp/server/token.go:12-41 | the guards in their order, then a token without session |
| ServerObjects.Server.ListAgents | arp/server/agent.go:193-219 | the loop returns the visible agents that pass the filters, in the order of their ids |
| ServerObjects.Server.DiscoverLocal | arp/server/discovery.go:19-36 | the loop returns the enriched cards of the visible running agents with the capability, in the order of their ids |
| Rpcs.SpawnAgentInternal | arp/server/agent.go:70-175 | run alone, a spawn is its first section followed by the section for the backend's answer |
| Rpcs.SpawnAddsOneEntry | arp/server/agent.go:70-175 | run alone, a spawn touches no other entry; its own ends READY with a current card, or ERROR with the port free again |
| Rpcs.StopAgent | arp/server/agent.go:240-295 | run alone, finds, stops and returns the agent |
| Rpcs.RestartAgent | arp/server/agent.go:299-365 | run alone, stops the agent, reserves a port and relaunches the same entry |
| Rpcs.CreateWorkspace | arp/server/workspace.go:15-69 | run alone, creates the workspace and spawns the auto agents up to the first failure |
| Rpcs.DestroyWorkspace | arp/server/workspace.go:124-162 | run alone, stops the agents of the snapshot one by one and removes them and the workspace |
| Rpcs.StopAllStops | arp/server/workspace.go:148-150 | stopping a list of ids stops exactly their agents, whatever they were, and changes no other |
| Rpcs.DestroyClears | arp/server/workspace.go:148-158 | a destroy run alone removes the workspace and exactly its agents, all stopped, and leaves every other agent as it was |
| Rpcs.FillWorkspace | arp/server/workspace.go:59-69 | the auto agents of a new workspace, one spawn after another up to the first failure |
| Segments.StopSegment | arp/server/agent.go:240-295 | a StopAgent on the object, run alone, is a segment of a run that keeps it fresh, sequential and honest |
| Segments.RestartSegment | arp/server/agent.go:299-365 | a RestartAgent likewise, fresh and sequential |
| Segments.SpawnSegment | arp/server/agent.go:70-175 | a SpawnAgent likewise, honest where the backend is |
| Segments.CreateSegment | arp/server/workspace.go:27-69 | a CreateWorkspace with its auto spawns likewise |
| Segments.DestroySegment | arp/server/workspace.go:124-162 | a DestroyWorkspace with all its stops likewise |
| Service.ReachableIsSound | arp/server/agent.go:70-365 | in every state the served object can be in, tokens, entries and indexes are sound, index and scan agree, and every agent is READY, ERROR or STOPPED |
| Service.Started | arp/server/server.go:136-150 | a new server is in the state every run starts from |
| Service.StopAgent | arp/server/agent.go:240-263 | from authentication to answer: the outcome of the RPC, and a state again that some run reaches |
| Service.RestartAgent | arp/server/agent.go:299-365 | likewise |
| Service.SpawnAgent | arp/server/agent.go:70-190 | likewise, if the ids drawn are fresh |
| Service.CreateWorkspace | arp/server/workspace.go:15-69 | likewise, if the ids drawn along the way are fresh |
| Service.DestroyWorkspace | arp/server/workspace.go:124-162 | likewise |
| Service.RegisterProject | arp/server/project.go:36-67 | likewise, refusals included |
| Service.UnregisterProject | arp/server/project.go:71-107 | likewise, refusals included |
| Service.CreateToken | arp/server/token.go:12-41 | likewise, refusals included, if the token drawn is fresh |
| Watching.EventChannel.TrySend | arp/server/server.go:460-465 | a send that never waits: appended, or dropped if 32 are waiting |
| Watching.EventHub.SubscribeAgent | arp/server/server.go:358-369 | a fresh channel under a number never used before |
| Watching.EventHub.UnsubscribeAgent | arp/server/server.go:371-377 | removes this subscription and no other |
| Watching.EventHub.SubscribeWorkspace | arp/server/server.go:379-390 | a fresh channel under a number of the same sequence |
| Watching.EventHub.UnsubscribeWorkspace | arp/server/server.go:392-398 | removes this subscription and no other |
| Watching.EventHub.PublishToAgent | arp/server/server.go:410-420 | the first time under the lock: each subscriber of the agent is offered the event once, nobody else |
| Watching.EventHub.PublishToWorkspace | arp/server/server.go:421-428 | the second time: whoever subscribes to the workspace by now is offered the mirrored event, if the workspace was live and had been subscribed to before |
| Watching.EventHub.PublishAgentEvent | arp/server/server.go:402-429 | with nothing in between, the event to each subscriber of the agent once and, if the workspace is live, the mirrored event to each subscriber of the workspace |
| Watching.ActKeeps | arp/server/discovery.go:78-96 | every action of publishers, stream and client keeps the account of events and the shape of what was sent |
| Watching.WatchDelivers | arp/server/discovery.go:56-98 | whatever the interleaving since the snapshot, the stream has sent the snapshot and then, in order, the events taken; STOPPED only in last place, and then it has ended |
| Watching.EveryEventAccountedFor | arp/server/server.go:460-465 | every event published since the subscription is taken, waiting or dropped exactly once, and at most 32 wait |
| Watching.DropsIffCrowded | arp/server/server.go:460-465 | in every run something is dropped iff some publication while subscribed found 32 events waiting |
| Watching.NothingLostUnlessFull | arp/server/discovery.go:84-95 | if no publication found 32 events waiting the stream took exactly the first events published since it subscribed, up to the first STOPPED |
| Watching.NothingLostIff | arp/server/discovery.go:56-98 | in every run what was published since the snapshot is, in order, what was taken and what waits iff the stream had subscribed before the first publication and no publication found 32 events waiting |
| Watching.StopInTheGapIsMissed | arp/server/discovery.go:71-78 | the input: a STOPPED published between the snapshot and the subscription is not sent and the stream stays open |
| Watching.EveryPublicationCounts | arp/server/discovery.go:78-96 | until it departs a watch accounts for every publication to its agent, as missed or as published since it subscribed |
| Watching.WaitingIsSent | arp/server/discovery.go:84-95 | what waits is sent in order, and the stream ends with the first STOPPED it sends and not before |
| Watching.FinishedIffEnded | arp/server/discovery.go:81-96 | a stream is over iff a send has failed, the client has gone or a STOPPED was taken, and that happens once |
| Watching.SubscribedIff | arp/server/discovery.go:78-83 | it is subscribed from its subscription until it departs, which it does only when it is over |
| Matcher.MatchMeansMatches | internal/runner/evaluator.go:28-95 | the recursion with early returns succeeds iff the order-free meaning holds, for every enumeration order of every nested map; what that is on scalars the next rows say |
| Matcher.MatchIsPathwise | internal/runner/evaluator.go:28-95 | it succeeds iff every leaf path of the expected value leads to a matching value in the actual one |
| Matcher.NumbersMatchIff | internal/runner/evaluator.go:98-105 | numbers match iff they differ by less than 1e-9, strictly |
| Matcher.IntegersMatchIff | internal/runner/evaluator.go:98-105 | so whole numbers match iff they are equal |
| Matcher.ScalarsMatchIff | internal/runner/evaluator.go:70-92 | "*" matches anything, any other string what prints as it does, the rest itself, a malformed number nothing |
| Matcher.ErrorsTruthful | internal/runner/evaluator.go:28-95 | the error reported names a path at which its complaint is true; a missing key is missing from an object that is there |
| Matcher.ReflexiveIffNumbersParse | internal/runner/evaluator.go:79-94 | a value matches itself iff no number in it is malformed |
| Matcher.Transitive | internal/runner/evaluator.go:28-104 | on numbers that are multiples of a step not below the tolerance, with no literal string met by a number or a container, matching is transitive |
| Matcher.FineGridIsNotTransitive | internal/runner/evaluator.go:98-105 | on multiples of any smaller step it is not |
| Matcher.TransitiveIffGridIsWide | internal/runner/evaluator.go:98-105 | so it is transitive on the multiples of a step iff the step is at least 0.000 000 001, written out |
| Matcher.MatchSurvivesExtension | internal/runner/evaluator.go:28-95 | a match in which no literal string met a container is kept when the actual value gains keys or trailing items at any depth |
| Matcher.SurvivesExtensionIffTextMeetsScalars | internal/runner/evaluator.go:28-95 | if one null more in a container shows when it is printed, a match survives every such extension iff no literal string met a container |
| Text.SplitJoin | internal/runner/transport.go:101 | splitting at the separator undoes joining |
| Text.JoinSplit | internal/runner/transport.go:101 | joining undoes splitting |
| Text.AtoiReads | internal/runner/transport.go:108 | Atoi reads exactly the numbers of 64 bits written with an optional sign and digits |
| Interpolation.ResolveJSONPath | internal/runner/transport.go:100-118 | the loop returns what the path leads to, null for whatever is missing |
| Interpolation.ResolveWrittenPath | internal/runner/transport.go:100-118 | a path of dot-free keys and positions, written with dots and resolved, leads back to its value |
| Interpolation.ResolveMissingPath | internal/runner/transport.go:100-118 | a path of keys and positions that leads nowhere resolves to null |
| Interpolation.PositionRead | internal/runner/transport.go:107-112 | a written number is a position of a list iff it is within it; a negative one leads nowhere |
| Interpolation.ReferenceReplaced | internal/runner/transport.go:76-98 | a reference becomes the printed value of its path |
| Interpolation.WrittenReferenceReplaced | internal/runner/transport.go:76-98 | with the syntax written out: "$prev." and the longest run of letters, digits, underscores and dots behind it |
| Interpolation.EmptyReferenceKept | internal/runner/transport.go:76-98 | "$prev." without such a character behind it is kept |
| Interpolation.OtherTextKept | internal/runner/transport.go:76-98 | text without "$prev." is kept |
| Interpolation.SubstituteFillsPieces | internal/runner/transport.go:76-98 | a text is the concatenation of characters to keep and references, found from the text alone, and interpolation fills these in one by one: what is inserted is never looked at |
| Interpolation.InsertedTextNotRescanned | internal/runner/transport.go:76-98 | text in which no reference begins stays, the reference behind it becomes its printed value, and scanning goes on behind that |
| Interpolation.StringsFilledIn | internal/runner/transport.go:76-87 | a string of a payload becomes its pieces filled in, with or without references |
| Interpolation.InterpolateMap | internal/runner/transport.go:68-74 | the loop that fills the fresh map computes the interpolation of the object |
| Interpolation.ResolveInterpolated | internal/runner/transport.go:76-118 | resolving a path in an interpolated payload is interpolating the value resolved, missing paths included |
| Interpolation.RefFreeFixed | internal/runner/transport.go:76-98 | payloads without references are left as they are |
| Interpolation.ShapeKept | internal/runner/transport.go:76-98 | at every path the interpolated payload has the interpolation of what was there, and nothing where nothing was |
| EventStream.ParseSSEStream | internal/runner/jsonrpc_runner.go:334-379 | the scanner loop computes the events of the text up to the first line too long for the scanner, or those finished when the time ran out |
| EventStream.ExpiredIsPrefix | internal/runner/jsonrpc_runner.go:373-378 | a timeout loses events at the end only |
| EventStream.ParseDistributes | internal/runner/jsonrpc_runner.go:334-371 | parsing distributes over concatenation at the end of a block of lines the scanner accepts, and stops for good at a line it does not |
| EventStream.ParsePrinted | internal/mockserver/server.go:270-275 | reading what the mock printed returns exactly the printed objects, and a last block without its blank line or newline is still returned |
| EventStream.CarriageReturnDropped | internal/runner/jsonrpc_runner.go:340-344 | one carriage return at the end of a line is not part of it |
| EventStream.OtherLinesIgnored | internal/runner/jsonrpc_runner.go:358-361 | a line that is neither blank nor begins with "data: " changes nothing |
| EventStream.BlockRead | internal/runner/jsonrpc_runner.go:343-370 | the data lines of a block are joined without a separator and decoded once; what does not decode is skipped |
| ArpMock.AgentIdInjective | internal/mockserver/arp_lifecycle.go:213 | rendered ids are as distinct as the numbers in them |
| MockEffects.AgentIdShows | internal/mockserver/arp_lifecycle.go:213 | an id is "agent-" and the number in at least three digits |
| MockEffects.FirstAgents | internal/mockserver/arp_lifecycle.go:22-30 | the agents of the first workspace are numbered from agent-001 and have the ports from 10001 on |
| MockEffects.ChosenCounts | internal/mockserver/arp_lifecycle.go:204-243 | a template is launched as often as it is asked for times as often as the project lists it |
| MockEffects.WorkspaceOpened | internal/mockserver/arp_lifecycle.go:172-247 | 400 for a missing name or project; else 201, with the agents chosen launched in order under the next ids and ports, each with a delayed step ahead, and no other agent touched |
| MockEffects.WorkspaceClosed | internal/mockserver/arp_lifecycle.go:290-310 | 404 for an unknown one; else 200, and it is gone with exactly its agents |
| MockEffects.ProjectPosted | internal/mockserver/arp_lifecycle.go:58-90 | 400 without a name, 409 for a known one, else 201 and the project is added |
| MockEffects.ProjectDeletedIff | internal/mockserver/arp_lifecycle.go:120-142 | in every reachable state a registered project is deleted (200) iff no workspace of it is left, else 409 |
| MockEffects.AgentPosted | internal/mockserver/arp_lifecycle.go:344-407 | 400 unless workspace and template are named and the workspace is there; else 201 and one agent is launched |
| MockEffects.AgentStopped | internal/mockserver/arp_lifecycle.go:457-473 | 404 or 200; the agent is stopped and nothing else changes |
| MockEffects.AgentRestarted | internal/mockserver/arp_lifecycle.go:475-506 | 404 or 200; the agent starts again on the next port, with a delayed step ahead |
| MockEffects.AgentBecomesReady | internal/mockserver/arp_lifecycle.go:397-404 | a delayed step is used up and readies its agent if that is still there |
| ArpMock.HandleKeeps | internal/mockserver/arp_lifecycle.go:58-504 | every handler and every delayed step keeps the integrity of the state and gives out only new ids |
| ArpMock.MockIntegrity | internal/mockserver/arp_lifecycle.go:58-504 | over every interleaving each workspace's project is registered, each agent's workspace exists, ports are distinct and below the next one, and an agent still starting has a delayed step ahead |
| ArpMock.IdsNeverReused | internal/mockserver/arp_lifecycle.go:213-214 | an agent that is gone never comes back under any later sequence of sections |
| ArpMock.ReadyOverwritesStopped | internal/mockserver/arp_lifecycle.go:397-404 | stopping an agent whose delayed step is pending does not keep it stopped |
| ArpMock.StopSticksIffNothingPending | internal/mockserver/arp_lifecycle.go:457-504 | a stop survives every sequence of sections short of restarting the agent or closing its workspace iff no delayed step is pending for the agent |
| ArpMock.ArpState.CreateProject | internal/mockserver/arp_lifecycle.go:58-95 | the handler computes its section on the maps in place |
| ArpMock.ArpState.RemoveProject | internal/mockserver/arp_lifecycle.go:108-147 | the scan for active workspaces refuses iff there is one |
| ArpMock.ArpState.CreateWorkspace | internal/mockserver/arp_lifecycle.go:172-247 | the nested loops launch one agent per matching template |
| ArpMock.ArpState.RemoveWorkspace | internal/mockserver/arp_lifecycle.go:290-310 | removes the workspace and exactly its agents |
| ArpMock.ArpState.CreateAgent | internal/mockserver/arp_lifecycle.go:344-407 | launches one agent in a workspace that exists |
| ArpMock.ArpState.Stop | internal/mockserver/arp_lifecycle.go:457-476 | the agent is stopped, whatever it was |
| ArpMock.ArpState.BecomesReady | internal/mockserver/arp_lifecycle.go:397-404 | the delayed step makes the agent ready if it is still there, whatever it is by then |
| ArpMock.ArpState.Restart | internal/mockserver/arp_lifecycle.go:478-504 | a new port and a new delayed step |
| Urls.ControlIff | internal/runner/http_runner.go:58-73 | the characters no URL may have are those below 32 and 127 |
| Urls.UnchangedIffPlain | internal/runner/http_runner.go:58-73 | a text put behind the base URL is the path the handler sees iff it has no percent sign, question mark, hash or control character |
| Urls.ParseBehind | internal/runner/http_runner.go:58-73 | unreserved text in front of a path stays in front of it, whatever follows |
| Routes.Translate | internal/runner/mcp_translator.go:130-200 | path, query, body and header are put together step by step as the route says |
| Routes.TranslateCall | internal/runner/mcp_translator.go:107-200 | the method computes the request of `Called`, which the rows below state from the payload on, tool by tool |
| ToolCalls.StopCall | internal/runner/mcp_translator.go:74-79 | any step, references replaced, whose tool is "agent/stop" becomes POST /api/agents/{agent_id}/stop, its other arguments the body |
| ToolCalls.StopCallEnds | internal/runner/mcp_translator.go:134-151 | and comes to the stop of that agent iff the id is plain |
| ToolCalls.RestartCall | internal/runner/mcp_translator.go:80-84 | "agent/restart" likewise becomes POST /api/agents/{agent_id}/restart |
| ToolCalls.RestartCallEnds | internal/runner/mcp_translator.go:134-151 | and comes to the restart of that agent iff the id is plain |
| ToolCalls.UnregisterCall | internal/runner/mcp_translator.go:31-35 | "project/unregister" becomes DELETE /api/projects/{name} |
| ToolCalls.UnregisterCallEnds | internal/runner/mcp_translator.go:134-141 | and comes to deleting that project iff the name is plain |
| ToolCalls.DestroyCall | internal/runner/mcp_translator.go:52-56 | "workspace/destroy" becomes DELETE /api/workspaces/{name} |
| ToolCalls.DestroyCallEnds | internal/runner/mcp_translator.go:134-141 | and comes to deleting that workspace iff the name is plain |
| ToolCalls.RegisterCall | internal/runner/mcp_translator.go:26-30 | "project/register" posts its arguments and ends in the registration of the project with the names of its templates |
| ToolCalls.CreateCall | internal/runner/mcp_translator.go:47-51 | "workspace/create" posts its arguments and ends in the creation of the workspace with its auto agents; what is no text reads as "" |
| ToolCalls.SpawnCallReaches | internal/runner/mcp_translator.go:69-73 | "agent/spawn" posts its arguments and ends in the launch of that template in that workspace |
| ToolCalls.ListProjectsCall | internal/runner/mcp_translator.go:36-39 | "project/list" becomes GET /api/projects |
| ToolCalls.GetProjectCall | internal/runner/mcp_translator.go:40-44 | "project/get" becomes GET /api/projects/{name} |
| ToolCalls.ListWorkspacesCall | internal/runner/mcp_translator.go:57-61 | "workspace/list" becomes GET /api/workspaces with project and status, in this order, as far as given |
| ToolCalls.GetWorkspaceCall | internal/runner/mcp_translator.go:62-66 | "workspace/get" becomes GET /api/workspaces/{name} |
| ToolCalls.ListAgentsCall | internal/runner/mcp_translator.go:85-89 | "agent/list" becomes GET /api/agents with workspace, status and template, in this order, as far as given |
| ToolCalls.AgentStatusCall | internal/runner/mcp_translator.go:90-94 | "agent/status" becomes GET /api/agents/{agent_id} |
| ToolCalls.SendMessageCall | internal/runner/mcp_translator.go:97-102 | "agent/send_message" becomes POST /a2a/agents/{agent_id}/message:send with the other arguments as the body, or with the id where it is the only one |
| ToolCalls.OtherCall | internal/runner/mcp_translator.go:119-128 | any other name, the missing one included, becomes a POST to a path of its own |
| ToolCalls.NamelessSkipped | internal/mockserver/arp_lifecycle.go:210-212 | a template without a name is as good as not there |
| Routes.ResentAsTranslated | internal/runner/http_runner.go:42-46 | the transport's own interpolation leaves the request alone if no reference is left in it |
| Urls.RelocatedParts | internal/mockserver/arp_lifecycle.go:35-40 | the mux redirects to the cleaned parts of the path, which are clean, so that there is no second redirect |
| Urls.DotsCancel | internal/mockserver/arp_lifecycle.go:35-40 | in the cleaned path empty parts and dots are dropped wherever they stand, and two dots take back the step before them or, at the root, nothing |
| Urls.CleanStays | internal/mockserver/arp_lifecycle.go:35-40 | clean parts stay as they are |
| Routes.EndsReach | internal/runner/http_runner.go:58-73 | what any request below a collection comes to in the end: the handler of its decoded path, or that of its cleaned parts if redirects keep the method, or nothing |
| Routes.StopReachesItsAgent | internal/runner/mcp_translator.go:134-151 | for any id, what a stop tool call reaches in terms of its cut and decoded text and, redirects followed, comes to; it comes to the stop of the agent named iff the id is one plain path segment |
| Routes.RestartReachesItsAgent | internal/runner/mcp_translator.go:134-151 | a restart tool call likewise |
| Routes.StopReachesAnother | internal/runner/http_runner.go:58-73 | the id "id/stop?rest" stops the agent "id" |
| Routes.StopTakesDetour | internal/runner/http_runner.go:58-73 | where redirects keep the method, the id "dir/../id" stops the agent "id" |
| Routes.UnregisterReachesItsProject | internal/runner/mcp_translator.go:134-141 | for any name, what an unregister tool call reaches and, redirects followed, comes to; it comes to deleting the project named iff the name is plain and its parts are clean |
| Routes.DestroyReachesItsWorkspace | internal/runner/mcp_translator.go:134-141 | a destroy tool call likewise |
| Routes.UnregisterStopsAtQuery | internal/runner/http_runner.go:58-73 | the name "p?rest" deletes the project "p" |
| Routes.UnregisterDecodes | internal/runner/http_runner.go:58-73 | the name "a%2Fb" deletes the project "a/b" |
| Routes.UnregisterClimbs | internal/runner/http_runner.go:58-73 | where redirects keep the method, the name "../workspaces/ws" deletes the workspace "ws" |
| Routes.RegisterReachesItsHandler | internal/runner/mcp_translator.go:168-180 | a register tool call with any arguments reaches the handler with them as the body |
| Routes.CreateReachesItsHandler | internal/runner/mcp_translator.go:168-180 | a create tool call likewise |
| Routes.SpawnReachesItsHandler | internal/runner/mcp_translator.go:168-180 | a spawn tool call likewise |
| Routes.ToolStopsEveryAgent | internal/mockserver/arp_lifecycle.go:419-476 | in every reachable state of the mock a stop tool call for any of its agents stops that agent, however redirects are answered |

## Left out

- gRPC, HTTP and protobuf plumbing, message clones, metadata parsing and loopback detection: a call carries its bearer and a loopback flag.
- Processes, sockets, health checks and clocks: their results are parameters; timestamps are integers that are only compared.
- The defaults of the configuration, and the shutdown that stops all processes.
- Conversion of agent cards to typed messages: `Config.convert`, some deterministic function.
- The environment, working directory and bearer handed to the backend, and the branch and directory of a workspace: passed on, never looked at.
- The interleaving model does not include the sections that publish events: they change no registry state; `Watching` models them.
- Network-scope discovery, ListWorkspaces, GetWorkspace, GetAgentStatus, ListProjects: easier relatives of what is modelled.
- Seed is modelled only as spawns with a fixed id.
- Rpcs.RestartAgent: the lookups of the workspace's directory are not modelled, nor are concurrent RPCs; those are in Interleaving.
- Watching.EventHub.PublishToWorkspace: the message of the workspace is a parameter; Listing says what it contains.
- The events a spawn or a destroy publishes to the subscribers of a workspace: the same offer to each channel.
- Watching.WatchDelivers: one agent's stream; a WatchWorkspace stream has the same shape and is not modelled.
- Matcher.Transitive: literal strings against numbers are left out, because the printed form of a number depends on its Go type, which the model merges.
- Matcher.SurvivesExtensionIffTextMeetsScalars: of the printing function it is assumed that one null more shows, as it does in the `%v` form, where it makes the text longer.
- `matchExpect`, `mergeResponseData` and the header checks of the runner.
- The regular expression of references is a scanner for `$prev.` followed by path characters; `%v` is an arbitrary function of the value.
- Routes.StopReachesItsAgent: it speaks of the request as translated; the transport interpolates it once more (`Resent`), which changes it only if a reference is left in it. The same holds of the other results on tool calls.
- Floating point: numbers are reals, so NaN, infinities and rounding are not modelled.
- Routes: the reading requests of the mock run no section. Whether net/http redirects with a code that keeps the method (307) or one that does not (301) depends on its version and is a parameter.
