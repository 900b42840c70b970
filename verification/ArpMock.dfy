/**
 * The mock lifecycle server (internal/mockserver/arp_lifecycle.go): each handler is one critical
 * section, and every launch leaves behind a delayed step that marks the agent ready.
 */
module ArpMock {
  import opened Text

  // ---------------------------------------------------------------------------------------------
  // State
  // ---------------------------------------------------------------------------------------------

  /** `templates` are the names in the project's agents list. */
  datatype MockProject = MockProject(templates: seq<string>)

  datatype MockWorkspace = MockWorkspace(project: string, status: string)

  datatype Status = Starting | Ready | Stopped

  datatype MockAgent = MockAgent(template: string, workspace: string, status: Status, port: int)

  /** `pending` are the delayed steps still to come, by the id they will mark ready. */
  datatype MockState = MockState(
    projects: map<string, MockProject>, workspaces: map<string, MockWorkspace>,
    agents: map<string, MockAgent>, nextPort: int, nextAgentN: nat, pending: multiset<string>)

  const FIRST_PORT := 10001

  const EMPTY := MockState(map[], map[], map[], FIRST_PORT, 1, multiset{})

  function AgentId(n: nat): string {
    "agent-" + Pad3(n)
  }

  /** Rendered ids are as distinct as the numbers they show. */
  lemma AgentIdInjective(m: nat, n: nat)
    requires AgentId(m) == AgentId(n)
    ensures m == n
  {
    assert AgentId(m)[6..] == Pad3(m) && AgentId(n)[6..] == Pad3(n);
    ValueOfPad3(m);
    ValueOfPad3(n);
  }

  // ---------------------------------------------------------------------------------------------
  // Handlers
  // ---------------------------------------------------------------------------------------------

  /** A request a handler serves, or the firing of a delayed step. */
  datatype Op =
    | PostProject(name: string, templates: seq<string>)
    | DeleteProject(name: string)
    | PostWorkspace(name: string, project: string, autoAgents: seq<string>)
    | DeleteWorkspace(name: string)
    | PostAgent(workspace: string, template: string)
    | StopAgent(id: string)
    | RestartAgent(id: string)
    | BecomeReady(id: string)

  /** The status code of the response. */
  datatype Outcome = Outcome(s: MockState, code: int)

  function Launch(s: MockState, workspace: string, template: string): MockState {
    var id := AgentId(s.nextAgentN);
    s.(agents := s.agents[id := MockAgent(template, workspace, Starting, s.nextPort)],
       nextAgentN := s.nextAgentN + 1, nextPort := s.nextPort + 1, pending := s.pending + multiset{id})
  }

  /** One agent for each template that carries the name: none, or several if the name repeats. */
  function LaunchNamed(s: MockState, workspace: string, name: string, templates: seq<string>): MockState
    decreases |templates|
  {
    if templates == [] then s
    else
      LaunchNamed(if templates[0] == name then Launch(s, workspace, name) else s, workspace, name, templates[1..])
  }

  function LaunchAll(s: MockState, workspace: string, names: seq<string>, templates: seq<string>): MockState
    decreases |names|
  {
    if names == [] then s
    else LaunchAll(LaunchNamed(s, workspace, names[0], templates), workspace, names[1..], templates)
  }

  function Posted(s: MockState, name: string, templates: seq<string>): Outcome {
    if name == "" then Outcome(s, 400)
    else if name in s.projects then Outcome(s, 409)
    else Outcome(s.(projects := s.projects[name := MockProject(templates)]), 201)
  }

  predicate HasActive(s: MockState, project: string) {
    exists w :: w in s.workspaces && s.workspaces[w].project == project && s.workspaces[w].status == "active"
  }

  function Unregistered(s: MockState, name: string): Outcome {
    if name == "" then Outcome(s, 400)
    else if name !in s.projects then Outcome(s, 404)
    else if HasActive(s, name) then Outcome(s, 409)
    else Outcome(s.(projects := s.projects - {name}), 200)
  }

  /** A workspace of that name is replaced; the agents it had stay. */
  function Opened(s: MockState, name: string, project: string, autoAgents: seq<string>): Outcome {
    if name == "" || project == "" then Outcome(s, 400)
    else if project !in s.projects then Outcome(s, 400)
    else
      var created := s.(workspaces := s.workspaces[name := MockWorkspace(project, "active")]);
      Outcome(LaunchAll(created, name, autoAgents, s.projects[project].templates), 201)
  }

  function Closed(s: MockState, name: string): Outcome {
    if name == "" then Outcome(s, 400)
    else if name !in s.workspaces then Outcome(s, 404)
    else
      Outcome(s.(agents := map id | id in s.agents && s.agents[id].workspace != name :: s.agents[id],
                 workspaces := s.workspaces - {name}), 200)
  }

  function Halt(s: MockState, id: string): Outcome {
    if id !in s.agents then Outcome(s, 404)
    else Outcome(s.(agents := s.agents[id := s.agents[id].(status := Stopped)]), 200)
  }

  function Relaunch(s: MockState, id: string): Outcome {
    if id !in s.agents then Outcome(s, 404)
    else
      Outcome(s.(agents := s.agents[id := s.agents[id].(status := Starting, port := s.nextPort)],
                 nextPort := s.nextPort + 1, pending := s.pending + multiset{id}), 200)
  }

  /** A delayed step; it answers nobody. */
  function Fire(s: MockState, id: string): MockState {
    if id !in s.pending then s
    else if id !in s.agents then s.(pending := s.pending - multiset{id})
    else s.(agents := s.agents[id := s.agents[id].(status := Ready)], pending := s.pending - multiset{id})
  }

  function Handle(s: MockState, op: Op): Outcome {
    match op
    case PostProject(name, templates) => Posted(s, name, templates)
    case DeleteProject(name) => Unregistered(s, name)
    case PostWorkspace(name, project, autoAgents) => Opened(s, name, project, autoAgents)
    case DeleteWorkspace(name) => Closed(s, name)
    case PostAgent(workspace, template) =>
      if workspace == "" || template == "" then Outcome(s, 400)
      else if workspace !in s.workspaces then Outcome(s, 400)
      else Outcome(Launch(s, workspace, template), 201)
    case StopAgent(id) => Halt(s, id)
    case RestartAgent(id) => Relaunch(s, id)
    case BecomeReady(id) => Outcome(Fire(s, id), 0)
  }

  // ---------------------------------------------------------------------------------------------
  // Integrity
  // ---------------------------------------------------------------------------------------------

  /** One of the ids rendered before the counter reached `next`. */
  ghost predicate GivenOut(next: nat, id: string) {
    exists n :: 1 <= n < next && id == AgentId(n)
  }

  ghost predicate PortsDistinct(agents: map<string, MockAgent>) {
    forall a, b | a in agents && b in agents && a != b :: agents[a].port != agents[b].port
  }

  ghost predicate AgentFine(s: MockState, id: string)
    requires id in s.agents
  {
    && s.agents[id].workspace in s.workspaces
    && GivenOut(s.nextAgentN, id)
    && FIRST_PORT <= s.agents[id].port < s.nextPort
    && (s.agents[id].status.Starting? ==> id in s.pending)
  }

  ghost predicate Integrity(s: MockState) {
    && (forall w | w in s.workspaces :: s.workspaces[w].project in s.projects && s.workspaces[w].status == "active")
    && (forall id | id in s.agents :: AgentFine(s, id))
    && (forall id | id in s.pending :: GivenOut(s.nextAgentN, id))
    && PortsDistinct(s.agents)
  }

  /** What a section may do to the numbering; ids once given out stay given out. */
  ghost predicate Advances(s: MockState, s': MockState) {
    && s.nextAgentN <= s'.nextAgentN && s.nextPort <= s'.nextPort
    && (forall id | id in s'.agents && id !in s.agents :: !GivenOut(s.nextAgentN, id))
  }

  lemma NextIdNew(next: nat)
    ensures !GivenOut(next, AgentId(next))
  {
    if GivenOut(next, AgentId(next)) {
      var n :| 1 <= n < next && AgentId(next) == AgentId(n);
      AgentIdInjective(n, next);
    }
  }

  lemma KnownStays(next: nat, next': nat, id: string)
    requires GivenOut(next, id) && next <= next'
    ensures GivenOut(next', id)
  {
    var n :| 1 <= n < next && id == AgentId(n);
    assert n < next';
  }

  lemma LaunchKeeps(s: MockState, workspace: string, template: string)
    requires Integrity(s) && workspace in s.workspaces && s.nextAgentN >= 1 && s.nextPort >= FIRST_PORT
    ensures Integrity(Launch(s, workspace, template)) && Advances(s, Launch(s, workspace, template))
  {
    var s' := Launch(s, workspace, template);
    NextIdNew(s.nextAgentN);
    assert GivenOut(s'.nextAgentN, AgentId(s.nextAgentN));
    forall id | GivenOut(s.nextAgentN, id) ensures GivenOut(s'.nextAgentN, id) {
      KnownStays(s.nextAgentN, s'.nextAgentN, id);
    }
  }

  lemma AdvancesTransitive(s: MockState, m: MockState, s': MockState)
    requires Advances(s, m) && Advances(m, s')
    ensures Advances(s, s')
  {
    forall id | id in s'.agents && id !in s.agents ensures !GivenOut(s.nextAgentN, id) {
      if id !in m.agents && GivenOut(s.nextAgentN, id) {
        KnownStays(s.nextAgentN, m.nextAgentN, id);
      }
    }
  }

  ghost predicate Sound(s: MockState) {
    Integrity(s) && s.nextAgentN >= 1 && s.nextPort >= FIRST_PORT
  }

  lemma {:induction false} LaunchNamedKeeps(s: MockState, workspace: string, name: string, templates: seq<string>)
    requires Sound(s) && workspace in s.workspaces
    ensures
      var s' := LaunchNamed(s, workspace, name, templates);
      Sound(s') && Advances(s, s') && s'.workspaces == s.workspaces
    decreases |templates|
  {
    if templates != [] {
      var m := if templates[0] == name then Launch(s, workspace, name) else s;
      if templates[0] == name {
        LaunchKeeps(s, workspace, name);
      }
      LaunchNamedKeeps(m, workspace, name, templates[1..]);
      AdvancesTransitive(s, m, LaunchNamed(s, workspace, name, templates));
    }
  }

  lemma {:induction false} LaunchAllKeeps(s: MockState, workspace: string, names: seq<string>, templates: seq<string>)
    requires Sound(s) && workspace in s.workspaces
    ensures
      var s' := LaunchAll(s, workspace, names, templates);
      Sound(s') && Advances(s, s')
    decreases |names|
  {
    if names != [] {
      LaunchNamedKeeps(s, workspace, names[0], templates);
      var m := LaunchNamed(s, workspace, names[0], templates);
      LaunchAllKeeps(m, workspace, names[1..], templates);
      AdvancesTransitive(s, m, LaunchAll(s, workspace, names, templates));
    }
  }

  lemma OpenedKeeps(s: MockState, name: string, project: string, autoAgents: seq<string>)
    requires Sound(s)
    ensures Sound(Opened(s, name, project, autoAgents).s) && Advances(s, Opened(s, name, project, autoAgents).s)
  {
    if name != "" && project in s.projects {
      var created := s.(workspaces := s.workspaces[name := MockWorkspace(project, "active")]);
      LaunchAllKeeps(created, name, autoAgents, s.projects[project].templates);
      AdvancesTransitive(s, created, LaunchAll(created, name, autoAgents, s.projects[project].templates));
    }
  }

  lemma ClosedKeeps(s: MockState, name: string)
    requires Sound(s)
    ensures Sound(Closed(s, name).s) && Advances(s, Closed(s, name).s)
  {
  }

  lemma RelaunchKeeps(s: MockState, id: string)
    requires Sound(s)
    ensures Sound(Relaunch(s, id).s) && Advances(s, Relaunch(s, id).s)
  {
  }

  lemma FireKeeps(s: MockState, id: string)
    requires Sound(s)
    ensures Sound(Fire(s, id)) && Advances(s, Fire(s, id))
  {
    var s' := Fire(s, id);
    if id in s.pending {
      forall other | other in s'.agents ensures AgentFine(s', other) {
        assert AgentFine(s, other);
      }
    }
  }

  lemma HaltKeeps(s: MockState, id: string)
    requires Sound(s)
    ensures Sound(Halt(s, id).s) && Advances(s, Halt(s, id).s)
  {
  }

  lemma PostedKeeps(s: MockState, name: string, templates: seq<string>)
    requires Sound(s)
    ensures Sound(Posted(s, name, templates).s) && Advances(s, Posted(s, name, templates).s)
  {
    var s' := Posted(s, name, templates).s;
    assert forall id | id in s.agents :: AgentFine(s', id);
  }

  lemma UnregisteredKeeps(s: MockState, name: string)
    requires Sound(s)
    ensures Sound(Unregistered(s, name).s) && Advances(s, Unregistered(s, name).s)
  {
    var s' := Unregistered(s, name).s;
    if s' != s {
      forall id | id in s.agents ensures AgentFine(s', id) {
        assert AgentFine(s, id);
      }
      forall w | w in s.workspaces ensures s.workspaces[w].project in s'.projects {
        assert s.workspaces[w].project != name;
      }
    }
  }

  lemma HandleKeeps(s: MockState, op: Op)
    requires Sound(s)
    ensures Sound(Handle(s, op).s) && Advances(s, Handle(s, op).s)
  {
    match op
    case PostProject(name, templates) => PostedKeeps(s, name, templates);
    case DeleteProject(name) => UnregisteredKeeps(s, name);
    case PostWorkspace(name, project, autoAgents) => OpenedKeeps(s, name, project, autoAgents);
    case DeleteWorkspace(name) => ClosedKeeps(s, name);
    case PostAgent(workspace, template) =>
      if workspace in s.workspaces {
        LaunchKeeps(s, workspace, template);
      }
    case StopAgent(id) => HaltKeeps(s, id);
    case RestartAgent(id) => RelaunchKeeps(s, id);
    case BecomeReady(id) => FireKeeps(s, id);
  }

  /** The server after a sequence of sections, in whatever order they got the lock. */
  function After(s: MockState, ops: seq<Op>): MockState
    decreases |ops|
  {
    if ops == [] then s else After(Handle(s, ops[0]).s, ops[1..])
  }

  lemma {:induction false} AfterKeeps(s: MockState, ops: seq<Op>)
    requires Sound(s)
    ensures Sound(After(s, ops))
    decreases |ops|
  {
    if ops != [] {
      HandleKeeps(s, ops[0]);
      AfterKeeps(Handle(s, ops[0]).s, ops[1..]);
    }
  }

  lemma {:induction false} AfterConcat(s: MockState, xs: seq<Op>, ys: seq<Op>)
    ensures After(s, xs + ys) == After(After(s, xs), ys)
    decreases |xs|
  {
    if xs == [] {
      assert xs + ys == ys;
    } else {
      assert (xs + ys)[1..] == xs[1..] + ys;
      AfterConcat(Handle(s, xs[0]).s, xs[1..], ys);
    }
  }

  /**
   * Integrity under every interleaving of requests and delayed steps: each workspace's project is
   * registered, each agent's workspace exists, every id in use was given out, all agents' ports
   * are distinct and below the next one, restarts included, and an agent still starting has a
   * delayed step ahead of it.
   */
  lemma MockIntegrity(ops: seq<Op>)
    ensures Integrity(After(EMPTY, ops))
  {
    AfterKeeps(EMPTY, ops);
  }

  lemma {:induction false} GoneStaysGone(s: MockState, ops: seq<Op>, id: string)
    requires Sound(s) && GivenOut(s.nextAgentN, id) && id !in s.agents
    ensures id !in After(s, ops).agents
    decreases |ops|
  {
    if ops != [] {
      HandleKeeps(s, ops[0]);
      var s' := Handle(s, ops[0]).s;
      KnownStays(s.nextAgentN, s'.nextAgentN, id);
      GoneStaysGone(s', ops[1..], id);
    }
  }

  /** No id is ever used again: an agent that was there and is gone never comes back. */
  lemma IdsNeverReused(xs: seq<Op>, ys: seq<Op>, zs: seq<Op>, id: string)
    requires id in After(EMPTY, xs).agents && id !in After(EMPTY, xs + ys).agents
    ensures id !in After(EMPTY, xs + ys + zs).agents
  {
    AfterKeeps(EMPTY, xs);
    AfterKeeps(EMPTY, xs + ys);
    AfterConcat(EMPTY, xs, ys);
    AfterConcat(EMPTY, xs + ys, zs);
    NumberingGrows(After(EMPTY, xs), ys);
    KnownStays(After(EMPTY, xs).nextAgentN, After(EMPTY, xs + ys).nextAgentN, id);
    GoneStaysGone(After(EMPTY, xs + ys), zs, id);
  }

  lemma {:induction false} NumberingGrows(s: MockState, ops: seq<Op>)
    requires Sound(s)
    ensures s.nextAgentN <= After(s, ops).nextAgentN
    decreases |ops|
  {
    if ops != [] {
      HandleKeeps(s, ops[0]);
      NumberingGrows(Handle(s, ops[0]).s, ops[1..]);
    }
  }

  /**
   * A delayed step does not look at the status it overwrites: stopping an agent whose launch is
   * still pending does not keep it stopped.
   */
  lemma ReadyOverwritesStopped(s: MockState, id: string)
    requires id in s.agents && id in s.pending
    ensures id in After(s, [StopAgent(id)]).agents && id in After(s, [StopAgent(id), BecomeReady(id)]).agents
    ensures After(s, [StopAgent(id)]).agents[id].status == Stopped
    ensures After(s, [StopAgent(id), BecomeReady(id)]).agents[id].status == Ready
  {
    assert [StopAgent(id)][1..] == [];
    assert [StopAgent(id), BecomeReady(id)][1..] == [BecomeReady(id)];
    assert [BecomeReady(id)][1..] == [];
    var s1 := Handle(s, StopAgent(id)).s;
    assert After(s1, []) == s1;
    var s2 := Handle(s1, BecomeReady(id)).s;
    assert After(s2, []) == s2;
  }

  ghost predicate StoppedIn(s: MockState, id: string) {
    id in s.agents && s.agents[id].status.Stopped?
  }

  /** Neither restarts the agent nor closes its workspace. */
  ghost predicate Spares(ops: seq<Op>, id: string, workspace: string) {
    forall op | op in ops :: op != RestartAgent(id) && op != DeleteWorkspace(workspace)
  }

  /** Stopped for good, as long as nobody restarts it. */
  ghost predicate AtRest(s: MockState, id: string, workspace: string) {
    StoppedIn(s, id) && s.agents[id].workspace == workspace && id !in s.pending && GivenOut(s.nextAgentN, id)
  }

  lemma LaunchSpares(s: MockState, workspace: string, template: string, id: string, home: string)
    requires AtRest(s, id, home)
    ensures AtRest(Launch(s, workspace, template), id, home)
  {
    NextIdNew(s.nextAgentN);
    KnownStays(s.nextAgentN, s.nextAgentN + 1, id);
  }

  lemma {:induction false} LaunchNamedSpares(s: MockState, workspace: string, name: string, templates: seq<string>,
                                             id: string, home: string)
    requires AtRest(s, id, home)
    ensures AtRest(LaunchNamed(s, workspace, name, templates), id, home)
    decreases |templates|
  {
    if templates != [] {
      if templates[0] == name {
        LaunchSpares(s, workspace, name, id, home);
      }
      var m := if templates[0] == name then Launch(s, workspace, name) else s;
      LaunchNamedSpares(m, workspace, name, templates[1..], id, home);
    }
  }

  lemma {:induction false} LaunchAllSpares(s: MockState, workspace: string, names: seq<string>, templates: seq<string>,
                                           id: string, home: string)
    requires AtRest(s, id, home)
    ensures AtRest(LaunchAll(s, workspace, names, templates), id, home)
    decreases |names|
  {
    if names != [] {
      LaunchNamedSpares(s, workspace, names[0], templates, id, home);
      LaunchAllSpares(LaunchNamed(s, workspace, names[0], templates), workspace, names[1..], templates, id, home);
    }
  }

  lemma HandleSpares(s: MockState, op: Op, id: string, home: string)
    requires AtRest(s, id, home) && op != RestartAgent(id) && op != DeleteWorkspace(home)
    ensures AtRest(Handle(s, op).s, id, home)
  {
    match op
    case PostWorkspace(name, project, autoAgents) =>
      if name != "" && project in s.projects {
        var created := s.(workspaces := s.workspaces[name := MockWorkspace(project, "active")]);
        LaunchAllSpares(created, name, autoAgents, s.projects[project].templates, id, home);
      }
    case PostAgent(workspace, template) => LaunchSpares(s, workspace, template, id, home);
    case _ =>
  }

  lemma {:induction false} OthersSpareStopped(s: MockState, ops: seq<Op>, id: string, home: string)
    requires AtRest(s, id, home) && Spares(ops, id, home)
    ensures StoppedIn(After(s, ops), id)
    decreases |ops|
  {
    if ops != [] {
      assert ops[0] in ops && forall op | op in ops[1..] :: op in ops;
      HandleSpares(s, ops[0], id, home);
      OthersSpareStopped(Handle(s, ops[0]).s, ops[1..], id, home);
    }
  }

  /**
   * When a stop sticks: whatever sections run after it, short of restarting the agent or closing
   * its workspace, exactly if no delayed step is pending for the agent.
   */
  lemma StopSticksIffNothingPending(s: MockState, id: string)
    requires Sound(s) && id in s.agents
    ensures (forall ops | Spares(ops, id, s.agents[id].workspace) :: StoppedIn(After(s, [StopAgent(id)] + ops), id))
            <==> id !in s.pending
  {
    var home := s.agents[id].workspace;
    assert AgentFine(s, id);
    if id in s.pending {
      ReadyOverwritesStopped(s, id);
      assert Spares([BecomeReady(id)], id, home);
      assert [StopAgent(id)] + [BecomeReady(id)] == [StopAgent(id), BecomeReady(id)];
    } else {
      forall ops | Spares(ops, id, home) ensures StoppedIn(After(s, [StopAgent(id)] + ops), id) {
        assert ([StopAgent(id)] + ops)[1..] == ops;
        OthersSpareStopped(Handle(s, StopAgent(id)).s, ops, id, home);
      }
    }
  }

  // ---------------------------------------------------------------------------------------------
  // The handlers in place
  // ---------------------------------------------------------------------------------------------

  class ArpState {
    var projects: map<string, MockProject>
    var workspaces: map<string, MockWorkspace>
    var agents: map<string, MockAgent>
    var nextPort: int
    var nextAgentN: nat
    var pending: multiset<string>

    ghost function Abs(): MockState
      reads this
    {
      MockState(projects, workspaces, agents, nextPort, nextAgentN, pending)
    }

    constructor ()
      ensures Abs() == EMPTY
    {
      projects, workspaces, agents := map[], map[], map[];
      nextPort, nextAgentN, pending := FIRST_PORT, 1, multiset{};
    }

    method CreateProject(name: string, templates: seq<string>) returns (code: int)
      modifies this
      ensures Handle(old(Abs()), PostProject(name, templates)) == Outcome(Abs(), code)
    {
      if name == "" {
        return 400;
      }
      if name in projects {
        return 409;
      }
      projects := projects[name := MockProject(templates)];
      return 201;
    }

    method RemoveProject(name: string) returns (code: int)
      modifies this
      ensures Handle(old(Abs()), DeleteProject(name)) == Outcome(Abs(), code)
    {
      if name == "" {
        return 400;
      }
      if name !in projects {
        return 404;
      }
      var names := workspaces.Keys;
      while names != {}
        invariant names <= workspaces.Keys
        invariant forall w | w in workspaces.Keys - names ::
                    !(workspaces[w].project == name && workspaces[w].status == "active")
        decreases names
      {
        var w :| w in names;
        if workspaces[w].project == name && workspaces[w].status == "active" {
          assert HasActive(Abs(), name);
          return 409;
        }
        names := names - {w};
      }
      projects := projects - {name};
      return 200;
    }

    method LaunchAgent(workspace: string, template: string) returns (id: string)
      modifies this
      ensures Abs() == Launch(old(Abs()), workspace, template) && id == AgentId(old(nextAgentN))
    {
      id := AgentId(nextAgentN);
      nextAgentN := nextAgentN + 1;
      var port := nextPort;
      nextPort := nextPort + 1;
      agents := agents[id := MockAgent(template, workspace, Starting, port)];
      pending := pending + multiset{id};
    }

    method CreateWorkspace(name: string, project: string, autoAgents: seq<string>) returns (code: int)
      modifies this
      ensures Handle(old(Abs()), PostWorkspace(name, project, autoAgents)) == Outcome(Abs(), code)
    {
      if name == "" || project == "" {
        return 400;
      }
      if project !in projects {
        return 400;
      }
      workspaces := workspaces[name := MockWorkspace(project, "active")];
      var templates := projects[project].templates;
      ghost var created := Abs();
      for i := 0 to |autoAgents|
        invariant LaunchAll(Abs(), name, autoAgents[i..], templates) == LaunchAll(created, name, autoAgents, templates)
      {
        assert autoAgents[i..][1..] == autoAgents[i + 1..];
        ghost var here := Abs();
        for j := 0 to |templates|
          invariant LaunchNamed(Abs(), name, autoAgents[i], templates[j..])
                    == LaunchNamed(here, name, autoAgents[i], templates)
        {
          assert templates[j..][1..] == templates[j + 1..];
          if templates[j] == autoAgents[i] {
            var id := LaunchAgent(name, autoAgents[i]);
          }
        }
        assert templates[|templates|..] == [];
      }
      assert autoAgents[|autoAgents|..] == [];
      return 201;
    }

    method RemoveWorkspace(name: string) returns (code: int)
      modifies this
      ensures Handle(old(Abs()), DeleteWorkspace(name)) == Outcome(Abs(), code)
    {
      if name == "" {
        return 400;
      }
      if name !in workspaces {
        return 404;
      }
      var ids := agents.Keys;
      while ids != {}
        modifies `agents
        invariant ids <= old(agents).Keys
        invariant agents ==
                  map id | id in old(agents) && (id in ids || old(agents)[id].workspace != name) :: old(agents)[id]
        decreases ids
      {
        var id :| id in ids;
        if agents[id].workspace == name {
          agents := agents - {id};
        }
        ids := ids - {id};
      }
      workspaces := workspaces - {name};
      assert agents == Closed(old(Abs()), name).s.agents;
      return 200;
    }

    method CreateAgent(workspace: string, template: string) returns (code: int)
      modifies this
      ensures Handle(old(Abs()), PostAgent(workspace, template)) == Outcome(Abs(), code)
    {
      if workspace == "" || template == "" {
        return 400;
      }
      if workspace !in workspaces {
        return 400;
      }
      var id := LaunchAgent(workspace, template);
      return 201;
    }

    method Stop(id: string) returns (code: int)
      modifies this
      ensures Handle(old(Abs()), StopAgent(id)) == Outcome(Abs(), code)
    {
      if id !in agents {
        return 404;
      }
      agents := agents[id := agents[id].(status := Stopped)];
      return 200;
    }

    method Restart(id: string) returns (code: int)
      modifies this
      ensures Handle(old(Abs()), RestartAgent(id)) == Outcome(Abs(), code)
    {
      if id !in agents {
        return 404;
      }
      var newPort := nextPort;
      nextPort := nextPort + 1;
      agents := agents[id := agents[id].(status := Starting, port := newPort)];
      pending := pending + multiset{id};
      return 200;
    }

    /** The delayed step of a launch. */
    method BecomesReady(id: string)
      requires id in pending
      modifies this
      ensures Abs() == Handle(old(Abs()), BecomeReady(id)).s
    {
      pending := pending - multiset{id};
      if id in agents {
        agents := agents[id := agents[id].(status := Status.Ready)];
      }
    }
  }
}
