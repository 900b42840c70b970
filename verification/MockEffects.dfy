/**
 * What each request to the mock lifecycle server is answered and what it leaves, field by field:
 * which agents a new workspace gets, and what stops, restarts and deletions take away.
 */
module MockEffects {
  import opened Text
  import opened ArpMock

  // ---------------------------------------------------------------------------------------------
  // Numbering
  // ---------------------------------------------------------------------------------------------

  /** "agent-" and the number in at least three digits. */
  lemma AgentIdShows(n: nat)
    ensures
      var id := AgentId(n);
      && "agent-" <= id && AllDigits(id[6..]) && Value(id[6..]) == n
      && if n < 1000 then |id| == 9 else |id| > 9 && id[6] != '0'
  {
    assert AgentId(n)[6..] == Pad3(n);
    ValueOfPad3(n);
    Pad3Length(n);
  }

  // ---------------------------------------------------------------------------------------------
  // Rows of launches
  // ---------------------------------------------------------------------------------------------

  function LaunchRow(s: MockState, workspace: string, chosen: seq<string>): MockState
    decreases |chosen|
  {
    if chosen == [] then s else LaunchRow(Launch(s, workspace, chosen[0]), workspace, chosen[1..])
  }

  ghost predicate IsNew(n: nat, count: nat, id: string) {
    exists j :: n <= j < n + count && id == AgentId(j)
  }

  /** The `k`-th of the row is there, starting, under the next number and on the next port. */
  ghost predicate StartsAt(s: MockState, workspace: string, chosen: seq<string>, k: nat, s': MockState)
    requires k < |chosen|
  {
    var id := AgentId(s.nextAgentN + k);
    id in s'.agents && s'.agents[id] == MockAgent(chosen[k], workspace, Starting, s.nextPort + k)
  }

  ghost predicate SameAgent(s: MockState, id: string, s': MockState) {
    (id in s'.agents <==> id in s.agents) && (id in s.agents ==> id in s'.agents && s'.agents[id] == s.agents[id])
  }

  function Ids(n: nat, count: nat): multiset<string>
    decreases count
  {
    if count == 0 then multiset{} else multiset{AgentId(n)} + Ids(n + 1, count - 1)
  }

  /** The agents chosen have been launched in order, each with a delayed step ahead, and nothing else is changed. */
  ghost predicate Launched(s: MockState, workspace: string, chosen: seq<string>, s': MockState) {
    && s'.projects == s.projects && s'.workspaces == s.workspaces
    && s'.nextAgentN == s.nextAgentN + |chosen| && s'.nextPort == s.nextPort + |chosen|
    && s'.pending == s.pending + Ids(s.nextAgentN, |chosen|)
    && (forall k | 0 <= k < |chosen| :: StartsAt(s, workspace, chosen, k, s'))
    && (forall id | !IsNew(s.nextAgentN, |chosen|, id) :: SameAgent(s, id, s'))
  }

  lemma FirstIsNotLater(n: nat, count: nat)
    ensures !IsNew(n + 1, count, AgentId(n))
  {
    if IsNew(n + 1, count, AgentId(n)) {
      var j :| n + 1 <= j < n + 1 + count && AgentId(n) == AgentId(j);
      AgentIdInjective(n, j);
    }
  }

  lemma NewAfterFirst(n: nat, count: nat, id: string)
    ensures IsNew(n, count + 1, id) <==> id == AgentId(n) || IsNew(n + 1, count, id)
  {
  }

  lemma FirstStarts(s: MockState, workspace: string, chosen: seq<string>, s': MockState)
    requires chosen != [] && SameAgent(Launch(s, workspace, chosen[0]), AgentId(s.nextAgentN), s')
    ensures StartsAt(s, workspace, chosen, 0, s')
  {
  }

  lemma LaterStarts(s: MockState, workspace: string, chosen: seq<string>, k: nat, s': MockState)
    requires 0 < k < |chosen| && StartsAt(Launch(s, workspace, chosen[0]), workspace, chosen[1..], k - 1, s')
    ensures StartsAt(s, workspace, chosen, k, s')
  {
    assert Launch(s, workspace, chosen[0]).nextAgentN + (k - 1) == s.nextAgentN + k;
  }

  lemma OthersSame(s: MockState, workspace: string, template: string, id: string, s': MockState)
    requires id != AgentId(s.nextAgentN) && SameAgent(Launch(s, workspace, template), id, s')
    ensures SameAgent(s, id, s')
  {
  }

  lemma FirstThenRow(s: MockState, workspace: string, chosen: seq<string>, s': MockState)
    requires chosen != [] && Launched(Launch(s, workspace, chosen[0]), workspace, chosen[1..], s')
    ensures Launched(s, workspace, chosen, s')
  {
    var m, n, rest := Launch(s, workspace, chosen[0]), s.nextAgentN, |chosen| - 1;
    forall k | 0 <= k < |chosen| ensures StartsAt(s, workspace, chosen, k, s') {
      if k == 0 {
        FirstIsNotLater(n, rest);
        assert !IsNew(m.nextAgentN, rest, AgentId(n));
        FirstStarts(s, workspace, chosen, s');
      } else {
        LaterStarts(s, workspace, chosen, k, s');
      }
    }
    forall id | !IsNew(n, |chosen|, id) ensures SameAgent(s, id, s') {
      NewAfterFirst(n, rest, id);
      assert !IsNew(m.nextAgentN, rest, id);
      OthersSame(s, workspace, chosen[0], id, s');
    }
  }

  lemma {:induction false} RowLaunches(s: MockState, workspace: string, chosen: seq<string>)
    ensures Launched(s, workspace, chosen, LaunchRow(s, workspace, chosen))
    decreases |chosen|
  {
    if chosen != [] {
      RowLaunches(Launch(s, workspace, chosen[0]), workspace, chosen[1..]);
      FirstThenRow(s, workspace, chosen, LaunchRow(s, workspace, chosen));
    }
  }

  lemma {:induction false} RowConcat(s: MockState, workspace: string, xs: seq<string>, ys: seq<string>)
    ensures LaunchRow(s, workspace, xs + ys) == LaunchRow(LaunchRow(s, workspace, xs), workspace, ys)
    decreases |xs|
  {
    if xs == [] {
      assert xs + ys == ys;
    } else {
      assert (xs + ys)[1..] == xs[1..] + ys;
      RowConcat(Launch(s, workspace, xs[0]), workspace, xs[1..], ys);
    }
  }

  // ---------------------------------------------------------------------------------------------
  // Which agents a workspace gets
  // ---------------------------------------------------------------------------------------------

  function Times(name: string, count: nat): seq<string> {
    seq(count, _ => name)
  }

  /** Each name as often as the project lists a template of that name, in the order of the names. */
  function Chosen(names: seq<string>, templates: seq<string>): seq<string> {
    if names == [] then [] else Times(names[0], multiset(templates)[names[0]]) + Chosen(names[1..], templates)
  }

  lemma {:induction false} NamedIsRow(s: MockState, workspace: string, name: string, templates: seq<string>)
    ensures LaunchNamed(s, workspace, name, templates)
            == LaunchRow(s, workspace, Times(name, multiset(templates)[name]))
    decreases |templates|
  {
    if templates != [] {
      var rest := multiset(templates[1..])[name];
      assert multiset(templates)[name] == rest + if templates[0] == name then 1 else 0 by {
        assert templates == [templates[0]] + templates[1..];
      }
      if templates[0] == name {
        assert Times(name, rest + 1)[1..] == Times(name, rest);
        NamedIsRow(Launch(s, workspace, name), workspace, name, templates[1..]);
      } else {
        NamedIsRow(s, workspace, name, templates[1..]);
      }
    }
  }

  lemma {:induction false} AllIsRow(s: MockState, workspace: string, names: seq<string>, templates: seq<string>)
    ensures LaunchAll(s, workspace, names, templates) == LaunchRow(s, workspace, Chosen(names, templates))
    decreases |names|
  {
    if names != [] {
      var first := Times(names[0], multiset(templates)[names[0]]);
      NamedIsRow(s, workspace, names[0], templates);
      AllIsRow(LaunchNamed(s, workspace, names[0], templates), workspace, names[1..], templates);
      RowConcat(s, workspace, first, Chosen(names[1..], templates));
    }
  }

  /** How often a template is launched: as often as it is asked for, times as often as the project lists it. */
  lemma {:induction false} ChosenCounts(names: seq<string>, templates: seq<string>, name: string)
    ensures multiset(Chosen(names, templates))[name] == multiset(names)[name] * multiset(templates)[name]
    decreases |names|
  {
    if names != [] {
      var asked, listed := multiset(names[1..])[name], multiset(templates)[name];
      ChosenCounts(names[1..], templates, name);
      TimesCounts(names[0], multiset(templates)[names[0]], name);
      assert multiset(names) == multiset{names[0]} + multiset(names[1..]) by {
        assert names == [names[0]] + names[1..];
      }
      OneMoreTime(asked, listed);
    }
  }

  lemma OneMoreTime(asked: nat, listed: nat)
    ensures (asked + 1) * listed == asked * listed + listed
  {
  }

  lemma {:induction false} TimesCounts(name: string, count: nat, other: string)
    ensures multiset(Times(name, count))[other] == if other == name then count else 0
  {
    if count > 0 {
      TimesCounts(name, count - 1, other);
      assert Times(name, count) == Times(name, count - 1) + [name];
    }
  }

  // ---------------------------------------------------------------------------------------------
  // Requests
  // ---------------------------------------------------------------------------------------------

  lemma ProjectPosted(s: MockState, name: string, templates: seq<string>)
    ensures
      var o := Handle(s, PostProject(name, templates));
      if name == "" then o == Outcome(s, 400)
      else if name in s.projects then o == Outcome(s, 409)
      else
        && o.code == 201 && o.s == s.(projects := o.s.projects)
        && name in o.s.projects && o.s.projects[name] == MockProject(templates)
        && (forall n | n != name :: n in o.s.projects <==> n in s.projects)
        && (forall n | n in s.projects :: o.s.projects[n] == s.projects[n])
  {
  }

  /** A project goes, in every reachable state, exactly if no workspace of it is left. */
  lemma ProjectDeletedIff(ops: seq<Op>, name: string)
    ensures
      var s, o := After(EMPTY, ops), Handle(After(EMPTY, ops), DeleteProject(name));
      if name !in s.projects then o == Outcome(s, if name == "" then 400 else 404)
      else if exists w :: w in s.workspaces && s.workspaces[w].project == name then o == Outcome(s, 409)
      else
        && o.code == 200 && o.s == s.(projects := o.s.projects)
        && (forall n :: n in o.s.projects <==> n in s.projects && n != name)
        && (forall n | n in o.s.projects :: o.s.projects[n] == s.projects[n])
  {
    MockIntegrity(ops);
    NoNamelessProject(EMPTY, ops);
  }

  lemma {:induction false} LaunchesOnly(s: MockState, workspace: string, names: seq<string>, templates: seq<string>)
    ensures LaunchAll(s, workspace, names, templates).projects == s.projects
  {
    AllIsRow(s, workspace, names, templates);
    RowLaunches(s, workspace, Chosen(names, templates));
  }

  lemma {:induction false} NoNamelessProject(s: MockState, ops: seq<Op>)
    requires "" !in s.projects
    ensures "" !in After(s, ops).projects
    decreases |ops|
  {
    if ops != [] {
      match ops[0] {
        case PostWorkspace(name, project, autos) =>
          if project in s.projects {
            var created := s.(workspaces := s.workspaces[name := MockWorkspace(project, "active")]);
            LaunchesOnly(created, name, autos, s.projects[project].templates);
          }
        case _ =>
      }
      NoNamelessProject(Handle(s, ops[0]).s, ops[1..]);
    }
  }

  /** A workspace of a registered project opens, replacing any of its name, with the agents chosen. */
  lemma WorkspaceOpened(s: MockState, name: string, project: string, autos: seq<string>)
    ensures
      var o := Handle(s, PostWorkspace(name, project, autos));
      if name == "" || project == "" || project !in s.projects then o == Outcome(s, 400)
      else
        && o.code == 201
        && var entered := s.(workspaces := s.workspaces[name := MockWorkspace(project, "active")]);
           Launched(entered, name, Chosen(autos, s.projects[project].templates), o.s)
  {
    if name != "" && project in s.projects {
      var entered := s.(workspaces := s.workspaces[name := MockWorkspace(project, "active")]);
      AllIsRow(entered, name, autos, s.projects[project].templates);
      RowLaunches(entered, name, Chosen(autos, s.projects[project].templates));
    }
  }

  /** A workspace closes with exactly its agents; delayed steps still pending come to nothing. */
  lemma WorkspaceClosed(s: MockState, name: string)
    ensures
      var o := Handle(s, DeleteWorkspace(name));
      if name == "" then o == Outcome(s, 400)
      else if name !in s.workspaces then o == Outcome(s, 404)
      else
        && o.code == 200 && o.s == s.(workspaces := o.s.workspaces, agents := o.s.agents)
        && (forall w :: w in o.s.workspaces <==> w in s.workspaces && w != name)
        && (forall w | w in o.s.workspaces :: o.s.workspaces[w] == s.workspaces[w])
        && (forall id :: id in o.s.agents <==> id in s.agents && s.agents[id].workspace != name)
        && (forall id | id in o.s.agents :: o.s.agents[id] == s.agents[id])
  {
  }

  lemma AgentPosted(s: MockState, workspace: string, template: string)
    ensures
      var o := Handle(s, PostAgent(workspace, template));
      if workspace == "" || template == "" || workspace !in s.workspaces then o == Outcome(s, 400)
      else o.code == 201 && Launched(s, workspace, [template], o.s)
  {
    RowLaunches(s, workspace, [template]);
    assert [template][1..] == [];
  }

  /** One agent is changed as said, the others and the rest of the state are not. */
  ghost predicate Changed(s: MockState, id: string, a: MockAgent, s': MockState) {
    && s'.projects == s.projects && s'.workspaces == s.workspaces && s'.nextAgentN == s.nextAgentN
    && id in s'.agents && s'.agents[id] == a && forall other | other != id :: SameAgent(s, other, s')
  }

  lemma AgentStopped(s: MockState, id: string)
    ensures
      var o := Handle(s, StopAgent(id));
      if id !in s.agents then o == Outcome(s, 404)
      else
        && o.code == 200 && o.s.nextPort == s.nextPort && o.s.pending == s.pending
        && var a := s.agents[id];
           Changed(s, id, MockAgent(a.template, a.workspace, Stopped, a.port), o.s)
  {
  }

  lemma AgentRestarted(s: MockState, id: string)
    ensures
      var o := Handle(s, RestartAgent(id));
      if id !in s.agents then o == Outcome(s, 404)
      else
        && o.code == 200 && o.s.nextPort == s.nextPort + 1 && o.s.pending == s.pending + multiset{id}
        && var a := s.agents[id];
           Changed(s, id, MockAgent(a.template, a.workspace, Starting, s.nextPort), o.s)
  {
  }

  /** A delayed step is used up, and makes its agent ready if that is still there. */
  lemma AgentBecomesReady(s: MockState, id: string)
    requires id in s.pending
    ensures
      var s' := Handle(s, BecomeReady(id)).s;
      && s'.nextPort == s.nextPort && s'.pending == s.pending - multiset{id}
      && if id in s.agents then
           var a := s.agents[id];
           Changed(s, id, MockAgent(a.template, a.workspace, Status.Ready, a.port), s')
         else s' == s.(pending := s'.pending)
  {
  }

  /** From the start: the agents of the first workspace are agent-001 on port 10001 and so on. */
  lemma FirstAgents(project: string, templates: seq<string>, name: string, autos: seq<string>, k: nat)
    requires project != "" && name != "" && k < |Chosen(autos, templates)|
    ensures
      var s := After(EMPTY, [PostProject(project, templates), PostWorkspace(name, project, autos)]);
      && AgentId(k + 1) in s.agents
      && s.agents[AgentId(k + 1)] == MockAgent(Chosen(autos, templates)[k], name, Starting, 10001 + k)
  {
    var ops := [PostProject(project, templates), PostWorkspace(name, project, autos)];
    assert ops[1..] == [PostWorkspace(name, project, autos)] && ops[1..][1..] == [];
    var s1 := Handle(EMPTY, ops[0]).s;
    WorkspaceOpened(s1, name, project, autos);
    var s2 := Handle(s1, ops[1]).s;
    assert After(EMPTY, ops) == After(s2, []) == s2;
    var entered := s1.(workspaces := s1.workspaces[name := MockWorkspace(project, "active")]);
    assert StartsAt(entered, name, Chosen(autos, templates), k, s2);
  }
}
