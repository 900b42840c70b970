/**
 * Runs on which the guarantees one might expect of the server fail. Each starts from any run at
 * rest on a server that admits its local administrator, and such runs exist.
 */
module HazardRuns {
  import opened JsonTree
  import opened Scopes
  import opened Registry
  import opened Interleaving
  import opened SpawnShape
  import opened Safety
  import opened WorkspaceIndex
  import opened IndexAgreement
  import opened Sequential
  import opened Ports
  import opened PortConservation
  import opened PortBalance
  import opened Rpcs
  import opened Segments
  import opened Service
  import Hazards

  /** No RPC is in flight and the local administrator may call. */
  ghost predicate AtRest(r: Run) {
    FreshRun(r) && Last(r).tasks == map[] && InRange(Last(r).s) && Last(r).s.cfg.localhostAdmin
  }

  /** A spawn the local administrator may begin. */
  ghost predicate Spawnable(s: State, call: SpawnCall)
    requires InRange(s)
  {
    && call.workspace != "" && call.template != "" && call.fixedId == "" && call.scope == None
    && SpawnTarget(s, LOCALHOST, call).Ok?
  }

  lemma LocalAdmitted(s: State)
    requires InRange(s) && s.cfg.localhostAdmin
    ensures Admitted(s, LOCALHOST) && PrincipalInRange(s, LOCALHOST) && CanSpawn(s, LOCALHOST)
  {
    assert Authenticate(s, "", true, 0) == Ok(LOCALHOST);
  }

  lemma LocalFinds(s: State, id: string)
    requires InRange(s) && id in s.agents
    ensures FindAgent(s, LOCALHOST, id) == Ok(s.agents[id])
  {
  }

  /** Whether the administrator may spawn depends on workspaces, projects and templates alone. */
  lemma StillSpawnable(s: State, call: SpawnCall, s': State)
    requires InRange(s) && InRange(s') && Spawnable(s, call)
    requires s'.cfg == s.cfg && s'.projects == s.projects && s'.workspaces == s.workspaces
    requires |s'.wsHeap| == |s.wsHeap| && forall w | 0 <= w < |s.wsHeap| :: s'.wsHeap[w].project == s.wsHeap[w].project
    ensures Spawnable(s', call)
  {
  }

  lemma KeepsBoth(r: Run, m: Run, r': Run)
    requires (Keeps(r, m, true, true) || Keeps(r, m, true, false)) && Keeps(m, r', true, false)
    ensures Keeps(r, r', true, false)
  {
  }

  lemma KeepsLast(r: Run, m: Run, r': Run)
    requires Keeps(r, m, true, false) && Keeps(m, r', true, true)
    ensures Keeps(r, r', true, false)
  {
  }

  lemma {:induction false} SomeOrder(all: set<string>) returns (ids: seq<string>)
    ensures Enumerates(ids, all)
    decreases all
  {
    if all == {} {
      ids := [];
    } else {
      var id :| id in all;
      var rest := SomeOrder(all - {id});
      ids := [id] + rest;
      assert forall k | k in rest :: k in (set j | j in rest);
      assert (set k | k in ids) == {id} + set k | k in rest;
    }
  }

  // ---------------------------------------------------------------------------------------------
  // A spawn by the local administrator
  // ---------------------------------------------------------------------------------------------

  function TokenFor(call: SpawnCall, f: Fresh): Token {
    Token(f.tokId, DisplayName(call.name, call.template), Scope(true, []),
          if call.perm == PermUnspecified then PermAdmin else call.perm, f.session, "", f.bearer, None)
  }

  lemma LocalSpawnBegins(s: State, call: SpawnCall, f: Fresh, q: int)
    requires InRange(s) && Spawnable(s, call) && f.osFree == {} && f.osPort == Some(q) && f.agentId !in s.agents
    ensures
      var b := SpawnBegin(s, LOCALHOST, call, f);
      && b.Begun? && b.id == f.agentId && b.port == q && b.ref == |s.heap|
      && b.s.toks == s.toks + [TokenFor(call, f)] && b.s.byBearer == s.byBearer[f.bearer := |s.toks|]
      && b.s.cfg == s.cfg && b.s.projects == s.projects
      && |b.s.heap| == |s.heap| + 1 && b.s.heap[|s.heap|].pb.session == f.session
  {
    var target := SpawnTarget(s, LOCALHOST, call);
    var s1 := Reserve(s, q);
    assert PortToReserve(s, f.osFree, f.osPort) == Some(q);
    var g := ResolveSession(s1, LOCALHOST, f.session);
    assert g.s == s1 && g.session == f.session;
    var issued := IssueToken(g.s, g.p, None, call.perm, DisplayName(call.name, call.template), g.session, 0, f);
    assert issued == Ok(AddToken(s1, TokenFor(call, f)));
  }

  /** An agent spawned on port `q`, READY and listed. */
  ghost predicate Serves(s: State, call: SpawnCall, f: Fresh, q: int, s': State) {
    && f.agentId !in s.agents && s'.agents == s.agents[f.agentId := |s.heap|]
    && |s'.heap| == |s.heap| + 1 && s'.heap[..|s.heap|] == s.heap
    && s'.heap[|s.heap|].pb.status == Ready && s'.heap[|s.heap|].pb.port == q
    && s'.heap[|s.heap|].pb.id == f.agentId && s'.heap[|s.heap|].pb.session == f.session
    && s'.heap[|s.heap|].pb.workspace == call.workspace
    && s'.projects == s.projects && s'.workspaces == s.workspaces && s'.cfg == s.cfg
    && s'.usedPorts == s.usedPorts + {q}
    && s'.toks == s.toks + [TokenFor(call, f)] && s'.byBearer == s.byBearer[f.bearer := |s.toks|]
    && call.workspace in s.workspaces && s.workspaces[call.workspace] < |s.wsHeap|
    && var w := s.workspaces[call.workspace];
       s'.wsHeap == s.wsHeap[w := s.wsHeap[w].(agents := s.wsHeap[w].agents + {f.agentId})]
  }

  const ANSWER := "http://localhost"

  function OnPort(q: int): Launch {
    Launch(Some(Handle(ANSWER, q, 1)), None)
  }

  lemma SpawnServes(s: State, call: SpawnCall, f: Fresh, q: int)
    requires InRange(s) && Spawnable(s, call) && f.osFree == {} && f.osPort == Some(q) && f.agentId !in s.agents
    requires 0 <= q < 0x1_0000 && CanSpawn(s, LOCALHOST)
    ensures Serves(s, call, f, q, SpawnNow(s, LOCALHOST, call, f, OnPort(q)).s)
  {
    LocalSpawnBegins(s, call, f, q);
    SpawnBeginShape(s, LOCALHOST, call, f);
  }

  /** Fresh values with which a spawn gets the port `q`. */
  ghost predicate Drawn(s: State, q: int, session: string, f: Fresh) {
    && FreshFor(s, f) && !Known(s, f.agentId) && f.agentId !in s.agents
    && f.osFree == {} && f.osPort == Some(q) && f.session == session
  }

  lemma Draw(s: State, q: int, session: string) returns (f: Fresh)
    requires 0 <= q < 0x1_0000 && session != ""
    ensures Drawn(s, q, session, f) && f.now == 0
  {
    f := SomeFresh(s, 0);
    f := f.(session := session, osPort := Some(q));
  }

  lemma DrawnIsFair(s: State, call: SpawnCall, q: int, session: string, f: Fresh)
    requires InRange(s) && Spawnable(s, call) && CanSpawn(s, LOCALHOST) && Drawn(s, q, session, f)
    requires q !in s.usedPorts
    ensures FreshAgent(s, call, f) && FairSpawn(s, LOCALHOST, call, f, OnPort(q))
  {
    LocalSpawnBegins(s, call, f, q);
  }

  /** From rest, the local administrator gets an agent served on any free port. */
  lemma SpawnsAgent(r: Run, call: SpawnCall, q: int, session: string) returns (r': Run, f: Fresh)
    requires AtRest(r) && Spawnable(Last(r).s, call) && session != ""
    requires 0 <= q < 0x1_0000 && q !in Last(r).s.usedPorts
    ensures AtRest(r') && Keeps(r, r', true, true)
    ensures Drawn(Last(r).s, q, session, f) && Serves(Last(r).s, call, f, q, Last(r').s)
  {
    var s := Last(r).s;
    LocalAdmitted(s);
    f := Draw(s, q, session);
    DrawnIsFair(s, call, q, session, f);
    r' := SpawnSegment(r, LOCALHOST, call, f, OnPort(q));
    InRangeAlong(r');
    SpawnServes(s, call, f, q);
  }

  // ---------------------------------------------------------------------------------------------
  // The hazards happen somewhere
  // ---------------------------------------------------------------------------------------------

  const SOME_CALL := SpawnCall("w", "t", "", None, PermUnspecified, "")

  lemma Registered(cfg: Config) returns (r: Run)
    requires cfg.localhostAdmin
    ensures AtRest(r) && SequentialRun(r) && HonestRun(r) && Last(r).s.cfg == cfg
    ensures
      var p := Project("p", "", "main", [Template("t", "", "", [])]);
      Last(r).s == Initially(cfg).(projects := map["p" := p])
  {
    var e := Run([System(Initially(cfg), map[])], []);
    assert HonestRun(e) && SequentialRun(e);
    LocalAdmitted(Initially(cfg));
    var f := SomeFresh(Initially(cfg), 0);
    var p := Project("p", "", "main", [Template("t", "", "", [])]);
    r := AdminStep(e, LOCALHOST, RegisterTask(LOCALHOST, p), f);
    assert Last(r).s == Initially(cfg).(projects := map["p" := p]);
  }

  /** With any configuration that admits the local administrator, spawning becomes possible. */
  lemma Opened(cfg: Config) returns (r: Run)
    requires cfg.localhostAdmin
    ensures AtRest(r) && SequentialRun(r) && HonestRun(r) && Last(r).s.cfg == cfg
    ensures Spawnable(Last(r).s, SOME_CALL) && Last(r).s.agents == map[] && Last(r).s.usedPorts == {}
    ensures "p" in Last(r).s.projects && ResolveTemplate(Last(r).s, "p", "t").Some?
    ensures Last(r).s.workspaces.Keys == {"w"}
  {
    var a := Registered(cfg);
    LocalAdmitted(Last(a).s);
    r := CreateStarts(a, LOCALHOST, "w", "p", []);
    assert AutoTasks(LOCALHOST, "w", []) == map[];
    InRangeAlong(r);
  }

  /** So every lemma below has runs to start from: one agent READY on any port one likes. */
  lemma SomeAgentServes(cfg: Config, q: int) returns (r: Run, id: string)
    requires cfg.localhostAdmin && 0 <= q < 0x1_0000
    ensures AtRest(r) && SequentialRun(r) && HonestRun(r) && Last(r).s.cfg == cfg && Spawnable(Last(r).s, SOME_CALL)
    ensures
      var s := Last(r).s;
      && id != "" && id in s.agents && s.agents[id] < |s.heap|
      && s.heap[s.agents[id]].pb.status == Ready && s.heap[s.agents[id]].pb.port == q
  {
    var a := Opened(cfg);
    var f;
    r, f := SpawnsAgent(a, SOME_CALL, q, "s");
    id := f.agentId;
    InRangeAlong(r);
    StillSpawnable(Last(a).s, SOME_CALL, Last(r).s);
  }

  // ---------------------------------------------------------------------------------------------
  // Stopping twice
  // ---------------------------------------------------------------------------------------------

  ghost predicate Listed(s: State, id: string) {
    id != "" && id in s.agents && s.agents[id] < |s.heap|
  }

  lemma StopsAgent(r: Run, id: string) returns (r': Run)
    requires AtRest(r) && Listed(Last(r).s, id)
    ensures AtRest(r') && Keeps(r, r', true, true) && Last(r').s == StopNow(Last(r).s, Last(r).s.agents[id])
  {
    LocalAdmitted(Last(r).s);
    LocalFinds(Last(r).s, id);
    r' := StopSegment(r, LOCALHOST, id);
    InRangeAlong(r');
  }

  /** A StopAgent up to the end of its first section. */
  lemma StopBegins(r: Run, id: string) returns (r': Run)
    requires AtRest(r) && Listed(Last(r).s, id)
    ensures Keeps(r, r', true, true)
    ensures
      var s := Last(r).s;
      var ref := s.agents[id];
      Last(r') == System(StopBegin(s, ref), map[0 := Halting(ref, s.heap[ref].handle, ReturnStopped)])
  {
    LocalAdmitted(Last(r).s);
    LocalFinds(Last(r).s, id);
    var a := Asks(r, 0, LOCALHOST, FindToStop(LOCALHOST, id));
    r' := StopStarts(a, 0);
    KeepsOn(r, a, r', true, true);
  }

  /** Two entries count as holders of one port. */
  ghost predicate Shared(y: System, i: Ref, j: Ref) {
    && i < |y.s.heap| && j < |y.s.heap| && i != j
    && Holding(y.s, i) && Holding(y.s, j) && y.s.heap[i].pb.port == y.s.heap[j].pb.port
  }

  lemma SharedIsUnbalanced(y: System, i: Ref, j: Ref)
    requires Shared(y, i, j)
    ensures !Conserved(y)
  {
    var q := y.s.heap[i].pb.port;
    assert Holds(y, ByAgent(i), q) && Holds(y, ByAgent(j), q);
  }

  /**
   * A stop of an agent that has been STOPPED since its port went to another one makes both holders
   * of the port, and in the end frees it under the agent that runs. No two RPCs overlap here.
   */
  lemma RepeatedStopHappens(r: Run, id: string, call: SpawnCall) returns (m: Run, r': Run, live: Ref)
    requires AtRest(r) && Listed(Last(r).s, id) && Spawnable(Last(r).s, call)
    requires 0 <= Last(r).s.heap[Last(r).s.agents[id]].pb.port < 0x1_0000
    ensures Keeps(r, m, true, true) && Keeps(r, r', true, true)
    ensures Shared(Last(m), Last(r).s.agents[id], live) && Last(m).s.cfg == Last(r).s.cfg
    ensures
      var s' := Last(r').s;
      && Last(r').tasks == map[] && live < |s'.heap|
      && s'.heap[live].pb.status == Ready && s'.heap[live].pb.port !in s'.usedPorts
  {
    var s, ref := Last(r).s, Last(r).s.agents[id];
    var port := s.heap[ref].pb.port;
    var a := StopsAgent(r, id);
    StillSpawnable(s, call, Last(a).s);
    var b, f := SpawnsAgent(a, call, port, "s");
    KeepsOn(r, a, b, true, true);
    live := |s.heap|;
    var s2 := Last(b).s;
    assert s2.heap[ref] == Last(a).s.heap[ref];
    assert s2.agents[id] == ref;
    Hazards.RepeatedStopFreesLivePort(s2, ref, live);
    m := StopBegins(b, id);
    KeepsOn(r, b, m, true, true);
    r' := StopFinishes(m, 0);
    KeepsOn(r, m, r', true, true);
    PutAlone(Last(m).tasks[0], None);
  }

  lemma UnbalancedIsImproper(r: Run)
    requires FreshRun(r) && HonestRun(r) && !Conserved(Last(r))
    ensures !ProperRun(r) && !DisciplinedRun(r)
  {
    if ProperRun(r) {
      ConservedWhileProper(r, |r.events|);
    }
    if DisciplinedRun(r) {
      DisciplineBalances(r);
    }
  }

  /** So there is a run of honest answers, one RPC after another, that breaks port conservation. */
  lemma PortsMayBreak(cfg: Config) returns (r: Run)
    requires cfg.localhostAdmin
    ensures SequentialRun(r) && HonestRun(r) && !ProperRun(r) && !DisciplinedRun(r) && Last(r).s.cfg == cfg
    ensures exists i, j :: Shared(Last(r), i, j)
  {
    var a, id := SomeAgentServes(cfg, 8000);
    var r', live;
    r, r', live := RepeatedStopHappens(a, id, SOME_CALL);
    SharedIsUnbalanced(Last(r), Last(a).s.agents[id], live);
    UnbalancedIsImproper(r);
  }

  // ---------------------------------------------------------------------------------------------
  // Cleaning up in the usual order
  // ---------------------------------------------------------------------------------------------

  /** Stops change no port an entry shows, and reserve none. */
  lemma {:induction false} StopAllPorts(s: State, ids: seq<string>)
    requires forall k | k in s.agents :: s.agents[k] < |s.heap|
    ensures StopAll(s, ids).usedPorts <= s.usedPorts
    ensures forall i | 0 <= i < |s.heap| :: StopAll(s, ids).heap[i].pb.port == s.heap[i].pb.port
    decreases |ids|
  {
    if ids != [] {
      StopAllPorts(if ids[0] in s.agents then StopNow(s, s.agents[ids[0]]) else s, ids[1..]);
    }
  }

  /** The port of every agent stopped is free in the end. */
  lemma {:induction false} StopAllFrees(s: State, ids: seq<string>, id: string)
    requires forall k | k in s.agents :: s.agents[k] < |s.heap|
    requires id in ids && id in s.agents
    ensures s.heap[s.agents[id]].pb.port !in StopAll(s, ids).usedPorts
    decreases |ids|
  {
    var s1 := if ids[0] in s.agents then StopNow(s, s.agents[ids[0]]) else s;
    if ids[0] == id {
      StopAllPorts(s1, ids[1..]);
    } else {
      StopAllFrees(s1, ids[1..], id);
    }
  }

  /** A READY entry whose port counts as free. */
  ghost predicate Undercut(s: State, live: Ref) {
    live < |s.heap| && s.heap[live].pb.status == Ready && s.heap[live].pb.port !in s.usedPorts
  }

  lemma UndercutIsUnbalanced(y: System, live: Ref)
    requires Undercut(y.s, live)
    ensures !Conserved(y)
  {
    assert Holds(y, ByAgent(live), y.s.heap[live].pb.port);
  }

  /** The workspace keeps the agent. */
  ghost predicate KeptBy(s: State, name: string, id: string) {
    && Listed(s, id) && name != "" && name in s.workspaces && s.workspaces[name] < |s.wsHeap|
    && id in s.wsHeap[s.workspaces[name]].agents
  }

  /** Destroying the workspace of a stopped agent frees the port that went to `live` since. */
  lemma DestroyUndercuts(s: State, name: string, id: string, live: Ref, order: seq<string>)
    requires StateOk(s) && InRange(s) && SetsOk(s) && KeptBy(s, name, id)
    requires Enumerates(order, s.wsHeap[s.workspaces[name]].agents) && live < |s.heap|
    requires s.heap[live].pb.status == Ready && s.heap[live].pb.port == s.heap[s.agents[id]].pb.port
    requires s.heap[live].pb.workspace != name
    ensures Undercut(DestroyEnd(StopAll(s, order), name, s.workspaces[name], set k | k in order), live)
  {
    assert id in (set k | k in order);
    StopAllFrees(s, order, id);
    forall k | k in order && k in s.agents ensures s.agents[k] != live {
      assert k in (set j | j in order);
    }
    StopAllStops(s, order, live);
  }

  lemma Destroys(r: Run, name: string) returns (r': Run, order: seq<string>)
    requires AtRest(r) && name != "" && name in Last(r).s.workspaces
    ensures Keeps(r, r', true, true)
    ensures
      var s, ws := Last(r).s, Last(r).s.workspaces[name];
      && ws < |s.wsHeap| && Enumerates(order, s.wsHeap[ws].agents)
      && Last(r') == System(DestroyEnd(StopAll(s, order), name, ws, set id | id in order), map[])
  {
    LocalAdmitted(Last(r).s);
    order := SomeOrder(Last(r).s.wsHeap[Last(r).s.workspaces[name]].agents);
    r' := DestroySegment(r, LOCALHOST, name, order);
  }

  /** What became of the port of `id` after it was stopped and `live` spawned on that port. */
  ghost predicate PortPassedOn(s: State, name: string, id: string, live: Ref) {
    && KeptBy(s, name, id) && live < |s.heap| && s.heap[live].pb.status == Ready
    && s.heap[live].pb.port == s.heap[s.agents[id]].pb.port && s.heap[live].pb.workspace != name
  }

  lemma PassPortOn(r: Run, name: string, id: string, call: SpawnCall) returns (r': Run)
    requires AtRest(r) && KeptBy(Last(r).s, name, id) && Spawnable(Last(r).s, call) && call.workspace != name
    requires 0 <= Last(r).s.heap[Last(r).s.agents[id]].pb.port < 0x1_0000
    ensures AtRest(r') && Keeps(r, r', true, true) && Last(r').s.cfg == Last(r).s.cfg
    ensures PortPassedOn(Last(r').s, name, id, |Last(r).s.heap|)
  {
    var s, ref := Last(r).s, Last(r).s.agents[id];
    var a := StopsAgent(r, id);
    StillSpawnable(s, call, Last(a).s);
    var f;
    r', f := SpawnsAgent(a, call, s.heap[ref].pb.port, "s");
    KeepsOn(r, a, r', true, true);
    InRangeAlong(r');
    var s' := Last(r').s;
    assert s'.heap[..|s.heap|][ref] == Last(a).s.heap[ref];
    assert s'.agents[id] == ref;
  }

  /**
   * Stopping an agent before its workspace is destroyed is enough to go wrong: if its port went to
   * an agent of another workspace in the meantime, the destroy, which stops the agent once more,
   * frees the port under the one that runs. Again no two RPCs overlap.
   */
  lemma CleanUpHappens(r: Run, name: string, id: string, call: SpawnCall) returns (r': Run)
    requires AtRest(r) && KeptBy(Last(r).s, name, id) && Spawnable(Last(r).s, call) && call.workspace != name
    requires 0 <= Last(r).s.heap[Last(r).s.agents[id]].pb.port < 0x1_0000
    ensures Keeps(r, r', true, true) && Last(r').tasks == map[] && Last(r').s.cfg == Last(r).s.cfg
    ensures name !in Last(r').s.workspaces && Undercut(Last(r').s, |Last(r).s.heap|)
  {
    var a := PassPortOn(r, name, id, call);
    var order;
    r', order := Destroys(a, name);
    KeepsOn(r, a, r', true, true);
    InRangeAlong(a);
    DestroyUndercuts(Last(a).s, name, id, |Last(r).s.heap|, order);
  }

  lemma TwoWorkspaces(cfg: Config) returns (r: Run)
    requires cfg.localhostAdmin
    ensures AtRest(r) && SequentialRun(r) && HonestRun(r) && Last(r).s.cfg == cfg && Last(r).s.usedPorts == {}
    ensures Spawnable(Last(r).s, SOME_CALL) && Spawnable(Last(r).s, SOME_CALL.(workspace := "v"))
  {
    var a := Opened(cfg);
    LocalAdmitted(Last(a).s);
    r := CreateStarts(a, LOCALHOST, "v", "p", []);
    assert AutoTasks(LOCALHOST, "v", []) == map[];
    InRangeAlong(r);
  }

  /** So it is not enough to call StopAgent and RestartAgent on READY agents only. */
  lemma CleanUpMayBreak(cfg: Config) returns (r: Run)
    requires cfg.localhostAdmin
    ensures SequentialRun(r) && HonestRun(r) && !ProperRun(r) && !DisciplinedRun(r) && Last(r).s.cfg == cfg
    ensures Last(r).tasks == map[] && exists live :: Undercut(Last(r).s, live)
  {
    var a := TwoWorkspaces(cfg);
    var b, f := SpawnsAgent(a, SOME_CALL, 8000, "s");
    var s := Last(b).s;
    StillSpawnable(Last(a).s, SOME_CALL.(workspace := "v"), s);
    r := CleanUpHappens(b, "w", f.agentId, SOME_CALL.(workspace := "v"));
    UndercutIsUnbalanced(Last(r), |s.heap|);
    UnbalancedIsImproper(r);
  }

  // ---------------------------------------------------------------------------------------------
  // A spawn between the sections of a destroy
  // ---------------------------------------------------------------------------------------------

  /** An agent listed under a workspace name that leads nowhere. */
  ghost predicate Stranded(s: State, id: string) {
    Listed(s, id) && s.heap[s.agents[id]].pb.workspace !in s.workspaces
  }

  lemma StrandedIsUnhoused(s: State, id: string)
    requires InRange(s) && Stranded(s, id)
    ensures !AllHoused(s)
  {
    assert !Housed(s, id);
  }

  lemma StrandedRunIsUnsettled(r: Run, id: string)
    requires FreshRun(r) && Stranded(Last(r).s, id)
    ensures !SettledRun(r)
  {
    InRangeAlong(r);
    StrandedIsUnhoused(Last(r).s, id);
    AlwaysHousedIffSettled(r);
    assert !HousedAt(r.states[|r.events|]);
  }

  /** A destroy by the administrator up to its snapshot. */
  lemma DestroyBegins(r: Run, name: string) returns (r': Run, order: seq<string>)
    requires AtRest(r) && name != "" && name in Last(r).s.workspaces
    ensures Keeps(r, r', true, true)
    ensures
      var s, ws := Last(r).s, Last(r).s.workspaces[name];
      && ws < |s.wsHeap| && Enumerates(order, s.wsHeap[ws].agents)
      && Last(r') == System(s, map[0 := NextStop(name, ws, order, order)])
  {
    LocalAdmitted(Last(r).s);
    order := SomeOrder(Last(r).s.wsHeap[Last(r).s.workspaces[name]].agents);
    r' := DestroyStarts(r, 0, LOCALHOST, name, order);
  }

  /** The state after the first section of a spawn on port `q`. */
  ghost predicate Entering(s: State, call: SpawnCall, f: Fresh, q: int, y: System, other: Task)
    requires InRange(s) && CanSpawn(s, LOCALHOST)
  {
    var b := SpawnBegin(s, LOCALHOST, call, f);
    && b.Begun? && Entered(s, call, b) && b.id == f.agentId && b.port == q
    && y == System(b.s, map[0 := other, 1 := Launching(b.p, b.ref, b.id, q, ReturnInstance)])
  }

  lemma SpawnDraws(s: State, call: SpawnCall, q: int) returns (f: Fresh)
    requires InRange(s) && s.cfg.localhostAdmin
    requires Spawnable(s, call) && 0 <= q < 0x1_0000 && q !in s.usedPorts
    ensures CanSpawn(s, LOCALHOST) && Admitted(s, LOCALHOST) && Drawn(s, q, "s", f)
    ensures FreshAgent(s, call, f) && FreshPort(s, f)
    ensures
      var b := SpawnBegin(s, LOCALHOST, call, f);
      b.Begun? && Entered(s, call, b) && b.id == f.agentId && b.port == q
  {
    LocalAdmitted(s);
    f := Draw(s, q, "s");
    DrawnIsFair(s, call, q, "s", f);
    LocalSpawnBegins(s, call, f, q);
    SpawnBeginShape(s, LOCALHOST, call, f);
  }

  lemma SecondTask(other: Task, t: Task, next: Task)
    ensures map[0 := other][1 := t][1 := next] == map[0 := other, 1 := next]
  {
  }

  /** Meanwhile a spawn enters its agent. */
  lemma SpawnEnters(r: Run, other: Task, call: SpawnCall, q: int) returns (r': Run, f: Fresh)
    requires FreshRun(r) && Last(r).tasks == map[0 := other] && InRange(Last(r).s) && Last(r).s.cfg.localhostAdmin
    requires Spawnable(Last(r).s, call) && 0 <= q < 0x1_0000 && q !in Last(r).s.usedPorts
    ensures Keeps(r, r', true, false) && Drawn(Last(r).s, q, "s", f) && CanSpawn(Last(r).s, LOCALHOST)
    ensures Entering(Last(r).s, call, f, q, Last(r'), other)
  {
    f := SpawnDraws(Last(r).s, call, q);
    var t := SpawnTask(LOCALHOST, call, ReturnInstance);
    var a := Arrive(r, 1, LOCALHOST, t);
    r' := SpawnStarts(a, 1, f);
    var b := SpawnBegin(Last(r).s, LOCALHOST, call, f);
    SecondTask(other, t, Launching(b.p, b.ref, b.id, q, ReturnInstance));
  }

  lemma FirstLeaves(t: Task, other: Task)
    ensures map[0 := t, 1 := other] - {0} == map[1 := other]
    ensures Put(map[1 := other], 1, None) == map[]
  {
  }

  /** The destroy goes on and ends; the agent that slipped in becomes READY. */
  lemma DestroyThenLaunch(r: Run, name: string, ws: Ref, order: seq<string>, t: Task, q: int) returns (r': Run)
    requires FreshRun(r) && InRange(Last(r).s) && ws < |Last(r).s.wsHeap|
    requires t.Launching? && t.port == q && t.afterSpawn == ReturnInstance
    requires Last(r).tasks == map[0 := NextStop(name, ws, order, order), 1 := t]
    ensures Keeps(r, r', true, false) && Last(r').tasks == map[]
    ensures
      var m := DestroyEnd(StopAll(Last(r).s, order), name, ws, set id | id in order);
      t.ref < |m.heap| && Last(r').s == SpawnReady(m, t.ref, Handle(ANSWER, q, 1), None)
  {
    var a := DestroyEnds(r, 0, name, ws, order);
    FirstLeaves(Last(r).tasks[0], t);
    r' := LaunchFinishes(a, 1, OnPort(q));
    KeepsOn(r, a, r', true, false);
  }

  /** The agent is stranded: the destroy took the workspace, but not the agent it never saw. */
  lemma SlippedInIsStranded(s: State, call: SpawnCall, f: Fresh, q: int, y: System, other: Task, order: seq<string>)
    requires StateOk(s) && InRange(s) && SetsOk(s) && CanSpawn(s, LOCALHOST) && InRange(y.s)
    requires Drawn(s, q, "s", f) && Entering(s, call, f, q, y, other)
    requires Enumerates(order, s.wsHeap[s.workspaces[call.workspace]].agents)
    ensures s.workspaces[call.workspace] < |y.s.wsHeap|
    ensures
      var m := DestroyEnd(StopAll(y.s, order), call.workspace, s.workspaces[call.workspace], set id | id in order);
      && |s.heap| < |m.heap|
      && var s' := SpawnReady(m, |s.heap|, Handle(ANSWER, q, 1), None);
         Stranded(s', f.agentId) && s'.heap[s'.agents[f.agentId]].pb.status == Ready
  {
    forall id | id in order ensures id in s.agents && s.agents[id] < |s.heap| {
      assert id in (set k | k in order);
    }
    StopAllStops(y.s, order, |s.heap|);
  }

  /**
   * A spawn that slips in between the two sections of a destroy ends READY and listed under a
   * workspace that is gone, whatever run at rest this happens after.
   */
  lemma LateSpawnHappens(r: Run, call: SpawnCall, q: int) returns (r': Run, id: string)
    requires AtRest(r) && Spawnable(Last(r).s, call) && 0 <= q < 0x1_0000 && q !in Last(r).s.usedPorts
    ensures Keeps(r, r', true, false) && Last(r').tasks == map[]
    ensures Stranded(Last(r').s, id) && Last(r').s.heap[Last(r').s.agents[id]].pb.status == Ready
    ensures !SettledRun(r')
  {
    InRangeAlong(r);
    var s := Last(r).s;
    var a, order := DestroyBegins(r, call.workspace);
    var ws := s.workspaces[call.workspace];
    var b, f := SpawnEnters(a, NextStop(call.workspace, ws, order, order), call, q);
    KeepsBoth(r, a, b);
    InRangeAlong(b);
    r' := DestroyThenLaunch(b, call.workspace, ws, order, Last(b).tasks[1], q);
    KeepsBoth(r, b, r');
    id := f.agentId;
    SlippedInIsStranded(s, call, f, q, Last(b), NextStop(call.workspace, ws, order, order), order);
    StrandedRunIsUnsettled(r', id);
  }

  // ---------------------------------------------------------------------------------------------
  // A stop that outlasts a restart
  // ---------------------------------------------------------------------------------------------

  /** While a stop waits for the backend, a restart of the same agent runs up to its relaunch. */
  lemma RestartOvertakes(r: Run, first: Task, id: string) returns (r': Run)
    requires FreshRun(r) && Last(r).tasks == map[0 := first] && InRange(Last(r).s) && Last(r).s.cfg.localhostAdmin
    requires Listed(Last(r).s, id)
    ensures Keeps(r, r', true, false)
    ensures
      var s, ref := Last(r).s, Last(r).s.agents[id];
      Last(r') == System(StopNow(s, ref), map[0 := first, 1 := RestartTask(ref)])
  {
    var ref := Last(r).s.agents[id];
    LocalAdmitted(Last(r).s);
    LocalFinds(Last(r).s, id);
    var a := Asks(r, 1, LOCALHOST, FindToRestart(LOCALHOST, id));
    r' := StopHalts(a, 1);
    KeepsOn(r, a, r', true, false);
    SecondTask(first, StopTask(id, ThenRestart(ref)), RestartTask(ref));
  }

  lemma SecondLeaves(t: Task, other: Task)
    ensures map[0 := t, 1 := other] - {1} == map[0 := t]
  {
  }

  /** The relaunch succeeds on port `q`. */
  lemma RelaunchSucceeds(r: Run, first: Task, ref: Ref, q: int) returns (r': Run)
    requires FreshRun(r) && Last(r).tasks == map[0 := first, 1 := RestartTask(ref)]
    requires ref < |Last(r).s.heap| && 0 <= q < 0x1_0000 && q !in Last(r).s.usedPorts
    ensures Keeps(r, r', true, false)
    ensures Last(r') ==
            System(RestartReady(Reserve(Last(r).s, q), ref, Handle(ANSWER, q, 1), None, 0), map[0 := first])
  {
    var f := Draw(Last(r).s, q, "s");
    r' := RelaunchSegment(r, 1, f, OnPort(q));
    SecondLeaves(first, RestartTask(ref));
    RelaunchIs(Last(r).s, ref, f, OnPort(q));
    assert FairRelaunch(Last(r).s, f, OnPort(q));
  }

  /** A stop has begun, and a whole restart of the agent has gone by since. */
  function Overtaken(s: State, ref: Ref, q: int): (s': State)
    requires ref < |s.heap|
    ensures |s'.heap| == |s.heap|
  {
    var halted := StopNow(Registry.StopBegin(s, ref), ref);
    RestartReady(Reserve(halted, q), ref, Handle(ANSWER, q, 1), None, 0)
  }

  lemma RestartGoesBy(r: Run, id: string, q: int) returns (r': Run)
    requires AtRest(r) && Listed(Last(r).s, id) && 0 <= q < 0x1_0000 && q !in Last(r).s.usedPorts
    ensures Keeps(r, r', true, false)
    ensures
      var s, ref := Last(r).s, Last(r).s.agents[id];
      Last(r') == System(Overtaken(s, ref, q), map[0 := Halting(ref, s.heap[ref].handle, ReturnStopped)])
  {
    var s, ref := Last(r).s, Last(r).s.agents[id];
    var first := Halting(ref, s.heap[ref].handle, ReturnStopped);
    var a := StopBegins(r, id);
    var b := RestartOvertakes(a, first, id);
    KeepsBoth(r, a, b);
    r' := RelaunchSucceeds(b, first, ref, q);
    KeepsBoth(r, b, r');
  }

  /**
   * A stop that is still waiting for the backend when a whole restart of its agent goes by: in the
   * end it drops the handle of the new process, of which nobody was asked to stop it, and frees the
   * port that process listens on. `m` is the run just before the last section of the stop.
   */
  lemma OverlappingStopHappens(r: Run, id: string, q: int) returns (m: Run, r': Run)
    requires AtRest(r) && Listed(Last(r).s, id) && 0 <= q < 0x1_0000 && q !in Last(r).s.usedPorts
    ensures Keeps(r, m, true, false) && Keeps(r, r', true, false)
    ensures
      var before, s, s', ref := Last(r).s, Last(m).s, Last(r').s, Last(r).s.agents[id];
      && ref < |s.heap| && ref < |s'.heap| && Last(r').tasks == map[]
      && Last(m).tasks == map[0 := Halting(ref, before.heap[ref].handle, ReturnStopped)]
      && s.heap[ref].pb.status == Ready && s.heap[ref].handle == Some(Handle(ANSWER, q, 1)) && q in s.usedPorts
      && s'.heap[ref].pb.status == Registry.Stopped && s'.heap[ref].handle == None && q !in s'.usedPorts
  {
    var s, ref := Last(r).s, Last(r).s.agents[id];
    m := RestartGoesBy(r, id, q);
    r' := StopFinishes(m, 0);
    KeepsLast(r, m, r');
    PutAlone(Last(m).tasks[0], None);
    Hazards.OverlappingStopDropsNewHandle(s, ref, q, Handle(ANSWER, q, 1), None, 0);
  }

  // ---------------------------------------------------------------------------------------------
  // A restart that fails
  // ---------------------------------------------------------------------------------------------

  /** An agent whose relaunch failed goes on showing the card it had when it stopped. */
  lemma StaleCardHappens(r: Run, id: string, q: int) returns (r': Run)
    requires AtRest(r) && Listed(Last(r).s, id) && 0 <= q < 0x1_0000
    ensures FreshRun(r') && (SequentialRun(r) ==> SequentialRun(r')) && Last(r').tasks == map[]
    ensures
      var s', ref := Last(r').s, Last(r).s.agents[id];
      && ref < |s'.heap| && s'.heap[ref].pb.status == Error
      && s'.heap[ref].pb.card.Some? && s'.heap[ref].pb.card.value.arp.status == "stopped"
      && !CardCurrent(s'.cfg, s'.heap[ref])
  {
    var s, ref := Last(r).s, Last(r).s.agents[id];
    LocalAdmitted(s);
    LocalFinds(s, id);
    var f := Draw(s, q, "s");
    r' := RestartSegment(r, LOCALHOST, id, f, NO_LAUNCH);
    var port := PortToReserve(StopNow(s, ref), f.osFree, f.osPort).value;
    RelaunchIs(StopNow(s, ref), ref, f, NO_LAUNCH);
    Hazards.FailedRestartLeavesStaleCard(s, ref, port);
    assert Last(r').s.heap[ref] == RestartFailed(StopNow(s, ref), ref, port).heap[ref];
  }

  // ---------------------------------------------------------------------------------------------
  // Another session's agents
  // ---------------------------------------------------------------------------------------------

  /** A SESSION caller with an agent of its own in the workspace, next to one it may not touch. */
  ghost predicate Intruder(s: State, p: Principal, name: string, own: string, foreign: string)
    requires InRange(s)
  {
    && p.perm == PermSession && p.session != "" && name != "" && name in s.workspaces
    && CanAccess(p.scope, s.wsHeap[s.workspaces[name]].project)
    && Hazards.OwnAgent(s, p, s.wsHeap[s.workspaces[name]], own)
    && foreign in s.wsHeap[s.workspaces[name]].agents && foreign in s.agents
    && s.heap[s.agents[foreign]].pb.session != p.session
  }

  /** It destroys the workspace, and with it the agent it may neither see nor stop. */
  lemma ForeignAgentDestroyed(r: Run, p: Principal, name: string, own: string, foreign: string) returns (r': Run)
    requires AtRest(r) && Admitted(Last(r).s, p) && Intruder(Last(r).s, p, name, own, foreign)
    ensures Keeps(r, r', true, true) && Last(r').tasks == map[]
    ensures FindAgent(Last(r).s, p, foreign) == Err(PermissionDenied)
    ensures
      var s, s' := Last(r).s, Last(r').s;
      foreign !in s'.agents && s.agents[foreign] < |s'.heap|
      && s'.heap[s.agents[foreign]].pb.status == Registry.Stopped
  {
    var s := Last(r).s;
    Hazards.SessionDestroysForeignAgent(s, p, name, own, foreign);
    var order := SomeOrder(s.wsHeap[s.workspaces[name]].agents);
    r' := DestroySegment(r, p, name, order);
    StopAllStops(s, order, s.agents[foreign]);
    assert foreign in (set id | id in order);
  }

  /** The caller that the token of a SESSION agent makes. */
  lemma AgentMayCall(s: State, bearer: string, t: Ref)
    requires InRange(s) && bearer in s.byBearer && s.byBearer[bearer] == t && bearer != ""
    requires s.toks[t].expiresAt == None
    ensures Admitted(s, PrincipalOf(s, t))
  {
    assert Authenticate(s, bearer, false, 0) == Ok(PrincipalOf(s, t));
  }

  lemma SessionSpawnable(s: State, call: SpawnCall)
    requires InRange(s) && Spawnable(s, call)
    ensures Spawnable(s, call.(perm := PermSession))
  {
  }

  lemma TwoServed(s: State, call: SpawnCall, f1: Fresh, q1: int, m: State, f2: Fresh, q2: int, s': State)
    requires InRange(s') && Serves(s, call.(perm := PermSession), f1, q1, m) && Serves(m, call, f2, q2, s')
    requires f1.session != "" && f1.session != f2.session && call.workspace != "" && f1.bearer != ""
    requires f2.bearer !in m.byBearer
    ensures |s.toks| < |s'.toks| && Admitted(s', PrincipalOf(s', |s.toks|))
    ensures Intruder(s', PrincipalOf(s', |s.toks|), call.workspace, f1.agentId, f2.agentId)
  {
    AgentMayCall(s', f1.bearer, |s.toks|);
    assert s'.heap[..|m.heap|][|s.heap|] == m.heap[|s.heap|];
  }

  /** The administrator spawns two agents in one workspace, the first with a SESSION token. */
  lemma TwoSessions(r: Run, call: SpawnCall, q1: int, q2: int)
    returns (r': Run, p: Principal, own: string, foreign: string)
    requires AtRest(r) && Spawnable(Last(r).s, call) && q1 != q2
    requires 0 <= q1 < 0x1_0000 && q1 !in Last(r).s.usedPorts
    requires 0 <= q2 < 0x1_0000 && q2 !in Last(r).s.usedPorts
    ensures AtRest(r') && Keeps(r, r', true, true)
    ensures Admitted(Last(r').s, p) && Intruder(Last(r').s, p, call.workspace, own, foreign)
  {
    var s := Last(r).s;
    SessionSpawnable(s, call);
    var a, f1 := SpawnsAgent(r, call.(perm := PermSession), q1, "mine");
    StillSpawnable(s, call, Last(a).s);
    var f2;
    r', f2 := SpawnsAgent(a, call, q2, "theirs");
    KeepsOn(r, a, r', true, true);
    p := PrincipalOf(Last(r').s, |s.toks|);
    TwoServed(s, call, f1, q1, Last(a).s, f2, q2, Last(r').s);
    own, foreign := f1.agentId, f2.agentId;
  }

  lemma ForeignAgentHappens(r: Run, call: SpawnCall, q1: int, q2: int)
    returns (m: Run, r': Run, p: Principal, foreign: string)
    requires AtRest(r) && Spawnable(Last(r).s, call) && q1 != q2
    requires 0 <= q1 < 0x1_0000 && q1 !in Last(r).s.usedPorts
    requires 0 <= q2 < 0x1_0000 && q2 !in Last(r).s.usedPorts
    ensures Keeps(r, m, true, true) && Keeps(m, r', true, true) && InRange(Last(m).s)
    ensures Admitted(Last(m).s, p) && FindAgent(Last(m).s, p, foreign) == Err(PermissionDenied)
    ensures foreign in Last(m).s.agents && foreign !in Last(r').s.agents
  {
    var own;
    m, p, own, foreign := TwoSessions(r, call, q1, q2);
    r' := ForeignAgentDestroyed(m, p, call.workspace, own, foreign);
  }
}
