/**
 * Whole RPCs on the server object when nothing else runs in between: the sections of ServerObjects
 * strung together as the handlers do, the backend's answer being a parameter.
 */
module Rpcs {
  import opened JsonTree
  import opened Registry
  import opened Interleaving
  import opened Safety
  import opened WorkspaceIndex
  import opened IndexAgreement
  import opened ServerObjects
  import opened SpawnShape

  // ---------------------------------------------------------------------------------------------
  // What each RPC does to the abstract state
  // ---------------------------------------------------------------------------------------------

  function StopNow(s: State, ref: Ref): State
    requires ref < |s.heap|
  {
    Registry.StopEnd(Registry.StopBegin(s, ref), ref)
  }

  /** Stops by id, one after another, skipping ids that are gone. */
  function StopAll(s: State, ids: seq<string>): (s': State)
    requires forall id | id in s.agents :: s.agents[id] < |s.heap|
    ensures s'.agents == s.agents && |s'.heap| == |s.heap|
    ensures s'.workspaces == s.workspaces && s'.wsHeap == s.wsHeap && s'.cfg == s.cfg
    decreases |ids|
  {
    if ids == [] then s
    else StopAll(if ids[0] in s.agents then StopNow(s, s.agents[ids[0]]) else s, ids[1..])
  }

  /** What the backend answers to a launch: a handle or none, and the card that could be fetched. */
  datatype Launch = Launch(handle: Option<Handle>, card: Option<Json>)

  function RelaunchNow(s: State, ref: Ref, f: Fresh, l: Launch): (State, Result<()>)
    requires ref < |s.heap|
  {
    var port := PortToReserve(s, f.osFree, f.osPort);
    if port.None? then (s, Err(Internal))
    else if l.handle.None? then (Registry.RestartFailed(Reserve(s, port.value), ref, port.value), Err(Internal))
    else (Registry.RestartReady(Reserve(s, port.value), ref, l.handle.value, l.card, f.now), Ok(()))
  }

  predicate CanSpawn(s: State, p: Principal) {
    (forall n | n in s.workspaces :: s.workspaces[n] < |s.wsHeap|)
    && (forall i | i in s.agents :: s.agents[i] < |s.heap|)
    && (p.tok.Some? ==> p.tok.value < |s.toks|)
  }

  datatype Spawned = Spawned(s: State, p: Principal, agent: Result<Ref>)

  /** What follows the first section of a spawn. */
  function FinishSpawn(b: SpawnBegun, l: Launch): Spawned
    requires GoesOn(b)
  {
    match b
    case Refused(s, p, code) => Spawned(s, p, Err(code))
    case Begun(s, p, ref, id, port) =>
      if l.handle.None? then Spawned(Registry.SpawnFailed(s, id, port), p, Err(Internal))
      else Spawned(Registry.SpawnReady(s, ref, l.handle.value, l.card), p, Ok(ref))
  }

  predicate GoesOn(b: SpawnBegun) {
    CanSpawn(b.s, b.p) && (b.Begun? ==> b.ref < |b.s.heap|)
  }

  lemma EnteredCanSpawn(s: State, p: Principal, w: Ref, a: Agent)
    requires CanSpawn(s, p) && w < |s.wsHeap|
    ensures CanSpawn(AddAgent(s, w, a), p)
  {
  }

  lemma GrantCanSpawn(s: State, p: Principal, freshId: string)
    requires CanSpawn(s, p)
    ensures
      var g := Registry.ResolveSession(s, p, freshId);
      CanSpawn(g.s, g.p) && SameRegistry(s, g.s)
  {
  }

  lemma IssuedCanSpawn(s: State, p: Principal, call: SpawnCall, session: string, f: Fresh)
    requires CanSpawn(s, p)
    ensures
      var subject := DisplayName(call.name, call.template);
      var issued := Registry.IssueToken(s, p, call.scope, call.perm, subject, session, 0, f);
      issued.Ok? ==> CanSpawn(issued.value, p) && SameRegistry(s, issued.value)
  {
    IssueLeavesRegistry(s, p, call.scope, call.perm, DisplayName(call.name, call.template), session, 0, f);
  }

  lemma SpawnWithPortGoesOn(s: State, p: Principal, call: SpawnCall, w: Ref, t: Template, port: int, f: Fresh)
    requires CanSpawn(s, p) && w < |s.wsHeap|
    ensures GoesOn(SpawnWithPort(s, p, call, w, t, port, f))
  {
    GrantCanSpawn(s, p, f.session);
    var g := Registry.ResolveSession(s, p, f.session);
    IssuedCanSpawn(g.s, g.p, call, g.session, f);
    var subject := DisplayName(call.name, call.template);
    var issued := Registry.IssueToken(g.s, g.p, call.scope, call.perm, subject, g.session, 0, f);
    if issued.Ok? && SpawnId(call, f) !in s.agents {
      var a := NewAgent(s, p, call, s.wsHeap[w].project, t, SpawnId(call, f), port, g.session, f);
      EnteredCanSpawn(issued.value, g.p, w, a);
      assert SpawnWithPort(s, p, call, w, t, port, f)
             == Begun(AddAgent(issued.value, w, a), g.p, |s.heap|, SpawnId(call, f), port);
    } else {
      var m := if issued.Err? then g.s else issued.value;
      var code := if issued.Err? then issued.code else AlreadyExists;
      assert SpawnWithPort(s, p, call, w, t, port, f) == Refused(Registry.FreePort(m, port), g.p, code);
    }
  }

  lemma SpawnGoesOn(s: State, p: Principal, call: SpawnCall, f: Fresh)
    requires CanSpawn(s, p)
    ensures GoesOn(SpawnBegin(s, p, call, f))
  {
    var target := SpawnTarget(s, p, call);
    var port := PortToReserve(s, f.osFree, f.osPort);
    if target.Ok? && port.Some? {
      SpawnWithPortGoesOn(Reserve(s, port.value), p, call, target.value.0, target.value.1, port.value, f);
    }
  }

  lemma FinishedCanSpawn(b: SpawnBegun, l: Launch)
    requires GoesOn(b)
    ensures CanSpawn(FinishSpawn(b, l).s, FinishSpawn(b, l).p)
    ensures FinishSpawn(b, l).agent.Ok? ==> FinishSpawn(b, l).agent.value < |FinishSpawn(b, l).s.heap|
  {
  }

  function SpawnNow(s: State, p: Principal, call: SpawnCall, f: Fresh, l: Launch): Spawned
    requires CanSpawn(s, p)
  {
    SpawnGoesOn(s, p, call, f);
    FinishSpawn(SpawnBegin(s, p, call, f), l)
  }

  lemma SpawnedCanSpawn(s: State, p: Principal, call: SpawnCall, f: Fresh, l: Launch)
    requires CanSpawn(s, p)
    ensures
      var r := SpawnNow(s, p, call, f, l);
      CanSpawn(r.s, r.p) && (r.agent.Ok? ==> r.agent.value < |r.s.heap|)
  {
    SpawnGoesOn(s, p, call, f);
    FinishedCanSpawn(SpawnBegin(s, p, call, f), l);
  }

  /** The auto agents of a new workspace, one spawn after another up to the first that fails. */
  function SpawnAll(s: State, p: Principal, workspace: string, autos: seq<string>, fs: seq<Fresh>, ls: seq<Launch>)
    : (r: (State, Result<()>))
    requires CanSpawn(s, p) && |fs| == |autos| == |ls|
    decreases |autos|
  {
    if autos == [] then (s, Ok(()))
    else
      var one := SpawnNow(s, p, AutoCall(workspace, autos[0]), fs[0], ls[0]);
      if one.agent.Err? then (one.s, Err(one.agent.code))
      else
        SpawnedCanSpawn(s, p, AutoCall(workspace, autos[0]), fs[0], ls[0]);
        SpawnAll(one.s, one.p, workspace, autos[1..], fs[1..], ls[1..])
  }

  // ---------------------------------------------------------------------------------------------
  // How each RPC ends
  // ---------------------------------------------------------------------------------------------

  ghost predicate StopOutcome(s: State, p: Principal, id: string, s': State, r: Result<Instance>)
    requires InRange(s)
  {
    var found := FindAgent(s, p, id);
    if id == "" then r == Err(InvalidArgument) && s' == s
    else if found.Err? then r == Err(found.code) && s' == s
    else s' == StopNow(s, found.value) && r == Ok(s'.heap[found.value].pb)
  }

  ghost predicate RestartOutcome(s: State, p: Principal, id: string, f: Fresh, l: Launch, s': State,
                                 r: Result<Instance>)
    requires InRange(s)
  {
    var found := FindAgent(s, p, id);
    if id == "" then r == Err(InvalidArgument) && s' == s
    else if found.Err? then r == Err(found.code) && s' == s
    else
      var after := RelaunchNow(StopNow(s, found.value), found.value, f, l);
      && s' == after.0 && found.value < |s'.heap|
      && r == if after.1.Ok? then Ok(s'.heap[found.value].pb) else Err(after.1.code)
  }

  ghost predicate DestroyOutcome(s: State, p: Principal, name: string, ids: seq<string>, s': State, r: Result<()>)
    requires InRange(s)
  {
    var found := DestroyTarget(s, p, name);
    if name == "" then r == Err(InvalidArgument) && s' == s
    else if found.Err? then r == Err(found.code) && s' == s
    else r == Ok(()) && s' == DestroyEnd(StopAll(s, ids), name, found.value, set id | id in ids)
  }

  /** How a finished spawn answers its caller. */
  ghost predicate Answers(done: Spawned, s: State, p: Principal, r: Result<Instance>) {
    && done.s == s && done.p == p
    && if done.agent.Ok? then done.agent.value < |s.heap| && r == Ok(s.heap[done.agent.value].pb)
       else r == Err(done.agent.code)
  }

  ghost predicate SpawnOutcome(s: State, p: Principal, call: SpawnCall, f: Fresh, l: Launch, s': State, p': Principal,
                               r: Result<Instance>)
    requires CanSpawn(s, p)
  {
    if call.workspace == "" || call.template == "" then r == Err(InvalidArgument) && s' == s
    else Answers(SpawnNow(s, p, call.(fixedId := ""), f, l), s', p', r)
  }

  /** `r` names the workspace answered with. */
  ghost predicate CreateOutcome(s: State, p: Principal, name: string, project: string, autos: seq<string>,
                                fs: seq<Fresh>, ls: seq<Launch>, s': State, r: Result<string>)
    requires |fs| == |autos| == |ls|
  {
    if name == "" || project == "" then r == Err(InvalidArgument) && s' == s
    else
      match Registry.CreateWorkspace(s, p, name, project)
      case Err(code) => r == Err(code) && s' == s
      case Ok(s1) =>
        && CanSpawn(s1, p)
        && var done := SpawnAll(s1, p, name, autos, fs, ls);
           s' == done.0 && r == if done.1.Ok? then Ok(name) else Err(done.1.code)
  }

  // ---------------------------------------------------------------------------------------------
  // The handlers
  // ---------------------------------------------------------------------------------------------

  /** A valid server and caller always meet what the abstract operations need. */
  lemma ValidIsInRange(v: Server)
    requires v.Valid()
    ensures InRange(v.Abs())
  {
  }

  /** The rest of a spawn whose entry is `a`, begun through `p`. */
  method CompleteSpawn(v: Server, a: AgentEntry, port: int, l: Launch, ghost p: Principal) returns (r: Result<Instance>)
    requires v.Valid() && v.HasAgent(a) && a.pb.id in v.agents && v.agents[a.pb.id] == a && CanSpawn(v.Abs(), p)
    modifies v`usedPorts, a
    ensures v.Valid()
    ensures
      var done := FinishSpawn(Begun(old(v.Abs()), p, a.ref, old(a.pb.id), port), l);
      && v.Abs() == done.s && done.p == p && a.ref < |v.Abs().heap|
      && r == if done.agent.Ok? then Ok(v.Abs().heap[a.ref].pb) else Err(done.agent.code)
  {
    if l.handle.None? {
      v.SpawnFailed(a.pb.id, port);
      return Err(Internal);
    }
    v.SpawnReady(a, l.handle.value, l.card);
    return Ok(a.pb);
  }

  /** Goes on after the first section, whose abstract outcome is `b`. */
  method GoOnSpawning(v: Server, c: Caller, begun: Result<AgentEntry>, port: int, l: Launch, ghost b: SpawnBegun)
    returns (r: Result<Instance>)
    requires v.Valid() && v.HasCaller(c) && GoesOn(b) && b == v.Outcome(c, begun, port)
    requires begun.Ok? ==>
               v.HasAgent(begun.value) && begun.value.pb.id in v.agents && v.agents[begun.value.pb.id] == begun.value
    modifies v`usedPorts, if begun.Ok? then {begun.value} else {}
    ensures v.Valid() && v.HasCaller(c) && Answers(FinishSpawn(b, l), v.Abs(), c.Abs(), r)
  {
    if begun.Err? {
      return Err(begun.code);
    }
    r := CompleteSpawn(v, begun.value, port, l, c.Abs());
  }

  lemma ValidCanSpawn(v: Server, c: Caller)
    requires v.Valid() && v.HasCaller(c)
    ensures CanSpawn(v.Abs(), c.Abs())
  {
  }

  method SpawnAgentInternal(v: Server, c: Caller, call: SpawnCall, f: Fresh, l: Launch)
    returns (c': Caller, r: Result<Instance>)
    requires v.Valid() && v.HasCaller(c) && CanSpawn(v.Abs(), c.Abs())
    modifies v`agents, v`heap, v`usedPorts, v`tokens, v`byBearer, v`toks, c.token, v.WorkspaceFrame(call.workspace)
    ensures v.Valid() && v.HasCaller(c') && c'.token == c.token
    ensures Answers(SpawnNow(old(v.Abs()), c.Abs(), call, f, l), v.Abs(), c'.Abs(), r)
  {
    SpawnGoesOn(v.Abs(), c.Abs(), call, f);
    ghost var b := SpawnBegin(v.Abs(), c.Abs(), call, f);
    var begun, port;
    c', begun, port := v.SpawnBegin(c, call, f);
    r := GoOnSpawning(v, c', begun, port, l, b);
  }

  method StopAgentInternal(v: Server, id: string)
    requires v.Valid()
    modifies v`usedPorts, v.AgentFrame(id)
    ensures v.Valid() && v.Abs() == StopAll(old(v.Abs()), [id])
  {
    var a := v.StopBegin(id);
    if a != null {
      v.StopEnd(a);
    }
  }

  /** The stop of an agent just looked up: nothing ran since, so the id still leads to it. */
  method StopFound(v: Server, id: string, a: AgentEntry) returns (pb: Instance)
    requires v.Valid() && id in v.agents && v.agents[id] == a && v.HasAgent(a)
    modifies v`usedPorts, a
    ensures v.Valid() && v.HasAgent(a)
    ensures v.Abs() == StopNow(old(v.Abs()), a.ref) && pb == v.Abs().heap[a.ref].pb
  {
    StopOne(v.Abs(), id);
    StopAgentInternal(v, id);
    pb := a.pb;
  }

  method StopAgent(v: Server, c: Caller, id: string) returns (r: Result<Instance>)
    requires v.Valid()
    modifies v`usedPorts, v.AgentFrame(id)
    ensures v.Valid() && InRange(old(v.Abs()))
    ensures StopOutcome(old(v.Abs()), c.Abs(), id, v.Abs(), r)
  {
    ValidIsInRange(v);
    if id == "" {
      return Err(InvalidArgument);
    }
    var found := v.FindAgentForCaller(c, id);
    if found.Err? {
      return Err(found.code);
    }
    var pb := StopFound(v, id, found.value);
    return Ok(pb);
  }

  method RestartAgent(v: Server, c: Caller, id: string, f: Fresh, l: Launch) returns (r: Result<Instance>)
    requires v.Valid()
    modifies v`usedPorts, v.AgentFrame(id)
    ensures v.Valid() && InRange(old(v.Abs()))
    ensures RestartOutcome(old(v.Abs()), c.Abs(), id, f, l, v.Abs(), r)
  {
    ValidIsInRange(v);
    if id == "" {
      return Err(InvalidArgument);
    }
    var found := v.FindAgentForCaller(c, id);
    if found.Err? {
      return Err(found.code);
    }
    r := RestartFound(v, id, found.value, f, l);
  }

  method RestartFound(v: Server, id: string, a: AgentEntry, f: Fresh, l: Launch) returns (r: Result<Instance>)
    requires v.Valid() && id in v.agents && v.agents[id] == a && v.HasAgent(a)
    modifies v`usedPorts, a
    ensures v.Valid()
    ensures
      var after := RelaunchNow(StopNow(old(v.Abs()), a.ref), a.ref, f, l);
      && v.Abs() == after.0 && a.ref < |v.Abs().heap|
      && r == (if after.1.Ok? then Ok(v.Abs().heap[a.ref].pb) else Err(after.1.code))
  {
    var pb := StopFound(v, id, a);
    var done := Relaunch(v, a, f, l);
    return if done.Ok? then Ok(a.pb) else Err(done.code);
  }

  /** The part of a restart after the stop. */
  method Relaunch(v: Server, a: AgentEntry, f: Fresh, l: Launch) returns (r: Result<()>)
    requires v.Valid() && v.HasAgent(a)
    modifies v`usedPorts, a
    ensures v.Valid() && (v.Abs(), r) == RelaunchNow(old(v.Abs()), a.ref, f, l)
  {
    var port := v.AllocPort(f.osFree, f.osPort);
    if port.None? {
      return Err(Internal);
    }
    if l.handle.None? {
      v.RestartFailed(a, port.value);
      return Err(Internal);
    }
    v.RestartReady(a, l.handle.value, l.card, f.now);
    return Ok(());
  }

  /** `ids` is the order in which the map of the workspace's agents is enumerated. */
  method DestroyWorkspace(v: Server, c: Caller, name: string, ids: seq<string>) returns (r: Result<()>)
    requires v.Valid()
    requires name in v.workspaces ==> Enumerates(ids, v.workspaces[name].agents)
    modifies v`usedPorts, v`agents, v`workspaces, v.WorkspaceFrame(name), v.agents.Values
    ensures v.Valid() && InRange(old(v.Abs()))
    ensures DestroyOutcome(old(v.Abs()), c.Abs(), name, ids, v.Abs(), r)
  {
    ValidIsInRange(v);
    if name == "" {
      return Err(InvalidArgument);
    }
    var found := v.DestroyTarget(c, name);
    if found.Err? {
      return Err(found.code);
    }
    StopEach(v, ids);
    v.DestroyEnd(name, found.value, ids);
    return Ok(());
  }

  method StopEach(v: Server, ids: seq<string>)
    requires v.Valid()
    modifies v`usedPorts, v.agents.Values
    ensures v.Valid() && v.Abs() == StopAll(old(v.Abs()), ids)
  {
    ghost var s := v.Abs();
    for i := 0 to |ids|
      invariant v.Valid()
      invariant v.Abs().agents == s.agents && |v.Abs().heap| == |s.heap|
      invariant StopAll(v.Abs(), ids[i..]) == StopAll(s, ids)
    {
      ghost var here := v.Abs();
      assert ids[i..][1..] == ids[i + 1..];
      StopAgentInternal(v, ids[i]);
      StopOne(here, ids[i]);
    }
  }

  lemma StopOne(s: State, id: string)
    requires forall k | k in s.agents :: s.agents[k] < |s.heap|
    ensures StopAll(s, [id]) == if id in s.agents then StopNow(s, s.agents[id]) else s
  {
  }

  method SpawnAgent(v: Server, c: Caller, call: SpawnCall, f: Fresh, l: Launch)
    returns (c': Caller, r: Result<Instance>)
    requires v.Valid() && v.HasCaller(c)
    modifies v`agents, v`heap, v`usedPorts, v`tokens, v`byBearer, v`toks, c.token, v.WorkspaceFrame(call.workspace)
    ensures v.Valid() && v.HasCaller(c') && CanSpawn(old(v.Abs()), c.Abs())
    ensures SpawnOutcome(old(v.Abs()), c.Abs(), call, f, l, v.Abs(), c'.Abs(), r)
  {
    ValidCanSpawn(v, c);
    if call.workspace == "" {
      return c, Err(InvalidArgument);
    }
    if call.template == "" {
      return c, Err(InvalidArgument);
    }
    c', r := SpawnAgentInternal(v, c, call.(fixedId := ""), f, l);
  }

  /** The loop over the auto agents; it ends at the first failure. */
  method SpawnAutoAgents(v: Server, c: Caller, name: string, autos: seq<string>, fs: seq<Fresh>, ls: seq<Launch>)
    returns (r: Result<()>)
    requires v.Valid() && v.HasCaller(c) && name in v.workspaces && |fs| == |autos| == |ls|
    modifies v`agents, v`heap, v`usedPorts, v`tokens, v`byBearer, v`toks, c.token, v.WorkspaceFrame(name)
    ensures v.Valid() && CanSpawn(old(v.Abs()), c.Abs())
    ensures (v.Abs(), r) == SpawnAll(old(v.Abs()), c.Abs(), name, autos, fs, ls)
  {
    var caller := c;
    ValidCanSpawn(v, c);
    ghost var s, p := v.Abs(), c.Abs();
    for i := 0 to |autos|
      invariant v.Valid() && v.HasCaller(caller) && caller.token == c.token && CanSpawn(v.Abs(), caller.Abs())
      invariant SpawnAll(v.Abs(), caller.Abs(), name, autos[i..], fs[i..], ls[i..])
                == SpawnAll(s, p, name, autos, fs, ls)
    {
      assert autos[i..][1..] == autos[i + 1..] && fs[i..][1..] == fs[i + 1..] && ls[i..][1..] == ls[i + 1..];
      SpawnedCanSpawn(v.Abs(), caller.Abs(), AutoCall(name, autos[i]), fs[i], ls[i]);
      var one;
      caller, one := SpawnAgentInternal(v, caller, AutoCall(name, autos[i]), fs[i], ls[i]);
      if one.Err? {
        return Err(one.code);
      }
    }
    return Ok(());
  }

  /** The auto agents of the workspace just entered. */
  method FillWorkspace(v: Server, c: Caller, ws: WorkspaceEntry, autos: seq<string>, fs: seq<Fresh>, ls: seq<Launch>)
    returns (r: Result<WorkspaceEntry>)
    requires v.Valid() && v.HasCaller(c) && |fs| == |autos| == |ls|
    requires v.HasWorkspace(ws) && ws.name in v.workspaces && v.workspaces[ws.name] == ws
    modifies v`agents, v`heap, v`usedPorts, v`tokens, v`byBearer, v`toks, c.token, ws
    ensures v.Valid() && CanSpawn(old(v.Abs()), c.Abs())
    ensures
      var done := SpawnAll(old(v.Abs()), c.Abs(), ws.name, autos, fs, ls);
      v.Abs() == done.0 && r == if done.1.Ok? then Ok(ws) else Err(done.1.code)
  {
    var done := SpawnAutoAgents(v, c, ws.name, autos, fs, ls);
    return if done.Ok? then Ok(ws) else Err(done.code);
  }

  function NameOf(r: Result<WorkspaceEntry>): Result<string> {
    match r
    case Ok(ws) => Ok(ws.name)
    case Err(code) => Err(code)
  }

  method CreateWorkspace(v: Server, c: Caller, name: string, project: string, autos: seq<string>,
                         fs: seq<Fresh>, ls: seq<Launch>)
    returns (r: Result<WorkspaceEntry>)
    requires v.Valid() && v.HasCaller(c) && |fs| == |autos| == |ls|
    modifies v, c.token
    ensures v.Valid()
    ensures CreateOutcome(old(v.Abs()), c.Abs(), name, project, autos, fs, ls, v.Abs(), NameOf(r))
    ensures r.Ok? ==> v.HasWorkspace(r.value) && name in v.workspaces && v.workspaces[name] == r.value
  {
    if name == "" {
      return Err(InvalidArgument);
    }
    if project == "" {
      return Err(InvalidArgument);
    }
    var ws := v.CreateWorkspace(c, name, project);
    if ws.Err? {
      return Err(ws.code);
    }
    r := FillWorkspace(v, c, ws.value, autos, fs, ls);
  }

  // ---------------------------------------------------------------------------------------------
  // What a spawn amounts to
  // ---------------------------------------------------------------------------------------------

  /** The new entry, listed under the spawn's id and kept by its workspace. */
  ghost predicate SpawnedAs(s: State, call: SpawnCall, f: Fresh, s': State, ref: Ref) {
    && ref < |s'.heap| && ref == |s.heap|
    && SpawnId(call, f) in s'.agents && s'.agents[SpawnId(call, f)] == ref
    && s'.heap[ref].pb.id == SpawnId(call, f) && s'.heap[ref].pb.workspace == call.workspace
    && call.workspace in s'.workspaces && s'.workspaces[call.workspace] < |s'.wsHeap|
    && SpawnId(call, f) in s'.wsHeap[s'.workspaces[call.workspace]].agents
  }

  /** A spawn has added at most one entry: READY with a current card, or in ERROR with its port free again. */
  ghost predicate OneEntryAdded(s: State, call: SpawnCall, f: Fresh, l: Launch, r: Spawned) {
    && |s.heap| <= |r.s.heap| <= |s.heap| + 1
    && (forall i | 0 <= i < |s.heap| :: r.s.heap[i] == s.heap[i])
    && (r.agent.Ok? ==>
          && SpawnedAs(s, call, f, r.s, r.agent.value) && l.handle.Some?
          && var a := r.s.heap[r.agent.value];
             && a.pb.status == Ready && a.handle == l.handle && a.pb.port == Int32(l.handle.value.port)
             && CardCurrent(r.s.cfg, a))
    && (r.agent.Err? && |r.s.heap| > |s.heap| ==>
          && SpawnedAs(s, call, f, r.s, |s.heap|) && r.s.heap[|s.heap|].pb.status == Error
          && exists q :: r.s.usedPorts == s.usedPorts + {q} - {q})
  }

  lemma FinishAddsOneEntry(s: State, call: SpawnCall, f: Fresh, b: SpawnBegun, l: Launch)
    requires GoesOn(b)
    requires
      if b.Begun? then Entered(s, call, b) && b.id == SpawnId(call, f) && b.s.usedPorts == s.usedPorts + {b.port}
      else b.s.heap == s.heap
    ensures OneEntryAdded(s, call, f, l, FinishSpawn(b, l))
  {
    if b.Begun? && l.handle.None? {
      assert FinishSpawn(b, l).s.usedPorts == s.usedPorts + {b.port} - {b.port};
    }
  }

  /**
   * Alone, a spawn adds at most one entry and touches no other. If it succeeds the entry is READY
   * on the backend's port with a current card; if the backend fails it stays behind in ERROR and
   * the port reserved for it is free again.
   */
  lemma SpawnAddsOneEntry(s: State, p: Principal, call: SpawnCall, f: Fresh, l: Launch)
    requires InRange(s) && PrincipalInRange(s, p)
    ensures CanSpawn(s, p) && OneEntryAdded(s, call, f, l, SpawnNow(s, p, call, f, l))
  {
    SpawnBeginShape(s, p, call, f);
    SpawnGoesOn(s, p, call, f);
    FinishAddsOneEntry(s, call, f, SpawnBegin(s, p, call, f), l);
  }

  // ---------------------------------------------------------------------------------------------
  // What a destroy amounts to
  // ---------------------------------------------------------------------------------------------

  lemma {:induction false} StopAllStops(s: State, ids: seq<string>, i: Ref)
    requires forall k | k in s.agents :: s.agents[k] < |s.heap|
    requires i < |s.heap|
    ensures
      var stopped := exists id :: id in ids && id in s.agents && s.agents[id] == i;
      var a := StopAll(s, ids).heap[i];
      if stopped then a.pb.status == Stopped && a.handle.None? && a.pb.pid == 0 else a == s.heap[i]
    decreases |ids|
  {
    if ids != [] {
      var s1 := if ids[0] in s.agents then StopNow(s, s.agents[ids[0]]) else s;
      StopAllStops(s1, ids[1..], i);
      assert ids == [ids[0]] + ids[1..];
    }
  }

  /**
   * Alone, DestroyWorkspace removes the workspace and exactly its agents, all of them stopped, and
   * leaves every other agent as it was.
   */
  lemma DestroyClears(s: State, name: string, ids: seq<string>)
    requires StateOk(s) && NoDangling(s) && AllHoused(s) && name in s.workspaces
    requires Enumerates(ids, s.wsHeap[s.workspaces[name]].agents)
    ensures
      var s' := DestroyEnd(StopAll(s, ids), name, s.workspaces[name], set id | id in ids);
      && s'.workspaces == s.workspaces - {name}
      && s'.agents == s.agents - AgentsOf(s, name)
      && (forall id | id in AgentsOf(s, name) ::
            var a := s'.heap[s.agents[id]]; a.pb.status == Stopped && a.handle.None? && a.pb.pid == 0)
      && (forall id | id in s'.agents :: s'.heap[s'.agents[id]] == s.heap[s.agents[id]])
  {
    HousedMeansAgreement(s, name);
    var gone := set id | id in ids;
    forall id | id in s.agents
      ensures
        var a := StopAll(s, ids).heap[s.agents[id]];
        if id in gone then a.pb.status == Stopped && a.handle.None? && a.pb.pid == 0 else a == s.heap[s.agents[id]]
    {
      StopAllStops(s, ids, s.agents[id]);
      assert ListedUnder(s, id);
      forall k | k in ids && k in s.agents && s.agents[k] == s.agents[id] ensures k == id {
        assert ListedUnder(s, k);
      }
    }
  }
}
