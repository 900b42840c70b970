/**
 * The server as the source has it: one object with maps of entry objects that its critical
 * sections update in place. Each method is one section (or a step of one) and is proved to take the
 * abstract state exactly where the function of the same purpose in Registry takes it.
 */
module ServerObjects {
  import opened JsonTree
  import opened Scopes
  import opened Registry
  import opened Listing

  class TokenEntry {
    ghost const ref: Ref
    const id: string
    const subject: string
    const scope: Scope
    const perm: Permission
    const parentTokenID: string
    const bearer: string
    const expiresAt: Option<Time>
    var sessionID: string

    constructor (ghost ref: Ref, t: Token)
      ensures this.ref == ref && Value() == t
    {
      this.ref := ref;
      id, subject, scope, perm := t.id, t.subject, t.scope, t.perm;
      parentTokenID, bearer, expiresAt, sessionID := t.parentId, t.bearer, t.expiresAt, t.session;
    }

    function Value(): Token
      reads this
    {
      Token(id, subject, scope, perm, sessionID, parentTokenID, bearer, expiresAt)
    }
  }

  class WorkspaceEntry {
    ghost const ref: Ref
    const name: string
    const project: string
    var active: bool
    var agents: set<string>

    constructor (ghost ref: Ref, name: string, project: string)
      ensures this.ref == ref && Value() == Workspace(name, project, true, {})
    {
      this.ref := ref;
      this.name, this.project, this.active, this.agents := name, project, true, {};
    }

    function Value(): Workspace
      reads this
    {
      Workspace(name, project, active, agents)
    }
  }

  class AgentEntry {
    ghost const ref: Ref
    const template: Template
    const project: string
    var pb: Instance
    var handle: Option<Handle>
    var cardBase: Json

    constructor (ghost ref: Ref, a: Agent)
      ensures this.ref == ref && Value() == a
    {
      this.ref := ref;
      template, project, pb, handle, cardBase := a.template, a.project, a.pb, a.handle, a.cardBase;
    }

    function Value(): Agent
      reads this
    {
      Agent(pb, handle, template, project, cardBase)
    }
  }

  ghost function TokenValues(ts: seq<TokenEntry>): seq<Token>
    reads ts
  {
    seq(|ts|, i requires 0 <= i < |ts| reads ts => ts[i].Value())
  }

  ghost function TokenRefs(m: map<string, TokenEntry>): map<string, Ref> {
    map k | k in m :: m[k].ref
  }

  lemma TokenRefsPut(m: map<string, TokenEntry>, k: string, tok: TokenEntry)
    ensures TokenRefs(m[k := tok]) == TokenRefs(m)[k := tok.ref]
  {
  }

  ghost function WorkspaceValues(ws: seq<WorkspaceEntry>): seq<Workspace>
    reads ws
  {
    seq(|ws|, i requires 0 <= i < |ws| reads ws => ws[i].Value())
  }

  ghost function WorkspaceRefs(m: map<string, WorkspaceEntry>): map<string, Ref> {
    map k | k in m :: m[k].ref
  }

  ghost function AgentValues(es: seq<AgentEntry>): seq<Agent>
    reads es
  {
    seq(|es|, i requires 0 <= i < |es| reads es => es[i].Value())
  }

  ghost function AgentRefs(m: map<string, AgentEntry>): map<string, Ref> {
    map k | k in m :: m[k].ref
  }

  lemma AgentRefsPut(m: map<string, AgentEntry>, k: string, a: AgentEntry)
    ensures AgentRefs(m[k := a]) == AgentRefs(m)[k := a.ref]
  {
  }

  lemma AgentValuesSnoc(es: seq<AgentEntry>, a: AgentEntry)
    ensures AgentValues(es + [a]) == AgentValues(es) + [a.Value()]
  {
  }

  /** The caller of an RPC; `token` is nil for the local administrator. */
  datatype Caller = Caller(
    token: TokenEntry?, subject: string, scope: Option<Scope>, perm: Permission, session: string)
  {
    ghost function Abs(): Principal {
      Principal(if token == null then None else Some(token.ref), subject, scope, perm, session)
    }
  }

  class Server {
    const cfg: Config
    var projects: map<string, Project>
    var workspaces: map<string, WorkspaceEntry>
    var agents: map<string, AgentEntry>
    var tokens: map<string, TokenEntry>
    var byBearer: map<string, TokenEntry>
    var usedPorts: set<int>

    // Every entry ever made, in order of creation: deleted ones may still be held by an RPC.
    ghost var wsHeap: seq<WorkspaceEntry>
    ghost var heap: seq<AgentEntry>
    ghost var toks: seq<TokenEntry>

    ghost predicate Valid()
      reads this
    {
      && (forall i | 0 <= i < |heap| :: heap[i].ref == i)
      && (forall i | 0 <= i < |wsHeap| :: wsHeap[i].ref == i)
      && (forall i | 0 <= i < |toks| :: toks[i].ref == i)
      && (forall id | id in agents :: HasAgent(agents[id]))
      && (forall n | n in workspaces :: HasWorkspace(workspaces[n]))
      && (forall t | t in tokens :: HasToken(tokens[t]))
      && (forall b | b in byBearer :: HasToken(byBearer[b]))
    }

    ghost predicate HasAgent(a: AgentEntry)
      reads this
    {
      a.ref < |heap| && heap[a.ref] == a
    }

    ghost predicate HasWorkspace(w: WorkspaceEntry)
      reads this
    {
      w.ref < |wsHeap| && wsHeap[w.ref] == w
    }

    ghost predicate HasToken(t: TokenEntry)
      reads this
    {
      t.ref < |toks| && toks[t.ref] == t
    }

    ghost predicate HasCaller(c: Caller)
      reads this
    {
      c.token != null ==> HasToken(c.token)
    }

    ghost function Abs(): State
      requires Valid()
      reads this, heap, wsHeap, toks
    {
      State(
        cfg, projects,
        WorkspaceValues(wsHeap), WorkspaceRefs(workspaces), AgentValues(heap), AgentRefs(agents),
        TokenValues(toks), TokenRefs(tokens), TokenRefs(byBearer), usedPorts)
    }

    constructor (cfg: Config)
      ensures Valid()
      ensures Abs() == State(cfg, map[], [], map[], [], map[], [], map[], map[], {})
    {
      this.cfg := cfg;
      projects, workspaces, agents, tokens, byBearer, usedPorts := map[], map[], map[], map[], map[], {};
      wsHeap, heap, toks := [], [], [];
    }

    // -------------------------------------------------------------------------------------------
    // Authentication and visibility
    // -------------------------------------------------------------------------------------------

    method Authenticate(bearer: string, loopback: bool, now: Time) returns (r: Result<Caller>)
      requires Valid()
      ensures
        var abs := Registry.Authenticate(Abs(), bearer, loopback, now);
        if r.Ok? then HasCaller(r.value) && abs == Ok(r.value.Abs()) else abs == Err(r.code)
    {
      if bearer != "" {
        if bearer !in byBearer {
          return Err(Unauthenticated);
        }
        var tok := byBearer[bearer];
        if tok.expiresAt.Some? && now > tok.expiresAt.value {
          return Err(Unauthenticated);
        }
        return Ok(Caller(tok, tok.subject, Some(tok.scope), tok.perm, tok.sessionID));
      }
      if cfg.localhostAdmin && loopback {
        return Ok(Caller(null, "localhost", Some(Scope(true, [])), PermAdmin, ""));
      }
      return Err(Unauthenticated);
    }

    method CanSeeAgent(c: Caller, a: AgentEntry) returns (ok: bool)
      ensures ok == CanSee(c.Abs(), a.Value())
    {
      if !CanAccess(c.scope, a.project) {
        return false;
      }
      if c.perm == PermSession {
        return c.session != "" && a.pb.session == c.session;
      }
      return true;
    }

    method WorkspaceVisible(c: Caller, w: WorkspaceEntry) returns (ok: bool)
      requires Valid() && HasWorkspace(w)
      ensures ok == Registry.WorkspaceVisible(Abs(), c.Abs(), w.Value())
    {
      if !CanAccess(c.scope, w.project) {
        return false;
      }
      if c.perm == PermSession {
        if c.session == "" {
          return false;
        }
        var ids := w.agents;
        while ids != {}
          invariant ids <= w.agents
          invariant forall id | id in w.agents - ids && id in agents :: agents[id].pb.session != c.session
          decreases ids
        {
          var id :| id in ids;
          if id in agents && agents[id].pb.session == c.session {
            assert Abs().heap[Abs().agents[id]].pb.session == c.session;
            return true;
          }
          ids := ids - {id};
        }
        return false;
      }
      return true;
    }

    method FindAgentForCaller(c: Caller, id: string) returns (r: Result<AgentEntry>)
      requires Valid()
      ensures
        var abs := FindAgent(Abs(), c.Abs(), id);
        if r.Ok? then HasAgent(r.value) && abs == Ok(r.value.ref) else abs == Err(r.code)
    {
      if id !in agents {
        return Err(NotFound);
      }
      var ok := CanSeeAgent(c, agents[id]);
      if !ok {
        return Err(PermissionDenied);
      }
      return Ok(agents[id]);
    }

    // -------------------------------------------------------------------------------------------
    // Ports and sessions
    // -------------------------------------------------------------------------------------------

    /** `osFree` are the ports a probe finds free; `osPort` is what the system would hand out. */
    method AllocPort(osFree: set<int>, osPort: Option<int>) returns (port: Option<int>)
      requires Valid()
      modifies this`usedPorts
      ensures Valid() && port == PortToReserve(old(Abs()), osFree, osPort)
      ensures Abs() == if port.Some? then Reserve(old(Abs()), port.value) else old(Abs())
    {
      var p := cfg.portMin;
      while p <= cfg.portMax
        invariant FirstFree(usedPorts, osFree, cfg.portMin, cfg.portMax) == FirstFree(usedPorts, osFree, p, cfg.portMax)
        decreases cfg.portMax - p
      {
        if p !in usedPorts && p in osFree {
          usedPorts := usedPorts + {p};
          return Some(p);
        }
        p := p + 1;
      }
      if osPort.None? {
        return None;
      }
      usedPorts := usedPorts + {osPort.value};
      return osPort;
    }

    method FreePort(port: int)
      requires Valid()
      modifies this`usedPorts
      ensures Valid() && Abs() == Registry.FreePort(old(Abs()), port)
    {
      usedPorts := usedPorts - {port};
    }

    method ResolveSession(c: Caller, freshId: string) returns (c': Caller, session: string)
      requires Valid() && HasCaller(c)
      modifies c.token
      ensures Valid() && HasCaller(c')
      ensures Registry.ResolveSession(old(Abs()), c.Abs(), freshId) == SessionGrant(Abs(), c'.Abs(), session)
    {
      if c.token != null {
        if c.token.sessionID == "" {
          c.token.sessionID := freshId;
        }
        assert TokenValues(toks) == old(TokenValues(toks))[c.token.ref := c.token.Value()];
        return c.(session := c.token.sessionID), c.token.sessionID;
      }
      return if c.session == "" then c.(session := freshId) else c, freshId;
    }

    method StoreToken(t: Token) returns (tok: TokenEntry)
      requires Valid()
      modifies this`tokens, this`byBearer, this`toks
      ensures Valid() && Abs() == AddToken(old(Abs()), t)
      ensures fresh(tok) && toks == old(toks) + [tok] && tok.Value() == t
    {
      tok := new TokenEntry(|toks|, t);
      toks := toks + [tok];
      tokens := tokens[tok.id := tok];
      byBearer := byBearer[tok.bearer := tok];
      assert TokenValues(toks) == old(TokenValues(toks)) + [t];
      TokenRefsPut(old(tokens), t.id, tok);
      TokenRefsPut(old(byBearer), t.bearer, tok);
    }

    method NewToken(c: Caller, reqScope: Option<Scope>, reqPerm: Permission, subject: string, session: string,
                    ttl: int, f: Fresh) returns (r: Result<Token>)
      requires Valid() && HasCaller(c)
      ensures r == Registry.NewToken(Abs(), c.Abs(), reqScope, reqPerm, subject, session, ttl, f)
    {
      var parentID := "";
      if c.token != null {
        parentID := c.token.id;
      }
      var scope: Scope;
      if reqScope.None? {
        scope := if c.scope.Some? then c.scope.value else Scope(true, []);
      } else {
        var narrower := ScopeSubset(reqScope, c.scope);
        if !narrower {
          return Err(PermissionDenied);
        }
        scope := reqScope.value;
      }
      var perm := reqPerm;
      if perm == PermUnspecified {
        perm := c.perm;
      } else if perm.Rank() > c.perm.Rank() {
        return Err(PermissionDenied);
      }
      return Ok(Token(f.tokId, subject, scope, perm, session, parentID, f.bearer,
                      if ttl > 0 then Some(f.now + ttl) else None));
    }

    method IssueToken(c: Caller, reqScope: Option<Scope>, reqPerm: Permission, subject: string, session: string,
                      ttl: int, f: Fresh) returns (r: Result<TokenEntry>)
      requires Valid() && HasCaller(c)
      modifies this`tokens, this`byBearer, this`toks
      ensures Valid() && (toks == old(toks) || exists t :: fresh(t) && toks == old(toks) + [t])
      ensures
        var abs := Registry.IssueToken(old(Abs()), c.Abs(), reqScope, reqPerm, subject, session, ttl, f);
        if r.Ok? then abs == Ok(Abs()) && fresh(r.value) && r.value.id == f.tokId
        else abs == Err(r.code) && Abs() == old(Abs())
    {
      var t := NewToken(c, reqScope, reqPerm, subject, session, ttl, f);
      if t.Err? {
        return Err(t.code);
      }
      var tok := StoreToken(t.value);
      return Ok(tok);
    }

    method ResolveTemplate(project: string, name: string) returns (t: Option<Template>)
      requires Valid()
      ensures t == Registry.ResolveTemplate(Abs(), project, name)
    {
      if project in projects {
        var ts := projects[project].agents;
        for i := 0 to |ts|
          invariant FindTemplate(ts, name) == FindTemplate(ts[i..], name)
        {
          if ts[i].name == name {
            return Some(ts[i]);
          }
        }
      }
      if name in cfg.templates {
        return Some(cfg.templates[name]);
      }
      return None;
    }

    // -------------------------------------------------------------------------------------------
    // Spawning
    // -------------------------------------------------------------------------------------------

    method RefreshCard(a: AgentEntry)
      modifies a`pb
      ensures a.Value() == Registry.RefreshCard(cfg, old(a.Value()))
    {
      a.pb := a.pb.(card := Some(EnrichedCard(cfg, a.Value())));
    }

    method AddToWorkspace(w: WorkspaceEntry, id: string)
      requires Valid() && HasWorkspace(w)
      modifies w`agents
      ensures Valid()
      ensures
        var ws := old(Abs()).wsHeap[w.ref];
        Abs() == old(Abs()).(wsHeap := old(Abs()).wsHeap[w.ref := ws.(agents := ws.agents + {id})])
    {
      w.agents := w.agents + {id};
      assert WorkspaceValues(wsHeap) == old(WorkspaceValues(wsHeap))[w.ref := w.Value()];
    }

    method AppendAgent(a: Agent) returns (entry: AgentEntry)
      requires Valid()
      modifies this`agents, this`heap
      ensures Valid()
      ensures Abs() == old(Abs()).(heap := old(Abs()).heap + [a],
                                   agents := old(Abs()).agents[a.pb.id := |old(Abs()).heap|])
      ensures fresh(entry) && heap == old(heap) + [entry] && HasAgent(entry) && entry.pb == a.pb
      ensures agents == old(agents)[a.pb.id := entry]
    {
      entry := new AgentEntry(|heap|, a);
      heap := heap + [entry];
      agents := agents[a.pb.id := entry];
      AgentValuesSnoc(old(heap), entry);
      AgentRefsPut(old(agents), a.pb.id, entry);
    }

    method EnterAgent(w: WorkspaceEntry, a: Agent) returns (entry: AgentEntry)
      requires Valid() && HasWorkspace(w)
      modifies this`agents, this`heap, w`agents
      ensures Valid() && Abs() == AddAgent(old(Abs()), w.ref, a)
      ensures fresh(entry) && heap == old(heap) + [entry] && HasAgent(entry)
      ensures entry.pb == a.pb && entry.pb.id in agents && agents[entry.pb.id] == entry
    {
      entry := AppendAgent(a);
      AddToWorkspace(w, a.pb.id);
    }

    /** The caller's session, and a token of that session for the new agent. */
    method SpawnToken(c: Caller, call: SpawnCall, f: Fresh) returns (c': Caller, session: string, r: Result<TokenEntry>)
      requires Valid() && HasCaller(c)
      modifies this`tokens, this`byBearer, this`toks, c.token
      ensures Valid() && HasCaller(c')
      ensures
        var g := Registry.ResolveSession(old(Abs()), c.Abs(), f.session);
        var subject := DisplayName(call.name, call.template);
        var issued := Registry.IssueToken(g.s, g.p, call.scope, call.perm, subject, g.session, 0, f);
        && c'.Abs() == g.p && c'.token == c.token && session == g.session
        && if r.Ok? then issued == Ok(Abs()) && r.value.id == f.tokId else issued == Err(r.code) && Abs() == g.s
    {
      c', session := ResolveSession(c, f.session);
      r := IssueToken(c', call.scope, call.perm, DisplayName(call.name, call.template), session, 0, f);
    }

    /** Enters the agent if its id is not taken; otherwise gives its port back. */
    method EnterUnlessTaken(w: WorkspaceEntry, a: Agent, port: int) returns (r: Result<AgentEntry>)
      requires Valid() && HasWorkspace(w)
      modifies this`agents, this`heap, this`usedPorts, w`agents
      ensures Valid()
      ensures a.pb.id in old(agents) ==> r == Err(AlreadyExists) && Abs() == Registry.FreePort(old(Abs()), port)
      ensures a.pb.id !in old(agents) ==>
                && r.Ok? && Abs() == AddAgent(old(Abs()), w.ref, a) && fresh(r.value) && HasAgent(r.value)
                && r.value.ref == old(|heap|) && r.value.pb.id == a.pb.id
                && a.pb.id in agents && agents[a.pb.id] == r.value
    {
      if a.pb.id in agents {
        FreePort(port);
        return Err(AlreadyExists);
      }
      var entry := EnterAgent(w, a);
      return Ok(entry);
    }

    /** The section after the port is reserved: session, child token, entry. */
    method SpawnWithPort(c: Caller, call: SpawnCall, w: WorkspaceEntry, t: Template, port: int, f: Fresh)
      returns (c': Caller, r: Result<AgentEntry>)
      requires Valid() && HasCaller(c) && HasWorkspace(w)
      modifies this`agents, this`heap, this`usedPorts, this`tokens, this`byBearer, this`toks, c.token, w
      ensures Valid() && HasCaller(c') && c'.token == c.token
      ensures Registry.SpawnWithPort(old(Abs()), c.Abs(), call, w.ref, t, port, f) == Outcome(c', r, port)
      ensures r.Ok? ==>
                fresh(r.value) && HasAgent(r.value) && r.value.pb.id in agents && agents[r.value.pb.id] == r.value
    {
      var spawnedBy := if c.token != null then c.token.id else "";
      assert spawnedBy == ParentId(Abs(), c.Abs());
      var project := w.project;
      assert project == Abs().wsHeap[w.ref].project;
      var session, tok;
      c', session, tok := SpawnToken(c, call, f);
      if tok.Err? {
        FreePort(port);
        return c', Err(tok.code);
      }
      var id := if call.fixedId == "" then f.agentId else call.fixedId;
      r := EnterUnlessTaken(
        w,
        Agent(
          Instance(id, call.template, call.workspace, Starting, Int32(port), "", ProxyUrl(cfg, id), 0,
                   f.tokId, session, spawnedBy, f.now, None),
          None, t, project, Obj(map[])),
        port);
    }

    /** The results of a spawn's first section as the abstract outcome. */
    ghost function Outcome(c': Caller, r: Result<AgentEntry>, port: int): SpawnBegun
      requires Valid()
      reads this, heap, wsHeap, toks, if r.Ok? then {r.value} else {}
    {
      if r.Ok? then Begun(Abs(), c'.Abs(), r.value.ref, r.value.pb.id, port)
      else Refused(Abs(), c'.Abs(), r.code)
    }

    /** The checks a spawn starts with: the workspace, the caller's access to it, the template. */
    method SpawnTarget(c: Caller, call: SpawnCall) returns (r: Result<(WorkspaceEntry, Template)>)
      requires Valid()
      ensures
        var abs := Registry.SpawnTarget(Abs(), c.Abs(), call);
        if r.Ok?
        then call.workspace in workspaces && r.value.0 == workspaces[call.workspace]
             && abs == Ok((r.value.0.ref, r.value.1))
        else abs == Err(r.code)
    {
      if call.workspace !in workspaces {
        return Err(NotFound);
      }
      var ws := workspaces[call.workspace];
      if !CanAccess(c.scope, ws.project) {
        return Err(PermissionDenied);
      }
      var tmpl := ResolveTemplate(ws.project, call.template);
      if tmpl.None? {
        return Err(NotFound);
      }
      return Ok((ws, tmpl.value));
    }

    method SpawnBegin(c: Caller, call: SpawnCall, f: Fresh) returns (c': Caller, r: Result<AgentEntry>, port: int)
      requires Valid() && HasCaller(c)
      modifies this`agents, this`heap, this`usedPorts, this`tokens, this`byBearer, this`toks
      modifies c.token, WorkspaceFrame(call.workspace)
      ensures Valid() && HasCaller(c') && c'.token == c.token
      ensures Registry.SpawnBegin(old(Abs()), c.Abs(), call, f) == Outcome(c', r, port)
      ensures r.Ok? ==>
                fresh(r.value) && HasAgent(r.value) && r.value.pb.id in agents && agents[r.value.pb.id] == r.value
    {
      var target := SpawnTarget(c, call);
      if target.Err? {
        return c, Err(target.code), 0;
      }
      var reserved := AllocPort(f.osFree, f.osPort);
      if reserved.None? {
        return c, Err(Internal), 0;
      }
      port := reserved.value;
      c', r := SpawnWithPort(c, call, target.value.0, target.value.1, port, f);
    }

    /** The workspace entry a section on `name` may write. */
    ghost function WorkspaceFrame(name: string): set<object>
      reads this
    {
      if name in workspaces then {workspaces[name]} else {}
    }

    ghost function AgentFrame(id: string): set<object>
      reads this
    {
      if id in agents then {agents[id]} else {}
    }

    method SpawnFailed(id: string, port: int)
      requires Valid()
      modifies this`usedPorts, AgentFrame(id)
      ensures Valid() && Abs() == Registry.SpawnFailed(old(Abs()), id, port)
    {
      if id in agents {
        var a := agents[id];
        a.pb := a.pb.(status := Error);
        assert AgentValues(heap) == old(AgentValues(heap))[a.ref := a.Value()];
      }
      FreePort(port);
    }

    /** Common end of a spawn and of a restart; a restart also renews the start time. */
    method TakeOver(a: AgentEntry, h: Handle, fetched: Option<Json>, startedAt: Time)
      requires Valid() && HasAgent(a)
      modifies a
      ensures Valid()
      ensures Abs() == SetAgent(old(Abs()), a.ref, Launched(cfg, old(a.Value()), h, fetched, startedAt))
    {
      a.handle := Some(h);
      a.cardBase := BaseCard(a.template, h.url, fetched);
      a.pb := a.pb.(directUrl := h.url, port := Int32(h.port), pid := Int32(h.pid), status := Ready,
                    startedAt := startedAt);
      RefreshCard(a);
      assert AgentValues(heap) == old(AgentValues(heap))[a.ref := a.Value()];
    }

    method SpawnReady(a: AgentEntry, h: Handle, fetched: Option<Json>)
      requires Valid() && HasAgent(a)
      modifies a
      ensures Valid() && Abs() == Registry.SpawnReady(old(Abs()), a.ref, h, fetched)
    {
      TakeOver(a, h, fetched, a.pb.startedAt);
    }

    // -------------------------------------------------------------------------------------------
    // Stopping and restarting
    // -------------------------------------------------------------------------------------------

    method StopBegin(id: string) returns (a: AgentEntry?)
      requires Valid()
      modifies AgentFrame(id)
      ensures Valid()
      ensures id in agents ==> a == agents[id] && HasAgent(a) && Abs() == Registry.StopBegin(old(Abs()), a.ref)
      ensures id !in agents ==> a == null && Abs() == old(Abs())
    {
      if id !in agents {
        return null;
      }
      a := agents[id];
      a.pb := a.pb.(status := Stopping);
      RefreshCard(a);
      assert AgentValues(heap) == old(AgentValues(heap))[a.ref := a.Value()];
    }

    /** The entry's part of the end of a stop. */
    method Halt(a: AgentEntry)
      requires Valid() && HasAgent(a)
      modifies a
      ensures Valid() && Abs() == SetAgent(old(Abs()), a.ref, Halted(cfg, old(a.Value())))
    {
      a.pb := a.pb.(status := Stopped, pid := 0);
      a.handle := None;
      RefreshCard(a);
      assert AgentValues(heap) == old(AgentValues(heap))[a.ref := a.Value()];
    }

    method StopEnd(a: AgentEntry)
      requires Valid() && HasAgent(a)
      modifies this`usedPorts, a
      ensures Valid() && Abs() == Registry.StopEnd(old(Abs()), a.ref)
    {
      var port := a.pb.port;
      Halt(a);
      FreePort(port);
    }

    method RestartFailed(a: AgentEntry, port: int)
      requires Valid() && HasAgent(a)
      modifies this`usedPorts, a
      ensures Valid() && Abs() == Registry.RestartFailed(old(Abs()), a.ref, port)
    {
      a.pb := a.pb.(status := Error);
      assert AgentValues(heap) == old(AgentValues(heap))[a.ref := a.Value()];
      FreePort(port);
    }

    method RestartReady(a: AgentEntry, h: Handle, fetched: Option<Json>, now: Time)
      requires Valid() && HasAgent(a)
      modifies a
      ensures Valid() && Abs() == Registry.RestartReady(old(Abs()), a.ref, h, fetched, now)
    {
      TakeOver(a, h, fetched, now);
    }

    // -------------------------------------------------------------------------------------------
    // Workspaces, projects, tokens
    // -------------------------------------------------------------------------------------------

    method EnterWorkspace(name: string, project: string) returns (ws: WorkspaceEntry)
      requires Valid()
      modifies this`workspaces, this`wsHeap
      ensures Valid() && HasWorkspace(ws) && fresh(ws) && ws.name == name && workspaces == old(workspaces)[name := ws]
      ensures Abs() == old(Abs()).(wsHeap := old(Abs()).wsHeap + [Workspace(name, project, true, {})],
                                   workspaces := old(Abs()).workspaces[name := |old(Abs()).wsHeap|])
    {
      ws := new WorkspaceEntry(|wsHeap|, name, project);
      wsHeap := wsHeap + [ws];
      workspaces := workspaces[name := ws];
      assert WorkspaceValues(wsHeap) == old(WorkspaceValues(wsHeap)) + [ws.Value()];
      assert WorkspaceRefs(workspaces) == old(WorkspaceRefs(workspaces))[name := old(|wsHeap|)];
    }

    method CreateWorkspace(c: Caller, name: string, project: string) returns (r: Result<WorkspaceEntry>)
      requires Valid()
      modifies this`workspaces, this`wsHeap
      ensures Valid()
      ensures
        var abs := Registry.CreateWorkspace(old(Abs()), c.Abs(), name, project);
        if r.Ok? then abs == Ok(Abs()) && HasWorkspace(r.value) else abs == Err(r.code) && Abs() == old(Abs())
      ensures r.Ok? ==> fresh(r.value) && r.value.name == name && workspaces == old(workspaces)[name := r.value]
    {
      if project !in projects {
        return Err(NotFound);
      }
      if !CanAccess(c.scope, project) {
        return Err(PermissionDenied);
      }
      if name in workspaces {
        return Err(AlreadyExists);
      }
      var ws := EnterWorkspace(name, project);
      return Ok(ws);
    }

    method DestroyTarget(c: Caller, name: string) returns (r: Result<WorkspaceEntry>)
      requires Valid()
      ensures
        var abs := Registry.DestroyTarget(Abs(), c.Abs(), name);
        if r.Ok? then HasWorkspace(r.value) && abs == Ok(r.value.ref) else abs == Err(r.code)
    {
      if name !in workspaces {
        return Err(NotFound);
      }
      var visible := WorkspaceVisible(c, workspaces[name]);
      if !visible {
        return Err(PermissionDenied);
      }
      return Ok(workspaces[name]);
    }

    method RemoveAgents(ids: seq<string>)
      requires Valid()
      modifies this`agents
      ensures Valid() && Abs() == old(Abs()).(agents := old(Abs()).agents - set id | id in ids)
    {
      for i := 0 to |ids|
        invariant agents == old(agents) - set id | id in ids[..i]
      {
        agents := agents - {ids[i]};
      }
      assert ids[..|ids|] == ids;
      assert AgentRefs(agents) == AgentRefs(old(agents)) - set id | id in ids;
    }

    method RemoveWorkspace(name: string)
      requires Valid()
      modifies this`workspaces
      ensures Valid() && Abs() == old(Abs()).(workspaces := old(Abs()).workspaces - {name})
    {
      workspaces := workspaces - {name};
      assert WorkspaceRefs(workspaces) == WorkspaceRefs(old(workspaces)) - {name};
    }

    method Deactivate(ws: WorkspaceEntry)
      requires Valid() && HasWorkspace(ws)
      modifies ws
      ensures Valid()
      ensures Abs() == old(Abs()).(wsHeap := old(Abs()).wsHeap[ws.ref := old(ws.Value()).(active := false)])
    {
      ws.active := false;
      assert WorkspaceValues(wsHeap) == old(WorkspaceValues(wsHeap))[ws.ref := ws.Value()];
    }

    method DestroyEnd(name: string, ws: WorkspaceEntry, ids: seq<string>)
      requires Valid() && HasWorkspace(ws)
      modifies this`agents, this`workspaces, ws
      ensures Valid() && Abs() == Registry.DestroyEnd(old(Abs()), name, ws.ref, set id | id in ids)
    {
      RemoveAgents(ids);
      Deactivate(ws);
      RemoveWorkspace(name);
    }

    method RegisterProject(c: Caller, name: string, repo: string, branch: string, templates: seq<Template>)
      returns (r: Result<Project>)
      requires Valid()
      modifies this`projects
      ensures Valid()
      ensures r.Err? ==> Abs() == old(Abs())
      ensures name == "" || repo == "" ==> r == Err(InvalidArgument)
      ensures name != "" && repo != "" ==>
                var proj := Project(name, repo, if branch == "" then "main" else branch, templates);
                var abs := Registry.RegisterProject(old(Abs()), c.Abs(), proj);
                if r.Ok? then r.value == proj && abs == Ok(Abs()) else abs == Err(r.code)
    {
      if name == "" || repo == "" {
        return Err(InvalidArgument);
      }
      if c.perm != PermAdmin {
        return Err(PermissionDenied);
      }
      if !CanAccess(c.scope, name) {
        return Err(PermissionDenied);
      }
      var proj := Project(name, repo, if branch == "" then "main" else branch, templates);
      projects := projects[name := proj];
      return Ok(proj);
    }

    method UnregisterProject(c: Caller, name: string) returns (r: Result<()>)
      requires Valid()
      modifies this`projects
      ensures Valid()
      ensures r.Err? ==> Abs() == old(Abs())
      ensures name == "" ==> r == Err(InvalidArgument)
      ensures name != "" ==>
                var abs := Registry.UnregisterProject(old(Abs()), c.Abs(), name);
                if r.Ok? then abs == Ok(Abs()) else abs == Err(r.code)
    {
      if name == "" {
        return Err(InvalidArgument);
      }
      if c.perm != PermAdmin {
        return Err(PermissionDenied);
      }
      if name !in projects {
        return Err(NotFound);
      }
      if !CanAccess(c.scope, name) {
        return Err(PermissionDenied);
      }
      var ids := agents.Keys;
      while ids != {}
        invariant ids <= agents.Keys
        invariant forall id | id in agents.Keys - ids ::
                    !(agents[id].project == name && IsActive(agents[id].pb.status))
        decreases ids
      {
        var id :| id in ids;
        if agents[id].project == name && IsActive(agents[id].pb.status) {
          assert Abs().heap[Abs().agents[id]].project == name;
          return Err(FailedPrecondition);
        }
        ids := ids - {id};
      }
      projects := projects - {name};
      return Ok(());
    }

    method CreateToken(c: Caller, scope: Option<Scope>, perm: Permission, subject: string, ttl: int, f: Fresh)
      returns (r: Result<TokenEntry>)
      requires Valid() && HasCaller(c)
      modifies this`tokens, this`byBearer, this`toks
      ensures Valid()
      ensures r.Err? ==> Abs() == old(Abs())
      ensures subject == "" || scope.None? || perm == PermUnspecified ==> r == Err(InvalidArgument)
      ensures subject != "" && scope.Some? && perm != PermUnspecified ==>
                var abs := Registry.CreateToken(old(Abs()), c.Abs(), scope.value, perm, subject, ttl, f);
                if r.Ok? then abs == Ok(Abs()) && r.value.id == f.tokId else abs == Err(r.code)
    {
      if subject == "" || scope.None? || perm == PermUnspecified {
        return Err(InvalidArgument);
      }
      if c.perm != PermAdmin {
        return Err(PermissionDenied);
      }
      r := IssueToken(c, scope, perm, subject, "", ttl, f);
    }

    // -------------------------------------------------------------------------------------------
    // Reading
    // -------------------------------------------------------------------------------------------

    lemma EntryListed(id: string)
      requires Valid() && id in agents
      ensures
        var s := Abs();
        id in s.agents && s.agents[id] < |s.heap| && s.heap[s.agents[id]] == agents[id].Value()
    {
    }

    /** The chain of checks an agent passes to be listed. */
    method Listed(c: Caller, filter: ListFilter, a: AgentEntry) returns (ok: bool)
      ensures ok == (CanSee(c.Abs(), a.Value()) && Passes(filter, a.pb))
    {
      var visible := CanSeeAgent(c, a);
      if !visible {
        return false;
      }
      if filter.workspace != "" && a.pb.workspace != filter.workspace {
        return false;
      }
      if filter.status != StatusUnspecified && a.pb.status != filter.status {
        return false;
      }
      if filter.template != "" && a.pb.template != filter.template {
        return false;
      }
      return true;
    }

    method ListAgents(c: Caller, filter: ListFilter) returns (resp: seq<Instance>)
      requires Valid()
      ensures resp == Listing.ListAgents(Abs(), c.Abs(), filter)
    {
      var ids := SortIds(agents.Keys);
      ghost var s, p := Abs(), c.Abs();
      assert s.agents.Keys == agents.Keys;
      ghost var all := ListWalk(s, p, filter, ids);
      resp := [];
      for i := 0 to |ids|
        invariant resp + ListWalk(s, p, filter, ids[i..]) == all
      {
        var a := agents[ids[i]];
        EntryListed(ids[i]);
        assert s.heap[s.agents[ids[i]]] == a.Value();
        ListWalkStep(s, p, filter, ids, i, resp);
        var listed := Listed(c, filter, a);
        if listed {
          resp := resp + [a.pb];
        }
      }
    }

    method Discovered(c: Caller, capability: string, a: AgentEntry) returns (ok: bool)
      ensures ok == Discoverable(c.Abs(), capability, a.Value())
    {
      var visible := CanSeeAgent(c, a);
      if !visible {
        return false;
      }
      if a.pb.status != Ready && a.pb.status != Busy {
        return false;
      }
      if capability != "" && !CardHas(a.cardBase, capability) {
        return false;
      }
      return true;
    }

    method DiscoverLocal(c: Caller, capability: string) returns (resp: seq<AgentCard>)
      requires Valid()
      ensures resp == Listing.DiscoverAgents(Abs(), c.Abs(), capability)
    {
      var ids := SortIds(agents.Keys);
      ghost var s, p := Abs(), c.Abs();
      assert s.agents.Keys == agents.Keys;
      ghost var all := DiscoverWalk(s, p, capability, ids);
      resp := [];
      for i := 0 to |ids|
        invariant resp + DiscoverWalk(s, p, capability, ids[i..]) == all
      {
        var a := agents[ids[i]];
        EntryListed(ids[i]);
        assert s.heap[s.agents[ids[i]]] == a.Value();
        DiscoverWalkStep(s, p, capability, ids, i, resp);
        var card := EnrichedCard(cfg, a.Value());
        var found := Discovered(c, capability, a);
        if found {
          resp := resp + [card];
        }
      }
    }
  }
}
