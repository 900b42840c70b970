/**
 * The state of the ARP server and its critical sections as functions on that state.
 *
 * Entries the Go code reaches through pointers live in append-only heaps and are named by their
 * position: an entry deleted from a map stays in its heap, as it stays reachable from RPCs that
 * still hold the pointer.
 */
module Registry {
  import opened JsonTree
  import opened Scopes

  type Ref = nat
  type Time = int

  datatype ErrorCode =
    | Unauthenticated | InvalidArgument | NotFound | AlreadyExists
    | PermissionDenied | FailedPrecondition | Internal

  datatype Result<+T> = Ok(value: T) | Err(code: ErrorCode) {
    function GetOr(default: T): T {
      if Ok? then value else default
    }
  }

  datatype Status =
    | StatusUnspecified | Starting | Ready | Busy | Error | Stopping | Stopped

  datatype Template = Template(name: string, cardName: string, description: string, tags: seq<string>)

  datatype Project = Project(name: string, repo: string, branch: string, agents: seq<Template>)

  datatype Handle = Handle(url: string, port: int, pid: int)

  datatype CardInterface = CardInterface(url: string, transport: string)

  /** The metadata.arp block of an enriched card. */
  datatype ArpMeta = ArpMeta(
    agentId: string, workspace: string, project: string, template: string, status: string,
    directUrl: string, proxyUrl: Option<string>, startedAt: Time)

  /** `body` is the agent's own card after conversion, without the parts the server overwrites. */
  datatype AgentCard = AgentCard(body: Json, interfaces: seq<CardInterface>, arp: ArpMeta)

  /** The AgentInstance message. */
  datatype Instance = Instance(
    id: string, template: string, workspace: string, status: Status, port: int,
    directUrl: string, proxyUrl: string, pid: int, tokenId: string, session: string,
    spawnedBy: string, startedAt: Time, card: Option<AgentCard>)

  datatype Agent = Agent(
    pb: Instance, handle: Option<Handle>, template: Template, project: string, cardBase: Json)

  datatype Workspace = Workspace(name: string, project: string, active: bool, agents: set<string>)

  datatype Token = Token(
    id: string, subject: string, scope: Scope, perm: Permission, session: string,
    parentId: string, bearer: string, expiresAt: Option<Time>)

  /** `convert` is the deterministic conversion of a decoded card to the typed message. */
  datatype Config = Config(
    gatewayBase: string, portMin: int, portMax: int, localhostAdmin: bool,
    templates: map<string, Template>, convert: Json -> Json)

  datatype State = State(
    cfg: Config,
    projects: map<string, Project>,
    wsHeap: seq<Workspace>, workspaces: map<string, Ref>,
    heap: seq<Agent>, agents: map<string, Ref>,
    toks: seq<Token>, tokens: map<string, Ref>, byBearer: map<string, Ref>,
    usedPorts: set<int>)

  datatype Principal = Principal(
    tok: Option<Ref>, subject: string, scope: Option<Scope>, perm: Permission, session: string)

  // ---------------------------------------------------------------------------------------------
  // Authentication and visibility
  // ---------------------------------------------------------------------------------------------

  const LOCALHOST := Principal(None, "localhost", Some(Scope(true, [])), PermAdmin, "")

  function PrincipalOf(s: State, r: Ref): Principal
    requires r < |s.toks|
  {
    var t := s.toks[r];
    Principal(Some(r), t.subject, Some(t.scope), t.perm, t.session)
  }

  /** An explicit bearer always wins; without one a loopback caller may be the administrator. */
  function Authenticate(s: State, bearer: string, loopback: bool, now: Time): Result<Principal>
    requires forall b | b in s.byBearer :: s.byBearer[b] < |s.toks|
  {
    if bearer != "" then
      if bearer !in s.byBearer then Err(Unauthenticated)
      else
        var r := s.byBearer[bearer];
        var expires := s.toks[r].expiresAt;
        if expires.Some? && now > expires.value then Err(Unauthenticated) else Ok(PrincipalOf(s, r))
    else if s.cfg.localhostAdmin && loopback then Ok(LOCALHOST)
    else Err(Unauthenticated)
  }

  predicate CanSee(p: Principal, a: Agent) {
    && CanAccess(p.scope, a.project)
    && (p.perm == PermSession ==> p.session != "" && a.pb.session == p.session)
  }

  predicate WorkspaceVisible(s: State, p: Principal, w: Workspace)
    requires forall id | id in s.agents :: s.agents[id] < |s.heap|
  {
    && CanAccess(p.scope, w.project)
    && (p.perm == PermSession ==>
          && p.session != ""
          && exists id :: id in w.agents && id in s.agents && s.heap[s.agents[id]].pb.session == p.session)
  }

  // ---------------------------------------------------------------------------------------------
  // Ports, cards, sessions
  // ---------------------------------------------------------------------------------------------

  /** The conversion int32(x) of Go: the low 32 bits, as a signed number. */
  function Int32(x: int): (r: int)
    ensures -0x8000_0000 <= r < 0x8000_0000
    ensures (r - x) % 0x1_0000_0000 == 0
    ensures -0x8000_0000 <= x < 0x8000_0000 ==> r == x
  {
    (x + 0x8000_0000) % 0x1_0000_0000 - 0x8000_0000
  }

  /** The first port of lo..hi that is neither reserved nor taken in the operating system. */
  function FirstFree(used: set<int>, osFree: set<int>, lo: int, hi: int): (r: Option<int>)
    ensures r.Some? ==>
              && lo <= r.value <= hi && r.value !in used && r.value in osFree
              && forall q | lo <= q < r.value :: q in used || q !in osFree
    ensures r.None? ==> forall q | lo <= q <= hi :: q in used || q !in osFree
    decreases hi - lo
  {
    if lo > hi then None
    else if lo !in used && lo in osFree then Some(lo)
    else FirstFree(used, osFree, lo + 1, hi)
  }

  /** The port to reserve: from the configured range, or else whatever the system hands out. */
  function PortToReserve(s: State, osFree: set<int>, osPort: Option<int>): Option<int> {
    var inRange := FirstFree(s.usedPorts, osFree, s.cfg.portMin, s.cfg.portMax);
    if inRange.Some? then inRange else osPort
  }

  function Reserve(s: State, port: int): State {
    s.(usedPorts := s.usedPorts + {port})
  }

  function FreePort(s: State, port: int): State {
    s.(usedPorts := s.usedPorts - {port})
  }

  function ProxyUrl(cfg: Config, id: string): string {
    if cfg.gatewayBase == "" then "" else cfg.gatewayBase + "/a2a/agents/" + id
  }

  function StatusString(st: Status): string {
    match st
    case StatusUnspecified => "unspecified"
    case Starting => "starting"
    case Ready => "ready"
    case Busy => "busy"
    case Error => "error"
    case Stopping => "stopping"
    case Stopped => "stopped"
  }

  function EnrichedCard(cfg: Config, a: Agent): AgentCard {
    AgentCard(
      cfg.convert(a.cardBase),
      [CardInterface(a.pb.directUrl, "HTTP_JSON")]
      + (if a.pb.proxyUrl != "" then [CardInterface(a.pb.proxyUrl, "HTTP_JSON")] else []),
      ArpMeta(
        a.pb.id, a.pb.workspace, a.project, a.pb.template, StatusString(a.pb.status), a.pb.directUrl,
        if a.pb.proxyUrl != "" then Some(a.pb.proxyUrl) else None, a.pb.startedAt))
  }

  function RefreshCard(cfg: Config, a: Agent): Agent {
    a.(pb := a.pb.(card := Some(EnrichedCard(cfg, a))))
  }

  function Strings(items: seq<string>): seq<Json> {
    seq(|items|, i requires 0 <= i < |items| => Str(items[i]))
  }

  /** The card the server makes up when the agent's own card cannot be fetched. */
  function FallbackCard(t: Template, directUrl: string): Json {
    var name := if t.cardName != "" then t.cardName else t.name;
    Obj(map[
      "name" := Str(name),
      "description" := Str(t.description),
      "version" := Str("1.0.0"),
      "supported_interfaces" := Arr([Obj(map["url" := Str(directUrl), "transport" := Str("HTTP_JSON")])]),
      "skills" := Arr([Obj(map["id" := Str(t.name), "name" := Str(name), "tags" := Arr(Strings(t.tags))])]),
      "default_input_modes" := Arr([Str("text/plain")]),
      "default_output_modes" := Arr([Str("text/plain")])])
  }

  function BaseCard(t: Template, directUrl: string, fetched: Option<Json>): Json {
    match fetched
    case Some(card) => card
    case None => FallbackCard(t, directUrl)
  }

  datatype SessionGrant = SessionGrant(s: State, p: Principal, session: string)

  /** The session of a spawn; the first spawn through a token writes it into the token. */
  function ResolveSession(s: State, p: Principal, freshId: string): SessionGrant
    requires p.tok.Some? ==> p.tok.value < |s.toks|
  {
    match p.tok
    case Some(r) =>
      var t := s.toks[r];
      var session := if t.session == "" then freshId else t.session;
      SessionGrant(s.(toks := s.toks[r := t.(session := session)]), p.(session := session), session)
    case None =>
      SessionGrant(s, if p.session == "" then p.(session := freshId) else p, freshId)
  }

  /** Values a section draws from the outside: random ids, the clock, the operating system. */
  datatype Fresh = Fresh(
    session: string, tokId: string, bearer: string, agentId: string, now: Time,
    osFree: set<int>, osPort: Option<int>)

  function ParentId(s: State, p: Principal): string
    requires p.tok.Some? ==> p.tok.value < |s.toks|
  {
    if p.tok.Some? then s.toks[p.tok.value].id else ""
  }

  function AddToken(s: State, tok: Token): State {
    s.(toks := s.toks + [tok],
       tokens := s.tokens[tok.id := |s.toks|],
       byBearer := s.byBearer[tok.bearer := |s.toks|])
  }

  /** The token a caller may hand down: no wider a scope, no higher a permission. */
  function NewToken(s: State, p: Principal, reqScope: Option<Scope>, reqPerm: Permission,
                    subject: string, session: string, ttl: int, f: Fresh): Result<Token>
    requires p.tok.Some? ==> p.tok.value < |s.toks|
  {
    if reqScope.Some? && !Subset(reqScope, p.scope) then Err(PermissionDenied)
    else if reqPerm != PermUnspecified && reqPerm.Rank() > p.perm.Rank() then Err(PermissionDenied)
    else
      var scope :=
        if reqScope.Some? then reqScope.value
        else if p.scope.Some? then p.scope.value
        else Scope(true, []);
      var perm := if reqPerm == PermUnspecified then p.perm else reqPerm;
      Ok(Token(f.tokId, subject, scope, perm, session, ParentId(s, p), f.bearer,
               if ttl > 0 then Some(f.now + ttl) else None))
  }

  /** Issues a token below `p`; on success it is the last one of the token heap. */
  function IssueToken(s: State, p: Principal, reqScope: Option<Scope>, reqPerm: Permission,
                      subject: string, session: string, ttl: int, f: Fresh): Result<State>
    requires p.tok.Some? ==> p.tok.value < |s.toks|
  {
    var tok := NewToken(s, p, reqScope, reqPerm, subject, session, ttl, f);
    if tok.Err? then Err(tok.code) else Ok(AddToken(s, tok.value))
  }

  function FindTemplate(ts: seq<Template>, name: string): (r: Option<Template>)
    ensures r.Some? ==> r.value in ts && r.value.name == name
    ensures r.None? ==> forall t | t in ts :: t.name != name
  {
    if ts == [] then None
    else if ts[0].name == name then Some(ts[0])
    else FindTemplate(ts[1..], name)
  }

  /** A project's own template shadows the server-wide one of the same name. */
  function ResolveTemplate(s: State, project: string, name: string): Option<Template> {
    var own := if project in s.projects then FindTemplate(s.projects[project].agents, name) else None;
    if own.Some? then own
    else if name in s.cfg.templates then Some(s.cfg.templates[name])
    else None
  }

  function FindAgent(s: State, p: Principal, id: string): Result<Ref>
    requires forall i | i in s.agents :: s.agents[i] < |s.heap|
  {
    if id !in s.agents then Err(NotFound)
    else if !CanSee(p, s.heap[s.agents[id]]) then Err(PermissionDenied)
    else Ok(s.agents[id])
  }

  // ---------------------------------------------------------------------------------------------
  // Spawning
  // ---------------------------------------------------------------------------------------------

  datatype SpawnCall = SpawnCall(
    workspace: string, template: string, name: string, scope: Option<Scope>, perm: Permission,
    fixedId: string)

  function DisplayName(name: string, template: string): string {
    if name != "" then name else template
  }

  /** Outcome of the first section of a spawn; `p` is the caller with the session it now carries. */
  datatype SpawnBegun =
    | Refused(s: State, p: Principal, code: ErrorCode)
    | Begun(s: State, p: Principal, ref: Ref, id: string, port: int)

  function NewAgent(s: State, p: Principal, call: SpawnCall, project: string, t: Template,
                    id: string, port: int, session: string, f: Fresh): Agent
    requires p.tok.Some? ==> p.tok.value < |s.toks|
  {
    Agent(
      Instance(id, call.template, call.workspace, Starting, Int32(port), "", ProxyUrl(s.cfg, id), 0,
               f.tokId, session, ParentId(s, p), f.now, None),
      None, t, project, Obj(map[]))
  }

  /** The caller is admitted to the workspace and the template exists. */
  function SpawnTarget(s: State, p: Principal, call: SpawnCall): Result<(Ref, Template)>
    requires forall n | n in s.workspaces :: s.workspaces[n] < |s.wsHeap|
  {
    if call.workspace !in s.workspaces then Err(NotFound)
    else
      var w := s.workspaces[call.workspace];
      var project := s.wsHeap[w].project;
      if !CanAccess(p.scope, project) then Err(PermissionDenied)
      else
        var t := ResolveTemplate(s, project, call.template);
        if t.None? then Err(NotFound) else Ok((w, t.value))
  }

  function SpawnId(call: SpawnCall, f: Fresh): string {
    if call.fixedId == "" then f.agentId else call.fixedId
  }

  function AddAgent(s: State, w: Ref, a: Agent): State
    requires w < |s.wsHeap|
  {
    var ws := s.wsHeap[w];
    s.(heap := s.heap + [a],
       agents := s.agents[a.pb.id := |s.heap|],
       wsHeap := s.wsHeap[w := ws.(agents := ws.agents + {a.pb.id})])
  }

  /** Everything of the first section after the port has been reserved in `s`. */
  function SpawnWithPort(s: State, p: Principal, call: SpawnCall, w: Ref, t: Template, port: int,
                         f: Fresh): SpawnBegun
    requires w < |s.wsHeap|
    requires p.tok.Some? ==> p.tok.value < |s.toks|
  {
    var grant := ResolveSession(s, p, f.session);
    var issued := IssueToken(grant.s, grant.p, call.scope, call.perm,
                             DisplayName(call.name, call.template), grant.session, 0, f);
    if issued.Err? then Refused(FreePort(grant.s, port), grant.p, issued.code)
    else
      var id := SpawnId(call, f);
      if id in s.agents then Refused(FreePort(issued.value, port), grant.p, AlreadyExists)
      else
        var a := NewAgent(s, p, call, s.wsHeap[w].project, t, id, port, grant.session, f);
        Begun(AddAgent(issued.value, w, a), grant.p, |s.heap|, id, port)
  }

  function SpawnBegin(s: State, p: Principal, call: SpawnCall, f: Fresh): SpawnBegun
    requires forall n | n in s.workspaces :: s.workspaces[n] < |s.wsHeap|
    requires p.tok.Some? ==> p.tok.value < |s.toks|
  {
    var target := SpawnTarget(s, p, call);
    if target.Err? then Refused(s, p, target.code)
    else
      var port := PortToReserve(s, f.osFree, f.osPort);
      if port.None? then Refused(s, p, Internal)
      else SpawnWithPort(Reserve(s, port.value), p, call, target.value.0, target.value.1, port.value, f)
  }

  function SetAgent(s: State, ref: Ref, a: Agent): State
    requires ref < |s.heap|
  {
    s.(heap := s.heap[ref := a])
  }

  /** The backend gave up: whatever entry now carries the id becomes ERROR, and the port is freed. */
  function SpawnFailed(s: State, id: string, port: int): State
    requires forall i | i in s.agents :: s.agents[i] < |s.heap|
  {
    var s1 :=
      if id in s.agents then
        var a := s.heap[s.agents[id]];
        SetAgent(s, s.agents[id], a.(pb := a.pb.(status := Error)))
      else s;
    FreePort(s1, port)
  }

  /** The agent answers: its entry takes over the handle and is READY. */
  function Launched(cfg: Config, a: Agent, h: Handle, fetched: Option<Json>, startedAt: Time): Agent {
    RefreshCard(cfg,
      a.(handle := Some(h),
         cardBase := BaseCard(a.template, h.url, fetched),
         pb := a.pb.(directUrl := h.url, port := Int32(h.port), pid := Int32(h.pid), status := Ready,
                     startedAt := startedAt)))
  }

  function SpawnReady(s: State, ref: Ref, h: Handle, fetched: Option<Json>): State
    requires ref < |s.heap|
  {
    SetAgent(s, ref, Launched(s.cfg, s.heap[ref], h, fetched, s.heap[ref].pb.startedAt))
  }

  // ---------------------------------------------------------------------------------------------
  // Stopping and restarting
  // ---------------------------------------------------------------------------------------------

  function Halting(cfg: Config, a: Agent): Agent {
    RefreshCard(cfg, a.(pb := a.pb.(status := Stopping)))
  }

  function Halted(cfg: Config, a: Agent): Agent {
    RefreshCard(cfg, a.(handle := None, pb := a.pb.(status := Stopped, pid := 0)))
  }

  /** First section of a stop on an id that is present. */
  function StopBegin(s: State, ref: Ref): State
    requires ref < |s.heap|
  {
    SetAgent(s, ref, Halting(s.cfg, s.heap[ref]))
  }

  /** Last section of a stop. The port freed is the one the entry shows at this moment. */
  function StopEnd(s: State, ref: Ref): State
    requires ref < |s.heap|
  {
    FreePort(SetAgent(s, ref, Halted(s.cfg, s.heap[ref])), s.heap[ref].pb.port)
  }

  function RestartFailed(s: State, ref: Ref, port: int): State
    requires ref < |s.heap|
  {
    var a := s.heap[ref];
    FreePort(SetAgent(s, ref, a.(pb := a.pb.(status := Error))), port)
  }

  function RestartReady(s: State, ref: Ref, h: Handle, fetched: Option<Json>, now: Time): State
    requires ref < |s.heap|
  {
    SetAgent(s, ref, Launched(s.cfg, s.heap[ref], h, fetched, now))
  }

  // ---------------------------------------------------------------------------------------------
  // Workspaces, projects, tokens
  // ---------------------------------------------------------------------------------------------

  function CreateWorkspace(s: State, p: Principal, name: string, project: string): Result<State> {
    if project !in s.projects then Err(NotFound)
    else if !CanAccess(p.scope, project) then Err(PermissionDenied)
    else if name in s.workspaces then Err(AlreadyExists)
    else Ok(s.(wsHeap := s.wsHeap + [Workspace(name, project, true, {})],
               workspaces := s.workspaces[name := |s.wsHeap|]))
  }

  /** First section of a destroy: the workspace entry, if the caller may see it. */
  function DestroyTarget(s: State, p: Principal, name: string): Result<Ref>
    requires forall i | i in s.agents :: s.agents[i] < |s.heap|
    requires forall n | n in s.workspaces :: s.workspaces[n] < |s.wsHeap|
  {
    if name !in s.workspaces then Err(NotFound)
    else if !WorkspaceVisible(s, p, s.wsHeap[s.workspaces[name]]) then Err(PermissionDenied)
    else Ok(s.workspaces[name])
  }

  /** Last section of a destroy: drops the snapshot's ids and whatever workspace has the name. */
  function DestroyEnd(s: State, name: string, w: Ref, ids: set<string>): State
    requires w < |s.wsHeap|
  {
    s.(agents := s.agents - ids,
       wsHeap := s.wsHeap[w := s.wsHeap[w].(active := false)],
       workspaces := s.workspaces - {name})
  }

  function RegisterProject(s: State, p: Principal, proj: Project): Result<State> {
    if p.perm != PermAdmin then Err(PermissionDenied)
    else if !CanAccess(p.scope, proj.name) then Err(PermissionDenied)
    else Ok(s.(projects := s.projects[proj.name := proj]))
  }

  predicate IsActive(st: Status) {
    st != Stopped && st != Error && st != StatusUnspecified
  }

  function UnregisterProject(s: State, p: Principal, name: string): Result<State>
    requires forall i | i in s.agents :: s.agents[i] < |s.heap|
  {
    if p.perm != PermAdmin then Err(PermissionDenied)
    else if name !in s.projects then Err(NotFound)
    else if !CanAccess(p.scope, name) then Err(PermissionDenied)
    else if exists id :: id in s.agents && s.heap[s.agents[id]].project == name
                         && IsActive(s.heap[s.agents[id]].pb.status)
    then Err(FailedPrecondition)
    else Ok(s.(projects := s.projects - {name}))
  }

  /** Besides spawning the only way to get a token, and it is for administrators. */
  function CreateToken(s: State, p: Principal, scope: Scope, perm: Permission, subject: string,
                       ttl: int, f: Fresh): Result<State>
    requires p.tok.Some? ==> p.tok.value < |s.toks|
  {
    if p.perm != PermAdmin then Err(PermissionDenied)
    else IssueToken(s, p, Some(scope), perm, subject, "", ttl, f)
  }
}
