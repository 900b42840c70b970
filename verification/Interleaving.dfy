/**
 * The server under concurrency: any number of RPCs in flight, each advancing one critical section
 * at a time. Between two sections of an RPC any sections of other RPCs may run.
 */
module Interleaving {
  import opened JsonTree
  import opened Scopes
  import opened Registry

  /** What follows a spawn: the RPC returns, or CreateWorkspace goes on with its auto agents. */
  datatype AfterSpawn = ReturnInstance | MoreAuto(workspace: string, rest: seq<string>)

  /** What follows a stop: StopAgent returns, RestartAgent relaunches, DestroyWorkspace goes on. */
  datatype AfterStop =
    | ReturnStopped
    | ThenRestart(agent: Ref)
    | ThenDestroy(name: string, ws: Ref, ids: seq<string>, rest: seq<string>)

  /** An RPC in flight: its next critical section, with the locals that section needs. */
  datatype Task =
    | SpawnTask(p: Principal, call: SpawnCall, afterSpawn: AfterSpawn)
    | Launching(p: Principal, ref: Ref, id: string, port: int, afterSpawn: AfterSpawn)
    | FindToStop(p: Principal, id: string)
    | FindToRestart(p: Principal, id: string)
    | StopTask(id: string, afterStop: AfterStop)
    | Halting(ref: Ref, handle: Option<Handle>, afterStop: AfterStop)
    | RestartTask(ref: Ref)
    | Relaunching(ref: Ref, port: int)
    | CreateWorkspaceTask(p: Principal, name: string, project: string, autoAgents: seq<string>)
    | FindToDestroy(p: Principal, name: string)
    | DestroyTask(name: string, ws: Ref, ids: seq<string>)
    | RegisterTask(p: Principal, proj: Project)
    | UnregisterTask(p: Principal, name: string)
    | TokenTask(p: Principal, scope: Scope, perm: Permission, subject: string, ttl: int)

  /**
   * What the environment decides about one section: fresh values, the order in which a map is
   * enumerated, and for a finished backend call the handle (none: it failed) and the fetched card.
   */
  datatype Choice = Choice(f: Fresh, order: seq<string>, handle: Option<Handle>, card: Option<Json>)

  datatype System = System(s: State, tasks: map<nat, Task>)

  // ---------------------------------------------------------------------------------------------
  // References in range
  // ---------------------------------------------------------------------------------------------

  ghost predicate InRange(s: State) {
    && (forall id | id in s.agents :: s.agents[id] < |s.heap|)
    && (forall n | n in s.workspaces :: s.workspaces[n] < |s.wsHeap|)
    && (forall b | b in s.byBearer :: s.byBearer[b] < |s.toks|)
    && (forall t | t in s.tokens :: s.tokens[t] < |s.toks|)
  }

  ghost predicate PrincipalInRange(s: State, p: Principal) {
    p.tok.Some? ==> p.tok.value < |s.toks|
  }

  ghost predicate AfterStopInRange(s: State, after: AfterStop) {
    match after
    case ReturnStopped => true
    case ThenRestart(agent) => agent < |s.heap|
    case ThenDestroy(_, ws, _, _) => ws < |s.wsHeap|
  }

  ghost predicate TaskInRange(s: State, t: Task) {
    match t
    case SpawnTask(p, _, _) => PrincipalInRange(s, p)
    case Launching(p, ref, _, _, _) => PrincipalInRange(s, p) && ref < |s.heap|
    case FindToStop(p, _) => PrincipalInRange(s, p)
    case FindToRestart(p, _) => PrincipalInRange(s, p)
    case StopTask(_, after) => AfterStopInRange(s, after)
    case Halting(ref, _, after) => ref < |s.heap| && AfterStopInRange(s, after)
    case RestartTask(ref) => ref < |s.heap|
    case Relaunching(ref, _) => ref < |s.heap|
    case CreateWorkspaceTask(p, _, _, _) => PrincipalInRange(s, p)
    case FindToDestroy(p, _) => PrincipalInRange(s, p)
    case DestroyTask(_, ws, _) => ws < |s.wsHeap|
    case RegisterTask(p, _) => PrincipalInRange(s, p)
    case UnregisterTask(p, _) => PrincipalInRange(s, p)
    case TokenTask(p, _, _, _, _) => PrincipalInRange(s, p)
  }

  // ---------------------------------------------------------------------------------------------
  // One section
  // ---------------------------------------------------------------------------------------------

  function AutoCall(workspace: string, template: string): SpawnCall {
    SpawnCall(workspace, template, "", None, PermUnspecified, "")
  }

  function NextSpawn(p: Principal, after: AfterSpawn): Option<Task> {
    match after
    case ReturnInstance => None
    case MoreAuto(w, rest) =>
      if rest == [] then None
      else Some(SpawnTask(p, AutoCall(w, rest[0]), MoreAuto(w, rest[1..])))
  }

  function NextStop(name: string, ws: Ref, ids: seq<string>, rest: seq<string>): Task {
    if rest == [] then DestroyTask(name, ws, ids)
    else StopTask(rest[0], ThenDestroy(name, ws, ids, rest[1..]))
  }

  function AfterHalt(after: AfterStop): Option<Task> {
    match after
    case ReturnStopped => None
    case ThenRestart(agent) => Some(RestartTask(agent))
    case ThenDestroy(name, ws, ids, rest) => Some(NextStop(name, ws, ids, rest))
  }

  type After = (State, Option<Task>)

  ghost function SpawnSection(s: State, t: Task, c: Choice): After
    requires InRange(s) && TaskInRange(s, t) && t.SpawnTask?
  {
    match SpawnBegin(s, t.p, t.call, c.f)
    case Refused(s', _, _) => (s', None)
    case Begun(s', p', ref, id, port) => (s', Some(Launching(p', ref, id, port, t.afterSpawn)))
  }

  ghost function LaunchSection(s: State, t: Task, c: Choice): After
    requires InRange(s) && TaskInRange(s, t) && t.Launching?
  {
    if c.handle.None? then (SpawnFailed(s, t.id, t.port), None)
    else (SpawnReady(s, t.ref, c.handle.value, c.card), NextSpawn(t.p, t.afterSpawn))
  }

  /** The id is looked up again; a stop of an agent that is gone by now does nothing. */
  ghost function StopSection(s: State, t: Task): After
    requires InRange(s) && TaskInRange(s, t) && t.StopTask?
  {
    if t.id in s.agents then
      var ref := s.agents[t.id];
      (StopBegin(s, ref), Some(Halting(ref, s.heap[ref].handle, t.afterStop)))
    else (s, AfterHalt(t.afterStop))
  }

  /** The process behind `t.handle` has been stopped by now; the entry drops the handle it has now. */
  ghost function HaltSection(s: State, t: Task): After
    requires InRange(s) && TaskInRange(s, t) && t.Halting?
  {
    (StopEnd(s, t.ref), AfterHalt(t.afterStop))
  }

  ghost function RestartSection(s: State, t: Task, c: Choice): After
    requires InRange(s) && TaskInRange(s, t) && t.RestartTask?
  {
    var port := PortToReserve(s, c.f.osFree, c.f.osPort);
    if port.None? then (s, None) else (Reserve(s, port.value), Some(Relaunching(t.ref, port.value)))
  }

  ghost function RelaunchSection(s: State, t: Task, c: Choice): After
    requires InRange(s) && TaskInRange(s, t) && t.Relaunching?
  {
    if c.handle.None? then (RestartFailed(s, t.ref, t.port), None)
    else (RestartReady(s, t.ref, c.handle.value, c.card, c.f.now), None)
  }

  /** Sections that only look something up. */
  ghost function FindSection(s: State, t: Task, c: Choice): After
    requires InRange(s) && TaskInRange(s, t) && (t.FindToStop? || t.FindToRestart? || t.FindToDestroy?)
  {
    if t.FindToStop? then
      (s, if FindAgent(s, t.p, t.id).Ok? then Some(StopTask(t.id, ReturnStopped)) else None)
    else if t.FindToRestart? then
      var found := FindAgent(s, t.p, t.id);
      (s, if found.Ok? then Some(StopTask(t.id, ThenRestart(found.value))) else None)
    else
      var found := DestroyTarget(s, t.p, t.name);
      (s, if found.Ok? then Some(NextStop(t.name, found.value, c.order, c.order)) else None)
  }

  ghost function CreateSection(s: State, t: Task): After
    requires InRange(s) && TaskInRange(s, t) && t.CreateWorkspaceTask?
  {
    match CreateWorkspace(s, t.p, t.name, t.project)
    case Err(_) => (s, None)
    case Ok(s') => (s', NextSpawn(t.p, MoreAuto(t.name, t.autoAgents)))
  }

  ghost function DestroySection(s: State, t: Task): After
    requires InRange(s) && TaskInRange(s, t) && t.DestroyTask?
  {
    (DestroyEnd(s, t.name, t.ws, set id | id in t.ids), None)
  }

  ghost function AdminSection(s: State, t: Task, c: Choice): After
    requires InRange(s) && TaskInRange(s, t) && (t.RegisterTask? || t.UnregisterTask? || t.TokenTask?)
  {
    if t.RegisterTask? then (RegisterProject(s, t.p, t.proj).GetOr(s), None)
    else if t.UnregisterTask? then (UnregisterProject(s, t.p, t.name).GetOr(s), None)
    else (CreateToken(s, t.p, t.scope, t.perm, t.subject, t.ttl, c.f).GetOr(s), None)
  }

  /** Sections of the agent lifecycle. */
  predicate OnAgents(t: Task) {
    t.SpawnTask? || t.Launching? || t.StopTask? || t.Halting? || t.RestartTask? || t.Relaunching?
  }

  ghost function AgentSection(s: State, t: Task, c: Choice): After
    requires InRange(s) && TaskInRange(s, t) && OnAgents(t)
  {
    if t.SpawnTask? then SpawnSection(s, t, c)
    else if t.Launching? then LaunchSection(s, t, c)
    else if t.StopTask? then StopSection(s, t)
    else if t.Halting? then HaltSection(s, t)
    else if t.RestartTask? then RestartSection(s, t, c)
    else RelaunchSection(s, t, c)
  }

  ghost function OtherSection(s: State, t: Task, c: Choice): After
    requires InRange(s) && TaskInRange(s, t) && !OnAgents(t)
  {
    if t.CreateWorkspaceTask? then CreateSection(s, t)
    else if t.DestroyTask? then DestroySection(s, t)
    else if t.FindToStop? || t.FindToRestart? || t.FindToDestroy? then FindSection(s, t, c)
    else AdminSection(s, t, c)
  }

  /** The state after one section of `t`, and the rest of the RPC if it is not over. */
  ghost function Section(s: State, t: Task, c: Choice): After
    requires InRange(s) && TaskInRange(s, t)
  {
    if OnAgents(t) then AgentSection(s, t, c) else OtherSection(s, t, c)
  }

  /** Random ids and bearers do not collide; the system reports real port numbers. */
  ghost predicate FreshFor(s: State, f: Fresh) {
    && f.session != "" && f.tokId != "" && f.bearer != "" && f.agentId != ""
    && f.tokId !in s.tokens && f.bearer !in s.byBearer
    && (forall q | q in f.osFree :: 0 <= q < 0x1_0000)
    && (f.osPort.Some? ==> 0 <= f.osPort.value < 0x1_0000)
  }

  /** A destroy enumerates the ids of the workspace it found, each once, in any order. */
  ghost predicate Enumerates(ids: seq<string>, all: set<string>) {
    && (forall i, j | 0 <= i < j < |ids| :: ids[i] != ids[j])
    && (set id | id in ids) == all
  }

  ghost predicate Snapshots(s: State, t: Task, c: Choice)
    requires InRange(s) && TaskInRange(s, t) && t.FindToDestroy?
  {
    var found := DestroyTarget(s, t.p, t.name);
    found.Ok? ==> Enumerates(c.order, s.wsHeap[found.value].agents)
  }

  ghost predicate Possible(s: State, t: Task, c: Choice)
    requires InRange(s) && TaskInRange(s, t)
  {
    && FreshFor(s, c.f)
    && (t.FindToDestroy? ==> Snapshots(s, t, c))
  }

  // ---------------------------------------------------------------------------------------------
  // Runs
  // ---------------------------------------------------------------------------------------------

  /** The first section of every RPC: the caller is authenticated against the current tokens. */
  ghost predicate Admitted(s: State, p: Principal)
    requires InRange(s)
  {
    exists bearer, loopback, now :: Authenticate(s, bearer, loopback, now) == Ok(p)
  }

  /** The section an RPC starts with once the caller is known. */
  ghost predicate Initial(t: Task, p: Principal) {
    match t
    case SpawnTask(q, call, after) => q == p && call.workspace != "" && call.template != "" && after == ReturnInstance
    case FindToStop(q, id) => q == p && id != ""
    case FindToRestart(q, id) => q == p && id != ""
    case CreateWorkspaceTask(q, name, project, _) => q == p && name != "" && project != ""
    case FindToDestroy(q, name) => q == p && name != ""
    case RegisterTask(q, proj) => q == p && proj.name != ""
    case UnregisterTask(q, name) => q == p && name != ""
    case TokenTask(q, _, perm, subject, _) => q == p && perm != PermUnspecified && subject != ""
    case _ => false
  }

  ghost predicate Arrives(y: System, y': System, tid: nat, p: Principal) {
    && InRange(y.s) && tid !in y.tasks
    && y'.s == y.s && tid in y'.tasks && y'.tasks == y.tasks[tid := y'.tasks[tid]]
    && Admitted(y.s, p) && Initial(y'.tasks[tid], p)
  }

  function Put(tasks: map<nat, Task>, tid: nat, t: Option<Task>): map<nat, Task> {
    if t.Some? then tasks[tid := t.value] else tasks - {tid}
  }

  ghost predicate Advances(y: System, y': System, tid: nat, c: Choice) {
    && tid in y.tasks && InRange(y.s) && TaskInRange(y.s, y.tasks[tid])
    && Possible(y.s, y.tasks[tid], c)
    && var (s', t') := Section(y.s, y.tasks[tid], c);
       y' == System(s', Put(y.tasks, tid, t'))
  }

  datatype Event = Arrival(tid: nat, p: Principal) | Advance(tid: nat, c: Choice)

  ghost predicate Next(y: System, e: Event, y': System) {
    match e
    case Arrival(tid, p) => Arrives(y, y', tid, p)
    case Advance(tid, c) => Advances(y, y', tid, c)
  }

  ghost predicate Start(y: System) {
    && y.tasks == map[]
    && y.s.projects == map[] && y.s.wsHeap == [] && y.s.workspaces == map[]
    && y.s.heap == [] && y.s.agents == map[]
    && y.s.toks == [] && y.s.tokens == map[] && y.s.byBearer == map[]
    && y.s.usedPorts == {}
  }

  /** A run: system states with the events between them, starting from the empty server. */
  datatype Run = Run(states: seq<System>, events: seq<Event>)

  ghost predicate IsRun(r: Run) {
    && |r.states| == |r.events| + 1
    && Start(r.states[0])
    && forall i | 0 <= i < |r.events| :: Next(r.states[i], r.events[i], r.states[i + 1])
  }

  ghost function Last(r: Run): System
    requires |r.states| > 0
  {
    r.states[|r.states| - 1]
  }

  ghost function Prefix(r: Run): Run
    requires IsRun(r) && |r.events| > 0
  {
    Run(r.states[..|r.events|], r.events[..|r.events| - 1])
  }

  lemma PrefixIsRun(r: Run)
    requires IsRun(r) && |r.events| > 0
    ensures IsRun(Prefix(r))
    ensures Next(Last(Prefix(r)), r.events[|r.events| - 1], Last(r))
  {
    var n := |r.events|;
    var q := Prefix(r);
    assert q.states[0] == r.states[0];
    forall i | 0 <= i < n - 1 ensures Next(q.states[i], q.events[i], q.states[i + 1]) {
      assert q.states[i] == r.states[i] && q.events[i] == r.events[i] && q.states[i + 1] == r.states[i + 1];
    }
    assert Last(q) == r.states[n - 1];
  }
}
