/**
 * The server as its callers meet it, one RPC after another, each from authentication to answer.
 * Whatever they call, the object stays in a state some run of the concurrent system can be in, so
 * all guarantees about runs hold of it.
 */
module Service {
  import opened JsonTree
  import opened Scopes
  import opened Registry
  import opened Interleaving
  import opened Safety
  import opened WorkspaceIndex
  import opened IndexAgreement
  import opened Sequential
  import opened Segments
  import opened ServerObjects
  import opened Rpcs

  /** Some run in which each RPC finishes before the next arrives ends in this state, at rest. */
  ghost predicate Reachable(s: State) {
    exists r :: EndsAt(r, s)
  }

  ghost predicate EndsAt(r: Run, s: State) {
    SequentialRun(r) && Last(r) == System(s, map[])
  }

  function Initially(cfg: Config): State {
    State(cfg, map[], [], map[], [], map[], [], map[], map[], {})
  }

  lemma InitiallyReachable(cfg: Config)
    ensures Reachable(Initially(cfg))
  {
    assert EndsAt(Run([System(Initially(cfg), map[])], []), Initially(cfg));
  }

  lemma RunTo(s: State) returns (r: Run)
    requires Reachable(s)
    ensures EndsAt(r, s) && FreshRun(r) && InRange(s)
  {
    r :| EndsAt(r, s);
    InRangeAlong(r);
  }

  lemma Reaches(r: Run, r': Run, s: State, fair: bool)
    requires SequentialRun(r) && Keeps(r, r', fair, true) && Last(r') == System(s, map[])
    ensures Reachable(s)
  {
    assert EndsAt(r', s);
  }

  /**
   * What holds of every state so reached: the invariant on tokens and entries, agreement of index
   * and scan, and every agent at rest in READY, ERROR or STOPPED.
   */
  lemma ReachableIsSound(s: State)
    requires Reachable(s)
    ensures StateOk(s) && SetsOk(s) && AllHoused(s) && Calm(s, None)
    ensures forall n | n in s.workspaces :: s.wsHeap[s.workspaces[n]].agents == AgentsOf(s, n)
  {
    var r := RunTo(s);
    SequentialIndexAgrees(r);
    FreshRunSets(r);
    SequentialIsAlone(r);
  }

  // ---------------------------------------------------------------------------------------------
  // From state to state
  // ---------------------------------------------------------------------------------------------

  lemma StopReaches(s: State, p: Principal, id: string)
    requires Reachable(s) && InRange(s) && Admitted(s, p) && id != "" && FindAgent(s, p, id).Ok?
    ensures Reachable(StopNow(s, FindAgent(s, p, id).value))
  {
    var r := RunTo(s);
    var r' := StopSegment(r, p, id);
    Reaches(r, r', Last(r').s, true);
  }

  lemma RestartReaches(s: State, p: Principal, id: string, f: Fresh, l: Launch)
    requires Reachable(s) && InRange(s) && Admitted(s, p) && id != "" && FindAgent(s, p, id).Ok? && FreshFor(s, f)
    ensures
      var ref := FindAgent(s, p, id).value;
      Reachable(RelaunchNow(StopNow(s, ref), ref, f, l).0)
  {
    var r := RunTo(s);
    var r' := RestartSegment(r, p, id, f, l);
    Reaches(r, r', Last(r').s, false);
  }

  lemma SpawnReaches(s: State, p: Principal, call: SpawnCall, f: Fresh, l: Launch)
    requires Reachable(s) && InRange(s) && Admitted(s, p) && call.workspace != "" && call.template != ""
    requires FreshAgent(s, call, f) && CanSpawn(s, p)
    ensures Reachable(SpawnNow(s, p, call, f, l).s)
  {
    var r := RunTo(s);
    var r' := SpawnSegment(r, p, call, f, l);
    Reaches(r, r', Last(r').s, FairSpawn(s, p, call, f, l));
  }

  lemma CreateReaches(s: State, p: Principal, name: string, project: string, s1: State, autos: seq<string>,
                      fs: seq<Fresh>, ls: seq<Launch>)
    requires Reachable(s) && InRange(s) && Admitted(s, p) && name != "" && project != "" && |fs| == |autos| == |ls|
    requires Registry.CreateWorkspace(s, p, name, project) == Ok(s1)
    requires CanSpawn(s1, p) && FreshAlong(s1, p, name, autos, fs, ls)
    ensures Reachable(SpawnAll(s1, p, name, autos, fs, ls).0)
  {
    var r := RunTo(s);
    var r' := CreateSegment(r, p, name, project, s1, autos, fs, ls);
    Reaches(r, r', SpawnAll(s1, p, name, autos, fs, ls).0, false);
  }

  lemma DestroyReaches(s: State, p: Principal, name: string, order: seq<string>)
    requires Reachable(s) && InRange(s) && Admitted(s, p) && name != "" && DestroyTarget(s, p, name).Ok?
    requires Enumerates(order, s.wsHeap[DestroyTarget(s, p, name).value].agents)
    ensures Reachable(DestroyEnd(StopAll(s, order), name, DestroyTarget(s, p, name).value, set id | id in order))
  {
    var r := RunTo(s);
    var r' := DestroySegment(r, p, name, order);
    Reaches(r, r', Last(r').s, true);
  }

  lemma AdminReaches(s: State, p: Principal, t: Task, f: Fresh)
    requires Reachable(s) && InRange(s) && Admitted(s, p) && Initial(t, p) && FreshFor(s, f)
    requires t.RegisterTask? || t.UnregisterTask? || t.TokenTask?
    ensures TaskInRange(s, t) && Reachable(AdminSection(s, t, Choice(f, [], None, None)).0)
  {
    var r := RunTo(s);
    var r' := AdminStep(r, p, t, f);
    Reaches(r, r', Last(r').s, true);
  }

  lemma RegisterReaches(s: State, p: Principal, proj: Project)
    requires Reachable(s) && InRange(s) && Admitted(s, p) && proj.name != ""
    ensures Registry.RegisterProject(s, p, proj).Ok? ==> Reachable(Registry.RegisterProject(s, p, proj).value)
  {
    var f := SomeFresh(s, 0);
    AdminReaches(s, p, RegisterTask(p, proj), f);
  }

  lemma UnregisterReaches(s: State, p: Principal, name: string)
    requires Reachable(s) && InRange(s) && Admitted(s, p) && name != ""
    ensures Registry.UnregisterProject(s, p, name).Ok? ==> Reachable(Registry.UnregisterProject(s, p, name).value)
  {
    var f := SomeFresh(s, 0);
    AdminReaches(s, p, UnregisterTask(p, name), f);
  }

  // ---------------------------------------------------------------------------------------------
  // The RPCs, from authentication to answer
  // ---------------------------------------------------------------------------------------------

  /** The state an object stands for is one that some history of RPCs leads to. */
  ghost predicate InService(v: Server)
    reads v, v.heap, v.wsHeap, v.toks
  {
    v.Valid() && Reachable(v.Abs())
  }

  method Started(cfg: Config) returns (v: Server)
    ensures fresh(v) && InService(v) && v.Abs() == Initially(cfg)
  {
    v := new Server(cfg);
    InitiallyReachable(cfg);
  }

  method Identify(v: Server, bearer: string, loopback: bool, now: Time) returns (who: Result<Caller>)
    requires v.Valid()
    ensures InRange(v.Abs())
    ensures
      var abs := Registry.Authenticate(v.Abs(), bearer, loopback, now);
      if who.Ok? then abs == Ok(who.value.Abs()) else abs == Err(who.code)
    ensures who.Ok? ==> v.HasCaller(who.value) && Admitted(v.Abs(), who.value.Abs())
  {
    ValidIsInRange(v);
    who := v.Authenticate(bearer, loopback, now);
  }

  method StopAgent(v: Server, bearer: string, loopback: bool, now: Time, id: string) returns (r: Result<Instance>)
    requires InService(v)
    modifies v`usedPorts, v.AgentFrame(id)
    ensures InService(v) && InRange(old(v.Abs()))
    ensures
      var p := Registry.Authenticate(old(v.Abs()), bearer, loopback, now);
      if p.Ok? then StopOutcome(old(v.Abs()), p.value, id, v.Abs(), r)
      else r == Err(p.code) && v.Abs() == old(v.Abs())
  {
    ghost var s := v.Abs();
    var who := Identify(v, bearer, loopback, now);
    if who.Err? {
      return Err(who.code);
    }
    r := Rpcs.StopAgent(v, who.value, id);
    if id != "" && FindAgent(s, who.value.Abs(), id).Ok? {
      StopReaches(s, who.value.Abs(), id);
    }
  }

  method RestartAgent(v: Server, bearer: string, loopback: bool, now: Time, id: string, f: Fresh, l: Launch)
    returns (r: Result<Instance>)
    requires InService(v) && FreshFor(v.Abs(), f)
    modifies v`usedPorts, v.AgentFrame(id)
    ensures InService(v) && InRange(old(v.Abs()))
    ensures
      var p := Registry.Authenticate(old(v.Abs()), bearer, loopback, now);
      if p.Ok? then RestartOutcome(old(v.Abs()), p.value, id, f, l, v.Abs(), r)
      else r == Err(p.code) && v.Abs() == old(v.Abs())
  {
    ghost var s := v.Abs();
    var who := Identify(v, bearer, loopback, now);
    if who.Err? {
      return Err(who.code);
    }
    r := Rpcs.RestartAgent(v, who.value, id, f, l);
    if id != "" && FindAgent(s, who.value.Abs(), id).Ok? {
      RestartReaches(s, who.value.Abs(), id, f, l);
    }
  }

  method SpawnAgent(v: Server, bearer: string, loopback: bool, now: Time, call: SpawnCall, f: Fresh, l: Launch)
    returns (r: Result<Instance>)
    requires InService(v) && FreshAgent(v.Abs(), call.(fixedId := ""), f)
    modifies v, v.toks, v.WorkspaceFrame(call.workspace)
    ensures InService(v) && InRange(old(v.Abs()))
    ensures
      var p := Registry.Authenticate(old(v.Abs()), bearer, loopback, now);
      if p.Ok? then
        && CanSpawn(old(v.Abs()), p.value)
        && exists p' :: SpawnOutcome(old(v.Abs()), p.value, call, f, l, v.Abs(), p', r)
      else r == Err(p.code) && v.Abs() == old(v.Abs())
  {
    ghost var s := v.Abs();
    var who := Identify(v, bearer, loopback, now);
    if who.Err? {
      return Err(who.code);
    }
    var c;
    c, r := Rpcs.SpawnAgent(v, who.value, call, f, l);
    if call.workspace != "" && call.template != "" {
      SpawnReaches(s, who.value.Abs(), call.(fixedId := ""), f, l);
    }
  }

  method DestroyWorkspace(v: Server, bearer: string, loopback: bool, now: Time, name: string, ids: seq<string>)
    returns (r: Result<()>)
    requires InService(v) && (name in v.workspaces ==> Enumerates(ids, v.workspaces[name].agents))
    modifies v, v.WorkspaceFrame(name), v.agents.Values
    ensures InService(v) && InRange(old(v.Abs()))
    ensures
      var p := Registry.Authenticate(old(v.Abs()), bearer, loopback, now);
      if p.Ok? then DestroyOutcome(old(v.Abs()), p.value, name, ids, v.Abs(), r)
      else r == Err(p.code) && v.Abs() == old(v.Abs())
  {
    ghost var s := v.Abs();
    var who := Identify(v, bearer, loopback, now);
    if who.Err? {
      return Err(who.code);
    }
    r := Rpcs.DestroyWorkspace(v, who.value, name, ids);
    if name != "" && Registry.DestroyTarget(s, who.value.Abs(), name).Ok? {
      DestroyReaches(s, who.value.Abs(), name, ids);
    }
  }

  /** The values the auto spawns draw are fresh when their turn comes. */
  ghost predicate FreshForAutos(s: State, p: Principal, name: string, project: string, autos: seq<string>,
                                fs: seq<Fresh>, ls: seq<Launch>)
    requires |fs| == |autos| == |ls|
  {
    match Registry.CreateWorkspace(s, p, name, project)
    case Err(_) => true
    case Ok(s1) => CanSpawn(s1, p) ==> FreshAlong(s1, p, name, autos, fs, ls)
  }

  method CreateWorkspace(v: Server, bearer: string, loopback: bool, now: Time, name: string, project: string,
                         autos: seq<string>, fs: seq<Fresh>, ls: seq<Launch>)
    returns (r: Result<WorkspaceEntry>)
    requires InService(v) && |fs| == |autos| == |ls|
    requires
      var p := Registry.Authenticate(v.Abs(), bearer, loopback, now);
      p.Ok? ==> FreshForAutos(v.Abs(), p.value, name, project, autos, fs, ls)
    modifies v, v.toks
    ensures InService(v) && InRange(old(v.Abs()))
    ensures
      var p := Registry.Authenticate(old(v.Abs()), bearer, loopback, now);
      if p.Ok? then CreateOutcome(old(v.Abs()), p.value, name, project, autos, fs, ls, v.Abs(), NameOf(r))
      else r == Err(p.code) && v.Abs() == old(v.Abs())
  {
    ghost var s := v.Abs();
    var who := Identify(v, bearer, loopback, now);
    if who.Err? {
      return Err(who.code);
    }
    r := Rpcs.CreateWorkspace(v, who.value, name, project, autos, fs, ls);
    if name != "" && project != "" && Registry.CreateWorkspace(s, who.value.Abs(), name, project).Ok? {
      var s1 := Registry.CreateWorkspace(s, who.value.Abs(), name, project).value;
      CreateReaches(s, who.value.Abs(), name, project, s1, autos, fs, ls);
    }
  }

  ghost predicate RegisterOutcome(s: State, p: Principal, name: string, repo: string, branch: string,
                                  templates: seq<Template>, s': State, r: Result<Project>)
  {
    if name == "" || repo == "" then r == Err(InvalidArgument) && s' == s
    else
      var proj := Project(name, repo, if branch == "" then "main" else branch, templates);
      match Registry.RegisterProject(s, p, proj)
      case Err(code) => r == Err(code) && s' == s
      case Ok(s1) => r == Ok(proj) && s' == s1
  }

  method RegisterProject(v: Server, bearer: string, loopback: bool, now: Time, name: string, repo: string,
                         branch: string, templates: seq<Template>)
    returns (r: Result<Project>)
    requires InService(v)
    modifies v`projects
    ensures InService(v) && InRange(old(v.Abs()))
    ensures
      var p := Registry.Authenticate(old(v.Abs()), bearer, loopback, now);
      if p.Ok? then RegisterOutcome(old(v.Abs()), p.value, name, repo, branch, templates, v.Abs(), r)
      else r == Err(p.code) && v.Abs() == old(v.Abs())
  {
    ghost var s := v.Abs();
    var who := Identify(v, bearer, loopback, now);
    if who.Err? {
      return Err(who.code);
    }
    r := v.RegisterProject(who.value, name, repo, branch, templates);
    if r.Ok? {
      RegisterReaches(s, who.value.Abs(), r.value);
    }
  }

  ghost predicate UnregisterOutcome(s: State, p: Principal, name: string, s': State, r: Result<()>)
    requires InRange(s)
  {
    if name == "" then r == Err(InvalidArgument) && s' == s
    else
      match Registry.UnregisterProject(s, p, name)
      case Err(code) => r == Err(code) && s' == s
      case Ok(s1) => r.Ok? && s' == s1
  }

  method UnregisterProject(v: Server, bearer: string, loopback: bool, now: Time, name: string) returns (r: Result<()>)
    requires InService(v)
    modifies v`projects
    ensures InService(v) && InRange(old(v.Abs()))
    ensures
      var p := Registry.Authenticate(old(v.Abs()), bearer, loopback, now);
      if p.Ok? then UnregisterOutcome(old(v.Abs()), p.value, name, v.Abs(), r)
      else r == Err(p.code) && v.Abs() == old(v.Abs())
  {
    ghost var s := v.Abs();
    var who := Identify(v, bearer, loopback, now);
    if who.Err? {
      return Err(who.code);
    }
    r := v.UnregisterProject(who.value, name);
    if r.Ok? {
      UnregisterReaches(s, who.value.Abs(), name);
    }
  }

  /** `r` names the token answered with. */
  ghost predicate TokenOutcome(s: State, p: Principal, scope: Option<Scope>, perm: Permission, subject: string,
                               ttl: int, f: Fresh, s': State, r: Result<string>)
    requires PrincipalInRange(s, p)
  {
    if subject == "" || scope.None? || perm == PermUnspecified then r == Err(InvalidArgument) && s' == s
    else
      match Registry.CreateToken(s, p, scope.value, perm, subject, ttl, f)
      case Err(code) => r == Err(code) && s' == s
      case Ok(s1) => r == Ok(f.tokId) && s' == s1
  }

  function TokenIdOf(r: Result<TokenEntry>): Result<string> {
    match r
    case Ok(tok) => Ok(tok.id)
    case Err(code) => Err(code)
  }

  method CreateToken(v: Server, bearer: string, loopback: bool, now: Time, scope: Option<Scope>, perm: Permission,
                     subject: string, ttl: int, f: Fresh)
    returns (r: Result<TokenEntry>)
    requires InService(v) && FreshFor(v.Abs(), f)
    modifies v`tokens, v`byBearer, v`toks
    ensures InService(v) && InRange(old(v.Abs()))
    ensures
      var p := Registry.Authenticate(old(v.Abs()), bearer, loopback, now);
      if p.Ok? then
        && PrincipalInRange(old(v.Abs()), p.value)
        && TokenOutcome(old(v.Abs()), p.value, scope, perm, subject, ttl, f, v.Abs(), TokenIdOf(r))
      else r == Err(p.code) && v.Abs() == old(v.Abs())
  {
    ghost var s := v.Abs();
    var who := Identify(v, bearer, loopback, now);
    if who.Err? {
      return Err(who.code);
    }
    r := v.CreateToken(who.value, scope, perm, subject, ttl, f);
    if r.Ok? {
      AdminReaches(s, who.value.Abs(), TokenTask(who.value.Abs(), scope.value, perm, subject, ttl), f);
    }
  }
}
