/**
 * Who may do what: the exact conditions under which lookups, listings and the RPCs on projects,
 * workspaces and tokens answer, with their errors, and what they leave.
 */
module Access {
  import opened JsonTree
  import opened Scopes
  import opened Registry
  import opened Interleaving
  import opened Safety
  import opened Listing
  import opened Credentials
  import opened Launching

  // ---------------------------------------------------------------------------------------------
  // Looking up
  // ---------------------------------------------------------------------------------------------

  /** The agent's project is within reach and, for a SESSION caller, the agent is of its session. */
  ghost predicate MaySee(p: Principal, a: Agent) {
    && (p.scope.None? || p.scope.value.global || a.project in p.scope.value.projects)
    && (p.perm == PermSession ==> p.session == a.pb.session && p.session != "")
  }

  lemma FoundIff(s: State, p: Principal, id: string)
    requires InRange(s)
    ensures
      FindAgent(s, p, id)
      == if id !in s.agents then Err(NotFound)
         else if MaySee(p, s.heap[s.agents[id]]) then Ok(s.agents[id])
         else Err(PermissionDenied)
  {
  }

  /** A SESSION caller sees a workspace by one agent of its own session in it; others by its project. */
  ghost predicate MaySeeWorkspace(s: State, p: Principal, w: Workspace)
    requires InRange(s)
  {
    && (p.scope.None? || p.scope.value.global || w.project in p.scope.value.projects)
    && (p.perm == PermSession ==>
          p.session != ""
          && exists id :: id in w.agents && id in s.agents && s.heap[s.agents[id]].pb.session == p.session)
  }

  lemma DestroyAdmittedIff(s: State, p: Principal, name: string)
    requires InRange(s)
    ensures
      DestroyTarget(s, p, name)
      == if name !in s.workspaces then Err(NotFound)
         else if MaySeeWorkspace(s, p, s.wsHeap[s.workspaces[name]]) then Ok(s.workspaces[name])
         else Err(PermissionDenied)
  {
  }

  /** An RPC that looks up what it is to act on. */
  ghost predicate LooksUp(t: Task) {
    t.FindToStop? || t.FindToRestart? || t.FindToDestroy?
  }

  /** The caller may act on what the lookup is for. */
  ghost predicate MayActOn(s: State, t: Task)
    requires InRange(s) && LooksUp(t)
  {
    match t
    case FindToDestroy(p, name) => name in s.workspaces && MaySeeWorkspace(s, p, s.wsHeap[s.workspaces[name]])
    case FindToStop(p, id) => id in s.agents && MaySee(p, s.heap[s.agents[id]])
    case FindToRestart(p, id) => id in s.agents && MaySee(p, s.heap[s.agents[id]])
  }

  /**
   * No stop, restart or destroy gets beyond its lookup unless the caller may see what it is for; and
   * then it goes on with that agent, or with the agents of that workspace.
   */
  lemma LookupLetsThroughIff(r: Run, i: nat, tid: nat, c: Choice)
    requires IsRun(r) && i < |r.events| && r.events[i] == Advance(tid, c)
    requires tid in r.states[i].tasks && LooksUp(r.states[i].tasks[tid])
    ensures InRange(r.states[i].s) && r.states[i + 1].s == r.states[i].s
    ensures
      var s, t, after := r.states[i].s, r.states[i].tasks[tid], r.states[i + 1].tasks;
      && after - {tid} == r.states[i].tasks - {tid}
      && (tid in after <==> MayActOn(s, t))
      && (tid in after ==>
            match t
            case FindToStop(_, id) => after[tid] == StopTask(id, ReturnStopped)
            case FindToRestart(_, id) => after[tid] == StopTask(id, ThenRestart(s.agents[id]))
            case FindToDestroy(_, name) =>
              var w := s.workspaces[name];
              && (set id | id in c.order) == s.wsHeap[w].agents
              && if c.order == [] then after[tid] == DestroyTask(name, w, [])
                 else after[tid] == StopTask(c.order[0], ThenDestroy(name, w, c.order, c.order[1..])))
  {
    assert Next(r.states[i], r.events[i], r.states[i + 1]);
    var s, t := r.states[i].s, r.states[i].tasks[tid];
    if t.FindToDestroy? {
      DestroyAdmittedIff(s, t.p, t.name);
    } else {
      FoundIff(s, t.p, t.id);
    }
  }

  /** The last section of a destroy: the entry it held is inactive, its name and the snapshot's ids are gone. */
  lemma DestroyEndLeaves(s: State, name: string, w: Ref, ids: set<string>)
    requires InRange(s) && w < |s.wsHeap|
    ensures
      var s' := DestroyEnd(s, name, w, ids);
      && s' == s.(agents := s'.agents, workspaces := s'.workspaces, wsHeap := s'.wsHeap)
      && (forall id :: id in s'.agents <==> id in s.agents && id !in ids)
      && (forall id | id in s'.agents :: s'.agents[id] == s.agents[id])
      && (forall n :: n in s'.workspaces <==> n in s.workspaces && n != name)
      && (forall n | n in s'.workspaces :: s'.workspaces[n] == s.workspaces[n])
      && s'.wsHeap == s.wsHeap[w := Workspace(s.wsHeap[w].name, s.wsHeap[w].project, false, s.wsHeap[w].agents)]
  {
  }

  // ---------------------------------------------------------------------------------------------
  // Listing
  // ---------------------------------------------------------------------------------------------

  /** In front in the order of Go strings. */
  ghost predicate Before(a: string, b: string) {
    || a < b
    || exists i :: 0 <= i < |a| && i < |b| && a[..i] == b[..i] && a[i] < b[i]
  }

  lemma BeforeAtHead(a: string, b: string)
    requires a != [] && b != [] && Before(a, b)
    ensures a[0] <= b[0]
  {
    if !(a < b) {
      var i :| 0 <= i < |a| && i < |b| && a[..i] == b[..i] && a[i] < b[i];
      if i > 0 {
        assert a[0] == a[..i][0] && b[0] == b[..i][0];
      }
    }
  }

  lemma BeforeTail(a: string, b: string)
    requires a != [] && b != [] && a[0] == b[0]
    ensures Before(a, b) <==> Before(a[1..], b[1..])
  {
    var x, y := a[1..], b[1..];
    assert a == [a[0]] + x && b == [b[0]] + y;
    if Before(x, y) && !(x < y) {
      var i :| 0 <= i < |x| && i < |y| && x[..i] == y[..i] && x[i] < y[i];
      assert a[..i + 1] == [a[0]] + x[..i] && b[..i + 1] == [b[0]] + y[..i];
    }
    if Before(a, b) && !(a < b) {
      var i :| 0 <= i < |a| && i < |b| && a[..i] == b[..i] && a[i] < b[i];
      assert x[..i - 1] == a[..i][1..] && y[..i - 1] == b[..i][1..];
    }
  }

  lemma {:induction false} LeIsBefore(a: string, b: string)
    ensures Le(a, b) <==> a == b || Before(a, b)
  {
    if a != [] && b != [] {
      assert a == [a[0]] + a[1..] && b == [b[0]] + b[1..];
      if a[0] == b[0] {
        LeIsBefore(a[1..], b[1..]);
        BeforeTail(a, b);
      } else if a[0] < b[0] {
        assert a[..0] == b[..0];
      } else if Before(a, b) {
        BeforeAtHead(a, b);
      }
    }
  }

  /** The filters that are set agree with the agent. */
  ghost predicate Fits(filter: ListFilter, pb: Instance) {
    && (filter.workspace == "" || pb.workspace == filter.workspace)
    && (filter.status == StatusUnspecified || pb.status == filter.status)
    && (filter.template == "" || pb.template == filter.template)
  }

  ghost predicate ToList(s: State, p: Principal, filter: ListFilter, id: string)
    requires InRange(s)
  {
    id in s.agents && MaySee(p, s.heap[s.agents[id]]) && Fits(filter, s.heap[s.agents[id]].pb)
  }

  function MessagesOf(s: State, ids: seq<string>): seq<Instance>
    requires forall id | id in ids :: id in s.agents && s.agents[id] < |s.heap|
  {
    if ids == [] then [] else [s.heap[s.agents[ids[0]]].pb] + MessagesOf(s, ids[1..])
  }

  ghost function Kept(s: State, p: Principal, filter: ListFilter, ids: seq<string>): (r: seq<string>)
    requires InRange(s)
    ensures forall id | id in r :: id in ids && ToList(s, p, filter, id)
  {
    if ids == [] then []
    else (if ToList(s, p, filter, ids[0]) then [ids[0]] else []) + Kept(s, p, filter, ids[1..])
  }

  lemma {:induction false} ListWalkKeeps(s: State, p: Principal, filter: ListFilter, ids: seq<string>)
    requires InRange(s) && forall id | id in ids :: id in s.agents
    ensures ListWalk(s, p, filter, ids) == MessagesOf(s, Kept(s, p, filter, ids))
    decreases |ids|
  {
    if ids != [] {
      ListWalkKeeps(s, p, filter, ids[1..]);
      var rest := Kept(s, p, filter, ids[1..]);
      assert ([ids[0]] + rest)[1..] == rest && [] + rest == rest;
      assert CanSee(p, s.heap[s.agents[ids[0]]]) <==> MaySee(p, s.heap[s.agents[ids[0]]]);
    }
  }

  lemma {:induction false} KeptSorted(s: State, p: Principal, filter: ListFilter, ids: seq<string>)
    requires InRange(s) && Sorted(ids)
    ensures Sorted(Kept(s, p, filter, ids))
    ensures forall id :: id in Kept(s, p, filter, ids) <==> id in ids && ToList(s, p, filter, id)
    decreases |ids|
  {
    if ids != [] {
      KeptSorted(s, p, filter, ids[1..]);
      var rest := Kept(s, p, filter, ids[1..]);
      assert ids == [ids[0]] + ids[1..];
      assert forall j | 0 <= j < |rest| :: rest[j] in ids[1..];
    }
  }

  /**
   * ListAgents, in every reachable state: the messages of exactly the agents the caller may see that
   * fit the filters, each once, in the order of their ids.
   */
  lemma ListsExactly(r: Run, p: Principal, filter: ListFilter) returns (ids: seq<string>)
    requires IsRun(r)
    ensures InRange(Last(r).s)
    ensures forall id :: id in ids <==> ToList(Last(r).s, p, filter, id)
    ensures forall id | id in ids :: id in Last(r).s.agents && Last(r).s.agents[id] < |Last(r).s.heap|
    ensures forall i, j | 0 <= i < j < |ids| :: Before(ids[i], ids[j])
    ensures ListAgents(Last(r).s, p, filter) == MessagesOf(Last(r).s, ids)
  {
    RunIsOk(r);
    var s := Last(r).s;
    SortIdsSorts(s.agents.Keys);
    ids := Kept(s, p, filter, SortIds(s.agents.Keys));
    ListWalkKeeps(s, p, filter, SortIds(s.agents.Keys));
    KeptSorted(s, p, filter, SortIds(s.agents.Keys));
    forall i, j | 0 <= i < j < |ids| ensures Before(ids[i], ids[j]) {
      LeIsBefore(ids[i], ids[j]);
    }
  }

  // ---------------------------------------------------------------------------------------------
  // Discovery
  // ---------------------------------------------------------------------------------------------

  lemma {:induction false} DiscoverWalkFinds(s: State, p: Principal, tag: string, ids: seq<string>, card: AgentCard)
    requires forall id | id in ids :: id in s.agents && s.agents[id] < |s.heap|
    ensures card in DiscoverWalk(s, p, tag, ids)
            <==> exists id :: id in ids && Discoverable(p, tag, s.heap[s.agents[id]])
                              && card == EnrichedCard(s.cfg, s.heap[s.agents[id]])
    decreases |ids|
  {
    if ids != [] {
      DiscoverWalkFinds(s, p, tag, ids[1..], card);
      assert ids == [ids[0]] + ids[1..];
    }
  }

  /** Local discovery shows the agent. */
  ghost predicate Shown(s: State, p: Principal, tag: string, id: string)
    requires InRange(s)
  {
    exists card :: card in DiscoverAgents(s, p, tag) && card.arp.agentId == id
  }

  lemma ShownIff(s: State, p: Principal, tag: string, id: string)
    requires StateOk(s)
    ensures Shown(s, p, tag, id) <==> id in s.agents && Discoverable(p, tag, s.heap[s.agents[id]])
  {
    var ids := SortIds(s.agents.Keys);
    if Shown(s, p, tag, id) {
      var card :| card in DiscoverAgents(s, p, tag) && card.arp.agentId == id;
      DiscoverWalkFinds(s, p, tag, ids, card);
      var k :| k in ids && Discoverable(p, tag, s.heap[s.agents[k]])
               && card == EnrichedCard(s.cfg, s.heap[s.agents[k]]);
      assert ListedUnder(s, k);
    }
    if id in s.agents && Discoverable(p, tag, s.heap[s.agents[id]]) {
      assert ListedUnder(s, id);
      var card := EnrichedCard(s.cfg, s.heap[s.agents[id]]);
      DiscoverWalkFinds(s, p, tag, ids, card);
    }
  }

  /**
   * Right after a spawn or a restart has brought an agent up, local discovery for a capability shows
   * it to a caller who may see it exactly if its own card has the capability or, where that could
   * not be fetched, its template has the tag.
   */
  lemma UpIsShownIffOffered(s: State, id: string, before: Agent, h: Handle, fetched: Option<Json>, at: Time,
                            p: Principal, tag: string)
    requires StateOk(s) && id in s.agents && UpAs(s.cfg, before, h, fetched, at, s.heap[s.agents[id]])
    requires MaySee(p, s.heap[s.agents[id]]) && tag != ""
    ensures Shown(s, p, tag, id) <==> Offers(before.template, fetched, tag)
  {
    ShownIff(s, p, tag, id);
    CardHasIffAdvertises(s.heap[s.agents[id]].cardBase, tag);
  }

  /** Whom local discovery shows, in every reachable state: READY agents the caller may see, by their card. */
  lemma ShownExactly(r: Run, p: Principal, tag: string, id: string)
    requires IsRun(r)
    ensures InRange(Last(r).s)
    ensures
      var s := Last(r).s;
      Shown(s, p, tag, id) <==>
      && id in s.agents && MaySee(p, s.heap[s.agents[id]]) && s.heap[s.agents[id]].pb.status == Ready
      && (tag == "" || Advertises(s.heap[s.agents[id]].cardBase, tag))
  {
    RunIsOk(r);
    var s := Last(r).s;
    ShownIff(s, p, tag, id);
    if id in s.agents {
      assert EntryOk(s, s.agents[id]);
      CardHasIffAdvertises(s.heap[s.agents[id]].cardBase, tag);
    }
  }

  // ---------------------------------------------------------------------------------------------
  // Projects, workspaces and tokens
  // ---------------------------------------------------------------------------------------------

  lemma RegisteredIff(s: State, p: Principal, proj: Project)
    ensures
      var r := RegisterProject(s, p, proj);
      if p.perm == PermAdmin && CanAccess(p.scope, proj.name)
      then
        && r.Ok? && r.value == s.(projects := r.value.projects)
        && proj.name in r.value.projects && r.value.projects[proj.name] == proj
        && (forall n | n != proj.name ::
              && (n in r.value.projects <==> n in s.projects)
              && (n in s.projects ==> r.value.projects[n] == s.projects[n]))
      else r == Err(PermissionDenied)
  {
  }

  /** Some agent of the project is listed that has neither stopped nor failed. */
  ghost predicate InUse(s: State, name: string)
    requires InRange(s)
  {
    exists id :: id in s.agents && s.heap[s.agents[id]].project == name
                 && s.heap[s.agents[id]].pb.status != Stopped && s.heap[s.agents[id]].pb.status != Error
  }

  /**
   * A project is unregistered, in every reachable state, exactly for an administrator within whose
   * reach it is and when all its agents that are still listed have stopped or failed.
   */
  lemma UnregisteredIff(r: Run, p: Principal, name: string)
    requires IsRun(r)
    ensures InRange(Last(r).s)
    ensures
      var s, done := Last(r).s, UnregisterProject(Last(r).s, p, name);
      if p.perm != PermAdmin then done == Err(PermissionDenied)
      else if name !in s.projects then done == Err(NotFound)
      else if !CanAccess(p.scope, name) then done == Err(PermissionDenied)
      else if InUse(s, name) then done == Err(FailedPrecondition)
      else
        && done.Ok? && done.value == s.(projects := done.value.projects)
        && (forall n :: n in done.value.projects <==> n in s.projects && n != name)
        && (forall n | n in done.value.projects :: done.value.projects[n] == s.projects[n])
  {
    RunIsOk(r);
    var s := Last(r).s;
    forall id | id in s.agents
      ensures IsActive(s.heap[s.agents[id]].pb.status)
              <==> s.heap[s.agents[id]].pb.status != Stopped && s.heap[s.agents[id]].pb.status != Error
    {
      assert EntryOk(s, s.agents[id]);
    }
  }

  lemma CreatedIff(s: State, p: Principal, name: string, project: string)
    ensures
      var r := CreateWorkspace(s, p, name, project);
      if project !in s.projects then r == Err(NotFound)
      else if !CanAccess(p.scope, project) then r == Err(PermissionDenied)
      else if name in s.workspaces then r == Err(AlreadyExists)
      else
        && r.Ok? && r.value == s.(wsHeap := r.value.wsHeap, workspaces := r.value.workspaces)
        && r.value.wsHeap == s.wsHeap + [Workspace(name, project, true, {})]
        && name in r.value.workspaces && r.value.workspaces[name] == |s.wsHeap|
        && (forall n | n != name ::
              && (n in r.value.workspaces <==> n in s.workspaces)
              && (n in s.workspaces ==> r.value.workspaces[n] == s.workspaces[n]))
  {
  }

  /** Only administrators issue tokens without spawning, none wider than their own reach and none with a session. */
  lemma TokenCreatedIff(s: State, p: Principal, scope: Scope, perm: Permission, subject: string, ttl: int, f: Fresh)
    requires PrincipalInRange(s, p)
    ensures
      var r := CreateToken(s, p, scope, perm, subject, ttl, f);
      if p.perm == PermAdmin && NoWider(Some(scope), p.scope)
      then
        && r.Ok? && |r.value.toks| == |s.toks| + 1
        && AsAsked(s, p, Some(scope), perm, subject, "", ttl, f, r.value.toks[|s.toks|])
        && Stored(s, r.value.toks[|s.toks|], r.value)
      else r == Err(PermissionDenied)
  {
    IssuedAsAsked(s, p, Some(scope), perm, subject, "", ttl, f);
  }
}
