/** What the first section of a spawn does to agents, workspaces and ports, and what it leaves. */
module SpawnShape {
  import opened JsonTree
  import opened Scopes
  import opened Registry
  import opened Interleaving

  ghost predicate WorkspacesInRange(s: State) {
    forall n | n in s.workspaces :: s.workspaces[n] < |s.wsHeap|
  }

  ghost predicate SameRegistry(s: State, s': State) {
    && s'.heap == s.heap && s'.agents == s.agents
    && s'.wsHeap == s.wsHeap && s'.workspaces == s.workspaces && s'.cfg == s.cfg
  }

  lemma IssueLeavesRegistry(s: State, p: Principal, scope: Option<Scope>, perm: Permission, subject: string,
                            session: string, ttl: int, f: Fresh)
    requires PrincipalInRange(s, p)
    ensures
      var issued := IssueToken(s, p, scope, perm, subject, session, ttl, f);
      issued.Ok? ==> SameRegistry(s, issued.value) && issued.value.usedPorts == s.usedPorts
  {
  }

  /** The entry a begun spawn adds. */
  ghost predicate Entered(s: State, call: SpawnCall, b: SpawnBegun)
    requires b.Begun?
  {
    && call.workspace in s.workspaces && s.workspaces[call.workspace] < |s.wsHeap|
    && b.id !in s.agents && b.ref == |s.heap| && |b.s.heap| == |s.heap| + 1
    && var w, a := s.workspaces[call.workspace], b.s.heap[|s.heap|];
       && b.s.heap == s.heap + [a]
       && a.pb.id == b.id && a.pb.workspace == call.workspace && a.pb.status == Starting
       && a.project == s.wsHeap[w].project
       && b.s.agents == s.agents[b.id := |s.heap|]
       && b.s.workspaces == s.workspaces
       && b.s.wsHeap == s.wsHeap[w := s.wsHeap[w].(agents := s.wsHeap[w].agents + {b.id})]
  }

  lemma SpawnBeginShape(s: State, p: Principal, call: SpawnCall, f: Fresh)
    requires WorkspacesInRange(s) && PrincipalInRange(s, p)
    ensures
      var b := SpawnBegin(s, p, call, f);
      var port := PortToReserve(s, f.osFree, f.osPort);
      if b.Begun? then
        && Entered(s, call, b) && b.id == SpawnId(call, f)
        && port == Some(b.port) && b.s.usedPorts == s.usedPorts + {b.port}
      else
        && SameRegistry(s, b.s)
        && (b.s.usedPorts == s.usedPorts || (port.Some? && b.s.usedPorts == s.usedPorts + {port.value} - {port.value}))
  {
    var target := SpawnTarget(s, p, call);
    var port := PortToReserve(s, f.osFree, f.osPort);
    if target.Ok? && port.Some? {
      var g := ResolveSession(Reserve(s, port.value), p, f.session);
      assert SameRegistry(s, g.s) && g.s.usedPorts == s.usedPorts + {port.value};
      IssueLeavesRegistry(g.s, g.p, call.scope, call.perm, DisplayName(call.name, call.template), g.session, 0, f);
    }
  }
}
