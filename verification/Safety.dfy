/** What every section keeps, and hence what holds in every reachable state of every interleaving. */
module Safety {
  import opened JsonTree
  import opened Scopes
  import opened Registry
  import opened Interleaving

  // ---------------------------------------------------------------------------------------------
  // Agent entries
  // ---------------------------------------------------------------------------------------------

  /** The stored card is the one the entry's present fields give. */
  ghost predicate CardCurrent(cfg: Config, a: Agent) {
    a.pb.card == Some(EnrichedCard(cfg, a))
  }

  /** A card is only ever stored by a section that leaves one of these statuses. */
  predicate CardStatus(st: Status) {
    st == Ready || st == Stopping || st == Registry.Stopped
  }

  /** The status a stored card shows. */
  ghost predicate CardTells(card: AgentCard, st: Status) {
    card.arp.status == StatusString(st)
  }

  ghost predicate CardFromRefresh(card: Option<AgentCard>) {
    card.Some? ==>
      CardTells(card.value, Ready) || CardTells(card.value, Stopping) || CardTells(card.value, Registry.Stopped)
  }

  /** The lifecycle contract of one entry, and the agreement of its cached card. */
  ghost predicate AgentOk(cfg: Config, a: Agent) {
    && a.pb.status != Busy && a.pb.status != StatusUnspecified
    && (a.pb.status == Ready ==>
          && a.handle.Some?
          && a.pb.directUrl == a.handle.value.url
          && a.pb.port == Int32(a.handle.value.port)
          && a.pb.pid == Int32(a.handle.value.pid))
    && (a.pb.status == Registry.Stopped ==> a.handle.None? && a.pb.pid == 0)
    && (a.pb.status == Starting ==> a.handle.None?)
    && (CardStatus(a.pb.status) ==> CardCurrent(cfg, a))
    && CardFromRefresh(a.pb.card)
  }

  /** The fields of an entry that nothing ever rewrites. */
  ghost predicate SameIdentity(a: Agent, b: Agent) {
    && a.pb.id == b.pb.id && a.pb.workspace == b.pb.workspace && a.pb.template == b.pb.template
    && a.pb.tokenId == b.pb.tokenId && a.pb.session == b.pb.session && a.pb.spawnedBy == b.pb.spawnedBy
    && a.project == b.project && a.template == b.template && a.pb.proxyUrl == b.pb.proxyUrl
  }

  // ---------------------------------------------------------------------------------------------
  // Tokens
  // ---------------------------------------------------------------------------------------------

  /** The session of an entry is the one of the token that spawned it and of the token issued to it. */
  ghost predicate SessionCoherent(s: State, a: Agent) {
    && a.pb.session != ""
    && a.pb.tokenId in s.tokens && s.tokens[a.pb.tokenId] < |s.toks|
    && s.toks[s.tokens[a.pb.tokenId]].session == a.pb.session
    && s.toks[s.tokens[a.pb.tokenId]].parentId == a.pb.spawnedBy
    && (a.pb.spawnedBy != "" ==>
          && a.pb.spawnedBy in s.tokens && s.tokens[a.pb.spawnedBy] < |s.toks|
          && s.toks[s.tokens[a.pb.spawnedBy]].session == a.pb.session)
  }

  /** Both indexes name exactly the tokens of the heap, each under its own id and bearer. */
  ghost predicate Indexed(s: State) {
    && (forall r | 0 <= r < |s.toks| ::
          && s.toks[r].id in s.tokens && s.tokens[s.toks[r].id] == r
          && s.toks[r].bearer in s.byBearer && s.byBearer[s.toks[r].bearer] == r)
    && (forall t | t in s.tokens :: s.tokens[t] < |s.toks| && s.toks[s.tokens[t]].id == t)
    && (forall b | b in s.byBearer :: s.byBearer[b] < |s.toks| && s.toks[s.byBearer[b]].bearer == b)
  }

  /** What a token may do is bounded by what its parent may do. */
  ghost predicate Below(child: Token, parent: Token) {
    && NoWider(Some(child.scope), Some(parent.scope))
    && child.perm.Rank() <= parent.perm.Rank()
    && (parent.perm != PermAdmin ==> child.session == parent.session != "")
  }

  ghost predicate TokenOk(s: State, r: Ref)
    requires r < |s.toks|
  {
    var t := s.toks[r];
    && t.id != "" && t.bearer != "" && t.perm != PermUnspecified
    && (t.parentId != "" ==>
          && t.parentId in s.tokens && s.tokens[t.parentId] < r
          && Below(t, s.toks[s.tokens[t.parentId]]))
  }

  ghost predicate Forest(s: State) {
    Indexed(s) && forall r | 0 <= r < |s.toks| :: TokenOk(s, r)
  }

  /** A principal in flight agrees with its token, but for a session established since. */
  ghost predicate PrincipalOk(s: State, p: Principal) {
    if p.tok.None? then p.scope == Some(Scope(true, [])) && p.perm == PermAdmin
    else
      && p.tok.value < |s.toks|
      && var t := s.toks[p.tok.value];
         && p.scope == Some(t.scope) && p.perm == t.perm
         && (p.session == "" || p.session == t.session)
  }

  ghost predicate HasPrincipal(t: Task) {
    !t.StopTask? && !t.Halting? && !t.RestartTask? && !t.Relaunching? && !t.DestroyTask?
  }

  ghost predicate SameToken(s: State, s': State, r: Ref)
    requires r < |s.toks| && r < |s'.toks|
  {
    || s'.toks[r] == s.toks[r]
    || (s.toks[r].session == "" && s'.toks[r] == s.toks[r].(session := s'.toks[r].session))
  }

  /** Token heaps only grow, and the only field ever written is an empty session, once. */
  ghost predicate TokensGrow(s: State, s': State) {
    && |s.toks| <= |s'.toks|
    && (forall r | 0 <= r < |s.toks| :: SameToken(s, s', r))
    && (forall t | t in s.tokens :: t in s'.tokens && s'.tokens[t] == s.tokens[t])
  }

  // ---------------------------------------------------------------------------------------------
  // The inductive invariant
  // ---------------------------------------------------------------------------------------------

  ghost predicate EntryOk(s: State, i: Ref)
    requires i < |s.heap|
  {
    AgentOk(s.cfg, s.heap[i]) && SessionCoherent(s, s.heap[i])
  }

  ghost predicate ListedUnder(s: State, id: string)
    requires id in s.agents && s.agents[id] < |s.heap|
  {
    s.heap[s.agents[id]].pb.id == id
  }

  ghost predicate StateOk(s: State) {
    && InRange(s) && Forest(s)
    && (forall i | 0 <= i < |s.heap| :: EntryOk(s, i))
    && (forall id | id in s.agents :: ListedUnder(s, id))
    && (forall n | n in s.workspaces :: s.wsHeap[s.workspaces[n]].name == n)
  }

  ghost predicate TaskOk(s: State, t: Task) {
    && TaskInRange(s, t)
    && (HasPrincipal(t) ==> PrincipalOk(s, t.p))
    && (t.Launching? ==> s.heap[t.ref].pb.id == t.id)
    && (t.TokenTask? ==> t.perm != PermUnspecified)
  }

  ghost predicate SystemOk(y: System) {
    StateOk(y.s) && forall tid | tid in y.tasks :: TaskOk(y.s, y.tasks[tid])
  }

  ghost predicate SameEntry(s: State, s': State, i: Ref)
    requires i < |s.heap| && i < |s'.heap|
  {
    SameIdentity(s.heap[i], s'.heap[i])
  }

  /** What other RPCs can rely on across a section. */
  ghost predicate Evolves(s: State, s': State) {
    && s'.cfg == s.cfg
    && TokensGrow(s, s')
    && |s.heap| <= |s'.heap| && |s.wsHeap| <= |s'.wsHeap|
    && (forall i | 0 <= i < |s.heap| :: SameEntry(s, s', i))
    && (forall w | 0 <= w < |s.wsHeap| ::
          && s'.wsHeap[w].name == s.wsHeap[w].name && s'.wsHeap[w].project == s.wsHeap[w].project
          && s.wsHeap[w].agents <= s'.wsHeap[w].agents)
  }

  lemma TaskSurvives(s: State, s': State, t: Task)
    requires Evolves(s, s') && TaskOk(s, t)
    ensures TaskOk(s', t)
  {
    if HasPrincipal(t) && t.p.tok.Some? {
      assert SameToken(s, s', t.p.tok.value);
    }
    if t.Launching? {
      assert SameEntry(s, s', t.ref);
    }
  }

  // ---------------------------------------------------------------------------------------------
  // Sections on tokens
  // ---------------------------------------------------------------------------------------------

  lemma CoherenceSurvives(s: State, s': State, a: Agent)
    requires Indexed(s) && TokensGrow(s, s') && SessionCoherent(s, a)
    ensures SessionCoherent(s', a)
  {
    assert SameToken(s, s', s.tokens[a.pb.tokenId]);
    if a.pb.spawnedBy != "" {
      assert SameToken(s, s', s.tokens[a.pb.spawnedBy]);
    }
  }

  lemma SessionResolved(s: State, p: Principal, freshId: string)
    requires InRange(s) && Forest(s) && PrincipalOk(s, p) && freshId != ""
    ensures
      var g := ResolveSession(s, p, freshId);
      && TokensGrow(s, g.s) && Forest(g.s) && PrincipalOk(g.s, g.p) && g.session != ""
      && g.s == s.(toks := g.s.toks) && |g.s.toks| == |s.toks|
      && g.p.tok == p.tok && g.p.scope == p.scope && g.p.perm == p.perm
      && (p.tok.Some? ==> g.s.toks[p.tok.value].session == g.session)
  {
    var g := ResolveSession(s, p, freshId);
    if g.s != s {
      assert g.s.tokens == s.tokens && g.s.byBearer == s.byBearer && |g.s.toks| == |s.toks|;
      forall r | 0 <= r < |g.s.toks| ensures TokenOk(g.s, r) {
        assert TokenOk(s, r);
      }
    }
  }

  ghost predicate Issuable(s: State, tok: Token) {
    && tok.id != "" && tok.bearer != "" && tok.perm != PermUnspecified
    && tok.id !in s.tokens && tok.bearer !in s.byBearer
    && (tok.parentId != "" ==>
          tok.parentId in s.tokens && s.tokens[tok.parentId] < |s.toks| && Below(tok, s.toks[s.tokens[tok.parentId]]))
  }

  lemma TokenAdded(s: State, tok: Token)
    requires InRange(s) && Forest(s) && Issuable(s, tok)
    ensures TokensGrow(s, AddToken(s, tok)) && Forest(AddToken(s, tok)) && InRange(AddToken(s, tok))
  {
    var s' := AddToken(s, tok);
    assert Indexed(s');
    forall r | 0 <= r < |s'.toks| ensures TokenOk(s', r) {
      if r < |s.toks| {
        assert TokenOk(s, r);
        assert s'.toks[r] == s.toks[r];
      }
    }
  }

  lemma IssuedBelow(s: State, p: Principal, reqScope: Option<Scope>, reqPerm: Permission,
                    subject: string, session: string, ttl: int, f: Fresh)
    requires InRange(s) && Forest(s) && PrincipalOk(s, p) && FreshFor(s, f)
    requires p.tok.Some? && p.perm != PermAdmin ==> session == s.toks[p.tok.value].session != ""
    ensures
      var issued := IssueToken(s, p, reqScope, reqPerm, subject, session, ttl, f);
      issued.Ok? ==>
        var tok := issued.value.toks[|s.toks|];
        && issued.value == AddToken(s, tok) && Issuable(s, tok)
        && tok.id == f.tokId && tok.session == session && tok.parentId == ParentId(s, p)
  {
    var issued := IssueToken(s, p, reqScope, reqPerm, subject, session, ttl, f);
    if issued.Ok? {
      var tok := issued.value.toks[|s.toks|];
      if p.tok.Some? {
        assert TokenOk(s, p.tok.value);
        if reqScope.Some? {
          SubsetIsExact(reqScope.value, p.scope);
        }
        assert NoWider(Some(tok.scope), p.scope);
      }
    }
  }

  lemma TokenIssued(s: State, p: Principal, reqScope: Option<Scope>, reqPerm: Permission,
                    subject: string, session: string, ttl: int, f: Fresh)
    requires InRange(s) && Forest(s) && PrincipalOk(s, p) && FreshFor(s, f)
    requires p.tok.Some? && p.perm != PermAdmin ==> session == s.toks[p.tok.value].session != ""
    ensures
      var issued := IssueToken(s, p, reqScope, reqPerm, subject, session, ttl, f);
      issued.Ok? ==>
        var s' := issued.value;
        && TokensGrow(s, s') && Forest(s') && InRange(s')
        && s' == s.(toks := s'.toks, tokens := s'.tokens, byBearer := s'.byBearer)
        && |s'.toks| == |s.toks| + 1
        && f.tokId in s'.tokens && s'.tokens[f.tokId] == |s.toks|
        && s'.toks[|s.toks|].session == session
        && s'.toks[|s.toks|].parentId == ParentId(s, p)
  {
    IssuedBelow(s, p, reqScope, reqPerm, subject, session, ttl, f);
    var issued := IssueToken(s, p, reqScope, reqPerm, subject, session, ttl, f);
    if issued.Ok? {
      TokenAdded(s, issued.value.toks[|s.toks|]);
    }
  }

  // ---------------------------------------------------------------------------------------------
  // Sections on agent entries
  // ---------------------------------------------------------------------------------------------

  lemma AgentReplaced(s: State, ref: Ref, a: Agent, ports: set<int>)
    requires StateOk(s) && ref < |s.heap| && SameIdentity(s.heap[ref], a) && AgentOk(s.cfg, a)
    ensures StateOk(SetAgent(s, ref, a).(usedPorts := ports))
    ensures Evolves(s, SetAgent(s, ref, a).(usedPorts := ports))
  {
    var s' := SetAgent(s, ref, a).(usedPorts := ports);
    forall r | 0 <= r < |s'.toks| ensures TokenOk(s', r) {
      assert TokenOk(s, r);
    }
    forall i | 0 <= i < |s'.heap| ensures EntryOk(s', i) {
      assert EntryOk(s, i);
    }
  }

  lemma SpawnFailedKeeps(s: State, id: string, port: int)
    requires StateOk(s)
    ensures StateOk(SpawnFailed(s, id, port)) && Evolves(s, SpawnFailed(s, id, port))
  {
    if id in s.agents {
      var a := s.heap[s.agents[id]];
      assert EntryOk(s, s.agents[id]);
      AgentReplaced(s, s.agents[id], a.(pb := a.pb.(status := Error)), s.usedPorts - {port});
    } else {
      PortsKeep(s, s.usedPorts - {port});
    }
  }

  lemma PortsKeep(s: State, ports: set<int>)
    requires StateOk(s)
    ensures StateOk(s.(usedPorts := ports)) && Evolves(s, s.(usedPorts := ports))
  {
    var s' := s.(usedPorts := ports);
    forall r | 0 <= r < |s'.toks| ensures TokenOk(s', r) {
      assert TokenOk(s, r);
    }
    forall i | 0 <= i < |s'.heap| ensures EntryOk(s', i) {
      assert EntryOk(s, i);
    }
  }

  /** Only tokens, their indexes and ports changed. */
  lemma TokensKeep(s: State, s': State)
    requires StateOk(s) && TokensGrow(s, s') && Forest(s') && InRange(s')
    requires s' == s.(toks := s'.toks, tokens := s'.tokens, byBearer := s'.byBearer, usedPorts := s'.usedPorts)
    ensures StateOk(s') && Evolves(s, s')
  {
    forall i | 0 <= i < |s'.heap| ensures EntryOk(s', i) {
      assert EntryOk(s, i);
      CoherenceSurvives(s, s', s.heap[i]);
    }
  }

  lemma AgentAddedForest(s: State, w: Ref, a: Agent)
    requires InRange(s) && Forest(s) && w < |s.wsHeap| && a.pb.id !in s.agents
    ensures InRange(AddAgent(s, w, a)) && Forest(AddAgent(s, w, a))
  {
    var s' := AddAgent(s, w, a);
    forall r | 0 <= r < |s'.toks| ensures TokenOk(s', r) {
      assert TokenOk(s, r);
    }
  }

  lemma AgentAdded(s: State, w: Ref, a: Agent)
    requires StateOk(s) && w < |s.wsHeap| && a.pb.id !in s.agents
    requires AgentOk(s.cfg, a) && SessionCoherent(s, a)
    ensures StateOk(AddAgent(s, w, a)) && Evolves(s, AddAgent(s, w, a))
  {
    var s' := AddAgent(s, w, a);
    AgentAddedForest(s, w, a);
    forall i | 0 <= i < |s'.heap| ensures EntryOk(s', i) {
      assert s'.heap[i] == if i < |s.heap| then s.heap[i] else a;
      assert i < |s.heap| ==> EntryOk(s, i);
    }
  }

  lemma EvolvesSelf(s: State)
    ensures Evolves(s, s)
  {
  }

  lemma EvolvesTransitive(s: State, m: State, s': State)
    requires Evolves(s, m) && Evolves(m, s')
    ensures Evolves(s, s')
  {
    forall r | 0 <= r < |s.toks| ensures SameToken(s, s', r) {
      assert SameToken(s, m, r) && SameToken(m, s', r);
    }
    forall i | 0 <= i < |s.heap| ensures SameEntry(s, s', i) {
      assert SameEntry(s, m, i) && SameEntry(m, s', i);
    }
    forall w | 0 <= w < |s.wsHeap|
      ensures s'.wsHeap[w].name == s.wsHeap[w].name && s'.wsHeap[w].project == s.wsHeap[w].project
              && s.wsHeap[w].agents <= s'.wsHeap[w].agents
    {
      assert m.wsHeap[w].name == s.wsHeap[w].name;
    }
  }

  lemma SpawnBeginKeeps(s: State, p: Principal, call: SpawnCall, f: Fresh)
    requires StateOk(s) && PrincipalOk(s, p) && FreshFor(s, f)
    ensures
      var b := SpawnBegin(s, p, call, f);
      && StateOk(b.s) && Evolves(s, b.s) && PrincipalOk(b.s, b.p)
      && (b.Begun? ==> b.ref < |b.s.heap| && b.s.heap[b.ref].pb.id == b.id)
  {
    var target := SpawnTarget(s, p, call);
    var port := PortToReserve(s, f.osFree, f.osPort);
    if target.Ok? && port.Some? {
      var reserved := Reserve(s, port.value);
      PortsKeep(s, reserved.usedPorts);
      SpawnWithPortKeeps(reserved, p, call, target.value.0, target.value.1, port.value, f);
      EvolvesTransitive(s, reserved, SpawnBegin(s, p, call, f).s);
    } else {
      EvolvesSelf(s);
    }
  }

  lemma SpawnSessionKeeps(s: State, p: Principal, freshId: string)
    requires StateOk(s) && PrincipalOk(s, p) && freshId != ""
    ensures
      var g := ResolveSession(s, p, freshId);
      && StateOk(g.s) && Evolves(s, g.s) && PrincipalOk(g.s, g.p) && g.session != ""
      && g.s == s.(toks := g.s.toks)
      && g.p.tok == p.tok && g.p.perm == p.perm
      && (p.tok.Some? ==> g.s.toks[p.tok.value].session == g.session)
      && ParentId(g.s, g.p) == ParentId(s, p)
  {
    SessionResolved(s, p, freshId);
    TokensKeep(s, ResolveSession(s, p, freshId).s);
  }

  /** The session and the token of a spawn, before the agent is entered. */
  lemma SpawnTokenKeeps(s: State, p: Principal, call: SpawnCall, f: Fresh)
    requires StateOk(s) && PrincipalOk(s, p) && FreshFor(s, f)
    ensures
      var g := ResolveSession(s, p, f.session);
      var issued := IssueToken(g.s, g.p, call.scope, call.perm, DisplayName(call.name, call.template), g.session, 0, f);
      && StateOk(g.s) && Evolves(s, g.s) && PrincipalOk(g.s, g.p)
      && g.s.heap == s.heap && g.s.agents == s.agents && g.s.wsHeap == s.wsHeap && g.s.workspaces == s.workspaces
      && (issued.Ok? ==>
            && StateOk(issued.value) && Evolves(s, issued.value) && PrincipalOk(issued.value, g.p)
            && IssuedFor(s, issued.value, p, f, g.session))
  {
    SpawnSessionKeeps(s, p, f.session);
    var g := ResolveSession(s, p, f.session);
    var issued := IssueToken(g.s, g.p, call.scope, call.perm, DisplayName(call.name, call.template), g.session, 0, f);
    if issued.Ok? {
      IssueKeeps(s, g.s, p, g.p, call.scope, call.perm, DisplayName(call.name, call.template), g.session, f);
    }
  }

  lemma IssueKeeps(s: State, m: State, p: Principal, q: Principal, scope: Option<Scope>, perm: Permission,
                   subject: string, session: string, f: Fresh)
    requires StateOk(m) && Evolves(s, m) && PrincipalOk(m, q) && PrincipalInRange(s, p) && FreshFor(m, f)
    requires m == s.(toks := m.toks)
    requires session != "" && q.tok == p.tok && ParentId(m, q) == ParentId(s, p)
    requires q.tok.Some? ==> session == m.toks[q.tok.value].session
    ensures
      var issued := IssueToken(m, q, scope, perm, subject, session, 0, f);
      issued.Ok? ==>
        && StateOk(issued.value) && Evolves(s, issued.value) && PrincipalOk(issued.value, q)
        && IssuedFor(s, issued.value, p, f, session)
  {
    TokenIssued(m, q, scope, perm, subject, session, 0, f);
    var issued := IssueToken(m, q, scope, perm, subject, session, 0, f);
    if issued.Ok? {
      TokensKeep(m, issued.value);
      EvolvesTransitive(s, m, issued.value);
    }
  }

  ghost predicate IssuedFor(s: State, s': State, p: Principal, f: Fresh, session: string)
    requires PrincipalInRange(s, p)
  {
    && s'.cfg == s.cfg
    && s'.heap == s.heap && s'.agents == s.agents && s'.wsHeap == s.wsHeap && s'.workspaces == s.workspaces
    && f.tokId in s'.tokens && s'.tokens[f.tokId] < |s'.toks|
    && s'.toks[s'.tokens[f.tokId]].session == session != ""
    && s'.toks[s'.tokens[f.tokId]].parentId == ParentId(s, p)
    && (p.tok.Some? ==> p.tok.value < |s'.toks| && s'.toks[p.tok.value].session == session)
  }

  lemma SpawnWithPortKeeps(s: State, p: Principal, call: SpawnCall, w: Ref, t: Template, port: int, f: Fresh)
    requires StateOk(s) && PrincipalOk(s, p) && FreshFor(s, f) && w < |s.wsHeap|
    ensures
      var b := SpawnWithPort(s, p, call, w, t, port, f);
      && StateOk(b.s) && Evolves(s, b.s) && PrincipalOk(b.s, b.p)
      && (b.Begun? ==> b.ref < |b.s.heap| && b.s.heap[b.ref].pb.id == b.id)
  {
    SpawnTokenKeeps(s, p, call, f);
    var g := ResolveSession(s, p, f.session);
    var issued := IssueToken(g.s, g.p, call.scope, call.perm, DisplayName(call.name, call.template), g.session, 0, f);
    var id := SpawnId(call, f);
    if issued.Err? {
      ReleaseKeeps(s, g.s, g.p, port);
    } else if id in s.agents {
      ReleaseKeeps(s, issued.value, g.p, port);
    } else {
      var a := NewAgent(s, p, call, s.wsHeap[w].project, t, id, port, g.session, f);
      EnterAgentKeeps(s, issued.value, p, g.p, f, w, a);
    }
  }

  lemma ReleaseKeeps(s: State, m: State, p: Principal, port: int)
    requires StateOk(m) && Evolves(s, m) && PrincipalOk(m, p)
    ensures StateOk(FreePort(m, port)) && Evolves(s, FreePort(m, port)) && PrincipalOk(FreePort(m, port), p)
  {
    PortsKeep(m, m.usedPorts - {port});
    EvolvesTransitive(s, m, FreePort(m, port));
  }

  lemma EnterAgentKeeps(s: State, m: State, p: Principal, p': Principal, f: Fresh, w: Ref, a: Agent)
    requires StateOk(s) && PrincipalOk(s, p) && StateOk(m) && Evolves(s, m) && PrincipalOk(m, p')
    requires w < |m.wsHeap| && a.pb.id !in m.agents
    requires IssuedFor(s, m, p, f, a.pb.session)
    requires a.pb.tokenId == f.tokId && a.pb.spawnedBy == ParentId(s, p)
    requires a.pb.status == Starting && a.handle.None? && a.pb.card.None?
    ensures
      var s' := AddAgent(m, w, a);
      StateOk(s') && Evolves(s, s') && PrincipalOk(s', p') && s'.heap[|m.heap|] == a
  {
    NewAgentCoherent(s, m, p, a);
    AgentAdded(m, w, a);
    EvolvesTransitive(s, m, AddAgent(m, w, a));
  }

  lemma NewAgentCoherent(s: State, s': State, p: Principal, a: Agent)
    requires StateOk(s) && PrincipalOk(s, p) && TokensGrow(s, s') && Indexed(s')
    requires a.pb.tokenId in s'.tokens && s'.tokens[a.pb.tokenId] < |s'.toks|
    requires s'.toks[s'.tokens[a.pb.tokenId]].session == a.pb.session != ""
    requires s'.toks[s'.tokens[a.pb.tokenId]].parentId == a.pb.spawnedBy == ParentId(s, p)
    requires p.tok.Some? ==> s'.toks[p.tok.value].session == a.pb.session
    ensures SessionCoherent(s', a)
  {
    if p.tok.Some? {
      assert SameToken(s, s', p.tok.value);
    }
  }

  // ---------------------------------------------------------------------------------------------
  // Sections on workspaces and projects
  // ---------------------------------------------------------------------------------------------

  /** Agents, tokens and workspace entries stay; maps may only lose names, projects may change. */
  lemma MapsShrunk(s: State, s': State)
    requires StateOk(s)
    requires s' == s.(projects := s'.projects, agents := s'.agents, workspaces := s'.workspaces, wsHeap := s'.wsHeap)
    requires |s'.wsHeap| >= |s.wsHeap|
    requires forall w | 0 <= w < |s.wsHeap| :: s'.wsHeap[w].(active := s.wsHeap[w].active) == s.wsHeap[w]
    requires forall id | id in s'.agents :: id in s.agents && s'.agents[id] == s.agents[id]
    requires forall n | n in s'.workspaces :: s'.workspaces[n] < |s'.wsHeap| && s'.wsHeap[s'.workspaces[n]].name == n
    ensures StateOk(s') && Evolves(s, s')
  {
    forall r | 0 <= r < |s'.toks| ensures TokenOk(s', r) {
      assert TokenOk(s, r);
    }
    forall i | 0 <= i < |s'.heap| ensures EntryOk(s', i) {
      assert EntryOk(s, i);
    }
  }

  // ---------------------------------------------------------------------------------------------
  // Every section, every run
  // ---------------------------------------------------------------------------------------------

  ghost predicate Kept(s: State, after: (State, Option<Task>)) {
    && StateOk(after.0) && Evolves(s, after.0)
    && (after.1.Some? ==> TaskOk(after.0, after.1.value))
  }

  lemma SpawnSectionKeeps(s: State, t: Task, c: Choice)
    requires StateOk(s) && TaskOk(s, t) && FreshFor(s, c.f) && t.SpawnTask?
    ensures Kept(s, SpawnSection(s, t, c))
  {
    SpawnBeginKeeps(s, t.p, t.call, c.f);
  }

  lemma LaunchSectionKeeps(s: State, t: Task, c: Choice)
    requires StateOk(s) && TaskOk(s, t) && t.Launching?
    ensures Kept(s, LaunchSection(s, t, c))
  {
    if c.handle.None? {
      SpawnFailedKeeps(s, t.id, t.port);
    } else {
      var a := s.heap[t.ref];
      AgentReplaced(s, t.ref, Launched(s.cfg, a, c.handle.value, c.card, a.pb.startedAt), s.usedPorts);
      TaskSurvives(s, SpawnReady(s, t.ref, c.handle.value, c.card), t);
    }
  }

  lemma StopSectionKeeps(s: State, t: Task)
    requires StateOk(s) && TaskOk(s, t) && t.StopTask?
    ensures Kept(s, StopSection(s, t))
  {
    if t.id in s.agents {
      var ref := s.agents[t.id];
      AgentReplaced(s, ref, Registry.Halting(s.cfg, s.heap[ref]), s.usedPorts);
      TaskSurvives(s, StopBegin(s, ref), t);
    } else {
      EvolvesSelf(s);
    }
  }

  lemma HaltSectionKeeps(s: State, t: Task)
    requires StateOk(s) && TaskOk(s, t) && t.Halting?
    ensures Kept(s, HaltSection(s, t))
  {
    AgentReplaced(s, t.ref, Halted(s.cfg, s.heap[t.ref]), s.usedPorts - {s.heap[t.ref].pb.port});
    TaskSurvives(s, StopEnd(s, t.ref), t);
  }

  lemma RestartSectionKeeps(s: State, t: Task, c: Choice)
    requires StateOk(s) && TaskOk(s, t) && t.RestartTask?
    ensures Kept(s, RestartSection(s, t, c))
  {
    var port := PortToReserve(s, c.f.osFree, c.f.osPort);
    PortsKeep(s, if port.Some? then s.usedPorts + {port.value} else s.usedPorts);
  }

  lemma RelaunchSectionKeeps(s: State, t: Task, c: Choice)
    requires StateOk(s) && TaskOk(s, t) && t.Relaunching?
    ensures Kept(s, RelaunchSection(s, t, c))
  {
    var a := s.heap[t.ref];
    if c.handle.None? {
      assert EntryOk(s, t.ref);
      AgentReplaced(s, t.ref, a.(pb := a.pb.(status := Error)), s.usedPorts - {t.port});
    } else {
      AgentReplaced(s, t.ref, Launched(s.cfg, a, c.handle.value, c.card, c.f.now), s.usedPorts);
    }
  }

  lemma FindSectionKeeps(s: State, t: Task, c: Choice)
    requires StateOk(s) && TaskOk(s, t)
    requires t.FindToStop? || t.FindToRestart? || t.FindToDestroy?
    ensures Kept(s, FindSection(s, t, c))
  {
    EvolvesSelf(s);
    FindContinues(s, t, c);
  }

  lemma FindContinues(s: State, t: Task, c: Choice)
    requires InRange(s) && TaskInRange(s, t)
    requires t.FindToStop? || t.FindToRestart? || t.FindToDestroy?
    ensures FindSection(s, t, c).0 == s
    ensures FindSection(s, t, c).1.Some? ==> TaskOk(s, FindSection(s, t, c).1.value)
  {
  }

  lemma CreateSectionKeeps(s: State, t: Task)
    requires StateOk(s) && TaskOk(s, t) && t.CreateWorkspaceTask?
    ensures Kept(s, CreateSection(s, t))
  {
    var s' := CreateWorkspace(s, t.p, t.name, t.project).GetOr(s);
    MapsShrunk(s, s');
    TaskSurvives(s, s', t);
  }

  lemma DestroySectionKeeps(s: State, t: Task)
    requires StateOk(s) && TaskOk(s, t) && t.DestroyTask?
    ensures Kept(s, DestroySection(s, t))
  {
    MapsShrunk(s, DestroyEnd(s, t.name, t.ws, set id | id in t.ids));
  }

  lemma AdminSectionKeeps(s: State, t: Task, c: Choice)
    requires StateOk(s) && TaskOk(s, t) && FreshFor(s, c.f)
    requires t.RegisterTask? || t.UnregisterTask? || t.TokenTask?
    ensures Kept(s, AdminSection(s, t, c))
  {
    if t.RegisterTask? {
      MapsShrunk(s, RegisterProject(s, t.p, t.proj).GetOr(s));
    } else if t.UnregisterTask? {
      MapsShrunk(s, UnregisterProject(s, t.p, t.name).GetOr(s));
    } else {
      TokenTaskKeeps(s, t.p, t.scope, t.perm, t.subject, t.ttl, c.f);
    }
  }

  lemma AgentSectionKeeps(s: State, t: Task, c: Choice)
    requires StateOk(s) && TaskOk(s, t) && FreshFor(s, c.f) && OnAgents(t)
    ensures Kept(s, AgentSection(s, t, c))
  {
    if t.SpawnTask? {
      SpawnSectionKeeps(s, t, c);
    } else if t.Launching? {
      LaunchSectionKeeps(s, t, c);
    } else if t.StopTask? {
      StopSectionKeeps(s, t);
    } else if t.Halting? {
      HaltSectionKeeps(s, t);
    } else if t.RestartTask? {
      RestartSectionKeeps(s, t, c);
    } else {
      RelaunchSectionKeeps(s, t, c);
    }
  }

  lemma OtherSectionKeeps(s: State, t: Task, c: Choice)
    requires StateOk(s) && TaskOk(s, t) && FreshFor(s, c.f) && !OnAgents(t)
    ensures Kept(s, OtherSection(s, t, c))
  {
    if t.CreateWorkspaceTask? {
      CreateSectionKeeps(s, t);
    } else if t.DestroyTask? {
      DestroySectionKeeps(s, t);
    } else if t.FindToStop? || t.FindToRestart? || t.FindToDestroy? {
      FindSectionKeeps(s, t, c);
    } else {
      AdminSectionKeeps(s, t, c);
    }
  }

  lemma SectionKeeps(s: State, t: Task, c: Choice)
    requires StateOk(s) && TaskOk(s, t) && FreshFor(s, c.f)
    ensures Kept(s, Section(s, t, c))
  {
    if OnAgents(t) {
      AgentSectionKeeps(s, t, c);
    } else {
      OtherSectionKeeps(s, t, c);
    }
  }

  lemma TokenTaskKeeps(s: State, p: Principal, scope: Scope, perm: Permission, subject: string, ttl: int, f: Fresh)
    requires StateOk(s) && PrincipalOk(s, p) && FreshFor(s, f)
    ensures
      var s' := CreateToken(s, p, scope, perm, subject, ttl, f).GetOr(s);
      StateOk(s') && Evolves(s, s')
  {
    var made := CreateToken(s, p, scope, perm, subject, ttl, f);
    if made.Ok? {
      TokenIssued(s, p, Some(scope), perm, subject, "", ttl, f);
      TokensKeep(s, made.value);
    } else {
      PortsKeep(s, s.usedPorts);
    }
  }

  lemma ArrivalKeeps(y: System, tid: nat, p: Principal, y': System)
    requires SystemOk(y) && Arrives(y, y', tid, p)
    ensures SystemOk(y')
  {
    var bearer, loopback, now :| Authenticate(y.s, bearer, loopback, now) == Ok(p);
    assert PrincipalOk(y.s, p);
    assert TaskOk(y.s, y'.tasks[tid]);
  }

  lemma NextKeeps(y: System, e: Event, y': System)
    requires SystemOk(y) && Next(y, e, y')
    ensures SystemOk(y') && Evolves(y.s, y'.s)
  {
    match e
    case Arrival(tid, p) =>
      ArrivalKeeps(y, tid, p, y');
      PortsKeep(y.s, y.s.usedPorts);
    case Advance(tid, c) =>
      var t := y.tasks[tid];
      assert TaskOk(y.s, t);
      SectionKeeps(y.s, t, c);
      OthersKeep(y, y', tid);
  }

  lemma OthersKeep(y: System, y': System, tid: nat)
    requires SystemOk(y) && StateOk(y'.s) && Evolves(y.s, y'.s)
    requires forall k | k in y'.tasks && k != tid :: k in y.tasks && y'.tasks[k] == y.tasks[k]
    requires tid in y'.tasks ==> TaskOk(y'.s, y'.tasks[tid])
    ensures SystemOk(y')
  {
    forall k | k in y'.tasks ensures TaskOk(y'.s, y'.tasks[k]) {
      if k != tid {
        TaskSurvives(y.s, y'.s, y.tasks[k]);
      }
    }
  }

  lemma {:induction false} RunIsOk(r: Run)
    requires IsRun(r)
    ensures SystemOk(Last(r))
    decreases |r.events|
  {
    if |r.events| > 0 {
      PrefixIsRun(r);
      RunIsOk(Prefix(r));
      NextKeeps(Last(Prefix(r)), r.events[|r.events| - 1], Last(r));
    }
  }
}
