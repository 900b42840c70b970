/**
 * What a launch makes of an agent: which spawns are admitted and what they enter, whose card the
 * agent advertises, and what a stop leaves of it.
 */
module Launching {
  import opened JsonTree
  import opened Scopes
  import opened Registry
  import opened Interleaving
  import opened Guarantees
  import opened Listing
  import opened Credentials
  import opened SpawnShape

  // ---------------------------------------------------------------------------------------------
  // Which port and which template
  // ---------------------------------------------------------------------------------------------

  ghost predicate Available(s: State, osFree: set<int>, q: int) {
    s.cfg.portMin <= q <= s.cfg.portMax && q !in s.usedPorts && q in osFree
  }

  /** The lowest available port of the range; only if there is none, what the system hands out. */
  lemma PortChosen(s: State, osFree: set<int>, osPort: Option<int>)
    ensures
      var port := PortToReserve(s, osFree, osPort);
      if exists q :: Available(s, osFree, q)
      then port.Some? && Available(s, osFree, port.value) && forall q | Available(s, osFree, q) :: port.value <= q
      else port == osPort
  {
    var inRange := FirstFree(s.usedPorts, osFree, s.cfg.portMin, s.cfg.portMax);
    if inRange.Some? {
      assert Available(s, osFree, inRange.value);
    }
  }

  /** `t` is the first of the list with the name. */
  ghost predicate FirstNamed(ts: seq<Template>, name: string, t: Template) {
    exists i :: 0 <= i < |ts| && ts[i] == t && t.name == name && forall k | 0 <= k < i :: ts[k].name != name
  }

  lemma {:induction false} FindsFirst(ts: seq<Template>, name: string)
    ensures
      var t := FindTemplate(ts, name);
      if exists x :: x in ts && x.name == name then t.Some? && FirstNamed(ts, name, t.value) else t == None
  {
    if ts != [] && ts[0].name != name {
      FindsFirst(ts[1..], name);
      var t := FindTemplate(ts[1..], name);
      assert forall x :: x in ts <==> x == ts[0] || x in ts[1..];
      if t.Some? {
        var i :| 0 <= i < |ts[1..]| && ts[1..][i] == t.value && forall k | 0 <= k < i :: ts[1..][k].name != name;
        assert ts[i + 1] == t.value;
        assert forall k | 0 <= k < i + 1 :: k > 0 ==> ts[k] == ts[1..][k - 1];
      }
    } else if ts != [] {
      assert ts[0] in ts && FirstNamed(ts, name, ts[0]);
    }
  }

  /** The project's own first template of the name shadows the server's. */
  lemma TemplateChosen(s: State, project: string, name: string)
    ensures
      var t := ResolveTemplate(s, project, name);
      if project in s.projects && exists x :: x in s.projects[project].agents && x.name == name
      then t.Some? && FirstNamed(s.projects[project].agents, name, t.value)
      else if name in s.cfg.templates then t == Some(s.cfg.templates[name])
      else t == None
  {
    if project in s.projects {
      FindsFirst(s.projects[project].agents, name);
    }
  }

  // ---------------------------------------------------------------------------------------------
  // Which spawns are admitted
  // ---------------------------------------------------------------------------------------------

  /** The caller may hand down what the call asks for. */
  ghost predicate MayDelegate(p: Principal, call: SpawnCall) {
    && (call.scope.Some? ==> NoWider(call.scope, p.scope))
    && (call.perm != PermUnspecified ==> NoHigher(call.perm, p.perm))
  }

  function IdFor(call: SpawnCall, f: Fresh): string {
    if call.fixedId != "" then call.fixedId else f.agentId
  }

  /** Why a spawn is refused, if it is: the first of these that applies. */
  ghost function Refusal(s: State, p: Principal, call: SpawnCall, f: Fresh): Option<ErrorCode>
    requires WorkspacesInRange(s)
  {
    if call.workspace !in s.workspaces then Some(NotFound)
    else
      var project := s.wsHeap[s.workspaces[call.workspace]].project;
      if !CanAccess(p.scope, project) then Some(PermissionDenied)
      else if ResolveTemplate(s, project, call.template).None? then Some(NotFound)
      else if PortToReserve(s, f.osFree, f.osPort).None? then Some(Internal)
      else if !MayDelegate(p, call) then Some(PermissionDenied)
      else if IdFor(call, f) in s.agents then Some(AlreadyExists)
      else None
  }

  /** What a begun spawn enters, field by field. */
  ghost predicate EnteredAs(s: State, p: Principal, call: SpawnCall, f: Fresh, port: int, a: Agent)
    requires WorkspacesInRange(s) && PrincipalInRange(s, p) && call.workspace in s.workspaces
  {
    var project := s.wsHeap[s.workspaces[call.workspace]].project;
    var id := IdFor(call, f);
    && a.project == project && Some(a.template) == ResolveTemplate(s, project, call.template)
    && a.handle == None && a.cardBase == Obj(map[])
    && a.pb == Instance(
                 id, call.template, call.workspace, Starting, Int32(port), "",
                 if s.cfg.gatewayBase == "" then "" else s.cfg.gatewayBase + "/a2a/agents/" + id,
                 0, f.tokId, SessionFor(s, p, f.session),
                 if p.tok.Some? then s.toks[p.tok.value].id else "", f.now, None)
  }

  /** The part of a spawn's first section behind the reservation of the port. */
  lemma SpawnWithPortIff(s: State, p: Principal, call: SpawnCall, w: Ref, t: Template, port: int, f: Fresh)
    requires PrincipalInRange(s, p) && w < |s.wsHeap|
    ensures
      var b := SpawnWithPort(s, p, call, w, t, port, f);
      if !MayDelegate(p, call) then b.Refused? && b.code == PermissionDenied
      else if IdFor(call, f) in s.agents then b.Refused? && b.code == AlreadyExists
      else
        && b.Begun? && b.port == port && b.ref == |s.heap| && b.id == IdFor(call, f)
        && b.s.heap == s.heap + [NewAgent(s, p, call, s.wsHeap[w].project, t, IdFor(call, f), port,
                                          SessionFor(s, p, f.session), f)]
  {
    SessionIsFor(s, p, f.session);
    var g := ResolveSession(s, p, f.session);
    IssuedAsAsked(g.s, g.p, call.scope, call.perm, DisplayName(call.name, call.template), g.session, 0, f);
  }

  lemma NewAgentIs(s: State, p: Principal, call: SpawnCall, t: Template, port: int, f: Fresh)
    requires WorkspacesInRange(s) && PrincipalInRange(s, p) && call.workspace in s.workspaces
    requires ResolveTemplate(s, s.wsHeap[s.workspaces[call.workspace]].project, call.template) == Some(t)
    ensures
      var project := s.wsHeap[s.workspaces[call.workspace]].project;
      EnteredAs(s, p, call, f, port,
                NewAgent(s, p, call, project, t, IdFor(call, f), port, SessionFor(s, p, f.session), f))
  {
  }

  /** A spawn begins exactly if nothing speaks against it, and then it enters what was asked for. */
  lemma SpawnBeginsIff(s: State, p: Principal, call: SpawnCall, f: Fresh)
    requires WorkspacesInRange(s) && PrincipalInRange(s, p)
    ensures
      var b, why := SpawnBegin(s, p, call, f), Refusal(s, p, call, f);
      if why.Some? then b.Refused? && b.code == why.value
      else
        && b.Begun? && PortToReserve(s, f.osFree, f.osPort) == Some(b.port)
        && b.ref == |s.heap| && |b.s.heap| == |s.heap| + 1 && b.id == IdFor(call, f)
        && EnteredAs(s, p, call, f, b.port, b.s.heap[b.ref])
  {
    var target := SpawnTarget(s, p, call);
    var port := PortToReserve(s, f.osFree, f.osPort);
    if target.Ok? && port.Some? {
      var m := Reserve(s, port.value);
      SpawnWithPortIff(m, p, call, target.value.0, target.value.1, port.value, f);
      NewAgentIs(s, p, call, target.value.1, port.value, f);
      assert NewAgent(m, p, call, s.wsHeap[target.value.0].project, target.value.1, IdFor(call, f), port.value,
                      SessionFor(m, p, f.session), f)
             == NewAgent(s, p, call, s.wsHeap[target.value.0].project, target.value.1, IdFor(call, f), port.value,
                         SessionFor(s, p, f.session), f);
    }
  }

  // ---------------------------------------------------------------------------------------------
  // Whose card
  // ---------------------------------------------------------------------------------------------

  /** Some skill of the card has the tag. */
  ghost predicate Advertises(card: Json, tag: string) {
    exists i: nat, j: nat :: At(card, [Key("skills"), Index(i), Key("tags"), Index(j)]) == Some(Str(tag))
  }

  lemma AtStep(j: Json, step: Step, rest: Path)
    ensures At(j, [step] + rest) == match Child(j, step) case None => None case Some(c) => At(c, rest)
  {
    assert ([step] + rest)[1..] == rest;
  }

  lemma TagAt(card: Json, i: nat, j: nat)
    ensures
      At(card, [Key("skills"), Index(i), Key("tags"), Index(j)])
      == if card.Obj? && "skills" in card.fields && card.fields["skills"].Arr? && i < |card.fields["skills"].items|
         then
           var skill := card.fields["skills"].items[i];
           if skill.Obj? && "tags" in skill.fields && skill.fields["tags"].Arr? && j < |skill.fields["tags"].items|
           then Some(skill.fields["tags"].items[j]) else None
         else None
  {
    var path := [Key("skills")] + ([Index(i)] + ([Key("tags")] + ([Index(j)] + [])));
    assert path == [Key("skills"), Index(i), Key("tags"), Index(j)];
    AtStep(card, Key("skills"), [Index(i)] + ([Key("tags")] + ([Index(j)] + [])));
    if Child(card, Key("skills")).Some? {
      var skills := Child(card, Key("skills")).value;
      AtStep(skills, Index(i), [Key("tags")] + ([Index(j)] + []));
      if Child(skills, Index(i)).Some? {
        var skill := Child(skills, Index(i)).value;
        AtStep(skill, Key("tags"), [Index(j)] + []);
        if Child(skill, Key("tags")).Some? {
          AtStep(Child(skill, Key("tags")).value, Index(j), []);
        }
      }
    }
  }

  /** The search through the skills finds a capability exactly if the card advertises it. */
  lemma CardHasIffAdvertises(card: Json, tag: string)
    ensures CardHas(card, tag) <==> Advertises(card, tag)
  {
    if CardHas(card, tag) {
      var skills := card.fields["skills"].items;
      var i :| 0 <= i < |skills| && SkillHas(skills[i], tag);
      var tags := skills[i].fields["tags"].items;
      var j :| 0 <= j < |tags| && tags[j] == Str(tag);
      TagAt(card, i, j);
    }
    if Advertises(card, tag) {
      var i: nat, j: nat :| At(card, [Key("skills"), Index(i), Key("tags"), Index(j)]) == Some(Str(tag));
      TagAt(card, i, j);
      var skill := card.fields["skills"].items[i];
      assert TagIn(skill.fields["tags"].items, tag);
      assert SkillHas(skill, tag);
    }
  }

  /** An agent advertises what its own card says or, if that could not be fetched, its template's tags. */
  ghost predicate Offers(t: Template, fetched: Option<Json>, tag: string) {
    match fetched
    case Some(card) => Advertises(card, tag)
    case None => tag in t.tags
  }

  /** The card shown says of the agent what its entry says. */
  ghost predicate Describes(cfg: Config, a: Agent, card: AgentCard, status: string) {
    && card.body == cfg.convert(a.cardBase)
    && card.interfaces == [CardInterface(a.pb.directUrl, "HTTP_JSON")]
                          + (if a.pb.proxyUrl == "" then [] else [CardInterface(a.pb.proxyUrl, "HTTP_JSON")])
    && card.arp == ArpMeta(
                     a.pb.id, a.pb.workspace, a.project, a.pb.template, status, a.pb.directUrl,
                     if a.pb.proxyUrl == "" then None else Some(a.pb.proxyUrl), a.pb.startedAt)
  }

  /** An agent the backend has just brought up; `before` is its entry until then. */
  ghost predicate UpAs(cfg: Config, before: Agent, h: Handle, fetched: Option<Json>, startedAt: Time, a: Agent) {
    && a.handle == Some(h) && a.template == before.template && a.project == before.project
    && (fetched.Some? ==> a.cardBase == fetched.value)
    && (forall tag :: Advertises(a.cardBase, tag) <==> Offers(before.template, fetched, tag))
    && a.pb == before.pb.(status := Ready, directUrl := h.url, port := Int32(h.port), pid := Int32(h.pid),
                          startedAt := startedAt, card := a.pb.card)
    && a.pb.card.Some? && Describes(cfg, a, a.pb.card.value, "ready")
  }

  lemma LaunchedIsUp(cfg: Config, before: Agent, h: Handle, fetched: Option<Json>, startedAt: Time)
    ensures UpAs(cfg, before, h, fetched, startedAt, Launched(cfg, before, h, fetched, startedAt))
  {
    var a := Launched(cfg, before, h, fetched, startedAt);
    forall tag ensures Advertises(a.cardBase, tag) <==> Offers(before.template, fetched, tag) {
      CardHasIffAdvertises(a.cardBase, tag);
      if fetched.None? {
        FallbackAdvertisesTags(before.template, h.url, tag);
      }
    }
  }

  /** The made-up card carries the names of the template. */
  lemma FallbackNames(t: Template, url: string)
    ensures
      var card, name := FallbackCard(t, url), Some(Str(if t.cardName == "" then t.name else t.cardName));
      && At(card, [Key("name")]) == name && At(card, [Key("description")]) == Some(Str(t.description))
      && At(card, [Key("version")]) == Some(Str("1.0.0"))
      && At(card, [Key("supported_interfaces")])
         == Some(Arr([Obj(map["url" := Str(url), "transport" := Str("HTTP_JSON")])]))
      && At(card, [Key("default_input_modes")]) == Some(Arr([Str("text/plain")]))
      && At(card, [Key("default_output_modes")]) == Some(Arr([Str("text/plain")]))
      && card.Obj? && "skills" in card.fields && card.fields["skills"].Arr? && |card.fields["skills"].items| == 1
      && var skill := card.fields["skills"].items[0];
         At(skill, [Key("id")]) == Some(Str(t.name)) && At(skill, [Key("name")]) == name
  {
    forall k: string ensures [Key(k)][1..] == [] {
    }
  }

  /** The step at which the backend's answer to a spawn arrives: the agent is up, with its own card. */
  lemma SpawnBringsUp(r: Run, i: nat, tid: nat, c: Choice)
    requires IsRun(r) && i < |r.events| && r.events[i] == Advance(tid, c) && c.handle.Some?
    requires tid in r.states[i].tasks && r.states[i].tasks[tid].Launching?
    ensures
      var s, s', ref := r.states[i].s, r.states[i + 1].s, r.states[i].tasks[tid].ref;
      && ref < |s.heap| && s'.agents == s.agents && s'.heap == s.heap[ref := s'.heap[ref]]
      && UpAs(s.cfg, s.heap[ref], c.handle.value, c.card, s.heap[ref].pb.startedAt, s'.heap[ref])
  {
    assert Next(r.states[i], r.events[i], r.states[i + 1]);
    var s, ref := r.states[i].s, r.states[i].tasks[tid].ref;
    LaunchedIsUp(s.cfg, s.heap[ref], c.handle.value, c.card, s.heap[ref].pb.startedAt);
  }

  /** And at which the answer to a restart does: likewise, started now. */
  lemma RestartBringsUp(r: Run, i: nat, tid: nat, c: Choice)
    requires IsRun(r) && i < |r.events| && r.events[i] == Advance(tid, c) && c.handle.Some?
    requires tid in r.states[i].tasks && r.states[i].tasks[tid].Relaunching?
    ensures
      var s, s', ref := r.states[i].s, r.states[i + 1].s, r.states[i].tasks[tid].ref;
      && ref < |s.heap| && s'.agents == s.agents && s'.heap == s.heap[ref := s'.heap[ref]]
      && UpAs(s.cfg, s.heap[ref], c.handle.value, c.card, c.f.now, s'.heap[ref])
  {
    assert Next(r.states[i], r.events[i], r.states[i + 1]);
    var s, ref := r.states[i].s, r.states[i].tasks[tid].ref;
    LaunchedIsUp(s.cfg, s.heap[ref], c.handle.value, c.card, c.f.now);
  }

  // ---------------------------------------------------------------------------------------------
  // The card over a run
  // ---------------------------------------------------------------------------------------------

  /** In every reachable state the stored card of a running, stopping or stopped agent describes it. */
  lemma CardDescribes(r: Run, i: Ref)
    requires IsRun(r) && i < |Last(r).s.heap|
    ensures
      var a := Last(r).s.heap[i];
      && (a.pb.status == Ready ==> a.pb.card.Some? && Describes(Last(r).s.cfg, a, a.pb.card.value, "ready"))
      && (a.pb.status == Stopping ==> a.pb.card.Some? && Describes(Last(r).s.cfg, a, a.pb.card.value, "stopping"))
      && (a.pb.status == Stopped ==> a.pb.card.Some? && Describes(Last(r).s.cfg, a, a.pb.card.value, "stopped"))
  {
    EveryEntryConsistent(r, i);
  }
}
