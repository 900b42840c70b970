/**
 * What a bearer is good for: whom it admits and until when, and that a token issued gives exactly
 * what was asked for, now and at every later moment of a run.
 */
module Credentials {
  import opened JsonTree
  import opened Scopes
  import opened Registry
  import opened Interleaving
  import opened Safety
  import opened Guarantees

  // ---------------------------------------------------------------------------------------------
  // Who is admitted
  // ---------------------------------------------------------------------------------------------

  /** The bearer of a token admits its holder as the token says, up to and including its last moment. */
  lemma BearerAdmitted(s: State, t: Ref, loopback: bool, now: Time)
    requires StateOk(s) && t < |s.toks|
    ensures
      var tok := s.toks[t];
      Authenticate(s, tok.bearer, loopback, now)
      == if tok.expiresAt.Some? && now > tok.expiresAt.value then Err(Unauthenticated)
         else Ok(Principal(Some(t), tok.subject, Some(tok.scope), tok.perm, tok.session))
  {
    assert TokenOk(s, t);
  }

  /** Whoever is admitted by a bearer, from wherever they call, holds the token it belongs to. */
  lemma AdmittedHoldsToken(s: State, bearer: string, loopback: bool, now: Time)
    requires StateOk(s) && bearer != "" && Authenticate(s, bearer, loopback, now).Ok?
    ensures exists t :: 0 <= t < |s.toks| && s.toks[t].bearer == bearer
  {
    assert s.toks[s.byBearer[bearer]].bearer == bearer;
  }

  /** Without a bearer only a local caller is, and only where the configuration allows it. */
  lemma NoBearerNeedsLoopback(s: State, loopback: bool, now: Time)
    requires InRange(s)
    ensures
      Authenticate(s, "", loopback, now)
      == if loopback && s.cfg.localhostAdmin
         then Ok(Principal(None, "localhost", Some(Scope(true, [])), PermAdmin, ""))
         else Err(Unauthenticated)
  {
  }

  /** From the moment it exists a token admits the same holder with the same rights, until it expires. */
  lemma BearerAdmittedLater(r: Run, i: nat, j: nat, t: Ref, loopback: bool, now: Time)
    requires IsRun(r) && i <= j < |r.states| && t < |r.states[i].s.toks|
    ensures InRange(r.states[j].s) && t < |r.states[j].s.toks|
    ensures
      var tok := r.states[i].s.toks[t];
      Authenticate(r.states[j].s, tok.bearer, loopback, now)
      == if tok.expiresAt.Some? && now > tok.expiresAt.value then Err(Unauthenticated)
         else Ok(Principal(Some(t), tok.subject, Some(tok.scope), tok.perm, r.states[j].s.toks[t].session))
  {
    TokensWrittenOnce(r, i, j, t);
    UpToIsRun(r, j);
    RunIsOk(UpTo(r, j));
    BearerAdmitted(r.states[j].s, t, loopback, now);
  }

  // ---------------------------------------------------------------------------------------------
  // What a token is issued for
  // ---------------------------------------------------------------------------------------------

  /** SESSION below PROJECT below ADMIN. */
  predicate NoHigher(asked: Permission, own: Permission) {
    match own
    case PermAdmin => true
    case PermProject => asked != PermAdmin
    case PermSession => asked == PermSession || asked == PermUnspecified
    case PermUnspecified => asked == PermUnspecified
  }

  lemma RankIsOrder(asked: Permission, own: Permission)
    ensures NoHigher(asked, own) <==> asked.Rank() <= own.Rank()
  {
  }

  /** The token is what was asked for, the caller's own where nothing was. */
  ghost predicate AsAsked(s: State, p: Principal, reqScope: Option<Scope>, reqPerm: Permission, subject: string,
                          session: string, ttl: int, f: Fresh, tok: Token)
    requires PrincipalInRange(s, p)
  {
    && tok.id == f.tokId && tok.bearer == f.bearer && tok.subject == subject && tok.session == session
    && (forall name :: CanAccess(Some(tok.scope), name)
                       <==> if reqScope.Some? then CanAccess(reqScope, name) else CanAccess(p.scope, name))
    && tok.perm == (if reqPerm == PermUnspecified then p.perm else reqPerm)
    && tok.parentId == (if p.tok.Some? then s.toks[p.tok.value].id else "")
    && tok.expiresAt == (if ttl > 0 then Some(f.now + ttl) else None)
  }

  ghost predicate Stored(s: State, tok: Token, s': State) {
    s' == s.(toks := s.toks + [tok],
             tokens := s.tokens[tok.id := |s.toks|],
             byBearer := s.byBearer[tok.bearer := |s.toks|])
  }

  /**
   * A token is issued exactly if it would reach no further and rank no higher than the caller; then
   * it is as asked.
   */
  lemma IssuedAsAsked(s: State, p: Principal, reqScope: Option<Scope>, reqPerm: Permission, subject: string,
                      session: string, ttl: int, f: Fresh)
    requires PrincipalInRange(s, p)
    ensures
      var issued := IssueToken(s, p, reqScope, reqPerm, subject, session, ttl, f);
      if (reqScope.Some? ==> NoWider(reqScope, p.scope)) && (reqPerm != PermUnspecified ==> NoHigher(reqPerm, p.perm))
      then
        && issued.Ok? && |issued.value.toks| == |s.toks| + 1
        && var tok := issued.value.toks[|s.toks|];
           AsAsked(s, p, reqScope, reqPerm, subject, session, ttl, f, tok) && Stored(s, tok, issued.value)
      else issued == Err(PermissionDenied)
  {
    RankIsOrder(reqPerm, p.perm);
    if reqScope.Some? {
      SubsetIsExact(reqScope.value, p.scope);
    }
  }

  // ---------------------------------------------------------------------------------------------
  // From the call to the holder
  // ---------------------------------------------------------------------------------------------

  /** Who the holder of a token made by CreateToken is. */
  ghost predicate HolderOf(who: Result<Principal>, t: Ref, scope: Scope, perm: Permission, subject: string) {
    && who.Ok? && who.value.tok == Some(t) && who.value.subject == subject && who.value.perm == perm
    && forall name :: CanAccess(who.value.scope, name) <==> CanAccess(Some(scope), name)
  }

  /**
   * A token made by CreateToken, for as long as the server runs: refused once its time to live is
   * over, and until then its bearer acts with exactly the reach and the permission asked for. A
   * token without one never expires.
   */
  lemma CreatedTokenLives(r: Run, i: nat, j: nat, tid: nat, c: Choice, loopback: bool, now: Time)
    requires IsRun(r) && i < j < |r.states| && r.events[i] == Advance(tid, c)
    requires tid in r.states[i].tasks && r.states[i].tasks[tid].TokenTask?
    requires var t := r.states[i].tasks[tid]; t.p.perm == PermAdmin && NoWider(Some(t.scope), t.p.scope)
    ensures InRange(r.states[j].s)
    ensures
      var t, who := r.states[i].tasks[tid], Authenticate(r.states[j].s, c.f.bearer, loopback, now);
      if t.ttl > 0 && now > c.f.now + t.ttl then who == Err(Unauthenticated)
      else HolderOf(who, |r.states[i].s.toks|, t.scope, t.perm, t.subject)
  {
    var s, t := r.states[i].s, r.states[i].tasks[tid];
    assert Next(r.states[i], r.events[i], r.states[i + 1]);
    UpToIsRun(r, i);
    RunIsOk(UpTo(r, i));
    assert TaskOk(s, t);
    IssuedAsAsked(s, t.p, Some(t.scope), t.perm, t.subject, "", t.ttl, c.f);
    BearerAdmittedLater(r, i + 1, j, |s.toks|, loopback, now);
  }

  // ---------------------------------------------------------------------------------------------
  // The token of a spawned agent
  // ---------------------------------------------------------------------------------------------

  /** A session is established at the first spawn through a token and kept; a local spawn gets its own. */
  function SessionFor(s: State, p: Principal, freshId: string): string
    requires PrincipalInRange(s, p)
  {
    if p.tok.Some? && s.toks[p.tok.value].session != "" then s.toks[p.tok.value].session else freshId
  }

  lemma SessionIsFor(s: State, p: Principal, freshId: string)
    requires PrincipalInRange(s, p)
    ensures
      var g := ResolveSession(s, p, freshId);
      && g.session == SessionFor(s, p, freshId)
      && g.s == s.(toks := g.s.toks) && |g.s.toks| == |s.toks|
      && (forall t | 0 <= t < |s.toks| ::
            g.s.toks[t] == if p.tok == Some(t) then s.toks[t].(session := g.session) else s.toks[t])
      && g.p == p.(session := g.p.session)
  {
  }

  /** The caller goes on in the session of its token or, without one, in that of its first spawn. */
  lemma CallerKeepsSession(s: State, p: Principal, freshId: string)
    requires PrincipalInRange(s, p)
    ensures
      var g := ResolveSession(s, p, freshId);
      g.p == if p.tok.Some? || p.session == "" then p.(session := SessionFor(s, p, freshId)) else p
  {
  }

  function NameFor(call: SpawnCall): string {
    if call.name == "" then call.template else call.name
  }

  /** The outcome `b` has issued one token, as the call asked, for the session of its new agent. */
  ghost predicate IssuedFor(s: State, p: Principal, call: SpawnCall, f: Fresh, b: SpawnBegun)
    requires PrincipalInRange(s, p)
  {
    && |b.s.toks| == |s.toks| + 1 && |b.s.heap| == |s.heap| + 1
    && var tok, a := b.s.toks[|s.toks|], b.s.heap[|s.heap|];
       && AsAsked(s, p, call.scope, call.perm, NameFor(call), SessionFor(s, p, f.session), 0, f, tok)
       && a.pb.tokenId == tok.id && a.pb.session == tok.session && a.pb.spawnedBy == tok.parentId
  }

  lemma SpawnWithPortIssues(s: State, p: Principal, call: SpawnCall, w: Ref, t: Template, port: int, f: Fresh)
    requires PrincipalInRange(s, p) && w < |s.wsHeap| && SpawnWithPort(s, p, call, w, t, port, f).Begun?
    ensures IssuedFor(s, p, call, f, SpawnWithPort(s, p, call, w, t, port, f))
  {
    SessionIsFor(s, p, f.session);
    var g := ResolveSession(s, p, f.session);
    IssuedAsAsked(g.s, g.p, call.scope, call.perm, NameFor(call), g.session, 0, f);
  }

  /** So has every spawn that begins. */
  lemma SpawnIssues(s: State, p: Principal, call: SpawnCall, f: Fresh)
    requires InRange(s) && PrincipalInRange(s, p) && SpawnBegin(s, p, call, f).Begun?
    ensures IssuedFor(s, p, call, f, SpawnBegin(s, p, call, f))
  {
    var target := SpawnTarget(s, p, call).value;
    var port := PortToReserve(s, f.osFree, f.osPort).value;
    SpawnWithPortIssues(Reserve(s, port), p, call, target.0, target.1, port, f);
  }

  /** An auto agent of a workspace gets the reach and the permission of whoever creates the workspace. */
  lemma AutoAgentInherits(s: State, p: Principal, workspace: string, template: string, f: Fresh)
    requires InRange(s) && PrincipalInRange(s, p) && SpawnBegin(s, p, AutoCall(workspace, template), f).Begun?
    ensures
      var b := SpawnBegin(s, p, AutoCall(workspace, template), f);
      && |b.s.toks| == |s.toks| + 1 && b.id == f.agentId
      && var tok := b.s.toks[|s.toks|];
         && tok.subject == template && tok.perm == p.perm && tok.expiresAt == None
         && forall name :: CanAccess(Some(tok.scope), name) <==> CanAccess(p.scope, name)
  {
    SpawnIssues(s, p, AutoCall(workspace, template), f);
  }

  /**
   * The token of a spawned agent, for as long as the server runs: its bearer is admitted at every
   * later moment, with exactly the reach and the permission the spawn asked for (or the caller's)
   * and the session of the agent.
   */
  lemma SpawnedTokenLives(r: Run, i: nat, j: nat, tid: nat, c: Choice, loopback: bool, now: Time)
    requires IsRun(r) && i < j < |r.states| && r.events[i] == Advance(tid, c)
    requires tid in r.states[i].tasks && r.states[i].tasks[tid].SpawnTask?
    requires tid in r.states[i + 1].tasks && r.states[i + 1].tasks[tid].Launching?
    ensures InRange(r.states[j].s) && |r.states[i].s.heap| < |r.states[i + 1].s.heap|
    ensures
      var t, who := r.states[i].tasks[tid], Authenticate(r.states[j].s, c.f.bearer, loopback, now);
      && who.Ok? && who.value.tok == Some(|r.states[i].s.toks|) && who.value.subject == NameFor(t.call)
      && who.value.perm == (if t.call.perm == PermUnspecified then t.p.perm else t.call.perm)
      && who.value.session == r.states[i + 1].s.heap[|r.states[i].s.heap|].pb.session != ""
      && forall name :: CanAccess(who.value.scope, name)
                        <==> if t.call.scope.Some? then CanAccess(t.call.scope, name) else CanAccess(t.p.scope, name)
  {
    var s, t := r.states[i].s, r.states[i].tasks[tid];
    assert Next(r.states[i], r.events[i], r.states[i + 1]);
    UpToIsRun(r, i + 1);
    RunIsOk(UpTo(r, i + 1));
    SpawnIssues(s, t.p, t.call, c.f);
    assert EntryOk(r.states[i + 1].s, |s.heap|);
    BearerAdmittedLater(r, i + 1, j, |s.toks|, loopback, now);
    TokensWrittenOnce(r, i + 1, j, |s.toks|);
  }
}
