/**
 * The sections behind the guarantees one might expect of the server and does not get; HazardRuns
 * has runs that go through them.
 */
module Hazards {
  import opened JsonTree
  import opened Scopes
  import opened Registry
  import opened Interleaving

  /**
   * Stopping an agent that is STOPPED already frees its old port again, even if a READY agent has
   * it by now.
   */
  lemma RepeatedStopFreesLivePort(s: State, halted: Ref, live: Ref)
    requires halted < |s.heap| && live < |s.heap| && halted != live
    requires s.heap[halted].pb.status == Stopped && s.heap[live].pb.status == Ready
    requires s.heap[halted].pb.port == s.heap[live].pb.port && s.heap[live].pb.port in s.usedPorts
    ensures
      var s' := StopEnd(StopBegin(s, halted), halted);
      s'.heap[live] == s.heap[live] && s'.heap[live].pb.port !in s'.usedPorts
  {
    var s1 := StopBegin(s, halted);
    assert s1.heap[live] == s.heap[live] && s1.heap[halted].pb.port == s.heap[halted].pb.port;
  }

  /**
   * A stop that ends after a whole restart of its agent, the restart's own stop included, has gone
   * by: it drops the handle the relaunch brought, and frees the port of that process.
   */
  lemma OverlappingStopDropsNewHandle(s: State, ref: Ref, port: int, h: Handle, fetched: Option<Json>, now: Time)
    requires ref < |s.heap|
    ensures
      var halted := StopEnd(StopBegin(StopBegin(s, ref), ref), ref);
      var restarted := RestartReady(Reserve(halted, port), ref, h, fetched, now);
      var stopped := StopEnd(restarted, ref);
      && halted.heap[ref].handle == None && port in restarted.usedPorts
      && restarted.heap[ref].handle == Some(h) && restarted.heap[ref].pb.status == Ready
      && stopped.heap[ref].handle == None && stopped.heap[ref].pb.status == Stopped
      && Int32(h.port) !in stopped.usedPorts
  {
  }

  /** A failed relaunch leaves the card of the stopped agent in place: it still shows "stopped". */
  lemma FailedRestartLeavesStaleCard(s: State, ref: Ref, port: int)
    requires ref < |s.heap|
    ensures
      var stopped := StopEnd(StopBegin(s, ref), ref);
      var failed := RestartFailed(stopped, ref, port).heap[ref];
      && failed.pb.status == Error && failed.pb.card.Some?
      && failed.pb.card.value.arp.status == "stopped"
      && failed.pb.card != Some(EnrichedCard(s.cfg, failed))
  {
    var stopped := StopEnd(StopBegin(s, ref), ref);
    var failed := RestartFailed(stopped, ref, port).heap[ref];
    assert EnrichedCard(s.cfg, failed).arp.status == "error";
    assert |"error"| != |"stopped"|;
  }

  /** The id is one of the workspace, and its agent carries the session of the caller. */
  ghost predicate OwnAgent(s: State, p: Principal, w: Workspace, id: string)
    requires InRange(s)
  {
    id in w.agents && id in s.agents && s.heap[s.agents[id]].pb.session == p.session
  }

  /**
   * Whom a destroy admits with a SESSION token: whoever has one agent of their own session in the
   * workspace, no matter whose the others are. The design asks that all of them be the caller's
   * (arp-spec/identity-and-scopes.md, line 185).
   */
  lemma SessionDestroyNeedsOneOwnAgent(s: State, p: Principal, name: string)
    requires InRange(s) && p.perm == PermSession && name in s.workspaces
    ensures
      var w := s.wsHeap[s.workspaces[name]];
      DestroyTarget(s, p, name).Ok?
      <==> CanAccess(p.scope, w.project) && p.session != "" && exists id :: OwnAgent(s, p, w, id)
  {
    var w := s.wsHeap[s.workspaces[name]];
    if WorkspaceVisible(s, p, w) {
      var id :| id in w.agents && id in s.agents && s.heap[s.agents[id]].pb.session == p.session;
      assert OwnAgent(s, p, w, id);
    }
  }

  /** So a caller may destroy a workspace holding an agent it could neither see nor stop. */
  lemma SessionDestroysForeignAgent(s: State, p: Principal, name: string, own: string, foreign: string)
    requires InRange(s) && p.perm == PermSession && name in s.workspaces
    requires p.session != "" && CanAccess(p.scope, s.wsHeap[s.workspaces[name]].project)
    requires OwnAgent(s, p, s.wsHeap[s.workspaces[name]], own)
    requires foreign in s.wsHeap[s.workspaces[name]].agents && foreign in s.agents
    requires s.heap[s.agents[foreign]].pb.session != p.session
    ensures DestroyTarget(s, p, name).Ok?
    ensures FindAgent(s, p, foreign) == Err(PermissionDenied)
  {
    SessionDestroyNeedsOneOwnAgent(s, p, name);
  }
}
