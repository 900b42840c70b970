/** What whole RPCs on agents leave when they run alone: stops, relaunches, and rows of spawns. */
module AloneLeaves {
  import opened JsonTree
  import opened Registry
  import opened Interleaving
  import opened SpawnShape
  import opened Launching
  import opened Rpcs

  /** A stop, alone: the agent keeps everything but its process, and its port is free. */
  lemma StopLeaves(s: State, ref: Ref)
    requires ref < |s.heap|
    ensures
      var a, s' := s.heap[ref], StopNow(s, ref);
      && s' == s.(heap := s.heap[ref := s'.heap[ref]], usedPorts := s.usedPorts - {a.pb.port})
      && var a' := s'.heap[ref];
         && a' == Agent(a'.pb, None, a.template, a.project, a.cardBase)
         && a'.pb == a.pb.(status := Stopped, pid := 0, card := a'.pb.card)
         && a'.pb.card.Some? && Describes(s.cfg, a', a'.pb.card.value, "stopped")
  {
  }

  /** A restart, alone, on a stopped entry: up on the new process, or down in ERROR with the port given back. */
  lemma RelaunchLeaves(s: State, ref: Ref, f: Fresh, l: Launch)
    requires ref < |s.heap|
    ensures
      var a, after, port := s.heap[ref], RelaunchNow(s, ref, f, l), PortToReserve(s, f.osFree, f.osPort);
      if port.None? then after == (s, Err(Internal))
      else if l.handle.Some? then
        && after.1 == Ok(()) && ref < |after.0.heap|
        && after.0 == s.(heap := s.heap[ref := after.0.heap[ref]], usedPorts := s.usedPorts + {port.value})
        && UpAs(s.cfg, a, l.handle.value, l.card, f.now, after.0.heap[ref])
      else
        && after.1 == Err(Internal)
        && after.0 == s.(heap := s.heap[ref := a.(pb := a.pb.(status := Error))],
                         usedPorts := s.usedPorts + {port.value} - {port.value})
  {
    if l.handle.Some? {
      LaunchedIsUp(s.cfg, s.heap[ref], l.handle.value, l.card, f.now);
    }
  }

  // ---------------------------------------------------------------------------------------------
  // The auto agents of a workspace
  // ---------------------------------------------------------------------------------------------

  ghost predicate ServesAt(s: State, i: nat, workspace: string, template: string) {
    && i < |s.heap| && s.heap[i].pb.workspace == workspace && s.heap[i].pb.template == template
    && s.heap[i].pb.status == Ready
  }

  /** The entries from `from` on are READY agents of the workspace, one for each of the templates, in order. */
  ghost predicate Serving(s: State, from: nat, workspace: string, templates: seq<string>) {
    forall k | 0 <= k < |templates| :: ServesAt(s, from + k, workspace, templates[k])
  }

  /** What one spawn does to the row of entries. */
  ghost predicate AddsOne(s: State, call: SpawnCall, one: Spawned) {
    && |s.heap| <= |one.s.heap| <= |s.heap| + 1 && one.s.heap[..|s.heap|] == s.heap
    && (one.agent.Ok? ==> |one.s.heap| == |s.heap| + 1 && ServesAt(one.s, |s.heap|, call.workspace, call.template))
  }

  lemma OneSpawned(s: State, p: Principal, call: SpawnCall, f: Fresh, l: Launch)
    requires CanSpawn(s, p)
    ensures AddsOne(s, call, SpawnNow(s, p, call, f, l))
  {
    SpawnBeginShape(s, p, call, f);
    SpawnBeginsIff(s, p, call, f);
    SpawnGoesOn(s, p, call, f);
    FinishedAddsOne(s, call, SpawnBegin(s, p, call, f), l);
  }

  lemma FinishedAddsOne(s: State, call: SpawnCall, b: SpawnBegun, l: Launch)
    requires GoesOn(b)
    requires
      if b.Refused? then b.s.heap == s.heap
      else
        && b.ref == |s.heap| && |b.s.heap| == |s.heap| + 1 && b.s.heap[..|s.heap|] == s.heap && b.id !in s.agents
        && b.s.agents == s.agents[b.id := b.ref]
        && b.s.heap[b.ref].pb.workspace == call.workspace && b.s.heap[b.ref].pb.template == call.template
    ensures AddsOne(s, call, FinishSpawn(b, l))
  {
  }

  lemma ServesFirst(s: State, from: nat, workspace: string, first: string, rest: seq<string>)
    requires ServesAt(s, from, workspace, first) && Serving(s, from + 1, workspace, rest)
    ensures Serving(s, from, workspace, [first] + rest)
  {
    var all := [first] + rest;
    forall k | 0 <= k < |all| ensures ServesAt(s, from + k, workspace, all[k]) {
      if k > 0 {
        assert ServesAt(s, (from + 1) + (k - 1), workspace, rest[k - 1]);
      }
    }
  }

  /** How a row of spawns ends whose first `done` succeeded. */
  ghost predicate RowEnds(s: State, workspace: string, autos: seq<string>, done: nat, s': State, ok: bool) {
    && done <= |autos| && |s.heap| <= |s'.heap| && s'.heap[..|s.heap|] == s.heap
    && Serving(s', |s.heap|, workspace, autos[..done])
    && if ok then done == |autos| && |s'.heap| == |s.heap| + done
       else done < |autos| && |s'.heap| <= |s.heap| + done + 1
  }

  lemma RowGoesOn(s: State, m: State, workspace: string, autos: seq<string>, more: nat, s': State, ok: bool)
    requires autos != [] && |m.heap| == |s.heap| + 1 && m.heap[..|s.heap|] == s.heap
    requires ServesAt(m, |s.heap|, workspace, autos[0]) && RowEnds(m, workspace, autos[1..], more, s', ok)
    ensures RowEnds(s, workspace, autos, more + 1, s', ok)
  {
    assert s'.heap[|s.heap|] == s'.heap[..|m.heap|][|s.heap|];
    ServesFirst(s', |s.heap|, workspace, autos[0], autos[1..][..more]);
    assert autos[..more + 1] == [autos[0]] + autos[1..][..more];
    assert s'.heap[..|s.heap|] == s'.heap[..|m.heap|][..|s.heap|];
  }

  lemma RowStops(s: State, workspace: string, autos: seq<string>, s': State)
    requires autos != [] && |s.heap| <= |s'.heap| <= |s.heap| + 1 && s'.heap[..|s.heap|] == s.heap
    ensures RowEnds(s, workspace, autos, 0, s', false)
  {
  }

  /** The row with one more spawn in front. */
  lemma RowStep(s: State, workspace: string, autos: seq<string>, one: Spawned, more: nat, s': State, ok: bool)
    requires autos != [] && AddsOne(s, AutoCall(workspace, autos[0]), one)
    requires if one.agent.Err? then s' == one.s && !ok else RowEnds(one.s, workspace, autos[1..], more, s', ok)
    ensures RowEnds(s, workspace, autos, if one.agent.Err? then 0 else more + 1, s', ok)
  {
    if one.agent.Err? {
      RowStops(s, workspace, autos, s');
    } else {
      RowGoesOn(s, one.s, workspace, autos, more, s', ok);
    }
  }

  /** What comes after the first spawn, whose outcome is `one`. */
  lemma {:induction false} RestServes(s: State, workspace: string, autos: seq<string>, one: Spawned,
                                      fs: seq<Fresh>, ls: seq<Launch>, s': State, result: Result<()>)
    returns (done: nat)
    requires |fs| == |autos| == |ls| && autos != [] && AddsOne(s, AutoCall(workspace, autos[0]), one)
    requires CanSpawn(one.s, one.p)
    requires
      if one.agent.Err? then s' == one.s && result.Err?
      else SpawnAll(one.s, one.p, workspace, autos[1..], fs[1..], ls[1..]) == (s', result)
    ensures RowEnds(s, workspace, autos, done, s', result.Ok?)
    decreases |autos|, 0
  {
    var more := 0;
    if one.agent.Ok? {
      more := AutosServe(one.s, one.p, workspace, autos[1..], fs[1..], ls[1..], s', result);
    }
    RowStep(s, workspace, autos, one, more, s', result.Ok?);
    done := if one.agent.Err? then 0 else more + 1;
  }

  /**
   * The auto agents of a new workspace: all of them READY, in order; or the first `done` of them and
   * at most one entry of the spawn that failed, none after it.
   */
  lemma {:induction false} AutosServe(s: State, p: Principal, workspace: string, autos: seq<string>,
                                      fs: seq<Fresh>, ls: seq<Launch>, s': State, result: Result<()>)
    returns (done: nat)
    requires CanSpawn(s, p) && |fs| == |autos| == |ls|
    requires SpawnAll(s, p, workspace, autos, fs, ls) == (s', result)
    ensures RowEnds(s, workspace, autos, done, s', result.Ok?)
    decreases |autos|, 1
  {
    done := 0;
    if autos != [] {
      var call := AutoCall(workspace, autos[0]);
      OneSpawned(s, p, call, fs[0], ls[0]);
      SpawnedCanSpawn(s, p, call, fs[0], ls[0]);
      done := RestServes(s, workspace, autos, SpawnNow(s, p, call, fs[0], ls[0]), fs, ls, s', result);
    }
  }
}
