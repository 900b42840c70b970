/**
 * Runs built step by step: every RPC that has the server to itself is a segment of a run, so what
 * holds in all runs holds of a server whose RPCs come one after another.
 */
module Segments {
  import opened JsonTree
  import opened Text
  import opened Registry
  import opened Interleaving
  import opened Safety
  import opened Guarantees
  import opened WorkspaceIndex
  import opened Sequential
  import opened Ports
  import opened PortBalance
  import opened Rpcs

  // ---------------------------------------------------------------------------------------------
  // One step more
  // ---------------------------------------------------------------------------------------------

  ghost function Extended(r: Run, e: Event, y: System): Run {
    Run(r.states + [y], r.events + [e])
  }

  /** The properties of runs that a segment may or may not keep. */
  ghost predicate Keeps(r: Run, r': Run, fair: bool, alone: bool) {
    && FreshRun(r')
    && (alone && SequentialRun(r) ==> SequentialRun(r'))
    && (fair && HonestRun(r) ==> HonestRun(r'))
  }

  ghost predicate SameAt(r: Run, r': Run, i: nat)
    requires i < |r.events| < |r.states| && i < |r'.events| < |r'.states|
  {
    r'.states[i] == r.states[i] && r'.events[i] == r.events[i] && r'.states[i + 1] == r.states[i + 1]
  }

  lemma SameBefore(r: Run, e: Event, y': System)
    requires |r.states| == |r.events| + 1
    ensures
      var r' := Extended(r, e, y');
      && Last(r') == y' && r'.states[0] == r.states[0] && |r'.states| == |r'.events| + 1
      && r'.events[|r.events|] == e && r'.states[|r.events|] == Last(r)
      && forall i | 0 <= i < |r.events| :: SameAt(r, r', i)
  {
  }

  lemma ExtendIsFresh(r: Run, e: Event, y': System)
    requires FreshRun(r) && Next(Last(r), e, y') && !ReusesId(Last(r), e)
    ensures FreshRun(Extended(r, e, y'))
  {
    var r' := Extended(r, e, y');
    SameBefore(r, e, y');
    forall i | 0 <= i < |r'.events|
      ensures Next(r'.states[i], r'.events[i], r'.states[i + 1]) && !ReusesId(r'.states[i], r'.events[i])
    {
      if i < |r.events| {
        assert SameAt(r, r', i);
        assert Next(r.states[i], r.events[i], r.states[i + 1]) && !ReusesId(r.states[i], r.events[i]);
      }
    }
  }

  lemma ExtendIsSequential(r: Run, e: Event, y': System)
    requires SequentialRun(r) && FreshRun(Extended(r, e, y')) && (e.Arrival? ==> Last(r).tasks == map[])
    ensures SequentialRun(Extended(r, e, y'))
  {
    var r' := Extended(r, e, y');
    SameBefore(r, e, y');
    forall i | 0 <= i < |r'.events| && r'.events[i].Arrival? ensures r'.states[i].tasks == map[] {
      assert i < |r.events| ==> SameAt(r, r', i);
    }
  }

  lemma ExtendIsHonest(r: Run, e: Event, y': System)
    requires HonestRun(r) && FreshRun(Extended(r, e, y')) && FairWorld(Last(r), e)
    ensures HonestRun(Extended(r, e, y'))
  {
    var r' := Extended(r, e, y');
    SameBefore(r, e, y');
    forall i | 0 <= i < |r'.events| ensures FairWorld(r'.states[i], r'.events[i]) {
      assert i < |r.events| ==> SameAt(r, r', i);
    }
  }

  lemma Extend(r: Run, e: Event, y': System)
    requires FreshRun(r) && Next(Last(r), e, y') && !ReusesId(Last(r), e)
    ensures
      var r' := Extended(r, e, y');
      && Last(r') == y'
      && Keeps(r, r', FairWorld(Last(r), e), e.Arrival? ==> Last(r).tasks == map[])
  {
    SameBefore(r, e, y');
    ExtendIsFresh(r, e, y');
    if SequentialRun(r) && (e.Arrival? ==> Last(r).tasks == map[]) {
      ExtendIsSequential(r, e, y');
    }
    if HonestRun(r) && FairWorld(Last(r), e) {
      ExtendIsHonest(r, e, y');
    }
  }

  lemma KeepsOn(r: Run, m: Run, r': Run, fair: bool, alone: bool)
    requires Keeps(r, m, fair, alone) && Keeps(m, r', fair, alone)
    ensures Keeps(r, r', fair, alone)
  {
  }

  lemma InRangeAlong(r: Run)
    requires FreshRun(r)
    ensures InRange(Last(r).s) && SystemOk(Last(r)) && SetsInv(Last(r))
    ensures forall tid | tid in Last(r).tasks :: TaskInRange(Last(r).s, Last(r).tasks[tid])
  {
    NeverDangling(r);
    FreshRunSets(r);
  }

  /** A new RPC arrives. */
  lemma Arrive(r: Run, tid: nat, p: Principal, t: Task) returns (r': Run)
    requires FreshRun(r) && tid !in Last(r).tasks && InRange(Last(r).s) && Admitted(Last(r).s, p) && Initial(t, p)
    ensures Keeps(r, r', true, Last(r).tasks == map[])
    ensures Last(r') == System(Last(r).s, Last(r).tasks[tid := t])
  {
    var y' := System(Last(r).s, Last(r).tasks[tid := t]);
    assert Arrives(Last(r), y', tid, p);
    Extend(r, Arrival(tid, p), y');
    r' := Extended(r, Arrival(tid, p), y');
  }

  /** An RPC in flight runs its next section. */
  lemma Advance1(r: Run, tid: nat, c: Choice) returns (r': Run)
    requires FreshRun(r) && tid in Last(r).tasks && InRange(Last(r).s) && TaskInRange(Last(r).s, Last(r).tasks[tid])
    requires Possible(Last(r).s, Last(r).tasks[tid], c) && !ReusesId(Last(r), Advance(tid, c))
    ensures Keeps(r, r', FairWorld(Last(r), Advance(tid, c)), true)
    ensures
      var after := Section(Last(r).s, Last(r).tasks[tid], c);
      Last(r') == System(after.0, Put(Last(r).tasks, tid, after.1))
  {
    var after := Section(Last(r).s, Last(r).tasks[tid], c);
    var y' := System(after.0, Put(Last(r).tasks, tid, after.1));
    Extend(r, Advance(tid, c), y');
    r' := Extended(r, Advance(tid, c), y');
  }

  // ---------------------------------------------------------------------------------------------
  // Fresh values
  // ---------------------------------------------------------------------------------------------

  /** There are always fresh ids to draw. */
  lemma SomeFresh(s: State, now: Time) returns (f: Fresh)
    ensures FreshFor(s, f) && !Known(s, f.agentId) && f.osFree == {} && f.osPort == None && f.now == now
    ensures f.agentId !in s.agents
  {
    var ids := set i | 0 <= i < |s.heap| :: s.heap[i].pb.id;
    var id := NameOutside(ids + s.agents.Keys);
    var tok := NameOutside(s.tokens.Keys);
    var bearer := NameOutside(s.byBearer.Keys);
    f := Fresh("s", tok, bearer, id, now, {}, None);
    assert forall i | 0 <= i < |s.heap| :: s.heap[i].pb.id in ids;
  }

  /** What a section other than the first of a spawn needs from outside. */
  lemma SomeChoice(s: State, l: Launch, now: Time) returns (c: Choice)
    ensures FreshFor(s, c.f) && c.handle == l.handle && c.card == l.card && c.f.osPort == None && c.f.now == now
  {
    var f := SomeFresh(s, now);
    c := Choice(f, [], l.handle, l.card);
  }

  const NO_LAUNCH := Launch(None, None)

  /** Sections that take nothing from outside, or only the backend's answer. */
  predicate Undrawn(t: Task) {
    !t.SpawnTask? && !t.FindToDestroy? && !t.TokenTask? && !t.RestartTask?
  }

  ghost predicate FairAnswer(t: Task, l: Launch) {
    (t.Launching? || t.Relaunching?) && l.handle.Some? ==> l.handle.value.port == t.port
  }

  lemma AdvanceUndrawn(r: Run, tid: nat, l: Launch, now: Time) returns (r': Run, c: Choice)
    requires FreshRun(r) && tid in Last(r).tasks && Undrawn(Last(r).tasks[tid])
    ensures InRange(Last(r).s) && TaskInRange(Last(r).s, Last(r).tasks[tid])
    ensures Keeps(r, r', FairAnswer(Last(r).tasks[tid], l), true)
    ensures c.handle == l.handle && c.card == l.card && c.f.now == now
    ensures
      var after := Section(Last(r).s, Last(r).tasks[tid], c);
      Last(r') == System(after.0, Put(Last(r).tasks, tid, after.1))
  {
    InRangeAlong(r);
    c := SomeChoice(Last(r).s, l, now);
    r' := Advance1(r, tid, c);
  }

  // ---------------------------------------------------------------------------------------------
  // A stop
  // ---------------------------------------------------------------------------------------------

  /** The first section of a stop that finds its agent. */
  lemma StopStarts(r: Run, tid: nat) returns (r': Run)
    requires FreshRun(r) && tid in Last(r).tasks && Last(r).tasks[tid].StopTask?
    requires InRange(Last(r).s) && Last(r).tasks[tid].id in Last(r).s.agents
    ensures Keeps(r, r', true, true)
    ensures
      var s, t := Last(r).s, Last(r).tasks[tid];
      var ref := s.agents[t.id];
      Last(r') == System(StopBegin(s, ref), Last(r).tasks[tid := Halting(ref, s.heap[ref].handle, t.afterStop)])
  {
    var c;
    r', c := AdvanceUndrawn(r, tid, NO_LAUNCH, 0);
  }

  /** The last section of a stop. */
  lemma StopFinishes(r: Run, tid: nat) returns (r': Run)
    requires FreshRun(r) && tid in Last(r).tasks && Last(r).tasks[tid].Halting?
    requires Last(r).tasks[tid].ref < |Last(r).s.heap|
    ensures Keeps(r, r', true, true)
    ensures
      var t := Last(r).tasks[tid];
      Last(r') == System(StopEnd(Last(r).s, t.ref), Put(Last(r).tasks, tid, AfterHalt(t.afterStop)))
  {
    var c;
    r', c := AdvanceUndrawn(r, tid, NO_LAUNCH, 0);
  }

  lemma PutOver(tasks: map<nat, Task>, tid: nat, t: Task, next: Option<Task>)
    ensures Put(tasks[tid := t], tid, next) == Put(tasks, tid, next)
  {
  }

  lemma PutAlone(t: Task, next: Option<Task>)
    ensures Put(map[][0 := t], 0, next) == if next.Some? then map[0 := next.value] else map[]
  {
  }

  /** From the lookup by id to the end of the stop; other RPCs may be in flight but do not move. */
  lemma StopHalts(r: Run, tid: nat) returns (r': Run)
    requires FreshRun(r) && tid in Last(r).tasks && Last(r).tasks[tid].StopTask?
    requires InRange(Last(r).s) && Last(r).tasks[tid].id in Last(r).s.agents
    ensures Keeps(r, r', true, true)
    ensures
      var y, t := Last(r), Last(r).tasks[tid];
      Last(r') == System(StopNow(y.s, y.s.agents[t.id]), Put(y.tasks, tid, AfterHalt(t.afterStop)))
  {
    var t := Last(r).tasks[tid];
    var m := StopStarts(r, tid);
    r' := StopFinishes(m, tid);
    KeepsOn(r, m, r', true, true);
    PutOver(Last(r).tasks, tid, Last(m).tasks[tid], AfterHalt(t.afterStop));
  }

  /** The lookup an RPC on an agent starts with. */
  lemma Finds(r: Run, tid: nat) returns (r': Run)
    requires FreshRun(r) && tid in Last(r).tasks && InRange(Last(r).s)
    requires Last(r).tasks[tid].FindToStop? || Last(r).tasks[tid].FindToRestart?
    requires FindAgent(Last(r).s, Last(r).tasks[tid].p, Last(r).tasks[tid].id).Ok?
    ensures Keeps(r, r', true, true)
    ensures
      var t := Last(r).tasks[tid];
      var after := if t.FindToStop? then ReturnStopped else ThenRestart(FindAgent(Last(r).s, t.p, t.id).value);
      Last(r') == System(Last(r).s, Last(r).tasks[tid := StopTask(t.id, after)])
  {
    var c;
    r', c := AdvanceUndrawn(r, tid, NO_LAUNCH, 0);
  }

  /** A StopAgent or RestartAgent arrives and finds its agent; other RPCs may be in flight. */
  lemma Asks(r: Run, tid: nat, p: Principal, t: Task) returns (r': Run)
    requires FreshRun(r) && tid !in Last(r).tasks && InRange(Last(r).s) && Admitted(Last(r).s, p)
    requires (t.FindToStop? || t.FindToRestart?) && t.p == p && t.id != ""
    requires FindAgent(Last(r).s, p, t.id).Ok?
    ensures Keeps(r, r', true, Last(r).tasks == map[])
    ensures
      var after := if t.FindToStop? then ReturnStopped else ThenRestart(FindAgent(Last(r).s, p, t.id).value);
      Last(r') == System(Last(r).s, Last(r).tasks[tid := StopTask(t.id, after)])
  {
    var a := Arrive(r, tid, p, t);
    r' := Finds(a, tid);
    KeepsOn(r, a, r', true, Last(r).tasks == map[]);
  }

  /** A whole StopAgent. */
  lemma StopSegment(r: Run, p: Principal, id: string) returns (r': Run)
    requires FreshRun(r) && Last(r).tasks == map[] && InRange(Last(r).s) && Admitted(Last(r).s, p) && id != ""
    requires FindAgent(Last(r).s, p, id).Ok?
    ensures Keeps(r, r', true, true)
    ensures Last(r') == System(StopNow(Last(r).s, FindAgent(Last(r).s, p, id).value), map[])
  {
    var a := Asks(r, 0, p, FindToStop(p, id));
    r' := StopHalts(a, 0);
    KeepsOn(r, a, r', true, true);
    PutAlone(Last(a).tasks[0], None);
  }

  // ---------------------------------------------------------------------------------------------
  // A restart
  // ---------------------------------------------------------------------------------------------

  ghost predicate FreshPort(s: State, f: Fresh) {
    f.osPort.Some? ==> f.osPort.value !in s.usedPorts
  }

  lemma RestartReservesPort(r: Run, tid: nat, f: Fresh) returns (r': Run)
    requires FreshRun(r) && tid in Last(r).tasks && Last(r).tasks[tid].RestartTask? && FreshFor(Last(r).s, f)
    ensures Keeps(r, r', FreshPort(Last(r).s, f), true)
    ensures
      var y, port := Last(r), PortToReserve(Last(r).s, f.osFree, f.osPort);
      Last(r') ==
      if port.None? then System(y.s, y.tasks - {tid})
      else System(Reserve(y.s, port.value), y.tasks[tid := Relaunching(y.tasks[tid].ref, port.value)])
  {
    InRangeAlong(r);
    r' := Advance1(r, tid, Choice(f, [], None, None));
  }

  lemma RelaunchFinishes(r: Run, tid: nat, l: Launch, now: Time) returns (r': Run)
    requires FreshRun(r) && tid in Last(r).tasks && Last(r).tasks[tid].Relaunching?
    requires Last(r).tasks[tid].ref < |Last(r).s.heap|
    ensures Keeps(r, r', FairAnswer(Last(r).tasks[tid], l), true)
    ensures
      var s, t := Last(r).s, Last(r).tasks[tid];
      Last(r') == System(
        if l.handle.None? then RestartFailed(s, t.ref, t.port) else RestartReady(s, t.ref, l.handle.value, l.card, now),
        Last(r).tasks - {tid})
  {
    var c;
    r', c := AdvanceUndrawn(r, tid, l, now);
  }

  ghost predicate FairRelaunch(s: State, f: Fresh, l: Launch) {
    FreshPort(s, f)
    && var port := PortToReserve(s, f.osFree, f.osPort);
       port.Some? && l.handle.Some? ==> l.handle.value.port == port.value
  }

  lemma KeepsLess(r: Run, r': Run, fair: bool, fair': bool)
    requires Keeps(r, r', fair, true) && (fair' ==> fair)
    ensures Keeps(r, r', fair', true)
  {
  }

  lemma RelaunchIs(s: State, ref: Ref, f: Fresh, l: Launch)
    requires ref < |s.heap|
    ensures
      var port := PortToReserve(s, f.osFree, f.osPort);
      RelaunchNow(s, ref, f, l).0 ==
      if port.None? then s
      else if l.handle.None? then RestartFailed(Reserve(s, port.value), ref, port.value)
      else RestartReady(Reserve(s, port.value), ref, l.handle.value, l.card, f.now)
  {
  }

  lemma KeepsTwo(r: Run, m: Run, r': Run, first: bool, second: bool, fair: bool)
    requires Keeps(r, m, first, true) && Keeps(m, r', second, true) && (fair ==> first && second)
    ensures Keeps(r, r', fair, true)
  {
  }

  lemma TakenOut(tasks: map<nat, Task>, tid: nat, t: Task)
    ensures tasks[tid := t] - {tid} == tasks - {tid}
  {
  }

  lemma RelaunchWithPort(r: Run, tid: nat, f: Fresh, l: Launch, port: int) returns (r': Run)
    requires FreshRun(r) && tid in Last(r).tasks && Last(r).tasks[tid].RestartTask? && FreshFor(Last(r).s, f)
    requires Last(r).tasks[tid].ref < |Last(r).s.heap| && PortToReserve(Last(r).s, f.osFree, f.osPort) == Some(port)
    ensures Keeps(r, r', FairRelaunch(Last(r).s, f, l), true)
    ensures
      var s, ref := Reserve(Last(r).s, port), Last(r).tasks[tid].ref;
      Last(r') == System(
        if l.handle.None? then RestartFailed(s, ref, port) else RestartReady(s, ref, l.handle.value, l.card, f.now),
        Last(r).tasks - {tid})
  {
    var s := Last(r).s;
    var t := Relaunching(Last(r).tasks[tid].ref, port);
    var m := RestartReservesPort(r, tid, f);
    TakenOut(Last(r).tasks, tid, t);
    r' := RelaunchFinishes(m, tid, l, f.now);
    KeepsTwo(r, m, r', FreshPort(s, f), FairAnswer(t, l), FairRelaunch(s, f, l));
  }

  /** The part of a restart after its stop. */
  lemma RelaunchSegment(r: Run, tid: nat, f: Fresh, l: Launch) returns (r': Run)
    requires FreshRun(r) && tid in Last(r).tasks && Last(r).tasks[tid].RestartTask? && FreshFor(Last(r).s, f)
    requires Last(r).tasks[tid].ref < |Last(r).s.heap|
    ensures Keeps(r, r', FairRelaunch(Last(r).s, f, l), true)
    ensures Last(r') == System(RelaunchNow(Last(r).s, Last(r).tasks[tid].ref, f, l).0, Last(r).tasks - {tid})
  {
    var s := Last(r).s;
    RelaunchIs(s, Last(r).tasks[tid].ref, f, l);
    var port := PortToReserve(s, f.osFree, f.osPort);
    if port.None? {
      r' := RestartReservesPort(r, tid, f);
      KeepsLess(r, r', FreshPort(s, f), FairRelaunch(s, f, l));
    } else {
      r' := RelaunchWithPort(r, tid, f, l, port.value);
    }
  }

  /** A RestartAgent up to the end of its stop. */
  lemma RestartStops(r: Run, p: Principal, id: string) returns (r': Run)
    requires FreshRun(r) && Last(r).tasks == map[] && InRange(Last(r).s) && Admitted(Last(r).s, p) && id != ""
    requires FindAgent(Last(r).s, p, id).Ok?
    ensures Keeps(r, r', true, true)
    ensures
      var s, ref := Last(r).s, FindAgent(Last(r).s, p, id).value;
      Last(r') == System(StopNow(s, ref), map[0 := RestartTask(ref)])
  {
    var a := Asks(r, 0, p, FindToRestart(p, id));
    r' := StopHalts(a, 0);
    KeepsOn(r, a, r', true, true);
    PutAlone(Last(a).tasks[0], AfterHalt(Last(a).tasks[0].afterStop));
  }

  /** A whole RestartAgent. */
  lemma RestartSegment(r: Run, p: Principal, id: string, f: Fresh, l: Launch) returns (r': Run)
    requires FreshRun(r) && Last(r).tasks == map[] && InRange(Last(r).s) && Admitted(Last(r).s, p) && id != ""
    requires FindAgent(Last(r).s, p, id).Ok? && FreshFor(Last(r).s, f)
    ensures Keeps(r, r', false, true)
    ensures
      var s, ref := Last(r).s, FindAgent(Last(r).s, p, id).value;
      Last(r') == System(RelaunchNow(StopNow(s, ref), ref, f, l).0, map[])
  {
    var m := RestartStops(r, p, id);
    KeepsLess(r, m, true, false);
    r' := RelaunchSegment(m, 0, f, l);
    KeepsLess(m, r', FairRelaunch(Last(m).s, f, l), false);
    KeepsOn(r, m, r', false, true);
    assert Last(r').tasks == map[];
  }

  // ---------------------------------------------------------------------------------------------
  // A spawn
  // ---------------------------------------------------------------------------------------------

  /** The agent id drawn was never used before, or the spawn is refused for it anyway. */
  ghost predicate FreshAgent(s: State, call: SpawnCall, f: Fresh) {
    FreshFor(s, f) && (SpawnId(call, f) !in s.agents ==> !Known(s, SpawnId(call, f)))
  }

  lemma SpawnStarts(r: Run, tid: nat, f: Fresh) returns (r': Run)
    requires FreshRun(r) && tid in Last(r).tasks && Last(r).tasks[tid].SpawnTask?
    requires InRange(Last(r).s) && TaskInRange(Last(r).s, Last(r).tasks[tid])
    requires FreshAgent(Last(r).s, Last(r).tasks[tid].call, f)
    ensures Keeps(r, r', FreshPort(Last(r).s, f), true)
    ensures
      var y, t := Last(r), Last(r).tasks[tid];
      Last(r') ==
      match SpawnBegin(y.s, t.p, t.call, f)
      case Refused(s', _, _) => System(s', y.tasks - {tid})
      case Begun(s', p', ref, id, port) => System(s', y.tasks[tid := Launching(p', ref, id, port, t.afterSpawn)])
  {
    r' := Advance1(r, tid, Choice(f, [], None, None));
  }

  lemma LaunchFinishes(r: Run, tid: nat, l: Launch) returns (r': Run)
    requires FreshRun(r) && tid in Last(r).tasks && Last(r).tasks[tid].Launching?
    ensures InRange(Last(r).s) && Last(r).tasks[tid].ref < |Last(r).s.heap|
    ensures Keeps(r, r', FairAnswer(Last(r).tasks[tid], l), true)
    ensures
      var y, t := Last(r), Last(r).tasks[tid];
      Last(r') ==
      if l.handle.None? then System(SpawnFailed(y.s, t.id, t.port), y.tasks - {tid})
      else System(SpawnReady(y.s, t.ref, l.handle.value, l.card), Put(y.tasks, tid, NextSpawn(t.p, t.afterSpawn)))
  {
    var c;
    r', c := AdvanceUndrawn(r, tid, l, 0);
  }

  /** The backend binds the port the spawn reserved, and a fallback port was not reserved before. */
  ghost predicate FairSpawn(s: State, p: Principal, call: SpawnCall, f: Fresh, l: Launch)
    requires CanSpawn(s, p)
  {
    FreshPort(s, f)
    && var b := SpawnBegin(s, p, call, f);
       b.Begun? && l.handle.Some? ==> l.handle.value.port == b.port
  }

  /** Both sections of a spawn. */
  lemma SpawnRuns(r: Run, tid: nat, f: Fresh, l: Launch) returns (r': Run)
    requires FreshRun(r) && tid in Last(r).tasks && Last(r).tasks[tid].SpawnTask?
    requires InRange(Last(r).s) && PrincipalInRange(Last(r).s, Last(r).tasks[tid].p)
    requires CanSpawn(Last(r).s, Last(r).tasks[tid].p)
    requires FreshAgent(Last(r).s, Last(r).tasks[tid].call, f)
    ensures
      var t := Last(r).tasks[tid];
      Keeps(r, r', FairSpawn(Last(r).s, t.p, t.call, f, l), true)
    ensures
      var t := Last(r).tasks[tid];
      var done := SpawnNow(Last(r).s, t.p, t.call, f, l);
      Last(r') ==
      System(done.s, Put(Last(r).tasks, tid, if done.agent.Ok? then NextSpawn(done.p, t.afterSpawn) else None))
  {
    var t := Last(r).tasks[tid];
    var m := SpawnStarts(r, tid, f);
    SpawnGoesOn(Last(r).s, t.p, t.call, f);
    var b := SpawnBegin(Last(r).s, t.p, t.call, f);
    if b.Refused? {
      r' := m;
    } else {
      r' := LaunchFinishes(m, tid, l);
      KeepsOn(r, m, r', FairSpawn(Last(r).s, t.p, t.call, f, l), true);
      PutOver(Last(r).tasks, tid, Last(m).tasks[tid], NextSpawn(b.p, t.afterSpawn));
      PutOver(Last(r).tasks, tid, Last(m).tasks[tid], None);
    }
  }

  lemma CallerInRange(r: Run, p: Principal)
    requires FreshRun(r) && InRange(Last(r).s) && Admitted(Last(r).s, p)
    ensures PrincipalInRange(Last(r).s, p) && CanSpawn(Last(r).s, p)
  {
  }

  /** A whole SpawnAgent. */
  lemma SpawnSegment(r: Run, p: Principal, call: SpawnCall, f: Fresh, l: Launch) returns (r': Run)
    requires FreshRun(r) && Last(r).tasks == map[] && InRange(Last(r).s) && Admitted(Last(r).s, p)
    requires call.workspace != "" && call.template != "" && FreshAgent(Last(r).s, call, f)
    ensures CanSpawn(Last(r).s, p)
    ensures Keeps(r, r', FairSpawn(Last(r).s, p, call, f, l), true)
    ensures Last(r') == System(SpawnNow(Last(r).s, p, call, f, l).s, map[])
  {
    CallerInRange(r, p);
    var a := Arrive(r, 0, p, SpawnTask(p, call, ReturnInstance));
    r' := SpawnRuns(a, 0, f, l);
    KeepsOn(r, a, r', FairSpawn(Last(r).s, p, call, f, l), true);
    assert Last(r').tasks == map[];
  }

  // ---------------------------------------------------------------------------------------------
  // Creating and destroying workspaces
  // ---------------------------------------------------------------------------------------------

  /** The fresh values of a row of spawns, each fresh in the state its spawn finds. */
  ghost predicate FreshAlong(s: State, p: Principal, w: string, autos: seq<string>, fs: seq<Fresh>, ls: seq<Launch>)
    requires CanSpawn(s, p) && |fs| == |autos| == |ls|
    decreases |autos|
  {
    autos != [] ==>
      var call := AutoCall(w, autos[0]);
      && FreshAgent(s, call, fs[0])
      && var one := SpawnNow(s, p, call, fs[0], ls[0]);
         SpawnedCanSpawn(s, p, call, fs[0], ls[0]);
         one.agent.Ok? ==> FreshAlong(one.s, one.p, w, autos[1..], fs[1..], ls[1..])
  }

  ghost function AutoTasks(p: Principal, w: string, autos: seq<string>): map<nat, Task> {
    Put(map[], 0, NextSpawn(p, MoreAuto(w, autos)))
  }

  lemma AutosStep(r: Run, p: Principal, w: string, autos: seq<string>, f: Fresh, l: Launch) returns (r': Run)
    requires FreshRun(r) && autos != [] && Last(r).tasks == AutoTasks(p, w, autos)
    requires PrincipalInRange(Last(r).s, p) && CanSpawn(Last(r).s, p)
    requires FreshAgent(Last(r).s, AutoCall(w, autos[0]), f)
    ensures Keeps(r, r', false, true)
    ensures
      var one := SpawnNow(Last(r).s, p, AutoCall(w, autos[0]), f, l);
      Last(r') == System(one.s, if one.agent.Ok? then AutoTasks(one.p, w, autos[1..]) else map[])
  {
    InRangeAlong(r);
    r' := SpawnRuns(r, 0, f, l);
    KeepsLess(r, r', FairSpawn(Last(r).s, p, AutoCall(w, autos[0]), f, l), false);
    PutOver(map[], 0, Last(r).tasks[0], None);
    var one := SpawnNow(Last(r).s, p, AutoCall(w, autos[0]), f, l);
    PutOver(map[], 0, Last(r).tasks[0], NextSpawn(one.p, MoreAuto(w, autos[1..])));
  }

  lemma SpawnedInRange(r: Run, p: Principal)
    requires FreshRun(r) && CanSpawn(Last(r).s, p)
    ensures PrincipalInRange(Last(r).s, p)
  {
  }

  lemma {:induction false} AutosRun(r: Run, p: Principal, w: string, autos: seq<string>,
                                    fs: seq<Fresh>, ls: seq<Launch>) returns (r': Run)
    requires FreshRun(r) && Last(r).tasks == AutoTasks(p, w, autos) && |fs| == |autos| == |ls|
    requires CanSpawn(Last(r).s, p) && FreshAlong(Last(r).s, p, w, autos, fs, ls)
    ensures Keeps(r, r', false, true)
    ensures Last(r') == System(SpawnAll(Last(r).s, p, w, autos, fs, ls).0, map[])
    decreases |autos|
  {
    if autos == [] {
      r' := r;
    } else {
      SpawnedInRange(r, p);
      var m := AutosStep(r, p, w, autos, fs[0], ls[0]);
      SpawnedCanSpawn(Last(r).s, p, AutoCall(w, autos[0]), fs[0], ls[0]);
      var one := SpawnNow(Last(r).s, p, AutoCall(w, autos[0]), fs[0], ls[0]);
      if one.agent.Err? {
        r' := m;
      } else {
        r' := AutosRun(m, one.p, w, autos[1..], fs[1..], ls[1..]);
        KeepsOn(r, m, r', false, true);
      }
    }
  }

  lemma CreateStarts(r: Run, p: Principal, name: string, project: string, autos: seq<string>) returns (r': Run)
    requires FreshRun(r) && Last(r).tasks == map[] && InRange(Last(r).s) && Admitted(Last(r).s, p)
    requires name != "" && project != ""
    ensures Keeps(r, r', true, true)
    ensures
      Last(r') ==
      match Registry.CreateWorkspace(Last(r).s, p, name, project)
      case Err(_) => System(Last(r).s, map[])
      case Ok(s') => System(s', AutoTasks(p, name, autos))
  {
    var a := Arrive(r, 0, p, CreateWorkspaceTask(p, name, project, autos));
    var c;
    r', c := AdvanceUndrawn(a, 0, NO_LAUNCH, 0);
    KeepsOn(r, a, r', true, true);
    assert Put(Last(a).tasks, 0, None) == map[];
  }

  /** A whole CreateWorkspace that passes its guards and leads to `s1`. */
  lemma CreateSegment(r: Run, p: Principal, name: string, project: string, s1: State, autos: seq<string>,
                      fs: seq<Fresh>, ls: seq<Launch>) returns (r': Run)
    requires FreshRun(r) && Last(r).tasks == map[] && InRange(Last(r).s) && Admitted(Last(r).s, p)
    requires name != "" && project != "" && |fs| == |autos| == |ls|
    requires Registry.CreateWorkspace(Last(r).s, p, name, project) == Ok(s1)
    requires CanSpawn(s1, p) && FreshAlong(s1, p, name, autos, fs, ls)
    ensures Keeps(r, r', false, true)
    ensures Last(r') == System(SpawnAll(s1, p, name, autos, fs, ls).0, map[])
  {
    var m := CreateStarts(r, p, name, project, autos);
    KeepsLess(r, m, true, false);
    r' := AutosRun(m, p, name, autos, fs, ls);
    KeepsOn(r, m, r', false, true);
  }

  lemma DestroyFinds(r: Run, tid: nat, order: seq<string>) returns (r': Run)
    requires FreshRun(r) && tid in Last(r).tasks && Last(r).tasks[tid].FindToDestroy? && InRange(Last(r).s)
    requires
      var t := Last(r).tasks[tid];
      var found := DestroyTarget(Last(r).s, t.p, t.name);
      found.Ok? && Enumerates(order, Last(r).s.wsHeap[found.value].agents)
    ensures Keeps(r, r', true, true)
    ensures
      var y, t := Last(r), Last(r).tasks[tid];
      var ws := DestroyTarget(y.s, t.p, t.name).value;
      Last(r') == System(y.s, y.tasks[tid := NextStop(t.name, ws, order, order)])
  {
    InRangeAlong(r);
    var f := SomeFresh(Last(r).s, 0);
    r' := Advance1(r, tid, Choice(f, order, None, None));
  }

  lemma StopSkips(r: Run, tid: nat) returns (r': Run)
    requires FreshRun(r) && tid in Last(r).tasks && Last(r).tasks[tid].StopTask?
    requires InRange(Last(r).s) && Last(r).tasks[tid].id !in Last(r).s.agents
    ensures Keeps(r, r', true, true)
    ensures Last(r') == System(Last(r).s, Put(Last(r).tasks, tid, AfterHalt(Last(r).tasks[tid].afterStop)))
  {
    var c;
    r', c := AdvanceUndrawn(r, tid, NO_LAUNCH, 0);
  }

  lemma StopOrSkip(r: Run, tid: nat) returns (r': Run)
    requires FreshRun(r) && tid in Last(r).tasks && Last(r).tasks[tid].StopTask? && InRange(Last(r).s)
    ensures Keeps(r, r', true, true)
    ensures
      var y, t := Last(r), Last(r).tasks[tid];
      Last(r') == System(StopAll(y.s, [t.id]), Put(y.tasks, tid, AfterHalt(t.afterStop)))
  {
    StopOne(Last(r).s, Last(r).tasks[tid].id);
    if Last(r).tasks[tid].id in Last(r).s.agents {
      r' := StopHalts(r, tid);
    } else {
      r' := StopSkips(r, tid);
    }
  }

  lemma StopAllFront(s: State, ids: seq<string>)
    requires forall id | id in s.agents :: s.agents[id] < |s.heap|
    requires ids != []
    ensures StopAll(s, ids) == StopAll(StopAll(s, [ids[0]]), ids[1..])
  {
    StopOne(s, ids[0]);
  }

  lemma DestroyStopsNext(r: Run, tid: nat, name: string, ws: Ref, ids: seq<string>, rest: seq<string>)
    returns (r': Run)
    requires FreshRun(r) && tid in Last(r).tasks && rest != [] && Last(r).tasks[tid] == NextStop(name, ws, ids, rest)
    requires InRange(Last(r).s)
    ensures Keeps(r, r', true, true) && InRange(Last(r').s)
    ensures Last(r') ==
            System(StopAll(Last(r).s, [rest[0]]), Last(r).tasks[tid := NextStop(name, ws, ids, rest[1..])])
  {
    r' := StopOrSkip(r, tid);
    InRangeAlong(r');
  }

  /** The stops of a destroy, one after another. */
  lemma {:induction false} DestroyStops(r: Run, tid: nat, name: string, ws: Ref, ids: seq<string>, rest: seq<string>)
    returns (r': Run)
    requires FreshRun(r) && tid in Last(r).tasks && Last(r).tasks[tid] == NextStop(name, ws, ids, rest)
    requires InRange(Last(r).s)
    ensures Keeps(r, r', true, true)
    ensures Last(r') == System(StopAll(Last(r).s, rest), Last(r).tasks[tid := DestroyTask(name, ws, ids)])
    decreases |rest|
  {
    if rest == [] {
      r' := r;
      assert Last(r).tasks == Last(r).tasks[tid := DestroyTask(name, ws, ids)];
    } else {
      var m := DestroyStopsNext(r, tid, name, ws, ids, rest);
      r' := DestroyStops(m, tid, name, ws, ids, rest[1..]);
      KeepsOn(r, m, r', true, true);
      StopAllFront(Last(r).s, rest);
    }
  }

  lemma DestroyFinishes(r: Run, tid: nat) returns (r': Run)
    requires FreshRun(r) && tid in Last(r).tasks && Last(r).tasks[tid].DestroyTask?
    requires Last(r).tasks[tid].ws < |Last(r).s.wsHeap|
    ensures Keeps(r, r', true, true)
    ensures
      var y, t := Last(r), Last(r).tasks[tid];
      Last(r') == System(DestroyEnd(y.s, t.name, t.ws, set id | id in t.ids), y.tasks - {tid})
  {
    var c;
    r', c := AdvanceUndrawn(r, tid, NO_LAUNCH, 0);
  }

  /** A DestroyWorkspace up to its snapshot; other RPCs may be in flight. */
  lemma DestroyStarts(r: Run, tid: nat, p: Principal, name: string, order: seq<string>) returns (r': Run)
    requires FreshRun(r) && tid !in Last(r).tasks && InRange(Last(r).s) && Admitted(Last(r).s, p) && name != ""
    requires
      var found := DestroyTarget(Last(r).s, p, name);
      found.Ok? && Enumerates(order, Last(r).s.wsHeap[found.value].agents)
    ensures Keeps(r, r', true, Last(r).tasks == map[])
    ensures
      var ws := DestroyTarget(Last(r).s, p, name).value;
      Last(r') == System(Last(r).s, Last(r).tasks[tid := NextStop(name, ws, order, order)])
  {
    var a := Arrive(r, tid, p, FindToDestroy(p, name));
    r' := DestroyFinds(a, tid, order);
    KeepsOn(r, a, r', true, Last(r).tasks == map[]);
  }

  /** The stops of a destroy and its end. */
  lemma DestroyEnds(r: Run, tid: nat, name: string, ws: Ref, ids: seq<string>) returns (r': Run)
    requires FreshRun(r) && tid in Last(r).tasks && Last(r).tasks[tid] == NextStop(name, ws, ids, ids)
    requires InRange(Last(r).s) && ws < |Last(r).s.wsHeap|
    ensures Keeps(r, r', true, true)
    ensures Last(r') ==
            System(DestroyEnd(StopAll(Last(r).s, ids), name, ws, set id | id in ids), Last(r).tasks - {tid})
  {
    var m := DestroyStops(r, tid, name, ws, ids, ids);
    r' := DestroyFinishes(m, tid);
    KeepsOn(r, m, r', true, true);
    assert Last(m).tasks - {tid} == Last(r).tasks - {tid};
  }

  /** A whole DestroyWorkspace. */
  lemma DestroySegment(r: Run, p: Principal, name: string, order: seq<string>) returns (r': Run)
    requires FreshRun(r) && Last(r).tasks == map[] && InRange(Last(r).s) && Admitted(Last(r).s, p) && name != ""
    requires
      var found := DestroyTarget(Last(r).s, p, name);
      found.Ok? && Enumerates(order, Last(r).s.wsHeap[found.value].agents)
    ensures Keeps(r, r', true, true)
    ensures
      var ws := DestroyTarget(Last(r).s, p, name).value;
      Last(r') == System(DestroyEnd(StopAll(Last(r).s, order), name, ws, set id | id in order), map[])
  {
    var a := DestroyStarts(r, 0, p, name, order);
    r' := DestroyEnds(a, 0, name, DestroyTarget(Last(r).s, p, name).value, order);
    KeepsOn(r, a, r', true, true);
    assert Last(r').tasks == map[];
  }

  // ---------------------------------------------------------------------------------------------
  // RPCs of one section
  // ---------------------------------------------------------------------------------------------

  lemma AdminStep(r: Run, p: Principal, t: Task, f: Fresh) returns (r': Run)
    requires FreshRun(r) && Last(r).tasks == map[] && InRange(Last(r).s) && Admitted(Last(r).s, p) && Initial(t, p)
    requires t.RegisterTask? || t.UnregisterTask? || t.TokenTask?
    requires FreshFor(Last(r).s, f)
    ensures TaskInRange(Last(r).s, t) && Keeps(r, r', true, true)
    ensures Last(r') == System(AdminSection(Last(r).s, t, Choice(f, [], None, None)).0, map[])
  {
    var a := Arrive(r, 0, p, t);
    InRangeAlong(a);
    r' := Advance1(a, 0, Choice(f, [], None, None));
    KeepsOn(r, a, r', true, true);
    assert Last(r').tasks == map[];
  }
}
