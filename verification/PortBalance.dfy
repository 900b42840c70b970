/**
 * Port conservation, exactly: which sections keep the reserved ports equal to the disjoint union
 * of the ports held, whoever else is working on the same agent.
 */
module PortBalance {
  import opened Registry
  import opened Interleaving
  import opened SpawnShape
  import opened Ports
  import opened PortConservation

  /** The entry counts as the holder of its port. */
  ghost predicate Holding(s: State, ref: Ref)
    requires ref < |s.heap|
  {
    s.heap[ref].pb.status == Ready || s.heap[ref].pb.status == Stopping
  }

  /**
   * What a section has to find: a stop a holder, or at its end at least a port nobody has; the end
   * of a launch an entry that holds nothing yet.
   */
  ghost predicate ProperSection(s: State, t: Task, c: Choice)
    requires InRange(s) && TaskInRange(s, t)
  {
    match t
    case StopTask(id, _) => id in s.agents ==> Holding(s, s.agents[id])
    case Halting(ref, _, _) => Holding(s, ref) || s.heap[ref].pb.port !in s.usedPorts
    case Launching(_, ref, id, _, _) =>
      if c.handle.Some? then !Holding(s, ref) else id in s.agents ==> !Holding(s, s.agents[id])
    case Relaunching(ref, _) => !Holding(s, ref)
    case _ => true
  }

  ghost predicate Proper(y: System, e: Event) {
    e.Advance? && e.tid in y.tasks && InRange(y.s) && TaskInRange(y.s, y.tasks[e.tid]) ==>
      ProperSection(y.s, y.tasks[e.tid], e.c)
  }

  /** Every port a launch in flight was given is a port number. */
  ghost predicate PortNumbers(y: System) {
    forall k | k in y.tasks && (y.tasks[k].Launching? || y.tasks[k].Relaunching?) :: 0 <= y.tasks[k].port < 0x1_0000
  }

  ghost predicate TaskHolds(t: Task) {
    t.Launching? || t.Relaunching?
  }

  /** The step replaces the task of `tid` by one that holds no port, or drops it. */
  ghost predicate TaskReplaced(y: System, y': System, tid: nat) {
    && tid in y.tasks
    && (y'.tasks == y.tasks - {tid}
        || (tid in y'.tasks && y'.tasks == y.tasks[tid := y'.tasks[tid]] && !TaskHolds(y'.tasks[tid])))
  }

  // ---------------------------------------------------------------------------------------------
  // The kinds of step
  // ---------------------------------------------------------------------------------------------

  /** Nobody who holds a port is touched. */
  lemma IdleBalances(y: System, y': System, tid: nat)
    requires Conserved(y) && TaskReplaced(y, y', tid) && !TaskHolds(y.tasks[tid])
    requires y'.s.usedPorts == y.s.usedPorts && y'.s.heap == y.s.heap
    ensures Conserved(y')
  {
    assert forall h, q :: Holds(y', h, q) <==> Holds(y, h, q);
    HoldersSame(y, y');
  }

  /** A reservation for an RPC; a new entry, if any, is STARTING. */
  lemma ReservationBalances(y: System, y': System, tid: nat, port: int)
    requires Conserved(y) && tid in y.tasks && !TaskHolds(y.tasks[tid]) && port !in y.s.usedPorts
    requires tid in y'.tasks && y'.tasks == y.tasks[tid := y'.tasks[tid]]
    requires TaskHolds(y'.tasks[tid]) && y'.tasks[tid].port == port
    requires y'.s.usedPorts == y.s.usedPorts + {port} && |y.s.heap| <= |y'.s.heap|
    requires forall i | 0 <= i < |y.s.heap| :: y'.s.heap[i] == y.s.heap[i]
    requires forall i | |y.s.heap| <= i < |y'.s.heap| :: y'.s.heap[i].pb.status == Starting
    ensures Conserved(y')
  {
    assert forall h, q :: Holds(y', h, q) <==> Holds(y, h, q) || (h == ByTask(tid) && q == port);
    HolderAdded(y, y', ByTask(tid), port);
  }

  /** A section that rewrites the entry `ref` and nothing else of the heap. */
  ghost predicate Rewrites(y: System, y': System, ref: Ref) {
    ref < |y.s.heap| && |y'.s.heap| == |y.s.heap| && y'.s.heap == y.s.heap[ref := y'.s.heap[ref]]
  }

  /** The first section of a stop: the entry becomes a holder, or stays one. */
  lemma StopBalancesIffHolding(y: System, y': System, tid: nat, ref: Ref)
    requires Conserved(y) && TaskReplaced(y, y', tid) && !TaskHolds(y.tasks[tid]) && Rewrites(y, y', ref)
    requires y'.s.usedPorts == y.s.usedPorts
    requires y'.s.heap[ref].pb.status == Stopping && y'.s.heap[ref].pb.port == y.s.heap[ref].pb.port
    ensures Conserved(y') <==> Holding(y.s, ref)
  {
    var port := y.s.heap[ref].pb.port;
    if Holding(y.s, ref) {
      assert forall h, q :: Holds(y', h, q) <==> Holds(y, h, q);
      HoldersSame(y, y');
    } else if Conserved(y') {
      assert Holds(y', ByAgent(ref), port);
      var h :| Holds(y, h, port);
      assert h != ByAgent(ref) && Holds(y', h, port);
    }
  }

  /** The last section of a stop: the port the entry shows is freed. */
  lemma HaltBalancesIffHolding(y: System, y': System, tid: nat, ref: Ref)
    requires Conserved(y) && TaskReplaced(y, y', tid) && !TaskHolds(y.tasks[tid]) && Rewrites(y, y', ref)
    requires y'.s.usedPorts == y.s.usedPorts - {y.s.heap[ref].pb.port} && y'.s.heap[ref].pb.status == Stopped
    ensures Conserved(y') <==> Holding(y.s, ref) || y.s.heap[ref].pb.port !in y.s.usedPorts
  {
    var port := y.s.heap[ref].pb.port;
    if Holding(y.s, ref) {
      assert Holds(y, ByAgent(ref), port);
      assert forall h, q :: Holds(y', h, q) <==> Holds(y, h, q) && h != ByAgent(ref);
      HolderRemoved(y, y', ByAgent(ref), port);
    } else {
      assert forall h, q :: Holds(y', h, q) <==> Holds(y, h, q);
      if port !in y.s.usedPorts {
        assert y'.s.usedPorts == y.s.usedPorts;
        HoldersSame(y, y');
      } else {
        var h :| Holds(y, h, port);
        assert Holds(y', h, port);
      }
    }
  }

  /** A launch that succeeds hands its port to the entry; a port the entry held before is forgotten. */
  lemma ArrivalOfHandleBalancesIffFree(y: System, y': System, tid: nat, ref: Ref)
    requires Conserved(y) && TaskReplaced(y, y', tid) && TaskHolds(y.tasks[tid]) && Rewrites(y, y', ref)
    requires y'.s.usedPorts == y.s.usedPorts
    requires y'.s.heap[ref].pb.status == Ready && y'.s.heap[ref].pb.port == y.tasks[tid].port
    ensures Conserved(y') <==> !Holding(y.s, ref)
  {
    var port, before := y.tasks[tid].port, y.s.heap[ref].pb.port;
    assert Holds(y, ByTask(tid), port);
    if !Holding(y.s, ref) {
      assert forall h, q ::
          Holds(y', h, q) <==> (Holds(y, h, q) && h != ByTask(tid)) || (h == ByAgent(ref) && q == port);
      HolderReplaced(y, y', ByTask(tid), ByAgent(ref), port);
    } else {
      assert Holds(y, ByAgent(ref), before) && before != port;
      assert forall h | Holds(y, h, before) :: h == ByAgent(ref);
      assert forall h | Holds(y', h, before) :: Holds(y, h, before) && h != ByAgent(ref);
    }
  }

  /** A launch that fails frees its port; an entry that held one of its own stops holding it. */
  lemma FailureBalancesIffFree(y: System, y': System, tid: nat, ref: Ref)
    requires Conserved(y) && TaskReplaced(y, y', tid) && TaskHolds(y.tasks[tid]) && Rewrites(y, y', ref)
    requires y'.s.usedPorts == y.s.usedPorts - {y.tasks[tid].port} && y'.s.heap[ref].pb.status == Error
    ensures Conserved(y') <==> !Holding(y.s, ref)
  {
    var port, before := y.tasks[tid].port, y.s.heap[ref].pb.port;
    assert Holds(y, ByTask(tid), port);
    if !Holding(y.s, ref) {
      assert forall h, q :: Holds(y', h, q) <==> Holds(y, h, q) && h != ByTask(tid);
      HolderRemoved(y, y', ByTask(tid), port);
    } else {
      assert Holds(y, ByAgent(ref), before) && before != port && before in y'.s.usedPorts;
      assert forall h | Holds(y, h, before) :: h == ByAgent(ref);
      assert forall h | Holds(y', h, before) :: Holds(y, h, before) && h != ByAgent(ref);
    }
  }

  /** A failed launch whose id is gone frees its port and writes nothing. */
  lemma FailureUnseenBalances(y: System, y': System, tid: nat)
    requires Conserved(y) && TaskReplaced(y, y', tid) && TaskHolds(y.tasks[tid]) && y'.s.heap == y.s.heap
    requires y'.s.usedPorts == y.s.usedPorts - {y.tasks[tid].port}
    ensures Conserved(y')
  {
    assert Holds(y, ByTask(tid), y.tasks[tid].port);
    assert forall h, q :: Holds(y', h, q) <==> Holds(y, h, q) && h != ByTask(tid);
    HolderRemoved(y, y', ByTask(tid), y.tasks[tid].port);
  }

  // ---------------------------------------------------------------------------------------------
  // Section by section
  // ---------------------------------------------------------------------------------------------

  /** A step of `tid` from a state whose ports balance, with honest answers from outside. */
  ghost predicate Balancing(y: System, tid: nat, c: Choice) {
    && tid in y.tasks && InRange(y.s) && TaskInRange(y.s, y.tasks[tid])
    && Conserved(y) && PortNumbers(y) && FreshFor(y.s, c.f) && FairWorld(y, Advance(tid, c))
  }

  lemma SpawnBalances(y: System, y': System, tid: nat, c: Choice)
    requires Balancing(y, tid, c) && y.tasks[tid].SpawnTask?
    requires Steps(y, y', tid, SpawnSection(y.s, y.tasks[tid], c))
    ensures Conserved(y') && PortNumbers(y')
  {
    var t := y.tasks[tid];
    SpawnBeginShape(y.s, t.p, t.call, c.f);
    PortReservable(y.s, c.f);
    var b := SpawnBegin(y.s, t.p, t.call, c.f);
    if b.Begun? {
      assert Entered(y.s, t.call, b);
      ReservationBalances(y, y', tid, b.port);
    } else {
      assert b.s.usedPorts == y.s.usedPorts;
      IdleBalances(y, y', tid);
    }
  }

  lemma RestartBalances(y: System, y': System, tid: nat, c: Choice)
    requires Balancing(y, tid, c) && y.tasks[tid].RestartTask?
    requires Steps(y, y', tid, RestartSection(y.s, y.tasks[tid], c))
    ensures Conserved(y') && PortNumbers(y')
  {
    PortReservable(y.s, c.f);
    var port := PortToReserve(y.s, c.f.osFree, c.f.osPort);
    if port.Some? {
      ReservationBalances(y, y', tid, port.value);
    } else {
      IdleBalances(y, y', tid);
    }
  }

  lemma LaunchBalancesIff(y: System, y': System, tid: nat, c: Choice)
    requires Balancing(y, tid, c) && y.tasks[tid].Launching?
    requires Steps(y, y', tid, LaunchSection(y.s, y.tasks[tid], c))
    ensures PortNumbers(y') && (Conserved(y') <==> ProperSection(y.s, y.tasks[tid], c))
  {
    var t := y.tasks[tid];
    if c.handle.Some? {
      ArrivalOfHandleBalancesIffFree(y, y', tid, t.ref);
    } else if t.id in y.s.agents {
      FailureBalancesIffFree(y, y', tid, y.s.agents[t.id]);
    } else {
      FailureUnseenBalances(y, y', tid);
    }
  }

  lemma RelaunchBalancesIff(y: System, y': System, tid: nat, c: Choice)
    requires Balancing(y, tid, c) && y.tasks[tid].Relaunching?
    requires Steps(y, y', tid, RelaunchSection(y.s, y.tasks[tid], c))
    ensures PortNumbers(y') && (Conserved(y') <==> ProperSection(y.s, y.tasks[tid], c))
  {
    var t := y.tasks[tid];
    if c.handle.Some? {
      ArrivalOfHandleBalancesIffFree(y, y', tid, t.ref);
    } else {
      FailureBalancesIffFree(y, y', tid, t.ref);
    }
  }

  lemma StopBalancesIff(y: System, y': System, tid: nat, c: Choice)
    requires Balancing(y, tid, c) && y.tasks[tid].StopTask?
    requires Steps(y, y', tid, StopSection(y.s, y.tasks[tid]))
    ensures PortNumbers(y') && (Conserved(y') <==> ProperSection(y.s, y.tasks[tid], c))
  {
    var t := y.tasks[tid];
    if t.id in y.s.agents {
      StopBalancesIffHolding(y, y', tid, y.s.agents[t.id]);
    } else {
      IdleBalances(y, y', tid);
    }
  }

  lemma HaltBalancesIff(y: System, y': System, tid: nat, c: Choice)
    requires Balancing(y, tid, c) && y.tasks[tid].Halting?
    requires Steps(y, y', tid, HaltSection(y.s, y.tasks[tid]))
    ensures PortNumbers(y') && (Conserved(y') <==> ProperSection(y.s, y.tasks[tid], c))
  {
    HaltBalancesIffHolding(y, y', tid, y.tasks[tid].ref);
  }

  lemma OtherBalances(y: System, y': System, tid: nat, c: Choice)
    requires Balancing(y, tid, c) && !OnAgents(y.tasks[tid])
    requires Steps(y, y', tid, OtherSection(y.s, y.tasks[tid], c))
    ensures Conserved(y') && PortNumbers(y')
  {
    IdleBalances(y, y', tid);
  }

  lemma AdvanceBalancesIff(y: System, y': System, tid: nat, c: Choice)
    requires Balancing(y, tid, c) && Advances(y, y', tid, c)
    ensures PortNumbers(y') && (Conserved(y') <==> ProperSection(y.s, y.tasks[tid], c))
  {
    var t := y.tasks[tid];
    assert Steps(y, y', tid, Section(y.s, t, c));
    if t.SpawnTask? {
      SpawnBalances(y, y', tid, c);
    } else if t.Launching? {
      LaunchBalancesIff(y, y', tid, c);
    } else if t.StopTask? {
      StopBalancesIff(y, y', tid, c);
    } else if t.Halting? {
      HaltBalancesIff(y, y', tid, c);
    } else if t.RestartTask? {
      RestartBalances(y, y', tid, c);
    } else if t.Relaunching? {
      RelaunchBalancesIff(y, y', tid, c);
    } else {
      OtherBalances(y, y', tid, c);
    }
  }

  lemma ArrivalBalances(y: System, y': System, tid: nat, p: Principal)
    requires Conserved(y) && PortNumbers(y) && Arrives(y, y', tid, p)
    ensures Conserved(y') && PortNumbers(y')
  {
    assert !TaskHolds(y'.tasks[tid]);
    assert forall h, q :: Holds(y', h, q) <==> Holds(y, h, q);
    HoldersSame(y, y');
  }

  /** One step keeps the ports conserved if and only if its section is proper. */
  lemma StepConservesIffProper(y: System, e: Event, y': System)
    requires Conserved(y) && PortNumbers(y) && Next(y, e, y') && FairWorld(y, e)
    ensures PortNumbers(y') && (Conserved(y') <==> Proper(y, e))
  {
    match e
    case Arrival(tid, p) => ArrivalBalances(y, y', tid, p);
    case Advance(tid, c) =>
      assert Balancing(y, tid, c);
      AdvanceBalancesIff(y, y', tid, c);
  }

  // ---------------------------------------------------------------------------------------------
  // Whole runs
  // ---------------------------------------------------------------------------------------------

  /** The backend binds the port it was given, and a fallback port is not reserved already. */
  ghost predicate HonestRun(r: Run) {
    IsRun(r) && forall i | 0 <= i < |r.events| :: FairWorld(r.states[i], r.events[i])
  }

  ghost predicate ProperRun(r: Run)
    requires |r.states| == |r.events| + 1
  {
    forall i | 0 <= i < |r.events| :: Proper(r.states[i], r.events[i])
  }

  /** Up to the first step that is not proper the ports are conserved. */
  lemma {:induction false} ConservedWhileProper(r: Run, n: nat)
    requires HonestRun(r) && n < |r.states| && forall i | 0 <= i < n :: Proper(r.states[i], r.events[i])
    ensures Conserved(r.states[n]) && PortNumbers(r.states[n])
  {
    if n > 0 {
      ConservedWhileProper(r, n - 1);
      assert Next(r.states[n - 1], r.events[n - 1], r.states[n]) && FairWorld(r.states[n - 1], r.events[n - 1]);
      StepConservesIffProper(r.states[n - 1], r.events[n - 1], r.states[n]);
    }
  }

  lemma {:induction false} ProperWhileConserved(r: Run, n: nat)
    requires HonestRun(r) && n < |r.states| && forall i | 0 <= i <= n :: Conserved(r.states[i])
    ensures PortNumbers(r.states[n]) && forall i | 0 <= i < n :: Proper(r.states[i], r.events[i])
  {
    if n > 0 {
      ProperWhileConserved(r, n - 1);
      assert Next(r.states[n - 1], r.events[n - 1], r.states[n]) && FairWorld(r.states[n - 1], r.events[n - 1]);
      assert Conserved(r.states[n - 1]) && Conserved(r.states[n]);
      StepConservesIffProper(r.states[n - 1], r.events[n - 1], r.states[n]);
    }
  }

  /**
   * Port conservation, exactly. Where backend and system give honest ports, the reserved ports are
   * the disjoint union of the ports held at every moment of a run if and only if every section of
   * the run was proper.
   */
  lemma PortsConservedIffProper(r: Run)
    requires HonestRun(r)
    ensures (forall i | 0 <= i < |r.states| :: Conserved(r.states[i])) <==> ProperRun(r)
  {
    if ProperRun(r) {
      forall i | 0 <= i < |r.states| ensures Conserved(r.states[i]) {
        ConservedWhileProper(r, i);
      }
    }
    if forall i | 0 <= i < |r.states| :: Conserved(r.states[i]) {
      ProperWhileConserved(r, |r.events|);
    }
  }

  /** No two entries that run or are being stopped have one port in a run of proper sections. */
  lemma ProperRunSharesNoPort(r: Run, i: Ref, j: Ref)
    requires HonestRun(r) && ProperRun(r) && i < j < |Last(r).s.heap|
    requires Holding(Last(r).s, i) && Holding(Last(r).s, j)
    ensures Last(r).s.heap[i].pb.port != Last(r).s.heap[j].pb.port
  {
    ConservedWhileProper(r, |r.events|);
    var q := Last(r).s.heap[i].pb.port;
    assert Holds(Last(r), ByAgent(i), q);
    assert !Holds(Last(r), ByAgent(j), q);
  }

  /**
   * The rule a user of the server can follow: if every stop, those of restarts and destroys
   * included, is begun on a READY agent, all sections are proper and the ports are conserved
   * throughout.
   */
  lemma DisciplineIsProper(r: Run)
    requires FairRun(r) && DisciplinedRun(r)
    ensures HonestRun(r) && ProperRun(r)
    ensures forall i | 0 <= i < |r.states| :: Conserved(r.states[i])
  {
    BooksBalanceIffDisciplined(r);
    assert forall i | 0 <= i < |r.states| :: Conserved(r.states[i]) by {
      assert forall i | 0 <= i < |r.states| :: Books(r.states[i]);
    }
    PortsConservedIffProper(r);
  }
}
