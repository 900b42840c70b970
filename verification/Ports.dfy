/**
 * Port accounting under concurrency: when the reserved ports are exactly those held by launches in
 * flight and by READY and STOPPING agents, no two holding the same one (Conserved), and a stricter
 * bookkeeping that also asks for one RPC per entry at a time (Books).
 */
module Ports {
  import opened JsonTree
  import opened Registry
  import opened Interleaving

  /** An agent entry that runs or is being stopped, or an RPC whose backend call is going on. */
  datatype Holder = ByAgent(ref: Ref) | ByTask(tid: nat)

  ghost predicate Holds(y: System, h: Holder, q: int) {
    match h
    case ByAgent(i) =>
      && i < |y.s.heap| && y.s.heap[i].pb.port == q
      && (y.s.heap[i].pb.status == Ready || y.s.heap[i].pb.status == Stopping)
    case ByTask(tid) =>
      && tid in y.tasks
      && (|| (y.tasks[tid].Launching? && y.tasks[tid].port == q)
          || (y.tasks[tid].Relaunching? && y.tasks[tid].port == q))
  }

  /** usedPorts is the disjoint union of the ports held. */
  ghost predicate Conserved(y: System) {
    && (forall h, q | Holds(y, h, q) :: q in y.s.usedPorts)
    && (forall q | q in y.s.usedPorts :: exists h :: Holds(y, h, q))
    && (forall h, g, q | Holds(y, h, q) && Holds(y, g, q) :: h == g)
  }

  /** The entry an RPC in flight is changing. */
  function EntryOf(t: Task): Option<Ref> {
    match t
    case Launching(_, ref, _, _, _) => Some(ref)
    case Halting(ref, _, _) => Some(ref)
    case RestartTask(ref) => Some(ref)
    case Relaunching(ref, _) => Some(ref)
    case _ => None
  }

  ghost predicate Down(s: State, ref: Ref)
    requires ref < |s.heap|
  {
    s.heap[ref].pb.status == Stopped || s.heap[ref].pb.status == Error
  }

  ghost predicate TaskBooked(s: State, t: Task) {
    match t
    case Launching(_, ref, _, port, _) =>
      ref < |s.heap| && s.heap[ref].pb.status == Starting && 0 <= port < 0x1_0000
    case StopTask(id, after) =>
      after.ThenRestart? ==> after.agent < |s.heap| && s.heap[after.agent].pb.id == id
    case Halting(ref, _, after) =>
      ref < |s.heap| && s.heap[ref].pb.status == Stopping && (after.ThenRestart? ==> after.agent == ref)
    case RestartTask(ref) => ref < |s.heap| && Down(s, ref)
    case Relaunching(ref, port) => ref < |s.heap| && Down(s, ref) && 0 <= port < 0x1_0000
    case _ => true
  }

  ghost predicate BeingHalted(y: System, i: Ref) {
    exists k | k in y.tasks :: y.tasks[k].Halting? && y.tasks[k].ref == i
  }

  ghost predicate Clash(y: System, k: nat, l: nat)
    requires k in y.tasks && l in y.tasks
  {
    k != l && EntryOf(y.tasks[k]).Some? && EntryOf(y.tasks[k]) == EntryOf(y.tasks[l])
  }

  /** Each entry is being changed by at most one RPC, which finds it in the status it left it in. */
  ghost predicate Booked(y: System) {
    && (forall k | k in y.tasks :: TaskBooked(y.s, y.tasks[k]))
    && (forall k, l | k in y.tasks && l in y.tasks :: !Clash(y, k, l))
    && (forall i | 0 <= i < |y.s.heap| && y.s.heap[i].pb.status == Stopping :: BeingHalted(y, i))
  }

  ghost predicate Books(y: System) {
    Conserved(y) && Booked(y)
  }

  /** The backend binds the port it was given; a fallback port is not reserved already. */
  ghost predicate FairWorld(y: System, e: Event) {
    e.Advance? && e.tid in y.tasks ==>
      var t := y.tasks[e.tid];
      && ((t.Launching? || t.Relaunching?) && e.c.handle.Some? ==> e.c.handle.value.port == t.port)
      && ((t.SpawnTask? || t.RestartTask?) && e.c.f.osPort.Some? ==> e.c.f.osPort.value !in y.s.usedPorts)
  }

  /**
   * A stop begins on a READY agent only; a restart whose agent is gone finds its entry down and
   * nobody else on it.
   */
  ghost predicate Disciplined(y: System, e: Event) {
    e.Advance? && e.tid in y.tasks && y.tasks[e.tid].StopTask? ==>
      var t := y.tasks[e.tid];
      if t.id in y.s.agents then
        y.s.agents[t.id] < |y.s.heap| && y.s.heap[y.s.agents[t.id]].pb.status == Ready
      else t.afterStop.ThenRestart? ==>
        && t.afterStop.agent < |y.s.heap| && Down(y.s, t.afterStop.agent)
        && forall k | k in y.tasks :: EntryOf(y.tasks[k]) != Some(t.afterStop.agent)
  }

  // ---------------------------------------------------------------------------------------------
  // Bookkeeping moves
  // ---------------------------------------------------------------------------------------------

  lemma HoldersSame(y: System, y': System)
    requires Conserved(y) && y'.s.usedPorts == y.s.usedPorts
    requires forall h, q :: Holds(y', h, q) <==> Holds(y, h, q)
    ensures Conserved(y')
  {
    forall q | q in y'.s.usedPorts ensures exists h :: Holds(y', h, q) {
      var h :| Holds(y, h, q);
      assert Holds(y', h, q);
    }
  }

  lemma HolderAdded(y: System, y': System, g: Holder, port: int)
    requires Conserved(y) && port !in y.s.usedPorts && y'.s.usedPorts == y.s.usedPorts + {port}
    requires forall h, q :: Holds(y', h, q) <==> Holds(y, h, q) || (h == g && q == port)
    ensures Conserved(y')
  {
    assert Holds(y', g, port);
    forall q | q in y'.s.usedPorts ensures exists h :: Holds(y', h, q) {
      if q != port {
        var h :| Holds(y, h, q);
        assert Holds(y', h, q);
      }
    }
  }

  lemma HolderRemoved(y: System, y': System, g: Holder, port: int)
    requires Conserved(y) && Holds(y, g, port) && y'.s.usedPorts == y.s.usedPorts - {port}
    requires forall h, q :: Holds(y', h, q) <==> Holds(y, h, q) && h != g
    ensures Conserved(y')
  {
    forall q | q in y'.s.usedPorts ensures exists h :: Holds(y', h, q) {
      var h :| Holds(y, h, q);
      assert Holds(y', h, q);
    }
  }

  lemma HolderReplaced(y: System, y': System, g: Holder, g': Holder, port: int)
    requires Conserved(y) && Holds(y, g, port) && y'.s.usedPorts == y.s.usedPorts
    requires forall h, q :: Holds(y', h, q) <==> (Holds(y, h, q) && h != g) || (h == g' && q == port)
    ensures Conserved(y')
  {
    assert Holds(y', g', port);
    forall q | q in y'.s.usedPorts ensures exists h :: Holds(y', h, q) {
      var h :| Holds(y, h, q);
      if h != g {
        assert Holds(y', h, q);
      }
    }
  }

  // ---------------------------------------------------------------------------------------------
  // Section by section
  // ---------------------------------------------------------------------------------------------

  lemma PortReservable(s: State, f: Fresh)
    requires f.osPort.Some? ==> f.osPort.value !in s.usedPorts && 0 <= f.osPort.value < 0x1_0000
    requires forall q | q in f.osFree :: 0 <= q < 0x1_0000
    ensures
      var port := PortToReserve(s, f.osFree, f.osPort);
      port.Some? ==> port.value !in s.usedPorts && 0 <= port.value < 0x1_0000
  {
  }

  /** Booking survives if no status but that of the section's own entry changed. */
  lemma BookedStep(y: System, y': System, tid: nat)
    requires Booked(y) && tid in y.tasks && |y.s.heap| <= |y'.s.heap|
    requires forall k | k != tid :: k in y'.tasks <==> k in y.tasks
    requires forall k | k in y'.tasks && k != tid :: y'.tasks[k] == y.tasks[k]
    requires forall i | 0 <= i < |y.s.heap| ::
               && y'.s.heap[i].pb.id == y.s.heap[i].pb.id
               && (y'.s.heap[i].pb.status == y.s.heap[i].pb.status || EntryOf(y.tasks[tid]) == Some(i))
    requires forall i | |y.s.heap| <= i < |y'.s.heap| :: y'.s.heap[i].pb.status == Starting
    requires tid in y'.tasks ==>
               && TaskBooked(y'.s, y'.tasks[tid])
               && (|| EntryOf(y'.tasks[tid]) == EntryOf(y.tasks[tid]) || EntryOf(y'.tasks[tid]).None?
                   || EntryOf(y'.tasks[tid]).value >= |y.s.heap|)
    requires forall i | 0 <= i < |y.s.heap| && EntryOf(y.tasks[tid]) == Some(i) :: y'.s.heap[i].pb.status != Stopping
    ensures Booked(y')
  {
    forall k | k in y'.tasks ensures TaskBooked(y'.s, y'.tasks[k]) {
      if k != tid {
        assert TaskBooked(y.s, y.tasks[k]) && !Clash(y, k, tid);
      }
    }
    forall k, l | k in y'.tasks && l in y'.tasks ensures !Clash(y', k, l) {
      if k != tid {
        assert TaskBooked(y.s, y.tasks[k]) && !Clash(y, k, tid) && !Clash(y, tid, k);
      }
      if l != tid {
        assert TaskBooked(y.s, y.tasks[l]) && !Clash(y, l, tid) && !Clash(y, tid, l);
      }
      if k != tid && l != tid {
        assert !Clash(y, k, l);
      }
    }
    forall i | 0 <= i < |y'.s.heap| && y'.s.heap[i].pb.status == Stopping ensures BeingHalted(y', i) {
      assert BeingHalted(y, i);
      var k :| k in y.tasks && y.tasks[k].Halting? && y.tasks[k].ref == i;
      assert k != tid && k in y'.tasks;
    }
  }

  /** A section that moves no port and no entry, of an RPC that holds none. */
  lemma IdleBooks(y: System, y': System, tid: nat)
    requires Books(y) && tid in y.tasks && EntryOf(y.tasks[tid]).None?
    requires y'.s.usedPorts == y.s.usedPorts && y'.s.heap == y.s.heap
    requires y'.tasks == y.tasks - {tid} || (tid in y'.tasks && y'.tasks == y.tasks[tid := y'.tasks[tid]])
    requires tid in y'.tasks ==> EntryOf(y'.tasks[tid]).None? && TaskBooked(y'.s, y'.tasks[tid])
    ensures Books(y')
  {
    assert forall h, q :: Holds(y', h, q) <==> Holds(y, h, q);
    HoldersSame(y, y');
    BookedStep(y, y', tid);
  }

  lemma LaunchBegins(y: System, y': System, tid: nat, a: Agent)
    requires Books(y) && tid in y.tasks && EntryOf(y.tasks[tid]).None?
    requires y'.s.heap == y.s.heap + [a] && a.pb.status == Starting
    requires tid in y'.tasks && y'.tasks == y.tasks[tid := y'.tasks[tid]] && y'.tasks[tid].Launching?
    requires y'.tasks[tid].ref == |y.s.heap| && 0 <= y'.tasks[tid].port < 0x1_0000
    requires y'.tasks[tid].port !in y.s.usedPorts && y'.s.usedPorts == y.s.usedPorts + {y'.tasks[tid].port}
    ensures Books(y')
  {
    var port := y'.tasks[tid].port;
    assert forall h, q :: Holds(y', h, q) <==> Holds(y, h, q) || (h == ByTask(tid) && q == port);
    HolderAdded(y, y', ByTask(tid), port);
    BookedStep(y, y', tid);
  }

  lemma LaunchFails(y: System, y': System, tid: nat, a: Agent)
    requires Books(y) && tid in y.tasks && (y.tasks[tid].Launching? || y.tasks[tid].Relaunching?)
    requires y.tasks[tid].ref < |y.s.heap| && a.pb.id == y.s.heap[y.tasks[tid].ref].pb.id
    requires a.pb.status != Ready && a.pb.status != Stopping
    requires y'.s.heap == y.s.heap[y.tasks[tid].ref := a]
    requires y'.s.usedPorts == y.s.usedPorts - {y.tasks[tid].port} && y'.tasks == y.tasks - {tid}
    ensures Books(y')
  {
    var port := y.tasks[tid].port;
    assert TaskBooked(y.s, y.tasks[tid]);
    assert Holds(y, ByTask(tid), port);
    assert forall h, q :: Holds(y', h, q) <==> Holds(y, h, q) && h != ByTask(tid);
    HolderRemoved(y, y', ByTask(tid), port);
    BookedStep(y, y', tid);
  }

  /** The port passes from the RPC to the agent. */
  lemma LaunchSucceeds(y: System, y': System, tid: nat, a: Agent)
    requires Books(y) && tid in y.tasks && (y.tasks[tid].Launching? || y.tasks[tid].Relaunching?)
    requires y.tasks[tid].ref < |y.s.heap| && a.pb.id == y.s.heap[y.tasks[tid].ref].pb.id
    requires a.pb.status == Ready && a.pb.port == y.tasks[tid].port
    requires y'.s.heap == y.s.heap[y.tasks[tid].ref := a] && y'.s.usedPorts == y.s.usedPorts
    requires y'.tasks == y.tasks - {tid} || (tid in y'.tasks && y'.tasks == y.tasks[tid := y'.tasks[tid]])
    requires tid in y'.tasks ==> y'.tasks[tid].SpawnTask?
    ensures Books(y')
  {
    var ref, port := y.tasks[tid].ref, y.tasks[tid].port;
    assert TaskBooked(y.s, y.tasks[tid]);
    assert Holds(y, ByTask(tid), port);
    assert forall h, q :: Holds(y', h, q) <==> (Holds(y, h, q) && h != ByTask(tid)) || (h == ByAgent(ref) && q == port);
    HolderReplaced(y, y', ByTask(tid), ByAgent(ref), port);
    BookedStep(y, y', tid);
  }

  lemma StopEnds(y: System, y': System, tid: nat, a: Agent)
    requires Books(y) && tid in y.tasks && y.tasks[tid].Halting?
    requires y.tasks[tid].ref < |y.s.heap| && a.pb.id == y.s.heap[y.tasks[tid].ref].pb.id && a.pb.status == Stopped
    requires y'.s.heap == y.s.heap[y.tasks[tid].ref := a]
    requires y'.s.usedPorts == y.s.usedPorts - {y.s.heap[y.tasks[tid].ref].pb.port}
    requires y'.tasks == y.tasks - {tid} || (tid in y'.tasks && y'.tasks == y.tasks[tid := y'.tasks[tid]])
    requires tid in y'.tasks ==>
               || (y'.tasks[tid].RestartTask? && y'.tasks[tid].ref == y.tasks[tid].ref)
               || (EntryOf(y'.tasks[tid]).None? && TaskBooked(y'.s, y'.tasks[tid]))
    ensures Books(y')
  {
    var ref := y.tasks[tid].ref;
    assert TaskBooked(y.s, y.tasks[tid]);
    assert Holds(y, ByAgent(ref), y.s.heap[ref].pb.port);
    assert forall h, q :: Holds(y', h, q) <==> Holds(y, h, q) && h != ByAgent(ref);
    HolderRemoved(y, y', ByAgent(ref), y.s.heap[ref].pb.port);
    BookedStep(y, y', tid);
  }

  lemma RestartReserves(y: System, y': System, tid: nat)
    requires Books(y) && tid in y.tasks && y.tasks[tid].RestartTask?
    requires y'.s.heap == y.s.heap && tid in y'.tasks && y'.tasks == y.tasks[tid := y'.tasks[tid]]
    requires y'.tasks[tid].Relaunching? && y'.tasks[tid].ref == y.tasks[tid].ref && 0 <= y'.tasks[tid].port < 0x1_0000
    requires y'.tasks[tid].port !in y.s.usedPorts && y'.s.usedPorts == y.s.usedPorts + {y'.tasks[tid].port}
    ensures Books(y')
  {
    var port := y'.tasks[tid].port;
    assert TaskBooked(y.s, y.tasks[tid]);
    assert forall h, q :: Holds(y', h, q) <==> Holds(y, h, q) || (h == ByTask(tid) && q == port);
    HolderAdded(y, y', ByTask(tid), port);
    BookedStep(y, y', tid);
  }

  lemma RestartGivesUp(y: System, y': System, tid: nat)
    requires Books(y) && tid in y.tasks && y.tasks[tid].RestartTask?
    requires y'.s == y.s && y'.tasks == y.tasks - {tid}
    ensures Books(y')
  {
    assert TaskBooked(y.s, y.tasks[tid]);
    assert forall h, q :: Holds(y', h, q) <==> Holds(y, h, q);
    HoldersSame(y, y');
    BookedStep(y, y', tid);
  }

  // ---------------------------------------------------------------------------------------------
  // The first section of a stop: where the books may go wrong
  // ---------------------------------------------------------------------------------------------

  /** The step of a stop that finds its agent, listed as `ref`. */
  ghost predicate StopBegins(y: System, y': System, tid: nat, ref: Ref, a: Agent, after: AfterStop) {
    && tid in y.tasks && y.tasks[tid].StopTask?
    && ref < |y.s.heap| && a.pb.id == y.s.heap[ref].pb.id
    && a.pb.status == Stopping && a.pb.port == y.s.heap[ref].pb.port
    && y'.s.heap == y.s.heap[ref := a] && y'.s.usedPorts == y.s.usedPorts
    && y'.tasks == y.tasks[tid := Halting(ref, y.s.heap[ref].handle, after)]
    && (after.ThenRestart? ==> after.agent == ref)
  }

  lemma ReadyStopKeepsBooks(y: System, y': System, tid: nat, ref: Ref, a: Agent, after: AfterStop)
    requires Books(y) && StopBegins(y, y', tid, ref, a, after) && y.s.heap[ref].pb.status == Ready
    ensures Books(y')
  {
    assert forall h, q :: Holds(y', h, q) <==> Holds(y, h, q);
    HoldersSame(y, y');
    forall k | k in y'.tasks ensures TaskBooked(y'.s, y'.tasks[k]) && (k != tid ==> EntryOf(y'.tasks[k]) != Some(ref)) {
      if k != tid {
        assert TaskBooked(y.s, y.tasks[k]);
      }
    }
    forall k, l | k in y'.tasks && l in y'.tasks ensures !Clash(y', k, l) {
      if k != tid && l != tid {
        assert !Clash(y, k, l);
      }
    }
    forall i | 0 <= i < |y'.s.heap| && y'.s.heap[i].pb.status == Stopping ensures BeingHalted(y', i) {
      if i == ref {
        assert tid in y'.tasks && y'.tasks[tid].Halting?;
      } else {
        assert BeingHalted(y, i);
        var k :| k in y.tasks && y.tasks[k].Halting? && y.tasks[k].ref == i;
        assert k in y'.tasks && y'.tasks[k] == y.tasks[k];
      }
    }
  }

  /**
   * On any agent that is not READY the books no longer balance from here on: on a STOPPING one
   * because two RPCs now work on it, on any other because its port is no longer accounted for.
   */
  lemma OtherStopBreaksBooks(y: System, y': System, tid: nat, ref: Ref, a: Agent, after: AfterStop)
    requires Books(y) && StopBegins(y, y', tid, ref, a, after) && y.s.heap[ref].pb.status != Ready
    ensures !Books(y')
    ensures Conserved(y') <==> y.s.heap[ref].pb.status == Stopping
  {
    if y.s.heap[ref].pb.status == Stopping {
      assert forall h, q :: Holds(y', h, q) <==> Holds(y, h, q);
      HoldersSame(y, y');
      assert BeingHalted(y, ref);
      var k :| k in y.tasks && y.tasks[k].Halting? && y.tasks[k].ref == ref;
      assert k in y'.tasks && tid in y'.tasks && Clash(y', k, tid);
    } else if Conserved(y') {
      var q := a.pb.port;
      assert Holds(y', ByAgent(ref), q);
      var h :| Holds(y, h, q);
      assert h != ByAgent(ref);
      assert Holds(y', h, q);
    }
  }

  /** A stop that finds nothing: only a restart goes on, on the entry it looked up before. */
  lemma AbsentStop(y: System, y': System, tid: nat, next: Option<Task>)
    requires Books(y) && tid in y.tasks && y.tasks[tid].StopTask?
    requires y' == System(y.s, Put(y.tasks, tid, next)) && next == AfterHalt(y.tasks[tid].afterStop)
    requires y.tasks[tid].afterStop.ThenRestart? ==> y.tasks[tid].afterStop.agent < |y.s.heap|
    ensures
      var after := y.tasks[tid].afterStop;
      Books(y') <==>
      (after.ThenRestart? ==>
         Down(y.s, after.agent) && forall k | k in y.tasks :: EntryOf(y.tasks[k]) != Some(after.agent))
  {
    var after := y.tasks[tid].afterStop;
    if after.ThenRestart? {
      assert forall h, q :: Holds(y', h, q) <==> Holds(y, h, q);
      HoldersSame(y, y');
      assert y'.tasks[tid] == RestartTask(after.agent);
      if Books(y') {
        assert TaskBooked(y'.s, y'.tasks[tid]);
        forall k | k in y.tasks ensures EntryOf(y.tasks[k]) != Some(after.agent) {
          if k != tid {
            assert k in y'.tasks && tid in y'.tasks && !Clash(y', k, tid);
          }
        }
      } else {
        RestartWithoutStop(y, y', tid, after.agent);
      }
    } else {
      IdleBooks(y, y', tid);
    }
  }

  lemma RestartWithoutStop(y: System, y': System, tid: nat, ref: Ref)
    requires Books(y) && tid in y.tasks && y.tasks[tid].StopTask? && ref < |y.s.heap|
    requires y' == System(y.s, y.tasks[tid := RestartTask(ref)]) && Conserved(y')
    ensures Down(y.s, ref) && (forall k | k in y.tasks :: EntryOf(y.tasks[k]) != Some(ref)) ==> Books(y')
  {
    if Down(y.s, ref) && (forall k | k in y.tasks :: EntryOf(y.tasks[k]) != Some(ref)) {
      forall k, l | k in y'.tasks && l in y'.tasks ensures !Clash(y', k, l) {
        if k != tid && l != tid {
          assert !Clash(y, k, l);
        }
      }
      forall i | 0 <= i < |y'.s.heap| && y'.s.heap[i].pb.status == Stopping ensures BeingHalted(y', i) {
        assert BeingHalted(y, i);
        var k :| k in y.tasks && y.tasks[k].Halting? && y.tasks[k].ref == i;
        assert k in y'.tasks && y'.tasks[k] == y.tasks[k];
      }
    }
  }
}
