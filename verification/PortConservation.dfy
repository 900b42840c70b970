/** The stricter bookkeeping over whole runs, and the one kind of section that can upset it. */
module PortConservation {
  import opened Registry
  import opened Interleaving
  import opened Safety
  import opened SpawnShape
  import opened WorkspaceIndex
  import opened Guarantees
  import opened Ports

  /** `y'` is `y` after the section of `tid` with outcome `after`. */
  ghost predicate Steps(y: System, y': System, tid: nat, after: After) {
    tid in y.tasks && y' == System(after.0, Put(y.tasks, tid, after.1))
  }

  lemma SpawnBooks(y: System, y': System, tid: nat, c: Choice)
    requires tid in y.tasks && y.tasks[tid].SpawnTask? && InRange(y.s) && TaskInRange(y.s, y.tasks[tid])
    requires Books(y) && Steps(y, y', tid, SpawnSection(y.s, y.tasks[tid], c))
    requires FreshFor(y.s, c.f) && FairWorld(y, Advance(tid, c))
    ensures Books(y')
  {
    var t := y.tasks[tid];
    SpawnBeginShape(y.s, t.p, t.call, c.f);
    PortReservable(y.s, c.f);
    var b := SpawnBegin(y.s, t.p, t.call, c.f);
    if b.Begun? {
      assert Entered(y.s, t.call, b);
      LaunchBegins(y, y', tid, b.s.heap[|y.s.heap|]);
    } else {
      assert b.s.usedPorts == y.s.usedPorts;
      IdleBooks(y, y', tid);
    }
  }

  lemma LaunchBooks(y: System, y': System, tid: nat, c: Choice)
    requires tid in y.tasks && y.tasks[tid].Launching? && StateOk(y.s) && TaskOk(y.s, y.tasks[tid])
    requires Books(y) && DistinctIds(y.s) && Steps(y, y', tid, LaunchSection(y.s, y.tasks[tid], c))
    requires FairWorld(y, Advance(tid, c))
    ensures Books(y')
  {
    var t := y.tasks[tid];
    var a := y.s.heap[t.ref];
    assert TaskBooked(y.s, t);
    if c.handle.Some? {
      LaunchSucceeds(y, y', tid, y'.s.heap[t.ref]);
    } else if t.id in y.s.agents {
      assert ListedUnder(y.s, t.id);
      assert y.s.agents[t.id] == t.ref;
      LaunchFails(y, y', tid, y'.s.heap[t.ref]);
    } else {
      LaunchFails(y, y', tid, a);
    }
  }

  lemma RelaunchBooks(y: System, y': System, tid: nat, c: Choice)
    requires tid in y.tasks && y.tasks[tid].Relaunching? && InRange(y.s) && TaskInRange(y.s, y.tasks[tid])
    requires Books(y) && Steps(y, y', tid, RelaunchSection(y.s, y.tasks[tid], c))
    requires FairWorld(y, Advance(tid, c))
    ensures Books(y')
  {
    var t := y.tasks[tid];
    assert TaskBooked(y.s, t);
    if c.handle.Some? {
      LaunchSucceeds(y, y', tid, y'.s.heap[t.ref]);
    } else {
      LaunchFails(y, y', tid, y'.s.heap[t.ref]);
    }
  }

  lemma RestartBooks(y: System, y': System, tid: nat, c: Choice)
    requires tid in y.tasks && y.tasks[tid].RestartTask? && InRange(y.s) && TaskInRange(y.s, y.tasks[tid])
    requires Books(y) && Steps(y, y', tid, RestartSection(y.s, y.tasks[tid], c))
    requires FreshFor(y.s, c.f) && FairWorld(y, Advance(tid, c))
    ensures Books(y')
  {
    PortReservable(y.s, c.f);
    if PortToReserve(y.s, c.f.osFree, c.f.osPort).Some? {
      RestartReserves(y, y', tid);
    } else {
      RestartGivesUp(y, y', tid);
    }
  }

  lemma HaltBooks(y: System, y': System, tid: nat)
    requires tid in y.tasks && y.tasks[tid].Halting? && StateOk(y.s) && TaskInRange(y.s, y.tasks[tid])
    requires Books(y) && Steps(y, y', tid, HaltSection(y.s, y.tasks[tid]))
    ensures Books(y')
  {
    assert TaskBooked(y.s, y.tasks[tid]);
    StopEnds(y, y', tid, y'.s.heap[y.tasks[tid].ref]);
  }

  lemma StopBooks(y: System, y': System, tid: nat, c: Choice)
    requires tid in y.tasks && y.tasks[tid].StopTask? && StateOk(y.s) && TaskInRange(y.s, y.tasks[tid])
    requires Books(y) && DistinctIds(y.s) && Steps(y, y', tid, StopSection(y.s, y.tasks[tid]))
    ensures Books(y') <==> Disciplined(y, Advance(tid, c))
  {
    var t := y.tasks[tid];
    assert TaskBooked(y.s, t);
    if t.id in y.s.agents {
      var ref := y.s.agents[t.id];
      assert ListedUnder(y.s, t.id);
      assert StopBegins(y, y', tid, ref, y'.s.heap[ref], t.afterStop);
      if y.s.heap[ref].pb.status == Ready {
        ReadyStopKeepsBooks(y, y', tid, ref, y'.s.heap[ref], t.afterStop);
      } else {
        OtherStopBreaksBooks(y, y', tid, ref, y'.s.heap[ref], t.afterStop);
      }
    } else {
      AbsentStop(y, y', tid, AfterHalt(t.afterStop));
    }
  }

  lemma FindBooks(y: System, y': System, tid: nat, c: Choice)
    requires tid in y.tasks && StateOk(y.s) && TaskInRange(y.s, y.tasks[tid])
    requires y.tasks[tid].FindToStop? || y.tasks[tid].FindToRestart? || y.tasks[tid].FindToDestroy?
    requires Books(y) && Steps(y, y', tid, FindSection(y.s, y.tasks[tid], c))
    ensures Books(y')
  {
    var t := y.tasks[tid];
    if t.FindToRestart? && FindAgent(y.s, t.p, t.id).Ok? {
      assert ListedUnder(y.s, t.id);
    }
    IdleBooks(y, y', tid);
  }

  lemma OtherBooks(y: System, y': System, tid: nat, c: Choice)
    requires tid in y.tasks && StateOk(y.s) && TaskInRange(y.s, y.tasks[tid]) && !OnAgents(y.tasks[tid])
    requires Books(y) && Steps(y, y', tid, OtherSection(y.s, y.tasks[tid], c))
    ensures Books(y')
  {
    var t := y.tasks[tid];
    if t.FindToStop? || t.FindToRestart? || t.FindToDestroy? {
      FindBooks(y, y', tid, c);
    } else {
      IdleBooks(y, y', tid);
    }
  }

  lemma AdvanceBooks(y: System, y': System, tid: nat, c: Choice)
    requires SystemOk(y) && DistinctIds(y.s) && Books(y) && Advances(y, y', tid, c)
    requires FairWorld(y, Advance(tid, c))
    ensures Books(y') <==> Disciplined(y, Advance(tid, c))
  {
    var t := y.tasks[tid];
    assert TaskOk(y.s, t);
    assert Steps(y, y', tid, Section(y.s, t, c));
    if t.SpawnTask? {
      SpawnBooks(y, y', tid, c);
    } else if t.Launching? {
      LaunchBooks(y, y', tid, c);
    } else if t.StopTask? {
      StopBooks(y, y', tid, c);
    } else if t.Halting? {
      HaltBooks(y, y', tid);
    } else if t.RestartTask? {
      RestartBooks(y, y', tid, c);
    } else if t.Relaunching? {
      RelaunchBooks(y, y', tid, c);
    } else {
      OtherBooks(y, y', tid, c);
    }
  }

  lemma ArrivalBooks(y: System, y': System, tid: nat, p: Principal)
    requires Books(y) && Arrives(y, y', tid, p)
    ensures Books(y')
  {
    assert EntryOf(y'.tasks[tid]).None?;
    assert forall h, q :: Holds(y', h, q) <==> Holds(y, h, q);
    HoldersSame(y, y');
    forall k, l | k in y'.tasks && l in y'.tasks ensures !Clash(y', k, l) {
      if k != tid && l != tid {
        assert !Clash(y, k, l);
      }
    }
    forall i | 0 <= i < |y'.s.heap| && y'.s.heap[i].pb.status == Stopping ensures BeingHalted(y', i) {
      assert BeingHalted(y, i);
      var k :| k in y.tasks && y.tasks[k].Halting? && y.tasks[k].ref == i;
      assert k in y'.tasks && y'.tasks[k] == y.tasks[k];
    }
  }

  /**
   * The whole story of one step. With honest ports from the system and the backend, books that
   * balance still balance after a step if and only if the step is not a stop begun on an agent
   * that is not READY (or a restart going on for an agent that vanished while others work on it).
   */
  lemma StepBooks(y: System, e: Event, y': System)
    requires SystemOk(y) && SetsInv(y) && Books(y) && Next(y, e, y') && FairWorld(y, e)
    ensures Books(y') <==> Disciplined(y, e)
  {
    match e
    case Arrival(tid, p) => ArrivalBooks(y, y', tid, p);
    case Advance(tid, c) => AdvanceBooks(y, y', tid, c);
  }

  /** The environment plays fair throughout. */
  ghost predicate FairRun(r: Run) {
    FreshRun(r) && forall i | 0 <= i < |r.events| :: FairWorld(r.states[i], r.events[i])
  }

  ghost predicate DisciplinedRun(r: Run)
    requires |r.states| == |r.events| + 1
  {
    forall i | 0 <= i < |r.events| :: Disciplined(r.states[i], r.events[i])
  }

  lemma PrefixIsFair(r: Run)
    requires FairRun(r) && |r.events| > 0
    ensures FairRun(Prefix(r))
    ensures FairWorld(Last(Prefix(r)), r.events[|r.events| - 1])
  {
    PrefixIsRun(r);
    PrefixIsFresh(r);
    var q := Prefix(r);
    forall i | 0 <= i < |q.events| ensures FairWorld(q.states[i], q.events[i]) {
      assert q.states[i] == r.states[i] && q.events[i] == r.events[i];
    }
  }

  /** The books balance at the end of every fair run in which every stop was disciplined. */
  lemma {:induction false} DisciplineBalances(r: Run)
    requires FairRun(r) && DisciplinedRun(r)
    ensures Books(Last(r))
    decreases |r.events|
  {
    FreshRunSets(r);
    if |r.events| > 0 {
      PrefixIsFair(r);
      PrefixIsRun(r);
      var q := Prefix(r);
      forall i | 0 <= i < |q.events| ensures Disciplined(q.states[i], q.events[i]) {
        assert q.states[i] == r.states[i] && q.events[i] == r.events[i];
      }
      DisciplineBalances(q);
      FreshRunSets(q);
      assert Disciplined(r.states[|r.events| - 1], r.events[|r.events| - 1]);
      StepBooks(Last(q), r.events[|r.events| - 1], Last(r));
    }
  }

  lemma UpToIsFair(r: Run, i: nat)
    requires FairRun(r) && i < |r.states|
    ensures FairRun(UpTo(r, i)) && Last(UpTo(r, i)) == r.states[i]
  {
    UpToIsRun(r, i);
    var q := UpTo(r, i);
    forall k | 0 <= k < |q.events| ensures !ReusesId(q.states[k], q.events[k]) && FairWorld(q.states[k], q.events[k]) {
      assert q.states[k] == r.states[k] && q.events[k] == r.events[k];
    }
  }

  /**
   * The stricter bookkeeping, exactly: in a fair run the books balance at every moment if and only
   * if every stop in it was disciplined.
   */
  lemma BooksBalanceIffDisciplined(r: Run)
    requires FairRun(r)
    ensures (forall i | 0 <= i < |r.states| :: Books(r.states[i])) <==> DisciplinedRun(r)
  {
    if DisciplinedRun(r) {
      forall i | 0 <= i < |r.states| ensures Books(r.states[i]) {
        UpToIsFair(r, i);
        var q := UpTo(r, i);
        forall k | 0 <= k < |q.events| ensures Disciplined(q.states[k], q.events[k]) {
          assert q.states[k] == r.states[k] && q.events[k] == r.events[k];
        }
        DisciplineBalances(q);
      }
    }
    if forall i | 0 <= i < |r.states| :: Books(r.states[i]) {
      forall i | 0 <= i < |r.events| ensures Disciplined(r.states[i], r.events[i]) {
        UpToIsFair(r, i);
        FreshRunSets(UpTo(r, i));
        assert Books(r.states[i]) && Books(r.states[i + 1]);
        assert FairWorld(r.states[i], r.events[i]);
        StepBooks(r.states[i], r.events[i], r.states[i + 1]);
      }
    }
  }

  /** In particular no two running agents ever share a port. */
  lemma NoSharedPort(r: Run, i: Ref, j: Ref)
    requires FairRun(r) && DisciplinedRun(r)
    requires i < j < |Last(r).s.heap|
    requires Last(r).s.heap[i].pb.status == Ready && Last(r).s.heap[j].pb.status == Ready
    ensures Last(r).s.heap[i].pb.port != Last(r).s.heap[j].pb.port
  {
    DisciplineBalances(r);
    var q := Last(r).s.heap[i].pb.port;
    assert Holds(Last(r), ByAgent(i), q);
    assert !Holds(Last(r), ByAgent(j), q);
  }
}
