/** Runs in which each RPC finishes before the next one arrives, whatever the backend does. */
module Sequential {
  import opened JsonTree
  import opened Registry
  import opened Interleaving
  import opened Safety
  import opened SpawnShape
  import opened Guarantees
  import opened WorkspaceIndex
  import opened IndexAgreement
  import Lifecycle
  import Listing

  ghost predicate SequentialRun(r: Run) {
    && FreshRun(r)
    && forall i | 0 <= i < |r.events| && r.events[i].Arrival? :: r.states[i].tasks == map[]
  }

  // ---------------------------------------------------------------------------------------------
  // The one RPC in flight
  // ---------------------------------------------------------------------------------------------

  ghost predicate CurrentSnapshot(s: State, name: string, ws: Ref, ids: seq<string>) {
    && name in s.workspaces && s.workspaces[name] == ws && ws < |s.wsHeap|
    && s.wsHeap[ws].agents == set id | id in ids
  }

  ghost predicate AfterFits(s: State, after: AfterStop) {
    after.ThenDestroy? ==> CurrentSnapshot(s, after.name, after.ws, after.ids)
  }

  /** What an RPC that runs alone can count on at each of its sections. */
  ghost predicate Fits(s: State, t: Task)
    requires TaskInRange(s, t)
  {
    match t
    case Launching(_, ref, id, _, _) =>
      s.heap[ref].pb.status == Starting && id in s.agents && s.agents[id] == ref
    case StopTask(id, after) =>
      AfterFits(s, after) && (after.ThenRestart? ==> id in s.agents && s.agents[id] == after.agent)
    case Halting(ref, _, after) =>
      s.heap[ref].pb.status == Stopping && AfterFits(s, after) && (after.ThenRestart? ==> ref == after.agent)
    case RestartTask(ref) => s.heap[ref].pb.status == Stopped
    case Relaunching(ref, _) => s.heap[ref].pb.status == Stopped
    case DestroyTask(name, ws, ids) => CurrentSnapshot(s, name, ws, ids)
    case _ => true
  }

  predicate WorksOn(t: Option<Task>, i: Ref) {
    t.Some? && ((t.value.Launching? && t.value.ref == i) || (t.value.Halting? && t.value.ref == i))
  }

  ghost predicate CalmAt(s: State, t: Option<Task>, i: Ref)
    requires i < |s.heap|
  {
    WorksOn(t, i) || Lifecycle.Settled(s.heap[i].pb.status)
  }

  /** Every entry but the one being worked on is READY, ERROR or STOPPED. */
  ghost predicate Calm(s: State, t: Option<Task>) {
    forall i | 0 <= i < |s.heap| :: CalmAt(s, t, i)
  }

  ghost predicate Moves(s: State, s': State, i: Ref)
    requires i < |s'.heap|
  {
    if i < |s.heap| then
      || s'.heap[i].pb.status == s.heap[i].pb.status
      || Lifecycle.Edge(s.heap[i].pb.status, s'.heap[i].pb.status)
    else s'.heap[i].pb.status == Starting
  }

  ghost predicate GoodStep(s: State, after: After)
    requires after.1.Some? ==> TaskInRange(after.0, after.1.value)
  {
    && Calm(after.0, after.1)
    && (after.1.Some? ==> Fits(after.0, after.1.value))
    && |s.heap| <= |after.0.heap|
    && forall i | 0 <= i < |after.0.heap| :: Moves(s, after.0, i)
  }

  lemma SpawnFits(s: State, t: Task, c: Choice)
    requires InRange(s) && TaskInRange(s, t) && t.SpawnTask? && Calm(s, Some(t))
    requires var after := SpawnSection(s, t, c); after.1.Some? ==> TaskInRange(after.0, after.1.value)
    ensures GoodStep(s, SpawnSection(s, t, c))
  {
    SpawnBeginShape(s, t.p, t.call, c.f);
    var after := SpawnSection(s, t, c);
    forall i | 0 <= i < |after.0.heap| ensures CalmAt(after.0, after.1, i) && Moves(s, after.0, i) {
      if i < |s.heap| {
        assert CalmAt(s, Some(t), i);
        assert after.0.heap[i] == s.heap[i];
      }
    }
  }

  lemma LaunchFits(s: State, t: Task, c: Choice)
    requires InRange(s) && TaskInRange(s, t) && t.Launching? && Calm(s, Some(t)) && Fits(s, t)
    requires var after := LaunchSection(s, t, c); after.1.Some? ==> TaskInRange(after.0, after.1.value)
    ensures GoodStep(s, LaunchSection(s, t, c))
  {
    var after := LaunchSection(s, t, c);
    forall i | 0 <= i < |after.0.heap| ensures CalmAt(after.0, after.1, i) && Moves(s, after.0, i) {
      assert CalmAt(s, Some(t), i);
    }
  }

  lemma StopFits(s: State, t: Task)
    requires InRange(s) && TaskInRange(s, t) && t.StopTask? && Calm(s, Some(t)) && Fits(s, t)
    requires var after := StopSection(s, t); after.1.Some? ==> TaskInRange(after.0, after.1.value)
    ensures GoodStep(s, StopSection(s, t))
  {
    var after := StopSection(s, t);
    forall i | 0 <= i < |after.0.heap| ensures CalmAt(after.0, after.1, i) && Moves(s, after.0, i) {
      assert CalmAt(s, Some(t), i);
    }
  }

  lemma HaltFits(s: State, t: Task)
    requires InRange(s) && TaskInRange(s, t) && t.Halting? && Calm(s, Some(t)) && Fits(s, t)
    requires var after := HaltSection(s, t); after.1.Some? ==> TaskInRange(after.0, after.1.value)
    ensures GoodStep(s, HaltSection(s, t))
  {
    var after := HaltSection(s, t);
    forall i | 0 <= i < |after.0.heap| ensures CalmAt(after.0, after.1, i) && Moves(s, after.0, i) {
      assert CalmAt(s, Some(t), i);
    }
  }

  lemma RestartFits(s: State, t: Task, c: Choice)
    requires InRange(s) && TaskInRange(s, t) && t.RestartTask? && Calm(s, Some(t)) && Fits(s, t)
    ensures GoodStep(s, RestartSection(s, t, c))
  {
    var after := RestartSection(s, t, c);
    forall i | 0 <= i < |after.0.heap| ensures CalmAt(after.0, after.1, i) && Moves(s, after.0, i) {
      assert CalmAt(s, Some(t), i);
    }
  }

  lemma RelaunchFits(s: State, t: Task, c: Choice)
    requires InRange(s) && TaskInRange(s, t) && t.Relaunching? && Calm(s, Some(t)) && Fits(s, t)
    ensures GoodStep(s, RelaunchSection(s, t, c))
  {
    var after := RelaunchSection(s, t, c);
    forall i | 0 <= i < |after.0.heap| ensures CalmAt(after.0, after.1, i) && Moves(s, after.0, i) {
      assert CalmAt(s, Some(t), i);
    }
  }

  lemma FindFits(s: State, t: Task, c: Choice)
    requires InRange(s) && TaskInRange(s, t) && (t.FindToStop? || t.FindToRestart? || t.FindToDestroy?)
    requires Calm(s, Some(t)) && (t.FindToDestroy? ==> Snapshots(s, t, c))
    requires var after := FindSection(s, t, c); after.1.Some? ==> TaskInRange(after.0, after.1.value)
    ensures GoodStep(s, FindSection(s, t, c))
  {
    var after := FindSection(s, t, c);
    forall i | 0 <= i < |after.0.heap| ensures CalmAt(after.0, after.1, i) && Moves(s, after.0, i) {
      assert CalmAt(s, Some(t), i);
    }
  }

  lemma OtherFits(s: State, t: Task, c: Choice)
    requires InRange(s) && TaskInRange(s, t) && !OnAgents(t) && Calm(s, Some(t))
    requires t.FindToDestroy? ==> Snapshots(s, t, c)
    requires var after := OtherSection(s, t, c); after.1.Some? ==> TaskInRange(after.0, after.1.value)
    ensures GoodStep(s, OtherSection(s, t, c))
  {
    var after := OtherSection(s, t, c);
    if t.FindToStop? || t.FindToRestart? || t.FindToDestroy? {
      FindFits(s, t, c);
    } else {
      forall i | 0 <= i < |after.0.heap| ensures CalmAt(after.0, after.1, i) && Moves(s, after.0, i) {
        assert CalmAt(s, Some(t), i);
      }
    }
  }

  lemma SectionFits(s: State, t: Task, c: Choice)
    requires InRange(s) && TaskInRange(s, t) && Calm(s, Some(t)) && Fits(s, t) && Possible(s, t, c)
    requires var after := Section(s, t, c); after.1.Some? ==> TaskInRange(after.0, after.1.value)
    ensures GoodStep(s, Section(s, t, c))
  {
    if t.SpawnTask? {
      SpawnFits(s, t, c);
    } else if t.Launching? {
      LaunchFits(s, t, c);
    } else if t.StopTask? {
      StopFits(s, t);
    } else if t.Halting? {
      HaltFits(s, t);
    } else if t.RestartTask? {
      RestartFits(s, t, c);
    } else if t.Relaunching? {
      RelaunchFits(s, t, c);
    } else {
      OtherFits(s, t, c);
    }
  }

  // ---------------------------------------------------------------------------------------------
  // Runs
  // ---------------------------------------------------------------------------------------------

  /** At most one RPC is in flight, and it fits. */
  ghost predicate Alone(y: System)
    requires forall tid | tid in y.tasks :: TaskInRange(y.s, y.tasks[tid])
  {
    && (forall k, l | k in y.tasks && l in y.tasks :: k == l)
    && (y.tasks == map[] ==> Calm(y.s, None))
    && (forall tid | tid in y.tasks :: Calm(y.s, Some(y.tasks[tid])) && Fits(y.s, y.tasks[tid]))
  }

  lemma AloneContinues(y: System, e: Event, y': System)
    requires SystemOk(y) && SystemOk(y') && Next(y, e, y')
    requires forall tid | tid in y.tasks :: TaskInRange(y.s, y.tasks[tid])
    requires forall tid | tid in y'.tasks :: TaskInRange(y'.s, y'.tasks[tid])
    requires Alone(y) && (e.Arrival? ==> y.tasks == map[])
    ensures Alone(y')
    ensures |y.s.heap| <= |y'.s.heap| && forall i | 0 <= i < |y'.s.heap| :: Moves(y.s, y'.s, i)
  {
    if e.Advance? {
      var t := y.tasks[e.tid];
      var after := Section(y.s, t, e.c);
      assert after.1.Some? ==> y'.tasks[e.tid] == after.1.value;
      SectionFits(y.s, t, e.c);
      assert forall k | k in y'.tasks :: k in y.tasks || k == e.tid;
      if after.1.None? {
        assert forall k | k in y'.tasks :: k in y.tasks && k != e.tid;
      }
    } else {
      var t := y'.tasks[e.tid];
      forall i | 0 <= i < |y'.s.heap| ensures CalmAt(y'.s, Some(t), i) && Moves(y.s, y'.s, i) {
        assert CalmAt(y.s, None, i);
      }
    }
  }

  lemma PrefixIsSequential(r: Run)
    requires SequentialRun(r) && |r.events| > 0
    ensures SequentialRun(Prefix(r))
    ensures r.events[|r.events| - 1].Arrival? ==> Last(Prefix(r)).tasks == map[]
  {
    PrefixIsRun(r);
    PrefixIsFresh(r);
    var q := Prefix(r);
    forall i | 0 <= i < |q.events| && q.events[i].Arrival? ensures q.states[i].tasks == map[] {
      assert q.states[i] == r.states[i] && q.events[i] == r.events[i];
    }
  }

  lemma {:induction false} SequentialIsAlone(r: Run)
    requires SequentialRun(r)
    ensures SystemOk(Last(r))
    ensures forall tid | tid in Last(r).tasks :: TaskInRange(Last(r).s, Last(r).tasks[tid])
    ensures Alone(Last(r))
    decreases |r.events|
  {
    RunIsOk(r);
    NeverDangling(r);
    if |r.events| > 0 {
      PrefixIsRun(r);
      PrefixIsSequential(r);
      SequentialIsAlone(Prefix(r));
      AloneContinues(Last(Prefix(r)), r.events[|r.events| - 1], Last(r));
    }
  }

  lemma UpToIsSequential(r: Run, i: nat)
    requires SequentialRun(r) && i < |r.states|
    ensures SequentialRun(UpTo(r, i)) && Last(UpTo(r, i)) == r.states[i]
  {
    UpToIsRun(r, i);
    var q := UpTo(r, i);
    forall k | 0 <= k < |q.events| ensures !ReusesId(q.states[k], q.events[k]) {
      assert q.states[k] == r.states[k] && q.events[k] == r.events[k];
    }
    forall k | 0 <= k < |q.events| && q.events[k].Arrival? ensures q.states[k].tasks == map[] {
      assert q.states[k] == r.states[k] && q.events[k] == r.events[k];
    }
  }

  /**
   * After any sequence of RPCs, with arbitrary backend failures, each workspace keeps exactly the
   * agents a scan finds in it, and every agent sits in a live workspace of its own project.
   */
  lemma SequentialIndexAgrees(r: Run)
    requires SequentialRun(r)
    ensures StateOk(Last(r).s) && AllHoused(Last(r).s)
    ensures forall n | n in Last(r).s.workspaces ::
              Last(r).s.wsHeap[Last(r).s.workspaces[n]].agents == AgentsOf(Last(r).s, n)
  {
    forall i | 0 <= i < |r.events| ensures SettledStep(r.states[i], r.events[i]) {
      UpToIsSequential(r, i);
      SequentialIsAlone(UpTo(r, i));
    }
    SettledRunAgrees(r);
  }

  /** So every workspace message lists what the administrator's filtered ListAgents lists, in its order. */
  lemma SequentialMessagesAgree(r: Run, name: string)
    requires SequentialRun(r) && name != "" && name in Last(r).s.workspaces
    ensures InRange(Last(r).s)
    ensures
      var s := Last(r).s;
      Listing.WorkspaceAgents(s, s.wsHeap[s.workspaces[name]])
      == Listing.ListAgents(s, LOCALHOST, Listing.ListFilter(name, StatusUnspecified, ""))
  {
    SequentialIndexAgrees(r);
    LiveIdsResolve(r);
    Listing.WorkspaceMessageAgrees(Last(r).s, name);
  }

  /** The statuses entry `i` goes through, repetitions dropped. */
  ghost function History(r: Run, i: Ref): seq<Status>
    requires IsRun(r)
    decreases |r.events|
  {
    if |r.events| == 0 then []
    else
      PrefixIsRun(r);
      var h := History(Prefix(r), i);
      if i >= |Last(r).s.heap| then h else Lifecycle.Observe(h, Last(r).s.heap[i].pb.status)
  }

  lemma LastStepMoves(r: Run, i: Ref)
    requires SequentialRun(r) && |r.events| > 0
    ensures IsRun(Prefix(r)) && SequentialRun(Prefix(r))
    ensures |Last(Prefix(r)).s.heap| <= |Last(r).s.heap|
    ensures i < |Last(r).s.heap| ==> Moves(Last(Prefix(r)).s, Last(r).s, i)
  {
    PrefixIsRun(r);
    PrefixIsSequential(r);
    SequentialIsAlone(Prefix(r));
    SequentialIsAlone(r);
    AloneContinues(Last(Prefix(r)), r.events[|r.events| - 1], Last(r));
  }

  lemma {:induction false} HistoryIsWalk(r: Run, i: Ref)
    requires SequentialRun(r)
    ensures Lifecycle.Walk(History(r, i))
    ensures History(r, i) == [] <==> i >= |Last(r).s.heap|
    ensures i < |Last(r).s.heap| ==> History(r, i)[|History(r, i)| - 1] == Last(r).s.heap[i].pb.status
    decreases |r.events|
  {
    if |r.events| > 0 {
      LastStepMoves(r, i);
      HistoryIsWalk(Prefix(r), i);
      if i < |Last(r).s.heap| {
        Lifecycle.ObservationExtendsWalk(History(Prefix(r), i), Last(r).s.heap[i].pb.status);
      }
    }
  }

  /**
   * Between RPCs every agent, listed or not, has gone through
   * STARTING (READY|ERROR) (STOPPING STOPPED (READY|ERROR)?)*.
   */
  lemma SequentialHistoriesAreRegular(r: Run, i: Ref)
    requires SequentialRun(r) && Last(r).tasks == map[] && i < |Last(r).s.heap|
    ensures Lifecycle.Regular(History(r, i))
  {
    SequentialIsAlone(r);
    assert CalmAt(Last(r).s, None, i);
    HistoryIsWalk(r, i);
    Lifecycle.SettledWalksAreRegular(History(r, i));
  }
}
