/**
 * Which process the last section of a stop lets go of. A stop captures the handle of its agent when
 * it begins, stops the process behind that handle, and at its end drops whatever handle the entry
 * has by then.
 */
module StopHandles {
  import opened JsonTree
  import opened Registry
  import opened Interleaving
  import opened SpawnShape

  /** A launch or relaunch hands the entry the handle of a new process. */
  ghost predicate Gives(t: Task, c: Choice, ref: Ref) {
    c.handle.Some? && ((t.Launching? && t.ref == ref) || (t.Relaunching? && t.ref == ref))
  }

  ghost predicate Ends(t: Task, ref: Ref) {
    t.Halting? && t.ref == ref
  }

  /** The handle of `ref` after a section. */
  ghost predicate HandleMoves(s: State, t: Task, c: Choice, s': State, ref: Ref) {
    && ref < |s.heap| && ref < |s'.heap|
    && s'.heap[ref].handle ==
       if Gives(t, c, ref) then c.handle else if Ends(t, ref) then None else s.heap[ref].handle
  }

  lemma LaunchHandle(s: State, t: Task, c: Choice, ref: Ref)
    requires InRange(s) && TaskInRange(s, t) && (t.SpawnTask? || t.Launching?) && ref < |s.heap|
    ensures HandleMoves(s, t, c, Section(s, t, c).0, ref)
  {
    if t.SpawnTask? {
      SpawnBeginShape(s, t.p, t.call, c.f);
    }
  }

  lemma StopHandle(s: State, t: Task, c: Choice, ref: Ref)
    requires InRange(s) && TaskInRange(s, t) && (t.StopTask? || t.Halting?) && ref < |s.heap|
    ensures HandleMoves(s, t, c, Section(s, t, c).0, ref)
  {
  }

  lemma RelaunchHandle(s: State, t: Task, c: Choice, ref: Ref)
    requires InRange(s) && TaskInRange(s, t) && (t.RestartTask? || t.Relaunching?) && ref < |s.heap|
    ensures HandleMoves(s, t, c, Section(s, t, c).0, ref)
  {
  }

  lemma OtherHandle(s: State, t: Task, c: Choice, ref: Ref)
    requires InRange(s) && TaskInRange(s, t) && !OnAgents(t) && ref < |s.heap|
    ensures HandleMoves(s, t, c, Section(s, t, c).0, ref)
  {
  }

  /** No other section writes the handle of an entry. */
  lemma SectionHandle(s: State, t: Task, c: Choice, ref: Ref)
    requires InRange(s) && TaskInRange(s, t) && ref < |s.heap|
    ensures HandleMoves(s, t, c, Section(s, t, c).0, ref)
  {
    if t.SpawnTask? || t.Launching? {
      LaunchHandle(s, t, c, ref);
    } else if t.StopTask? || t.Halting? {
      StopHandle(s, t, c, ref);
    } else if t.RestartTask? || t.Relaunching? {
      RelaunchHandle(s, t, c, ref);
    } else {
      OtherHandle(s, t, c, ref);
    }
  }

  ghost predicate Launches(y: System, e: Event, ref: Ref) {
    e.Advance? && e.tid in y.tasks && Gives(y.tasks[e.tid], e.c, ref)
  }

  ghost predicate Halts(y: System, e: Event, ref: Ref) {
    e.Advance? && e.tid in y.tasks && Ends(y.tasks[e.tid], ref)
  }

  lemma HandleStep(y: System, e: Event, y': System, ref: Ref)
    requires Next(y, e, y') && ref < |y.s.heap|
    ensures ref < |y'.s.heap|
    ensures y'.s.heap[ref].handle ==
            if Launches(y, e, ref) then e.c.handle
            else if Halts(y, e, ref) then None
            else y.s.heap[ref].handle
  {
    if e.Advance? {
      SectionHandle(y.s, y.tasks[e.tid], e.c, ref);
    }
  }

  // ---------------------------------------------------------------------------------------------
  // Between the two sections of a stop
  // ---------------------------------------------------------------------------------------------

  ghost predicate LaunchesAt(r: Run, j: nat, ref: Ref)
    requires j < |r.events| < |r.states|
  {
    Launches(r.states[j], r.events[j], ref)
  }

  ghost predicate HaltsAt(r: Run, j: nat, ref: Ref)
    requires j < |r.events| < |r.states|
  {
    Halts(r.states[j], r.events[j], ref)
  }

  /** The launch at `j` is the last word on the entry up to `k`: no stop of it ended since. */
  ghost predicate StandsFrom(r: Run, j: nat, k: nat, ref: Ref)
    requires j < |r.events| && k < |r.states| == |r.events| + 1
  {
    j < k && LaunchesAt(r, j, ref) && forall m | j < m < k :: !HaltsAt(r, m, ref)
  }

  /** Between `i` and `k` a new process was put behind the entry, and nobody stopped it. */
  ghost predicate Relaunched(r: Run, i: nat, k: nat, ref: Ref)
    requires k < |r.states| == |r.events| + 1
  {
    exists j | i <= j < k :: StandsFrom(r, j, k, ref)
  }

  /** Every process launched between `i` and `k` is new: its handle is not `h`. */
  ghost predicate NewProcesses(r: Run, i: nat, k: nat, ref: Ref, h: Option<Handle>)
    requires k < |r.states| == |r.events| + 1
  {
    forall j | i <= j < k && LaunchesAt(r, j, ref) :: r.events[j].c.handle != h
  }

  lemma RelaunchedStep(r: Run, i: nat, k: nat, ref: Ref)
    requires i < k < |r.states| == |r.events| + 1
    ensures Relaunched(r, i, k, ref) <==>
            LaunchesAt(r, k - 1, ref) || (Relaunched(r, i, k - 1, ref) && !HaltsAt(r, k - 1, ref))
  {
    if LaunchesAt(r, k - 1, ref) {
      assert StandsFrom(r, k - 1, k, ref);
    } else if Relaunched(r, i, k - 1, ref) && !HaltsAt(r, k - 1, ref) {
      var j :| i <= j < k - 1 && StandsFrom(r, j, k - 1, ref);
      assert StandsFrom(r, j, k, ref);
    } else if Relaunched(r, i, k, ref) {
      var j :| i <= j < k && StandsFrom(r, j, k, ref);
      assert StandsFrom(r, j, k - 1, ref);
    }
  }

  lemma {:induction false} HandleSince(r: Run, i: nat, k: nat, ref: Ref)
    requires IsRun(r) && i <= k < |r.states| && ref < |r.states[i].s.heap|
    requires NewProcesses(r, i, k, ref, r.states[i].s.heap[ref].handle)
    ensures ref < |r.states[k].s.heap|
    ensures
      var h := r.states[k].s.heap[ref].handle;
      if Relaunched(r, i, k, ref) then h.Some? && h != r.states[i].s.heap[ref].handle
      else h.None? || h == r.states[i].s.heap[ref].handle
    decreases k
  {
    if i < k {
      HandleSince(r, i, k - 1, ref);
      assert Next(r.states[k - 1], r.events[k - 1], r.states[k]);
      HandleStep(r.states[k - 1], r.events[k - 1], r.states[k], ref);
      RelaunchedStep(r, i, k, ref);
    }
  }

  /** The first section of a stop hands the handle it finds to the second. */
  lemma StopCaptures(r: Run, i: nat, tid: nat)
    requires IsRun(r) && i < |r.events| && r.events[i].Advance? && r.events[i].tid == tid
    requires tid in r.states[i].tasks && r.states[i].tasks[tid].StopTask?
    requires r.states[i].tasks[tid].id in r.states[i].s.agents
    ensures
      var y := r.states[i + 1];
      && tid in y.tasks && y.tasks[tid].Halting? && y.tasks[tid].ref < |y.s.heap|
      && y.tasks[tid].ref == r.states[i].s.agents[r.states[i].tasks[tid].id]
      && y.tasks[tid].handle == y.s.heap[y.tasks[tid].ref].handle
  {
    assert Next(r.states[i], r.events[i], r.states[i + 1]);
  }

  /**
   * A stop whose first section led to state `i` and whose last one runs at `k`, exactly: the last
   * one drops the handle of a process it did not stop if and only if a launch put a new process
   * behind the entry in between that no other stop has ended since.
   */
  lemma StopDropsForeignHandleIffRelaunched(r: Run, i: nat, k: nat, tid: nat, t: Task)
    requires IsRun(r) && i <= k < |r.events| && t.Halting? && t.ref < |r.states[i].s.heap|
    requires t.handle == r.states[i].s.heap[t.ref].handle && NewProcesses(r, i, k, t.ref, t.handle)
    requires r.events[k].Advance? && r.events[k].tid == tid
    requires tid in r.states[k].tasks && r.states[k].tasks[tid] == t
    ensures t.ref < |r.states[k].s.heap| && t.ref < |r.states[k + 1].s.heap|
    ensures r.states[k + 1].s.heap[t.ref].handle == None
    ensures
      var dropped := r.states[k].s.heap[t.ref].handle;
      dropped.Some? && dropped != t.handle <==> Relaunched(r, i, k, t.ref)
  {
    HandleSince(r, i, k, t.ref);
    assert Next(r.states[k], r.events[k], r.states[k + 1]);
    HandleStep(r.states[k], r.events[k], r.states[k + 1], t.ref);
  }
}
