/**
 * The agent ids each workspace keeps, against a scan of the agent table: never a dangling id under
 * any interleaving, and full agreement exactly as long as no destroy loses the race with a spawn.
 */
module WorkspaceIndex {
  import opened Registry
  import opened Interleaving
  import opened Safety
  import opened SpawnShape

  // ---------------------------------------------------------------------------------------------
  // Runs that never give a dead agent's id to a new agent
  // ---------------------------------------------------------------------------------------------

  ghost predicate ReusesId(y: System, e: Event) {
    && e.Advance? && e.tid in y.tasks && y.tasks[e.tid].SpawnTask?
    && var id := SpawnId(y.tasks[e.tid].call, e.c.f);
       id !in y.s.agents && exists i | 0 <= i < |y.s.heap| :: y.s.heap[i].pb.id == id
  }

  ghost predicate FreshRun(r: Run) {
    IsRun(r) && forall i | 0 <= i < |r.events| :: !ReusesId(r.states[i], r.events[i])
  }

  lemma PrefixIsFresh(r: Run)
    requires FreshRun(r) && |r.events| > 0
    ensures FreshRun(Prefix(r)) && !ReusesId(Last(Prefix(r)), r.events[|r.events| - 1])
  {
    PrefixIsRun(r);
    var q := Prefix(r);
    forall i | 0 <= i < |q.events| ensures !ReusesId(q.states[i], q.events[i]) {
      assert q.states[i] == r.states[i] && q.events[i] == r.events[i];
    }
  }

  // ---------------------------------------------------------------------------------------------
  // No dangling ids
  // ---------------------------------------------------------------------------------------------

  ghost predicate DistinctIds(s: State) {
    forall i, j | 0 <= i < j < |s.heap| :: s.heap[i].pb.id != s.heap[j].pb.id
  }

  /** Some entry, listed or not, has this id. */
  ghost predicate Known(s: State, id: string) {
    exists i | 0 <= i < |s.heap| :: s.heap[i].pb.id == id
  }

  ghost predicate SetsDisjoint(s: State) {
    forall v, w | 0 <= v < w < |s.wsHeap| :: s.wsHeap[v].agents !! s.wsHeap[w].agents
  }

  /** Every id a live workspace keeps is in the agent table, under that workspace. */
  ghost predicate NoDangling(s: State) {
    forall n, id | n in s.workspaces && s.workspaces[n] < |s.wsHeap| && id in s.wsHeap[s.workspaces[n]].agents ::
      id in s.agents && s.agents[id] < |s.heap| && s.heap[s.agents[id]].pb.workspace == n
  }

  ghost predicate SetsOk(s: State) {
    && DistinctIds(s) && SetsDisjoint(s) && NoDangling(s)
    && (forall w, id | 0 <= w < |s.wsHeap| && id in s.wsHeap[w].agents :: Known(s, id))
  }

  /** A destroy in flight works on ids its own workspace entry keeps. */
  ghost predicate SnapshotOk(s: State, t: Task) {
    && (t.DestroyTask? ==> SnapshotOf(s, t.name, t.ws, t.ids))
    && (t.StopTask? && t.afterStop.ThenDestroy? ==>
          SnapshotOf(s, t.afterStop.name, t.afterStop.ws, t.afterStop.ids))
    && (t.Halting? && t.afterStop.ThenDestroy? ==>
          SnapshotOf(s, t.afterStop.name, t.afterStop.ws, t.afterStop.ids))
  }

  ghost predicate SnapshotOf(s: State, name: string, ws: Ref, ids: seq<string>) {
    ws < |s.wsHeap| && s.wsHeap[ws].name == name && forall id | id in ids :: id in s.wsHeap[ws].agents
  }

  ghost predicate SetsInv(y: System) {
    SetsOk(y.s) && forall tid | tid in y.tasks :: SnapshotOk(y.s, y.tasks[tid])
  }

  lemma SpawnKeepsSets(s: State, p: Principal, call: SpawnCall, f: Fresh)
    requires StateOk(s) && PrincipalInRange(s, p) && SetsOk(s)
    requires SpawnId(call, f) !in s.agents ==> !Known(s, SpawnId(call, f))
    ensures SetsOk(SpawnBegin(s, p, call, f).s)
  {
    SpawnBeginShape(s, p, call, f);
    var b := SpawnBegin(s, p, call, f);
    if b.Begun? {
      assert Entered(s, call, b);
      EnteredKeepsSets(s, call, b);
    } else {
      assert SetsOk(b.s) by {
        forall w, id | 0 <= w < |b.s.wsHeap| && id in b.s.wsHeap[w].agents ensures Known(b.s, id) {
          assert Known(s, id);
        }
      }
    }
  }

  lemma EnteredKeepsSets(s: State, call: SpawnCall, b: SpawnBegun)
    requires StateOk(s) && SetsOk(s) && b.Begun? && Entered(s, call, b) && !Known(s, b.id)
    ensures SetsOk(b.s)
  {
    var s', w := b.s, s.workspaces[call.workspace];
    assert Known(s', b.id) by {
      assert s'.heap[|s.heap|].pb.id == b.id;
    }
    forall v, id | 0 <= v < |s'.wsHeap| && id in s'.wsHeap[v].agents ensures Known(s', id) {
      if id != b.id {
        assert id in s.wsHeap[v].agents && Known(s, id);
        var i :| 0 <= i < |s.heap| && s.heap[i].pb.id == id;
        assert s'.heap[i].pb.id == id;
      }
    }
    assert forall v | 0 <= v < |s.wsHeap| :: b.id !in s.wsHeap[v].agents;
    forall n, id | n in s'.workspaces && s'.workspaces[n] < |s'.wsHeap| && id in s'.wsHeap[s'.workspaces[n]].agents
      ensures id in s'.agents && s'.agents[id] < |s'.heap| && s'.heap[s'.agents[id]].pb.workspace == n
    {
      if id == b.id {
        assert s'.workspaces[n] == w;
        assert s.wsHeap[w].name == n == call.workspace;
      } else {
        assert id in s.wsHeap[s.workspaces[n]].agents;
      }
    }
  }

  /** Deleting a snapshot's ids takes the name away too, and no other live workspace has them. */
  lemma DestroyKeepsSets(s: State, name: string, ws: Ref, ids: seq<string>)
    requires StateOk(s) && SetsOk(s) && SnapshotOf(s, name, ws, ids)
    ensures SetsOk(DestroyEnd(s, name, ws, set id | id in ids))
  {
    var gone := set id | id in ids;
    var s' := DestroyEnd(s, name, ws, gone);
    forall n, id | n in s'.workspaces && s'.workspaces[n] < |s'.wsHeap| && id in s'.wsHeap[s'.workspaces[n]].agents
      ensures id in s'.agents && s'.agents[id] < |s'.heap| && s'.heap[s'.agents[id]].pb.workspace == n
    {
      var v := s.workspaces[n];
      assert s.wsHeap[v].name == n != name;
      assert v != ws;
      assert id in s.wsHeap[v].agents;
      assert id !in gone;
    }
    forall w, id | 0 <= w < |s'.wsHeap| && id in s'.wsHeap[w].agents ensures Known(s', id) {
      assert id in s.wsHeap[w].agents && Known(s, id);
    }
  }

  /** Sections that touch neither the sets nor the tables of agents and workspaces. */
  ghost predicate SameTables(s: State, s': State) {
    s'.agents == s.agents && s'.workspaces == s.workspaces && s'.wsHeap == s.wsHeap && |s'.heap| == |s.heap|
  }

  lemma SameTablesKeepSets(s: State, s': State)
    requires SetsOk(s) && SameTables(s, s') && Evolves(s, s')
    ensures SetsOk(s')
  {
    forall i, j | 0 <= i < j < |s'.heap| ensures s'.heap[i].pb.id != s'.heap[j].pb.id {
      assert SameEntry(s, s', i) && SameEntry(s, s', j);
    }
    forall w, id | 0 <= w < |s'.wsHeap| && id in s'.wsHeap[w].agents ensures Known(s', id) {
      assert Known(s, id);
      var i :| 0 <= i < |s.heap| && s.heap[i].pb.id == id;
      assert SameEntry(s, s', i);
    }
    forall n, id | n in s'.workspaces && s'.workspaces[n] < |s'.wsHeap| && id in s'.wsHeap[s'.workspaces[n]].agents
      ensures id in s'.agents && s'.agents[id] < |s'.heap| && s'.heap[s'.agents[id]].pb.workspace == n
    {
      assert SameEntry(s, s', s.agents[id]);
    }
  }

  lemma LaunchSameTables(s: State, t: Task, c: Choice)
    requires InRange(s) && TaskInRange(s, t)
    ensures t.Launching? ==> SameTables(s, LaunchSection(s, t, c).0)
  {
  }

  lemma StopSameTables(s: State, t: Task)
    requires InRange(s) && TaskInRange(s, t)
    ensures t.StopTask? ==> SameTables(s, StopSection(s, t).0)
    ensures t.Halting? ==> SameTables(s, HaltSection(s, t).0)
  {
  }

  lemma RestartSameTables(s: State, t: Task, c: Choice)
    requires InRange(s) && TaskInRange(s, t)
    ensures t.RestartTask? ==> SameTables(s, RestartSection(s, t, c).0)
    ensures t.Relaunching? ==> SameTables(s, RelaunchSection(s, t, c).0)
  {
  }

  lemma AgentSectionSameTables(s: State, t: Task, c: Choice)
    requires InRange(s) && TaskInRange(s, t) && OnAgents(t) && !t.SpawnTask?
    ensures SameTables(s, AgentSection(s, t, c).0)
  {
    LaunchSameTables(s, t, c);
    StopSameTables(s, t);
    RestartSameTables(s, t, c);
  }

  lemma OtherSectionSameTables(s: State, t: Task, c: Choice)
    requires InRange(s) && TaskInRange(s, t)
    requires !OnAgents(t) && !t.CreateWorkspaceTask? && !t.DestroyTask?
    ensures SameTables(s, OtherSection(s, t, c).0)
  {
  }

  lemma CreateKeepsSets(s: State, p: Principal, name: string, project: string)
    requires StateOk(s) && SetsOk(s)
    ensures SetsOk(CreateWorkspace(s, p, name, project).GetOr(s))
  {
    var s' := CreateWorkspace(s, p, name, project).GetOr(s);
    forall w, id | 0 <= w < |s'.wsHeap| && id in s'.wsHeap[w].agents ensures Known(s', id) {
      assert id in s.wsHeap[w].agents && Known(s, id);
    }
    forall n, id | n in s'.workspaces && s'.workspaces[n] < |s'.wsHeap| && id in s'.wsHeap[s'.workspaces[n]].agents
      ensures id in s'.agents && s'.agents[id] < |s'.heap| && s'.heap[s'.agents[id]].pb.workspace == n
    {
      assert s'.workspaces[n] < |s.wsHeap|;
    }
  }

  lemma SectionKeepsSets(s: State, t: Task, c: Choice)
    requires StateOk(s) && TaskInRange(s, t) && SetsOk(s) && SnapshotOk(s, t)
    requires t.SpawnTask? && SpawnId(t.call, c.f) !in s.agents ==> !Known(s, SpawnId(t.call, c.f))
    requires Evolves(s, Section(s, t, c).0)
    ensures SetsOk(Section(s, t, c).0)
  {
    if t.SpawnTask? {
      SpawnKeepsSets(s, t.p, t.call, c.f);
    } else if t.CreateWorkspaceTask? {
      CreateKeepsSets(s, t.p, t.name, t.project);
    } else if t.DestroyTask? {
      DestroyKeepsSets(s, t.name, t.ws, t.ids);
    } else {
      if OnAgents(t) {
        AgentSectionSameTables(s, t, c);
      } else {
        OtherSectionSameTables(s, t, c);
      }
      SameTablesKeepSets(s, Section(s, t, c).0);
    }
  }

  lemma SnapshotTaken(s: State, t: Task, c: Choice)
    requires StateOk(s) && TaskInRange(s, t) && t.FindToDestroy? && Snapshots(s, t, c)
    ensures FindSection(s, t, c).1.Some? ==> SnapshotOk(s, FindSection(s, t, c).1.value)
  {
    var found := DestroyTarget(s, t.p, t.name);
    if found.Ok? {
      forall id | id in c.order ensures id in s.wsHeap[found.value].agents {
        assert id in (set k | k in c.order);
      }
      assert SnapshotOf(s, t.name, found.value, c.order);
    }
  }

  lemma StopContinues(s: State, t: Task)
    requires InRange(s) && TaskInRange(s, t) && SnapshotOk(s, t) && t.StopTask?
    ensures StopSection(s, t).1.Some? ==> SnapshotOk(s, StopSection(s, t).1.value)
  {
  }

  lemma HaltContinues(s: State, t: Task)
    requires InRange(s) && TaskInRange(s, t) && SnapshotOk(s, t) && t.Halting?
    ensures HaltSection(s, t).1.Some? ==> SnapshotOk(s, HaltSection(s, t).1.value)
  {
  }

  lemma SnapshotContinues(s: State, t: Task, c: Choice)
    requires StateOk(s) && TaskInRange(s, t) && SnapshotOk(s, t) && Possible(s, t, c)
    ensures Section(s, t, c).1.Some? ==> SnapshotOk(s, Section(s, t, c).1.value)
  {
    if t.StopTask? {
      StopContinues(s, t);
    } else if t.Halting? {
      HaltContinues(s, t);
    } else if t.FindToDestroy? {
      SnapshotTaken(s, t, c);
    }
  }

  lemma SnapshotSurvives(s: State, s': State, t: Task)
    requires Evolves(s, s') && SnapshotOk(s, t)
    ensures SnapshotOk(s', t)
  {
  }

  lemma NextKeepsSets(y: System, e: Event, y': System)
    requires SystemOk(y) && SetsInv(y) && Next(y, e, y') && !ReusesId(y, e)
    ensures SetsInv(y')
  {
    NextKeeps(y, e, y');
    if e.Advance? {
      var t := y.tasks[e.tid];
      assert SnapshotOk(y.s, t);
      SectionKeepsSets(y.s, t, e.c);
      SnapshotContinues(y.s, t, e.c);
      if Section(y.s, t, e.c).1.Some? {
        SnapshotSurvives(y.s, y'.s, Section(y.s, t, e.c).1.value);
      }
      forall k | k in y'.tasks ensures SnapshotOk(y'.s, y'.tasks[k]) {
        if k != e.tid {
          SnapshotSurvives(y.s, y'.s, y.tasks[k]);
        }
      }
    }
  }

  lemma {:induction false} FreshRunSets(r: Run)
    requires FreshRun(r)
    ensures SystemOk(Last(r)) && SetsInv(Last(r))
    decreases |r.events|
  {
    RunIsOk(r);
    if |r.events| > 0 {
      PrefixIsFresh(r);
      PrefixIsRun(r);
      RunIsOk(Prefix(r));
      FreshRunSets(Prefix(r));
      NextKeepsSets(Last(Prefix(r)), r.events[|r.events| - 1], Last(r));
    }
  }

  /**
   * No dangling ids under full concurrency: overlapping destroys, spawns that lose the race, and a
   * workspace name taken again while an older destroy is still at work.
   */
  lemma LiveIdsResolve(r: Run)
    requires FreshRun(r)
    ensures NoDangling(Last(r).s)
  {
    FreshRunSets(r);
  }
}
