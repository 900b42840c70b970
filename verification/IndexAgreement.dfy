/**
 * When the agent ids a workspace keeps are exactly the agents a scan of the table finds, every
 * agent sitting in a live workspace of its own project. A destroy can break that, and this module
 * says exactly when; sequential use never does.
 */
module IndexAgreement {
  import opened Registry
  import opened Interleaving
  import opened Safety
  import opened SpawnShape
  import opened Guarantees
  import opened WorkspaceIndex

  /** The agent sits in a live workspace that knows it, within the same project. */
  ghost predicate Housed(s: State, id: string)
    requires InRange(s) && id in s.agents
  {
    var a := s.heap[s.agents[id]];
    && a.pb.workspace in s.workspaces
    && var w := s.wsHeap[s.workspaces[a.pb.workspace]];
       id in w.agents && w.project == a.project
  }

  ghost predicate AllHoused(s: State)
    requires InRange(s)
  {
    forall id | id in s.agents :: Housed(s, id)
  }

  function AgentsOf(s: State, name: string): set<string>
    requires forall id | id in s.agents :: s.agents[id] < |s.heap|
  {
    set id | id in s.agents && s.heap[s.agents[id]].pb.workspace == name
  }

  /** With no dangling ids, the two views of each live workspace coincide. */
  lemma HousedMeansAgreement(s: State, name: string)
    requires StateOk(s) && NoDangling(s) && AllHoused(s) && name in s.workspaces
    ensures s.wsHeap[s.workspaces[name]].agents == AgentsOf(s, name)
  {
    forall id | id in AgentsOf(s, name) ensures id in s.wsHeap[s.workspaces[name]].agents {
      assert Housed(s, id);
    }
  }

  // ---------------------------------------------------------------------------------------------
  // Section by section
  // ---------------------------------------------------------------------------------------------

  /** The destroy's snapshot still covers whatever workspace now carries the name. */
  ghost predicate Settled(s: State, t: Task)
    requires t.DestroyTask? && InRange(s)
  {
    t.name in s.workspaces ==> s.wsHeap[s.workspaces[t.name]].agents <= set id | id in t.ids
  }

  /**
   * The race, decided: the last section of a destroy leaves every remaining agent housed if and
   * only if no agent was added to the workspace of that name since the snapshot.
   */
  lemma DestroyHousesIffSettled(s: State, t: Task)
    requires StateOk(s) && SetsOk(s) && AllHoused(s) && TaskInRange(s, t) && t.DestroyTask? && SnapshotOk(s, t)
    requires InRange(DestroySection(s, t).0)
    ensures AllHoused(DestroySection(s, t).0) <==> Settled(s, t)
  {
    var s' := DestroySection(s, t).0;
    var gone := set id | id in t.ids;
    if Settled(s, t) {
      forall id | id in s'.agents ensures Housed(s', id) {
        assert Housed(s, id);
        var a := s.heap[s.agents[id]];
        assert id !in gone;
        assert a.pb.workspace != t.name;
      }
    } else {
      var id :| id in s.wsHeap[s.workspaces[t.name]].agents && id !in gone;
      assert id in s.agents && s.heap[s.agents[id]].pb.workspace == t.name;
      assert id in s'.agents && !Housed(s', id);
    }
  }

  lemma SpawnKeepsHoused(s: State, t: Task, c: Choice)
    requires StateOk(s) && AllHoused(s) && TaskOk(s, t) && t.SpawnTask? && FreshFor(s, c.f)
    requires InRange(SpawnSection(s, t, c).0)
    ensures AllHoused(SpawnSection(s, t, c).0)
  {
    SpawnBeginShape(s, t.p, t.call, c.f);
    var b := SpawnBegin(s, t.p, t.call, c.f);
    if b.Begun? {
      assert Entered(s, t.call, b);
      EnteredKeepsHoused(s, t.call, b);
    } else {
      forall id | id in b.s.agents ensures Housed(b.s, id) {
        assert Housed(s, id);
      }
    }
  }

  lemma EnteredKeepsHoused(s: State, call: SpawnCall, b: SpawnBegun)
    requires InRange(s) && AllHoused(s) && b.Begun? && Entered(s, call, b) && InRange(b.s)
    ensures AllHoused(b.s)
  {
    forall id | id in b.s.agents ensures Housed(b.s, id) {
      if id != b.id {
        assert Housed(s, id);
      }
    }
  }

  lemma CreateKeepsHoused(s: State, t: Task)
    requires StateOk(s) && AllHoused(s) && TaskOk(s, t) && t.CreateWorkspaceTask?
    requires InRange(CreateSection(s, t).0)
    ensures AllHoused(CreateSection(s, t).0)
  {
    var s' := CreateSection(s, t).0;
    forall id | id in s'.agents ensures Housed(s', id) {
      assert Housed(s, id);
    }
  }

  lemma SameTablesKeepHoused(s: State, s': State)
    requires InRange(s) && InRange(s') && AllHoused(s) && SameTables(s, s') && Evolves(s, s')
    ensures AllHoused(s')
  {
    forall id | id in s'.agents ensures Housed(s', id) {
      assert Housed(s, id) && SameEntry(s, s', s.agents[id]);
    }
  }

  /** Every section but the last of a destroy keeps agents housed; that one does just when settled. */
  lemma SectionKeepsHoused(s: State, t: Task, c: Choice)
    requires StateOk(s) && SetsOk(s) && AllHoused(s) && TaskOk(s, t) && SnapshotOk(s, t) && FreshFor(s, c.f)
    requires InRange(Section(s, t, c).0) && Evolves(s, Section(s, t, c).0)
    ensures AllHoused(Section(s, t, c).0) <==> (t.DestroyTask? ==> Settled(s, t))
  {
    if t.DestroyTask? {
      DestroyHousesIffSettled(s, t);
    } else if t.SpawnTask? {
      SpawnKeepsHoused(s, t, c);
    } else if t.CreateWorkspaceTask? {
      CreateKeepsHoused(s, t);
    } else {
      if OnAgents(t) {
        AgentSectionSameTables(s, t, c);
      } else {
        OtherSectionSameTables(s, t, c);
      }
      SameTablesKeepHoused(s, Section(s, t, c).0);
    }
  }

  // ---------------------------------------------------------------------------------------------
  // Runs
  // ---------------------------------------------------------------------------------------------

  ghost predicate SettledStep(y: System, e: Event) {
    e.Advance? && e.tid in y.tasks && y.tasks[e.tid].DestroyTask? && InRange(y.s) ==> Settled(y.s, y.tasks[e.tid])
  }

  lemma StepKeepsHoused(y: System, e: Event, y': System)
    requires SystemOk(y) && SetsInv(y) && AllHoused(y.s) && Next(y, e, y')
    ensures InRange(y'.s)
    ensures AllHoused(y'.s) <==> SettledStep(y, e)
  {
    NextKeeps(y, e, y');
    if e.Advance? {
      assert TaskOk(y.s, y.tasks[e.tid]) && SnapshotOk(y.s, y.tasks[e.tid]);
      SectionKeepsHoused(y.s, y.tasks[e.tid], e.c);
    }
  }

  /**
   * Index and scan agree at the end of a run if at every destroy in it the snapshot was still
   * complete when the workspace went.
   */
  lemma {:induction false} SettledRunAgrees(r: Run)
    requires FreshRun(r)
    requires forall i | 0 <= i < |r.events| :: SettledStep(r.states[i], r.events[i])
    ensures StateOk(Last(r).s) && AllHoused(Last(r).s)
    ensures forall n | n in Last(r).s.workspaces ::
              Last(r).s.wsHeap[Last(r).s.workspaces[n]].agents == AgentsOf(Last(r).s, n)
    decreases |r.events|
  {
    FreshRunSets(r);
    if |r.events| > 0 {
      PrefixIsFresh(r);
      PrefixIsRun(r);
      var q := Prefix(r);
      forall i | 0 <= i < |q.events| ensures SettledStep(q.states[i], q.events[i]) {
        assert q.states[i] == r.states[i] && q.events[i] == r.events[i];
      }
      SettledRunAgrees(q);
      FreshRunSets(q);
      assert SettledStep(r.states[|r.events| - 1], r.events[|r.events| - 1]);
      StepKeepsHoused(Last(q), r.events[|r.events| - 1], Last(r));
    }
    forall n | n in Last(r).s.workspaces
      ensures Last(r).s.wsHeap[Last(r).s.workspaces[n]].agents == AgentsOf(Last(r).s, n)
    {
      HousedMeansAgreement(Last(r).s, n);
    }
  }

  ghost predicate SettledRun(r: Run)
    requires |r.states| == |r.events| + 1
  {
    forall i | 0 <= i < |r.events| :: SettledStep(r.states[i], r.events[i])
  }

  ghost predicate HousedAt(y: System) {
    InRange(y.s) && AllHoused(y.s)
  }

  lemma UpToIsFresh(r: Run, i: nat)
    requires FreshRun(r) && i < |r.states|
    ensures FreshRun(UpTo(r, i)) && Last(UpTo(r, i)) == r.states[i]
  {
    UpToIsRun(r, i);
    var q := UpTo(r, i);
    forall k | 0 <= k < |q.events| ensures !ReusesId(q.states[k], q.events[k]) {
      assert q.states[k] == r.states[k] && q.events[k] == r.events[k];
    }
  }

  lemma SettledUpTo(r: Run, i: nat)
    requires FreshRun(r) && SettledRun(r) && i < |r.states|
    ensures HousedAt(r.states[i])
  {
    UpToIsFresh(r, i);
    var q := UpTo(r, i);
    forall k | 0 <= k < |q.events| ensures SettledStep(q.states[k], q.events[k]) {
      assert q.states[k] == r.states[k] && q.events[k] == r.events[k];
    }
    SettledRunAgrees(q);
  }

  lemma HousedStepIsSettled(r: Run, i: nat)
    requires FreshRun(r) && i < |r.events| && HousedAt(r.states[i]) && HousedAt(r.states[i + 1])
    ensures SettledStep(r.states[i], r.events[i])
  {
    UpToIsFresh(r, i);
    UpToIsRun(r, i);
    RunIsOk(UpTo(r, i));
    FreshRunSets(UpTo(r, i));
    StepKeepsHoused(r.states[i], r.events[i], r.states[i + 1]);
  }

  /** The exact price of the race: all agents are housed at every moment of a run iff every destroy was settled. */
  lemma AlwaysHousedIffSettled(r: Run)
    requires FreshRun(r)
    ensures (forall i | 0 <= i < |r.states| :: HousedAt(r.states[i])) <==> SettledRun(r)
  {
    if SettledRun(r) {
      forall i | 0 <= i < |r.states| ensures HousedAt(r.states[i]) {
        SettledUpTo(r, i);
      }
    }
    if forall i | 0 <= i < |r.states| :: HousedAt(r.states[i]) {
      forall i | 0 <= i < |r.events| ensures SettledStep(r.states[i], r.events[i]) {
        assert HousedAt(r.states[i]) && HousedAt(r.states[i + 1]);
        HousedStepIsSettled(r, i);
      }
    }
  }
}
