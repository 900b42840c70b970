/** The main safety results, for every run of the interleaved server. */
module Guarantees {
  import opened JsonTree
  import opened Scopes
  import opened Registry
  import opened Interleaving
  import opened Safety

  /**
   * No RPC ever gets stuck on a reference: whatever ran in between, each one in flight can run its
   * next section.
   */
  lemma NeverDangling(r: Run)
    requires IsRun(r)
    ensures InRange(Last(r).s)
    ensures forall tid | tid in Last(r).tasks :: TaskInRange(Last(r).s, Last(r).tasks[tid])
  {
    RunIsOk(r);
    forall tid | tid in Last(r).tasks ensures TaskInRange(Last(r).s, Last(r).tasks[tid]) {
      assert TaskOk(Last(r).s, Last(r).tasks[tid]);
    }
  }

  /** Every agent entry ever created, still listed or not, keeps the lifecycle contract. */
  lemma EveryEntryConsistent(r: Run, i: Ref)
    requires IsRun(r) && i < |Last(r).s.heap|
    ensures AgentOk(Last(r).s.cfg, Last(r).s.heap[i])
  {
    RunIsOk(r);
    assert EntryOk(Last(r).s, i);
  }

  /**
   * The stored card of an entry agrees with recomputation exactly in the statuses READY, STOPPING
   * and STOPPED: a launch in progress has none, and a failed one leaves the card as it was.
   */
  lemma CardCurrentIffRefreshed(r: Run, i: Ref)
    requires IsRun(r) && i < |Last(r).s.heap|
    ensures
      var a := Last(r).s.heap[i];
      CardCurrent(Last(r).s.cfg, a) <==> CardStatus(a.pb.status)
  {
    EveryEntryConsistent(r, i);
    var a := Last(r).s.heap[i];
    if CardCurrent(Last(r).s.cfg, a) {
      var st := if CardTells(a.pb.card.value, Ready) then Ready
                else if CardTells(a.pb.card.value, Stopping) then Stopping else Stopped;
      StatusStringInjective(st, a.pb.status);
    }
  }

  lemma StatusStringInjective(a: Status, b: Status)
    requires StatusString(a) == StatusString(b)
    ensures a == b
  {
    var s := StatusString(a);
    assert |s| == 4 || |s| == 5 || |s| == 7 || |s| == 8 || |s| == 11;
    assert s[0] == 'u' || s[0] == 's' || s[0] == 'r' || s[0] == 'b' || s[0] == 'e';
  }

  /**
   * Every agent shares one non-empty session with the token issued to it and, if it was spawned
   * through a token, with that token, which is then the parent of the issued one.
   */
  lemma SessionsCoherent(r: Run, i: Ref)
    requires IsRun(r) && i < |Last(r).s.heap|
    ensures SessionCoherent(Last(r).s, Last(r).s.heap[i])
  {
    RunIsOk(r);
    assert EntryOk(Last(r).s, i);
  }

  // ---------------------------------------------------------------------------------------------
  // Two moments of one run
  // ---------------------------------------------------------------------------------------------

  ghost function UpTo(r: Run, i: nat): Run
    requires IsRun(r) && i < |r.states|
  {
    Run(r.states[..i + 1], r.events[..i])
  }

  lemma UpToIsRun(r: Run, i: nat)
    requires IsRun(r) && i < |r.states|
    ensures IsRun(UpTo(r, i)) && Last(UpTo(r, i)) == r.states[i]
  {
    var q := UpTo(r, i);
    forall k | 0 <= k < |q.events| ensures Next(q.states[k], q.events[k], q.states[k + 1]) {
      assert q.states[k] == r.states[k] && q.events[k] == r.events[k] && q.states[k + 1] == r.states[k + 1];
    }
  }

  lemma StepEvolves(r: Run, k: nat)
    requires IsRun(r) && k + 1 < |r.states|
    ensures Evolves(r.states[k].s, r.states[k + 1].s)
  {
    UpToIsRun(r, k);
    RunIsOk(UpTo(r, k));
    NextKeeps(r.states[k], r.events[k], r.states[k + 1]);
  }

  lemma {:induction false} EvolvesBetween(r: Run, i: nat, j: nat)
    requires IsRun(r) && i <= j < |r.states|
    ensures Evolves(r.states[i].s, r.states[j].s)
    decreases j - i
  {
    if i < j {
      EvolvesBetween(r, i, j - 1);
      StepEvolves(r, j - 1);
      EvolvesTransitive(r.states[i].s, r.states[j - 1].s, r.states[j].s);
    } else {
      EvolvesSelf(r.states[i].s);
    }
  }

  /**
   * Between any two moments a token keeps its place, id, scope, permission, parent and bearer, and
   * once it has a session it keeps that too.
   */
  lemma TokensWrittenOnce(r: Run, i: nat, j: nat, t: Ref)
    requires IsRun(r) && i <= j < |r.states| && t < |r.states[i].s.toks|
    ensures t < |r.states[j].s.toks|
    ensures
      var before, after := r.states[i].s.toks[t], r.states[j].s.toks[t];
      && after == before.(session := after.session)
      && (before.session != "" ==> after == before)
  {
    EvolvesBetween(r, i, j);
    assert SameToken(r.states[i].s, r.states[j].s, t);
  }

  // ---------------------------------------------------------------------------------------------
  // Delegation
  // ---------------------------------------------------------------------------------------------

  /** `q` is `r` or above it in the chain of parents, which always ends: parents are older. */
  ghost predicate Ancestor(s: State, q: Ref, r: Ref)
    requires r < |s.toks|
    decreases r
  {
    || q == r
    || (&& s.toks[r].parentId in s.tokens && s.tokens[s.toks[r].parentId] < r
        && Ancestor(s, q, s.tokens[s.toks[r].parentId]))
  }

  /** The tokens of every reachable state form a forest with two exact indexes. */
  lemma TokensFormForest(r: Run)
    requires IsRun(r)
    ensures Forest(Last(r).s)
  {
    RunIsOk(r);
  }

  /** Ancestors are older, reach every project the descendant reaches, and rank no lower. */
  lemma {:induction false} AncestorBounds(s: State, q: Ref, r: Ref)
    requires Forest(s) && r < |s.toks| && Ancestor(s, q, r)
    ensures q <= r
    ensures NoWider(Some(s.toks[r].scope), Some(s.toks[q].scope))
    ensures s.toks[r].perm.Rank() <= s.toks[q].perm.Rank()
    decreases r
  {
    assert TokenOk(s, r);
    if q != r {
      var up := s.tokens[s.toks[r].parentId];
      assert TokenOk(s, up);
      AncestorBounds(s, q, up);
      forall name | CanAccess(Some(s.toks[r].scope), name) ensures CanAccess(Some(s.toks[q].scope), name) {
        assert CanAccess(Some(s.toks[up].scope), name);
      }
    }
  }

  lemma {:induction false} SeenByAncestor(s: State, q: Ref, r: Ref, a: Agent)
    requires Forest(s) && r < |s.toks| && Ancestor(s, q, r)
    requires CanSee(PrincipalOf(s, r), a)
    ensures q < |s.toks| && CanSee(PrincipalOf(s, q), a)
    decreases r
  {
    assert TokenOk(s, r);
    if q != r {
      var up := s.tokens[s.toks[r].parentId];
      assert TokenOk(s, up);
      assert CanAccess(Some(s.toks[r].scope), a.project);
      SeenByAncestor(s, q, up, a);
    }
  }

  /**
   * Visibility only shrinks down a delegation chain. In every reachable state, whatever agent a
   * token may see or act on, and whatever workspace it may see or destroy, each of its ancestors
   * may too.
   */
  lemma VisibilityShrinks(r: Run, q: Ref, t: Ref)
    requires IsRun(r) && t < |Last(r).s.toks| && Ancestor(Last(r).s, q, t)
    ensures InRange(Last(r).s) && q < |Last(r).s.toks|
    ensures
      var s := Last(r).s;
      && (forall a: Agent :: CanSee(PrincipalOf(s, t), a) ==> CanSee(PrincipalOf(s, q), a))
      && (forall id :: FindAgent(s, PrincipalOf(s, t), id).Ok? ==>
            FindAgent(s, PrincipalOf(s, q), id) == FindAgent(s, PrincipalOf(s, t), id))
      && (forall w: Workspace ::
            WorkspaceVisible(s, PrincipalOf(s, t), w) ==> WorkspaceVisible(s, PrincipalOf(s, q), w))
  {
    var s := Last(r).s;
    RunIsOk(r);
    AncestorBounds(s, q, t);
    forall a: Agent | CanSee(PrincipalOf(s, t), a) ensures CanSee(PrincipalOf(s, q), a) {
      SeenByAncestor(s, q, t, a);
    }
    forall w: Workspace | WorkspaceVisible(s, PrincipalOf(s, t), w) ensures WorkspaceVisible(s, PrincipalOf(s, q), w) {
      WorkspaceSeenByAncestor(s, q, t, w);
    }
  }

  lemma {:induction false} WorkspaceSeenByAncestor(s: State, q: Ref, r: Ref, w: Workspace)
    requires Forest(s) && InRange(s) && r < |s.toks| && Ancestor(s, q, r)
    requires WorkspaceVisible(s, PrincipalOf(s, r), w)
    ensures q < |s.toks| && WorkspaceVisible(s, PrincipalOf(s, q), w)
    decreases r
  {
    assert TokenOk(s, r);
    if q != r {
      var up := s.tokens[s.toks[r].parentId];
      assert TokenOk(s, up);
      assert CanAccess(Some(s.toks[r].scope), w.project);
      WorkspaceSeenByAncestor(s, q, up, w);
    }
  }
}
