/**
 * What the reading RPCs return: agents in the order of their ids, filtered by what the caller may
 * see. ListAgents, DiscoverAgents and the agents of a workspace message are three walks of this kind.
 */
module Listing {
  import opened JsonTree
  import opened Registry
  import opened Interleaving
  import opened Safety
  import opened WorkspaceIndex
  import opened IndexAgreement

  // ---------------------------------------------------------------------------------------------
  // Sorting ids
  // ---------------------------------------------------------------------------------------------

  /** The order of Go strings, character by character. */
  predicate Le(a: string, b: string) {
    a == [] || (b != [] && (a[0] < b[0] || (a[0] == b[0] && Le(a[1..], b[1..]))))
  }

  lemma {:induction false} LeTotal(a: string, b: string)
    ensures Le(a, b) || Le(b, a)
    ensures Le(a, b) && Le(b, a) ==> a == b
  {
    if a != [] && b != [] && a[0] == b[0] {
      LeTotal(a[1..], b[1..]);
      if a[1..] == b[1..] {
        assert a == [a[0]] + a[1..] && b == [b[0]] + b[1..];
      }
    }
  }

  lemma {:induction false} LeTransitive(a: string, b: string, c: string)
    requires Le(a, b) && Le(b, c)
    ensures Le(a, c)
  {
    if a != [] && a[0] == b[0] && b[0] == c[0] {
      LeTransitive(a[1..], b[1..], c[1..]);
    }
  }

  ghost predicate Sorted(ids: seq<string>) {
    forall i, j | 0 <= i < j < |ids| :: Le(ids[i], ids[j]) && ids[i] != ids[j]
  }

  predicate Least(m: string, ids: set<string>) {
    m in ids && forall k | k in ids :: Le(m, k)
  }

  lemma LeastExists(ids: set<string>)
    requires ids != {}
    ensures exists m :: Least(m, ids)
    decreases |ids|
  {
    var x :| x in ids;
    LeTotal(x, x);
    if ids == {x} {
      assert Least(x, ids);
    } else {
      LeastExists(ids - {x});
      var m :| Least(m, ids - {x});
      LeTotal(x, m);
      if Le(m, x) {
        assert Least(m, ids);
      } else {
        forall k | k in ids ensures Le(x, k) {
          if k != x {
            LeTransitive(x, m, k);
          }
        }
        assert Least(x, ids);
      }
    }
  }

  lemma LeastUnique(ids: set<string>, m: string, n: string)
    requires Least(m, ids) && Least(n, ids)
    ensures m == n
  {
    LeTotal(m, n);
  }

  function SortIds(ids: set<string>): (r: seq<string>)
    ensures forall id :: id in r <==> id in ids
    decreases |ids|
  {
    if ids == {} then []
    else
      LeastExists(ids);
      assert forall m, n | Least(m, ids) && Least(n, ids) :: m == n by {
        forall m, n | Least(m, ids) && Least(n, ids) ensures m == n {
          LeastUnique(ids, m, n);
        }
      }
      var m :| m in ids && Least(m, ids);
      [m] + SortIds(ids - {m})
  }

  lemma {:induction false} SortIdsSorts(ids: set<string>)
    ensures Sorted(SortIds(ids))
    decreases |ids|
  {
    if ids != {} {
      LeastExists(ids);
      var r := SortIds(ids);
      var m := r[0];
      assert m in ids && Least(m, ids) by {
        var k :| k in ids && Least(k, ids) && r == [k] + SortIds(ids - {k});
      }
      SortIdsSorts(ids - {m});
      assert forall j | 0 <= j < |SortIds(ids - {m})| :: SortIds(ids - {m})[j] in ids - {m};
    }
  }

  /** There is only one way to sort a set. */
  lemma {:induction false} SortedUnique(a: seq<string>, b: seq<string>)
    requires Sorted(a) && Sorted(b) && forall id :: id in a <==> id in b
    ensures a == b
  {
    assert a == [] || a[0] in b;
    assert b == [] || b[0] in a;
    if a != [] {
      var i :| 0 <= i < |a| && a[i] == b[0];
      var j :| 0 <= j < |b| && b[j] == a[0];
      if i > 0 && j > 0 {
        LeTotal(a[0], b[0]);
      }
      assert a[0] == b[0];
      forall id ensures id in a[1..] <==> id in b[1..] {
        assert id in a[1..] ==> id in a && id != a[0];
        assert id in b[1..] ==> id in b && id != b[0];
        assert a == [a[0]] + a[1..] && b == [b[0]] + b[1..];
      }
      SortedUnique(a[1..], b[1..]);
    }
  }

  // ---------------------------------------------------------------------------------------------
  // The three walks
  // ---------------------------------------------------------------------------------------------

  /** Filters of ListAgents; the zero value of each leaves that filter off. */
  datatype ListFilter = ListFilter(workspace: string, status: Status, template: string)

  predicate Passes(f: ListFilter, pb: Instance) {
    && (f.workspace != "" ==> pb.workspace == f.workspace)
    && (f.status != StatusUnspecified ==> pb.status == f.status)
    && (f.template != "" ==> pb.template == f.template)
  }

  function ListWalk(s: State, p: Principal, f: ListFilter, ids: seq<string>): seq<Instance>
    requires forall id | id in ids :: id in s.agents && s.agents[id] < |s.heap|
  {
    if ids == [] then []
    else
      var a := s.heap[s.agents[ids[0]]];
      (if CanSee(p, a) && Passes(f, a.pb) then [a.pb] else []) + ListWalk(s, p, f, ids[1..])
  }

  /** One turn of the loop over the ids. */
  lemma ListWalkStep(s: State, p: Principal, f: ListFilter, ids: seq<string>, i: nat, resp: seq<Instance>)
    requires i < |ids| && forall id | id in ids :: id in s.agents && s.agents[id] < |s.heap|
    ensures
      var a := s.heap[s.agents[ids[i]]];
      resp + ListWalk(s, p, f, ids[i..])
      == (if CanSee(p, a) && Passes(f, a.pb) then resp + [a.pb] else resp) + ListWalk(s, p, f, ids[i + 1..])
  {
    assert ids[i..][1..] == ids[i + 1..];
  }

  ghost function ListAgents(s: State, p: Principal, f: ListFilter): seq<Instance>
    requires InRange(s)
  {
    ListWalk(s, p, f, SortIds(s.agents.Keys))
  }

  predicate TagIn(tags: seq<Json>, capability: string) {
    exists i :: 0 <= i < |tags| && tags[i] == Str(capability)
  }

  /** One element of a card's skills carries the capability as a tag. */
  predicate SkillHas(skill: Json, capability: string) {
    && skill.Obj? && "tags" in skill.fields && skill.fields["tags"].Arr?
    && TagIn(skill.fields["tags"].items, capability)
  }

  predicate CardHas(card: Json, capability: string) {
    && card.Obj? && "skills" in card.fields && card.fields["skills"].Arr?
    && exists i :: 0 <= i < |card.fields["skills"].items| && SkillHas(card.fields["skills"].items[i], capability)
  }

  predicate Discoverable(p: Principal, capability: string, a: Agent) {
    && CanSee(p, a)
    && (a.pb.status == Ready || a.pb.status == Busy)
    && (capability != "" ==> CardHas(a.cardBase, capability))
  }

  /** Discovery recomputes each card as it goes. */
  function DiscoverWalk(s: State, p: Principal, capability: string, ids: seq<string>): seq<AgentCard>
    requires forall id | id in ids :: id in s.agents && s.agents[id] < |s.heap|
  {
    if ids == [] then []
    else
      var a := s.heap[s.agents[ids[0]]];
      (if Discoverable(p, capability, a) then [EnrichedCard(s.cfg, a)] else [])
      + DiscoverWalk(s, p, capability, ids[1..])
  }

  lemma DiscoverWalkStep(s: State, p: Principal, capability: string, ids: seq<string>, i: nat, resp: seq<AgentCard>)
    requires i < |ids| && forall id | id in ids :: id in s.agents && s.agents[id] < |s.heap|
    ensures
      var a := s.heap[s.agents[ids[i]]];
      resp + DiscoverWalk(s, p, capability, ids[i..])
      == (if Discoverable(p, capability, a) then resp + [EnrichedCard(s.cfg, a)] else resp)
         + DiscoverWalk(s, p, capability, ids[i + 1..])
  {
    assert ids[i..][1..] == ids[i + 1..];
  }

  ghost function DiscoverAgents(s: State, p: Principal, capability: string): seq<AgentCard>
    requires InRange(s)
  {
    DiscoverWalk(s, p, capability, SortIds(s.agents.Keys))
  }

  function WorkspaceWalk(s: State, ids: seq<string>): seq<Instance>
    requires forall id | id in s.agents :: s.agents[id] < |s.heap|
  {
    if ids == [] then []
    else
      (if ids[0] in s.agents then [s.heap[s.agents[ids[0]]].pb] else []) + WorkspaceWalk(s, ids[1..])
  }

  /** The agents of a workspace message. */
  ghost function WorkspaceAgents(s: State, w: Workspace): seq<Instance>
    requires InRange(s)
  {
    WorkspaceWalk(s, SortIds(w.agents))
  }

  // ---------------------------------------------------------------------------------------------
  // Discovery against listing
  // ---------------------------------------------------------------------------------------------

  const ONLY_READY := ListFilter("", Ready, "")

  /** The READY agents the caller may see, as ListAgents orders them. */
  function ReadyEntries(s: State, p: Principal, ids: seq<string>): seq<Agent>
    requires forall id | id in ids :: id in s.agents && s.agents[id] < |s.heap|
  {
    if ids == [] then []
    else
      var a := s.heap[s.agents[ids[0]]];
      (if CanSee(p, a) && a.pb.status == Ready then [a] else []) + ReadyEntries(s, p, ids[1..])
  }

  function Capable(agents: seq<Agent>, capability: string): seq<Agent> {
    if agents == [] then []
    else
      (if capability == "" || CardHas(agents[0].cardBase, capability) then [agents[0]] else [])
      + Capable(agents[1..], capability)
  }

  function Messages(agents: seq<Agent>): seq<Instance> {
    if agents == [] then [] else [agents[0].pb] + Messages(agents[1..])
  }

  /** The cards as stored in the entries, not recomputed. */
  function StoredCards(agents: seq<Agent>): seq<Option<AgentCard>> {
    if agents == [] then [] else [agents[0].pb.card] + StoredCards(agents[1..])
  }

  function Present(cards: seq<AgentCard>): seq<Option<AgentCard>> {
    if cards == [] then [] else [Some(cards[0])] + Present(cards[1..])
  }

  ghost predicate CardFresh(s: State, id: string) {
    id in s.agents && s.agents[id] < |s.heap| &&
    var a := s.heap[s.agents[id]];
    a.pb.status != Busy && (a.pb.status == Ready ==> a.pb.card == Some(EnrichedCard(s.cfg, a)))
  }

  lemma {:induction false} DiscoverWalkAgrees(s: State, p: Principal, capability: string, ids: seq<string>)
    requires forall id | id in ids :: id in s.agents && s.agents[id] < |s.heap|
    requires forall id | id in ids :: CardFresh(s, id)
    ensures Present(DiscoverWalk(s, p, capability, ids)) == StoredCards(Capable(ReadyEntries(s, p, ids), capability))
  {
    if ids != [] {
      DiscoverWalkAgrees(s, p, capability, ids[1..]);
      assert CardFresh(s, ids[0]);
      var a := s.heap[s.agents[ids[0]]];
      var rest := ReadyEntries(s, p, ids[1..]);
      assert ([a] + rest)[1..] == rest && ([] + rest) == rest;
      var cards := DiscoverWalk(s, p, capability, ids[1..]);
      assert ([EnrichedCard(s.cfg, a)] + cards)[1..] == cards && [] + cards == cards;
      var kept := Capable(rest, capability);
      assert ([a] + kept)[1..] == kept && [] + kept == kept;
    }
  }

  lemma {:induction false} ListWalkIsReady(s: State, p: Principal, ids: seq<string>)
    requires forall id | id in ids :: id in s.agents && s.agents[id] < |s.heap|
    ensures ListWalk(s, p, ONLY_READY, ids) == Messages(ReadyEntries(s, p, ids))
  {
    if ids != [] {
      ListWalkIsReady(s, p, ids[1..]);
      var a := s.heap[s.agents[ids[0]]];
      var rest := ReadyEntries(s, p, ids[1..]);
      assert ([a] + rest)[1..] == rest && ([] + rest) == rest;
    }
  }

  /**
   * In every reachable state there is one list of entries such that ListAgents for READY returns
   * their messages and local discovery returns the cards stored in those of them that have the
   * capability, both in order.
   */
  lemma DiscoveryAgreesWithListing(r: Run, p: Principal, capability: string)
    requires IsRun(r)
    ensures InRange(Last(r).s)
    ensures
      var s := Last(r).s;
      var listed := ReadyEntries(s, p, SortIds(s.agents.Keys));
      && ListAgents(s, p, ONLY_READY) == Messages(listed)
      && Present(DiscoverAgents(s, p, capability)) == StoredCards(Capable(listed, capability))
  {
    RunIsOk(r);
    var s := Last(r).s;
    var ids := SortIds(s.agents.Keys);
    forall id | id in ids ensures CardFresh(s, id) {
      assert EntryOk(s, s.agents[id]);
    }
    DiscoverWalkAgrees(s, p, capability, ids);
    ListWalkIsReady(s, p, ids);
  }

  /** An agent whose own card could not be fetched is found by exactly its template's tags. */
  lemma FallbackAdvertisesTags(t: Template, directUrl: string, capability: string)
    ensures CardHas(FallbackCard(t, directUrl), capability) <==> capability in t.tags
  {
    var card := FallbackCard(t, directUrl);
    var skill := card.fields["skills"].items[0];
    var tags := skill.fields["tags"].items;
    assert card.fields["skills"].items == [skill];
    if capability in t.tags {
      var i :| 0 <= i < |t.tags| && t.tags[i] == capability;
      assert tags[i] == Str(capability);
      assert SkillHas(skill, capability);
    }
  }

  // ---------------------------------------------------------------------------------------------
  // Workspace messages against listing
  // ---------------------------------------------------------------------------------------------

  function InWorkspace(s: State, name: string, ids: seq<string>): (r: seq<string>)
    requires forall id | id in ids :: id in s.agents && s.agents[id] < |s.heap|
    ensures forall id | id in r :: id in ids
  {
    if ids == [] then []
    else (if s.heap[s.agents[ids[0]]].pb.workspace == name then [ids[0]] else []) + InWorkspace(s, name, ids[1..])
  }

  lemma {:induction false} AdminListIsWorkspaceWalk(s: State, name: string, ids: seq<string>)
    requires forall id | id in s.agents :: s.agents[id] < |s.heap|
    requires name != "" && forall id | id in ids :: id in s.agents
    ensures ListWalk(s, LOCALHOST, ListFilter(name, StatusUnspecified, ""), ids)
            == WorkspaceWalk(s, InWorkspace(s, name, ids))
  {
    if ids != [] {
      AdminListIsWorkspaceWalk(s, name, ids[1..]);
      var rest := InWorkspace(s, name, ids[1..]);
      assert ([ids[0]] + rest)[1..] == rest && [] + rest == rest;
    }
  }

  lemma {:induction false} InWorkspaceSorted(s: State, name: string, ids: seq<string>)
    requires Sorted(ids) && forall id | id in ids :: id in s.agents && s.agents[id] < |s.heap|
    ensures Sorted(InWorkspace(s, name, ids))
    ensures forall id :: id in InWorkspace(s, name, ids) <==> id in ids && s.heap[s.agents[id]].pb.workspace == name
  {
    if ids != [] {
      InWorkspaceSorted(s, name, ids[1..]);
      var rest := InWorkspace(s, name, ids[1..]);
      assert ids == [ids[0]] + ids[1..];
      assert forall j | 0 <= j < |rest| :: rest[j] in ids[1..];
    }
  }

  /**
   * Where index and scan agree, a workspace message lists the same agents in the same order as the
   * administrator's ListAgents filtered by that workspace.
   */
  lemma WorkspaceMessageAgrees(s: State, name: string)
    requires StateOk(s) && NoDangling(s) && AllHoused(s) && name in s.workspaces && name != ""
    ensures WorkspaceAgents(s, s.wsHeap[s.workspaces[name]])
            == ListAgents(s, LOCALHOST, ListFilter(name, StatusUnspecified, ""))
  {
    HousedMeansAgreement(s, name);
    var all := SortIds(s.agents.Keys);
    AdminListIsWorkspaceWalk(s, name, all);
    SortIdsSorts(s.agents.Keys);
    SortIdsSorts(s.wsHeap[s.workspaces[name]].agents);
    InWorkspaceSorted(s, name, all);
    var kept := s.wsHeap[s.workspaces[name]].agents;
    SortedUnique(InWorkspace(s, name, all), SortIds(kept));
  }
}
