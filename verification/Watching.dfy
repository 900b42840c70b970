/**
 * Event streams: bounded channels that drop what does not fit, and what a WatchAgent stream sends
 * under every interleaving of publishers, the stream's loop and its end.
 */
module Watching {
  import opened JsonTree
  import opened Registry

  datatype EventKind = StatusChanged | CardUpdated | AgentStopped

  datatype AgentEvent = AgentEvent(kind: EventKind, agent: Instance, card: Option<AgentCard>)

  datatype WorkspaceEventKind = SpawnSeen | StatusSeen | StopSeen | Destroyed

  /** A workspace as messages show it. */
  datatype WorkspaceMessage = WorkspaceMessage(name: string, project: string, active: bool, agents: seq<Instance>)

  datatype WorkspaceEvent = WorkspaceEvent(
    kind: WorkspaceEventKind, workspace: WorkspaceMessage, agent: Option<Instance>)

  const CAPACITY := 32

  /** A send that never waits. */
  function Offered<T>(buf: seq<T>, ev: T): seq<T> {
    if |buf| < CAPACITY then buf + [ev] else buf
  }

  // ---------------------------------------------------------------------------------------------
  // Channels and subscribers
  // ---------------------------------------------------------------------------------------------

  class EventChannel<T> {
    var buf: seq<T>

    constructor ()
      ensures buf == []
    {
      buf := [];
    }

    method TrySend(ev: T)
      modifies this
      ensures buf == if |old(buf)| < 32 then old(buf) + [ev] else old(buf)
    {
      if |buf| < CAPACITY {
        buf := buf + [ev];
      }
    }
  }

  ghost predicate Apart<T>(subs: map<nat, EventChannel<T>>) {
    forall i, j | i in subs && j in subs && subs[i] == subs[j] :: i == j
  }

  /** Offers the event to each of the channels once, in whatever order. */
  method OfferAll<T>(subs: map<nat, EventChannel<T>>, ev: T)
    requires Apart(subs)
    modifies subs.Values
    ensures forall i | i in subs :: subs[i].buf == Offered(old(subs[i].buf), ev)
  {
    var ids := subs.Keys;
    while ids != {}
      invariant ids <= subs.Keys
      invariant forall i | i in ids :: subs[i].buf == old(subs[i].buf)
      invariant forall i | i in subs.Keys - ids :: subs[i].buf == Offered(old(subs[i].buf), ev)
      decreases ids
    {
      var i :| i in ids;
      assert forall j | j in subs && j != i :: subs[j] != subs[i];
      subs[i].TrySend(ev);
      ids := ids - {i};
    }
  }

  type Subscribers<T> = map<string, map<nat, EventChannel<T>>>

  function SubscribersOf<T>(subs: Subscribers<T>, name: string): map<nat, EventChannel<T>> {
    if name in subs then subs[name] else map[]
  }

  class EventHub {
    var subSeq: nat
    var agentSubs: Subscribers<AgentEvent>
    var wsSubs: Subscribers<WorkspaceEvent>

    /** Subscription numbers are handed out once, and no two subscriptions share a channel. */
    ghost predicate Valid()
      reads this
    {
      && (forall a, i | a in agentSubs && i in agentSubs[a] :: i <= subSeq)
      && (forall w, i | w in wsSubs && i in wsSubs[w] :: i <= subSeq)
      && (forall a, i, b, j | a in agentSubs && i in agentSubs[a] && b in agentSubs && j in agentSubs[b] ::
            agentSubs[a][i] == agentSubs[b][j] ==> a == b && i == j)
      && (forall w, i, v, j | w in wsSubs && i in wsSubs[w] && v in wsSubs && j in wsSubs[v] ::
            wsSubs[w][i] == wsSubs[v][j] ==> w == v && i == j)
    }

    constructor ()
      ensures Valid() && agentSubs == map[] && wsSubs == map[] && subSeq == 0
    {
      subSeq, agentSubs, wsSubs := 0, map[], map[];
    }

    method SubscribeAgent(agentId: string) returns (id: nat, ch: EventChannel<AgentEvent>)
      requires Valid()
      modifies this`subSeq, this`agentSubs
      ensures Valid() && fresh(ch) && ch.buf == []
      ensures id == old(subSeq) + 1 == subSeq
      ensures agentSubs == old(agentSubs)[agentId := SubscribersOf(old(agentSubs), agentId)[id := ch]]
    {
      subSeq := subSeq + 1;
      id := subSeq;
      ch := new EventChannel();
      var before: map<nat, EventChannel<AgentEvent>> := if agentId in agentSubs then agentSubs[agentId] else map[];
      agentSubs := agentSubs[agentId := before[id := ch]];
    }

    method UnsubscribeAgent(agentId: string, id: nat)
      requires Valid()
      modifies this`agentSubs
      ensures Valid()
      ensures agentSubs ==
              if agentId in old(agentSubs) then old(agentSubs)[agentId := old(agentSubs)[agentId] - {id}]
              else old(agentSubs)
    {
      if agentId in agentSubs {
        agentSubs := agentSubs[agentId := agentSubs[agentId] - {id}];
      }
    }

    method SubscribeWorkspace(ws: string) returns (id: nat, ch: EventChannel<WorkspaceEvent>)
      requires Valid()
      modifies this`subSeq, this`wsSubs
      ensures Valid() && fresh(ch) && ch.buf == []
      ensures id == old(subSeq) + 1 == subSeq
      ensures wsSubs == old(wsSubs)[ws := SubscribersOf(old(wsSubs), ws)[id := ch]]
    {
      subSeq := subSeq + 1;
      id := subSeq;
      ch := new EventChannel();
      var before: map<nat, EventChannel<WorkspaceEvent>> := if ws in wsSubs then wsSubs[ws] else map[];
      wsSubs := wsSubs[ws := before[id := ch]];
    }

    method UnsubscribeWorkspace(ws: string, id: nat)
      requires Valid()
      modifies this`wsSubs
      ensures Valid()
      ensures wsSubs ==
              if ws in old(wsSubs) then old(wsSubs)[ws := old(wsSubs)[ws] - {id}] else old(wsSubs)
    {
      if ws in wsSubs {
        wsSubs := wsSubs[ws := wsSubs[ws] - {id}];
      }
    }

    /**
     * The first time a publication takes the lock: each subscriber of the agent is offered the
     * event once. `known` says whether the agent's workspace has a table of subscribers by now.
     */
    method PublishToAgent(ev: AgentEvent) returns (known: bool)
      requires Valid()
      modifies SubscribersOf(agentSubs, ev.agent.id).Values
      ensures Valid() && known == (ev.agent.workspace in wsSubs)
      ensures
        var subs := SubscribersOf(agentSubs, ev.agent.id);
        forall i | i in subs :: subs[i].buf == Offered(old(subs[i].buf), ev)
    {
      OfferAll(SubscribersOf(agentSubs, ev.agent.id), ev);
      known := ev.agent.workspace in wsSubs;
    }

    /**
     * The second time, after any other sections: if the workspace was live (`wsPB` is the message
     * built then) and its table known, whoever subscribes to it now is offered a mirrored event.
     */
    method PublishToWorkspace(ev: AgentEvent, wsPB: Option<WorkspaceMessage>, known: bool)
      requires Valid()
      modifies SubscribersOf(wsSubs, ev.agent.workspace).Values
      ensures Valid()
      ensures
        var subs := SubscribersOf(wsSubs, ev.agent.workspace);
        forall i | i in subs ::
          subs[i].buf ==
          if wsPB.None? || !known then old(subs[i].buf)
          else
            Offered(old(subs[i].buf),
                    WorkspaceEvent(if ev.kind.AgentStopped? then StopSeen else StatusSeen, wsPB.value, Some(ev.agent)))
    {
      if wsPB.Some? && known {
        OfferAll(SubscribersOf(wsSubs, ev.agent.workspace), Mirrored(ev, wsPB.value));
      }
    }

    /** A whole publication when no other section comes in between. */
    method PublishAgentEvent(ev: AgentEvent, wsPB: Option<WorkspaceMessage>)
      requires Valid()
      modifies SubscribersOf(agentSubs, ev.agent.id).Values, SubscribersOf(wsSubs, ev.agent.workspace).Values
      ensures Valid()
      ensures
        var subs := SubscribersOf(agentSubs, ev.agent.id);
        forall i | i in subs :: subs[i].buf == Offered(old(subs[i].buf), ev)
      ensures
        var subs := SubscribersOf(wsSubs, ev.agent.workspace);
        forall i | i in subs ::
          subs[i].buf ==
          if wsPB.None? then old(subs[i].buf)
          else
            Offered(old(subs[i].buf),
                    WorkspaceEvent(if ev.kind.AgentStopped? then StopSeen else StatusSeen, wsPB.value, Some(ev.agent)))
    {
      var known := PublishToAgent(ev);
      PublishToWorkspace(ev, wsPB, known);
    }
  }

  function Mirrored(ev: AgentEvent, workspace: WorkspaceMessage): WorkspaceEvent {
    WorkspaceEvent(if ev.kind == AgentStopped then StopSeen else StatusSeen, workspace, Some(ev.agent))
  }

  // ---------------------------------------------------------------------------------------------
  // One stream
  // ---------------------------------------------------------------------------------------------

  datatype Fate = Consumed | Buffered | Dropped

  /**
   * A WatchAgent stream from the moment it took its snapshot. `missed` are the events published to
   * the agent before it subscribed, `published` those since then, and `fates` says of each of the
   * latter what has become of it.
   */
  datatype Watch = Watch(
    joined: bool, subscribed: bool, started: bool, finished: bool, failed: bool,
    buf: seq<AgentEvent>, consumed: seq<AgentEvent>, sent: seq<AgentEvent>,
    missed: seq<AgentEvent>, published: seq<AgentEvent>, fates: seq<Fate>)

  const SNAPSHOT := Watch(false, false, false, false, false, [], [], [], [], [], [])

  datatype Action =
    | Publication(ev: AgentEvent)   // some RPC publishes to the agent
    | Subscription                  // the stream subscribes
    | Opening(ok: bool)             // the stream sends the snapshot; the client may be gone
    | Delivery(ok: bool)            // the stream takes an event and sends it
    | Cancellation                  // the context is done
    | Departure                     // the deferred unsubscribe

  function FirstBuffered(fates: seq<Fate>): (i: nat)
    requires Buffered in fates
    ensures i < |fates| && fates[i] == Buffered && Buffered !in fates[..i]
  {
    if fates[0] == Buffered then 0 else 1 + FirstBuffered(fates[1..])
  }

  ghost predicate HasBuffered(w: Watch) {
    w.buf != [] ==> Buffered in w.fates
  }

  function Published(w: Watch, ev: AgentEvent): Watch {
    w.(buf := Offered(w.buf, ev), published := w.published + [ev],
       fates := w.fates + [if |w.buf| < CAPACITY then Buffered else Dropped])
  }

  function Delivered(w: Watch, ok: bool): Watch
    requires w.buf != [] && Buffered in w.fates
  {
    var ev := w.buf[0];
    w.(buf := w.buf[1..], consumed := w.consumed + [ev],
       fates := w.fates[FirstBuffered(w.fates) := Consumed],
       sent := if ok then w.sent + [ev] else w.sent,
       failed := !ok, finished := !ok || ev.kind == AgentStopped)
  }

  function Act(initial: AgentEvent, w: Watch, act: Action): Watch
    requires w.buf != [] ==> Buffered in w.fates
  {
    match act
    case Publication(ev) =>
      if w.subscribed then Published(w, ev)
      else if !w.joined then w.(missed := w.missed + [ev])
      else w
    case Subscription => if w.joined then w else w.(joined := true, subscribed := true)
    case Opening(ok) =>
      if !w.joined || w.started || w.finished then w
      else if ok then w.(started := true, sent := [initial])
      else w.(finished := true)
    case Delivery(ok) => if w.started && !w.finished && w.buf != [] then Delivered(w, ok) else w
    case Cancellation => if w.started && !w.finished then w.(finished := true) else w
    case Departure => if w.finished then w.(subscribed := false) else w
  }

  /** The published events with one fate, in the order of publication. */
  function Picked(evs: seq<AgentEvent>, fates: seq<Fate>, fate: Fate): seq<AgentEvent>
    requires |evs| == |fates|
  {
    if evs == [] then []
    else Picked(evs[..|evs| - 1], fates[..|fates| - 1], fate)
         + (if fates[|fates| - 1] == fate then [evs[|evs| - 1]] else [])
  }

  /** First in, first out: nothing is taken from behind an event still waiting. */
  ghost predicate Fifo(fates: seq<Fate>) {
    forall i, j | 0 <= i < j < |fates| :: !(fates[i] == Buffered && fates[j] == Consumed)
  }

  /** The fates account for the events taken and the events waiting. */
  ghost predicate Accounted(w: Watch) {
    && |w.fates| == |w.published| && Fifo(w.fates)
    && w.consumed == Picked(w.published, w.fates, Consumed)
    && w.buf == Picked(w.published, w.fates, Buffered)
  }

  /** What was sent, and that nothing follows a STOPPED. */
  ghost predicate SentOk(initial: AgentEvent, w: Watch) {
    && |w.buf| <= CAPACITY
    && (!w.joined ==> !w.subscribed && !w.started && !w.finished && w.published == [])
    && (!w.started ==> w.sent == [] && w.consumed == [] && !w.failed)
    && (w.failed ==> w.finished && w.consumed != [])
    && (w.started ==>
          w.sent == [initial] + (if w.failed then w.consumed[..|w.consumed| - 1] else w.consumed))
    && (forall i | 0 <= i < |w.consumed| - 1 :: w.consumed[i].kind != AgentStopped)
    && (w.consumed != [] && w.consumed[|w.consumed| - 1].kind == AgentStopped ==> w.finished)
  }

  ghost predicate WatchOk(initial: AgentEvent, w: Watch) {
    Accounted(w) && SentOk(initial, w)
  }

  lemma {:induction false} NoneLeft(evs: seq<AgentEvent>, fates: seq<Fate>, fate: Fate)
    requires |evs| == |fates| && fate !in fates
    ensures Picked(evs, fates, fate) == []
  {
    if evs != [] {
      NoneLeft(evs[..|evs| - 1], fates[..|fates| - 1], fate);
    }
  }

  lemma BufferedThere(w: Watch)
    requires |w.fates| == |w.published| && w.buf == Picked(w.published, w.fates, Buffered)
    ensures HasBuffered(w)
  {
    if Buffered !in w.fates {
      NoneLeft(w.published, w.fates, Buffered);
    }
  }

  /** Taking the first waiting event moves it from the waiting to the taken, at their ends. */
  lemma {:induction false} TakeFirst(evs: seq<AgentEvent>, fates: seq<Fate>, i: nat)
    requires |evs| == |fates| && Fifo(fates) && i < |fates| && fates[i] == Buffered && Buffered !in fates[..i]
    ensures
      var fates' := fates[i := Consumed];
      && Fifo(fates')
      && Picked(evs, fates, Buffered) == [evs[i]] + Picked(evs, fates', Buffered)
      && Picked(evs, fates', Consumed) == Picked(evs, fates, Consumed) + [evs[i]]
      && Picked(evs, fates', Dropped) == Picked(evs, fates, Dropped)
    decreases |evs|
  {
    var n := |evs| - 1;
    var fates' := fates[i := Consumed];
    if i == n {
      assert fates'[..n] == fates[..n];
      NoneLeft(evs[..n], fates[..n], Buffered);
    } else {
      assert fates'[..n] == fates[..n][i := Consumed];
      assert Buffered !in fates[..n][..i] by {
        assert fates[..n][..i] == fates[..i];
      }
      TakeFirst(evs[..n], fates[..n], i);
      assert fates[n] != Consumed;
    }
  }

  lemma AddFate(evs: seq<AgentEvent>, fates: seq<Fate>, ev: AgentEvent, f: Fate, fate: Fate)
    requires |evs| == |fates|
    ensures Picked(evs + [ev], fates + [f], fate) == Picked(evs, fates, fate) + (if f == fate then [ev] else [])
  {
    assert (evs + [ev])[..|evs|] == evs && (fates + [f])[..|fates|] == fates;
  }

  lemma FifoGrows(fates: seq<Fate>, f: Fate)
    requires Fifo(fates) && f != Consumed
    ensures Fifo(fates + [f])
  {
  }

  lemma PublishedAccounted(w: Watch, ev: AgentEvent)
    requires Accounted(w)
    ensures Accounted(Published(w, ev))
  {
    var f := if |w.buf| < CAPACITY then Buffered else Dropped;
    FifoGrows(w.fates, f);
    AddFate(w.published, w.fates, ev, f, Consumed);
    AddFate(w.published, w.fates, ev, f, Buffered);
  }

  lemma DeliveredAccounted(w: Watch, ok: bool)
    requires Accounted(w) && w.buf != [] && Buffered in w.fates
    ensures Accounted(Delivered(w, ok))
  {
    var i := FirstBuffered(w.fates);
    TakeFirst(w.published, w.fates, i);
    var rest := Picked(w.published, w.fates[i := Consumed], Buffered);
    assert w.buf == [w.published[i]] + rest;
    assert w.buf[0] == w.published[i] && w.buf[1..] == rest;
  }

  lemma DeliveredSent(initial: AgentEvent, w: Watch, ok: bool)
    requires SentOk(initial, w) && w.started && !w.finished && w.buf != [] && Buffered in w.fates
    ensures SentOk(initial, Delivered(w, ok))
  {
    var w' := Delivered(w, ok);
    assert w'.consumed[..|w'.consumed| - 1] == w.consumed;
    assert [initial] + (w.consumed + [w.buf[0]]) == ([initial] + w.consumed) + [w.buf[0]];
  }

  lemma OpenedSent(initial: AgentEvent, w: Watch, ok: bool)
    requires SentOk(initial, w) && HasBuffered(w)
    ensures SentOk(initial, Act(initial, w, Opening(ok)))
  {
    assert [initial] + [] == [initial];
  }

  lemma PublicationKeeps(initial: AgentEvent, w: Watch, ev: AgentEvent)
    requires WatchOk(initial, w) && HasBuffered(w)
    ensures WatchOk(initial, Act(initial, w, Publication(ev)))
  {
    PublishedAccounted(w, ev);
  }

  lemma DeliveryKeeps(initial: AgentEvent, w: Watch, ok: bool)
    requires WatchOk(initial, w) && HasBuffered(w)
    ensures WatchOk(initial, Act(initial, w, Delivery(ok)))
  {
    if w.started && !w.finished && w.buf != [] {
      DeliveredAccounted(w, ok);
      DeliveredSent(initial, w, ok);
    }
  }

  lemma ActKeeps(initial: AgentEvent, w: Watch, act: Action)
    requires WatchOk(initial, w)
    ensures HasBuffered(w) && WatchOk(initial, Act(initial, w, act))
  {
    BufferedThere(w);
    match act
    case Publication(ev) => PublicationKeeps(initial, w, ev);
    case Opening(ok) => OpenedSent(initial, w, ok);
    case Delivery(ok) => DeliveryKeeps(initial, w, ok);
    case _ =>
  }

  ghost predicate Acts(initial: AgentEvent, w: Watch, act: Action, w': Watch) {
    HasBuffered(w) && w' == Act(initial, w, act)
  }

  /** The states a stream goes through under any sequence of actions. */
  ghost predicate WatchRun(initial: AgentEvent, acts: seq<Action>, states: seq<Watch>) {
    && |states| == |acts| + 1 && states[0] == SNAPSHOT
    && forall i | 0 <= i < |acts| :: Acts(initial, states[i], acts[i], states[i + 1])
  }

  lemma {:induction false} WatchRunIsOk(initial: AgentEvent, acts: seq<Action>, states: seq<Watch>, i: nat)
    requires WatchRun(initial, acts, states) && i < |states|
    ensures WatchOk(initial, states[i])
  {
    if i > 0 {
      WatchRunIsOk(initial, acts, states, i - 1);
      assert Acts(initial, states[i - 1], acts[i - 1], states[i]);
      ActKeeps(initial, states[i - 1], acts[i - 1]);
    }
  }

  /** How often each event was published and met the fate. */
  function Counted(evs: seq<AgentEvent>, fates: seq<Fate>, fate: Fate): multiset<AgentEvent>
    requires |evs| == |fates|
  {
    multiset(Picked(evs, fates, fate))
  }

  lemma CountedSnoc(evs: seq<AgentEvent>, fates: seq<Fate>, fate: Fate)
    requires |evs| == |fates| && evs != []
    ensures
      var n := |evs| - 1;
      Counted(evs, fates, fate)
      == Counted(evs[..n], fates[..n], fate) + if fates[n] == fate then multiset{evs[n]} else multiset{}
  {
  }

  lemma MultisetSnoc(evs: seq<AgentEvent>)
    requires evs != []
    ensures multiset(evs) == multiset(evs[..|evs| - 1]) + multiset{evs[|evs| - 1]}
  {
    assert evs == evs[..|evs| - 1] + [evs[|evs| - 1]];
  }

  /** An event is published as often as it was taken, is waiting and was dropped, together. */
  lemma {:induction false} PartitionAt(evs: seq<AgentEvent>, fates: seq<Fate>, ev: AgentEvent)
    requires |evs| == |fates|
    ensures multiset(evs)[ev]
            == Counted(evs, fates, Consumed)[ev] + Counted(evs, fates, Buffered)[ev] + Counted(evs, fates, Dropped)[ev]
  {
    if evs != [] {
      var n := |evs| - 1;
      PartitionAt(evs[..n], fates[..n], ev);
      CountedSnoc(evs, fates, Consumed);
      CountedSnoc(evs, fates, Buffered);
      CountedSnoc(evs, fates, Dropped);
      MultisetSnoc(evs);
    }
  }

  lemma Partition(evs: seq<AgentEvent>, fates: seq<Fate>)
    requires |evs| == |fates|
    ensures multiset(evs)
            == Counted(evs, fates, Consumed) + Counted(evs, fates, Buffered) + Counted(evs, fates, Dropped)
  {
    var sum := Counted(evs, fates, Consumed) + Counted(evs, fates, Buffered) + Counted(evs, fates, Dropped);
    forall ev ensures multiset(evs)[ev] == sum[ev] {
      PartitionAt(evs, fates, ev);
    }
  }

  lemma {:induction false} NoDropsNoGaps(evs: seq<AgentEvent>, fates: seq<Fate>)
    requires |evs| == |fates| && Fifo(fates) && Dropped !in fates
    ensures evs == Picked(evs, fates, Consumed) + Picked(evs, fates, Buffered)
  {
    if evs != [] {
      var n := |evs| - 1;
      NoDropsNoGaps(evs[..n], fates[..n]);
      assert evs == evs[..n] + [evs[n]];
      assert fates[n] == Consumed || fates[n] == Buffered;
      if fates[n] == Consumed {
        NoneLeft(evs[..n], fates[..n], Buffered);
      }
    }
  }

  /**
   * What a watch delivers, whatever the interleaving: the snapshot, then the events taken so far
   * in the order of publication (all but a last one whose sending failed), a STOPPED at most once
   * and at the end.
   */
  lemma WatchDelivers(initial: AgentEvent, acts: seq<Action>, states: seq<Watch>, w: Watch)
    requires WatchRun(initial, acts, states) && w == states[|acts|] && initial.kind == StatusChanged
    ensures |w.fates| == |w.published| && (w.failed ==> w.consumed != [])
    ensures w.started ==>
              w.sent == [initial] + (if w.failed then w.consumed[..|w.consumed| - 1] else w.consumed)
    ensures w.consumed == Picked(w.published, w.fates, Consumed)
    ensures forall i | 0 <= i < |w.sent| - 1 :: w.sent[i].kind != AgentStopped
    ensures w.sent != [] && w.sent[|w.sent| - 1].kind == AgentStopped ==> w.finished
  {
    WatchRunIsOk(initial, acts, states, |acts|);
  }

  /** Every event published since has been taken, is waiting or was dropped, exactly once; at most 32 wait. */
  lemma EveryEventAccountedFor(initial: AgentEvent, acts: seq<Action>, states: seq<Watch>, w: Watch)
    requires WatchRun(initial, acts, states) && w == states[|acts|]
    ensures |w.fates| == |w.published| && |w.buf| <= 32
    ensures multiset(w.published) ==
            multiset(w.consumed) + multiset(w.buf) + Counted(w.published, w.fates, Dropped)
  {
    WatchRunIsOk(initial, acts, states, |acts|);
    assert multiset(w.consumed) == Counted(w.published, w.fates, Consumed);
    assert multiset(w.buf) == Counted(w.published, w.fates, Buffered);
    Partition(w.published, w.fates);
  }

  /** No publication of the run found 32 events waiting. */
  ghost predicate Uncrowded(acts: seq<Action>, states: seq<Watch>, n: nat)
    requires n <= |acts| < |states|
  {
    forall i | 0 <= i < n && acts[i].Publication? && states[i].subscribed :: |states[i].buf| < 32
  }

  lemma DropsSeen(initial: AgentEvent, w: Watch, act: Action)
    requires WatchOk(initial, w) && HasBuffered(w)
    ensures Dropped in Act(initial, w, act).fates
            <==> Dropped in w.fates || (act.Publication? && w.subscribed && |w.buf| == CAPACITY)
  {
    match act
    case Publication(ev) =>
      if w.subscribed {
        var f := if |w.buf| < CAPACITY then Buffered else Dropped;
        assert (w.fates + [f])[|w.fates|] == f;
      }
    case Delivery(ok) =>
      if w.started && !w.finished && w.buf != [] {
        var i := FirstBuffered(w.fates);
        var fates' := w.fates[i := Consumed];
        if Dropped in w.fates {
          var j :| 0 <= j < |w.fates| && w.fates[j] == Dropped;
          assert fates'[j] == Dropped;
        }
      }
    case _ =>
  }

  /** Something is dropped if and only if some publication found the channel full. */
  lemma {:induction false} DropsIffCrowded(initial: AgentEvent, acts: seq<Action>, states: seq<Watch>, n: nat)
    requires WatchRun(initial, acts, states) && n <= |acts|
    ensures Dropped !in states[n].fates <==> Uncrowded(acts, states, n)
  {
    if n > 0 {
      DropsIffCrowded(initial, acts, states, n - 1);
      WatchRunIsOk(initial, acts, states, n - 1);
      assert Acts(initial, states[n - 1], acts[n - 1], states[n]);
      DropsSeen(initial, states[n - 1], acts[n - 1]);
    }
  }

  /**
   * If no publication found 32 events waiting, nothing published since the subscription is lost:
   * the stream has taken exactly the first of those events, and if it ended with a STOPPED that is
   * the first one among them.
   */
  lemma NothingLostUnlessFull(initial: AgentEvent, acts: seq<Action>, states: seq<Watch>, w: Watch)
    requires WatchRun(initial, acts, states) && w == states[|acts|] && Uncrowded(acts, states, |acts|)
    ensures w.published == w.consumed + w.buf
    ensures w.consumed != [] && w.consumed[|w.consumed| - 1].kind == AgentStopped ==>
              forall i | 0 <= i < |w.consumed| - 1 :: w.published[i].kind != AgentStopped
  {
    WatchRunIsOk(initial, acts, states, |acts|);
    DropsIffCrowded(initial, acts, states, |acts|);
    NoDropsNoGaps(w.published, w.fates);
  }

  /** No publication of the run came before the stream had subscribed. */
  ghost predicate JoinedInTime(acts: seq<Action>, states: seq<Watch>, n: nat)
    requires n <= |acts| < |states|
  {
    forall i | 0 <= i < n && acts[i].Publication? :: states[i].joined
  }

  lemma MissedStep(initial: AgentEvent, w: Watch, act: Action)
    requires WatchOk(initial, w) && HasBuffered(w)
    ensures
      Act(initial, w, act).missed ==
      if act.Publication? && !w.joined then w.missed + [act.ev] else w.missed
  {
  }

  lemma {:induction false} MissedIffLate(initial: AgentEvent, acts: seq<Action>, states: seq<Watch>, n: nat)
    requires WatchRun(initial, acts, states) && n <= |acts|
    ensures states[n].missed == [] <==> JoinedInTime(acts, states, n)
  {
    if n > 0 {
      MissedIffLate(initial, acts, states, n - 1);
      WatchRunIsOk(initial, acts, states, n - 1);
      assert Acts(initial, states[n - 1], acts[n - 1], states[n]);
      MissedStep(initial, states[n - 1], acts[n - 1]);
    }
  }

  lemma {:induction false} DroppedPicked(evs: seq<AgentEvent>, fates: seq<Fate>)
    requires |evs| == |fates| && Dropped in fates
    ensures Picked(evs, fates, Dropped) != []
  {
    var n := |evs| - 1;
    if fates[n] != Dropped {
      DroppedPicked(evs[..n], fates[..n]);
    }
  }

  /** The lengths tell whether anything published since the snapshot is neither taken nor waiting. */
  lemma LengthsTell(initial: AgentEvent, acts: seq<Action>, states: seq<Watch>, w: Watch)
    requires WatchRun(initial, acts, states) && w == states[|acts|]
    requires |w.missed + w.published| == |w.consumed + w.buf|
    ensures w.missed == [] && Dropped !in w.fates
  {
    EveryEventAccountedFor(initial, acts, states, w);
    assert |multiset(w.published)| == |w.published| && |multiset(w.consumed)| == |w.consumed|;
    assert |multiset(w.buf)| == |w.buf|;
    if Dropped in w.fates {
      DroppedPicked(w.published, w.fates);
    }
  }

  /**
   * When a watch loses nothing, exactly: what was published since its snapshot is what it took and
   * what waits for it, in order, if and only if it had subscribed before the first publication and
   * no publication found 32 events waiting.
   */
  lemma NothingLostIff(initial: AgentEvent, acts: seq<Action>, states: seq<Watch>, w: Watch)
    requires WatchRun(initial, acts, states) && w == states[|acts|]
    ensures w.missed + w.published == w.consumed + w.buf
            <==> JoinedInTime(acts, states, |acts|) && Uncrowded(acts, states, |acts|)
  {
    MissedIffLate(initial, acts, states, |acts|);
    DropsIffCrowded(initial, acts, states, |acts|);
    if w.missed + w.published == w.consumed + w.buf {
      LengthsTell(initial, acts, states, w);
    }
    if w.missed == [] && Dropped !in w.fates {
      NothingLostUnlessFull(initial, acts, states, w);
      assert [] + w.published == w.published;
    }
  }

  // ---------------------------------------------------------------------------------------------
  // Progress and ends
  // ---------------------------------------------------------------------------------------------

  /** The stream has sent its snapshot and goes on. */
  predicate Open(w: Watch) {
    w.joined && w.subscribed && w.started && !w.finished
  }

  /** `k` times the stream takes what is next and sends it. */
  ghost function Deliver(initial: AgentEvent, w: Watch, k: nat): Watch
    requires WatchOk(initial, w)
    decreases k
  {
    if k == 0 then w
    else
      ActKeeps(initial, w, Delivery(true));
      Deliver(initial, Act(initial, w, Delivery(true)), k - 1)
  }

  /** No STOPPED among the first `k`. */
  predicate Quiet(evs: seq<AgentEvent>, k: nat)
    requires k <= |evs|
  {
    forall i | 0 <= i < k :: evs[i].kind != AgentStopped
  }

  lemma FirstIsSent(initial: AgentEvent, w: Watch)
    requires WatchOk(initial, w) && Open(w) && w.buf != []
    ensures HasBuffered(w)
    ensures
      var w' := Act(initial, w, Delivery(true));
      && WatchOk(initial, w') && w'.sent == w.sent + [w.buf[0]] && w'.buf == w.buf[1..] && !w'.failed
      && (w'.finished <==> w.buf[0].kind == AgentStopped) && w'.joined && w'.subscribed && w'.started
  {
    ActKeeps(initial, w, Delivery(true));
  }

  lemma SentInFront(sent: seq<AgentEvent>, buf: seq<AgentEvent>, k: nat)
    requires 0 < k < |buf|
    ensures (sent + [buf[0]]) + buf[1..][..k] == sent + buf[..k + 1] && buf[1..][k..] == buf[k + 1..]
  {
    assert buf[..k + 1] == [buf[0]] + buf[1..][..k];
  }

  /** What waits is sent, in order, if the client stays; the stream ends with the first STOPPED, and only then. */
  lemma {:induction false} WaitingIsSent(initial: AgentEvent, w: Watch, k: nat)
    requires WatchOk(initial, w) && Open(w) && 0 < k <= |w.buf| && Quiet(w.buf, k - 1)
    ensures
      var w' := Deliver(initial, w, k);
      && w'.sent == w.sent + w.buf[..k] && w'.buf == w.buf[k..] && !w'.failed
      && (w'.finished <==> w.buf[k - 1].kind == AgentStopped)
    decreases k
  {
    FirstIsSent(initial, w);
    var w1 := Act(initial, w, Delivery(true));
    assert Deliver(initial, w, k) == Deliver(initial, w1, k - 1);
    if k == 1 {
      assert w.buf[..1] == [w.buf[0]];
    } else {
      WaitingIsSent(initial, w1, k - 1);
      SentInFront(w.sent, w.buf, k - 1);
    }
  }

  /** An action that ends the stream: a send fails, the client goes away, or a STOPPED is taken. */
  predicate Ends(w: Watch, act: Action) {
    match act
    case Opening(ok) => w.joined && !w.started && !w.finished && !ok
    case Delivery(ok) => w.started && !w.finished && w.buf != [] && (!ok || w.buf[0].kind == AgentStopped)
    case Cancellation => w.started && !w.finished
    case _ => false
  }

  ghost predicate EndedBefore(acts: seq<Action>, states: seq<Watch>, n: nat)
    requires n <= |acts| < |states|
  {
    exists i :: 0 <= i < n && Ends(states[i], acts[i])
  }

  /** What one action changes of the stream's state. */
  ghost predicate TurnsTo(w: Watch, act: Action, w': Watch) {
    && (w'.finished <==> w.finished || Ends(w, act)) && !(w.finished && Ends(w, act))
    && (w'.started <==> w.started || (act == Opening(true) && w.joined && !w.finished))
    && (w'.joined <==> w.joined || act.Subscription?)
    && (w'.subscribed <==> (w.subscribed || (act.Subscription? && !w.joined)) && !(act.Departure? && w.finished))
    && (w.finished ==> w.joined)
  }

  lemma Turns(initial: AgentEvent, w: Watch, act: Action)
    requires WatchOk(initial, w) && HasBuffered(w)
    ensures TurnsTo(w, act, Act(initial, w, act))
  {
  }

  lemma TurnsAt(initial: AgentEvent, acts: seq<Action>, states: seq<Watch>, i: nat)
    requires WatchRun(initial, acts, states) && i < |acts|
    ensures TurnsTo(states[i], acts[i], states[i + 1])
  {
    WatchRunIsOk(initial, acts, states, i);
    assert Acts(initial, states[i], acts[i], states[i + 1]);
    Turns(initial, states[i], acts[i]);
  }

  /** A stream is over exactly if something has ended it, and it can be ended once. */
  lemma {:induction false} FinishedIffEnded(initial: AgentEvent, acts: seq<Action>, states: seq<Watch>, n: nat)
    requires WatchRun(initial, acts, states) && n <= |acts|
    ensures states[n].finished <==> EndedBefore(acts, states, n)
    ensures forall i, j | 0 <= i < j < n && Ends(states[i], acts[i]) :: !Ends(states[j], acts[j])
  {
    if n > 0 {
      FinishedIffEnded(initial, acts, states, n - 1);
      TurnsAt(initial, acts, states, n - 1);
      assert EndedBefore(acts, states, n) <==> EndedBefore(acts, states, n - 1) || Ends(states[n - 1], acts[n - 1]);
    }
  }

  /** Of the first `n` actions one was the sending of the snapshot, and it succeeded. */
  ghost predicate OpenedBefore(acts: seq<Action>, states: seq<Watch>, n: nat)
    requires n <= |acts| < |states|
  {
    exists i :: 0 <= i < n && acts[i] == Opening(true) && states[i].joined && !states[i].finished
  }

  ghost predicate JoinedBefore(acts: seq<Action>, n: nat)
    requires n <= |acts|
  {
    exists i :: 0 <= i < n && acts[i].Subscription?
  }

  ghost predicate DepartedBefore(acts: seq<Action>, states: seq<Watch>, n: nat)
    requires n <= |acts| < |states|
  {
    exists i :: 0 <= i < n && acts[i].Departure? && states[i].finished
  }

  /**
   * It is started from the successful sending of its snapshot on, and subscribed from its
   * subscription on until it departs, which it does only when it is over.
   */
  lemma {:induction false} SubscribedIff(initial: AgentEvent, acts: seq<Action>, states: seq<Watch>, n: nat)
    requires WatchRun(initial, acts, states) && n <= |acts|
    ensures states[n].started <==> OpenedBefore(acts, states, n)
    ensures states[n].joined <==> JoinedBefore(acts, n)
    ensures DepartedBefore(acts, states, n) ==> JoinedBefore(acts, n)
    ensures states[n].subscribed <==> JoinedBefore(acts, n) && !DepartedBefore(acts, states, n)
  {
    if n > 0 {
      SubscribedIff(initial, acts, states, n - 1);
      FinishedIffEnded(initial, acts, states, n - 1);
      TurnsAt(initial, acts, states, n - 1);
      OneMore(acts, states, n);
    }
  }

  lemma OneMore(acts: seq<Action>, states: seq<Watch>, n: nat)
    requires 0 < n <= |acts| < |states|
    ensures
      OpenedBefore(acts, states, n)
      <==> OpenedBefore(acts, states, n - 1)
           || (acts[n - 1] == Opening(true) && states[n - 1].joined && !states[n - 1].finished)
    ensures JoinedBefore(acts, n) <==> JoinedBefore(acts, n - 1) || acts[n - 1].Subscription?
    ensures
      DepartedBefore(acts, states, n)
      <==> DepartedBefore(acts, states, n - 1) || (acts[n - 1].Departure? && states[n - 1].finished)
  {
  }

  /** The events of the publications among the actions. */
  function EventsIn(acts: seq<Action>): seq<AgentEvent> {
    if acts == [] then []
    else
      EventsIn(acts[..|acts| - 1])
      + (if acts[|acts| - 1].Publication? then [acts[|acts| - 1].ev] else [])
  }

  lemma Recorded(initial: AgentEvent, w: Watch, act: Action)
    requires WatchOk(initial, w) && HasBuffered(w) && (w.joined ==> w.subscribed)
    ensures
      var w' := Act(initial, w, act);
      w'.missed + w'.published == w.missed + w.published + if act.Publication? then [act.ev] else []
  {
  }

  /** Until it departs a watch accounts for every publication to its agent since its snapshot. */
  lemma {:induction false} EveryPublicationCounts(initial: AgentEvent, acts: seq<Action>, states: seq<Watch>, n: nat)
    requires WatchRun(initial, acts, states) && n <= |acts| && !DepartedBefore(acts, states, n)
    ensures states[n].missed + states[n].published == EventsIn(acts[..n])
  {
    if n > 0 {
      assert !DepartedBefore(acts, states, n - 1);
      EveryPublicationCounts(initial, acts, states, n - 1);
      SubscribedIff(initial, acts, states, n - 1);
      WatchRunIsOk(initial, acts, states, n - 1);
      assert Acts(initial, states[n - 1], acts[n - 1], states[n]);
      Recorded(initial, states[n - 1], acts[n - 1]);
      assert acts[..n][..n - 1] == acts[..n - 1];
    }
  }

  /**
   * What is published between the snapshot and the subscription is never sent. After a STOPPED in
   * that gap the stream shows the state before the stop and stays open for events that do not come.
   */
  lemma StopInTheGapIsMissed(initial: AgentEvent, ev: AgentEvent)
    requires initial.kind == StatusChanged && ev.kind == AgentStopped
    ensures exists states: seq<Watch> ::
              && WatchRun(initial, [Publication(ev), Subscription, Opening(true)], states)
              && var w := states[3];
                 w.missed == [ev] && w.sent == [initial] && w.buf == [] && w.subscribed && !w.finished
  {
    var acts := [Publication(ev), Subscription, Opening(true)];
    var w1 := Act(initial, SNAPSHOT, acts[0]);
    var w2 := Act(initial, w1, acts[1]);
    var w3 := Act(initial, w2, acts[2]);
    var states := [SNAPSHOT, w1, w2, w3];
    assert Acts(initial, states[0], acts[0], states[1]);
    assert Acts(initial, states[1], acts[1], states[2]);
    assert Acts(initial, states[2], acts[2], states[3]);
    assert WatchRun(initial, acts, states);
  }
}
