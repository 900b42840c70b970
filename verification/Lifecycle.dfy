/** The status histories the lifecycle allows, as a regular language and as a walk. */
module Lifecycle {
  import opened Registry

  /** One status change. */
  predicate Edge(a: Status, b: Status) {
    match a
    case Starting => b == Ready || b == Error
    case Ready => b == Stopping
    case Error => b == Stopping
    case Stopping => b == Stopped
    case Stopped => b == Stopping || b == Ready || b == Error
    case _ => false
  }

  predicate Settled(st: Status) {
    st == Ready || st == Error || st == Stopped
  }

  predicate Up(st: Status) {
    st == Ready || st == Error
  }

  /** STARTING first, then one allowed change after another. */
  ghost predicate Walk(h: seq<Status>) {
    && (h != [] ==> h[0] == Starting)
    && forall i | 0 <= i < |h| - 1 :: Edge(h[i], h[i + 1])
  }

  /** (STOPPING STOPPED (READY|ERROR)?)* */
  predicate Cycles(t: seq<Status>) {
    || t == []
    || (&& |t| >= 2 && t[0] == Stopping && t[1] == Stopped
        && (Cycles(t[2..]) || (|t| >= 3 && Up(t[2]) && Cycles(t[3..]))))
  }

  /** STARTING (READY|ERROR) (STOPPING STOPPED (READY|ERROR)?)* */
  predicate Regular(h: seq<Status>) {
    |h| >= 2 && h[0] == Starting && Up(h[1]) && Cycles(h[2..])
  }

  /** A walk continued from `from` to a settled end, seen as cycles. */
  lemma {:induction false} ContinuationIsCycles(from: Status, t: seq<Status>)
    requires Settled(from)
    requires t != [] ==> Edge(from, t[0]) && Settled(t[|t| - 1])
    requires forall i | 0 <= i < |t| - 1 :: Edge(t[i], t[i + 1])
    ensures Up(from) ==> Cycles(t)
    ensures from == Stopped ==> Cycles(t) || (Up(t[0]) && Cycles(t[1..]))
    decreases |t|
  {
    if t != [] {
      if from == Stopped && Up(t[0]) {
        ContinuationIsCycles(t[0], t[1..]);
      } else {
        assert t[0] == Stopping && |t| >= 2 && Edge(t[0], t[1]);
        ContinuationIsCycles(Stopped, t[2..]);
        if |t| >= 3 {
          assert t[2..][1..] == t[3..];
        }
      }
    }
  }

  lemma {:induction false} CyclesAreContinuation(from: Status, t: seq<Status>)
    requires Settled(from) && Cycles(t)
    ensures t != [] ==> Edge(from, t[0]) && Settled(t[|t| - 1])
    ensures forall i | 0 <= i < |t| - 1 :: Edge(t[i], t[i + 1])
    decreases |t|
  {
    if t != [] {
      if Cycles(t[2..]) {
        CyclesAreContinuation(Stopped, t[2..]);
        assert forall i | 2 <= i < |t| :: t[i] == t[2..][i - 2];
      } else {
        CyclesAreContinuation(t[2], t[3..]);
        assert forall i | 3 <= i < |t| :: t[i] == t[3..][i - 3];
      }
    }
  }

  /** The walks that end settled are exactly the words of the language. */
  lemma SettledWalksAreRegular(h: seq<Status>)
    ensures h != [] && Walk(h) && Settled(h[|h| - 1]) <==> Regular(h)
  {
    if h != [] && Walk(h) && Settled(h[|h| - 1]) {
      assert |h| >= 2 && Edge(h[0], h[1]);
      ContinuationIsCycles(h[1], h[2..]);
    }
    if Regular(h) {
      CyclesAreContinuation(h[1], h[2..]);
      assert forall i | 2 <= i < |h| :: h[i] == h[2..][i - 2];
    }
  }

  /** A history with one more observation: repetitions are dropped. */
  function Observe(h: seq<Status>, st: Status): seq<Status> {
    if h != [] && h[|h| - 1] == st then h else h + [st]
  }

  lemma ObservationExtendsWalk(h: seq<Status>, st: Status)
    requires Walk(h)
    requires if h == [] then st == Starting else h[|h| - 1] == st || Edge(h[|h| - 1], st)
    ensures Walk(Observe(h, st)) && Observe(h, st) != [] && Observe(h, st)[|Observe(h, st)| - 1] == st
  {
  }
}
