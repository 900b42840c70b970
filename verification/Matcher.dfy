/**
 * Partial matching of an expected JSON value against an actual one (internal/runner/evaluator.go):
 * the code's recursion with early returns, its meaning leaf by leaf, and its order properties.
 */
module Matcher {
  import opened JsonTree
  import opened Text

  /** How a value prints under %v; all that is known is that strings print as themselves. */
  type Printer = Json -> string

  ghost predicate Faithful(render: Printer) {
    forall s :: render(Str(s)) == s
  }

  /** The order in which the map found at a path happens to be enumerated. */
  type Order = (Path, set<string>) -> seq<string>

  ghost predicate IsOrder(ord: Order) {
    forall path, keys :: forall k :: k in ord(path, keys) <==> k in keys
  }

  datatype Kind = MissingKey | WantObject | WantArray | TooFewItems | Mismatch

  datatype MatchError = MatchError(path: Path, kind: Kind)

  const TOLERANCE := 0.000_000_001

  function Abs(x: real): real {
    if x < 0.0 then -x else x
  }

  predicate NumericEqual(a: Json, b: Json) {
    a.Num? && b.Num? && Abs(a.n - b.n) < TOLERANCE
  }

  /** Scalars: a literal string against the printed value, a wildcard against anything. */
  predicate ScalarOk(render: Printer, e: Json, a: Json) {
    match e
    case Str(s) => s == "*" || s == render(a)
    case Literal(_) => NumericEqual(e, a)
    case _ => e == a || NumericEqual(e, a)
  }

  // ---------------------------------------------------------------------------------------------
  // The code
  // ---------------------------------------------------------------------------------------------

  /** matchMaps from the keys still to be visited; `e` and `a` are objects. */
  ghost function MatchKeys(ord: Order, render: Printer, path: Path, e: Json, a: Json, keys: seq<string>)
    : Option<MatchError>
    requires IsOrder(ord) && e.Obj? && a.Obj? && forall k | k in keys :: k in e.fields
    decreases e, 0, |keys|
  {
    if keys == [] then None
    else
      var k := keys[0];
      var p := path + [Key(k)];
      if k !in a.fields then Some(MatchError(p, MissingKey))
      else
        var err := MatchValues(ord, render, p, e.fields[k], a.fields[k]);
        if err.Some? then err else MatchKeys(ord, render, path, e, a, keys[1..])
  }

  ghost function MatchItems(ord: Order, render: Printer, path: Path, e: Json, a: Json, i: nat): Option<MatchError>
    requires IsOrder(ord) && e.Arr? && a.Arr? && i <= |e.items| <= |a.items|
    decreases e, 0, |e.items| - i
  {
    if i == |e.items| then None
    else
      var err := MatchValues(ord, render, path + [Index(i)], e.items[i], a.items[i]);
      if err.Some? then err else MatchItems(ord, render, path, e, a, i + 1)
  }

  ghost function MatchValues(ord: Order, render: Printer, path: Path, e: Json, a: Json): Option<MatchError>
    requires IsOrder(ord)
    decreases e, 1, 0
  {
    match e
    case Obj(fields) =>
      if !a.Obj? then Some(MatchError(path, WantObject))
      else MatchKeys(ord, render, path, e, a, ord(path, fields.Keys))
    case Arr(items) =>
      if !a.Arr? then Some(MatchError(path, WantArray))
      else if |a.items| < |items| then Some(MatchError(path, TooFewItems))
      else MatchItems(ord, render, path, e, a, 0)
    case _ => if ScalarOk(render, e, a) then None else Some(MatchError(path, Mismatch))
  }

  // ---------------------------------------------------------------------------------------------
  // Its meaning
  // ---------------------------------------------------------------------------------------------

  /** What a match is, without an order. */
  ghost predicate Matches(render: Printer, e: Json, a: Json) {
    match e
    case Obj(fields) =>
      a.Obj? && forall k | k in fields :: k in a.fields && Matches(render, fields[k], a.fields[k])
    case Arr(items) =>
      a.Arr? && |items| <= |a.items| && forall i | 0 <= i < |items| :: Matches(render, items[i], a.items[i])
    case _ => ScalarOk(render, e, a)
  }

  lemma {:induction false} KeysMeanMatches(ord: Order, render: Printer, path: Path, e: Json, a: Json, keys: seq<string>)
    requires IsOrder(ord) && e.Obj? && a.Obj? && forall k | k in keys :: k in e.fields
    ensures MatchKeys(ord, render, path, e, a, keys).None?
            <==> forall k | k in keys :: k in a.fields && Matches(render, e.fields[k], a.fields[k])
    decreases e, 0, |keys|
  {
    if keys != [] {
      var k := keys[0];
      if k in a.fields {
        MatchMeansMatches(ord, render, path + [Key(k)], e.fields[k], a.fields[k]);
        KeysMeanMatches(ord, render, path, e, a, keys[1..]);
      }
      assert keys == [k] + keys[1..];
    }
  }

  lemma {:induction false} ItemsMeanMatches(ord: Order, render: Printer, path: Path, e: Json, a: Json, i: nat)
    requires IsOrder(ord) && e.Arr? && a.Arr? && i <= |e.items| <= |a.items|
    ensures MatchItems(ord, render, path, e, a, i).None?
            <==> forall k | i <= k < |e.items| :: Matches(render, e.items[k], a.items[k])
    decreases e, 0, |e.items| - i
  {
    if i < |e.items| {
      MatchMeansMatches(ord, render, path + [Index(i)], e.items[i], a.items[i]);
      ItemsMeanMatches(ord, render, path, e, a, i + 1);
    }
  }

  /** The code's answer does not depend on the order in which any map is enumerated. */
  lemma {:induction false} MatchMeansMatches(ord: Order, render: Printer, path: Path, e: Json, a: Json)
    requires IsOrder(ord)
    ensures MatchValues(ord, render, path, e, a).None? <==> Matches(render, e, a)
    decreases e, 1, 0
  {
    match e
    case Obj(fields) =>
      if a.Obj? {
        KeysMeanMatches(ord, render, path, e, a, ord(path, fields.Keys));
      }
    case Arr(items) =>
      if a.Arr? && |items| <= |a.items| {
        ItemsMeanMatches(ord, render, path, e, a, 0);
      }
    case _ =>
  }

  /** Numbers match within a billionth, not at it. */
  lemma NumbersMatchIff(render: Printer, x: real, y: real)
    ensures Matches(render, Num(x), Num(y)) <==> -0.000_000_001 < x - y < 0.000_000_001
  {
  }

  /** So different whole numbers never do. */
  lemma IntegersMatchIff(render: Printer, m: int, n: int)
    ensures Matches(render, Num(m as real), Num(n as real)) <==> m == n
  {
    NumbersMatchIff(render, m as real, n as real);
    assert m as real - n as real == (m - n) as real;
  }

  /**
   * What each other scalar matches: a literal string whatever prints as it does, and "*" anything;
   * the rest only themselves, and a malformed number nothing, not even itself.
   */
  lemma ScalarsMatchIff(render: Printer, e: Json, a: Json)
    requires !e.Obj? && !e.Arr?
    ensures e.Str? ==> (Matches(render, e, a) <==> e.s == "*" || e.s == render(a))
    ensures e.Null? ==> (Matches(render, e, a) <==> a == Null)
    ensures e.Bool? ==> (Matches(render, e, a) <==> a == Bool(e.b))
    ensures e.Literal? ==> !Matches(render, e, a)
    ensures e.Num? && !a.Num? ==> !Matches(render, e, a)
  {
  }

  // ---------------------------------------------------------------------------------------------
  // Errors tell the truth
  // ---------------------------------------------------------------------------------------------

  /** The complaint is justified by what the two values hold at the path named. */
  predicate Justified(render: Printer, e: Json, a: Json, q: Path, kind: Kind) {
    && At(e, q).Some?
    && match kind
       case MissingKey =>
         && q != [] && q[|q| - 1].Key? && At(a, q).None?
         && At(a, q[..|q| - 1]).Some? && At(a, q[..|q| - 1]).value.Obj?
       case WantObject => At(e, q).value.Obj? && At(a, q).Some? && !At(a, q).value.Obj?
       case WantArray => At(e, q).value.Arr? && At(a, q).Some? && !At(a, q).value.Arr?
       case TooFewItems =>
         && At(e, q).value.Arr? && At(a, q).Some? && At(a, q).value.Arr?
         && |At(a, q).value.items| < |At(e, q).value.items|
       case Mismatch =>
         && !At(e, q).value.Obj? && !At(e, q).value.Arr?
         && At(a, q).Some? && !ScalarOk(render, At(e, q).value, At(a, q).value)
  }

  ghost predicate Truthful(render: Printer, path: Path, e: Json, a: Json, err: Option<MatchError>) {
    err.Some? ==> exists q :: err.value.path == path + q && Justified(render, e, a, q, err.value.kind)
  }

  lemma AtBelow(j: Json, step: Step, q: Path)
    requires Child(j, step).Some?
    ensures At(j, [step] + q) == At(Child(j, step).value, q)
  {
    assert ([step] + q)[1..] == q;
  }

  lemma JustifiedBelow(render: Printer, step: Step, e: Json, a: Json, q: Path, kind: Kind)
    requires Child(e, step).Some? && Child(a, step).Some?
    requires Justified(render, Child(e, step).value, Child(a, step).value, q, kind)
    ensures Justified(render, e, a, [step] + q, kind)
  {
    AtBelow(e, step, q);
    AtBelow(a, step, q);
    if kind.MissingKey? {
      AtBelow(a, step, q[..|q| - 1]);
      var full := [step] + q;
      assert full[|full| - 1] == q[|q| - 1] && full[..|full| - 1] == [step] + q[..|q| - 1];
    }
  }

  lemma TruthfulBelow(render: Printer, path: Path, step: Step, e: Json, a: Json, err: Option<MatchError>)
    requires Child(e, step).Some? && Child(a, step).Some?
    requires Truthful(render, path + [step], Child(e, step).value, Child(a, step).value, err)
    ensures Truthful(render, path, e, a, err)
  {
    if err.Some? {
      var q :| err.value.path == path + [step] + q
               && Justified(render, Child(e, step).value, Child(a, step).value, q, err.value.kind);
      JustifiedBelow(render, step, e, a, q, err.value.kind);
      assert path + ([step] + q) == path + [step] + q;
    }
  }

  lemma {:induction false} KeysTruthful(ord: Order, render: Printer, path: Path, e: Json, a: Json, keys: seq<string>)
    requires IsOrder(ord) && e.Obj? && a.Obj? && forall k | k in keys :: k in e.fields
    ensures Truthful(render, path, e, a, MatchKeys(ord, render, path, e, a, keys))
    decreases e, 0, |keys|
  {
    if keys != [] {
      var k := keys[0];
      if k in a.fields {
        ErrorsTruthful(ord, render, path + [Key(k)], e.fields[k], a.fields[k]);
        TruthfulBelow(render, path, Key(k), e, a, MatchValues(ord, render, path + [Key(k)], e.fields[k], a.fields[k]));
        KeysTruthful(ord, render, path, e, a, keys[1..]);
      } else {
        assert At(e.fields[k], []).Some? && [Key(k)][1..] == [];
        assert Justified(render, e, a, [Key(k)], MissingKey);
      }
    }
  }

  lemma {:induction false} ItemsTruthful(ord: Order, render: Printer, path: Path, e: Json, a: Json, i: nat)
    requires IsOrder(ord) && e.Arr? && a.Arr? && i <= |e.items| <= |a.items|
    ensures Truthful(render, path, e, a, MatchItems(ord, render, path, e, a, i))
    decreases e, 0, |e.items| - i
  {
    if i < |e.items| {
      ErrorsTruthful(ord, render, path + [Index(i)], e.items[i], a.items[i]);
      TruthfulBelow(render, path, Index(i), e, a, MatchValues(ord, render, path + [Index(i)], e.items[i], a.items[i]));
      ItemsTruthful(ord, render, path, e, a, i + 1);
    }
  }

  /**
   * Whatever the enumeration order, the error reported names a path below the starting one at
   * which the complaint is true of the two values.
   */
  lemma {:induction false} ErrorsTruthful(ord: Order, render: Printer, path: Path, e: Json, a: Json)
    requires IsOrder(ord)
    ensures Truthful(render, path, e, a, MatchValues(ord, render, path, e, a))
    decreases e, 1, 0
  {
    var err := MatchValues(ord, render, path, e, a);
    if err.Some? && err.value.path == path {
      assert path + [] == path;
    }
    if e.Obj? && a.Obj? {
      KeysTruthful(ord, render, path, e, a, ord(path, e.fields.Keys));
    } else if e.Arr? && a.Arr? && |e.items| <= |a.items| {
      ItemsTruthful(ord, render, path, e, a, 0);
    } else if err.Some? {
      assert Justified(render, e, a, [], err.value.kind);
    }
  }

  // ---------------------------------------------------------------------------------------------
  // Leaf by leaf
  // ---------------------------------------------------------------------------------------------

  /** A scalar or an empty container. */
  predicate IsLeaf(j: Json) {
    match j
    case Obj(fields) => fields == map[]
    case Arr(items) => items == []
    case _ => true
  }

  predicate LeafOk(render: Printer, e: Json, a: Json) {
    match e
    case Obj(_) => a.Obj?
    case Arr(_) => a.Arr?
    case _ => ScalarOk(render, e, a)
  }

  ghost predicate LeafFound(render: Printer, e: Json, a: Json, path: Path) {
    At(e, path).Some? && IsLeaf(At(e, path).value) ==>
      At(a, path).Some? && LeafOk(render, At(e, path).value, At(a, path).value)
  }

  lemma {:induction false} SomeLeaf(j: Json) returns (path: Path)
    ensures At(j, path).Some? && IsLeaf(At(j, path).value)
  {
    match j
    case Obj(fields) =>
      if fields == map[] {
        path := [];
      } else {
        var k :| k in fields;
        var q := SomeLeaf(fields[k]);
        path := [Key(k)] + q;
        assert path[1..] == q;
      }
    case Arr(items) =>
      if items == [] {
        path := [];
      } else {
        var q := SomeLeaf(items[|items| - 1]);
        path := [Index(|items| - 1)] + q;
        assert path[1..] == q;
      }
    case _ => path := [];
  }

  lemma LeafBelow(render: Printer, e: Json, a: Json, step: Step, path: Path)
    requires LeafFound(render, e, a, [step] + path) && Child(e, step).Some?
    requires At(Child(e, step).value, path).Some? && IsLeaf(At(Child(e, step).value, path).value)
    ensures Child(a, step).Some? && LeafFound(render, Child(e, step).value, Child(a, step).value, path)
  {
    assert ([step] + path)[1..] == path;
  }

  lemma ChildLeaves(render: Printer, e: Json, a: Json, step: Step)
    requires forall path :: LeafFound(render, e, a, path)
    requires Child(e, step).Some?
    ensures Child(a, step).Some? && forall path :: LeafFound(render, Child(e, step).value, Child(a, step).value, path)
  {
    var some := SomeLeaf(Child(e, step).value);
    assert LeafFound(render, e, a, [step] + some);
    LeafBelow(render, e, a, step, some);
    forall path ensures LeafFound(render, Child(e, step).value, Child(a, step).value, path) {
      if At(Child(e, step).value, path).Some? && IsLeaf(At(Child(e, step).value, path).value) {
        assert LeafFound(render, e, a, [step] + path);
        LeafBelow(render, e, a, step, path);
      }
    }
  }

  lemma {:induction false} MatchesFindsLeaf(render: Printer, e: Json, a: Json, path: Path)
    requires Matches(render, e, a)
    ensures LeafFound(render, e, a, path)
    decreases |path|
  {
    if path != [] && Child(e, path[0]).Some? {
      assert Child(a, path[0]).Some?;
      MatchesFindsLeaf(render, Child(e, path[0]).value, Child(a, path[0]).value, path[1..]);
    }
  }

  lemma {:induction false} LeavesMakeMatch(render: Printer, e: Json, a: Json)
    requires forall path :: LeafFound(render, e, a, path)
    ensures Matches(render, e, a)
    decreases e
  {
    assert LeafFound(render, e, a, []);
    match e
    case Obj(fields) =>
      forall k | k in fields ensures a.Obj? && k in a.fields && Matches(render, fields[k], a.fields[k]) {
        ChildLeaves(render, e, a, Key(k));
        LeavesMakeMatch(render, fields[k], a.fields[k]);
      }
      if fields != map[] {
        var k :| k in fields;
        ChildLeaves(render, e, a, Key(k));
      }
    case Arr(items) =>
      forall i | 0 <= i < |items| ensures a.Arr? && i < |a.items| && Matches(render, items[i], a.items[i]) {
        ChildLeaves(render, e, a, Index(i));
        LeavesMakeMatch(render, items[i], a.items[i]);
      }
      if items != [] {
        ChildLeaves(render, e, a, Index(|items| - 1));
      }
    case _ =>
  }

  /**
   * The pathwise meaning of a match, for every enumeration order of every map: it succeeds if and
   * only if each leaf of the expected value is present in the actual one with a matching value.
   */
  lemma MatchIsPathwise(ord: Order, render: Printer, e: Json, a: Json)
    requires IsOrder(ord)
    ensures MatchValues(ord, render, [], e, a).None? <==> forall path :: LeafFound(render, e, a, path)
  {
    MatchMeansMatches(ord, render, [], e, a);
    if Matches(render, e, a) {
      forall path ensures LeafFound(render, e, a, path) {
        MatchesFindsLeaf(render, e, a, path);
      }
    }
    if forall path :: LeafFound(render, e, a, path) {
      LeavesMakeMatch(render, e, a);
    }
  }

  // ---------------------------------------------------------------------------------------------
  // Matching as an order
  // ---------------------------------------------------------------------------------------------

  /** No json.Number that is not a number. */
  ghost predicate NumbersParse(j: Json) {
    match j
    case Literal(_) => false
    case Obj(fields) => forall k | k in fields :: NumbersParse(fields[k])
    case Arr(items) => forall i | 0 <= i < |items| :: NumbersParse(items[i])
    case _ => true
  }

  /** A value matches itself exactly if it holds no malformed number. */
  lemma {:induction false} ReflexiveIffNumbersParse(render: Printer, j: Json)
    requires Faithful(render)
    ensures Matches(render, j, j) <==> NumbersParse(j)
  {
    match j
    case Obj(fields) =>
      forall k | k in fields ensures Matches(render, fields[k], fields[k]) <==> NumbersParse(fields[k]) {
        ReflexiveIffNumbersParse(render, fields[k]);
      }
    case Arr(items) =>
      forall i | 0 <= i < |items| ensures Matches(render, items[i], items[i]) <==> NumbersParse(items[i]) {
        ReflexiveIffNumbersParse(render, items[i]);
      }
    case Str(s) => assert render(Str(s)) == s;
    case _ =>
  }

  function Times(k: int, d: real): real {
    k as real * d
  }

  /** A multiple of `d`; with 1.0 the integers. */
  ghost predicate OnGrid(x: real, d: real) {
    exists k: int :: x == Times(k, d)
  }

  ghost predicate AllOnGrid(j: Json, d: real) {
    match j
    case Num(n) => OnGrid(n, d)
    case Obj(fields) => forall k | k in fields :: AllOnGrid(fields[k], d)
    case Arr(items) => forall i | 0 <= i < |items| :: AllOnGrid(items[i], d)
    case _ => true
  }

  /** Where `e` has a literal string, `b` has no number and no container. */
  ghost predicate TextMeetsPlain(e: Json, b: Json) {
    match e
    case Str(s) => s == "*" || b.Str? || b.Bool? || b.Null?
    case Obj(fields) => b.Obj? ==> forall k | k in fields && k in b.fields :: TextMeetsPlain(fields[k], b.fields[k])
    case Arr(items) => b.Arr? ==> forall i | 0 <= i < |items| && i < |b.items| :: TextMeetsPlain(items[i], b.items[i])
    case _ => true
  }

  lemma Spacing(k: int, m: int, d: real)
    requires d > 0.0 && k != m
    ensures Abs(Times(k, d) - Times(m, d)) >= d
  {
    var gap := k as real - m as real;
    assert Times(k, d) - Times(m, d) == gap * d;
    if gap >= 1.0 {
      assert (gap - 1.0) * d >= 0.0;
    } else {
      assert gap <= -1.0;
      assert (-gap - 1.0) * d >= 0.0;
    }
  }

  /** On a grid at least as wide as the tolerance only equal numbers are near. */
  lemma NearOnGridIsEqual(x: real, y: real, d: real)
    requires d >= TOLERANCE && OnGrid(x, d) && OnGrid(y, d) && Abs(x - y) < TOLERANCE
    ensures x == y
  {
    var k: int :| x == Times(k, d);
    var m: int :| y == Times(m, d);
    if k != m {
      Spacing(k, m, d);
    }
  }

  /** On such a grid, with no literal string met by a number or a container, matching is transitive. */
  lemma {:induction false} Transitive(render: Printer, d: real, e: Json, b: Json, c: Json)
    requires Faithful(render) && Matches(render, e, b) && Matches(render, b, c)
    requires d >= 0.000_000_001 && AllOnGrid(e, d) && AllOnGrid(b, d) && AllOnGrid(c, d) && TextMeetsPlain(e, b)
    ensures Matches(render, e, c)
    decreases e
  {
    match e
    case Obj(fields) =>
      forall k | k in fields ensures k in c.fields && Matches(render, fields[k], c.fields[k]) {
        Transitive(render, d, fields[k], b.fields[k], c.fields[k]);
      }
    case Arr(items) =>
      forall i | 0 <= i < |items| ensures Matches(render, items[i], c.items[i]) {
        Transitive(render, d, items[i], b.items[i], c.items[i]);
      }
    case Str(s) =>
      if s != "*" {
        assert if b.Str? then render(b) == b.s == s else b == c;
      }
    case Num(n) =>
      NearOnGridIsEqual(n, b.n, d);
    case _ =>
  }

  /** The largest number of steps of width `d` that stays within the tolerance. */
  lemma StepsWithinTolerance(d: real) returns (n: nat)
    requires 0.0 < d < TOLERANCE
    ensures n >= 1 && Times(n, d) < TOLERANCE <= Times(n + 1, d)
  {
    n := (TOLERANCE / d).Floor;
    assert Times(n, d) <= TOLERANCE < Times(n + 1, d);
    if Times(n, d) == TOLERANCE {
      n := n - 1;
      assert Times(n, d) == TOLERANCE - d;
    }
  }

  lemma Doubled(n: nat, d: real)
    requires n >= 1 && d > 0.0
    ensures Times(0, d) == 0.0 && Times(2 * n, d) == Times(n, d) + Times(n, d) >= Times(n + 1, d)
  {
    assert Times(n, d) >= d by {
      assert (n - 1) as real * d >= 0.0;
    }
  }

  /** On a finer grid the tolerance adds up: two near steps lead out of it. */
  lemma FineGridIsNotTransitive(render: Printer, d: real) returns (x: Json, y: Json, z: Json)
    requires 0.0 < d < 0.000_000_001
    ensures AllOnGrid(x, d) && AllOnGrid(y, d) && AllOnGrid(z, d) && TextMeetsPlain(x, y)
    ensures Matches(render, x, y) && Matches(render, y, z) && !Matches(render, x, z)
  {
    var n := StepsWithinTolerance(d);
    Doubled(n, d);
    assert OnGrid(Times(0, d), d) && OnGrid(Times(n, d), d) && OnGrid(Times(2 * n, d), d);
    x, y, z := Num(Times(0, d)), Num(Times(n, d)), Num(Times(2 * n, d));
    assert NumericEqual(x, y) && NumericEqual(y, z) && !NumericEqual(x, z) && x != z;
  }

  ghost predicate TransitiveOn(render: Printer, d: real) {
    forall e, b, c | AllOnGrid(e, d) && AllOnGrid(b, d) && AllOnGrid(c, d) && TextMeetsPlain(e, b) ::
      Matches(render, e, b) && Matches(render, b, c) ==> Matches(render, e, c)
  }

  /**
   * When the numeric tolerance is harmless: on data whose numbers are multiples of `d`, matching is
   * transitive if and only if `d` is at least a billionth.
   */
  lemma TransitiveIffGridIsWide(render: Printer, d: real)
    requires Faithful(render) && d > 0.0
    ensures TransitiveOn(render, d) <==> d >= 0.000_000_001
  {
    if d >= TOLERANCE {
      forall e, b, c | AllOnGrid(e, d) && AllOnGrid(b, d) && AllOnGrid(c, d) && TextMeetsPlain(e, b)
        ensures Matches(render, e, b) && Matches(render, b, c) ==> Matches(render, e, c)
      {
        if Matches(render, e, b) && Matches(render, b, c) {
          Transitive(render, d, e, b, c);
        }
      }
    } else {
      var x, y, z := FineGridIsNotTransitive(render, d);
      assert !(Matches(render, x, y) && Matches(render, y, z) ==> Matches(render, x, z));
    }
  }

  /** `b` has everything `a` has, and maybe more keys or more items at the end, at any depth. */
  ghost predicate Extends(a: Json, b: Json) {
    match a
    case Obj(fields) => b.Obj? && forall k | k in fields :: k in b.fields && Extends(fields[k], b.fields[k])
    case Arr(items) =>
      b.Arr? && |items| <= |b.items| && forall i | 0 <= i < |items| :: Extends(items[i], b.items[i])
    case _ => a == b
  }

  /** Where `e` has a literal string, `a` has no container: its %v form would change as it grows. */
  ghost predicate TextMeetsScalars(e: Json, a: Json) {
    match e
    case Str(s) => s == "*" || (!a.Obj? && !a.Arr?)
    case Obj(fields) => a.Obj? ==> forall k | k in fields && k in a.fields :: TextMeetsScalars(fields[k], a.fields[k])
    case Arr(items) =>
      a.Arr? ==> forall i | 0 <= i < |items| && i < |a.items| :: TextMeetsScalars(items[i], a.items[i])
    case _ => true
  }

  /** A match survives any extension of the actual value. */
  lemma {:induction false} MatchSurvivesExtension(render: Printer, e: Json, a: Json, b: Json)
    requires Matches(render, e, a) && Extends(a, b) && TextMeetsScalars(e, a)
    ensures Matches(render, e, b)
    decreases e
  {
    match e
    case Obj(fields) =>
      forall k | k in fields ensures k in b.fields && Matches(render, fields[k], b.fields[k]) {
        MatchSurvivesExtension(render, fields[k], a.fields[k], b.fields[k]);
      }
    case Arr(items) =>
      forall i | 0 <= i < |items| ensures Matches(render, items[i], b.items[i]) {
        MatchSurvivesExtension(render, items[i], a.items[i], b.items[i]);
      }
    case _ =>
  }

  /** One null more shows: as in the %v form of Go, where it makes the text longer. */
  ghost predicate PrintsNulls(render: Printer) {
    && (forall items :: render(Arr(items + [Null])) != render(Arr(items)))
    && (forall fields: map<string, Json>, k | k !in fields :: render(Obj(fields[k := Null])) != render(Obj(fields)))
  }

  lemma {:induction false} ExtendsSelf(a: Json)
    ensures Extends(a, a)
  {
    match a
    case Obj(fields) =>
      forall k | k in fields ensures Extends(fields[k], fields[k]) {
        ExtendsSelf(fields[k]);
      }
    case Arr(items) =>
      forall i | 0 <= i < |items| ensures Extends(items[i], items[i]) {
        ExtendsSelf(items[i]);
      }
    case _ =>
  }

  /** A container with one null more, which prints differently. */
  lemma Grown(render: Printer, a: Json) returns (b: Json)
    requires PrintsNulls(render) && (a.Obj? || a.Arr?)
    ensures Extends(a, b) && render(b) != render(a)
  {
    ExtendsSelf(a);
    match a
    case Obj(fields) =>
      var k := NameOutside(fields.Keys);
      b := Obj(fields[k := Null]);
    case Arr(items) =>
      b := Arr(items + [Null]);
  }

  lemma GrowthBreaksText(render: Printer, s: string, a: Json) returns (b: Json)
    requires PrintsNulls(render) && Matches(render, Str(s), a) && !TextMeetsScalars(Str(s), a)
    ensures Extends(a, b) && !Matches(render, Str(s), b)
  {
    b := Grown(render, a);
  }

  lemma ExtendsAt(a: Json, step: Step, child: Json) returns (b: Json)
    requires Child(a, step).Some? && Extends(Child(a, step).value, child)
    ensures Extends(a, b) && Child(b, step) == Some(child)
  {
    match a
    case Obj(fields) =>
      b := Obj(fields[step.key := child]);
      forall k | k in fields ensures Extends(fields[k], b.fields[k]) {
        if k != step.key {
          ExtendsSelf(fields[k]);
        }
      }
    case Arr(items) =>
      b := Arr(items[step.index := child]);
      forall i | 0 <= i < |items| ensures Extends(items[i], b.items[i]) {
        if i != step.index {
          ExtendsSelf(items[i]);
        }
      }
  }

  /** A literal string that matched the printed form of a container no longer does once that grows. */
  lemma {:induction false} ExtensionBreaks(render: Printer, e: Json, a: Json) returns (b: Json)
    requires PrintsNulls(render) && Matches(render, e, a) && !TextMeetsScalars(e, a)
    ensures Extends(a, b) && !Matches(render, e, b)
    decreases e
  {
    match e
    case Str(s) =>
      b := GrowthBreaksText(render, s, a);
    case Obj(fields) =>
      var k :| k in fields && k in a.fields && !TextMeetsScalars(fields[k], a.fields[k]);
      var child := ExtensionBreaks(render, fields[k], a.fields[k]);
      b := ExtendsAt(a, Key(k), child);
    case Arr(items) =>
      var i :| 0 <= i < |items| && i < |a.items| && !TextMeetsScalars(items[i], a.items[i]);
      var child := ExtensionBreaks(render, items[i], a.items[i]);
      b := ExtendsAt(a, Index(i), child);
  }

  /**
   * Exactly when a match survives every growth of the actual value: when no literal string of the
   * expected value was matched against the printed form of a container.
   */
  lemma SurvivesExtensionIffTextMeetsScalars(render: Printer, e: Json, a: Json)
    requires PrintsNulls(render) && Matches(render, e, a)
    ensures (forall b | Extends(a, b) :: Matches(render, e, b)) <==> TextMeetsScalars(e, a)
  {
    if TextMeetsScalars(e, a) {
      forall b | Extends(a, b) ensures Matches(render, e, b) {
        MatchSurvivesExtension(render, e, a, b);
      }
    } else {
      var b := ExtensionBreaks(render, e, a);
    }
  }
}
