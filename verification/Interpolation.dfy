/**
 * Resolving dotted paths in response data and substituting `$prev.` references in payloads
 * (internal/runner/transport.go).
 */
module Interpolation {
  import opened JsonTree
  import opened Text

  type Printer = Json -> string

  // ---------------------------------------------------------------------------------------------
  // Paths
  // ---------------------------------------------------------------------------------------------

  /** One part of a dotted path; what is not there is null, and below null there is only null. */
  function Follow(j: Json, part: string): Json {
    match j
    case Obj(fields) => if part in fields then fields[part] else Null
    case Arr(items) =>
      var i := Atoi(part);
      if i.None? || i.value < 0 || i.value >= |items| then Null else items[i.value]
    case _ => Null
  }

  function FollowAll(j: Json, parts: seq<string>): Json
    decreases |parts|
  {
    if parts == [] then j else FollowAll(Follow(j, parts[0]), parts[1..])
  }

  function Resolve(data: Json, path: string): Json {
    FollowAll(data, Split(path, '.'))
  }

  lemma {:induction false} NothingBelowNull(parts: seq<string>)
    ensures FollowAll(Null, parts) == Null
  {
    if parts != [] {
      NothingBelowNull(parts[1..]);
    }
  }

  /** The loop of the source, giving up early where it does. */
  method ResolveJSONPath(data: Json, path: string) returns (r: Json)
    ensures r == Resolve(data, path)
  {
    var parts := Split(path, '.');
    var current := data;
    for i := 0 to |parts|
      invariant FollowAll(current, parts[i..]) == Resolve(data, path)
    {
      assert parts[i..][1..] == parts[i + 1..];
      NothingBelowNull(parts[i + 1..]);
      match current {
        case Obj(fields) =>
          current := if parts[i] in fields then fields[parts[i]] else Null;
        case Arr(items) =>
          var idx := Atoi(parts[i]);
          if idx.None? || idx.value < 0 || idx.value >= |items| {
            return Null;
          }
          current := items[idx.value];
        case _ =>
          return Null;
      }
    }
    r := current;
  }

  /** A typed step as a part of a dotted path. */
  function Part(step: Step): string {
    match step
    case Key(k) => k
    case Index(i) => Decimal(i)
  }

  function Parts(path: Path): (parts: seq<string>)
    ensures |parts| == |path|
  {
    if path == [] then [] else [Part(path[0])] + Parts(path[1..])
  }

  /** Keys without dots, positions within the range of an int. */
  predicate Dottable(path: Path) {
    forall i | 0 <= i < |path| ::
      match path[i]
      case Key(k) => '.' !in k
      case Index(n) => n <= MAX_INT
  }

  lemma FollowPart(j: Json, step: Step)
    requires Child(j, step).Some? && (step.Index? ==> step.index <= MAX_INT)
    ensures Follow(j, Part(step)) == Child(j, step).value
  {
    if step.Index? {
      AtoiOfDecimal(step.index);
    }
  }

  lemma DottableRest(path: Path)
    requires Dottable(path) && path != []
    ensures Dottable(path[1..]) && (path[0].Index? ==> path[0].index <= MAX_INT) && '.' !in Part(path[0])
  {
    var rest := path[1..];
    assert forall i | 0 <= i < |rest| :: rest[i] == path[i + 1];
  }

  lemma {:induction false} PartsFollow(j: Json, path: Path)
    requires Dottable(path) && At(j, path).Some?
    ensures FollowAll(j, Parts(path)) == At(j, path).value
    ensures forall p | p in Parts(path) :: '.' !in p
    decreases |path|
  {
    if path != [] {
      DottableRest(path);
      FollowPart(j, path[0]);
      PartsFollow(Child(j, path[0]).value, path[1..]);
      assert Parts(path)[1..] == Parts(path[1..]);
    }
  }

  /** Writing a path with dots and resolving it leads back to the value the path leads to. */
  lemma ResolveWrittenPath(data: Json, path: Path)
    requires path != [] && Dottable(path) && At(data, path).Some?
    ensures Resolve(data, Join(Parts(path), '.')) == At(data, path).value
  {
    PartsFollow(data, path);
    SplitJoin(Parts(path), '.');
  }

  /** A position may be written with a sign or leading zeros; negative ones lead nowhere. */
  lemma PositionRead(items: seq<Json>, part: string, v: int)
    requires Written(part, v)
    ensures Follow(Arr(items), part) == if 0 <= v < |items| then items[v] else Null
  {
    AtoiReads(part, v);
  }

  lemma FollowMissing(j: Json, step: Step)
    requires Child(j, step).None? && (step.Index? ==> step.index <= MAX_INT)
    requires step.Key? ==> Atoi(step.key).None?
    requires step.Index? && j.Obj? ==> Decimal(step.index) !in j.fields
    ensures Follow(j, Part(step)) == Null
  {
    if step.Index? {
      AtoiOfDecimal(step.index);
    }
  }

  /** No key on the way reads as a number, and no position meets an object that has it as a key. */
  ghost predicate Unambiguous(j: Json, path: Path)
    decreases |path|
  {
    path != [] ==>
      && (path[0].Key? ==> Atoi(path[0].key).None?)
      && (path[0].Index? && j.Obj? ==> Decimal(path[0].index) !in j.fields)
      && (Child(j, path[0]).Some? ==> Unambiguous(Child(j, path[0]).value, path[1..]))
  }

  lemma {:induction false} PartsFollowNowhere(j: Json, path: Path)
    requires Dottable(path) && Unambiguous(j, path) && At(j, path).None?
    ensures FollowAll(j, Parts(path)) == Null
    ensures forall p | p in Parts(path) :: '.' !in p
    decreases |path|
  {
    DottableRest(path);
    NoDots(path[1..]);
    assert Parts(path)[1..] == Parts(path[1..]);
    if Child(j, path[0]).Some? {
      FollowPart(j, path[0]);
      PartsFollowNowhere(Child(j, path[0]).value, path[1..]);
    } else {
      FollowMissing(j, path[0]);
      NothingBelowNull(Parts(path[1..]));
    }
  }

  lemma {:induction false} NoDots(path: Path)
    requires Dottable(path)
    ensures forall p | p in Parts(path) :: '.' !in p
    decreases |path|
  {
    if path != [] {
      DottableRest(path);
      NoDots(path[1..]);
    }
  }

  /** A written path that leads nowhere resolves to null. */
  lemma ResolveMissingPath(data: Json, path: Path)
    requires path != [] && Dottable(path) && Unambiguous(data, path) && At(data, path).None?
    ensures Resolve(data, Join(Parts(path), '.')) == Null
  {
    PartsFollowNowhere(data, path);
    SplitJoin(Parts(path), '.');
  }

  // ---------------------------------------------------------------------------------------------
  // References in text
  // ---------------------------------------------------------------------------------------------

  const REF := "$prev."

  /** The characters a reference's path may have. */
  predicate PathChar(c: char) {
    'a' <= c <= 'z' || 'A' <= c <= 'Z' || '0' <= c <= '9' || c == '_' || c == '.'
  }

  /** How many path characters `s` begins with. */
  function RunLength(s: string): (n: nat)
    ensures n <= |s|
  {
    if s == "" || !PathChar(s[0]) then 0 else 1 + RunLength(s[1..])
  }

  /** A reference begins here. */
  predicate RefHere(s: string) {
    REF <= s && RunLength(s[|REF|..]) > 0
  }

  predicate HasRef(s: string) {
    s != "" && (RefHere(s) || HasRef(s[1..]))
  }

  /** Replaces every reference, leftmost and longest first, by the printed value of its path. */
  function Substitute(render: Printer, data: Json, s: string): string
    decreases |s|
  {
    if s == "" then ""
    else if RefHere(s) then
      var n := RunLength(s[|REF|..]);
      render(Resolve(data, s[|REF|..|REF| + n])) + Substitute(render, data, s[|REF| + n..])
    else [s[0]] + Substitute(render, data, s[1..])
  }

  lemma {:induction false} NoRefNoChange(render: Printer, data: Json, s: string)
    requires !HasRef(s)
    ensures Substitute(render, data, s) == s
  {
    if s != "" {
      NoRefNoChange(render, data, s[1..]);
      assert s == [s[0]] + s[1..];
    }
  }

  lemma {:induction false} RunOfConcat(p: string, rest: string)
    requires (forall i | 0 <= i < |p| :: PathChar(p[i])) && (rest == "" || !PathChar(rest[0]))
    ensures RunLength(p + rest) == |p|
  {
    if p == "" {
      assert p + rest == rest;
    } else {
      assert (p + rest)[1..] == p[1..] + rest;
      RunOfConcat(p[1..], rest);
    }
  }

  lemma ReferenceReplaced(render: Printer, data: Json, path: string, rest: string)
    requires path != "" && forall i | 0 <= i < |path| :: PathChar(path[i])
    requires rest == "" || !PathChar(rest[0])
    ensures Substitute(render, data, REF + path + rest)
            == render(Resolve(data, path)) + Substitute(render, data, rest)
  {
    var s := REF + path + rest;
    assert s[|REF|..] == path + rest && REF <= s;
    RunOfConcat(path, rest);
    assert s[|REF|..|REF| + |path|] == path && s[|REF| + |path|..] == rest;
  }

  /** The same with the syntax of references written out. */
  lemma WrittenReferenceReplaced(render: Printer, data: Json, path: string, rest: string)
    requires path != "" && forall i | 0 <= i < |path| ::
                             || 'a' <= path[i] <= 'z' || 'A' <= path[i] <= 'Z' || '0' <= path[i] <= '9'
                             || path[i] == '_' || path[i] == '.'
    requires
      rest != "" ==>
        !(|| 'a' <= rest[0] <= 'z' || 'A' <= rest[0] <= 'Z' || '0' <= rest[0] <= '9'
          || rest[0] == '_' || rest[0] == '.')
    ensures Substitute(render, data, "$prev." + path + rest)
            == render(Resolve(data, path)) + Substitute(render, data, rest)
  {
    ReferenceReplaced(render, data, path, rest);
  }

  /** Text in which "$prev." does not occur has no references. */
  lemma {:induction false} OtherTextKept(render: Printer, data: Json, s: string)
    requires forall k | 0 <= k <= |s| :: !("$prev." <= s[k..])
    ensures Substitute(render, data, s) == s
  {
    if s != "" {
      assert s[0..] == s;
      forall k | 0 <= k <= |s[1..]| ensures !("$prev." <= s[1..][k..]) {
        assert s[1..][k..] == s[k + 1..];
      }
      OtherTextKept(render, data, s[1..]);
      assert s == [s[0]] + s[1..];
    }
  }

  /** No reference begins within `pre` when `rest` follows it. */
  predicate NoRefWithin(pre: string, rest: string) {
    forall k | 0 <= k < |pre| :: !RefHere(pre[k..] + rest)
  }

  lemma PlainStep(render: Printer, data: Json, c: char, rest: string)
    requires !RefHere([c] + rest)
    ensures Substitute(render, data, [c] + rest) == [c] + Substitute(render, data, rest)
  {
    var s := [c] + rest;
    assert s[0] == c && s[1..] == rest;
  }

  lemma HeadTail(pre: string, s: string)
    requires pre != ""
    ensures [pre[0]] + (pre[1..] + s) == pre + s
  {
  }

  lemma NoRefWithinTail(pre: string, s: string)
    requires NoRefWithin(pre, s) && pre != ""
    ensures NoRefWithin(pre[1..], s) && !RefHere([pre[0]] + (pre[1..] + s))
  {
    HeadTail(pre, s);
    assert pre[0..] == pre;
    forall k | 0 <= k < |pre| - 1 ensures !RefHere(pre[1..][k..] + s) {
      assert pre[1..][k..] == pre[k + 1..];
    }
  }

  lemma {:induction false} PlainTextKept(render: Printer, data: Json, pre: string, s: string)
    requires NoRefWithin(pre, s)
    ensures Substitute(render, data, pre + s) == pre + Substitute(render, data, s)
    decreases |pre|
  {
    if pre == "" {
      assert pre + s == s;
    } else {
      NoRefWithinTail(pre, s);
      PlainTextKept(render, data, pre[1..], s);
      PlainStep(render, data, pre[0], pre[1..] + s);
      HeadTail(pre, s);
      HeadTail(pre, Substitute(render, data, s));
    }
  }

  /** "$prev." is no reference where no path character follows. */
  lemma EmptyReferenceKept(render: Printer, data: Json, rest: string)
    requires rest == "" || !PathChar(rest[0])
    ensures Substitute(render, data, "$prev." + rest) == "$prev." + Substitute(render, data, rest)
  {
    var pre := "$prev.";
    forall k | 0 <= k < |pre| ensures !RefHere(pre[k..] + rest) {
      if k == 0 {
        assert (pre + rest)[|pre|..] == rest;
      } else {
        assert (pre[k..] + rest)[0] == pre[k] != '$';
      }
    }
    PlainTextKept(render, data, pre, rest);
  }

  /**
   * Text before the first reference stays, the reference becomes the printed value as it is, and
   * scanning goes on behind it.
   */
  lemma InsertedTextNotRescanned(render: Printer, data: Json, pre: string, path: string, rest: string)
    requires path != "" && forall i | 0 <= i < |path| :: PathChar(path[i])
    requires rest == "" || !PathChar(rest[0])
    requires NoRefWithin(pre, REF + path + rest)
    ensures Substitute(render, data, pre + (REF + path + rest))
            == pre + (render(Resolve(data, path)) + Substitute(render, data, rest))
  {
    PlainTextKept(render, data, pre, REF + path + rest);
    ReferenceReplaced(render, data, path, rest);
  }

  /** A text taken apart into characters to keep and references to replace. */
  datatype Piece = Kept(c: char) | Ref(path: string)

  function Pieces(s: string): seq<Piece>
    decreases |s|
  {
    if s == "" then []
    else if RefHere(s) then
      var n := RunLength(s[|REF|..]);
      [Ref(s[|REF|..|REF| + n])] + Pieces(s[|REF| + n..])
    else [Kept(s[0])] + Pieces(s[1..])
  }

  function Source(piece: Piece): string {
    match piece
    case Kept(c) => [c]
    case Ref(path) => REF + path
  }

  function Filled(render: Printer, data: Json, piece: Piece): string {
    match piece
    case Kept(c) => [c]
    case Ref(path) => render(Resolve(data, path))
  }

  function Concat(texts: seq<string>): string {
    if texts == [] then "" else texts[0] + Concat(texts[1..])
  }

  function Sources(pieces: seq<Piece>): seq<string> {
    seq(|pieces|, i requires 0 <= i < |pieces| => Source(pieces[i]))
  }

  function Fills(render: Printer, data: Json, pieces: seq<Piece>): seq<string> {
    seq(|pieces|, i requires 0 <= i < |pieces| => Filled(render, data, pieces[i]))
  }

  lemma ConcatFront(first: string, rest: seq<string>)
    ensures Concat([first] + rest) == first + Concat(rest)
  {
    assert ([first] + rest)[1..] == rest;
  }

  lemma SourcesFront(first: Piece, rest: seq<Piece>)
    ensures Concat(Sources([first] + rest)) == Source(first) + Concat(Sources(rest))
  {
    assert Sources([first] + rest) == [Source(first)] + Sources(rest);
    ConcatFront(Source(first), Sources(rest));
  }

  lemma FillsFront(render: Printer, data: Json, first: Piece, rest: seq<Piece>)
    ensures Concat(Fills(render, data, [first] + rest))
            == Filled(render, data, first) + Concat(Fills(render, data, rest))
  {
    assert Fills(render, data, [first] + rest) == [Filled(render, data, first)] + Fills(render, data, rest);
    ConcatFront(Filled(render, data, first), Fills(render, data, rest));
  }

  lemma PieceByPiece(render: Printer, data: Json, s: string) returns (first: Piece, rest: string)
    requires s != ""
    ensures |rest| < |s| && s == Source(first) + rest && Pieces(s) == [first] + Pieces(rest)
    ensures Substitute(render, data, s) == Filled(render, data, first) + Substitute(render, data, rest)
  {
    if RefHere(s) {
      var n := RunLength(s[|REF|..]);
      first, rest := Ref(s[|REF|..|REF| + n]), s[|REF| + n..];
    } else {
      first, rest := Kept(s[0]), s[1..];
    }
  }

  /**
   * A text is exactly its pieces, and interpolation fills them in one by one. The pieces depend on
   * the text alone, so nothing that is inserted is ever looked at, whatever it contains and
   * whatever stands before it.
   */
  lemma {:induction false} SubstituteFillsPieces(render: Printer, data: Json, s: string)
    ensures Concat(Sources(Pieces(s))) == s
    ensures Substitute(render, data, s) == Concat(Fills(render, data, Pieces(s)))
    decreases |s|
  {
    if s != "" {
      var first, rest := PieceByPiece(render, data, s);
      SubstituteFillsPieces(render, data, rest);
      SourcesFront(first, Pieces(rest));
      FillsFront(render, data, first, Pieces(rest));
    }
  }

  // ---------------------------------------------------------------------------------------------
  // Payloads
  // ---------------------------------------------------------------------------------------------

  function Interpolate(render: Printer, data: Json, v: Json): Json {
    match v
    case Str(s) => if HasRef(s) then Str(Substitute(render, data, s)) else v
    case Obj(fields) => Obj(map k | k in fields :: Interpolate(render, data, fields[k]))
    case Arr(items) => Arr(seq(|items|, i requires 0 <= i < |items| => Interpolate(render, data, items[i])))
    case _ => v
  }

  /** The loop of the source over the payload's entries, in any order, into a fresh map. */
  method InterpolateMap(render: Printer, data: Json, m: map<string, Json>) returns (result: map<string, Json>)
    ensures Obj(result) == Interpolate(render, data, Obj(m))
  {
    ghost var all := Interpolate(render, data, Obj(m)).fields;
    assert all == map k | k in m :: Interpolate(render, data, m[k]);
    result := map[];
    var keys := m.Keys;
    while keys != {}
      invariant keys <= m.Keys && result.Keys == m.Keys - keys
      invariant forall k | k in result :: result[k] == all[k]
      decreases keys
    {
      var k :| k in keys;
      result := result[k := Interpolate(render, data, m[k])];
      keys := keys - {k};
    }
    assert result == all;
  }

  /**
   * Interpolation commutes with path lookup, for every payload, data and path, paths that lead
   * nowhere included.
   */
  lemma {:induction false} InterpolateCommutes(render: Printer, data: Json, v: Json, parts: seq<string>)
    ensures FollowAll(Interpolate(render, data, v), parts) == Interpolate(render, data, FollowAll(v, parts))
    decreases |parts|
  {
    if parts != [] {
      assert Follow(Interpolate(render, data, v), parts[0]) == Interpolate(render, data, Follow(v, parts[0]));
      InterpolateCommutes(render, data, Follow(v, parts[0]), parts[1..]);
    }
  }

  lemma ResolveInterpolated(render: Printer, data: Json, v: Json, path: string)
    ensures Resolve(Interpolate(render, data, v), path) == Interpolate(render, data, Resolve(v, path))
  {
    InterpolateCommutes(render, data, v, Split(path, '.'));
  }

  predicate RefFree(v: Json) {
    match v
    case Str(s) => !HasRef(s)
    case Obj(fields) => forall k | k in fields :: RefFree(fields[k])
    case Arr(items) => forall i | 0 <= i < |items| :: RefFree(items[i])
    case _ => true
  }

  /** Payloads without references are fixed points, and so nothing is ever inserted into them. */
  lemma {:induction false} RefFreeFixed(render: Printer, data: Json, v: Json)
    requires RefFree(v)
    ensures Interpolate(render, data, v) == v
  {
    match v
    case Obj(fields) =>
      forall k | k in fields ensures Interpolate(render, data, fields[k]) == fields[k] {
        RefFreeFixed(render, data, fields[k]);
      }
    case Arr(items) =>
      forall i | 0 <= i < |items| ensures Interpolate(render, data, items[i]) == items[i] {
        RefFreeFixed(render, data, items[i]);
      }
    case _ =>
  }

  lemma ChildInterpolated(render: Printer, data: Json, v: Json, step: Step)
    ensures
      var below := Child(Interpolate(render, data, v), step);
      if Child(v, step).Some? then below == Some(Interpolate(render, data, Child(v, step).value)) else below == None
  {
  }

  /** Interpolation changes no key, no length and no kind of value: only strings, where they are. */
  lemma {:induction false} ShapeKept(render: Printer, data: Json, v: Json, path: Path)
    ensures At(Interpolate(render, data, v), path)
            == if At(v, path).Some? then Some(Interpolate(render, data, At(v, path).value)) else None
    decreases |path|
  {
    if path != [] {
      ChildInterpolated(render, data, v, path[0]);
      if Child(v, path[0]).Some? {
        ShapeKept(render, data, Child(v, path[0]).value, path[1..]);
      }
    }
  }

  /** A string of a payload becomes its pieces filled in, with or without references. */
  lemma StringsFilledIn(render: Printer, data: Json, s: string)
    ensures Interpolate(render, data, Str(s)) == Str(Concat(Fills(render, data, Pieces(s))))
  {
    SubstituteFillsPieces(render, data, s);
    if !HasRef(s) {
      NoRefNoChange(render, data, s);
    }
  }
}
