/**
 * Request URLs as net/url and net/http treat them: cut at '#' and '?', percent-decoded for the
 * handlers, escaped on the wire. Strings are byte strings here.
 */
module Urls {
  import opened JsonTree
  import opened Text

  // ---------------------------------------------------------------------------------------------
  // Parsing
  // ---------------------------------------------------------------------------------------------

  /** The part of `s` before the first `c`. */
  function UpTo(s: string, c: char): string {
    s[..Head(s, c)]
  }

  /** The part of `s` behind the first `c`. */
  function Beyond(s: string, c: char): string {
    if Head(s, c) < |s| then s[Head(s, c) + 1..] else ""
  }

  function HexValue(c: char): Option<nat> {
    if '0' <= c <= '9' then Some(c as int - '0' as int)
    else if 'a' <= c <= 'f' then Some(c as int - 'a' as int + 10)
    else if 'A' <= c <= 'F' then Some(c as int - 'A' as int + 10)
    else None
  }

  /** Hexadecimal digits of either case. */
  lemma HexDigits(i: nat)
    requires i < 16
    ensures HexValue("0123456789ABCDEF"[i]) == Some(i) && HexValue("0123456789abcdef"[i]) == Some(i)
  {
  }

  /** Every %XX becomes the byte it stands for; a percent sign with anything else behind it is an error. */
  function Decode(s: string): Option<string> {
    if s == "" then Some("")
    else if s[0] != '%' then Prepended([s[0]], Decode(s[1..]))
    else if |s| < 3 || HexValue(s[1]).None? || HexValue(s[2]).None? then None
    else Prepended([Byte(HexValue(s[1]).value, HexValue(s[2]).value)], Decode(s[3..]))
  }

  function Byte(high: nat, low: nat): char {
    ((high % 16) * 16 + low % 16) as char
  }

  function Prepended(front: string, s: Option<string>): Option<string> {
    if s.Some? then Some(front + s.value) else None
  }

  predicate IsControl(c: char) {
    c < ' ' || c == '\U{7f}'
  }

  predicate HasControl(s: string) {
    s != "" && (IsControl(s[0]) || HasControl(s[1..]))
  }

  lemma {:induction false} ControlIff(s: string)
    ensures HasControl(s) <==> exists i :: 0 <= i < |s| && (s[i] as int < 32 || s[i] as int == 127)
  {
    if s != "" {
      ControlIff(s[1..]);
      assert forall i | 0 < i < |s| :: s[i] == s[1..][i - 1];
      if HasControl(s[1..]) {
        var i :| 0 <= i < |s[1..]| && (s[1..][i] as int < 32 || s[1..][i] as int == 127);
        assert s[i + 1] == s[1..][i];
      }
    }
  }

  /** The characters of a path that are never escaped. */
  predicate Unreserved(c: char) {
    || 'a' <= c <= 'z' || 'A' <= c <= 'Z' || '0' <= c <= '9'
    || c in ['-', '_', '.', '~', '$', '&', '+', ',', '/', ':', ';', '=', '@']
  }

  /** A path that goes on the wire as it was written. */
  predicate ValidEncoded(s: string) {
    s != "" ==>
      (Unreserved(s[0]) || s[0] in ['!', '\'', '(', ')', '*', '[', ']', '%']) && ValidEncoded(s[1..])
  }

  const HEX := "0123456789ABCDEF"

  function EscapedChar(c: char): string {
    if Unreserved(c) then [c] else ['%', HEX[c as int / 16 % 16], HEX[c as int % 16]]
  }

  function Escape(s: string): string {
    if s == "" then "" else EscapedChar(s[0]) + Escape(s[1..])
  }

  /** The decoded path, and the path as the mux sees it. */
  datatype Url = Url(path: string, wire: string)

  /**
   * The URL a text is sent as, if it is sent: no control characters, well-formed escapes, and no
   * blank in the query, which would break the request line.
   */
  function ParseUrl(s: string): Option<Url> {
    var main := UpTo(s, '#');
    var raw := UpTo(main, '?');
    if HasControl(main) || Decode(Beyond(s, '#')).None? || ' ' in Beyond(main, '?') || Decode(raw).None? then None
    else Some(Url(Decode(raw).value, if ValidEncoded(raw) then raw else Escape(Decode(raw).value)))
  }

  // ---------------------------------------------------------------------------------------------
  // A harmless prefix
  // ---------------------------------------------------------------------------------------------

  predicate AllUnreserved(p: string) {
    forall c | c in p :: Unreserved(c)
  }

  lemma FrontSplit(p: string, s: string)
    requires p != ""
    ensures p + s == [p[0]] + (p[1..] + s) && (p + s)[0] == p[0] && (p + s)[1..] == p[1..] + s
  {
  }

  lemma UnreservedTail(p: string)
    requires AllUnreserved(p) && p != ""
    ensures AllUnreserved(p[1..]) && Unreserved(p[0])
  {
    assert forall c | c in p[1..] :: c in p;
  }

  lemma {:induction false} HeadBehind(p: string, s: string, c: char)
    requires c !in p
    ensures Head(p + s, c) == |p| + Head(s, c)
  {
    if p == "" {
      assert p + s == s;
    } else {
      FrontSplit(p, s);
      HeadBehind(p[1..], s, c);
    }
  }

  lemma CutBehind(p: string, s: string, c: char)
    requires c !in p
    ensures UpTo(p + s, c) == p + UpTo(s, c) && Beyond(p + s, c) == Beyond(s, c)
  {
    HeadBehind(p, s, c);
    var n := Head(s, c);
    assert (p + s)[..|p| + n] == p + s[..n];
    if n < |s| {
      assert (p + s)[|p| + n + 1..] == s[n + 1..];
    }
  }

  lemma {:induction false} DecodeBehind(p: string, s: string)
    requires '%' !in p
    ensures Decode(p + s) == Prepended(p, Decode(s))
  {
    if p == "" {
      assert p + s == s;
      assert Decode(s).Some? ==> "" + Decode(s).value == Decode(s).value;
    } else {
      FrontSplit(p, s);
      assert '%' !in p[1..];
      DecodeBehind(p[1..], s);
      if Decode(s).Some? {
        FrontSplit(p, Decode(s).value);
      }
    }
  }

  lemma {:induction false} WireBehind(p: string, s: string)
    requires AllUnreserved(p)
    ensures HasControl(p + s) <==> HasControl(s)
    ensures ValidEncoded(p + s) <==> ValidEncoded(s)
    ensures Escape(p + s) == p + Escape(s)
  {
    if p == "" {
      assert p + s == s;
    } else {
      FrontSplit(p, s);
      UnreservedTail(p);
      WireBehind(p[1..], s);
      FrontSplit(p, Escape(s));
    }
  }

  function Behind(p: string, u: Option<Url>): Option<Url> {
    if u.Some? then Some(Url(p + u.value.path, p + u.value.wire)) else None
  }

  /** Text of unreserved characters in front stays in front. */
  lemma ParseBehind(p: string, s: string)
    requires AllUnreserved(p)
    ensures ParseUrl(p + s) == Behind(p, ParseUrl(s))
  {
    assert '#' !in p && '?' !in p && '%' !in p;
    CutBehind(p, s, '#');
    var main := UpTo(s, '#');
    CutBehind(p, main, '?');
    var raw := UpTo(main, '?');
    WireBehind(p, main);
    WireBehind(p, raw);
    DecodeBehind(p, raw);
    if Decode(raw).Some? {
      WireBehind(p, Decode(raw).value);
    }
  }

  // ---------------------------------------------------------------------------------------------
  // What comes through unchanged
  // ---------------------------------------------------------------------------------------------

  /** No character that URL syntax gives a meaning, and no control character. */
  predicate PlainText(s: string) {
    '%' !in s && '?' !in s && '#' !in s && !HasControl(s)
  }

  lemma {:induction false} DecodeShrinks(s: string)
    ensures Decode(s).Some? ==> |Decode(s).value| <= |s|
    ensures Decode(s).Some? && |Decode(s).value| == |s| ==> '%' !in s
  {
    if s != "" && Decode(s).Some? {
      if s[0] != '%' {
        DecodeShrinks(s[1..]);
        assert s == [s[0]] + s[1..];
      } else {
        DecodeShrinks(s[3..]);
      }
    }
  }

  lemma DecodePlain(s: string)
    requires '%' !in s
    ensures Decode(s) == Some(s)
  {
    DecodeBehind(s, "");
    assert s + "" == s;
  }

  lemma UncutWhole(s: string, c: char)
    ensures c !in s ==> UpTo(s, c) == s && Beyond(s, c) == ""
    ensures |UpTo(s, c)| == |s| ==> c !in s && UpTo(s, c) == s
  {
    if c !in s {
      HeadBehind(s, "", c);
      assert s + "" == s;
    } else {
      assert s[..|s|] == s;
    }
  }

  lemma UnreservedIsPlain(s: string)
    requires AllUnreserved(s)
    ensures PlainText(s) && ValidEncoded(s)
  {
    WireBehind(s, "");
    assert s + "" == s;
  }

  /** A text is the decoded path of its own URL exactly if it is plain. */
  lemma UnchangedIffPlain(s: string)
    ensures ParseUrl(s).Some? && ParseUrl(s).value.path == s <==> PlainText(s)
    ensures PlainText(s) ==> ParseUrl(s) == Some(Url(s, if ValidEncoded(s) then s else Escape(s)))
  {
    var main := UpTo(s, '#');
    var raw := UpTo(main, '?');
    if PlainText(s) {
      UncutWhole(s, '#');
      UncutWhole(s, '?');
      DecodePlain(s);
      assert Decode("") == Some("");
    } else if ParseUrl(s).Some? && ParseUrl(s).value.path == s {
      DecodeShrinks(raw);
      UncutWhole(s, '#');
      UncutWhole(main, '?');
      assert false;
    }
  }

  lemma {:induction false} ControlConcat(a: string, b: string)
    ensures HasControl(a + b) <==> HasControl(a) || HasControl(b)
  {
    if a == "" {
      assert a + b == b;
    } else {
      FrontSplit(a, b);
      ControlConcat(a[1..], b);
    }
  }

  lemma CutAt(p: string, c: char, rest: string)
    requires c !in p
    ensures UpTo(p + ([c] + rest), c) == p && Beyond(p + ([c] + rest), c) == rest
  {
    CutBehind(p, [c] + rest, c);
    assert Head([c] + rest, c) == 0 && ([c] + rest)[1..] == rest;
  }

  /** A question mark hides the rest of the text from the path. */
  lemma QueryIsCut(name: string, rest: string)
    requires PlainText(name) && '#' !in rest && ' ' !in rest && !HasControl(rest)
    ensures ParseUrl(name + (['?'] + rest)) == ParseUrl(name)
  {
    var s := name + (['?'] + rest);
    assert '#' !in s;
    UncutWhole(s, '#');
    CutAt(name, '?', rest);
    ControlConcat(name, ['?'] + rest);
    ControlConcat(['?'], rest);
    DecodePlain(name);
    UnchangedIffPlain(name);
    assert Decode("") == Some("") && !HasControl(['?']);
  }

  lemma EscapeThen(b: string)
    requires AllUnreserved(b)
    ensures Decode("%2F" + b) == Some("/" + b) && ValidEncoded("%2F" + b) && !HasControl("%2F" + b)
  {
    var s := "%2F" + b;
    UnreservedIsPlain(b);
    DecodePlain(b);
    assert s[3..] == b && s[0] == '%' && s[1] == '2' && s[2] == 'F';
    assert s[1..] == "2F" + b && s[1..][1..] == "F" + b && s[1..][1..][1..] == b;
    assert ValidEncoded("F" + b) && !HasControl("F" + b) && ValidEncoded("2F" + b) && !HasControl("2F" + b);
  }

  /** An escaped slash is a slash to the handler and none to the mux. */
  lemma EscapedSlash(a: string, b: string)
    requires AllUnreserved(a) && AllUnreserved(b)
    ensures ParseUrl(a + ("%2F" + b)) == Some(Url(a + ("/" + b), a + ("%2F" + b)))
  {
    var s := "%2F" + b;
    EscapeThen(b);
    assert '#' !in s && '?' !in s;
    UncutWhole(s, '#');
    UncutWhole(s, '?');
    assert Decode("") == Some("");
    assert ParseUrl(s) == Some(Url("/" + b, s));
    ParseBehind(a, s);
  }

  // ---------------------------------------------------------------------------------------------
  // Clean paths
  // ---------------------------------------------------------------------------------------------

  /** Parts the mux does not redirect: only the last may be empty, and none is "." or "..". */
  predicate CleanParts(parts: seq<string>) {
    forall i | 0 <= i < |parts| ::
      parts[i] != "." && parts[i] != ".." && (i < |parts| - 1 ==> parts[i] != "")
  }

  lemma CleanAfter(first: string, parts: seq<string>)
    requires parts != [] && first != "" && first != "." && first != ".."
    ensures CleanParts([first] + parts) <==> CleanParts(parts)
  {
    var all := [first] + parts;
    if CleanParts(all) {
      forall i | 0 <= i < |parts|
        ensures parts[i] != "." && parts[i] != ".." && (i < |parts| - 1 ==> parts[i] != "")
      {
        assert all[1 + i] == parts[i];
      }
    }
    if CleanParts(parts) {
      forall i | 0 <= i < |all|
        ensures all[i] != "." && all[i] != ".." && (i < |all| - 1 ==> all[i] != "")
      {
        if i > 0 {
          assert all[i] == parts[i - 1];
        }
      }
    }
  }

  lemma {:induction false} EscapeConcat(a: string, b: string)
    ensures Escape(a + b) == Escape(a) + Escape(b)
  {
    if a == "" {
      assert a + b == b;
    } else {
      FrontSplit(a, b);
      EscapeConcat(a[1..], b);
    }
  }

  lemma CharKeepsSlash(c: char)
    ensures '/' in EscapedChar(c) <==> c == '/'
    ensures '%' !in EscapedChar(c) ==> EscapedChar(c) == [c]
  {
    if !Unreserved(c) {
      assert EscapedChar(c)[0] == '%';
    }
  }

  lemma {:induction false} EscapeKeepsSlashes(s: string)
    ensures '/' in Escape(s) <==> '/' in s
    ensures '%' !in Escape(s) ==> Escape(s) == s
  {
    if s != "" {
      CharKeepsSlash(s[0]);
      EscapeKeepsSlashes(s[1..]);
      assert s == [s[0]] + s[1..];
    }
  }

  function EscapeAll(parts: seq<string>): (r: seq<string>)
    ensures |r| == |parts| && forall i | 0 <= i < |r| :: r[i] == Escape(parts[i])
  {
    if parts == [] then [] else [Escape(parts[0])] + EscapeAll(parts[1..])
  }

  lemma {:induction false} EscapeJoin(parts: seq<string>)
    requires parts != []
    ensures Escape(Join(parts, '/')) == Join(EscapeAll(parts), '/')
    decreases |parts|
  {
    if |parts| > 1 {
      EscapeJoin(parts[1..]);
      EscapeConcat(parts[0] + ['/'], Join(parts[1..], '/'));
      EscapeConcat(parts[0], ['/']);
      assert Escape(['/']) == ['/'];
      assert EscapeAll(parts)[1..] == EscapeAll(parts[1..]);
    }
  }

  /** Escaping makes no part empty, "." or "..", and unmakes none. */
  lemma EscapedPartsClean(parts: seq<string>)
    ensures CleanParts(EscapeAll(parts)) <==> CleanParts(parts)
  {
    forall i | 0 <= i < |parts| ensures
      && (EscapeAll(parts)[i] == "." <==> parts[i] == ".")
      && (EscapeAll(parts)[i] == ".." <==> parts[i] == "..")
      && (EscapeAll(parts)[i] == "" <==> parts[i] == "")
    {
      EscapeKeepsSlashes(parts[i]);
      DotsEscape();
    }
  }

  lemma DotsEscape()
    ensures Escape("") == "" && Escape(".") == "." && Escape("..") == ".."
  {
    assert ".."[1..] == ".";
  }

  lemma CleanIffEscapedClean(s: string)
    ensures CleanParts(Split(Escape(s), '/')) <==> CleanParts(Split(s, '/'))
  {
    var parts := Split(s, '/');
    JoinSplit(s, '/');
    SplitFree(s, '/');
    EscapeJoin(parts);
    forall p | p in EscapeAll(parts) ensures '/' !in p {
      var i :| 0 <= i < |parts| && EscapeAll(parts)[i] == p;
      assert parts[i] in parts;
      EscapeKeepsSlashes(parts[i]);
    }
    SplitJoin(EscapeAll(parts), '/');
    EscapedPartsClean(parts);
  }

  // ---------------------------------------------------------------------------------------------
  // Redirects
  // ---------------------------------------------------------------------------------------------

  /** path.Clean on the parts of a rooted path: `done` are the parts so far. */
  function Walk(done: seq<string>, parts: seq<string>): seq<string>
    decreases |parts|
  {
    if parts == [] then done
    else if parts[0] == "" || parts[0] == "." then Walk(done, parts[1..])
    else if parts[0] == ".." then Walk(if done == [] then [] else done[..|done| - 1], parts[1..])
    else Walk(done + [parts[0]], parts[1..])
  }

  /** A slash at the end is kept. */
  function CleanedParts(parts: seq<string>): (r: seq<string>)
    requires parts != []
    ensures r != []
  {
    var done := Walk([], parts);
    if done == [] then [""] else if parts[|parts| - 1] == "" then done + [""] else done
  }

  function CleanPath(wire: string): string
    requires wire != "" && wire[0] == '/'
  {
    ['/'] + Join(CleanedParts(Split(wire[1..], '/')), '/')
  }

  /** Where the mux sends a request whose path is not clean: its path on the wire, cleaned. */
  function Relocated(u: Url): Url
    requires u.wire != "" && u.wire[0] == '/'
  {
    Url(CleanPath(u.wire), Escape(CleanPath(u.wire)))
  }

  predicate WireChar(c: char) {
    Unreserved(c) || c in ['!', '\'', '(', ')', '*', '[', ']', '%']
  }

  predicate Wired(s: string) {
    forall i | 0 <= i < |s| :: WireChar(s[i])
  }

  predicate AllWired(parts: seq<string>) {
    forall i | 0 <= i < |parts| :: Wired(parts[i])
  }

  /** A part that names a step down. */
  predicate Solid(parts: seq<string>) {
    forall i | 0 <= i < |parts| :: parts[i] != "" && parts[i] != "." && parts[i] != ".." && '/' !in parts[i]
  }

  predicate NoSlash(parts: seq<string>) {
    forall i | 0 <= i < |parts| :: '/' !in parts[i]
  }

  lemma {:induction false} WalkIsSolid(done: seq<string>, parts: seq<string>)
    requires Solid(done) && NoSlash(parts)
    ensures Solid(Walk(done, parts))
    ensures AllWired(done) && AllWired(parts) ==> AllWired(Walk(done, parts))
    decreases |parts|
  {
    if parts != [] {
      var next :=
        if parts[0] == "" || parts[0] == "." then done
        else if parts[0] == ".." then (if done == [] then [] else done[..|done| - 1])
        else done + [parts[0]];
      WalkIsSolid(next, parts[1..]);
    }
  }

  lemma CleanedAreClean(parts: seq<string>)
    requires parts != [] && NoSlash(parts)
    ensures CleanParts(CleanedParts(parts)) && NoSlash(CleanedParts(parts))
    ensures AllWired(parts) ==> AllWired(CleanedParts(parts))
  {
    WalkIsSolid([], parts);
  }

  lemma {:induction false} WalkConcat(done: seq<string>, xs: seq<string>, ys: seq<string>)
    ensures Walk(done, xs + ys) == Walk(Walk(done, xs), ys)
    decreases |xs|
  {
    if xs == [] {
      assert xs + ys == ys;
    } else {
      assert (xs + ys)[1..] == xs[1..] + ys;
      var next :=
        if xs[0] == "" || xs[0] == "." then done
        else if xs[0] == ".." then (if done == [] then [] else done[..|done| - 1])
        else done + [xs[0]];
      WalkConcat(next, xs[1..], ys);
    }
  }

  /** Wherever they stand, empty parts and dots are dropped, and two dots take back the step before them. */
  lemma DotsCancel(xs: seq<string>, name: string, ys: seq<string>)
    requires Solid([name])
    ensures Walk([], xs + [""] + ys) == Walk([], xs + ["."] + ys) == Walk([], xs + ys)
    ensures Walk([], xs + [name, ".."] + ys) == Walk([], xs + ys)
    ensures Walk([], [".."] + ys) == Walk([], ys)
  {
    assert [name][0] == name;
    var done := Walk([], xs);
    forall mid: seq<string> ensures Walk([], xs + mid + ys) == Walk(Walk(done, mid), ys) {
      WalkConcat([], xs + mid, ys);
      WalkConcat([], xs, mid);
    }
    WalkConcat([], xs, ys);
    WalkConcat([], [".."], ys);
    assert [""][1..] == ["."][1..] == [".."][1..] == [] && [name, ".."][1..] == [".."];
    assert (done + [name])[..|done|] == done;
    assert Walk(done, [name, ".."]) == Walk(done + [name], [".."]) == Walk(done, []) == done;
  }

  lemma {:induction false} WalkSolid(done: seq<string>, parts: seq<string>)
    requires Solid(parts)
    ensures Walk(done, parts) == done + parts
    decreases |parts|
  {
    if parts != [] {
      WalkSolid(done + [parts[0]], parts[1..]);
      assert done + [parts[0]] + parts[1..] == done + parts;
    }
  }

  /** What is clean stays as it is, a slash at the end included. */
  lemma CleanStays(parts: seq<string>)
    requires parts != [] && CleanParts(parts) && NoSlash(parts)
    ensures CleanedParts(parts) == parts
  {
    var last := |parts| - 1;
    if parts[last] == "" {
      var front := parts[..last];
      assert parts == front + [""];
      WalkSolid([], front);
      WalkConcat([], front, [""]);
      assert [""][1..] == [];
    } else {
      WalkSolid([], parts);
    }
  }

  lemma {:induction false} ValidIsWired(s: string)
    ensures ValidEncoded(s) <==> Wired(s)
  {
    if s != "" {
      ValidIsWired(s[1..]);
      assert s == [s[0]] + s[1..];
    }
  }

  lemma {:induction false} EscapeIsWired(s: string)
    ensures Wired(Escape(s))
  {
    if s != "" {
      EscapeIsWired(s[1..]);
      assert forall i | 0 <= i < |HEX| :: Unreserved(HEX[i]);
    }
  }

  lemma {:induction false} WiredParts(s: string)
    requires Wired(s)
    ensures AllWired(Split(s, '/')) && NoSlash(Split(s, '/'))
    decreases |s|
  {
    var n := Head(s, '/');
    if n < |s| {
      WiredParts(s[n + 1..]);
    } else {
      assert s[..n] == s;
    }
  }

  lemma {:induction false} WiredJoin(parts: seq<string>)
    requires parts != [] && AllWired(parts)
    ensures Wired(Join(parts, '/'))
    decreases |parts|
  {
    if |parts| > 1 {
      WiredJoin(parts[1..]);
    }
  }

  /** Whatever a text is sent as, the path on the wire has no characters but those of paths. */
  lemma ParsedIsWired(s: string)
    requires ParseUrl(s).Some?
    ensures Wired(ParseUrl(s).value.wire)
  {
    var raw := UpTo(UpTo(s, '#'), '?');
    ValidIsWired(raw);
    EscapeIsWired(Decode(raw).value);
  }

  lemma TripleDecodes(high: nat, low: nat, rest: string)
    requires high < 16 && low < 16
    ensures Decode(['%', HEX[high], HEX[low]] + rest) == Prepended([Byte(high, low)], Decode(rest))
  {
    HexDigits(high);
    HexDigits(low);
    var s := ['%', HEX[high], HEX[low]] + rest;
    assert s[0] == '%' && s[1] == HEX[high] && s[2] == HEX[low] && s[3..] == rest;
  }

  lemma ByteOf(c: char)
    requires c as int < 256
    ensures Byte(c as int / 16 % 16, c as int % 16) == c
  {
    assert c as int / 16 * 16 + c as int % 16 == c as int;
  }

  lemma WireCharIsSmall(c: char)
    requires WireChar(c)
    ensures c as int < 256 && (Unreserved(c) ==> c != '%')
  {
  }

  lemma OtherDecodes(c: char, rest: string)
    requires c != '%'
    ensures Decode([c] + rest) == Prepended([c], Decode(rest))
  {
    assert ([c] + rest)[1..] == rest;
  }

  lemma EscapedCharDecodes(c: char, rest: string)
    requires WireChar(c)
    ensures Decode(EscapedChar(c) + rest) == Prepended([c], Decode(rest))
  {
    WireCharIsSmall(c);
    if Unreserved(c) {
      OtherDecodes(c, rest);
    } else {
      ByteOf(c);
      TripleDecodes(c as int / 16 % 16, c as int % 16, rest);
    }
  }

  lemma {:induction false} EscapeDecodes(s: string)
    requires Wired(s)
    ensures Decode(Escape(s)) == Some(s)
  {
    if s != "" {
      EscapeDecodes(s[1..]);
      EscapedCharDecodes(s[0], Escape(s[1..]));
      assert [s[0]] + s[1..] == s;
    }
  }

  lemma EscapedPartsFree(parts: seq<string>)
    requires NoSlash(parts)
    ensures Free(EscapeAll(parts), '/')
  {
    forall p | p in EscapeAll(parts) ensures '/' !in p {
      var i :| 0 <= i < |parts| && EscapeAll(parts)[i] == p;
      EscapeKeepsSlashes(parts[i]);
    }
  }

  /** The parts the mux sees after the redirect are the cleaned ones, escaped once more. */
  lemma RelocatedParts(u: Url)
    requires u.wire != "" && u.wire[0] == '/' && Wired(u.wire)
    ensures
      var parts, v := CleanedParts(Split(u.wire[1..], '/')), Relocated(u);
      && v.path == ['/'] + Join(parts, '/')
      && v.wire != "" && v.wire[0] == '/' && Split(v.wire[1..], '/') == EscapeAll(parts)
      && CleanParts(EscapeAll(parts)) && CleanParts(parts) && NoSlash(parts) && AllWired(parts)
  {
    WiredParts(u.wire[1..]);
    CleanedAreClean(Split(u.wire[1..], '/'));
    var parts := CleanedParts(Split(u.wire[1..], '/'));
    EscapeJoin(parts);
    EscapedPartsFree(parts);
    SplitJoin(EscapeAll(parts), '/');
    EscapedPartsClean(parts);
    FrontSplit(['/'], Join(parts, '/'));
    assert Escape(['/'] + Join(parts, '/')) == ['/'] + Escape(Join(parts, '/'));
  }
}
