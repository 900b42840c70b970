/** Strings as the runner takes them apart and puts them together: splitting, decimal numbers. */
module Text {
  import opened JsonTree

  // ---------------------------------------------------------------------------------------------
  // Splitting at a separator
  // ---------------------------------------------------------------------------------------------

  /** The part before the first separator: its length, or all of `s`. */
  function Head(s: string, sep: char): (n: nat)
    ensures n <= |s| && sep !in s[..n] && (n < |s| ==> s[n] == sep)
  {
    if s == "" || s[0] == sep then 0 else 1 + Head(s[1..], sep)
  }

  /** strings.Split. */
  function Split(s: string, sep: char): (parts: seq<string>)
    ensures parts != []
    decreases |s|
  {
    var n := Head(s, sep);
    if n == |s| then [s] else [s[..n]] + Split(s[n + 1..], sep)
  }

  ghost predicate Free(parts: seq<string>, sep: char) {
    forall p | p in parts :: sep !in p
  }

  /** No part contains the separator. */
  lemma {:induction false} SplitFree(s: string, sep: char)
    ensures Free(Split(s, sep), sep)
    decreases |s|
  {
    var n := Head(s, sep);
    if n < |s| {
      SplitFree(s[n + 1..], sep);
    } else {
      assert s[..n] == s;
    }
  }

  function Join(parts: seq<string>, sep: char): string
    requires parts != []
  {
    if |parts| == 1 then parts[0] else parts[0] + [sep] + Join(parts[1..], sep)
  }

  lemma HeadOfPrefix(p: string, rest: string, sep: char)
    requires sep !in p && (rest == "" || rest[0] == sep)
    ensures Head(p + rest, sep) == |p|
  {
    if p == "" {
      assert p + rest == rest;
    } else {
      assert (p + rest)[1..] == p[1..] + rest;
      HeadOfPrefix(p[1..], rest, sep);
    }
  }

  lemma {:induction false} SplitJoin(parts: seq<string>, sep: char)
    requires parts != [] && Free(parts, sep)
    ensures Split(Join(parts, sep), sep) == parts
    decreases |parts|
  {
    var p := parts[0];
    if |parts| == 1 {
      HeadOfPrefix(p, "", sep);
      assert p + "" == p;
    } else {
      var tail := Join(parts[1..], sep);
      var s := Join(parts, sep);
      assert s == p + ([sep] + tail);
      HeadOfPrefix(p, [sep] + tail, sep);
      assert s[..|p|] == p && s[|p| + 1..] == tail;
      SplitJoin(parts[1..], sep);
    }
  }

  lemma {:induction false} JoinSplit(s: string, sep: char)
    ensures Join(Split(s, sep), sep) == s
    decreases |s|
  {
    var n := Head(s, sep);
    if n < |s| {
      JoinSplit(s[n + 1..], sep);
      assert ([s[..n]] + Split(s[n + 1..], sep))[1..] == Split(s[n + 1..], sep);
      assert s == s[..n] + [sep] + s[n + 1..];
    } else {
      assert s[..n] == s;
    }
  }

  lemma {:induction false} JoinConcat(xs: seq<string>, ys: seq<string>, sep: char)
    requires xs != [] && ys != []
    ensures Join(xs + ys, sep) == Join(xs, sep) + [sep] + Join(ys, sep)
    decreases |xs|
  {
    if |xs| == 1 {
      assert (xs + ys)[1..] == ys;
    } else {
      assert (xs + ys)[1..] == xs[1..] + ys;
      JoinConcat(xs[1..], ys, sep);
      Associate(xs[0] + [sep], Join(xs[1..], sep), [sep] + Join(ys, sep));
    }
  }

  lemma Associate(a: string, b: string, c: string)
    ensures (a + b) + c == a + (b + c)
  {
  }

  lemma SplitConcat(a: string, b: string, sep: char)
    ensures Split(a + [sep] + b, sep) == Split(a, sep) + Split(b, sep)
  {
    JoinSplit(a, sep);
    JoinSplit(b, sep);
    JoinConcat(Split(a, sep), Split(b, sep), sep);
    SplitFree(a, sep);
    SplitFree(b, sep);
    SplitJoin(Split(a, sep) + Split(b, sep), sep);
  }

  lemma SplitAlone(s: string, sep: char)
    requires sep !in s
    ensures Split(s, sep) == [s]
  {
    SplitJoin([s], sep);
  }

  // ---------------------------------------------------------------------------------------------
  // Names
  // ---------------------------------------------------------------------------------------------

  lemma Longest(names: set<string>) returns (n: nat)
    ensures forall name | name in names :: |name| <= n
    decreases names
  {
    if names == {} {
      n := 0;
    } else {
      var name :| name in names;
      var rest := Longest(names - {name});
      n := if |name| > rest then |name| else rest;
    }
  }

  /** No finite set holds every name. */
  lemma NameOutside(names: set<string>) returns (name: string)
    ensures name !in names && name != ""
  {
    var longest := Longest(names);
    name := seq(longest + 1, i => 'a');
  }

  // ---------------------------------------------------------------------------------------------
  // Decimal numbers
  // ---------------------------------------------------------------------------------------------

  function Digit(n: nat): (c: char)
    requires n < 10
    ensures '0' <= c <= '9' && (c as int) == ('0' as int) + n
  {
    ('0' as int + n) as char
  }

  function Decimal(n: nat): (s: string)
    ensures |s| >= 1 && forall i | 0 <= i < |s| :: '0' <= s[i] <= '9'
  {
    if n < 10 then [Digit(n)] else Decimal(n / 10) + [Digit(n % 10)]
  }

  predicate AllDigits(s: string) {
    forall i | 0 <= i < |s| :: '0' <= s[i] <= '9'
  }

  /** The number a string of digits stands for. */
  function Value(s: string): nat
    requires AllDigits(s)
  {
    if s == "" then 0 else Value(s[..|s| - 1]) * 10 + (s[|s| - 1] as int - '0' as int)
  }

  lemma {:induction false} ValueOfDecimal(n: nat)
    ensures Value(Decimal(n)) == n
  {
    var s := Decimal(n);
    if n >= 10 {
      ValueOfDecimal(n / 10);
      assert s[..|s| - 1] == Decimal(n / 10);
    } else {
      assert s[..|s| - 1] == "";
    }
  }

  const MAX_INT := 0x7fff_ffff_ffff_ffff

  /** strconv.Atoi: an optional sign, then digits only, within 64 bits. */
  function Atoi(s: string): Option<int> {
    var signed := s != "" && (s[0] == '-' || s[0] == '+');
    var digits := if signed then s[1..] else s;
    if digits == "" || !AllDigits(digits) then None
    else
      var n: int := Value(digits);
      if signed && s[0] == '-' then (if n > MAX_INT + 1 then None else Some(-n))
      else if n > MAX_INT then None
      else Some(n)
  }

  lemma AtoiOfDecimal(n: nat)
    requires n <= MAX_INT
    ensures Atoi(Decimal(n)) == Some(n)
  {
    ValueOfDecimal(n);
    assert Decimal(n)[0] != '-' && Decimal(n)[0] != '+';
  }

  /** The digits, behind a sign or none, stand for the number. */
  predicate Signed(s: string, digits: string, v: int) {
    && digits != "" && AllDigits(digits)
    && if s != "" && s[0] == '-' then s[1..] == digits && v + Value(digits) == 0
       else (s == digits || (s != "" && s[0] == '+' && s[1..] == digits)) && v == Value(digits)
  }

  /** A number as it may be written, within 64 bits. */
  ghost predicate Written(s: string, v: int) {
    -0x8000_0000_0000_0000 <= v <= 0x7fff_ffff_ffff_ffff && exists digits :: Signed(s, digits, v)
  }

  /** Atoi reads exactly the numbers so written. */
  lemma AtoiReads(s: string, v: int)
    ensures Atoi(s) == Some(v) <==> Written(s, v)
  {
    if Atoi(s) == Some(v) {
      assert Signed(s, if s[0] == '-' || s[0] == '+' then s[1..] else s, v);
    }
    if Written(s, v) {
      var digits :| Signed(s, digits, v);
      if s == digits {
        assert '0' <= digits[0] <= '9';
      }
    }
  }

  /** The verb %03d for a natural number. */
  function Pad3(n: nat): (s: string)
    ensures AllDigits(s)
  {
    var d := Decimal(n);
    if |d| == 1 then "00" + d else if |d| == 2 then "0" + d else d
  }

  lemma {:induction false} DecimalLength(n: nat)
    ensures |Decimal(n)| > 3 <==> n >= 1000
    ensures |Decimal(n)| > 2 <==> n >= 100
    ensures |Decimal(n)| > 1 <==> n >= 10
    ensures n > 0 ==> Decimal(n)[0] != '0'
  {
    if n >= 10 {
      DecimalLength(n / 10);
    }
  }

  /** Three digits, or as many as the number has. */
  lemma Pad3Length(n: nat)
    ensures if n < 1000 then |Pad3(n)| == 3 else |Pad3(n)| > 3 && Pad3(n)[0] != '0'
  {
    DecimalLength(n);
  }

  lemma {:induction false} LeadingZero(s: string)
    requires AllDigits(s)
    ensures AllDigits("0" + s) && Value("0" + s) == Value(s)
    decreases |s|
  {
    var z := "0" + s;
    if s != "" {
      assert z[..|z| - 1] == "0" + s[..|s| - 1];
      LeadingZero(s[..|s| - 1]);
    } else {
      assert z[..|z| - 1] == "";
    }
  }

  lemma ValueOfPad3(n: nat)
    ensures Value(Pad3(n)) == n
  {
    ValueOfDecimal(n);
    var d := Decimal(n);
    LeadingZero(d);
    LeadingZero("0" + d);
    assert "00" + d == "0" + ("0" + d);
  }
}
