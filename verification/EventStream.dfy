/**
 * The reader of event streams (parseSSEStream in internal/runner/jsonrpc_runner.go), which gives up
 * after some time. It implements a part of section 9.2 (Server-sent events) of the WHATWG HTML
 * Living Standard: `data: ` lines and blank lines. Unlike the standard it joins the data lines of
 * one event without a newline between them.
 */
module EventStream {
  import opened JsonTree
  import opened Text

  /** json.Unmarshal into a map; None is an error. */
  type Decoder = string -> Option<Json>

  const DATA := "data: "

  /** One carriage return at the end of a line is not part of it. */
  function DropCR(line: string): string {
    if line != "" && line[|line| - 1] == '\r' then line[..|line| - 1] else line
  }

  function DropCRs(lines: seq<string>): seq<string> {
    if lines == [] then [] else [DropCR(lines[0])] + DropCRs(lines[1..])
  }

  /** What ends the text without a newline is a line if it is not empty. */
  function Ended(parts: seq<string>): seq<string>
    requires parts != []
  {
    if parts[|parts| - 1] == "" then parts[..|parts| - 1] else parts
  }

  /** The longest line that fits the scanner's buffer together with its newline. */
  const MAX_LINE := 0xffff

  predicate Short(lines: seq<string>) {
    forall i | 0 <= i < |lines| :: |lines[i]| <= MAX_LINE
  }

  /** The lines in front of the first one that is too long. */
  function Within(lines: seq<string>): seq<string> {
    if lines == [] || |lines[0]| > MAX_LINE then [] else [lines[0]] + Within(lines[1..])
  }

  function Scanned(parts: seq<string>): seq<string>
    requires parts != []
  {
    if Short(parts) then Ended(parts) else Within(parts)
  }

  /** The lines bufio.Scanner returns: it gives up at a line that is too long. */
  function Lines(text: string): seq<string> {
    DropCRs(Scanned(Split(text, '\n')))
  }

  /** What the scanner has so far: the data of the event being read, and the finished events. */
  datatype Reader = Reader(current: string, events: seq<Json>)

  function Flush(decode: Decoder, r: Reader): Reader {
    if r.current == "" then r
    else
      var event := decode(r.current);
      Reader("", if event.Some? then r.events + [event.value] else r.events)
  }

  function Feed(decode: Decoder, r: Reader, line: string): Reader {
    if line == "" then Flush(decode, r)
    else if DATA <= line then r.(current := r.current + line[|DATA|..])
    else r
  }

  function FeedAll(decode: Decoder, r: Reader, lines: seq<string>): Reader
    decreases |lines|
  {
    if lines == [] then r else FeedAll(decode, Feed(decode, r, lines[0]), lines[1..])
  }

  function EventsOf(decode: Decoder, lines: seq<string>): seq<Json> {
    Flush(decode, FeedAll(decode, Reader("", []), lines)).events
  }

  function Parse(decode: Decoder, text: string): seq<Json> {
    EventsOf(decode, Lines(text))
  }

  lemma {:induction false} FeedConcat(decode: Decoder, r: Reader, xs: seq<string>, ys: seq<string>)
    ensures FeedAll(decode, r, xs + ys) == FeedAll(decode, FeedAll(decode, r, xs), ys)
    decreases |xs|
  {
    if xs == [] {
      assert xs + ys == ys;
    } else {
      assert (xs + ys)[1..] == xs[1..] + ys;
      FeedConcat(decode, Feed(decode, r, xs[0]), xs[1..], ys);
    }
  }

  /** Finished events are only ever added to. */
  lemma {:induction false} EventsAccumulate(decode: Decoder, current: string, before: seq<Json>, lines: seq<string>)
    ensures FeedAll(decode, Reader(current, before), lines).events
            == before + FeedAll(decode, Reader(current, []), lines).events
    ensures FeedAll(decode, Reader(current, before), lines).current
            == FeedAll(decode, Reader(current, []), lines).current
    decreases |lines|
  {
    if lines != [] {
      var one := Feed(decode, Reader(current, []), lines[0]);
      var two := Feed(decode, Reader(current, before), lines[0]);
      assert two.current == one.current && two.events == before + one.events;
      EventsAccumulate(decode, one.current, one.events, lines[1..]);
      EventsAccumulate(decode, one.current, before + one.events, lines[1..]);
    } else {
      assert before + [] == before;
    }
  }

  lemma OneLine(decode: Decoder, r: Reader, line: string)
    ensures FeedAll(decode, r, [line]) == Feed(decode, r, line)
  {
    var none: seq<string> := [];
    assert [line][1..] == none;
  }

  lemma FeedLast(decode: Decoder, r: Reader, lines: seq<string>, i: nat)
    requires i < |lines|
    ensures FeedAll(decode, r, lines[..i + 1]) == Feed(decode, FeedAll(decode, r, lines[..i]), lines[i])
  {
    assert lines[..i + 1] == lines[..i] + [lines[i]];
    FeedConcat(decode, r, lines[..i], [lines[i]]);
    OneLine(decode, FeedAll(decode, r, lines[..i]), lines[i]);
  }

  /**
   * What the caller gets: all events, or, if the time ran out when the reader had got through
   * `expired` lines, the events finished by then.
   */
  function Returned(decode: Decoder, text: string, expired: Option<nat>): seq<Json> {
    if expired.Some? && expired.value <= |Lines(text)|
    then FeedAll(decode, Reader("", []), Lines(text)[..expired.value]).events
    else Parse(decode, text)
  }

  /** The scanner loop of the source, and the timeout beside it. */
  method ParseSSEStream(decode: Decoder, text: string, expired: Option<nat>) returns (events: seq<Json>)
    ensures events == Returned(decode, text, expired)
  {
    var lines := Lines(text);
    var currentData := "";
    events := [];
    for i := 0 to |lines|
      invariant FeedAll(decode, Reader(currentData, events), lines[i..]) == FeedAll(decode, Reader("", []), lines)
      invariant FeedAll(decode, Reader("", []), lines[..i]) == Reader(currentData, events)
      invariant expired.Some? ==> i <= expired.value
    {
      if expired == Some(i) {
        return;
      }
      assert lines[i..][1..] == lines[i + 1..];
      FeedLast(decode, Reader("", []), lines, i);
      var line := lines[i];
      if line == "" {
        if |currentData| > 0 {
          var event := decode(currentData);
          if event.Some? {
            events := events + [event.value];
          }
          currentData := "";
        }
        continue;
      }
      if DATA <= line {
        currentData := currentData + line[|DATA|..];
      }
    }
    assert lines[..|lines|] == lines;
    if expired == Some(|lines|) {
      return;
    }
    if |currentData| > 0 {
      var event := decode(currentData);
      if event.Some? {
        events := events + [event.value];
      }
    }
  }

  /** A timeout loses events at the end only: what is returned is a beginning of what was sent. */
  lemma ExpiredIsPrefix(decode: Decoder, text: string, expired: Option<nat>)
    ensures Returned(decode, text, expired) <= Parse(decode, text)
  {
    var lines := Lines(text);
    if expired.Some? && expired.value <= |lines| {
      var seen := FeedAll(decode, Reader("", []), lines[..expired.value]);
      FeedConcat(decode, Reader("", []), lines[..expired.value], lines[expired.value..]);
      assert lines[..expired.value] + lines[expired.value..] == lines;
      EventsAccumulate(decode, seen.current, seen.events, lines[expired.value..]);
    }
  }

  // ---------------------------------------------------------------------------------------------
  // Distribution over blocks
  // ---------------------------------------------------------------------------------------------

  lemma {:induction false} DropCRsConcat(xs: seq<string>, ys: seq<string>)
    ensures DropCRs(xs + ys) == DropCRs(xs) + DropCRs(ys)
  {
    if xs == [] {
      assert xs + ys == ys;
    } else {
      assert (xs + ys)[1..] == xs[1..] + ys;
      DropCRsConcat(xs[1..], ys);
    }
  }

  lemma {:induction false} WithinConcat(xs: seq<string>, ys: seq<string>)
    ensures Within(xs + ys) == if Short(xs) then xs + Within(ys) else Within(xs)
    ensures Short(xs + ys) <==> Short(xs) && Short(ys)
  {
    if xs == [] {
      assert xs + ys == ys;
    } else {
      var all, rest := xs + ys, xs[1..];
      assert all[0] == xs[0] && all[1..] == rest + ys && xs == [xs[0]] + rest;
      WithinConcat(rest, ys);
      assert forall i | 0 <= i < |rest| :: rest[i] == xs[i + 1];
      assert forall i | 0 <= i < |rest + ys| :: (rest + ys)[i] == all[i + 1];
      assert forall i | 0 < i < |all| :: all[i] == (rest + ys)[i - 1];
    }
  }

  lemma ScannedConcat(xs: seq<string>, ys: seq<string>)
    requires ys != []
    ensures xs + ys != [] && Scanned(xs + ys) == if Short(xs) then xs + Scanned(ys) else Within(xs)
  {
    WithinConcat(xs, ys);
    assert (xs + ys)[|xs + ys| - 1] == ys[|ys| - 1];
    assert (xs + ys)[..|xs + ys| - 1] == xs + ys[..|ys| - 1];
  }

  predicate ShortLines(text: string) {
    Short(Split(text, '\n'))
  }

  /** Text that ends in a newline has its own lines, whatever follows, unless one is too long. */
  lemma LinesOfBlocks(a: string, b: string)
    ensures Lines(a + ['\n'] + b) ==
            if ShortLines(a) then DropCRs(Split(a, '\n')) + Lines(b) else DropCRs(Within(Split(a, '\n')))
  {
    SplitConcat(a, b, '\n');
    ScannedConcat(Split(a, '\n'), Split(b, '\n'));
    if ShortLines(a) {
      DropCRsConcat(Split(a, '\n'), Scanned(Split(b, '\n')));
    }
  }

  lemma NoLines()
    ensures Lines("") == []
  {
    SplitAlone("", '\n');
  }

  lemma DropOne(line: string)
    ensures DropCRs([line]) == [DropCR(line)]
  {
    var none: seq<string> := [];
    assert [line][1..] == none;
  }

  lemma BlankFirst(b: string)
    ensures Lines(['\n'] + b) == [""] + Lines(b)
  {
    LinesOfBlocks("", b);
    assert "" + ['\n'] + b == ['\n'] + b;
    SplitAlone("", '\n');
    DropOne("");
  }

  lemma Regroup(a: string, b: string)
    ensures a + "\n\n" + b == a + ['\n'] + (['\n'] + b)
  {
  }

  /** The lines of text in front of a blank line, the blank line, and the lines behind it. */
  lemma BlockLines(a: string, b: string)
    requires ShortLines(a)
    ensures Lines(a + "\n\n" + b) == DropCRs(Split(a, '\n')) + ([""] + Lines(b))
  {
    Regroup(a, b);
    LinesOfBlocks(a, ['\n'] + b);
    BlankFirst(b);
  }

  lemma NothingBehind(a: string, lines: seq<string>)
    ensures a + "" == a && lines + ([""] + []) == lines + [""]
  {
    var one := [""];
    assert one + [] == one;
  }

  lemma LastBlockLines(a: string)
    requires ShortLines(a)
    ensures Lines(a + "\n\n") == DropCRs(Split(a, '\n')) + [""]
  {
    NoLines();
    NothingBehind(a + "\n\n", DropCRs(Split(a, '\n')));
    BlockLines(a, "");
  }

  /** A blank line leaves nothing unfinished. */
  lemma EventsDistribute(decode: Decoder, xs: seq<string>, ys: seq<string>)
    ensures EventsOf(decode, xs + ([""] + ys)) == EventsOf(decode, xs + [""]) + EventsOf(decode, ys)
  {
    var start := Reader("", []);
    var before := FeedAll(decode, start, xs);
    FeedConcat(decode, start, xs, [""] + ys);
    FeedConcat(decode, before, [""], ys);
    FeedConcat(decode, start, xs, [""]);
    OneLine(decode, before, "");
    EventsAccumulate(decode, "", Flush(decode, before).events, ys);
  }

  lemma CutOffLines(a: string, b: string)
    requires !ShortLines(a)
    ensures Lines(a + "\n\n" + b) == DropCRs(Within(Split(a, '\n')))
  {
    Regroup(a, b);
    LinesOfBlocks(a, ['\n'] + b);
  }

  /**
   * Parsing distributes over concatenation at the end of a block; but at a line that is too long
   * reading ends, and what follows is lost.
   */
  lemma ParseDistributes(decode: Decoder, a: string, b: string)
    ensures Parse(decode, a + "\n\n" + b)
            == Parse(decode, a + "\n\n") + if ShortLines(a) then Parse(decode, b) else []
  {
    if ShortLines(a) {
      BlockLines(a, b);
      LastBlockLines(a);
      EventsDistribute(decode, DropCRs(Split(a, '\n')), Lines(b));
    } else {
      CutOffLines(a, b);
      CutOffLines(a, "");
      assert a + "\n\n" + "" == a + "\n\n";
    }
  }

  // ---------------------------------------------------------------------------------------------
  // What lines mean
  // ---------------------------------------------------------------------------------------------

  /** Text of one line that the scanner takes as it stands. */
  predicate OneLineText(line: string) {
    '\n' !in line && |line| <= 0xffff && (line != "" ==> line[|line| - 1] != '\r')
  }

  lemma LineThen(line: string, rest: string)
    requires '\n' !in line && |line| <= 0xffff
    ensures Lines(line + ['\n'] + rest) == [DropCR(line)] + Lines(rest)
  {
    SplitAlone(line, '\n');
    LinesOfBlocks(line, rest);
    DropOne(line);
  }

  lemma FeedFirst(decode: Decoder, r: Reader, line: string, lines: seq<string>)
    ensures FeedAll(decode, r, [line] + lines) == FeedAll(decode, Feed(decode, r, line), lines)
  {
    assert ([line] + lines)[1..] == lines;
  }

  /** A carriage return before the newline makes no difference. */
  lemma CarriageReturnDropped(decode: Decoder, line: string, rest: string)
    requires OneLineText(line) && |line| < 0xffff
    ensures Parse(decode, line + "\r" + ['\n'] + rest) == Parse(decode, line + ['\n'] + rest)
  {
    LineThen(line, rest);
    LineThen(line + "\r", rest);
    assert (line + "\r")[..|line|] == line;
  }

  /** Lines that are neither blank nor begin with "data: " are passed over. */
  lemma OtherLinesIgnored(decode: Decoder, line: string, rest: string)
    requires OneLineText(line) && line != "" && !("data: " <= line)
    ensures Parse(decode, line + ['\n'] + rest) == Parse(decode, rest)
  {
    LineThen(line, rest);
    FeedFirst(decode, Reader("", []), line, Lines(rest));
  }

  /** The data lines of one event. */
  function DataLines(datas: seq<string>): string {
    if datas == [] then "" else "data: " + datas[0] + ['\n'] + DataLines(datas[1..])
  }

  function Joined(datas: seq<string>): string {
    if datas == [] then "" else datas[0] + Joined(datas[1..])
  }

  predicate AllData(datas: seq<string>) {
    forall i | 0 <= i < |datas| :: OneLineText("data: " + datas[i])
  }

  lemma DataLineFeeds(decode: Decoder, current: string, data: string, lines: seq<string>)
    ensures FeedAll(decode, Reader(current, []), ["data: " + data] + lines)
            == FeedAll(decode, Reader(current + data, []), lines)
  {
    FeedFirst(decode, Reader(current, []), "data: " + data, lines);
    assert ("data: " + data)[|DATA|..] == data;
  }

  lemma DataFront(datas: seq<string>, rest: string)
    requires datas != []
    ensures DataLines(datas) + rest == ("data: " + datas[0]) + ['\n'] + (DataLines(datas[1..]) + rest)
  {
    Associated("data: " + datas[0] + ['\n'], DataLines(datas[1..]), rest);
  }

  lemma Associated(a: string, b: string, c: string)
    ensures (a + b) + c == a + (b + c)
  {
  }

  lemma AllDataTail(datas: seq<string>)
    requires AllData(datas) && datas != []
    ensures OneLineText("data: " + datas[0]) && AllData(datas[1..])
  {
    forall i | 0 <= i < |datas[1..]| ensures OneLineText("data: " + datas[1..][i]) {
      assert OneLineText("data: " + datas[i + 1]);
    }
  }

  lemma DataLineRead(decode: Decoder, current: string, data: string, rest: string)
    requires OneLineText("data: " + data)
    ensures FeedAll(decode, Reader(current, []), Lines(("data: " + data) + ['\n'] + rest))
            == FeedAll(decode, Reader(current + data, []), Lines(rest))
  {
    LineThen("data: " + data, rest);
    DataLineFeeds(decode, current, data, Lines(rest));
  }

  lemma {:induction false} DataLinesFeed(decode: Decoder, current: string, datas: seq<string>, rest: string)
    requires AllData(datas)
    ensures FeedAll(decode, Reader(current, []), Lines(DataLines(datas) + rest))
            == FeedAll(decode, Reader(current + Joined(datas), []), Lines(rest))
    decreases |datas|
  {
    if datas == [] {
      assert DataLines(datas) + rest == rest && current + Joined(datas) == current;
    } else {
      AllDataTail(datas);
      DataFront(datas, rest);
      DataLineRead(decode, current, datas[0], DataLines(datas[1..]) + rest);
      DataLinesFeed(decode, current + datas[0], datas[1..], rest);
      Associated(current, datas[0], Joined(datas[1..]));
    }
  }

  /**
   * An event is what its data lines give joined as they are, without a newline between them; what
   * does not decode is passed over, and so is a block without data.
   */
  lemma BlockRead(decode: Decoder, datas: seq<string>, rest: string)
    requires AllData(datas)
    ensures
      var data := Joined(datas);
      Parse(decode, DataLines(datas) + (['\n'] + rest))
      == (if data != "" && decode(data).Some? then [decode(data).value] else []) + Parse(decode, rest)
  {
    var data := Joined(datas);
    DataLinesFeed(decode, "", datas, ['\n'] + rest);
    assert "" + data == data;
    BlankFirst(rest);
    FeedFirst(decode, Reader(data, []), "", Lines(rest));
    var events := Flush(decode, Reader(data, [])).events;
    EventsAccumulate(decode, "", events, Lines(rest));
  }

  // ---------------------------------------------------------------------------------------------
  // Round trip
  // ---------------------------------------------------------------------------------------------

  /** `text` is JSON text as an encoder prints it on one line, and it reads back as `event`. */
  predicate Encodes(decode: Decoder, text: string, event: Json) {
    && text != "" && |"data: " + text| <= 0xffff && '\n' !in text && text[|text| - 1] != '\r'
    && decode(text) == Some(event)
  }

  /** The events as the mock server writes them. */
  function Print(texts: seq<string>): string {
    if texts == [] then "" else ("data: " + texts[0] + "\n\n") + Print(texts[1..])
  }

  /** The lines of one data line with nothing, a newline or a blank line behind it. */
  lemma LinesOfOne(line: string, end: string)
    requires line != "" && |line| <= MAX_LINE && '\n' !in line && line[|line| - 1] != '\r'
    requires end in ["", "\n", "\n\n"]
    ensures Lines(line + end) == [line] + (if end == "\n\n" then [""] else [])
  {
    SplitAlone(line, '\n');
    DropOne(line);
    if end == "" {
      assert line + end == line;
    } else if end == "\n" {
      LinesOfBlocks(line, "");
      NoLines();
      assert line + ['\n'] + "" == line + end;
    } else {
      LastBlockLines(line);
    }
  }

  lemma FeedOne(decode: Decoder, text: string, event: Json)
    requires Encodes(decode, text, event)
    ensures FeedAll(decode, Reader("", []), [DATA + text]) == Reader(text, [])
    ensures FeedAll(decode, Reader("", []), [DATA + text] + [""]) == Reader("", [event])
  {
    var line := DATA + text;
    var start := Reader("", []);
    assert line[|DATA|..] == text && "" + text == text;
    assert Feed(decode, start, line) == Reader(text, []);
    OneLine(decode, start, line);
    FeedConcat(decode, start, [line], [""]);
    OneLine(decode, Reader(text, []), "");
  }

  /** One data line, with nothing, a newline or a blank line behind it. */
  lemma OneBlock(decode: Decoder, text: string, event: Json, end: string)
    requires Encodes(decode, text, event) && end in ["", "\n", "\n\n"]
    ensures Parse(decode, DATA + text + end) == [event]
  {
    var line := DATA + text;
    assert '\n' !in line && line[|line| - 1] == text[|text| - 1];
    LinesOfOne(line, end);
    FeedOne(decode, text, event);
    assert [line] + [] == [line];
    assert Flush(decode, Reader(text, [])).events == [event];
  }

  lemma PrintedIsShort(decode: Decoder, text: string, event: Json)
    requires Encodes(decode, text, event)
    ensures ShortLines(DATA + text)
  {
    SplitAlone(DATA + text, '\n');
  }

  /** A printed block in front of anything adds its event in front. */
  lemma BlockThen(decode: Decoder, text: string, event: Json, rest: string)
    requires Encodes(decode, text, event)
    ensures Parse(decode, DATA + text + "\n\n" + rest) == [event] + Parse(decode, rest)
  {
    OneBlock(decode, text, event, "\n\n");
    PrintedIsShort(decode, text, event);
    ParseDistributes(decode, DATA + text, rest);
  }

  lemma PrintFirst(texts: seq<string>, rest: string)
    requires texts != []
    ensures Print(texts) + rest == (DATA + texts[0] + "\n\n") + (Print(texts[1..]) + rest)
  {
    var block := DATA + texts[0] + "\n\n";
    assert Print(texts) == block + Print(texts[1..]);
    assert (block + Print(texts[1..])) + rest == block + (Print(texts[1..]) + rest);
  }

  lemma EventsFirst(events: seq<Json>, rest: seq<Json>)
    requires events != []
    ensures [events[0]] + (events[1..] + rest) == events + rest
  {
  }

  lemma {:induction false} PrintedThen(decode: Decoder, texts: seq<string>, events: seq<Json>, rest: string)
    requires |texts| == |events| && forall i | 0 <= i < |texts| :: Encodes(decode, texts[i], events[i])
    ensures Parse(decode, Print(texts) + rest) == events + Parse(decode, rest)
    decreases |texts|
  {
    if texts == [] {
      assert Print(texts) + rest == rest;
      assert events == [];
    } else {
      PrintedThen(decode, texts[1..], events[1..], rest);
      BlockThen(decode, texts[0], events[0], Print(texts[1..]) + rest);
      PrintFirst(texts, rest);
      EventsFirst(events, Parse(decode, rest));
    }
  }

  /**
   * Reading back what was printed returns exactly the printed events, in order; and a last event
   * cut off before its blank line, or even before its newline, is still returned.
   */
  lemma ParsePrinted(decode: Decoder, texts: seq<string>, events: seq<Json>, last: string, event: Json, end: string)
    requires |texts| == |events| && forall i | 0 <= i < |texts| :: Encodes(decode, texts[i], events[i])
    requires Encodes(decode, last, event) && end in ["", "\n", "\n\n"]
    ensures Parse(decode, Print(texts)) == events
    ensures Parse(decode, Print(texts) + ("data: " + last + end)) == events + [event]
  {
    PrintedThen(decode, texts, events, DATA + last + end);
    OneBlock(decode, last, event, end);
    PrintedThen(decode, texts, events, "");
    assert Print(texts) + "" == Print(texts);
    NoLines();
  }
}
