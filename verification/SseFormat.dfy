/**
 * Printing server-sent events, and the round trip through the parser: what was printed is read
 * back event by event, whatever bytes the payloads hold and however the stream is cut.
 */
module SseFormat {
  import opened Options
  import opened Utf16
  import opened Sse

  /**
   * The printer's input. Absent fields are None; a retry that is null or not finite is None too.
   */
  datatype OutEvent = OutEvent(
    comment: Option<Text>,
    id: Option<Text>,
    event: Option<Text>,
    retry: Option<real>,
    data: Option<Text>)

  /** How an integer is written out, e.g. by template interpolation. */
  type Show = nat -> Text

  function DropBreaks(s: Text): (r: Text)
    ensures |r| <= |s| && (r != [] ==> !IsBreak(r[0]))
  {
    if s != [] && IsBreak(s[0]) then DropBreaks(s[1..]) else s
  }

  /** Every run of terminators becomes one space. */
  function OneLine(s: Text): Text
    decreases |s|
  {
    if s == [] then []
    else if IsBreak(s[0]) then [SPACE] + OneLine(DropBreaks(s[1..]))
    else [s[0]] + OneLine(s[1..])
  }

  lemma {:induction false} OneLineHasNoBreaks(s: Text)
    ensures NoBreaks(OneLine(s))
    decreases |s|
  {
    if s != [] {
      OneLineHasNoBreaks(if IsBreak(s[0]) then DropBreaks(s[1..]) else s[1..]);
    }
  }

  /** The payload as a reader sees it: CR LF and CR become LF. */
  function NormalizeBreaks(s: Text): Text
    decreases |s|
  {
    if s == [] then []
    else if s[0] == CR then
      [LF] + (if |s| >= 2 && s[1] == LF then NormalizeBreaks(s[2..]) else NormalizeBreaks(s[1..]))
    else [s[0]] + NormalizeBreaks(s[1..])
  }

  /** Whole milliseconds, never negative. */
  function RetryOf(r: real): (n: nat)
    ensures if r < 0.0 then n == 0 else n as real <= r < n as real + 1.0
  {
    if r.Floor < 0 then 0 else r.Floor
  }

  predicate NonEmpty(t: Option<Text>) {
    t.Some? && t.value != []
  }

  // --- what is printed ----------------------------------------------------

  function Labelled(name: Text, value: Text): Text {
    name + [COLON, SPACE] + value
  }

  function DataLines(lines: seq<Text>): (r: seq<Text>)
    ensures |r| == |lines|
  {
    if lines == [] then [] else [Labelled(DATA, lines[0])] + DataLines(lines[1..])
  }

  function CommentLine(e: OutEvent): seq<Text> {
    if e.comment.Some? then [Labelled([], OneLine(e.comment.value))] else []
  }

  function IdLine(e: OutEvent): seq<Text> {
    if NonEmpty(e.id) then [Labelled(ID, OneLine(e.id.value))] else []
  }

  function EventLine(e: OutEvent): seq<Text> {
    if NonEmpty(e.event) then [Labelled(EVENT, OneLine(e.event.value))] else []
  }

  function RetryLine(e: OutEvent, show: Show): seq<Text> {
    if e.retry.Some? then [Labelled(RETRY, show(RetryOf(e.retry.value)))] else []
  }

  function NamedLines(e: OutEvent, show: Show): seq<Text> {
    CommentLine(e) + IdLine(e) + EventLine(e) + RetryLine(e, show)
  }

  function BodyLines(e: OutEvent): seq<Text> {
    if e.data.Some? then DataLines(SplitLines(e.data.value)) else []
  }

  /** The lines of one frame, the blank one included. */
  function FrameLines(e: OutEvent, show: Show): seq<Text> {
    NamedLines(e, show) + BodyLines(e) + [[]]
  }

  function Terminated(lines: seq<Text>): Text {
    if lines == [] then [] else lines[0] + [LF] + Terminated(lines[1..])
  }

  function Format(e: OutEvent, show: Show): Text {
    Terminated(FrameLines(e, show))
  }

  function FormatAll(es: seq<OutEvent>, show: Show): Text {
    if es == [] then [] else Format(es[0], show) + FormatAll(es[1..], show)
  }

  lemma {:induction false} TerminatedAppend(xs: seq<Text>, ys: seq<Text>)
    ensures Terminated(xs + ys) == Terminated(xs) + Terminated(ys)
  {
    if xs == [] {
      assert xs + ys == ys;
    } else {
      assert (xs + ys)[1..] == xs[1..] + ys;
      TerminatedAppend(xs[1..], ys);
    }
  }

  /** Builds the frame piece by piece, as the source does. */
  method FormatSse(e: OutEvent, show: Show) returns (out: Text)
    ensures out == Format(e, show)
  {
    out := FormatComment(e);
    ghost var head := CommentLine(e);
    out := FormatId(e, out, head);
    head := head + IdLine(e);
    out := FormatName(e, out, head);
    head := head + EventLine(e);
    out := FormatRetry(e, show, out, head);
    head := head + RetryLine(e, show);
    out := FormatData(e, out, head);
    head := head + BodyLines(e);
    TerminatedAppend(head, [[]]);
    out := out + [LF];
  }

  method FormatComment(e: OutEvent) returns (out: Text)
    ensures out == Terminated(CommentLine(e))
  {
    out := [];
    if e.comment.Some? {
      out := out + (Labelled([], OneLine(e.comment.value)) + [LF]);
    }
  }

  method FormatId(e: OutEvent, before: Text, ghost head: seq<Text>) returns (out: Text)
    requires before == Terminated(head)
    ensures out == Terminated(head + IdLine(e))
  {
    out := before;
    if NonEmpty(e.id) {
      out := out + (Labelled(ID, OneLine(e.id.value)) + [LF]);
    }
    TerminatedAppend(head, IdLine(e));
  }

  method FormatName(e: OutEvent, before: Text, ghost head: seq<Text>) returns (out: Text)
    requires before == Terminated(head)
    ensures out == Terminated(head + EventLine(e))
  {
    out := before;
    if NonEmpty(e.event) {
      out := out + (Labelled(EVENT, OneLine(e.event.value)) + [LF]);
    }
    TerminatedAppend(head, EventLine(e));
  }

  method FormatRetry(e: OutEvent, show: Show, before: Text, ghost head: seq<Text>) returns (out: Text)
    requires before == Terminated(head)
    ensures out == Terminated(head + RetryLine(e, show))
  {
    out := before;
    if e.retry.Some? {
      out := out + (Labelled(RETRY, show(RetryOf(e.retry.value))) + [LF]);
    }
    TerminatedAppend(head, RetryLine(e, show));
  }

  method FormatData(e: OutEvent, before: Text, ghost head: seq<Text>) returns (out: Text)
    requires before == Terminated(head)
    ensures out == Terminated(head + BodyLines(e))
  {
    out := before;
    if e.data.Some? {
      var body := FormatBody(SplitLines(e.data.value));
      out := out + body;
    }
    TerminatedAppend(head, BodyLines(e));
  }

  method FormatBody(lines: seq<Text>) returns (out: Text)
    ensures out == Terminated(DataLines(lines))
  {
    out := [];
    ghost var done: seq<Text> := [];
    for i := 0 to |lines|
      invariant done + DataLines(lines[i..]) == DataLines(lines)
      invariant out == Terminated(done)
    {
      assert lines[i..][1..] == lines[i + 1..];
      TerminatedAppend(done, [Labelled(DATA, lines[i])]);
      done := done + [Labelled(DATA, lines[i])];
      out := out + (Labelled(DATA, lines[i]) + [LF]);
    }
    assert lines[|lines|..] == [];
    assert done + [] == done;
  }

  // --- what is read back --------------------------------------------------

  predicate HasField(e: OutEvent) {
    NonEmpty(e.id) || NonEmpty(e.event) || e.retry.Some? || e.data.Some?
  }

  /** The last event id after the frame; an id holding NUL is ignored. */
  function IdAfter(e: OutEvent, lastId: Option<Text>): Option<Text> {
    if NonEmpty(e.id) && 0 !in OneLine(e.id.value) then Some(OneLine(e.id.value)) else lastId
  }

  function ReadBack(e: OutEvent, lastId: Option<Text>): seq<SseEvent> {
    (if e.comment.Some? then [CommentEvent(OneLine(e.comment.value))] else [])
    + (if HasField(e) then
         [SseEvent(
            if NonEmpty(e.event) then Some(OneLine(e.event.value)) else None,
            if e.data.Some? then NormalizeBreaks(e.data.value) else [],
            IdAfter(e, lastId),
            if e.retry.Some? then Some(RetryOf(e.retry.value)) else None,
            None)]
       else [])
  }

  function ReadBackAll(es: seq<OutEvent>, lastId: Option<Text>): seq<SseEvent> {
    if es == [] then []
    else ReadBack(es[0], lastId) + ReadBackAll(es[1..], IdAfter(es[0], lastId))
  }

  function DataBytes(lines: seq<Text>): nat {
    if lines == [] then 0 else Utf8Len(lines[0]) + 1 + DataBytes(lines[1..])
  }

  predicate AllFit(lines: seq<Text>, max: nat) {
    lines == [] || (Utf8Len(lines[0]) <= max && AllFit(lines[1..], max))
  }

  /** Within the caps: every printed line, and the frame's data in all. */
  predicate Fits(e: OutEvent, max: nat, show: Show) {
    && AllFit(FrameLines(e, show), max)
    && (e.data.Some? ==> DataBytes(SplitLines(e.data.value)) <= max)
  }

  predicate AllFrames(es: seq<OutEvent>, max: nat, show: Show) {
    es == [] || (Fits(es[0], max, show) && AllFrames(es[1..], max, show))
  }

  /** The frame's retry value, if it has one, is written without breaks and reads back. */
  predicate RetryReads(e: OutEvent, numeral: Numeral, show: Show) {
    e.retry.Some? ==>
      var n := RetryOf(e.retry.value);
      NoBreaks(show(n)) && numeral(show(n)) == Some(n)
  }

  predicate RetriesRead(es: seq<OutEvent>, numeral: Numeral, show: Show) {
    es == [] || (RetryReads(es[0], numeral, show) && RetriesRead(es[1..], numeral, show))
  }

  // --- payload text ---------------------------------------------------------

  lemma {:induction false} NormalizePrefix(p: Text, s: Text)
    requires NoBreaks(p)
    ensures NormalizeBreaks(p + s) == p + NormalizeBreaks(s)
  {
    if p == [] {
      assert p + s == s;
    } else {
      assert (p + s)[1..] == p[1..] + s;
      NormalizePrefix(p[1..], s);
    }
  }

  lemma NormalizeAtBreak(s: Text, i: nat)
    requires i < |s| && IsBreak(s[i])
    ensures NormalizeBreaks(s[i..]) == [LF] + NormalizeBreaks(s[i + BreakWidth(s, i)..])
  {
    var t := s[i..];
    assert t[1..] == s[i + 1..];
    assert i + 2 <= |s| ==> t[2..] == s[i + 2..];
  }

  lemma JoinCons(line: Text, lines: seq<Text>)
    requires lines != []
    ensures JoinLines([line] + lines) == line + ([LF] + JoinLines(lines))
  {
    var all := [line] + lines;
    assert all[1..] == lines;
  }

  /** Splitting a payload and joining its lines with LF only rewrites the terminators. */
  lemma {:induction false} JoinSplit(s: Text)
    ensures JoinLines(SplitLines(s)) == NormalizeBreaks(s)
    decreases |s|
  {
    var i := FirstBreak(s);
    if i == |s| {
      BeforeFirstBreak(s);
      assert s[..i] == s;
      NormalizePrefix(s, []);
      assert s + [] == s;
    } else {
      JoinSplit(AfterFront(s));
      JoinCons(FrontLine(s), SplitLines(AfterFront(s)));
      NormalizeAtBreak(s, i);
      BeforeFirstBreak(s);
      NormalizePrefix(s[..i], s[i..]);
      assert s == s[..i] + s[i..];
    }
  }

  /** No line holds a terminator. */
  predicate Plain(lines: seq<Text>) {
    lines == [] || (NoBreaks(lines[0]) && Plain(lines[1..]))
  }

  lemma {:induction false} PlainAppend(xs: seq<Text>, ys: seq<Text>)
    requires Plain(xs) && Plain(ys)
    ensures Plain(xs + ys)
  {
    if xs == [] {
      assert xs + ys == ys;
    } else {
      assert (xs + ys)[1..] == xs[1..] + ys;
      PlainAppend(xs[1..], ys);
    }
  }

  lemma {:induction false} SplitIsPlain(s: Text)
    ensures Plain(SplitLines(s))
    decreases |s|
  {
    var i := FirstBreak(s);
    BeforeFirstBreak(s);
    if i < |s| {
      var tail := SplitLines(AfterFront(s));
      SplitIsPlain(AfterFront(s));
      assert SplitLines(s)[1..] == tail;
    } else {
      assert s[..i] == s;
      assert SplitLines(s)[1..] == [];
    }
  }

  lemma {:induction false} DataLinesPlain(lines: seq<Text>)
    requires Plain(lines)
    ensures Plain(DataLines(lines))
  {
    if lines != [] {
      DataLinesPlain(lines[1..]);
      assert DataLines(lines)[1..] == DataLines(lines[1..]);
    }
  }

  lemma NameLinesPlain(e: OutEvent)
    ensures Plain(CommentLine(e)) && Plain(IdLine(e)) && Plain(EventLine(e))
  {
    if e.comment.Some? {
      OneLineHasNoBreaks(e.comment.value);
    }
    if e.id.Some? {
      OneLineHasNoBreaks(e.id.value);
    }
    if e.event.Some? {
      OneLineHasNoBreaks(e.event.value);
    }
  }

  lemma FrameLinesPlain(e: OutEvent, show: Show)
    requires e.retry.Some? ==> NoBreaks(show(RetryOf(e.retry.value)))
    ensures Plain(FrameLines(e, show))
  {
    if e.data.Some? {
      SplitIsPlain(e.data.value);
      DataLinesPlain(SplitLines(e.data.value));
    }
    NameLinesPlain(e);
    var head := CommentLine(e) + IdLine(e);
    PlainAppend(CommentLine(e), IdLine(e));
    PlainAppend(head, EventLine(e));
    PlainAppend(head + EventLine(e), RetryLine(e, show));
    head := head + EventLine(e) + RetryLine(e, show);
    PlainAppend(head, BodyLines(e));
    PlainAppend(head + BodyLines(e), [[]]);
  }

  lemma ReadLine(line: Text, rest: Text)
    requires NoBreaks(line)
    ensures StreamLines(line + [LF] + rest) == [line] + StreamLines(rest)
  {
    var text := line + [LF] + rest;
    var after := [LF] + rest;
    assert text == line + after;
    FirstBreakAfter(line, after);
    assert text[..|line|] == line && text[|line| + 1..] == rest;
    StreamLinesStep(text);
  }

  lemma TerminatedThen(line: Text, lines: seq<Text>, s: Text)
    ensures Terminated([line] + lines) + s == line + [LF] + (Terminated(lines) + s)
  {
    var all := [line] + lines;
    assert all[1..] == lines;
  }

  /** Lines printed with LF are the lines read, when no line holds a terminator. */
  lemma {:induction false} ReadTerminated(lines: seq<Text>, s: Text)
    requires Plain(lines)
    ensures StreamLines(Terminated(lines) + s) == lines + StreamLines(s)
  {
    if lines == [] {
      assert Terminated(lines) + s == s;
    } else {
      assert lines == [lines[0]] + lines[1..];
      ReadTerminated(lines[1..], s);
      TerminatedThen(lines[0], lines[1..], s);
      ReadFirst(lines[0], Terminated(lines[1..]) + s, lines[1..], StreamLines(s));
    }
  }

  lemma ReadFirst(line: Text, text: Text, more: seq<Text>, rest: seq<Text>)
    requires NoBreaks(line) && StreamLines(text) == more + rest
    ensures StreamLines(line + [LF] + text) == [line] + more + rest
  {
    ReadLine(line, text);
    assert [line] + (more + rest) == [line] + more + rest;
  }

  // --- one frame through the parser ----------------------------------------

  lemma {:induction false} ColonAfter(name: Text, rest: Text)
    requires COLON !in name
    ensures IndexOfColon(name + [COLON] + rest) == |name|
  {
    var line := name + [COLON] + rest;
    if name != [] {
      assert line[1..] == name[1..] + [COLON] + rest;
      ColonAfter(name[1..], rest);
    }
  }

  lemma LabelledParts(name: Text, value: Text)
    requires COLON !in name
    ensures var line := Labelled(name, value);
      && IndexOfColon(line) == |name|
      && line[..|name|] == name
      && DropOneSpace(line[|name| + 1..]) == value
  {
    var line := Labelled(name, value);
    var spaced := [SPACE] + value;
    assert line == name + [COLON] + spaced;
    ColonAfter(name, spaced);
    assert line[..|name|] == name;
    assert line[|name| + 1..] == spaced;
    assert spaced[1..] == value;
  }

  /** What lines give when none throws. */
  function Read(read: LineReader, f: Fields, lines: seq<Text>): Option<(Fields, seq<SseEvent>)> {
    var o := ParseLines(read, f, lines);
    if o.thrown then None else Some((o.fields, o.events))
  }

  function Then(read: LineReader, first: Option<(Fields, seq<SseEvent>)>, lines: seq<Text>): Option<(Fields, seq<SseEvent>)> {
    if first.None? then None
    else
      var rest := Read(read, first.value.0, lines);
      if rest.None? then None else Some((rest.value.0, first.value.1 + rest.value.1))
  }

  lemma {:induction false} ReadAppend(read: LineReader, f: Fields, xs: seq<Text>, ys: seq<Text>)
    ensures Read(read, f, xs + ys) == Then(read, Read(read, f, xs), ys)
    decreases |xs|
  {
    if xs == [] {
      assert xs + ys == ys;
      var o := ParseLines(read, f, ys);
      assert [] + o.events == o.events;
    } else {
      assert (xs + ys)[1..] == xs[1..] + ys;
      var o := read(f, xs[0]);
      if !o.thrown {
        ReadAppend(read, o.fields, xs[1..], ys);
        var first := ParseLines(read, o.fields, xs[1..]);
        var rest := ParseLines(read, first.fields, ys);
        assert o.events + (first.events + rest.events) == (o.events + first.events) + rest.events;
      }
    }
  }

  lemma ReadOne(read: LineReader, f: Fields, line: Text)
    ensures var o := read(f, line);
      Read(read, f, [line]) == if o.thrown then None else Some((o.fields, o.events))
  {
    var lines := [line];
    assert lines[1..] == [];
    var o := read(f, line);
    assert ParseLines(read, o.fields, lines[1..]) == Outcome(o.fields, [], false);
    assert o.events + [] == o.events;
    assert ParseLines(read, f, lines).thrown == o.thrown;
  }

  /** A labelled line that fits is a field line with exactly that name and value. */
  lemma LabelledStep(f: Fields, name: Text, value: Text, max: nat, numeral: Numeral)
    requires COLON !in name && name != []
    ensures var o := LineStep(f, Labelled(name, value), max, numeral);
      if Utf8Len(Labelled(name, value)) > max then o.thrown
      else if name == DATA then
        var bytes := f.eventBytes + Utf8Len(value) + 1;
        o.thrown == (bytes > max)
        && (!o.thrown ==> o == Outcome(f.(eventBytes := bytes, dataLines := f.dataLines + [value], pending := true), [], false))
      else if name == EVENT then o == Outcome(f.(eventName := Some(value), pending := true), [], false)
      else if name == ID then
        o == Outcome(f.(lastId := if 0 in value then f.lastId else Some(value), pending := true), [], false)
      else if name == RETRY then
        o == Outcome(f.(retry := if numeral(value).Some? then numeral(value) else f.retry, pending := true), [], false)
      else o == Outcome(f, [], false)
  {
    LabelledParts(name, value);
    var line := Labelled(name, value);
    assert line[0] == name[0];
  }

  lemma AllFitOne(line: Text, max: nat)
    ensures AllFit([line], max) == (Utf8Len(line) <= max)
  {
    var lines := [line];
    assert lines[1..] == [];
  }

  lemma {:induction false} AllFitAppend(xs: seq<Text>, ys: seq<Text>, max: nat)
    ensures AllFit(xs + ys, max) == (AllFit(xs, max) && AllFit(ys, max))
  {
    if xs == [] {
      assert xs + ys == ys;
    } else {
      assert (xs + ys)[1..] == xs[1..] + ys;
      AllFitAppend(xs[1..], ys, max);
    }
  }

  lemma ReadComment(e: OutEvent, f: Fields, max: nat, numeral: Numeral)
    ensures Read(ReaderOf(max, numeral), f, CommentLine(e)) ==
      if !AllFit(CommentLine(e), max) then None
      else Some((f, if e.comment.Some? then [CommentEvent(OneLine(e.comment.value))] else []))
  {
    if e.comment.Some? {
      var text := OneLine(e.comment.value);
      var line := Labelled([], text);
      AllFitOne(line, max);
      ReadOne(ReaderOf(max, numeral), f, line);
      LabelledParts([], text);
    }
  }

  lemma ReadId(e: OutEvent, f: Fields, max: nat, numeral: Numeral)
    ensures Read(ReaderOf(max, numeral), f, IdLine(e)) ==
      if !AllFit(IdLine(e), max) then None
      else Some((f.(lastId := IdAfter(e, f.lastId), pending := f.pending || NonEmpty(e.id)), []))
  {
    if NonEmpty(e.id) {
      var value := OneLine(e.id.value);
      AllFitOne(Labelled(ID, value), max);
      ReadOne(ReaderOf(max, numeral), f, Labelled(ID, value));
      LabelledStep(f, ID, value, max, numeral);
    }
  }

  lemma ReadEvent(e: OutEvent, f: Fields, max: nat, numeral: Numeral)
    ensures Read(ReaderOf(max, numeral), f, EventLine(e)) ==
      if !AllFit(EventLine(e), max) then None
      else if NonEmpty(e.event) then Some((f.(eventName := Some(OneLine(e.event.value)), pending := true), []))
      else Some((f, []))
  {
    if NonEmpty(e.event) {
      var value := OneLine(e.event.value);
      AllFitOne(Labelled(EVENT, value), max);
      ReadOne(ReaderOf(max, numeral), f, Labelled(EVENT, value));
      LabelledStep(f, EVENT, value, max, numeral);
    }
  }

  lemma ReadRetry(e: OutEvent, f: Fields, max: nat, numeral: Numeral, show: Show)
    requires RetryReads(e, numeral, show)
    ensures Read(ReaderOf(max, numeral), f, RetryLine(e, show)) ==
      if !AllFit(RetryLine(e, show), max) then None
      else if e.retry.Some? then Some((f.(retry := Some(RetryOf(e.retry.value)), pending := true), []))
      else Some((f, []))
  {
    if e.retry.Some? {
      var value := show(RetryOf(e.retry.value));
      AllFitOne(Labelled(RETRY, value), max);
      ReadOne(ReaderOf(max, numeral), f, Labelled(RETRY, value));
      LabelledStep(f, RETRY, value, max, numeral);
    }
  }

  function AfterData(f: Fields, lines: seq<Text>): Fields {
    f.(dataLines := f.dataLines + lines, eventBytes := f.eventBytes + DataBytes(lines), pending := f.pending || lines != [])
  }

  lemma AfterDataCons(f: Fields, lines: seq<Text>)
    requires lines != []
    ensures var next := f.(dataLines := f.dataLines + [lines[0]],
                           eventBytes := f.eventBytes + Utf8Len(lines[0]) + 1, pending := true);
      AfterData(next, lines[1..]) == AfterData(f, lines)
  {
    assert f.dataLines + [lines[0]] + lines[1..] == f.dataLines + lines;
  }

  /** One data line on its own. */
  function DataResult(f: Fields, value: Text, max: nat): Option<(Fields, seq<SseEvent>)> {
    var bytes := f.eventBytes + Utf8Len(value) + 1;
    if Utf8Len(Labelled(DATA, value)) > max || bytes > max then None
    else Some((f.(dataLines := f.dataLines + [value], eventBytes := bytes, pending := true), []))
  }

  ghost predicate ReadsData(read: LineReader, max: nat) {
    forall f, value :: Read(read, f, [Labelled(DATA, value)]) == DataResult(f, value, max)
  }

  lemma ReaderReadsData(max: nat, numeral: Numeral)
    ensures ReadsData(ReaderOf(max, numeral), max)
  {
    forall f, value
      ensures Read(ReaderOf(max, numeral), f, [Labelled(DATA, value)]) == DataResult(f, value, max)
    {
      ReadOne(ReaderOf(max, numeral), f, Labelled(DATA, value));
      LabelledStep(f, DATA, value, max, numeral);
    }
  }

  lemma {:induction false} ReadData(read: LineReader, lines: seq<Text>, f: Fields, max: nat)
    requires ReadsData(read, max) && f.eventBytes <= max
    ensures Read(read, f, DataLines(lines)) ==
      if !AllFit(DataLines(lines), max) || f.eventBytes + DataBytes(lines) > max then None
      else Some((AfterData(f, lines), []))
    decreases |lines|
  {
    if lines == [] {
      assert f.dataLines + lines == f.dataLines;
    } else {
      var line, more := Labelled(DATA, lines[0]), DataLines(lines[1..]);
      ReadAppend(read, f, [line], more);
      AllFitOne(line, max);
      AllFitAppend([line], more, max);
      var first := DataResult(f, lines[0], max);
      assert Read(read, f, [line]) == first;
      if first.Some? {
        ReadData(read, lines[1..], first.value.0, max);
        AfterDataCons(f, lines);
      }
    }
  }

  function Clean(lastId: Option<Text>): Fields {
    Fields([], None, lastId, None, false, 0)
  }

  /** What the four optional lines of a frame leave, from a clean start. */
  function HeadResult(e: OutEvent, lastId: Option<Text>, max: nat, show: Show): Option<(Fields, seq<SseEvent>)> {
    if !AllFit(NamedLines(e, show), max) then None
    else Some((Fields([], if NonEmpty(e.event) then Some(OneLine(e.event.value)) else None, IdAfter(e, lastId),
                      if e.retry.Some? then Some(RetryOf(e.retry.value)) else None,
                      NonEmpty(e.id) || NonEmpty(e.event) || e.retry.Some?, 0),
               if e.comment.Some? then [CommentEvent(OneLine(e.comment.value))] else []))
  }

  lemma ReadHead(e: OutEvent, lastId: Option<Text>, max: nat, numeral: Numeral, show: Show)
    requires RetryReads(e, numeral, show)
    ensures Read(ReaderOf(max, numeral), Clean(lastId), NamedLines(e, show)) == HeadResult(e, lastId, max, show)
  {
    var read, f := ReaderOf(max, numeral), Clean(lastId);
    ReadComment(e, f, max, numeral);
    var part := CommentLine(e);
    ReadAppend(read, f, part, IdLine(e));
    AllFitAppend(part, IdLine(e), max);
    ReadId(e, f, max, numeral);
    part := part + IdLine(e);
    f := f.(lastId := IdAfter(e, lastId), pending := NonEmpty(e.id));
    ReadAppend(read, Clean(lastId), part, EventLine(e));
    AllFitAppend(part, EventLine(e), max);
    ReadEvent(e, f, max, numeral);
    part := part + EventLine(e);
    f := if NonEmpty(e.event) then f.(eventName := Some(OneLine(e.event.value)), pending := true) else f;
    ReadAppend(read, Clean(lastId), part, RetryLine(e, show));
    AllFitAppend(part, RetryLine(e, show), max);
    ReadRetry(e, f, max, numeral, show);
  }

  lemma AfterDataFromNone(f: Fields, lines: seq<Text>)
    requires f.eventBytes == 0 && f.dataLines == [] && lines != []
    ensures AfterData(f, lines) == f.(dataLines := lines, eventBytes := DataBytes(lines), pending := true)
  {
    assert [] + lines == lines;
  }

  function BodyResult(e: OutEvent, f: Fields, max: nat): Option<(Fields, seq<SseEvent>)> {
    if e.data == None then Some((f, []))
    else
      var lines := SplitLines(e.data.value);
      if !AllFit(BodyLines(e), max) || DataBytes(lines) > max then None
      else Some((f.(dataLines := lines, eventBytes := DataBytes(lines), pending := true), []))
  }

  lemma ReadBody(read: LineReader, e: OutEvent, f: Fields, max: nat)
    requires ReadsData(read, max) && f.eventBytes == 0 && f.dataLines == []
    ensures Read(read, f, BodyLines(e)) == BodyResult(e, f, max)
  {
    if e.data.Some? {
      var lines := SplitLines(e.data.value);
      assert BodyLines(e) == DataLines(lines);
      ReadData(read, lines, f, max);
      AfterDataFromNone(f, lines);
    }
  }

  ghost predicate ReadsBlank(read: LineReader) {
    forall f :: Read(read, f, [[]]) == Some((if f.pending then Clean(f.lastId) else f, DispatchedEvents(f)))
  }

  lemma ReaderReadsBlank(max: nat, numeral: Numeral)
    ensures ReadsBlank(ReaderOf(max, numeral))
  {
    forall f
      ensures Read(ReaderOf(max, numeral), f, [[]]) ==
        Some((if f.pending then Clean(f.lastId) else f, DispatchedEvents(f)))
    {
      ReadOne(ReaderOf(max, numeral), f, []);
    }
  }

  /** A frame, once its head, its data lines and a blank line are known to read as they should. */
  lemma FrameFromParts(read: LineReader, e: OutEvent, lastId: Option<Text>, max: nat, show: Show)
    requires Read(read, Clean(lastId), NamedLines(e, show)) == HeadResult(e, lastId, max, show)
    requires ReadsData(read, max) && ReadsBlank(read)
    ensures Read(read, Clean(lastId), FrameLines(e, show)) ==
      if Fits(e, max, show) then Some((Clean(IdAfter(e, lastId)), ReadBack(e, lastId))) else None
  {
    var head, body := NamedLines(e, show), BodyLines(e);
    ReadAppend(read, Clean(lastId), head, body);
    ReadAppend(read, Clean(lastId), head + body, [[]]);
    AllFitAppend(head, body, max);
    AllFitAppend(head + body, [[]], max);
    AllFitOne([], max);
    var first := HeadResult(e, lastId, max, show);
    if first.Some? {
      ReadBody(read, e, first.value.0, max);
      if e.data.Some? {
        JoinSplit(e.data.value);
      }
      var second := BodyResult(e, first.value.0, max);
      if second.Some? {
        var g, comments := second.value.0, first.value.1;
        assert comments + [] == comments;
        assert Read(read, Clean(lastId), head + body) == Some((g, comments));
        assert Read(read, g, [[]]) == Some((if g.pending then Clean(g.lastId) else g, DispatchedEvents(g)));
        assert g.pending == HasField(e);
        assert comments + DispatchedEvents(g) == ReadBack(e, lastId);
      }
    }
  }

  /** One frame from a clean start: the expected events, clean again, or a throw when over a cap. */
  lemma ReadFrame(e: OutEvent, lastId: Option<Text>, max: nat, numeral: Numeral, show: Show)
    requires RetryReads(e, numeral, show)
    ensures Read(ReaderOf(max, numeral), Clean(lastId), FrameLines(e, show)) ==
      if Fits(e, max, show) then Some((Clean(IdAfter(e, lastId)), ReadBack(e, lastId))) else None
  {
    ReadHead(e, lastId, max, numeral, show);
    ReaderReadsData(max, numeral);
    ReaderReadsBlank(max, numeral);
    FrameFromParts(ReaderOf(max, numeral), e, lastId, max, show);
  }

  function AllFrameLines(es: seq<OutEvent>, show: Show): seq<Text> {
    if es == [] then [] else FrameLines(es[0], show) + AllFrameLines(es[1..], show)
  }

  lemma {:induction false} FormatAllLines(es: seq<OutEvent>, numeral: Numeral, show: Show)
    requires RetriesRead(es, numeral, show)
    ensures FormatAll(es, show) == Terminated(AllFrameLines(es, show))
    ensures Plain(AllFrameLines(es, show))
  {
    if es != [] {
      FormatAllLines(es[1..], numeral, show);
      FrameLinesPlain(es[0], show);
      PlainAppend(FrameLines(es[0], show), AllFrameLines(es[1..], show));
      TerminatedAppend(FrameLines(es[0], show), AllFrameLines(es[1..], show));
    }
  }

  lemma FinishAppend(read: LineReader, f: Fields, xs: seq<Text>, ys: seq<Text>)
    ensures var first := Read(read, f, xs);
      FinishLines(read, f, xs + ys) ==
      if first.None? then None else Prepend(first.value.1, FinishLines(read, first.value.0, ys))
  {
    ReadAppend(read, f, xs, ys);
    var first := Read(read, f, xs);
    if first.Some? {
      var rest := ParseLines(read, first.value.0, ys);
      assert first.value.1 + rest.events + DispatchedEvents(rest.fields)
          == first.value.1 + (rest.events + DispatchedEvents(rest.fields));
    }
  }

  lemma {:induction false} ReadFrames(es: seq<OutEvent>, lastId: Option<Text>, max: nat, numeral: Numeral, show: Show)
    requires RetriesRead(es, numeral, show)
    ensures FinishLines(ReaderOf(max, numeral), Clean(lastId), AllFrameLines(es, show)) ==
      if AllFrames(es, max, show) then Some(ReadBackAll(es, lastId)) else None
    decreases |es|
  {
    var read := ReaderOf(max, numeral);
    if es != [] {
      var lines, more := FrameLines(es[0], show), AllFrameLines(es[1..], show);
      FinishAppend(read, Clean(lastId), lines, more);
      ReadFrame(es[0], lastId, max, numeral, show);
      if Fits(es[0], max, show) {
        ReadFrames(es[1..], IdAfter(es[0], lastId), max, numeral, show);
      }
    } else {
      assert AllFrameLines(es, show) == [];
      assert ParseLines(read, Clean(lastId), []) == Outcome(Clean(lastId), [], false);
      var none: seq<SseEvent> := [];
      assert none + none == none;
    }
  }

  lemma PrintedLines(es: seq<OutEvent>, numeral: Numeral, show: Show)
    requires RetriesRead(es, numeral, show)
    ensures StreamLines(FormatAll(es, show)) == AllFrameLines(es, show)
  {
    FormatAllLines(es, numeral, show);
    var lines := AllFrameLines(es, show);
    ReadTerminated(lines, []);
    assert Terminated(lines) + [] == Terminated(lines);
    assert StreamLines([]) == [];
    assert lines + [] == lines;
  }

  /**
   * The round trip. Frames printed one after the other and cut anywhere read back as exactly the
   * expected events when every frame is within the caps, and throw otherwise.
   */
  lemma PrintedReadsBack(es: seq<OutEvent>, chunks: seq<Text>, max: nat, numeral: Numeral, show: Show)
    requires RetriesRead(es, numeral, show)
    requires Concat(chunks) == FormatAll(es, show)
    ensures Run(ReaderOf(max, numeral), max, START, [], chunks) ==
      if AllFrames(es, max, show) then Some(ReadBackAll(es, None)) else None
  {
    ChunksReadAsText(chunks, max, numeral);
    PrintedLines(es, numeral, show);
    ReadFrames(es, None, max, numeral, show);
    assert Clean(None) == START;
  }

  /** A run of terminators inside a field value becomes one space. */
  lemma {:induction false} OneLineOfRun(a: Text, run: Text, b: Text)
    requires NoBreaks(a) && run != [] && (forall i :: 0 <= i < |run| ==> run[i] == 10 || run[i] == 13)
    requires b != [] ==> b[0] != 10 && b[0] != 13
    ensures OneLine(a + run + b) == a + [32] + OneLine(b)
    decreases |a|
  {
    var s := a + run + b;
    if a == [] {
      assert s[0] == run[0] && s[1..] == run[1..] + b;
      RunDropped(run[1..], b);
    } else {
      assert s[0] == a[0] && s[1..] == a[1..] + run + b;
      OneLineOfRun(a[1..], run, b);
    }
  }

  lemma {:induction false} RunDropped(run: Text, b: Text)
    requires forall i :: 0 <= i < |run| ==> run[i] == 10 || run[i] == 13
    requires b != [] ==> b[0] != 10 && b[0] != 13
    ensures DropBreaks(run + b) == b
  {
    if run == [] {
      assert run + b == b;
    } else {
      assert (run + b)[1..] == run[1..] + b;
      RunDropped(run[1..], b);
    }
  }

  lemma {:induction false} OneLineUnchanged(s: Text)
    requires NoBreaks(s)
    ensures OneLine(s) == s
  {
    if s != [] {
      OneLineUnchanged(s[1..]);
    }
  }

  /**
   * Comment-free frames with at least one field are read back one for one: the same count, the
   * same data up to terminators, and the same name. No payload opens or closes a frame.
   */
  lemma {:induction false} OneEventPerFrame(es: seq<OutEvent>, lastId: Option<Text>)
    requires forall i :: 0 <= i < |es| ==> es[i].comment == None && HasField(es[i])
    ensures |ReadBackAll(es, lastId)| == |es|
    ensures forall i :: 0 <= i < |es| ==>
      var got := ReadBackAll(es, lastId)[i];
      && got.comment == None
      && got.data == (if es[i].data.Some? then NormalizeBreaks(es[i].data.value) else [])
      && (NonEmpty(es[i].event) && NoBreaks(es[i].event.value) ==> got.event == es[i].event)
      && (!NonEmpty(es[i].event) ==> got.event == None)
    decreases |es|
  {
    if es != [] {
      OneEventPerFrame(es[1..], IdAfter(es[0], lastId));
      var all, rest := ReadBackAll(es, lastId), ReadBackAll(es[1..], IdAfter(es[0], lastId));
      assert |ReadBack(es[0], lastId)| == 1;
      assert forall i :: 0 < i < |es| ==> es[i] == es[1..][i - 1] && all[i] == rest[i - 1];
      if NonEmpty(es[0].event) && NoBreaks(es[0].event.value) {
        OneLineUnchanged(es[0].event.value);
      }
    }
  }

  predicate OneLiner(t: Option<Text>) {
    t.Some? ==> NoBreaks(t.value)
  }

  /** What is written for one-line values: each field that is there and not empty, then the data, then a blank line. */
  lemma PrintedPlainly(e: OutEvent, show: Show)
    requires OneLiner(e.comment) && OneLiner(e.id) && OneLiner(e.event) && OneLiner(e.data)
    ensures FrameLines(e, show)
         == (if e.comment.Some? then [[58, 32] + e.comment.value] else [])
          + (if e.id.Some? && e.id.value != [] then [[105, 100, 58, 32] + e.id.value] else [])
          + (if e.event.Some? && e.event.value != [] then [[101, 118, 101, 110, 116, 58, 32] + e.event.value] else [])
          + (if e.retry.Some? then [[114, 101, 116, 114, 121, 58, 32] + show(RetryOf(e.retry.value))] else [])
          + (if e.data.Some? then [[100, 97, 116, 97, 58, 32] + e.data.value] else [])
          + [[]]
  {
    if e.comment.Some? {
      OneLineUnchanged(e.comment.value);
      LabelIs([], e.comment.value, [58, 32]);
    }
    if e.id.Some? {
      OneLineUnchanged(e.id.value);
      LabelIs(ID, e.id.value, [105, 100, 58, 32]);
    }
    if e.event.Some? {
      OneLineUnchanged(e.event.value);
      LabelIs(EVENT, e.event.value, [101, 118, 101, 110, 116, 58, 32]);
    }
    if e.retry.Some? {
      LabelIs(RETRY, show(RetryOf(e.retry.value)), [114, 101, 116, 114, 121, 58, 32]);
    }
    if e.data.Some? {
      OneDataLine(e.data.value);
    }
  }

  lemma LabelIs(name: Text, value: Text, prefix: Text)
    requires prefix == name + [58, 32]
    ensures Labelled(name, value) == prefix + value
  {
  }

  lemma OneDataLine(data: Text)
    requires NoBreaks(data)
    ensures DataLines(SplitLines(data)) == [[100, 97, 116, 97, 58, 32] + data]
  {
    FirstBreakAfter(data, []);
    assert data + [] == data;
    var lines := SplitLines(data);
    assert lines == [data] && lines[1..] == [];
    LabelIs(DATA, data, [100, 97, 116, 97, 58, 32]);
  }
}
