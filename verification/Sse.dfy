/**
 * The incremental parser for server-sent events (WHATWG HTML Living Standard, section 9.2.6, with
 * the gateway's two departures: an unterminated final block is emitted, and an event without data
 * is dispatched).
 *
 * The parser is a class, as in the source. Its reference is `ParseLines`, which reads a whole text
 * already cut into lines; the main theorem says that every way of cutting the text into pushes
 * gives what the reference gives.
 */
module Sse {
  import opened Options
  import opened Utf16

  datatype SseEvent = SseEvent(event: Option<Text>, data: Text, id: Option<Text>, retry: Option<nat>, comment: Option<Text>)

  const DATA: Text := [100, 97, 116, 97]
  const EVENT: Text := [101, 118, 101, 110, 116]
  const ID: Text := [105, 100]
  const RETRY: Text := [114, 101, 116, 114, 121]

  /** What the parser carries between lines. */
  datatype Fields = Fields(
    dataLines: seq<Text>,
    eventName: Option<Text>,
    lastId: Option<Text>,
    retry: Option<nat>,
    pending: bool,
    eventBytes: nat)

  /** The non-negative integer a text denotes as a number, if it denotes one. */
  type Numeral = Text -> Option<nat>

  datatype Outcome = Outcome(fields: Fields, events: seq<SseEvent>, thrown: bool)

  const START: Fields := Fields([], None, None, None, false, 0)

  // --- text ---------------------------------------------------------------

  /** Position of the first line terminator, or the length when there is none. */
  function FirstBreak(s: Text): (i: nat)
    ensures i <= |s| && (i < |s| ==> IsBreak(s[i]))
  {
    if s == [] || IsBreak(s[0]) then 0 else 1 + FirstBreak(s[1..])
  }

  /** How many code units the terminator at `i` takes: two for CR LF. */
  function BreakWidth(s: Text, i: nat): (w: nat)
    requires i < |s|
    ensures 1 <= w && i + w <= |s|
  {
    if s[i] == CR && i + 1 < |s| && s[i + 1] == LF then 2 else 1
  }

  /** The text before the first terminator, and the text after it. */
  function FrontLine(s: Text): Text
    requires FirstBreak(s) < |s|
  {
    s[..FirstBreak(s)]
  }

  function AfterFront(s: Text): (r: Text)
    requires FirstBreak(s) < |s|
    ensures |r| < |s|
  {
    var i := FirstBreak(s);
    s[i + BreakWidth(s, i)..]
  }

  /** The text's lines, cut at CR LF, LF and CR; what follows the last terminator is the last line. */
  function SplitLines(s: Text): (lines: seq<Text>)
    ensures |lines| >= 1
    decreases |s|
  {
    if FirstBreak(s) == |s| then [s] else [FrontLine(s)] + SplitLines(AfterFront(s))
  }

  /** The lines of a finished stream: an empty remainder is not a line. */
  function StreamLines(s: Text): seq<Text> {
    DropEmptyLast(SplitLines(s))
  }

  function DropEmptyLast(lines: seq<Text>): seq<Text>
    requires lines != []
  {
    if lines[|lines| - 1] == [] then lines[..|lines| - 1] else lines
  }

  function JoinLines(lines: seq<Text>): Text {
    if lines == [] then []
    else if |lines| == 1 then lines[0]
    else lines[0] + [LF] + JoinLines(lines[1..])
  }

  function IndexOfColon(s: Text): (i: nat)
    ensures i <= |s| && (i < |s| ==> s[i] == COLON)
  {
    if s == [] || s[0] == COLON then 0 else 1 + IndexOfColon(s[1..])
  }

  function DropOneSpace(s: Text): Text {
    if s != [] && s[0] == SPACE then s[1..] else s
  }

  function DropTrailingCr(s: Text): Text {
    if s != [] && s[|s| - 1] == CR then s[..|s| - 1] else s
  }

  // --- one line -----------------------------------------------------------

  function Dispatched(f: Fields): Fields {
    Fields([], None, f.lastId, None, false, 0)
  }

  function DispatchedEvents(f: Fields): seq<SseEvent> {
    if f.pending then [SseEvent(f.eventName, JoinLines(f.dataLines), f.lastId, f.retry, None)] else []
  }

  function CommentEvent(text: Text): SseEvent {
    SseEvent(None, [], None, None, Some(text))
  }

  /** A field with its value; unknown fields are ignored. */
  function SetField(f: Fields, field: Text, value: Text, max: nat, numeral: Numeral): Outcome {
    if field == DATA then
      var bytes := f.eventBytes + Utf8Len(value) + 1;
      if bytes > max then Outcome(f.(eventBytes := bytes), [], true)
      else Outcome(f.(eventBytes := bytes, dataLines := f.dataLines + [value], pending := true), [], false)
    else if field == EVENT then Outcome(f.(eventName := Some(value), pending := true), [], false)
    else if field == ID then
      Outcome(f.(lastId := if 0 in value then f.lastId else Some(value), pending := true), [], false)
    else if field == RETRY then
      Outcome(f.(retry := if numeral(value).Some? then numeral(value) else f.retry, pending := true), [], false)
    else Outcome(f, [], false)
  }

  /** A field line, already measured, not blank and not a comment. */
  function FieldLine(f: Fields, line: Text, max: nat, numeral: Numeral): Outcome {
    var colon := IndexOfColon(line);
    SetField(f, line[..colon], if colon == |line| then [] else DropOneSpace(line[colon + 1..]), max, numeral)
  }

  /** What one line does to the carried fields. */
  function LineStep(f: Fields, line: Text, max: nat, numeral: Numeral): Outcome {
    if Utf8Len(line) > max then Outcome(f, [], true)
    else if line == [] then Outcome(if f.pending then Dispatched(f) else f, DispatchedEvents(f), false)
    else if line[0] == COLON then Outcome(f, [CommentEvent(DropOneSpace(line[1..]))], false)
    else FieldLine(f, line, max, numeral)
  }

  /** How one line is read; the theorems about cutting text into lines hold for any such reader. */
  type LineReader = (Fields, Text) -> Outcome

  function ReaderOf(max: nat, numeral: Numeral): (read: LineReader)
    ensures forall f, line :: read(f, line) == LineStep(f, line, max, numeral)
  {
    (f, line) => LineStep(f, line, max, numeral)
  }

  ghost predicate RejectsLong(read: LineReader, max: nat) {
    forall f, line :: Utf8Len(line) > max ==> read(f, line).thrown
  }

  /** The reference: read whole lines in order, stopping at the first that throws. */
  function ParseLines(read: LineReader, f: Fields, lines: seq<Text>): (o: Outcome)
    decreases |lines|
  {
    if lines == [] then Outcome(f, [], false)
    else
      var first := read(f, lines[0]);
      if first.thrown then first
      else
        var rest := ParseLines(read, first.fields, lines[1..]);
        Outcome(rest.fields, first.events + rest.events, rest.thrown)
  }

  /** The events of a finished sequence of lines, or nothing when one throws. */
  function FinishLines(read: LineReader, f: Fields, lines: seq<Text>): Option<seq<SseEvent>> {
    var o := ParseLines(read, f, lines);
    if o.thrown then None else Some(o.events + DispatchedEvents(o.fields))
  }

  /** The events of a finished text read from the given fields. */
  function Finish(read: LineReader, f: Fields, text: Text): Option<seq<SseEvent>> {
    FinishLines(read, f, StreamLines(text))
  }

  /** The reference reading of a whole stream. */
  function ParseText(text: Text, max: nat, numeral: Numeral): Option<seq<SseEvent>> {
    Finish(ReaderOf(max, numeral), START, text)
  }

  // --- the incremental parser ---------------------------------------------

  datatype Drained = Drained(fields: Fields, events: seq<SseEvent>, rest: Text, thrown: bool)

  /** Whether the first terminator of the buffer is known to be complete. */
  predicate LineReady(b: Text) {
    var i := FirstBreak(b);
    i < |b| && !(b[i] == CR && i == |b| - 1)
  }

  /** Takes every complete line off the front of the buffer. */
  function Drain(read: LineReader, f: Fields, b: Text): Drained
    decreases |b|
  {
    if !LineReady(b) then Drained(f, [], b, false)
    else
      var first := read(f, FrontLine(b));
      if first.thrown then Drained(first.fields, first.events, AfterFront(b), true)
      else
        var d := Drain(read, first.fields, AfterFront(b));
        Drained(d.fields, first.events + d.events, d.rest, d.thrown)
  }

  function After(events: seq<SseEvent>, d: Drained): Drained {
    d.(events := events + d.events)
  }

  lemma DrainFirst(read: LineReader, f: Fields, b: Text)
    requires LineReady(b)
    ensures var first := read(f, FrontLine(b));
      Drain(read, f, b) ==
      if first.thrown then Drained(first.fields, first.events, AfterFront(b), true)
      else After(first.events, Drain(read, first.fields, AfterFront(b)))
  {
  }

  /** One turn of the loop in `Push`, with the events collected so far. */
  lemma DrainStep(read: LineReader, f: Fields, b: Text, out: seq<SseEvent>)
    ensures !LineReady(b) ==> After(out, Drain(read, f, b)) == Drained(f, out, b, false)
    ensures LineReady(b) ==>
      var first := read(f, FrontLine(b));
      After(out, Drain(read, f, b)) ==
      if first.thrown then Drained(first.fields, out + first.events, AfterFront(b), true)
      else After(out + first.events, Drain(read, first.fields, AfterFront(b)))
  {
    if LineReady(b) {
      DrainFirst(read, f, b);
      var first := read(f, FrontLine(b));
      var d := Drain(read, first.fields, AfterFront(b));
      assert (out + first.events) + d.events == out + (first.events + d.events);
    } else {
      assert out + [] == out;
    }
  }

  predicate Overfull(buffer: Text, max: nat) {
    Utf8Len(DropTrailingCr(buffer)) > max
  }

  class SseParser {
    const maxLineBytes: nat
    const numeral: Numeral
    var buffer: Text
    var dataLines: seq<Text>
    var eventName: Option<Text>
    var lastId: Option<Text>
    var retry: Option<nat>
    var pending: bool
    var eventBytes: nat

    ghost function Carried(): Fields
      reads this
    {
      Fields(dataLines, eventName, lastId, retry, pending, eventBytes)
    }

    constructor (maxLineBytes: nat, numeral: Numeral)
      ensures this.maxLineBytes == maxLineBytes && this.numeral == numeral
      ensures buffer == [] && Carried() == START
    {
      this.maxLineBytes := maxLineBytes;
      this.numeral := numeral;
      buffer, dataLines, eventName, lastId := [], [], None, None;
      retry, pending, eventBytes := None, false, 0;
    }

    method Dispatch(out: seq<SseEvent>) returns (out': seq<SseEvent>)
      modifies this
      ensures buffer == old(buffer)
      ensures Carried() == if old(pending) then Dispatched(old(Carried())) else old(Carried())
      ensures out' == out + DispatchedEvents(old(Carried()))
    {
      if !pending {
        return out;
      }
      var data := Join(dataLines);
      out' := out + [SseEvent(eventName, data, lastId, retry, None)];
      eventName := None;
      dataLines := [];
      retry := None;
      pending := false;
      eventBytes := 0;
    }

    method HandleLine(line: Text, out: seq<SseEvent>) returns (out': seq<SseEvent>, thrown: bool)
      modifies this
      ensures buffer == old(buffer)
      ensures var o := ReaderOf(maxLineBytes, numeral)(old(Carried()), line);
        Carried() == o.fields && thrown == o.thrown && out' == out + o.events
    {
      if Utf8Len(line) > maxLineBytes {
        return out, true;
      }
      if line == [] {
        out' := Dispatch(out);
        return out', false;
      }
      if line[0] == COLON {
        return out + [CommentEvent(DropOneSpace(line[1..]))], false;
      }
      var colon := IndexOfColon(line);
      var field := line[..colon];
      var value: Text := if colon == |line| then [] else DropOneSpace(line[colon + 1..]);
      if field == DATA {
        eventBytes := eventBytes + Utf8Len(value) + 1;
        if eventBytes > maxLineBytes {
          return out, true;
        }
        dataLines := dataLines + [value];
        pending := true;
      } else if field == EVENT {
        eventName := Some(value);
        pending := true;
      } else if field == ID {
        if 0 !in value {
          lastId := Some(value);
        }
        pending := true;
      } else if field == RETRY {
        var parsed := numeral(value);
        if parsed.Some? {
          retry := parsed;
        }
        pending := true;
      }
      return out, false;
    }

    /** Feeds text; the result is the events it completed, or nothing when it threw. */
    method Push(chunk: Text) returns (result: Option<seq<SseEvent>>)
      modifies this
      ensures var d := Drain(ReaderOf(maxLineBytes, numeral), old(Carried()), old(buffer) + chunk);
        && Carried() == d.fields
        && (if d.thrown then result == None && buffer == d.rest
            else if Overfull(d.rest, maxLineBytes) then result == None && buffer == []
            else result == Some(d.events) && buffer == d.rest)
    {
      var out: seq<SseEvent> := [];
      buffer := buffer + chunk;
      ghost var read := ReaderOf(maxLineBytes, numeral);
      ghost var goal := Drain(read, Carried(), buffer);
      assert goal == After([], goal);
      var index := FirstBreak(buffer);
      while index != |buffer|
        invariant index == FirstBreak(buffer)
        invariant After(out, Drain(read, Carried(), buffer)) == goal
        decreases |buffer|
      {
        DrainStep(read, Carried(), buffer, out);
        if buffer[index] == CR && index == |buffer| - 1 {
          break;
        }
        var line := FrontLine(buffer);
        buffer := AfterFront(buffer);
        var thrown;
        out, thrown := HandleLine(line, out);
        if thrown {
          return None;
        }
        index := FirstBreak(buffer);
      }
      DrainStep(read, Carried(), buffer, out);
      if Utf8Len(DropTrailingCr(buffer)) > maxLineBytes {
        buffer := [];
        return None;
      }
      return Some(out);
    }

    /** Emits a trailing unterminated event, if any. */
    method Flush() returns (result: Option<seq<SseEvent>>)
      modifies this
      ensures result == Flushed(ReaderOf(maxLineBytes, numeral), old(Carried()), old(buffer))
      ensures buffer == []
    {
      var out: seq<SseEvent> := [];
      if |buffer| > 0 {
        var line := DropTrailingCr(buffer);
        buffer := [];
        ghost var o := ReaderOf(maxLineBytes, numeral)(Carried(), line);
        assert [] + o.events == o.events;
        var thrown;
        out, thrown := HandleLine(line, out);
        if thrown {
          return None;
        }
      }
      ghost var f := Carried();
      out := Dispatch(out);
      assert [] + DispatchedEvents(f) == DispatchedEvents(f);
      return Some(out);
    }
  }

  /** What `Flush` returns for the carried fields and the held text. */
  function Flushed(read: LineReader, f: Fields, held: Text): Option<seq<SseEvent>> {
    if held == [] then Some(DispatchedEvents(f))
    else
      var o := read(f, DropTrailingCr(held));
      if o.thrown then None else Some(o.events + DispatchedEvents(o.fields))
  }

  method Join(lines: seq<Text>) returns (data: Text)
    ensures data == JoinLines(lines)
  {
    data := [];
    var k := |lines|;
    while k > 0
      invariant 0 <= k <= |lines|
      invariant data == JoinLines(lines[k..])
    {
      k := k - 1;
      assert lines[k..][1..] == lines[k + 1..];
      data := if k == |lines| - 1 then lines[k] else lines[k] + [LF] + data;
    }
    assert lines[0..] == lines;
  }

  // --- chunk independence --------------------------------------------------

  function Concat(chunks: seq<Text>): Text {
    if chunks == [] then [] else chunks[0] + Concat(chunks[1..])
  }

  /** Pushing the chunks in order and then flushing: all events, or nothing once a call throws. */
  function Run(read: LineReader, max: nat, f: Fields, held: Text, chunks: seq<Text>): Option<seq<SseEvent>>
    decreases |chunks|
  {
    if chunks == [] then Flushed(read, f, held)
    else
      var d := Drain(read, f, held + chunks[0]);
      if d.thrown || Overfull(d.rest, max) then None
      else
        Prepend(d.events, Run(read, max, d.fields, d.rest, chunks[1..]))
  }

  /** A stream fed from `chunks` through the class is `Run`. */
  method Feed(parser: SseParser, chunks: seq<Text>) returns (result: Option<seq<SseEvent>>)
    modifies parser
    ensures result == Run(ReaderOf(parser.maxLineBytes, parser.numeral), parser.maxLineBytes,
                          old(parser.Carried()), old(parser.buffer), chunks)
    decreases |chunks|
  {
    if chunks == [] {
      result := parser.Flush();
      return;
    }
    var head := parser.Push(chunks[0]);
    if head == None {
      return None;
    }
    var tail := Feed(parser, chunks[1..]);
    return if tail.None? then None else Some(head.value + tail.value);
  }

  lemma {:induction false} BeforeFirstBreak(s: Text)
    ensures NoBreaks(s[..FirstBreak(s)])
  {
    if s != [] && !IsBreak(s[0]) {
      BeforeFirstBreak(s[1..]);
      var j := FirstBreak(s[1..]);
      assert s[..1 + j] == [s[0]] + s[1..][..j];
    }
  }

  /** The first terminator of `p + s` when `p` holds none. */
  lemma {:induction false} FirstBreakAfter(p: Text, s: Text)
    requires NoBreaks(p)
    ensures FirstBreak(p + s) == |p| + FirstBreak(s)
  {
    if p == [] {
      assert p + s == s;
    } else {
      assert (p + s)[1..] == p[1..] + s;
      FirstBreakAfter(p[1..], s);
    }
  }

  lemma FirstBreakStable(a: Text, b: Text)
    requires FirstBreak(a) < |a|
    ensures FirstBreak(a + b) == FirstBreak(a)
  {
    var i := FirstBreak(a);
    var after := a[i..] + b;
    assert a + b == a[..i] + after;
    BeforeFirstBreak(a);
    FirstBreakAfter(a[..i], after);
    assert after[0] == a[i];
  }

  lemma BreakWidthStable(a: Text, b: Text, i: nat)
    requires i < |a| && !(a[i] == CR && i == |a| - 1)
    ensures BreakWidth(a + b, i) == BreakWidth(a, i)
  {
  }

  lemma SlicesStable(a: Text, b: Text, i: nat, j: nat)
    requires i <= |a| && j <= |a|
    ensures (a + b)[..i] == a[..i] && (a + b)[j..] == a[j..] + b
  {
  }

  /** A ready line stays the same line when more text arrives. */
  lemma ReadyLineStable(a: Text, b: Text)
    requires LineReady(a)
    ensures LineReady(a + b) && FrontLine(a + b) == FrontLine(a) && AfterFront(a + b) == AfterFront(a) + b
  {
    var i := FirstBreak(a);
    FirstBreakStable(a, b);
    BreakWidthStable(a, b, i);
    SlicesStable(a, b, i, i + BreakWidth(a, i));
  }

  lemma DropEmptyLastCons(line: Text, lines: seq<Text>)
    requires lines != []
    ensures DropEmptyLast([line] + lines) == [line] + DropEmptyLast(lines)
  {
  }

  /** The lines of a finished text that starts with a terminated line. */
  lemma StreamLinesStep(s: Text)
    requires FirstBreak(s) < |s|
    ensures StreamLines(s) == [FrontLine(s)] + StreamLines(AfterFront(s))
  {
    DropEmptyLastCons(FrontLine(s), SplitLines(AfterFront(s)));
  }

  /** Events already produced, put before what the rest of the text gives. */
  function Prepend(events: seq<SseEvent>, rest: Option<seq<SseEvent>>): Option<seq<SseEvent>> {
    if rest.None? then None else Some(events + rest.value)
  }

  lemma PrependPrepend(xs: seq<SseEvent>, ys: seq<SseEvent>, rest: Option<seq<SseEvent>>)
    ensures Prepend(xs, Prepend(ys, rest)) == Prepend(xs + ys, rest)
    ensures Prepend([], rest) == rest
  {
    if rest.Some? {
      assert xs + (ys + rest.value) == (xs + ys) + rest.value;
      assert [] + rest.value == rest.value;
    }
  }

  lemma FinishCons(read: LineReader, f: Fields, line: Text, lines: seq<Text>)
    ensures var first := read(f, line);
      FinishLines(read, f, [line] + lines) ==
      if first.thrown then None else Prepend(first.events, FinishLines(read, first.fields, lines))
  {
    var all := [line] + lines;
    assert all[0] == line && all[1..] == lines;
    var first := read(f, line);
    var rest := ParseLines(read, first.fields, lines);
    assert first.events + rest.events + DispatchedEvents(rest.fields)
        == first.events + (rest.events + DispatchedEvents(rest.fields));
  }

  lemma FinishStep(read: LineReader, f: Fields, s: Text)
    requires FirstBreak(s) < |s|
    ensures var first := read(f, FrontLine(s));
      Finish(read, f, s) ==
      if first.thrown then None else Prepend(first.events, Finish(read, first.fields, AfterFront(s)))
  {
    StreamLinesStep(s);
    FinishCons(read, f, FrontLine(s), StreamLines(AfterFront(s)));
  }

  /** A finished text, given what draining its first part left. */
  function FinishFrom(read: LineReader, d: Drained, more: Text): Option<seq<SseEvent>> {
    if d.thrown then None else Prepend(d.events, Finish(read, d.fields, d.rest + more))
  }

  lemma FinishFromAfter(read: LineReader, events: seq<SseEvent>, d: Drained, more: Text)
    ensures FinishFrom(read, After(events, d), more) == Prepend(events, FinishFrom(read, d, more))
  {
    if !d.thrown {
      PrependPrepend(events, d.events, Finish(read, d.fields, d.rest + more));
    }
  }

  /** Taking the ready lines first does not change how a finished text is read. */
  lemma {:induction false} FinishAfterDrain(read: LineReader, f: Fields, a: Text, b: Text)
    ensures Finish(read, f, a + b) == FinishFrom(read, Drain(read, f, a), b)
    decreases |a|
  {
    if !LineReady(a) {
      PrependPrepend([], [], Finish(read, f, a + b));
    } else {
      var first := read(f, FrontLine(a));
      ReadyLineStable(a, b);
      FinishStep(read, f, a + b);
      DrainFirst(read, f, a);
      if !first.thrown {
        FinishAfterDrain(read, first.fields, AfterFront(a), b);
        FinishFromAfter(read, first.events, Drain(read, first.fields, AfterFront(a)), b);
      }
    }
  }

  lemma {:induction false} DrainRestNotReady(read: LineReader, f: Fields, b: Text)
    ensures var d := Drain(read, f, b); !d.thrown ==> !LineReady(d.rest)
    decreases |b|
  {
    if LineReady(b) {
      var first := read(f, FrontLine(b));
      if !first.thrown {
        DrainRestNotReady(read, first.fields, AfterFront(b));
      }
    }
  }

  /** Held text without a ready line is one line, less a trailing CR that may still become CR LF. */
  lemma HeldIsOneLine(held: Text)
    requires !LineReady(held)
    ensures NoBreaks(DropTrailingCr(held))
    ensures held != [] ==> StreamLines(held) == [DropTrailingCr(held)]
    ensures held == [] ==> StreamLines(held) == []
  {
    var i := FirstBreak(held);
    BeforeFirstBreak(held);
    if i < |held| {
      assert i == |held| - 1;
      assert DropTrailingCr(held) == held[..i];
      StreamLinesStep(held);
      assert AfterFront(held) == [];
      assert SplitLines([]) == [[]];
    } else {
      assert held[..i] == held;
      assert held != [] ==> !IsBreak(held[|held| - 1]);
    }
  }

  /** Text held over the limit makes every continuation throw. */
  lemma OverfullThrows(read: LineReader, max: nat, f: Fields, held: Text, more: Text)
    requires RejectsLong(read, max) && !LineReady(held) && Overfull(held, max)
    ensures Finish(read, f, held + more) == None
  {
    var all := held + more;
    var start := DropTrailingCr(held);
    HeldIsOneLine(held);
    var i := FirstBreak(all);
    FirstBreakAfter(start, all[|start|..]);
    assert all == start + all[|start|..];
    assert all[..i] == start + all[|start|..i];
    Utf8LenPrefix(start, all[|start|..i]);
    if i < |all| {
      StreamLinesStep(all);
    } else {
      assert all[..i] == all;
    }
    assert StreamLines(all)[0] == all[..i];
  }

  lemma FlushedIsFinish(read: LineReader, f: Fields, held: Text)
    requires !LineReady(held)
    ensures Flushed(read, f, held) == Finish(read, f, held)
  {
    HeldIsOneLine(held);
    if held != [] {
      var line := DropTrailingCr(held);
      var o := read(f, line);
      var lines: seq<Text> := [line];
      assert lines[1..] == [] && StreamLines(held) == lines;
      assert ParseLines(read, o.fields, lines[1..]) == Outcome(o.fields, [], false);
      assert o.events + [] == o.events;
    } else {
      assert [] + DispatchedEvents(f) == DispatchedEvents(f);
    }
  }

  /** Whatever is held and however the rest is cut, the run reads held text and rest as one text. */
  lemma {:induction false} RunReadsConcat(read: LineReader, max: nat, f: Fields, held: Text, chunks: seq<Text>)
    requires RejectsLong(read, max)
    requires !LineReady(held)
    ensures Run(read, max, f, held, chunks) == Finish(read, f, held + Concat(chunks))
    decreases |chunks|
  {
    if chunks == [] {
      assert held + Concat(chunks) == held;
      FlushedIsFinish(read, f, held);
    } else {
      var now, later := held + chunks[0], Concat(chunks[1..]);
      assert held + Concat(chunks) == now + later;
      FinishAfterDrain(read, f, now, later);
      DrainRestNotReady(read, f, now);
      var d := Drain(read, f, now);
      if d.thrown {
      } else if Overfull(d.rest, max) {
        OverfullThrows(read, max, d.fields, d.rest, later);
      } else {
        RunReadsConcat(read, max, d.fields, d.rest, chunks[1..]);
      }
    }
  }

  /** Every cutting of a text into pushes gives the reference reading of that text. */
  lemma ChunksReadAsText(chunks: seq<Text>, max: nat, numeral: Numeral)
    ensures Run(ReaderOf(max, numeral), max, START, [], chunks) == ParseText(Concat(chunks), max, numeral)
  {
    RunReadsConcat(ReaderOf(max, numeral), max, START, [], chunks);
    assert [] + Concat(chunks) == Concat(chunks);
  }

  /** Two cuttings of one text agree: the same events, or both throw. */
  lemma ChunkIndependence(xs: seq<Text>, ys: seq<Text>, max: nat, numeral: Numeral)
    requires Concat(xs) == Concat(ys)
    ensures Run(ReaderOf(max, numeral), max, START, [], xs) == Run(ReaderOf(max, numeral), max, START, [], ys)
  {
    ChunksReadAsText(xs, max, numeral);
    ChunksReadAsText(ys, max, numeral);
  }
}
