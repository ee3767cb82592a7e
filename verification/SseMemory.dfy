/** What the event-stream parser holds between pushes is bounded by its limit, whatever it is fed. */
module SseMemory {
  import opened Options
  import opened Utf16
  import opened Sse

  lemma {:induction false} AtLeastOneByte(s: Text)
    ensures Utf8Len(s) >= |s|
    decreases |s|
  {
    if |s| >= 2 && IsHigh(s[0]) && IsLow(s[1]) {
      AtLeastOneByte(s[2..]);
    } else if s != [] {
      AtLeastOneByte(s[1..]);
    }
  }

  /** Bytes of the data lines collected for the event in progress, each with its line feed. */
  function Collected(lines: seq<Text>): nat {
    if lines == [] then 0 else Collected(lines[..|lines| - 1]) + Utf8Len(lines[|lines| - 1]) + 1
  }

  ghost predicate Counted(f: Fields, max: nat) {
    f.eventBytes == Collected(f.dataLines) <= max
  }

  /** What the parser carries after some pushes; nothing once one of them threw. */
  function After(read: LineReader, max: nat, f: Fields, held: Text, chunks: seq<Text>): Option<(Fields, Text)>
    decreases |chunks|
  {
    if chunks == [] then Some((f, held))
    else
      var d := Drain(read, f, held + chunks[0]);
      if d.thrown || Overfull(d.rest, max) then None else After(read, max, d.fields, d.rest, chunks[1..])
  }

  lemma DataKeepsCount(f: Fields, value: Text, max: nat)
    requires Counted(f, max) && f.eventBytes + Utf8Len(value) + 1 <= max
    ensures Counted(f.(eventBytes := f.eventBytes + Utf8Len(value) + 1, dataLines := f.dataLines + [value], pending := true), max)
  {
    assert (f.dataLines + [value])[..|f.dataLines|] == f.dataLines;
  }

  lemma FieldKeepsCount(f: Fields, line: Text, max: nat, numeral: Numeral)
    requires Counted(f, max)
    ensures var o := FieldLine(f, line, max, numeral); o.thrown || Counted(o.fields, max)
  {
    var colon := IndexOfColon(line);
    var value := if colon == |line| then [] else DropOneSpace(line[colon + 1..]);
    if line[..colon] == DATA && f.eventBytes + Utf8Len(value) + 1 <= max {
      DataKeepsCount(f, value, max);
    }
  }

  lemma LineKeepsCount(f: Fields, line: Text, max: nat, numeral: Numeral)
    requires Counted(f, max)
    ensures var o := LineStep(f, line, max, numeral); o.thrown || Counted(o.fields, max)
  {
    FieldKeepsCount(f, line, max, numeral);
  }

  lemma {:induction false} DrainKeepsCount(f: Fields, b: Text, max: nat, numeral: Numeral)
    requires Counted(f, max)
    ensures var d := Drain(ReaderOf(max, numeral), f, b); d.thrown || Counted(d.fields, max)
    decreases |b|
  {
    if LineReady(b) {
      var first := LineStep(f, FrontLine(b), max, numeral);
      LineKeepsCount(f, FrontLine(b), max, numeral);
      if !first.thrown {
        DrainKeepsCount(first.fields, AfterFront(b), max, numeral);
      }
    }
  }

  lemma HeldIsShort(held: Text, max: nat)
    requires !Overfull(held, max)
    ensures |held| <= max + 1
  {
    AtLeastOneByte(DropTrailingCr(held));
  }

  lemma {:induction false} StaysBounded(f: Fields, held: Text, chunks: seq<Text>, max: nat, numeral: Numeral)
    requires Counted(f, max) && |held| <= max + 1
    ensures var s := After(ReaderOf(max, numeral), max, f, held, chunks);
      s.Some? ==> Counted(s.value.0, max) && |s.value.1| <= max + 1
    decreases |chunks|
  {
    if chunks != [] {
      var d := Drain(ReaderOf(max, numeral), f, held + chunks[0]);
      DrainKeepsCount(f, held + chunks[0], max, numeral);
      if !d.thrown && !Overfull(d.rest, max) {
        HeldIsShort(d.rest, max);
        StaysBounded(d.fields, d.rest, chunks[1..], max, numeral);
      }
    }
  }

  /**
   * However much is pushed and however it is cut, the text held for an unfinished line has at most
   * one unit more than the limit, and the data collected for an unfinished event fits the limit.
   */
  lemma MemoryIsBounded(chunks: seq<Text>, max: nat, numeral: Numeral)
    ensures var s := After(ReaderOf(max, numeral), max, START, [], chunks);
      s.Some? ==> |s.value.1| <= max + 1 && Collected(s.value.0.dataLines) <= max
  {
    StaysBounded(START, [], chunks, max, numeral);
  }

  /** Pushes through the object, as far as they go. */
  method PushAll(parser: SseParser, chunks: seq<Text>) returns (ok: bool)
    modifies parser
    ensures ok ==> After(ReaderOf(parser.maxLineBytes, parser.numeral), parser.maxLineBytes,
                         old(parser.Carried()), old(parser.buffer), chunks) == Some((parser.Carried(), parser.buffer))
    ensures ok <==> After(ReaderOf(parser.maxLineBytes, parser.numeral), parser.maxLineBytes,
                          old(parser.Carried()), old(parser.buffer), chunks).Some?
    decreases |chunks|
  {
    if chunks == [] {
      return true;
    }
    var events := parser.Push(chunks[0]);
    if events == None {
      return false;
    }
    ok := PushAll(parser, chunks[1..]);
  }
}
