/**
 * Event streams as other programs write them: fields without the optional space, fields without a
 * value, and lines ended by CR, LF or CR LF. They read as the printer's own form does.
 */
module SseLenient {
  import opened Options
  import opened Utf16
  import opened Sse
  import opened SseFormat

  // --- one line ---------------------------------------------------------------------------

  /** The colon is the first one of the line, and one space follows it. */
  predicate SpacedAt(line: Text, i: nat) {
    && i + 1 < |line| && line[i] == 58 && line[i + 1] == 32
    && (forall j :: 0 <= j < i ==> line[j] != 58)
    && (i + 2 < |line| ==> line[i + 2] != 32)
  }

  function WithoutSpace(line: Text, i: nat): Text
    requires SpacedAt(line, i)
  {
    line[..i + 1] + line[i + 2..]
  }

  /** The same field without the space after its colon or, when its value is empty, without the colon too. */
  ghost predicate Loosened(line: Text, loose: Text) {
    || loose == line
    || (exists i: nat :: SpacedAt(line, i) && loose == WithoutSpace(line, i))
    || (|line| >= 3 && SpacedAt(line, |line| - 2) && loose == line[..|line| - 2])
  }

  lemma SpacedParts(line: Text, i: nat)
    requires SpacedAt(line, i)
    ensures COLON !in line[..i] && IndexOfColon(line) == i && line == line[..i] + [COLON] + line[i + 1..]
  {
    ColonAfter(line[..i], line[i + 1..]);
    assert line == line[..i] + [COLON] + line[i + 1..];
  }

  lemma DroppedSpaceFits(line: Text, i: nat)
    requires SpacedAt(line, i)
    ensures Utf8Len(line) == Utf8Len(WithoutSpace(line, i)) + 1
  {
    var front, back := line[..i + 1], line[i + 2..];
    assert line == front + ([SPACE] + back);
    Utf8LenSplits(front, [SPACE] + back);
    Utf8LenSplits([SPACE], back);
    Utf8LenSplits(front, back);
    Utf8LenOfUnits(SPACE, SPACE);
  }

  lemma LooseParts(line: Text, i: nat)
    requires SpacedAt(line, i)
    ensures var loose := WithoutSpace(line, i);
      && IndexOfColon(loose) == i && loose[..i] == line[..i]
      && DropOneSpace(loose[i + 1..]) == DropOneSpace(line[i + 1..]) == line[i + 2..]
  {
    var name, value := line[..i], line[i + 2..];
    var loose := WithoutSpace(line, i);
    SpacedParts(line, i);
    assert loose == name + [COLON] + value;
    ColonAfter(name, value);
    assert loose[i + 1..] == value;
    assert line[i + 1..] == [SPACE] + value;
  }

  lemma UnspacedReadsAlike(f: Fields, line: Text, i: nat, max: nat, numeral: Numeral)
    requires SpacedAt(line, i) && Utf8Len(line) <= max
    ensures LineStep(f, WithoutSpace(line, i), max, numeral) == LineStep(f, line, max, numeral)
  {
    DroppedSpaceFits(line, i);
    SpacedParts(line, i);
    LooseParts(line, i);
    if i > 0 {
      FieldIs(f, line, i, line[..i], line[i + 2..], max, numeral);
      FieldIs(f, WithoutSpace(line, i), i, line[..i], line[i + 2..], max, numeral);
    }
  }

  /** A field line by its name and value. */
  lemma FieldIs(f: Fields, line: Text, i: nat, name: Text, value: Text, max: nat, numeral: Numeral)
    requires IndexOfColon(line) == i < |line| && line[..i] == name && DropOneSpace(line[i + 1..]) == value
    ensures FieldLine(f, line, max, numeral) == SetField(f, name, value, max, numeral)
  {
  }

  lemma {:induction false} NoColonAtAll(s: Text)
    requires COLON !in s
    ensures IndexOfColon(s) == |s|
  {
    if s != [] {
      NoColonAtAll(s[1..]);
    }
  }

  lemma NameAloneParts(line: Text)
    requires |line| >= 3 && SpacedAt(line, |line| - 2)
    ensures var name := line[..|line| - 2];
      && IndexOfColon(name) == |name| == IndexOfColon(line) && name[..|name|] == name
      && DropOneSpace(line[|name| + 1..]) == []
      && name != [] && name[0] == line[0] && name[0] != COLON
      && Utf8Len(name) <= Utf8Len(line)
  {
    var name := line[..|line| - 2];
    SpacedParts(line, |line| - 2);
    NoColonAtAll(name);
    assert line == name + line[|line| - 2..];
    Utf8LenPrefix(name, line[|line| - 2..]);
    assert line[|line| - 1..] == [SPACE];
  }

  /** A field line with nothing after the colon, and one without the colon. */
  lemma NoValue(f: Fields, line: Text, name: Text, max: nat, numeral: Numeral)
    requires IndexOfColon(name) == |name| && name[..|name|] == name
    requires IndexOfColon(line) == |name| < |line| && line[..|name|] == name && DropOneSpace(line[|name| + 1..]) == []
    ensures FieldLine(f, name, max, numeral) == FieldLine(f, line, max, numeral)
  {
  }

  lemma NameAloneReadsAlike(f: Fields, line: Text, max: nat, numeral: Numeral)
    requires |line| >= 3 && SpacedAt(line, |line| - 2) && Utf8Len(line) <= max
    ensures LineStep(f, line[..|line| - 2], max, numeral) == LineStep(f, line, max, numeral)
  {
    NameAloneParts(line);
    NoValue(f, line, line[..|line| - 2], max, numeral);
  }

  /** A line too large for the limit throws; below it a loosened line reads as the line does. */
  lemma LooseReadsAlike(f: Fields, line: Text, loose: Text, max: nat, numeral: Numeral)
    requires Loosened(line, loose)
    ensures Utf8Len(loose) > max ==> LineStep(f, loose, max, numeral).thrown
    ensures Utf8Len(line) <= max ==> LineStep(f, loose, max, numeral) == LineStep(f, line, max, numeral)
  {
    if Utf8Len(line) <= max && loose != line {
      if i: nat :| SpacedAt(line, i) && loose == WithoutSpace(line, i) {
        UnspacedReadsAlike(f, line, i, max, numeral);
      } else {
        NameAloneReadsAlike(f, line, max, numeral);
      }
    }
  }

  lemma LooseHasNoBreaks(line: Text, loose: Text)
    requires NoBreaks(line) && Loosened(line, loose)
    ensures NoBreaks(loose)
  {
    forall c | c in loose
      ensures !IsBreak(c)
    {
      assert c in line;
    }
  }

  // --- line ends --------------------------------------------------------------------------

  datatype Break = Lf | Cr | CrLf

  function BreakText(b: Break): Text {
    match b
    case Lf => [10]
    case Cr => [13]
    case CrLf => [13, 10]
  }

  function EndedBy(lines: seq<Text>, breaks: seq<Break>): Text
    requires |lines| == |breaks|
  {
    if lines == [] then [] else lines[0] + BreakText(breaks[0]) + EndedBy(lines[1..], breaks[1..])
  }

  /** No CR is followed at once by an LF that is meant to end another, empty line. */
  predicate Unambiguous(lines: seq<Text>, breaks: seq<Break>)
    requires |lines| == |breaks|
  {
    |lines| >= 2 ==>
      && !(breaks[0] == Cr && lines[1] == [] && breaks[1] == Lf)
      && Unambiguous(lines[1..], breaks[1..])
  }

  lemma CutAtBreak(line: Text, b: Break, rest: Text)
    requires NoBreaks(line) && (b == Cr && rest != [] ==> rest[0] != 10)
    ensures StreamLines(line + BreakText(b) + rest) == [line] + StreamLines(rest)
  {
    var text := line + BreakText(b) + rest;
    var after := BreakText(b) + rest;
    assert text == line + after;
    FirstBreakAfter(line, after);
    assert FirstBreak(after) == 0;
    assert text[..|line|] == line;
    assert after[|BreakText(b)|..] == rest;
    assert text[|line| + |BreakText(b)|..] == rest;
    StreamLinesStep(text);
  }

  lemma StartsWithoutLf(lines: seq<Text>, breaks: seq<Break>, last: Text)
    requires |lines| == |breaks| && (lines != [] ==> NoBreaks(lines[0]) && !(lines[0] == [] && breaks[0] == Lf)) && NoBreaks(last)
    ensures var rest := EndedBy(lines, breaks) + last; rest != [] ==> rest[0] != 10
  {
    if lines != [] && lines[0] != [] {
      assert (EndedBy(lines, breaks) + last)[0] == lines[0][0];
    }
  }

  /** However its lines end, a text is cut into those lines; what follows the last end is a line unless it is empty. */
  lemma {:induction false} AnyEndsCut(lines: seq<Text>, breaks: seq<Break>, last: Text)
    requires |lines| == |breaks| && Plain(lines) && NoBreaks(last) && Unambiguous(lines, breaks)
    ensures StreamLines(EndedBy(lines, breaks) + last) == lines + if last == [] then [] else [last]
    decreases |lines|
  {
    if lines == [] {
      assert EndedBy(lines, breaks) + last == last;
      OneLineLeft(last);
    } else {
      if breaks[0] == Cr {
        StartsWithoutLf(lines[1..], breaks[1..], last);
      }
      AnyEndsCut(lines[1..], breaks[1..], last);
      EndedFirst(lines[0], lines[1..], breaks[0], breaks[1..], last);
      CutFirst(lines[0], breaks[0], EndedBy(lines[1..], breaks[1..]) + last, lines[1..], if last == [] then [] else [last]);
      assert [lines[0]] + lines[1..] == lines && [breaks[0]] + breaks[1..] == breaks;
    }
  }

  lemma EndedFirst(line: Text, lines: seq<Text>, b: Break, breaks: seq<Break>, last: Text)
    requires |lines| == |breaks|
    ensures EndedBy([line] + lines, [b] + breaks) + last == line + BreakText(b) + (EndedBy(lines, breaks) + last)
  {
    assert ([line] + lines)[1..] == lines && ([b] + breaks)[1..] == breaks;
    Follows(line + BreakText(b), EndedBy(lines, breaks), last);
  }

  lemma Follows(a: Text, b: Text, c: Text)
    ensures a + b + c == a + (b + c)
  {
  }

  lemma CutFirst(line: Text, b: Break, rest: Text, lines: seq<Text>, more: seq<Text>)
    requires NoBreaks(line) && (b == Cr && rest != [] ==> rest[0] != 10) && StreamLines(rest) == lines + more
    ensures StreamLines(line + BreakText(b) + rest) == [line] + lines + more
  {
    CutAtBreak(line, b, rest);
    Regroup(line, lines, more);
  }

  lemma Regroup(line: Text, lines: seq<Text>, more: seq<Text>)
    ensures [line] + (lines + more) == [line] + lines + more
  {
  }

  lemma OneLineLeft(last: Text)
    requires NoBreaks(last)
    ensures StreamLines(last) == if last == [] then [] else [last]
  {
    FirstBreakAfter(last, []);
    assert last + [] == last;
    assert SplitLines(last) == [last];
  }

  // --- whole streams ----------------------------------------------------------------------

  ghost predicate AllLoosened(lines: seq<Text>, loose: seq<Text>) {
    |loose| == |lines| && (lines != [] ==> Loosened(lines[0], loose[0]) && AllLoosened(lines[1..], loose[1..]))
  }

  lemma {:induction false} AllPlain(lines: seq<Text>, loose: seq<Text>)
    requires AllLoosened(lines, loose) && Plain(lines)
    ensures Plain(loose)
    decreases |lines|
  {
    if lines != [] {
      LooseHasNoBreaks(lines[0], loose[0]);
      AllPlain(lines[1..], loose[1..]);
    }
  }

  lemma {:induction false} AllReadAlike(f: Fields, lines: seq<Text>, loose: seq<Text>, max: nat, numeral: Numeral)
    requires AllLoosened(lines, loose) && AllFit(lines, max)
    ensures ParseLines(ReaderOf(max, numeral), f, loose) == ParseLines(ReaderOf(max, numeral), f, lines)
    decreases |lines|
  {
    if lines != [] {
      LooseReadsAlike(f, lines[0], loose[0], max, numeral);
      AllReadAlike(LineStep(f, lines[0], max, numeral).fields, lines[1..], loose[1..], max, numeral);
    }
  }

  lemma {:induction false} FramesFit(es: seq<OutEvent>, max: nat, show: Show)
    requires AllFrames(es, max, show)
    ensures AllFit(AllFrameLines(es, show), max)
  {
    if es != [] {
      FramesFit(es[1..], max, show);
      AllFitAppend(FrameLines(es[0], show), AllFrameLines(es[1..], show), max);
    }
  }

  /**
   * The printer's frames in any lenient form, with any line ends and cut anywhere, read as exactly
   * the events the printer's own form reads as.
   */
  lemma LenientReadsBack(es: seq<OutEvent>, loose: seq<Text>, breaks: seq<Break>, chunks: seq<Text>,
                         max: nat, numeral: Numeral, show: Show)
    requires RetriesRead(es, numeral, show) && AllFrames(es, max, show)
    requires AllLoosened(AllFrameLines(es, show), loose) && |breaks| == |loose| && Unambiguous(loose, breaks)
    requires Concat(chunks) == EndedBy(loose, breaks)
    ensures Run(ReaderOf(max, numeral), max, START, [], chunks) == Some(ReadBackAll(es, None))
  {
    FormatAllLines(es, numeral, show);
    AllPlain(AllFrameLines(es, show), loose);
    AllEndsCut(loose, breaks);
    FramesReadAlike(es, loose, max, numeral, show);
    ChunksReadAsText(chunks, max, numeral);
  }

  lemma AllEndsCut(lines: seq<Text>, breaks: seq<Break>)
    requires |lines| == |breaks| && Plain(lines) && Unambiguous(lines, breaks)
    ensures StreamLines(EndedBy(lines, breaks)) == lines
  {
    AnyEndsCut(lines, breaks, []);
    assert EndedBy(lines, breaks) + [] == EndedBy(lines, breaks) && lines + [] == lines;
  }

  lemma FramesReadAlike(es: seq<OutEvent>, loose: seq<Text>, max: nat, numeral: Numeral, show: Show)
    requires RetriesRead(es, numeral, show) && AllFrames(es, max, show) && AllLoosened(AllFrameLines(es, show), loose)
    ensures FinishLines(ReaderOf(max, numeral), START, loose) == Some(ReadBackAll(es, None))
  {
    FramesFit(es, max, show);
    AllReadAlike(START, AllFrameLines(es, show), loose, max, numeral);
    ReadFrames(es, None, max, numeral, show);
    assert Clean(None) == START;
  }
}
