/**
 * Framing, printing, cutting anywhere, parsing and translating, end to end. An event travels as one
 * frame with its type as the frame's name and its JSON text as data.
 */
module AnthropicWire {
  import opened Options
  import opened Utf16
  import opened Sse
  import F = SseFormat
  import A = AnthropicStream
  import T = AnthropicRoundTrip

  /** The type of an event, its JSON text, and the reading of such a text. */
  datatype Wire = Wire(name: A.Event -> Text, json: A.Event -> Text, parse: Text -> Option<A.Event>)

  /** JSON text holds no line break, and reads back as what was written. */
  predicate Travels(e: A.Event, w: Wire) {
    && NoBreaks(w.json(e)) && w.parse(w.json(e)) == Some(e)
    && w.name(e) != [] && NoBreaks(w.name(e))
  }

  predicate AllTravel(events: seq<A.Event>, w: Wire) {
    forall i :: 0 <= i < |events| ==> Travels(events[i], w)
  }

  function FrameOf(e: A.Event, w: Wire): F.OutEvent {
    F.OutEvent(None, None, Some(w.name(e)), None, Some(w.json(e)))
  }

  function Frames(events: seq<A.Event>, w: Wire): (frames: seq<F.OutEvent>)
    ensures |frames| == |events| && forall i :: 0 <= i < |events| ==> frames[i] == FrameOf(events[i], w)
  {
    if events == [] then [] else [FrameOf(events[0], w)] + Frames(events[1..], w)
  }

  /** The events read from parsed frames; a frame that does not parse is none. */
  function EventsOf(got: seq<SseEvent>, w: Wire): seq<A.Event> {
    if got == [] then []
    else
      var e := w.parse(got[0].data);
      (if e.Some? then [e.value] else []) + EventsOf(got[1..], w)
  }

  lemma {:induction false} NothingToNormalize(s: Text)
    requires NoBreaks(s)
    ensures F.NormalizeBreaks(s) == s
  {
    if s != [] {
      NothingToNormalize(s[1..]);
    }
  }

  lemma {:induction false} EventsReadBack(events: seq<A.Event>, got: seq<SseEvent>, w: Wire)
    requires AllTravel(events, w) && |got| == |events|
    requires forall i :: 0 <= i < |events| ==> got[i].data == w.json(events[i])
    ensures EventsOf(got, w) == events
  {
    if events != [] {
      assert Travels(events[0], w);
      forall i | 0 <= i < |events[1..]|
        ensures got[1..][i].data == w.json(events[1..][i]) && Travels(events[1..][i], w)
      {
        assert Travels(events[i + 1], w);
      }
      EventsReadBack(events[1..], got[1..], w);
      assert [events[0]] + events[1..] == events;
    }
  }

  lemma {:induction false} NoRetries(events: seq<A.Event>, w: Wire, numeral: Numeral, show: F.Show)
    ensures F.RetriesRead(Frames(events, w), numeral, show)
  {
    if events != [] {
      NoRetries(events[1..], w, numeral, show);
      assert Frames(events, w)[1..] == Frames(events[1..], w);
    }
  }

  /** Printed events, cut anywhere, are parsed as the events that were printed. */
  lemma PrintedEventsReadBack(events: seq<A.Event>, w: Wire, pieces: seq<Text>, max: nat, numeral: Numeral, show: F.Show)
    requires AllTravel(events, w)
    requires F.AllFrames(Frames(events, w), max, show) && Concat(pieces) == F.FormatAll(Frames(events, w), show)
    ensures var got := Run(ReaderOf(max, numeral), max, START, [], pieces);
      got.Some? && |got.value| == |events| && EventsOf(got.value, w) == events
  {
    var frames := Frames(events, w);
    NoRetries(events, w, numeral, show);
    F.PrintedReadsBack(frames, pieces, max, numeral, show);
    F.OneEventPerFrame(frames, None);
    var got := F.ReadBackAll(frames, None);
    forall i | 0 <= i < |events|
      ensures got[i].data == w.json(events[i])
    {
      assert frames[i] == FrameOf(events[i], w) && Travels(events[i], w);
      NothingToNormalize(w.json(events[i]));
    }
    EventsReadBack(events, got, w);
  }

  /**
   * OpenAI chunks framed for an Anthropic client, printed, cut anywhere on the way, parsed and
   * translated back: text, tool calls, finish reason and output tokens arrive.
   */
  lemma WireRoundTrip(chunks: seq<A.Chunk>, ids: A.FreshIds, outputTokens: int, made: string, w: Wire,
                      pieces: seq<Text>, max: nat, numeral: Numeral, show: F.Show)
    requires forall i: nat :: ids(i) != ""
    requires AllTravel(A.Framed(chunks, ids, outputTokens), w)
    requires F.AllFrames(Frames(A.Framed(chunks, ids, outputTokens), w), max, show)
    requires Concat(pieces) == F.FormatAll(Frames(A.Framed(chunks, ids, outputTokens), w), show)
    ensures var got := Run(ReaderOf(max, numeral), max, START, [], pieces);
      && got.Some?
      && var (t, back) := T.HandleAll(T.NEW_TRANSLATOR, EventsOf(got.value, w), made);
         T.Arrives(T.Meaning(back), T.Meaning(chunks)) && T.Reports(t, outputTokens)
  {
    PrintedEventsReadBack(A.Framed(chunks, ids, outputTokens), w, pieces, max, numeral, show);
    T.FramedTranslatesBack(chunks, ids, outputTokens, made);
  }
}
