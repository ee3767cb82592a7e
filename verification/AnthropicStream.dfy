/**
 * The Anthropic side of streaming: the framer that turns OpenAI delta chunks into an Anthropic
 * event tree, and the translator that turns an Anthropic event stream into OpenAI delta chunks.
 * Events stand for their JSON frames.
 */
module AnthropicStream {
  import opened Options
  import opened Sorting

  /** One tool-call fragment of a delta. Absent texts are empty. */
  datatype Call = Call(index: int, id: string, name: string, args: string)

  /** What the gateway reads of one OpenAI chunk. */
  datatype Chunk = Chunk(role: string, content: string, reasoning: string, toolCalls: seq<Call>, finishReason: string)

  datatype Event =
    | MessageStart(inputTokens: int, cacheRead: int, cacheWrite: int)
    | TextBlockStart(index: nat)
    | ToolBlockStart(index: nat, id: string, name: string)
    | TextDelta(index: nat, text: string)
    | ThinkingDelta(index: nat, text: string)
    | JsonDelta(index: nat, partial: string)
    | BlockStop(index: nat)
    | MessageDelta(stopReason: string, outputTokens: Option<int>)
    | MessageStop
    | Failure
    | Ping

  function StopReasonFromOpenai(finishReason: string): string {
    if finishReason == "length" then "max_tokens"
    else if finishReason == "tool_calls" || finishReason == "function_call" then "tool_use"
    else if finishReason == "content_filter" then "refusal"
    else "end_turn"
  }

  function FinishReasonFromAnthropic(stopReason: string): string {
    if stopReason == "end_turn" || stopReason == "stop_sequence" then "stop"
    else if stopReason == "max_tokens" then "length"
    else if stopReason == "tool_use" then "tool_calls"
    else if stopReason == "refusal" then "content_filter"
    else if stopReason == "" then ""
    else "stop"
  }

  // --- the framer ------------------------------------------------------------------

  /** Ids made up for tool calls that arrive without one, by block index. */
  type FreshIds = nat -> string

  /** `blocks` lists the tool calls in order of first appearance with their block indexes. */
  datatype Framer = Framer(blocks: seq<(int, nat)>, nextIndex: nat, textIndex: Option<nat>, stopReason: string, closed: bool)

  const NO_USAGE_YET := MessageStart(0, 0, 0)

  const NEW_FRAMER := Framer([], 0, None, "end_turn", false)

  function BlockAt(blocks: seq<(int, nat)>, callIndex: int): Option<nat> {
    if blocks == [] then None
    else if blocks[0].0 == callIndex then Some(blocks[0].1)
    else BlockAt(blocks[1..], callIndex)
  }

  function IdOr(id: string, made: string): string {
    if id != "" then id else made
  }

  function TextStep(f: Framer, content: string): (Framer, seq<Event>) {
    if content == "" then (f, [])
    else if f.textIndex.Some? then (f, [TextDelta(f.textIndex.value, content)])
    else (f.(textIndex := Some(f.nextIndex), nextIndex := f.nextIndex + 1),
          [TextBlockStart(f.nextIndex), TextDelta(f.nextIndex, content)])
  }

  function ArgsEvents(block: nat, args: string): seq<Event> {
    if args == "" then [] else [JsonDelta(block, args)]
  }

  function CallStep(f: Framer, c: Call, ids: FreshIds): (Framer, seq<Event>) {
    var block := BlockAt(f.blocks, c.index);
    if block.Some? then (f, ArgsEvents(block.value, c.args))
    else (f.(blocks := f.blocks + [(c.index, f.nextIndex)], nextIndex := f.nextIndex + 1),
          [ToolBlockStart(f.nextIndex, IdOr(c.id, ids(f.nextIndex)), c.name)] + ArgsEvents(f.nextIndex, c.args))
  }

  function CallSteps(f: Framer, calls: seq<Call>, ids: FreshIds): (Framer, seq<Event>)
    decreases |calls|
  {
    if calls == [] then (f, [])
    else
      var (f1, e1) := CallStep(f, calls[0], ids);
      var (f2, e2) := CallSteps(f1, calls[1..], ids);
      (f2, e1 + e2)
  }

  function ChunkStep(f: Framer, c: Chunk, ids: FreshIds): (Framer, seq<Event>) {
    var (f1, e1) := TextStep(f, c.content);
    var (f2, e2) := CallSteps(f1, c.toolCalls, ids);
    (if c.finishReason == "" then f2 else f2.(stopReason := StopReasonFromOpenai(c.finishReason)), e1 + e2)
  }

  function ChunkSteps(f: Framer, chunks: seq<Chunk>, ids: FreshIds): (Framer, seq<Event>)
    decreases |chunks|
  {
    if chunks == [] then (f, [])
    else
      var (f1, e1) := ChunkStep(f, chunks[0], ids);
      var (f2, e2) := ChunkSteps(f1, chunks[1..], ids);
      (f2, e1 + e2)
  }

  /** Stops for blocks `n-1` down to 0. */
  function StopsDownFrom(n: nat): seq<Event> {
    if n == 0 then [] else [BlockStop(n - 1)] + StopsDownFrom(n - 1)
  }

  function FinishEvents(f: Framer, outputTokens: int): seq<Event> {
    if f.closed then [] else StopsDownFrom(f.nextIndex) + [MessageDelta(f.stopReason, Some(outputTokens)), MessageStop]
  }

  /** The whole stream written for a sequence of chunks. */
  function Framed(chunks: seq<Chunk>, ids: FreshIds, outputTokens: int): seq<Event> {
    var (f, body) := ChunkSteps(NEW_FRAMER, chunks, ids);
    [NO_USAGE_YET] + body + FinishEvents(f, outputTokens)
  }

  /** Block indexes are handed out once each, from 0, in order of opening. */
  ghost predicate IndexesOk(f: Framer) {
    && (forall i :: 0 <= i < |f.blocks| ==> f.blocks[i].1 < f.nextIndex)
    && (forall i, j :: 0 <= i < j < |f.blocks| ==> f.blocks[i].1 < f.blocks[j].1 && f.blocks[i].0 != f.blocks[j].0)
    && (f.textIndex.Some? ==> f.textIndex.value < f.nextIndex)
    && (forall i :: 0 <= i < |f.blocks| ==> f.textIndex != Some(f.blocks[i].1))
    && f.nextIndex == |f.blocks| + (if f.textIndex.Some? then 1 else 0)
  }

  lemma {:induction false} BlockAtFinds(blocks: seq<(int, nat)>, callIndex: int)
    ensures var b := BlockAt(blocks, callIndex);
      && (b.Some? ==> exists i :: 0 <= i < |blocks| && blocks[i] == (callIndex, b.value))
      && (b.None? ==> forall i :: 0 <= i < |blocks| ==> blocks[i].0 != callIndex)
  {
    if blocks != [] {
      BlockAtFinds(blocks[1..], callIndex);
      var b := BlockAt(blocks[1..], callIndex);
      if blocks[0].0 == callIndex {
        assert blocks[0] == (callIndex, blocks[0].1);
      } else if b.Some? {
        var i :| 0 <= i < |blocks[1..]| && blocks[1..][i] == (callIndex, b.value);
        assert blocks[i + 1] == (callIndex, b.value);
      }
    }
  }

  lemma CallStepKeepsIndexes(f: Framer, c: Call, ids: FreshIds)
    requires IndexesOk(f)
    ensures IndexesOk(CallStep(f, c, ids).0)
  {
    BlockAtFinds(f.blocks, c.index);
  }

  lemma {:induction false} CallStepsKeepIndexes(f: Framer, calls: seq<Call>, ids: FreshIds)
    requires IndexesOk(f)
    ensures IndexesOk(CallSteps(f, calls, ids).0) && CallSteps(f, calls, ids).0.closed == f.closed
    decreases |calls|
  {
    if calls != [] {
      CallStepKeepsIndexes(f, calls[0], ids);
      CallStepsKeepIndexes(CallStep(f, calls[0], ids).0, calls[1..], ids);
    }
  }

  /** The framer with its captured variables. */
  class AnthropicFramer {
    const ids: FreshIds
    var openToolBlocks: seq<(int, nat)>
    var nextIndex: nat
    var textIndex: Option<nat>
    var stopReason: string
    var closed: bool

    ghost function State(): Framer
      reads this
    {
      Framer(openToolBlocks, nextIndex, textIndex, stopReason, closed)
    }

    constructor (ids: FreshIds)
      ensures this.ids == ids && State() == NEW_FRAMER && IndexesOk(State())
    {
      this.ids := ids;
      openToolBlocks, nextIndex, textIndex, stopReason, closed := [], 0, None, "end_turn", false;
    }

    method Start() returns (out: seq<Event>)
      ensures out == [NO_USAGE_YET]
    {
      out := [NO_USAGE_YET];
    }

    method FrameText(content: string) returns (out: seq<Event>)
      modifies this`textIndex, this`nextIndex
      ensures (State(), out) == TextStep(old(State()), content)
    {
      out := [];
      if content != "" {
        if textIndex.None? {
          textIndex := Some(nextIndex);
          nextIndex := nextIndex + 1;
          out := out + [TextBlockStart(textIndex.value)];
        }
        out := out + [TextDelta(textIndex.value, content)];
      }
      assert out == TextStep(old(State()), content).1;
    }

    method FrameCall(call: Call) returns (out: seq<Event>)
      modifies this`openToolBlocks, this`nextIndex
      ensures (State(), out) == CallStep(old(State()), call, ids)
    {
      out := [];
      var blockIndex := BlockAt(openToolBlocks, call.index);
      if blockIndex.None? {
        blockIndex := Some(nextIndex);
        nextIndex := nextIndex + 1;
        openToolBlocks := openToolBlocks + [(call.index, blockIndex.value)];
        out := out + [ToolBlockStart(blockIndex.value, IdOr(call.id, ids(blockIndex.value)), call.name)];
      }
      if call.args != "" {
        out := out + [JsonDelta(blockIndex.value, call.args)];
      }
      assert out == CallStep(old(State()), call, ids).1;
    }

    method FrameCalls(calls: seq<Call>) returns (out: seq<Event>)
      modifies this`openToolBlocks, this`nextIndex
      ensures (State(), out) == CallSteps(old(State()), calls, ids)
    {
      out := [];
      ghost var all := CallSteps(State(), calls, ids);
      assert calls[0..] == calls;
      for i := 0 to |calls|
        invariant CallSteps(State(), calls[i..], ids).0 == all.0
        invariant out + CallSteps(State(), calls[i..], ids).1 == all.1
      {
        assert calls[i..][1..] == calls[i + 1..];
        ghost var later := CallSteps(CallStep(State(), calls[i], ids).0, calls[i + 1..], ids).1;
        var events := FrameCall(calls[i]);
        assert (out + events) + later == out + (events + later);
        out := out + events;
      }
      assert calls[|calls|..] == [];
      assert out + [] == out;
    }

    method Frame(c: Chunk) returns (out: seq<Event>)
      requires IndexesOk(State())
      modifies this
      ensures (State(), out) == ChunkStep(old(State()), c, ids) && IndexesOk(State())
    {
      TextStepAccepted(State(), c.content);
      var text := FrameText(c.content);
      CallStepsKeepIndexes(State(), c.toolCalls, ids);
      var calls := FrameCalls(c.toolCalls);
      out := text + calls;
      if c.finishReason != "" {
        stopReason := StopReasonFromOpenai(c.finishReason);
      }
    }

    /** The open blocks, newest first. */
    method IndexesToClose() returns (sorted: seq<int>)
      requires IndexesOk(State())
      ensures |sorted| == nextIndex && forall i :: 0 <= i < |sorted| ==> sorted[i] == |sorted| - 1 - i
    {
      var indexes: seq<int> := [];
      for i := 0 to |openToolBlocks|
        invariant |indexes| == i && forall j :: 0 <= j < i ==> indexes[j] == openToolBlocks[j].1
      {
        indexes := indexes + [openToolBlocks[i].1];
      }
      if textIndex.Some? {
        indexes := indexes + [textIndex.value];
      }
      sorted := SortDown(indexes);
      SortedIsCountdown(indexes, sorted);
    }

    /** Closes every block newest first, then the message; a second call writes nothing. */
    method Finish(outputTokens: int) returns (out: seq<Event>)
      requires IndexesOk(State())
      modifies this`closed
      ensures out == FinishEvents(old(State()), outputTokens) && closed
    {
      if closed {
        return [];
      }
      closed := true;
      var sorted := IndexesToClose();
      out := [];
      for i := 0 to |sorted|
        invariant out + StopsDownFrom(|sorted| - i) == StopsDownFrom(|sorted|)
      {
        out := out + [BlockStop(sorted[i])];
      }
      assert out + [] == out;
      out := out + [MessageDelta(stopReason, Some(outputTokens)), MessageStop];
    }
  }

  /** Distinct indexes below their own number, sorted newest first, count down to 0. */
  lemma SortedIsCountdown(indexes: seq<int>, sorted: seq<int>)
    requires sorted == SortDown(indexes)
    requires forall i, j :: 0 <= i < j < |indexes| ==> indexes[i] != indexes[j]
    requires forall i :: 0 <= i < |indexes| ==> 0 <= indexes[i] < |indexes|
    ensures forall i :: 0 <= i < |sorted| ==> sorted[i] == |sorted| - 1 - i
  {
    DistinctNoRepeats(indexes);
    Countdown(sorted);
  }

  // --- well-formed event trees ----------------------------------------------------------

  datatype Kind = TextBlock | ToolBlock

  /** What a client that checks the event tree has seen so far. */
  datatype Phase = Waiting | Body(next: nat, open: map<nat, Kind>) | Closing | Ended | Broken

  function Accept(p: Phase, e: Event): Phase {
    match (p, e)
    case (Waiting, MessageStart(_, _, _)) => Body(0, map[])
    case (Body(next, open), TextBlockStart(i)) =>
      if i == next then Body(next + 1, open[i := TextBlock]) else Broken
    case (Body(next, open), ToolBlockStart(i, _, _)) =>
      if i == next then Body(next + 1, open[i := ToolBlock]) else Broken
    case (Body(next, open), TextDelta(i, _)) =>
      if i in open && open[i] == TextBlock then p else Broken
    case (Body(next, open), JsonDelta(i, _)) =>
      if i in open && open[i] == ToolBlock then p else Broken
    case (Body(next, open), BlockStop(i)) =>
      if i in open then Body(next, open - {i}) else Broken
    case (Body(next, open), MessageDelta(_, _)) =>
      if open == map[] then Closing else Broken
    case (Closing, MessageStop) => Ended
    case _ => Broken
  }

  function AcceptAll(p: Phase, events: seq<Event>): Phase
    decreases |events|
  {
    if events == [] then p else AcceptAll(Accept(p, events[0]), events[1..])
  }

  lemma {:induction false} AcceptAppended(p: Phase, a: seq<Event>, b: seq<Event>)
    ensures AcceptAll(p, a + b) == AcceptAll(AcceptAll(p, a), b)
    decreases |a|
  {
    if a == [] {
      assert a + b == b;
    } else {
      assert (a + b)[1..] == a[1..] + b;
      AcceptAppended(Accept(p, a[0]), a[1..], b);
    }
  }

  /** Blocks of an unfinished framer below `n`; all of them are open. */
  ghost function OpenBelow(f: Framer, n: nat): map<nat, Kind> {
    map i: nat | 0 <= i < n :: if f.textIndex == Some(i) then TextBlock else ToolBlock
  }

  ghost function PhaseOf(f: Framer): Phase {
    Body(f.nextIndex, OpenBelow(f, f.nextIndex))
  }

  lemma TextStepAccepted(f: Framer, content: string)
    requires IndexesOk(f)
    ensures AcceptAll(PhaseOf(f), TextStep(f, content).1) == PhaseOf(TextStep(f, content).0)
    ensures IndexesOk(TextStep(f, content).0)
  {
    if content != "" && f.textIndex.None? {
      var start, g := TextBlockStart(f.nextIndex), TextStep(f, content).0;
      assert Accept(PhaseOf(f), start).open == OpenBelow(g, g.nextIndex);
      AcceptAppended(PhaseOf(f), [start], [TextDelta(f.nextIndex, content)]);
    }
  }

  lemma CallStepAccepted(f: Framer, c: Call, ids: FreshIds)
    requires IndexesOk(f)
    ensures AcceptAll(PhaseOf(f), CallStep(f, c, ids).1) == PhaseOf(CallStep(f, c, ids).0)
  {
    BlockAtFinds(f.blocks, c.index);
    var g := CallStep(f, c, ids).0;
    if BlockAt(f.blocks, c.index).None? {
      var start := ToolBlockStart(f.nextIndex, IdOr(c.id, ids(f.nextIndex)), c.name);
      assert Accept(PhaseOf(f), start).open == OpenBelow(g, g.nextIndex);
      AcceptAppended(PhaseOf(f), [start], ArgsEvents(f.nextIndex, c.args));
    }
  }

  lemma {:induction false} CallStepsAccepted(f: Framer, calls: seq<Call>, ids: FreshIds)
    requires IndexesOk(f)
    ensures AcceptAll(PhaseOf(f), CallSteps(f, calls, ids).1) == PhaseOf(CallSteps(f, calls, ids).0)
    decreases |calls|
  {
    if calls != [] {
      var (g, e1) := CallStep(f, calls[0], ids);
      CallStepKeepsIndexes(f, calls[0], ids);
      CallStepAccepted(f, calls[0], ids);
      CallStepsAccepted(g, calls[1..], ids);
      AcceptAppended(PhaseOf(f), e1, CallSteps(g, calls[1..], ids).1);
    }
  }

  lemma ChunkStepAccepted(f: Framer, c: Chunk, ids: FreshIds)
    requires IndexesOk(f)
    ensures AcceptAll(PhaseOf(f), ChunkStep(f, c, ids).1) == PhaseOf(ChunkStep(f, c, ids).0)
    ensures IndexesOk(ChunkStep(f, c, ids).0) && ChunkStep(f, c, ids).0.closed == f.closed
  {
    var (g, e1) := TextStep(f, c.content);
    TextStepAccepted(f, c.content);
    var (h, e2) := CallSteps(g, c.toolCalls, ids);
    CallStepsAccepted(g, c.toolCalls, ids);
    CallStepsKeepIndexes(g, c.toolCalls, ids);
    AcceptAppended(PhaseOf(f), e1, e2);
  }

  lemma {:induction false} ChunkStepsAccepted(f: Framer, chunks: seq<Chunk>, ids: FreshIds)
    requires IndexesOk(f)
    ensures AcceptAll(PhaseOf(f), ChunkSteps(f, chunks, ids).1) == PhaseOf(ChunkSteps(f, chunks, ids).0)
    ensures IndexesOk(ChunkSteps(f, chunks, ids).0) && ChunkSteps(f, chunks, ids).0.closed == f.closed
    decreases |chunks|
  {
    if chunks != [] {
      var (g, e1) := ChunkStep(f, chunks[0], ids);
      ChunkStepAccepted(f, chunks[0], ids);
      ChunkStepsAccepted(g, chunks[1..], ids);
      AcceptAppended(PhaseOf(f), e1, ChunkSteps(g, chunks[1..], ids).1);
    }
  }

  lemma {:induction false} StopsAccepted(f: Framer, next: nat, n: nat)
    ensures AcceptAll(Body(next, OpenBelow(f, n)), StopsDownFrom(n)) == Body(next, map[])
  {
    if n == 0 {
      assert OpenBelow(f, 0) == map[];
    } else {
      assert OpenBelow(f, n) - {n - 1} == OpenBelow(f, n - 1);
      StopsAccepted(f, next, n - 1);
    }
  }

  /** Whatever the upstream sends, and wherever it stops, the client reads one complete event tree. */
  lemma FramedIsWellFormed(chunks: seq<Chunk>, ids: FreshIds, outputTokens: int)
    ensures AcceptAll(Waiting, Framed(chunks, ids, outputTokens)) == Ended
  {
    var (f, body) := ChunkSteps(NEW_FRAMER, chunks, ids);
    ChunkStepsAccepted(NEW_FRAMER, chunks, ids);
    AcceptAppended(Waiting, [NO_USAGE_YET] + body, FinishEvents(f, outputTokens));
    AcceptAppended(Waiting, [NO_USAGE_YET], body);
    FinishAccepted(f, outputTokens);
  }

  lemma FinishAccepted(f: Framer, outputTokens: int)
    requires !f.closed
    ensures AcceptAll(PhaseOf(f), FinishEvents(f, outputTokens)) == Ended
  {
    var last := [MessageDelta(f.stopReason, Some(outputTokens)), MessageStop];
    AcceptAppended(PhaseOf(f), StopsDownFrom(f.nextIndex), last);
    StopsAccepted(f, f.nextIndex, f.nextIndex);
    assert AcceptAll(Closing, [MessageStop]) == AcceptAll(Ended, []);
    assert last[1..] == [MessageStop];
  }

  /** A whole stream through the framer object: what it writes is `Framed`, and well-formed. */
  method FrameStream(chunks: seq<Chunk>, ids: FreshIds, outputTokens: int) returns (out: seq<Event>)
    ensures out == Framed(chunks, ids, outputTokens) && AcceptAll(Waiting, out) == Ended
  {
    FramedIsWellFormed(chunks, ids, outputTokens);
    var framer := new AnthropicFramer(ids);
    var head := framer.Start();
    var body := FrameChunks(framer, chunks);
    var tail := framer.Finish(outputTokens);
    out := head + body + tail;
  }

  method FrameChunks(framer: AnthropicFramer, chunks: seq<Chunk>) returns (out: seq<Event>)
    requires IndexesOk(framer.State())
    modifies framer
    ensures (framer.State(), out) == ChunkSteps(old(framer.State()), chunks, framer.ids) && IndexesOk(framer.State())
    decreases |chunks|
  {
    if chunks == [] {
      return [];
    }
    var first := framer.Frame(chunks[0]);
    var rest := FrameChunks(framer, chunks[1..]);
    out := first + rest;
  }
}
