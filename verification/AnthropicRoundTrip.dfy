/**
 * Anthropic events back to OpenAI chunks, and what survives the trip there and back:
 * OpenAI chunks, framed for an Anthropic client, read by the stream translator.
 */
module AnthropicRoundTrip {
  import opened Options
  import opened AnthropicStream

  // --- the translator -------------------------------------------------------------------

  datatype Translator = Translator(
    toolIndexByBlock: map<nat, int>, toolCount: nat, finished: bool,
    promptTokens: int, cachedTokens: int, cacheWriteTokens: int, completionTokens: int)

  const NEW_TRANSLATOR := Translator(map[], 0, false, 0, 0, 0, 0)

  const ROLE := Chunk("assistant", "", "", [], "")

  function ContentChunk(text: string): seq<Chunk> {
    if text == "" then [] else [Chunk("", text, "", [], "")]
  }

  function CallChunk(c: Call): Chunk {
    Chunk("", "", "", [c], "")
  }

  /** `made` is the id given to a tool call that has none. */
  function Handle(t: Translator, e: Event, made: string): (Translator, seq<Chunk>) {
    match e
    case MessageStart(input, cacheRead, cacheWrite) =>
      (t.(promptTokens := input, cachedTokens := cacheRead, cacheWriteTokens := cacheWrite), [ROLE])
    case ToolBlockStart(index, id, name) =>
      (t.(toolIndexByBlock := t.toolIndexByBlock[index := t.toolCount], toolCount := t.toolCount + 1),
       [CallChunk(Call(t.toolCount, IdOr(id, made), name, ""))])
    case TextDelta(_, text) => (t, ContentChunk(text))
    case ThinkingDelta(_, text) => (t, if text == "" then [] else [Chunk("", "", text, [], "")])
    case JsonDelta(index, partial) =>
      (t, if index in t.toolIndexByBlock then [CallChunk(Call(t.toolIndexByBlock[index], "", "", partial))] else [])
    case MessageDelta(stopReason, outputTokens) =>
      var t1 := if outputTokens.Some? then t.(completionTokens := outputTokens.value) else t;
      var reason := FinishReasonFromAnthropic(stopReason);
      if reason == "" then (t1, []) else (t1.(finished := true), [Chunk("", "", "", [], reason)])
    case MessageStop => (t.(finished := true), [])
    case Failure => (t.(finished := true), [Chunk("", "", "", [], "error")])
    case _ => (t, [])
  }

  /** Token counts in OpenAI's terms, where the prompt includes what was read from and written to the cache. */
  datatype Usage = Usage(promptTokens: int, completionTokens: int, totalTokens: int, cachedTokens: int, cacheCreationTokens: int)

  function UsageOf(t: Translator): Usage {
    var prompt := t.promptTokens + t.cachedTokens + t.cacheWriteTokens;
    Usage(prompt, t.completionTokens, prompt + t.completionTokens, t.cachedTokens, t.cacheWriteTokens)
  }

  function HandleAll(t: Translator, events: seq<Event>, made: string): (Translator, seq<Chunk>)
    decreases |events|
  {
    if events == [] then (t, [])
    else
      var (t1, c1) := Handle(t, events[0], made);
      var (t2, c2) := HandleAll(t1, events[1..], made);
      (t2, c1 + c2)
  }

  class StreamTranslator {
    var toolIndexByBlock: map<nat, int>
    var toolCount: nat
    var finished: bool
    var promptTokens: int
    var cachedTokens: int
    var cacheWriteTokens: int
    var completionTokens: int

    ghost function State(): Translator
      reads this
    {
      Translator(toolIndexByBlock, toolCount, finished, promptTokens, cachedTokens, cacheWriteTokens, completionTokens)
    }

    constructor ()
      ensures State() == NEW_TRANSLATOR
    {
      toolIndexByBlock, toolCount, finished := map[], 0, false;
      promptTokens, cachedTokens, cacheWriteTokens, completionTokens := 0, 0, 0, 0;
    }

    method HandleEvent(e: Event, made: string) returns (out: seq<Chunk>)
      modifies this
      ensures (State(), out) == Handle(old(State()), e, made)
    {
      out := [];
      match e
      case MessageStart(input, cacheRead, cacheWrite) =>
        promptTokens, cachedTokens, cacheWriteTokens := input, cacheRead, cacheWrite;
        out := [ROLE];
      case ToolBlockStart(index, id, name) =>
        var toolIndex := toolCount;
        toolCount := toolCount + 1;
        toolIndexByBlock := toolIndexByBlock[index := toolIndex];
        out := [CallChunk(Call(toolIndex, IdOr(id, made), name, ""))];
      case TextDelta(_, text) =>
        out := ContentChunk(text);
      case ThinkingDelta(_, text) =>
        if text != "" {
          out := [Chunk("", "", text, [], "")];
        }
      case JsonDelta(index, partial) =>
        if index in toolIndexByBlock {
          out := [CallChunk(Call(toolIndexByBlock[index], "", "", partial))];
        }
      case MessageDelta(stopReason, outputTokens) =>
        if outputTokens.Some? {
          completionTokens := outputTokens.value;
        }
        var reason := FinishReasonFromAnthropic(stopReason);
        if reason != "" {
          finished := true;
          out := [Chunk("", "", "", [], reason)];
        }
      case MessageStop =>
        finished := true;
      case Failure =>
        finished := true;
        out := [Chunk("", "", "", [], "error")];
      case _ =>
    }

    method ReportUsage() returns (usage: Usage)
      ensures usage == UsageOf(State())
    {
      var prompt := promptTokens + cachedTokens + cacheWriteTokens;
      usage := Usage(prompt, completionTokens, prompt + completionTokens, cachedTokens, cacheWriteTokens);
    }
  }

  /** A whole stream through the translator object. */
  method TranslateStream(events: seq<Event>, made: string) returns (out: seq<Chunk>, translator: StreamTranslator)
    ensures fresh(translator) && (translator.State(), out) == HandleAll(NEW_TRANSLATOR, events, made)
  {
    translator := new StreamTranslator();
    out := [];
    ghost var all := HandleAll(NEW_TRANSLATOR, events, made);
    assert events[0..] == events;
    for i := 0 to |events|
      invariant fresh(translator)
      invariant HandleAll(translator.State(), events[i..], made).0 == all.0
      invariant out + HandleAll(translator.State(), events[i..], made).1 == all.1
    {
      assert events[i..][1..] == events[i + 1..];
      ghost var later := HandleAll(Handle(translator.State(), events[i], made).0, events[i + 1..], made).1;
      var chunks := translator.HandleEvent(events[i], made);
      assert (out + chunks) + later == out + (chunks + later);
      out := out + chunks;
    }
    assert events[|events|..] == [];
    assert out + [] == out;
  }

  // --- what a client reads in a chunk stream ------------------------------------------------

  /** A whole tool call: id and name come with its first fragment, arguments accumulate. */
  datatype ToolCall = ToolCall(index: int, id: string, name: string, args: string)

  datatype Message = Message(role: string, text: string, reasoning: string, calls: seq<ToolCall>, finish: string)

  const NO_MESSAGE := Message("", "", "", [], "")

  function Position(calls: seq<ToolCall>, index: int): (k: nat)
    ensures k <= |calls|
    ensures k < |calls| ==> calls[k].index == index
    ensures forall j :: 0 <= j < k ==> calls[j].index != index
  {
    if calls == [] || calls[0].index == index then 0 else 1 + Position(calls[1..], index)
  }

  function AddFragment(calls: seq<ToolCall>, c: Call): seq<ToolCall> {
    var k := Position(calls, c.index);
    if k == |calls| then calls + [ToolCall(c.index, c.id, c.name, c.args)]
    else calls[k := calls[k].(args := calls[k].args + c.args)]
  }

  function AddFragments(calls: seq<ToolCall>, fragments: seq<Call>): seq<ToolCall>
    decreases |fragments|
  {
    if fragments == [] then calls else AddFragments(AddFragment(calls, fragments[0]), fragments[1..])
  }

  function AddChunk(m: Message, c: Chunk): Message {
    Message(if c.role == "" then m.role else c.role, m.text + c.content, m.reasoning + c.reasoning, AddFragments(m.calls, c.toolCalls),
      if c.finishReason == "" then m.finish else c.finishReason)
  }

  function AddChunks(m: Message, chunks: seq<Chunk>): Message
    decreases |chunks|
  {
    if chunks == [] then m else AddChunks(AddChunk(m, chunks[0]), chunks[1..])
  }

  function Meaning(chunks: seq<Chunk>): Message {
    AddChunks(NO_MESSAGE, chunks)
  }

  // --- simulation -----------------------------------------------------------------------------

  /** A translator together with what its client has read so far. */
  datatype Reader = Reader(t: Translator, m: Message)

  function Hear(r: Reader, e: Event, made: string): Reader {
    var (t, chunks) := Handle(r.t, e, made);
    Reader(t, AddChunks(r.m, chunks))
  }

  function HearAll(r: Reader, events: seq<Event>, made: string): Reader
    decreases |events|
  {
    if events == [] then r else HearAll(Hear(r, events[0], made), events[1..], made)
  }

  lemma {:induction false} HearAppended(r: Reader, a: seq<Event>, b: seq<Event>, made: string)
    ensures HearAll(r, a + b, made) == HearAll(HearAll(r, a, made), b, made)
    decreases |a|
  {
    if a == [] {
      assert a + b == b;
    } else {
      assert (a + b)[1..] == a[1..] + b;
      HearAppended(Hear(r, a[0], made), a[1..], b, made);
    }
  }

  lemma {:induction false} AddAppended(m: Message, a: seq<Chunk>, b: seq<Chunk>)
    ensures AddChunks(m, a + b) == AddChunks(AddChunks(m, a), b)
    decreases |a|
  {
    if a == [] {
      assert a + b == b;
    } else {
      assert (a + b)[1..] == a[1..] + b;
      AddAppended(AddChunk(m, a[0]), a[1..], b);
    }
  }

  /** Reading event by event is reading the translated stream. */
  lemma {:induction false} HeardIsTranslated(r: Reader, events: seq<Event>, made: string)
    ensures var (t, chunks) := HandleAll(r.t, events, made);
      HearAll(r, events, made) == Reader(t, AddChunks(r.m, chunks))
    decreases |events|
  {
    if events != [] {
      var (t1, c1) := Handle(r.t, events[0], made);
      HeardIsTranslated(Hear(r, events[0], made), events[1..], made);
      AddAppended(r.m, c1, HandleAll(t1, events[1..], made).1);
    }
  }

  /** The same call, renumbered to its place among the calls; a missing id is filled in. */
  predicate SameCall(back: ToolCall, sent: ToolCall, place: nat) {
    && back.index == place && back.name == sent.name && back.args == sent.args
    && back.id != "" && (sent.id != "" ==> back.id == sent.id)
  }

  predicate SameCalls(back: seq<ToolCall>, sent: seq<ToolCall>) {
    |back| == |sent| && forall i :: 0 <= i < |sent| ==> SameCall(back[i], sent[i], i)
  }

  /** The finish reason after both maps; a stream without one ends with "stop". */
  function FinishBack(finish: string): (r: string)
    ensures r == if finish in {"length", "content_filter"} then finish
                 else if finish in {"tool_calls", "function_call"} then "tool_calls" else "stop"
  {
    FinishReasonFromAnthropic(StopReasonFromOpenai(finish))
  }

  /** Block `i` of the framer is call `i` of both sides. */
  ghost predicate Matched(f: Framer, sent: seq<ToolCall>, r: Reader) {
    && |f.blocks| == |sent| == r.t.toolCount
    && SameCalls(r.m.calls, sent)
    && (forall i :: 0 <= i < |sent| ==> MatchedAt(f.blocks[i], sent[i], r.t.toolIndexByBlock, i))
  }

  ghost predicate MatchedAt(block: (int, nat), sent: ToolCall, toolIndexByBlock: map<nat, int>, i: nat) {
    block.0 == sent.index && block.1 in toolIndexByBlock && toolIndexByBlock[block.1] == i
  }

  ghost predicate Sim(f: Framer, sent: Message, r: Reader) {
    && IndexesOk(f) && !f.closed
    && Matched(f, sent.calls, r)
    && r.m.role == "assistant" && r.m.text == sent.text && r.m.reasoning == "" && r.m.finish == ""
    && f.stopReason == StopReasonFromOpenai(sent.finish)
    && r.t.promptTokens == r.t.cachedTokens == r.t.cacheWriteTokens == 0 && !r.t.finished
  }

  lemma TextSim(f: Framer, sent: Message, r: Reader, content: string, made: string)
    requires Sim(f, sent, r)
    ensures Sim(TextStep(f, content).0, sent.(text := sent.text + content), HearAll(r, TextStep(f, content).1, made))
  {
    TextStepAccepted(f, content);
    if content == "" {
      assert sent.text + content == sent.text;
    } else {
      HearText(r, 0, content, made);
      var g := TextStep(f, content).0;
      var delta := TextStep(f, content).1[if f.textIndex.Some? then 0 else 1];
      HearText(r, delta.index, content, made);
      if f.textIndex.None? {
        HearAppended(r, [TextBlockStart(f.nextIndex)], [delta], made);
        HearOne(r, TextBlockStart(f.nextIndex), made);
      }
    }
  }

  lemma HearOne(r: Reader, e: Event, made: string)
    ensures HearAll(r, [e], made) == Hear(r, e, made)
  {
    assert HearAll(Hear(r, e, made), [], made) == Hear(r, e, made);
  }

  lemma AddOne(m: Message, c: Chunk)
    ensures AddChunks(m, [c]) == AddChunk(m, c)
  {
    assert AddChunks(AddChunk(m, c), []) == AddChunk(m, c);
  }

  lemma HearText(r: Reader, index: nat, text: string, made: string)
    ensures HearAll(r, [TextDelta(index, text)], made) == Reader(r.t, r.m.(text := r.m.text + text))
  {
    HearOne(r, TextDelta(index, text), made);
    if text == "" {
      assert r.m.text + text == r.m.text;
    } else {
      AddOne(r.m, Chunk("", text, "", [], ""));
      assert r.m.reasoning + "" == r.m.reasoning;
    }
  }

  lemma OneFragment(calls: seq<ToolCall>, c: Call)
    ensures AddFragments(calls, [c]) == AddFragment(calls, c)
  {
    var next := AddFragment(calls, c);
    assert [c][1..] == [];
    assert AddFragments(next, []) == next;
  }

  lemma AddCall(m: Message, c: Call)
    ensures AddChunks(m, [CallChunk(c)]) == m.(calls := AddFragment(m.calls, c))
  {
    AddOne(m, CallChunk(c));
    OneFragment(m.calls, c);
    assert m.text + "" == m.text && m.reasoning + "" == m.reasoning;
  }

  lemma HearToolStart(r: Reader, index: nat, id: string, name: string, made: string)
    requires id != "" && |r.m.calls| == r.t.toolCount
    requires forall i :: 0 <= i < |r.m.calls| ==> r.m.calls[i].index == i
    ensures HearAll(r, [ToolBlockStart(index, id, name)], made)
         == Reader(r.t.(toolIndexByBlock := r.t.toolIndexByBlock[index := r.t.toolCount], toolCount := r.t.toolCount + 1),
                   r.m.(calls := r.m.calls + [ToolCall(r.t.toolCount, id, name, "")]))
  {
    HearOne(r, ToolBlockStart(index, id, name), made);
    AddCall(r.m, Call(r.t.toolCount, id, name, ""));
  }

  lemma HearArgs(r: Reader, block: nat, args: string, made: string, k: nat)
    requires block in r.t.toolIndexByBlock && r.t.toolIndexByBlock[block] == k < |r.m.calls|
    requires forall i :: 0 <= i < |r.m.calls| ==> r.m.calls[i].index == i
    ensures HearAll(r, ArgsEvents(block, args), made)
         == Reader(r.t, r.m.(calls := r.m.calls[k := r.m.calls[k].(args := r.m.calls[k].args + args)]))
  {
    var call := r.m.calls[k];
    if args == "" {
      assert call.args + args == call.args;
      assert r.m.calls[k := call] == r.m.calls;
    } else {
      HearOne(r, JsonDelta(block, args), made);
      AddCall(r.m, Call(k, "", "", args));
      assert Position(r.m.calls, k) == k by {
        assert r.m.calls[k].index == k;
      }
    }
  }

  /** A fragment of a call already open on both sides. */
  lemma KnownCallSim(f: Framer, sent: seq<ToolCall>, r: Reader, c: Call, made: string)
    requires IndexesOk(f) && Matched(f, sent, r) && BlockAt(f.blocks, c.index).Some?
    ensures var block := BlockAt(f.blocks, c.index).value;
      var r1 := HearAll(r, ArgsEvents(block, c.args), made);
      && Matched(f, AddFragment(sent, c), r1)
      && r1 == Reader(r.t, r.m.(calls := r1.m.calls))
  {
    BlockAtFinds(f.blocks, c.index);
    var block := BlockAt(f.blocks, c.index).value;
    var k :| 0 <= k < |f.blocks| && f.blocks[k] == (c.index, block);
    assert MatchedAt(f.blocks[k], sent[k], r.t.toolIndexByBlock, k);
    assert SameCall(r.m.calls[k], sent[k], k);
    assert Position(sent, c.index) == k;
    HearArgs(r, block, c.args, made, k);
    var sent1 := AddFragment(sent, c);
    forall i | 0 <= i < |sent1|
      ensures MatchedAt(f.blocks[i], sent1[i], r.t.toolIndexByBlock, i)
    {
      assert MatchedAt(f.blocks[i], sent[i], r.t.toolIndexByBlock, i);
    }
    var back := r.m.calls[k := r.m.calls[k].(args := r.m.calls[k].args + c.args)];
    forall i | 0 <= i < |sent1|
      ensures SameCall(back[i], sent1[i], i)
    {
      assert SameCall(r.m.calls[i], sent[i], i);
    }
  }

  /** The first fragment of a call: both sides open it at the next place. */
  lemma NewCallSim(f: Framer, sent: seq<ToolCall>, r: Reader, c: Call, ids: FreshIds, made: string)
    requires IndexesOk(f) && Matched(f, sent, r) && BlockAt(f.blocks, c.index).None?
    requires ids(f.nextIndex) != ""
    ensures var (g, events) := CallStep(f, c, ids);
      var r1 := HearAll(r, events, made);
      && Matched(g, AddFragment(sent, c), r1)
      && r1 == Reader(r.t.(toolIndexByBlock := r1.t.toolIndexByBlock, toolCount := r1.t.toolCount), r.m.(calls := r1.m.calls))
  {
    var (g, events) := CallStep(f, c, ids);
    var n, id := |sent|, IdOr(c.id, ids(f.nextIndex));
    var start := ToolBlockStart(f.nextIndex, id, c.name);
    BlockAtFinds(f.blocks, c.index);
    assert Position(sent, c.index) == n;
    HearToolStart(r, f.nextIndex, id, c.name, made);
    HearAppended(r, [start], ArgsEvents(f.nextIndex, c.args), made);
    var r0 := HearAll(r, [start], made);
    HearArgs(r0, f.nextIndex, c.args, made, n);
    var r1 := HearAll(r, events, made);
    assert r0.m.calls[n].args + c.args == c.args;
    assert r1.m.calls == r.m.calls + [ToolCall(n, id, c.name, c.args)];
    var sent1 := sent + [ToolCall(c.index, c.id, c.name, c.args)];
    assert AddFragment(sent, c) == sent1;
    forall i | 0 <= i < |sent1|
      ensures SameCall(r1.m.calls[i], sent1[i], i)
      ensures MatchedAt(g.blocks[i], sent1[i], r1.t.toolIndexByBlock, i)
    {
      if i < n {
        assert SameCall(r.m.calls[i], sent[i], i);
        assert MatchedAt(f.blocks[i], sent[i], r.t.toolIndexByBlock, i);
      }
    }
  }

  lemma CallSim(f: Framer, sent: Message, r: Reader, c: Call, ids: FreshIds, made: string)
    requires Sim(f, sent, r) && ids(f.nextIndex) != ""
    ensures var (g, events) := CallStep(f, c, ids);
      Sim(g, sent.(calls := AddFragment(sent.calls, c)), HearAll(r, events, made))
  {
    CallStepKeepsIndexes(f, c, ids);
    if BlockAt(f.blocks, c.index).Some? {
      KnownCallSim(f, sent.calls, r, c, made);
    } else {
      NewCallSim(f, sent.calls, r, c, ids, made);
    }
  }

  lemma {:induction false} CallsSim(f: Framer, sent: Message, r: Reader, calls: seq<Call>, ids: FreshIds, made: string)
    requires Sim(f, sent, r) && forall i: nat :: ids(i) != ""
    ensures var (g, events) := CallSteps(f, calls, ids);
      Sim(g, sent.(calls := AddFragments(sent.calls, calls)), HearAll(r, events, made))
    decreases |calls|
  {
    if calls != [] {
      var (g, e1) := CallStep(f, calls[0], ids);
      CallSim(f, sent, r, calls[0], ids, made);
      var sent1 := sent.(calls := AddFragment(sent.calls, calls[0]));
      CallsSim(g, sent1, HearAll(r, e1, made), calls[1..], ids, made);
      HearAppended(r, e1, CallSteps(g, calls[1..], ids).1, made);
    }
  }

  lemma ChunkSim(f: Framer, sent: Message, r: Reader, c: Chunk, ids: FreshIds, made: string)
    requires Sim(f, sent, r) && forall i: nat :: ids(i) != ""
    ensures Sim(ChunkStep(f, c, ids).0, AddChunk(sent, c), HearAll(r, ChunkStep(f, c, ids).1, made))
  {
    var (g, e1) := TextStep(f, c.content);
    TextSim(f, sent, r, c.content, made);
    var sent1 := sent.(text := sent.text + c.content);
    var r1 := HearAll(r, e1, made);
    var (h, e2) := CallSteps(g, c.toolCalls, ids);
    CallsSim(g, sent1, r1, c.toolCalls, ids, made);
    HearAppended(r, e1, e2, made);
    var sent2 := sent1.(calls := AddFragments(sent1.calls, c.toolCalls));
    var r2 := HearAll(r, e1 + e2, made);
    assert Sim(h, sent2, r2);
  }

  lemma {:induction false} ChunksSim(f: Framer, sent: Message, r: Reader, chunks: seq<Chunk>, ids: FreshIds, made: string)
    requires Sim(f, sent, r) && forall i: nat :: ids(i) != ""
    ensures Sim(ChunkSteps(f, chunks, ids).0, AddChunks(sent, chunks), HearAll(r, ChunkSteps(f, chunks, ids).1, made))
    decreases |chunks|
  {
    if chunks != [] {
      var (g, e1) := ChunkStep(f, chunks[0], ids);
      ChunkSim(f, sent, r, chunks[0], ids, made);
      ChunksSim(g, AddChunk(sent, chunks[0]), HearAll(r, e1, made), chunks[1..], ids, made);
      HearAppended(r, e1, ChunkSteps(g, chunks[1..], ids).1, made);
    }
  }

  lemma {:induction false} HearStops(r: Reader, n: nat, made: string)
    ensures HearAll(r, StopsDownFrom(n), made) == r
  {
    if n > 0 {
      HearOne(r, BlockStop(n - 1), made);
      HearStops(r, n - 1, made);
    }
  }

  lemma HearFinish(r: Reader, f: Framer, outputTokens: int, made: string)
    requires !f.closed && FinishReasonFromAnthropic(f.stopReason) != ""
    ensures HearAll(r, FinishEvents(f, outputTokens), made)
         == Reader(r.t.(completionTokens := outputTokens, finished := true),
                   r.m.(finish := FinishReasonFromAnthropic(f.stopReason)))
  {
    var reason := FinishReasonFromAnthropic(f.stopReason);
    var delta := MessageDelta(f.stopReason, Some(outputTokens));
    HearAppended(r, StopsDownFrom(f.nextIndex), [delta, MessageStop], made);
    HearStops(r, f.nextIndex, made);
    AddOne(r.m, Chunk("", "", "", [], reason));
    assert r.m.text + "" == r.m.text && r.m.reasoning + "" == r.m.reasoning;
    var r1 := Hear(r, delta, made);
    HearOne(r1, MessageStop, made);
    assert [delta, MessageStop][1..] == [MessageStop];
  }

  const START := Reader(NEW_TRANSLATOR, NO_MESSAGE)

  lemma HearStart(made: string)
    ensures HearAll(START, [NO_USAGE_YET], made) == Reader(NEW_TRANSLATOR, NO_MESSAGE.(role := "assistant"))
  {
    HearOne(START, NO_USAGE_YET, made);
    AddOne(NO_MESSAGE, ROLE);
  }

  /** Text, calls and finish reason arrive as the assistant's; reasoning does not. */
  predicate Arrives(back: Message, sent: Message) {
    && back.role == "assistant" && back.text == sent.text && back.reasoning == ""
    && SameCalls(back.calls, sent.calls)
    && back.finish == FinishBack(sent.finish)
  }

  /** The translator is done and reports exactly the framed usage. */
  predicate Reports(t: Translator, outputTokens: int) {
    && t.finished && t.completionTokens == outputTokens
    && t.promptTokens == t.cachedTokens == t.cacheWriteTokens == 0
  }

  lemma FinishSim(f: Framer, sent: Message, r: Reader, outputTokens: int, made: string)
    requires Sim(f, sent, r)
    ensures var r1 := HearAll(r, FinishEvents(f, outputTokens), made);
      Arrives(r1.m, sent) && Reports(r1.t, outputTokens)
  {
    HearFinish(r, f, outputTokens, made);
  }

  lemma BodySim(chunks: seq<Chunk>, ids: FreshIds, made: string)
    requires forall i: nat :: ids(i) != ""
    ensures var (f, body) := ChunkSteps(NEW_FRAMER, chunks, ids);
      Sim(f, Meaning(chunks), HearAll(START, [NO_USAGE_YET] + body, made))
  {
    var (f, body) := ChunkSteps(NEW_FRAMER, chunks, ids);
    HearAppended(START, [NO_USAGE_YET], body, made);
    HearStart(made);
    ChunksSim(NEW_FRAMER, NO_MESSAGE, Reader(NEW_TRANSLATOR, NO_MESSAGE.(role := "assistant")), chunks, ids, made);
  }

  /**
   * Framing OpenAI chunks for an Anthropic client and translating the events back keeps the
   * text, every tool call with its name, id and arguments in order of first appearance, and the
   * finish reason up to the two vocabularies; reasoning is dropped; the output tokens arrive.
   */
  lemma FramedTranslatesBack(chunks: seq<Chunk>, ids: FreshIds, outputTokens: int, made: string)
    requires forall i: nat :: ids(i) != ""
    ensures var (t, back) := HandleAll(NEW_TRANSLATOR, Framed(chunks, ids, outputTokens), made);
      Arrives(Meaning(back), Meaning(chunks)) && Reports(t, outputTokens)
  {
    var (f, body) := ChunkSteps(NEW_FRAMER, chunks, ids);
    HeardIsTranslated(START, Framed(chunks, ids, outputTokens), made);
    HearAppended(START, [NO_USAGE_YET] + body, FinishEvents(f, outputTokens), made);
    BodySim(chunks, ids, made);
    FinishSim(f, Meaning(chunks), HearAll(START, [NO_USAGE_YET] + body, made), outputTokens, made);
  }
}
