/**
 * What the Anthropic stream translator makes of any event sequence, well formed or not: the
 * message its client reads, and the usage it reports, as folds over the events.
 */
module TranslatorMeaning {
  import opened Options
  import opened AnthropicStream
  import opened AnthropicRoundTrip

  // --- what an event sequence says --------------------------------------------------------

  /** The text deltas, one after the other. */
  function Said(events: seq<Event>): string {
    if events == [] then ""
    else Said(events[..|events| - 1]) + if events[|events| - 1].TextDelta? then events[|events| - 1].text else ""
  }

  function Thought(events: seq<Event>): string {
    if events == [] then ""
    else Thought(events[..|events| - 1]) + if events[|events| - 1].ThinkingDelta? then events[|events| - 1].text else ""
  }

  predicate Started(events: seq<Event>) {
    exists i :: 0 <= i < |events| && events[i].MessageStart?
  }

  /** The stop reasons of one vocabulary in the other; any further one counts as a stop. */
  const FINISH_WORDS := map["end_turn" := "stop", "stop_sequence" := "stop", "max_tokens" := "length",
                            "tool_use" := "tool_calls", "refusal" := "content_filter"]

  const STOP_WORDS := map["length" := "max_tokens", "tool_calls" := "tool_use", "function_call" := "tool_use",
                          "content_filter" := "refusal"]

  function WordIn(words: map<string, string>, word: string, other: string): string {
    if word in words then words[word] else other
  }

  lemma Vocabularies(word: string)
    ensures FinishReasonFromAnthropic(word) == if word == "" then "" else WordIn(FINISH_WORDS, word, "stop")
    ensures StopReasonFromOpenai(word) == WordIn(STOP_WORDS, word, "end_turn")
  {
  }

  predicate Reasoned(e: Event) {
    e.MessageDelta? && e.stopReason != ""
  }

  /** The last stop reason or error. */
  function Finish(events: seq<Event>): string {
    if events == [] then ""
    else
      var last := events[|events| - 1];
      if last.Failure? then "error"
      else if Reasoned(last) then WordIn(FINISH_WORDS, last.stopReason, "stop")
      else Finish(events[..|events| - 1])
  }

  predicate Over(events: seq<Event>) {
    exists i :: 0 <= i < |events| && (events[i].MessageStop? || events[i].Failure? || Reasoned(events[i]))
  }

  /** The last opening of a message, with the tokens it names; before one, none are. */
  function Opening(events: seq<Event>): Event {
    if events == [] then NO_USAGE_YET
    else if events[|events| - 1].MessageStart? then events[|events| - 1]
    else Opening(events[..|events| - 1])
  }

  /** The output tokens last reported. */
  function Output(events: seq<Event>): int {
    if events == [] then 0
    else
      var last := events[|events| - 1];
      if last.MessageDelta? && last.outputTokens.Some? then last.outputTokens.value else Output(events[..|events| - 1])
  }

  /** Which tool call a block last stood for. */
  function Opened(events: seq<Event>, index: nat): Option<nat> {
    if events == [] then None
    else
      var init, last := events[..|events| - 1], events[|events| - 1];
      if last.ToolBlockStart? && last.index == index then Some(Openings(init)) else Opened(init, index)
  }

  function Openings(events: seq<Event>): nat {
    if events == [] then 0
    else Openings(events[..|events| - 1]) + if events[|events| - 1].ToolBlockStart? then 1 else 0
  }

  lemma {:induction false} OpenedBefore(events: seq<Event>, index: nat)
    ensures Opened(events, index).Some? ==> Opened(events, index).value < Openings(events)
  {
    if events != [] {
      OpenedBefore(events[..|events| - 1], index);
    }
  }

  /** The tool calls in order of opening; a fragment belongs to the call its block last stood for. */
  function Calls(events: seq<Event>, made: string): (calls: seq<ToolCall>)
    ensures |calls| == Openings(events) && forall i :: 0 <= i < |calls| ==> calls[i].index == i
  {
    if events == [] then []
    else
      var init, last := events[..|events| - 1], events[|events| - 1];
      var before := Calls(init, made);
      match last
      case ToolBlockStart(_, id, name) => before + [ToolCall(|before|, if id != "" then id else made, name, "")]
      case JsonDelta(index, partial) =>
        OpenedBefore(init, index);
        var k := Opened(init, index);
        if k.None? then before else before[k.value := before[k.value].(args := before[k.value].args + partial)]
      case _ => before
  }

  // --- what the translator makes of it ----------------------------------------------------

  /** The reader's message and the translator's state are what the events say. */
  ghost predicate Tells(r: Reader, events: seq<Event>, made: string) {
    && r.m == Message(if Started(events) then "assistant" else "", Said(events), Thought(events), Calls(events, made), Finish(events))
    && r.t.toolCount == Openings(events)
    && (r.t.finished <==> Over(events))
    && MessageStart(r.t.promptTokens, r.t.cachedTokens, r.t.cacheWriteTokens) == Opening(events)
    && r.t.completionTokens == Output(events)
    && BlocksTell(r.t.toolIndexByBlock, events)
  }

  ghost predicate BlocksTell(toolIndexByBlock: map<nat, int>, events: seq<Event>) {
    forall index :: BlockTells(toolIndexByBlock, events, index)
  }

  predicate BlockTells(toolIndexByBlock: map<nat, int>, events: seq<Event>, index: nat) {
    && (index in toolIndexByBlock <==> Opened(events, index).Some?)
    && (index in toolIndexByBlock ==> toolIndexByBlock[index] == Opened(events, index).value)
  }

  /** What one more event adds to each fold. */
  lemma OneMore(events: seq<Event>, e: Event)
    ensures (events + [e])[..|events|] == events && (events + [e])[|events|] == e
    ensures Started(events + [e]) <==> Started(events) || e.MessageStart?
    ensures Over(events + [e]) <==> Over(events) || e.MessageStop? || e.Failure? || Reasoned(e)
  {
    var all := events + [e];
    assert forall i :: 0 <= i < |events| ==> all[i] == events[i];
  }

  lemma SaysNothing(m: Message)
    ensures m.text + "" == m.text && m.reasoning + "" == m.reasoning
  {
  }

  lemma HearsText(r: Reader, e: Event, made: string)
    requires e.TextDelta?
    ensures Hear(r, e, made) == Reader(r.t, r.m.(text := r.m.text + e.text))
  {
    HearOne(r, e, made);
    HearText(r, e.index, e.text, made);
  }

  lemma HearsThought(r: Reader, e: Event, made: string)
    requires e.ThinkingDelta?
    ensures Hear(r, e, made) == Reader(r.t, r.m.(reasoning := r.m.reasoning + e.text))
  {
    SaysNothing(r.m);
    AddOne(r.m, Chunk("", "", e.text, [], ""));
  }

  lemma HearsStart(r: Reader, e: Event, made: string)
    requires e.MessageStart?
    ensures Hear(r, e, made) == Reader(r.t.(promptTokens := e.inputTokens, cachedTokens := e.cacheRead, cacheWriteTokens := e.cacheWrite),
                                       r.m.(role := "assistant"))
  {
    SaysNothing(r.m);
    AddOne(r.m, ROLE);
  }

  lemma HearsDelta(r: Reader, e: Event, made: string)
    requires e.MessageDelta?
    ensures Hear(r, e, made) == Reader(
      r.t.(completionTokens := if e.outputTokens.Some? then e.outputTokens.value else r.t.completionTokens,
           finished := r.t.finished || Reasoned(e)),
      r.m.(finish := if Reasoned(e) then WordIn(FINISH_WORDS, e.stopReason, "stop") else r.m.finish))
  {
    SaysNothing(r.m);
    Vocabularies(e.stopReason);
    AddOne(r.m, Chunk("", "", "", [], FinishReasonFromAnthropic(e.stopReason)));
  }

  lemma HearsEnd(r: Reader, e: Event, made: string)
    requires e.MessageStop? || e.Failure?
    ensures Hear(r, e, made) == Reader(r.t.(finished := true), r.m.(finish := if e.Failure? then "error" else r.m.finish))
  {
    SaysNothing(r.m);
    AddOne(r.m, Chunk("", "", "", [], "error"));
  }

  lemma HearsCall(r: Reader, e: Event, made: string)
    requires e.ToolBlockStart? && |r.m.calls| == r.t.toolCount
    requires forall i :: 0 <= i < |r.m.calls| ==> r.m.calls[i].index == i
    ensures Hear(r, e, made) == Reader(
      r.t.(toolIndexByBlock := r.t.toolIndexByBlock[e.index := r.t.toolCount], toolCount := r.t.toolCount + 1),
      r.m.(calls := r.m.calls + [ToolCall(r.t.toolCount, if e.id != "" then e.id else made, e.name, "")]))
  {
    AddCall(r.m, Call(r.t.toolCount, IdOr(e.id, made), e.name, ""));
  }

  lemma HearsFragment(r: Reader, e: Event, made: string)
    requires e.JsonDelta?
    requires e.index in r.t.toolIndexByBlock ==> 0 <= r.t.toolIndexByBlock[e.index] < |r.m.calls|
    requires forall i :: 0 <= i < |r.m.calls| ==> r.m.calls[i].index == i
    ensures Hear(r, e, made) ==
      if e.index !in r.t.toolIndexByBlock then r
      else
        var k := r.t.toolIndexByBlock[e.index];
        Reader(r.t, r.m.(calls := r.m.calls[k := r.m.calls[k].(args := r.m.calls[k].args + e.partial)]))
  {
    if e.index in r.t.toolIndexByBlock {
      var k := r.t.toolIndexByBlock[e.index];
      AddCall(r.m, Call(k, "", "", e.partial));
      assert Position(r.m.calls, k) == k by {
        assert r.m.calls[k].index == k;
      }
    }
  }

  /** No event but a tool call's opening changes what blocks stand for. */
  lemma BlocksStay(toolIndexByBlock: map<nat, int>, events: seq<Event>, e: Event)
    requires BlocksTell(toolIndexByBlock, events) && !e.ToolBlockStart?
    ensures BlocksTell(toolIndexByBlock, events + [e])
  {
    OneMore(events, e);
    forall index
      ensures BlockTells(toolIndexByBlock, events + [e], index)
    {
      assert BlockTells(toolIndexByBlock, events, index);
    }
  }

  lemma BlockOpens(toolIndexByBlock: map<nat, int>, events: seq<Event>, e: Event)
    requires BlocksTell(toolIndexByBlock, events) && e.ToolBlockStart?
    ensures BlocksTell(toolIndexByBlock[e.index := Openings(events)], events + [e])
  {
    OneMore(events, e);
    var after, all := toolIndexByBlock[e.index := Openings(events)], events + [e];
    forall index
      ensures BlockTells(after, all, index)
    {
      assert BlockTells(toolIndexByBlock, events, index);
    }
  }

  lemma ToolsTell(r: Reader, events: seq<Event>, e: Event, made: string)
    requires Tells(r, events, made) && (e.ToolBlockStart? || e.JsonDelta?)
    ensures Tells(Hear(r, e, made), events + [e], made)
  {
    OneMore(events, e);
    SaysNothing(r.m);
    if e.ToolBlockStart? {
      HearsCall(r, e, made);
      BlockOpens(r.t.toolIndexByBlock, events, e);
    } else {
      assert BlockTells(r.t.toolIndexByBlock, events, e.index);
      OpenedBefore(events, e.index);
      HearsFragment(r, e, made);
      BlocksStay(r.t.toolIndexByBlock, events, e);
    }
  }

  lemma EventTells(r: Reader, events: seq<Event>, e: Event, made: string)
    requires Tells(r, events, made)
    ensures Tells(Hear(r, e, made), events + [e], made)
  {
    if e.ToolBlockStart? || e.JsonDelta? {
      ToolsTell(r, events, e, made);
    } else {
      OneMore(events, e);
      SaysNothing(r.m);
      BlocksStay(r.t.toolIndexByBlock, events, e);
      match e
      case TextDelta(_, _) => HearsText(r, e, made);
      case ThinkingDelta(_, _) => HearsThought(r, e, made);
      case MessageStart(_, _, _) => HearsStart(r, e, made);
      case MessageDelta(_, _) => HearsDelta(r, e, made);
      case MessageStop => HearsEnd(r, e, made);
      case Failure => HearsEnd(r, e, made);
      case _ =>
    }
  }

  lemma {:induction false} HeardTells(events: seq<Event>, made: string)
    ensures Tells(HearAll(START, events, made), events, made)
    decreases |events|
  {
    if events != [] {
      var init, last := events[..|events| - 1], events[|events| - 1];
      assert init + [last] == events;
      HeardTells(init, made);
      HearAppended(START, init, [last], made);
      HearOne(HearAll(START, init, made), last, made);
      EventTells(HearAll(START, init, made), init, last, made);
    }
  }

  /**
   * For every event sequence, the translated chunks read as the events say: the text and thinking
   * deltas joined, each tool call with the fragments of its block, and the last stop reason or
   * error in the other vocabulary; and the usage reported is that of the last opening and the last
   * output count, the prompt including what was read from and written to the cache.
   */
  lemma TranslatedTells(events: seq<Event>, made: string)
    ensures var (t, back) := HandleAll(NEW_TRANSLATOR, events, made);
      && Meaning(back) == Message(if Started(events) then "assistant" else "", Said(events), Thought(events),
                                  Calls(events, made), Finish(events))
      && (t.finished <==> Over(events))
      && var opening, output := Opening(events), Output(events);
      && opening.MessageStart?
      && UsageOf(t) == Usage(opening.inputTokens + opening.cacheRead + opening.cacheWrite, output,
                             opening.inputTokens + opening.cacheRead + opening.cacheWrite + output,
                             opening.cacheRead, opening.cacheWrite)
  {
    HeardIsTranslated(START, events, made);
    HeardTells(events, made);
  }
}
