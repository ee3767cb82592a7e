/** Anthropic requests in normal form survive the way to OpenAI and back unchanged. */
module ConversionRoundTrip {
  import opened Options
  import J = JsonBounds
  import opened MessageConversion

  // --- normal form ---------------------------------------------------------------------------

  predicate IsResult(b: Block) {
    b.ToolResult? && b.content.BodyText?
  }

  /** Writing the value as text and parsing the text gives the value again. */
  predicate ReadsBack(v: J.Json, codec: Codec) {
    codec.stringify(v) != "" && codec.parse(codec.stringify(v)) == Some(v)
  }

  predicate IsCall(b: Block, codec: Codec) {
    && b.ToolUse? && b.id != "" && b.input.Obj?
    && J.Clean(b.input) && J.WithinLimits(b.input, codec.maxDepth, codec.maxNodes)
    && ReadsBack(b.input, codec)
  }

  predicate IsSpokenText(b: Block) {
    b.TextBlock? && b.text != ""
  }

  predicate AllResults(blocks: seq<Block>) {
    forall b :: b in blocks ==> IsResult(b)
  }

  predicate AllCalls(blocks: seq<Block>, codec: Codec) {
    forall b :: b in blocks ==> IsCall(b, codec)
  }

  /** Tool results, then at most one text. */
  predicate UserTurn(blocks: seq<Block>) {
    && blocks != []
    && AllResults(blocks[..|blocks| - 1])
    && (IsResult(blocks[|blocks| - 1]) || IsSpokenText(blocks[|blocks| - 1]))
  }

  /** At most one text, then tool uses. */
  predicate AssistantTurn(blocks: seq<Block>, codec: Codec) {
    && blocks != []
    && AllCalls(blocks[1..], codec)
    && (IsCall(blocks[0], codec) || IsSpokenText(blocks[0]))
  }

  predicate NormalTurn(t: Turn, codec: Codec) {
    if t.role == "user" then UserTurn(t.content) else t.role == "assistant" && AssistantTurn(t.content, codec)
  }

  predicate NormalTurns(turns: seq<Turn>, codec: Codec) {
    turns != [] ==>
      && NormalTurn(turns[|turns| - 1], codec) && NormalTurns(turns[..|turns| - 1], codec)
      && (|turns| > 1 ==> turns[|turns| - 2].role != turns[|turns| - 1].role)
  }

  predicate NormalForm(a: AnthropicRequest, codec: Codec) {
    && (a.system == [] || (|a.system| == 1 && IsSpokenText(a.system[0])))
    && NormalTurns(a.messages, codec)
    && a.maxTokens != 0
    && (forall t :: t in a.tools ==> t.schema.Obj?)
    && a.choice != Some(OneTool(""))
  }

  // --- sending a converted request as it would arrive ----------------------------------------------

  function Texts(blocks: seq<Block>): seq<string> {
    if blocks == [] then [] else [LastText(blocks[0])] + Texts(blocks[1..])
  }

  function Arriving(t: Turn): InTurn {
    InTurn(t.role, BodyBlocks(t.content))
  }

  function ArrivingTurns(turns: seq<Turn>): seq<InTurn> {
    if turns == [] then [] else ArrivingTurns(turns[..|turns| - 1]) + [Arriving(turns[|turns| - 1])]
  }

  function Sent(a: AnthropicRequest): Incoming {
    Incoming(a.common, SystemList(Texts(a.system)), ArrivingTurns(a.messages), a.maxTokens, a.stop, a.tools, a.choice)
  }

  // --- folds over appended inputs --------------------------------------------------------------------

  lemma {:induction false} AddAppended(turns: seq<Turn>, a: seq<Message>, b: seq<Message>, codec: Codec, made: string)
    ensures AddMessages(turns, a + b, codec, made) == AddMessages(AddMessages(turns, a, codec, made), b, codec, made)
    decreases |a|
  {
    if a == [] {
      assert a + b == b;
    } else {
      assert (a + b)[1..] == a[1..] + b;
      AddAppended(AddMessage(turns, a[0], codec, made), a[1..], b, codec, made);
    }
  }

  lemma {:induction false} TurnsAppended(a: seq<InTurn>, b: seq<InTurn>, codec: Codec, made: string)
    ensures TurnsMessages(a + b, codec, made) == TurnsMessages(a, codec, made) + TurnsMessages(b, codec, made)
  {
    if a == [] {
      assert a + b == b;
    } else {
      assert (a + b)[1..] == a[1..] + b;
      TurnsAppended(a[1..], b, codec, made);
    }
  }

  lemma AppendTwice(turns: seq<Turn>, role: string, a: seq<Block>, b: seq<Block>)
    ensures Appended(Appended(turns, role, a), role, b) == Appended(turns, role, a + b)
  {
    var n := |turns|;
    if n > 0 && turns[n - 1].role == role {
      assert turns[n - 1].content + a + b == turns[n - 1].content + (a + b);
    }
  }

  // --- a user turn ----------------------------------------------------------------------------------------

  lemma {:induction false} ResultsReturn(turns: seq<Turn>, results: seq<Block>, codec: Codec, made: string)
    requires AllResults(results) && results != []
    ensures AddMessages(turns, ResultMessages(results), codec, made) == Appended(turns, "user", results)
    decreases |results|
  {
    var b, rest := results[0], results[1..];
    assert IsResult(b);
    var m := Message("tool", Text(b.content.text), b.toolUseId, []);
    assert ResultMessages(results) == [m] + ResultMessages(rest);
    assert MessageBlocks(m, codec, made) == [b];
    assert AddMessage(turns, m, codec, made) == Appended(turns, "user", [b]);
    if rest == [] {
      assert results == [b];
      assert AddMessages(Appended(turns, "user", [b]), [], codec, made) == Appended(turns, "user", [b]);
    } else {
      assert results == [b] + rest;
      AppendTwice(turns, "user", [b], rest);
      ResultsReturn(Appended(turns, "user", [b]), rest, codec, made);
    }
  }

  lemma {:induction false} ResultsSayNothing(results: seq<Block>, codec: Codec, made: string)
    requires AllResults(results)
    ensures TextOf(results) == "" && CallsOf(results, codec, made) == [] && ReasoningOf(results) == ""
  {
    if results != [] {
      assert IsResult(results[|results| - 1]);
      ResultsSayNothing(results[..|results| - 1], codec, made);
    }
  }

  lemma {:induction false} ResultMessagesAppended(a: seq<Block>, b: seq<Block>)
    ensures ResultMessages(a + b) == ResultMessages(a) + ResultMessages(b)
  {
    if a == [] {
      assert a + b == b;
    } else {
      assert (a + b)[1..] == a[1..] + b;
      ResultMessagesAppended(a[1..], b);
    }
  }

  lemma OneTextIsRead(results: seq<Block>, t: Block, codec: Codec, made: string)
    requires AllResults(results) && IsSpokenText(t)
    ensures TextOf(results + [t]) == t.text && CallsOf(results + [t], codec, made) == []
    ensures ReasoningOf(results + [t]) == "" && ResultMessages(results + [t]) == ResultMessages(results)
  {
    assert (results + [t])[..|results|] == results;
    ResultsSayNothing(results, codec, made);
    ResultMessagesAppended(results, [t]);
  }

  lemma OneText(results: seq<Block>, t: Block, codec: Codec, made: string)
    requires AllResults(results) && IsSpokenText(t)
    ensures TurnMessages(InTurn("user", BodyBlocks(results + [t])), codec, made)
         == ResultMessages(results) + [Message("user", Text(t.text), "", [])]
  {
    OneTextIsRead(results, t, codec, made);
  }

  lemma UserReturns(turns: seq<Turn>, t: Turn, codec: Codec, made: string)
    requires t.role == "user" && UserTurn(t.content)
    requires turns == [] || turns[|turns| - 1].role != "user"
    ensures AddMessages(turns, TurnMessages(Arriving(t), codec, made), codec, made) == turns + [t]
  {
    var last := t.content[|t.content| - 1];
    if IsResult(last) {
      assert t.content == t.content[..|t.content| - 1] + [last];
      assert AllResults(t.content);
      ResultsSayNothing(t.content, codec, made);
      ResultsReturn(turns, t.content, codec, made);
      assert TurnMessages(Arriving(t), codec, made) == ResultMessages(t.content);
    } else {
      var results := t.content[..|t.content| - 1];
      assert t.content == results + [last];
      OneText(results, last, codec, made);
      UserTextReturns(turns, results, last, codec, made);
    }
  }

  lemma UserTextReturns(turns: seq<Turn>, results: seq<Block>, t: Block, codec: Codec, made: string)
    requires AllResults(results) && IsSpokenText(t)
    requires turns == [] || turns[|turns| - 1].role != "user"
    ensures AddMessages(turns, ResultMessages(results) + [Message("user", Text(t.text), "", [])], codec, made)
         == turns + [Turn("user", results + [t])]
  {
    var m := Message("user", Text(t.text), "", []);
    AddAppended(turns, ResultMessages(results), [m], codec, made);
    OneUserText(AddMessages(turns, ResultMessages(results), codec, made), t, codec, made);
    if results == [] {
      assert results + [t] == [t];
    } else {
      ResultsReturn(turns, results, codec, made);
      AppendTwice(turns, "user", results, [t]);
    }
  }

  lemma OneUserText(turns: seq<Turn>, t: Block, codec: Codec, made: string)
    requires IsSpokenText(t)
    ensures AddMessages(turns, [Message("user", Text(t.text), "", [])], codec, made) == Appended(turns, "user", [t])
  {
    var m := Message("user", Text(t.text), "", []);
    assert MessageBlocks(m, codec, made) == [t];
    AddOne(turns, m, codec, made);
  }

  lemma AddOne(turns: seq<Turn>, m: Message, codec: Codec, made: string)
    ensures AddMessages(turns, [m], codec, made) == AddMessage(turns, m, codec, made)
  {
    assert AddMessages(AddMessage(turns, m, codec, made), [], codec, made) == AddMessage(turns, m, codec, made);
  }

  // --- an assistant turn ------------------------------------------------------------------------------------

  lemma CallReturns(b: Block, codec: Codec, made: string)
    requires IsCall(b, codec)
    ensures CallBlock(UseCall(b, codec, made), codec, made) == b
  {
    J.CleanIsKept(b.input);
  }

  lemma {:induction false} CallBlocksAppended(a: seq<ToolCall>, b: seq<ToolCall>, codec: Codec, made: string)
    ensures CallBlocks(a + b, codec, made) == CallBlocks(a, codec, made) + CallBlocks(b, codec, made)
  {
    if a == [] {
      assert a + b == b;
    } else {
      assert (a + b)[1..] == a[1..] + b;
      CallBlocksAppended(a[1..], b, codec, made);
    }
  }

  lemma {:induction false} CallsReturn(blocks: seq<Block>, codec: Codec, made: string)
    requires AllCalls(blocks, codec)
    ensures CallBlocks(CallsOf(blocks, codec, made), codec, made) == blocks
    ensures |CallsOf(blocks, codec, made)| == |blocks|
    ensures TextOf(blocks) == "" && ReasoningOf(blocks) == "" && ResultMessages(blocks) == []
  {
    if blocks != [] {
      var init, b := blocks[..|blocks| - 1], blocks[|blocks| - 1];
      assert blocks == init + [b];
      assert IsCall(b, codec);
      CallsReturn(init, codec, made);
      OneCallReturns(b, codec, made);
      CallBlocksAppended(CallsOf(init, codec, made), [UseCall(b, codec, made)], codec, made);
      ResultMessagesAppended(init, [b]);
    }
  }

  lemma OneCallReturns(b: Block, codec: Codec, made: string)
    requires IsCall(b, codec)
    ensures CallBlocks([UseCall(b, codec, made)], codec, made) == [b] && ResultMessages([b]) == []
  {
    CallReturns(b, codec, made);
  }

  lemma {:induction false} TextThenCalls(t: Block, calls: seq<Block>, codec: Codec, made: string)
    requires IsSpokenText(t) && AllCalls(calls, codec)
    ensures TextOf([t] + calls) == t.text && ReasoningOf([t] + calls) == ""
    ensures CallsOf([t] + calls, codec, made) == CallsOf(calls, codec, made)
    ensures ResultMessages([t] + calls) == ResultMessages(calls)
    decreases |calls|
  {
    var blocks := [t] + calls;
    assert blocks[1..] == calls;
    if calls == [] {
      assert blocks[..0] == [];
    } else {
      var init, b := calls[..|calls| - 1], calls[|calls| - 1];
      assert blocks[..|blocks| - 1] == [t] + init && blocks[|blocks| - 1] == b;
      assert IsCall(b, codec);
      TextThenCalls(t, init, codec, made);
    }
  }

  lemma AssistantReturns(turns: seq<Turn>, t: Turn, codec: Codec, made: string)
    requires t.role == "assistant" && AssistantTurn(t.content, codec)
    requires turns == [] || turns[|turns| - 1].role != "assistant"
    ensures AddMessages(turns, TurnMessages(Arriving(t), codec, made), codec, made) == turns + [t]
  {
    if IsCall(t.content[0], codec) {
      assert t.content == [t.content[0]] + t.content[1..];
      CallsOnlyReturn(turns, t, codec, made);
    } else {
      TextFirstReturns(turns, t, codec, made);
    }
  }

  lemma CallsOnlyReturn(turns: seq<Turn>, t: Turn, codec: Codec, made: string)
    requires t.role == "assistant" && t.content != [] && AllCalls(t.content, codec)
    requires turns == [] || turns[|turns| - 1].role != "assistant"
    ensures AddMessages(turns, TurnMessages(Arriving(t), codec, made), codec, made) == turns + [t]
  {
    CallsReturn(t.content, codec, made);
    SilentBlocks(CallsOf(t.content, codec, made), codec, made);
    SaidByCalls(t, codec, made);
  }

  lemma SilentBlocks(calls: seq<ToolCall>, codec: Codec, made: string)
    ensures MessageBlocks(Message("assistant", NoContent, "", calls), codec, made) == CallBlocks(calls, codec, made)
  {
    FrontOf([], CallBlocks(calls, codec, made));
  }

  lemma FrontOf(front: seq<Block>, blocks: seq<Block>)
    ensures front == [] ==> front + blocks == blocks
  {
  }

  lemma SpokenBlocks(text: string, calls: seq<ToolCall>, codec: Codec, made: string)
    requires text != ""
    ensures MessageBlocks(Message("assistant", Text(text), "", calls), codec, made) == [TextBlock(text)] + CallBlocks(calls, codec, made)
  {
  }

  lemma TextFirstReturns(turns: seq<Turn>, t: Turn, codec: Codec, made: string)
    requires t.role == "assistant" && AssistantTurn(t.content, codec) && IsSpokenText(t.content[0])
    requires turns == [] || turns[|turns| - 1].role != "assistant"
    ensures AddMessages(turns, TurnMessages(Arriving(t), codec, made), codec, made) == turns + [t]
  {
    var text, calls := t.content[0].text, t.content[1..];
    assert t.content == [TextBlock(text)] + calls;
    CallsReturn(calls, codec, made);
    TextThenCalls(TextBlock(text), calls, codec, made);
    SaidWithText(t, text, codec, made);
    SpokenBlocks(text, CallsOf(calls, codec, made), codec, made);
  }

  lemma SaidByCalls(t: Turn, codec: Codec, made: string)
    requires CallsOf(t.content, codec, made) != [] && TextOf(t.content) == "" && ResultMessages(t.content) == []
    ensures TurnMessages(Arriving(t), codec, made) == [Message(t.role, NoContent, "", CallsOf(t.content, codec, made))]
  {
  }

  lemma SaidWithText(t: Turn, text: string, codec: Codec, made: string)
    requires text != "" && TextOf(t.content) == text && ResultMessages(t.content) == []
    ensures TurnMessages(Arriving(t), codec, made) == [Message(t.role, Text(text), "", CallsOf(t.content, codec, made))]
  {
  }

  // --- whole requests --------------------------------------------------------------------------------------------

  lemma {:induction false} TurnsReturn(turns: seq<Turn>, codec: Codec, made: string)
    requires NormalTurns(turns, codec)
    ensures AddMessages([], TurnsMessages(ArrivingTurns(turns), codec, made), codec, made) == turns
    ensures BadTurn(ArrivingTurns(turns)).None?
  {
    if turns != [] {
      var init, t := turns[..|turns| - 1], turns[|turns| - 1];
      assert turns == init + [t];
      TurnsReturn(init, codec, made);
      TurnsAppended(ArrivingTurns(init), [Arriving(t)], codec, made);
      OneTurn(Arriving(t), codec, made);
      AddAppended([], TurnsMessages(ArrivingTurns(init), codec, made), TurnMessages(Arriving(t), codec, made), codec, made);
      if t.role == "user" {
        UserReturns(init, t, codec, made);
      } else {
        AssistantReturns(init, t, codec, made);
      }
    }
  }

  lemma OneTurn(t: InTurn, codec: Codec, made: string)
    ensures TurnsMessages([t], codec, made) == TurnMessages(t, codec, made)
  {
    assert TurnMessages(t, codec, made) + [] == TurnMessages(t, codec, made);
    assert [t][1..] == [];
  }

  lemma {:induction false} SchemasKept(tools: seq<Tool>)
    requires forall t :: t in tools ==> t.schema.Obj?
    ensures SchemasOf(tools) == tools
  {
    if tools != [] {
      SchemasKept(tools[1..]);
    }
  }

  lemma {:induction false} NoSystemInTurns(turns: seq<InTurn>, codec: Codec, made: string)
    requires BadTurn(turns).None?
    ensures SystemBlocks(TurnsMessages(turns, codec, made)) == []
  {
    if turns != [] {
      NoSystemInTurns(turns[1..], codec, made);
      NoSystemInTurn(turns[0], codec, made);
      SystemAppended(TurnMessages(turns[0], codec, made), TurnsMessages(turns[1..], codec, made));
    }
  }

  lemma NoSystemInTurn(turn: InTurn, codec: Codec, made: string)
    requires turn.role in {"user", "assistant"}
    ensures SystemBlocks(TurnMessages(turn, codec, made)) == []
  {
    NoSystemInResults(BlocksIn(turn.body));
    NoSystemSpoken(SpokenMessages(turn, codec, made));
    SystemAppended(ResultMessages(BlocksIn(turn.body)), SpokenMessages(turn, codec, made));
  }

  lemma {:induction false} NoSystemSpoken(messages: seq<Message>)
    requires |messages| <= 1 && forall m :: m in messages ==> m.role in {"user", "assistant"}
    ensures SystemBlocks(messages) == []
  {
    if messages != [] {
      assert messages[0] in messages && messages[1..] == [];
    }
  }

  lemma {:induction false} NoSystemInResults(blocks: seq<Block>)
    ensures SystemBlocks(ResultMessages(blocks)) == []
  {
    if blocks != [] {
      NoSystemInResults(blocks[1..]);
      if blocks[0].ToolResult? {
        assert ResultMessages(blocks)[1..] == ResultMessages(blocks[1..]);
      } else {
        assert ResultMessages(blocks) == ResultMessages(blocks[1..]);
      }
    }
  }

  lemma {:induction false} SystemAppended(a: seq<Message>, b: seq<Message>)
    ensures SystemBlocks(a + b) == SystemBlocks(a) + SystemBlocks(b)
  {
    if a == [] {
      assert a + b == b;
    } else {
      assert (a + b)[1..] == a[1..] + b;
      SystemAppended(a[1..], b);
    }
  }

  /** The system field returns, and its message adds no turn. */
  lemma SystemReturns(system: seq<Block>, turns: seq<InTurn>, codec: Codec, made: string)
    requires system == [] || (|system| == 1 && IsSpokenText(system[0]))
    requires BadTurn(turns).None?
    ensures var messages := SystemMessages(SystemList(Texts(system))) + TurnsMessages(turns, codec, made);
      && SystemBlocks(messages) == system
      && AddMessages([], messages, codec, made) == AddMessages([], TurnsMessages(turns, codec, made), codec, made)
      && BadRole(messages).None?
  {
    var lead, rest := SystemMessages(SystemList(Texts(system))), TurnsMessages(turns, codec, made);
    SystemAppended(lead, rest);
    NoSystemInTurns(turns, codec, made);
    AddAppended([], lead, rest, codec, made);
    TurnsRoles(turns, codec, made);
    if system != [] {
      var m := Message("system", Text(system[0].text), "", []);
      assert Texts(system) == [system[0].text];
      assert lead == [m];
      AddOne([], m, codec, made);
      assert SystemBlocks(lead) == [system[0]];
    }
  }

  /** A normal-form Anthropic request is unchanged by the way to OpenAI and back. */
  lemma ConversionRoundTrips(a: AnthropicRequest, codec: Codec, made: string)
    requires NormalForm(a, codec)
    ensures var there := ToOpenai(Sent(a), codec, made);
      there.Ok? && ToAnthropic(there.value, codec, made) == Ok(a)
  {
    TurnsReturn(a.messages, codec, made);
    SystemReturns(a.system, ArrivingTurns(a.messages), codec, made);
    SchemasKept(a.tools);
    ScalarsReturn(a, codec, made);
  }

  /** The fields beside the messages, given the way of the messages. */
  lemma ScalarsReturn(a: AnthropicRequest, codec: Codec, made: string)
    requires a.maxTokens != 0 && SchemasOf(a.tools) == a.tools && a.choice != Some(OneTool(""))
    requires var turns := ArrivingTurns(a.messages);
      var messages := SystemMessages(SystemList(Texts(a.system))) + TurnsMessages(turns, codec, made);
      && BadTurn(turns).None? && BadRole(messages).None?
      && SystemBlocks(messages) == a.system && AddMessages([], messages, codec, made) == a.messages
    ensures var there := ToOpenai(Sent(a), codec, made);
      there.Ok? && ToAnthropic(there.value, codec, made) == Ok(a)
  {
    SentRequest(a, codec, made);
    var messages := SystemMessages(SystemList(Texts(a.system))) + TurnsMessages(ArrivingTurns(a.messages), codec, made);
    FieldsReturn(a, messages, codec, made);
  }

  /** The request as it is sent on, given its messages. */
  function OpenaiForm(a: AnthropicRequest, messages: seq<Message>): OpenaiRequest {
    OpenaiRequest(a.common, messages, a.maxTokens, 0, if a.stop.Some? then StopList(a.stop.value) else NoStop, a.tools, a.choice)
  }

  lemma SentRequest(a: AnthropicRequest, codec: Codec, made: string)
    requires a.maxTokens != 0 && SchemasOf(a.tools) == a.tools && BadTurn(ArrivingTurns(a.messages)).None?
    ensures ToOpenai(Sent(a), codec, made)
         == Ok(OpenaiForm(a, SystemMessages(SystemList(Texts(a.system))) + TurnsMessages(ArrivingTurns(a.messages), codec, made)))
  {
  }

  lemma FieldsReturn(a: AnthropicRequest, messages: seq<Message>, codec: Codec, made: string)
    requires a.maxTokens != 0 && SchemasOf(a.tools) == a.tools && a.choice != Some(OneTool(""))
    requires BadRole(messages).None? && SystemBlocks(messages) == a.system && AddMessages([], messages, codec, made) == a.messages
    ensures ToAnthropic(OpenaiForm(a, messages), codec, made) == Ok(a)
  {
  }
}
