/**
 * Requests between the OpenAI and the Anthropic dialect. Requests are typed records of the fields
 * the converters read; tool inputs are JSON values, written as text on the OpenAI side.
 */
module MessageConversion {
  import opened Options
  import J = JsonBounds

  datatype Result<+T> = Ok(value: T) | UnsupportedRole(role: string)

  const EMPTY_OBJECT := J.Obj([])

  /** JSON text, with the limits that apply to parsed text. */
  datatype Codec = Codec(stringify: J.Json -> string, parse: string -> Option<J.Json>, maxDepth: int, maxNodes: int)

  // --- the OpenAI side -----------------------------------------------------------------------

  datatype Part = TextPart(text: string) | ImagePart(url: string) | OtherPart

  datatype Content = NoContent | Text(text: string) | Parts(parts: seq<Part>)

  datatype Args = ArgsText(text: string) | ArgsValue(value: J.Json)

  datatype ToolCall = ToolCall(id: string, name: string, args: Args)

  datatype Message = Message(role: string, content: Content, toolCallId: string, toolCalls: seq<ToolCall>)

  datatype Choice = Auto | NoTool | AnyTool | OneTool(name: string)

  datatype Tool = Tool(name: string, description: string, schema: J.Json)

  /** Fields of one name and meaning on both sides. */
  datatype Common = Common(model: string, temperature: Option<real>, topP: Option<real>, stream: Option<bool>)

  datatype Stop = NoStop | StopText(text: string) | StopList(texts: seq<string>)

  /** Token counts of 0 are absent. */
  datatype OpenaiRequest = OpenaiRequest(
    common: Common, messages: seq<Message>, maxTokens: int, maxCompletionTokens: int,
    stop: Stop, tools: seq<Tool>, choice: Option<Choice>)

  // --- the Anthropic side --------------------------------------------------------------------

  datatype Source = Base64(mediaType: string, data: string) | Url(url: string)

  datatype Block =
    | TextBlock(text: string)
    | Image(source: Source)
    | ToolUse(id: string, name: string, input: J.Json)
    | ToolResult(toolUseId: string, content: Body)
    | Thinking(text: string)
    | OtherBlock

  datatype Body = BodyText(text: string) | BodyBlocks(blocks: seq<Block>)

  datatype Turn = Turn(role: string, content: seq<Block>)

  datatype AnthropicRequest = AnthropicRequest(
    common: Common, system: seq<Block>, messages: seq<Turn>, maxTokens: int,
    stop: Option<seq<string>>, tools: seq<Tool>, choice: Option<Choice>)

  const DEFAULT_MAX_TOKENS := 4096

  const OPENAI_ROLES := {"system", "developer", "user", "assistant", "tool", "function"}

  // --- blocks ----------------------------------------------------------------------------------

  function UntilAny(s: string, stops: set<char>): string {
    if s == "" || s[0] in stops then "" else [s[0]] + UntilAny(s[1..], stops)
  }

  lemma {:induction false} UntilAnyIsPrefix(s: string, stops: set<char>)
    ensures UntilAny(s, stops) <= s
  {
    if s != "" && s[0] !in stops {
      UntilAnyIsPrefix(s[1..], stops);
    }
  }

  /** A base64 data URL is split into its media type and its data. */
  function ImageSource(url: string): Source {
    if "data:" <= url then
      var rest := url[5..];
      var mediaType := UntilAny(rest, {';', ','});
      UntilAnyIsPrefix(rest, {';', ','});
      var after := rest[|mediaType|..];
      if mediaType != "" && ";base64," <= after then Base64(mediaType, after[8..]) else Url(url)
    else Url(url)
  }

  function PartBlocks(p: Part): seq<Block> {
    match p
    case TextPart(text) => if text == "" then [] else [TextBlock(text)]
    case ImagePart(url) => if url == "" then [] else [Image(ImageSource(url))]
    case OtherPart => []
  }

  function PartsBlocks(parts: seq<Part>): seq<Block> {
    if parts == [] then [] else PartBlocks(parts[0]) + PartsBlocks(parts[1..])
  }

  function ContentBlocks(content: Content): seq<Block> {
    match content
    case NoContent => []
    case Text(text) => if text == "" then [] else [TextBlock(text)]
    case Parts(parts) => PartsBlocks(parts)
  }

  method ToAnthropicBlocks(content: Content) returns (blocks: seq<Block>)
    ensures blocks == ContentBlocks(content)
  {
    if content.Text? {
      return if content.text == "" then [] else [TextBlock(content.text)];
    }
    var parts := if content.Parts? then content.parts else [];
    blocks := [];
    assert parts[0..] == parts;
    for i := 0 to |parts|
      invariant blocks + PartsBlocks(parts[i..]) == PartsBlocks(parts)
    {
      var part := parts[i];
      assert parts[i..][1..] == parts[i + 1..];
      Associates(blocks, PartBlocks(part), PartsBlocks(parts[i + 1..]));
      var more: seq<Block> := [];
      if part.TextPart? {
        if part.text != "" {
          more := [TextBlock(part.text)];
        }
      } else if part.ImagePart? {
        if part.url != "" {
          more := [Image(ImageSource(part.url))];
        }
      }
      blocks := blocks + more;
    }
    assert blocks + [] == blocks;
  }

  lemma Associates<T>(a: seq<T>, b: seq<T>, c: seq<T>)
    ensures a + (b + c) == (a + b) + c
    ensures a + [] == a
  {
  }

  /** Arguments that are not an object within the limits count as none. */
  function ParseArguments(args: Args, codec: Codec): J.Json {
    match args
    case ArgsValue(value) => if value.Obj? then value else EMPTY_OBJECT
    case ArgsText(text) =>
      if text == "" then EMPTY_OBJECT
      else
        var parsed := codec.parse(text);
        if parsed.Some? && parsed.value.Obj? && J.WithinLimits(parsed.value, codec.maxDepth, codec.maxNodes)
        then J.CloneSanitized(parsed.value)
        else EMPTY_OBJECT
  }

  /** `made` stands for the fresh id of a call that has none. */
  function CallBlock(call: ToolCall, codec: Codec, made: string): Block {
    ToolUse(if call.id != "" then call.id else made, call.name, ParseArguments(call.args, codec))
  }

  function CallBlocks(calls: seq<ToolCall>, codec: Codec, made: string): seq<Block> {
    if calls == [] then [] else [CallBlock(calls[0], codec, made)] + CallBlocks(calls[1..], codec, made)
  }

  // --- OpenAI to Anthropic ----------------------------------------------------------------------

  predicate IsSystem(role: string) {
    role == "system" || role == "developer"
  }

  predicate IsToolResult(role: string) {
    role == "tool" || role == "function"
  }

  function PlainText(content: Content): string {
    if content.Text? then content.text else ""
  }

  /** The turn a message belongs to. */
  function TurnRole(m: Message): string {
    if IsToolResult(m.role) then "user" else m.role
  }

  /** The blocks a message contributes to its turn. */
  function MessageBlocks(m: Message, codec: Codec, made: string): seq<Block> {
    if IsSystem(m.role) then []
    else if IsToolResult(m.role) then [ToolResult(m.toolCallId, BodyText(PlainText(m.content)))]
    else ContentBlocks(m.content) + if m.role == "assistant" then CallBlocks(m.toolCalls, codec, made) else []
  }

  function Appended(turns: seq<Turn>, role: string, blocks: seq<Block>): seq<Turn> {
    var n := |turns|;
    if n > 0 && turns[n - 1].role == role then turns[..n - 1] + [Turn(role, turns[n - 1].content + blocks)]
    else turns + [Turn(role, blocks)]
  }

  function AddMessage(turns: seq<Turn>, m: Message, codec: Codec, made: string): seq<Turn> {
    var blocks := MessageBlocks(m, codec, made);
    if blocks == [] then turns else Appended(turns, TurnRole(m), blocks)
  }

  function AddMessages(turns: seq<Turn>, messages: seq<Message>, codec: Codec, made: string): seq<Turn>
    decreases |messages|
  {
    if messages == [] then turns else AddMessages(AddMessage(turns, messages[0], codec, made), messages[1..], codec, made)
  }

  function SystemBlocks(messages: seq<Message>): seq<Block> {
    if messages == [] then []
    else (if IsSystem(messages[0].role) then ContentBlocks(messages[0].content) else []) + SystemBlocks(messages[1..])
  }

  /** The first message whose role is not known. */
  function BadRole(messages: seq<Message>): (r: Option<string>)
    ensures r.None? <==> forall m :: m in messages ==> m.role in OPENAI_ROLES
    ensures r.Some? ==> r.value !in OPENAI_ROLES && exists m :: m in messages && m.role == r.value
  {
    if messages == [] then None
    else if messages[0].role !in OPENAI_ROLES then Some(messages[0].role)
    else BadRole(messages[1..])
  }

  function ChoiceToAnthropic(choice: Option<Choice>): Option<Choice> {
    if choice == Some(OneTool("")) then None else choice
  }

  function SchemaOf(t: Tool): Tool {
    if t.schema.Obj? then t
    else t.(schema := J.Obj([J.Field("type", J.Leaf(J.Text("object"))), J.Field("properties", EMPTY_OBJECT)]))
  }

  function SchemasOf(tools: seq<Tool>): seq<Tool> {
    if tools == [] then [] else [SchemaOf(tools[0])] + SchemasOf(tools[1..])
  }

  function OrDefault(first: int, second: int): int {
    if first != 0 then first else if second != 0 then second else DEFAULT_MAX_TOKENS
  }

  function ToAnthropic(r: OpenaiRequest, codec: Codec, made: string): Result<AnthropicRequest> {
    var bad := BadRole(r.messages);
    if bad.Some? then UnsupportedRole(bad.value)
    else Ok(AnthropicRequest(
      r.common, SystemBlocks(r.messages), AddMessages([], r.messages, codec, made),
      OrDefault(r.maxTokens, r.maxCompletionTokens),
      match r.stop { case NoStop => None case StopText(text) => Some([text]) case StopList(texts) => Some(texts) },
      SchemasOf(r.tools), ChoiceToAnthropic(r.choice)))
  }

  /** The turns being built; a message of the last turn's role is pushed into it. */
  class TurnList {
    var turns: seq<Turn>

    constructor ()
      ensures turns == []
    {
      turns := [];
    }

    method AppendMessage(role: string, blocks: seq<Block>)
      modifies this
      ensures turns == Appended(old(turns), role, blocks)
    {
      var n := |turns|;
      if n > 0 && turns[n - 1].role == role {
        turns := turns[n - 1 := turns[n - 1].(content := turns[n - 1].content + blocks)];
        return;
      }
      turns := turns + [Turn(role, blocks)];
    }

    method Add(m: Message, codec: Codec, made: string) returns (systemBlocks: seq<Block>)
      requires m.role in OPENAI_ROLES
      modifies this
      ensures turns == AddMessage(old(turns), m, codec, made)
      ensures systemBlocks == if IsSystem(m.role) then ContentBlocks(m.content) else []
    {
      systemBlocks := [];
      if IsSystem(m.role) {
        systemBlocks := ToAnthropicBlocks(m.content);
        return;
      }
      if IsToolResult(m.role) {
        AppendMessage("user", [ToolResult(m.toolCallId, BodyText(PlainText(m.content)))]);
        return;
      }
      var blocks := ToAnthropicBlocks(m.content);
      if m.role == "assistant" {
        ghost var start := blocks;
        assert m.toolCalls[0..] == m.toolCalls;
        for i := 0 to |m.toolCalls|
          invariant turns == old(turns)
          invariant blocks + CallBlocks(m.toolCalls[i..], codec, made) == start + CallBlocks(m.toolCalls, codec, made)
        {
          assert m.toolCalls[i..][1..] == m.toolCalls[i + 1..];
          Associates(blocks, [CallBlock(m.toolCalls[i], codec, made)], CallBlocks(m.toolCalls[i + 1..], codec, made));
          blocks := blocks + [CallBlock(m.toolCalls[i], codec, made)];
        }
        Associates(blocks, [], []);
      } else {
        Associates(blocks, [], []);
      }
      if |blocks| > 0 {
        AppendMessage(m.role, blocks);
      }
    }
  }

  method OpenaiToAnthropicMessages(messages: seq<Message>, codec: Codec, made: string)
    returns (r: Result<(seq<Block>, seq<Turn>)>)
    ensures r == if BadRole(messages).Some? then UnsupportedRole(BadRole(messages).value)
                 else Ok((SystemBlocks(messages), AddMessages([], messages, codec, made)))
  {
    var list := new TurnList();
    var system: seq<Block> := [];
    assert messages[0..] == messages;
    for i := 0 to |messages|
      invariant system + SystemBlocks(messages[i..]) == SystemBlocks(messages)
      invariant AddMessages(list.turns, messages[i..], codec, made) == AddMessages([], messages, codec, made)
      invariant BadRole(messages[i..]) == BadRole(messages)
    {
      assert messages[i..][0] == messages[i] && messages[i..][1..] == messages[i + 1..];
      if messages[i].role !in OPENAI_ROLES {
        return UnsupportedRole(messages[i].role);
      }
      var more := list.Add(messages[i], codec, made);
      Associates(system, more, SystemBlocks(messages[i + 1..]));
      system := system + more;
    }
    Associates(system, [], []);
    r := Ok((system, list.turns));
  }

  method OpenaiToAnthropicRequest(r: OpenaiRequest, codec: Codec, made: string) returns (out: Result<AnthropicRequest>)
    ensures out == ToAnthropic(r, codec, made)
  {
    var converted := OpenaiToAnthropicMessages(r.messages, codec, made);
    if converted.UnsupportedRole? {
      return UnsupportedRole(converted.role);
    }
    var (system, turns) := converted.value;
    out := Ok(AnthropicRequest(
      r.common, system, turns, OrDefault(r.maxTokens, r.maxCompletionTokens),
      match r.stop { case NoStop => None case StopText(text) => Some([text]) case StopList(texts) => Some(texts) },
      SchemasOf(r.tools), ChoiceToAnthropic(r.choice)));
  }

  // --- what the output looks like -------------------------------------------------------------------

  /** Roles alternate and no turn is empty. */
  predicate Alternates(turns: seq<Turn>) {
    && (forall i :: 0 < i < |turns| ==> turns[i - 1].role != turns[i].role)
    && (forall i :: 0 <= i < |turns| ==> turns[i].role in {"user", "assistant"} && turns[i].content != [])
  }

  function Tag(role: string, blocks: seq<Block>): seq<(string, Block)> {
    if blocks == [] then [] else [(role, blocks[0])] + Tag(role, blocks[1..])
  }

  /** All blocks in order, each with the role of its turn. */
  function Tagged(turns: seq<Turn>): seq<(string, Block)> {
    if turns == [] then []
    else Tagged(turns[..|turns| - 1]) + Tag(turns[|turns| - 1].role, turns[|turns| - 1].content)
  }

  function TaggedMessages(messages: seq<Message>, codec: Codec, made: string): seq<(string, Block)> {
    if messages == [] then []
    else Tag(TurnRole(messages[0]), MessageBlocks(messages[0], codec, made)) + TaggedMessages(messages[1..], codec, made)
  }

  lemma {:induction false} TagAppended(role: string, a: seq<Block>, b: seq<Block>)
    ensures Tag(role, a + b) == Tag(role, a) + Tag(role, b)
  {
    if a == [] {
      assert a + b == b;
    } else {
      assert (a + b)[1..] == a[1..] + b;
      TagAppended(role, a[1..], b);
    }
  }

  lemma AppendedTagged(turns: seq<Turn>, role: string, blocks: seq<Block>)
    ensures Tagged(Appended(turns, role, blocks)) == Tagged(turns) + Tag(role, blocks)
  {
    var n := |turns|;
    var next := Appended(turns, role, blocks);
    if n > 0 && turns[n - 1].role == role {
      assert next[..n - 1] == turns[..n - 1];
      TagAppended(role, turns[n - 1].content, blocks);
      Associates(Tagged(turns[..n - 1]), Tag(role, turns[n - 1].content), Tag(role, blocks));
    } else {
      assert next[..n] == turns;
    }
  }

  lemma AppendedAlternates(turns: seq<Turn>, role: string, blocks: seq<Block>)
    requires Alternates(turns) && role in {"user", "assistant"} && blocks != []
    ensures Alternates(Appended(turns, role, blocks))
  {
  }

  lemma AddMessageKeeps(turns: seq<Turn>, m: Message, codec: Codec, made: string)
    requires Alternates(turns) && m.role in OPENAI_ROLES
    ensures Alternates(AddMessage(turns, m, codec, made))
    ensures Tagged(AddMessage(turns, m, codec, made)) == Tagged(turns) + Tag(TurnRole(m), MessageBlocks(m, codec, made))
  {
    var blocks := MessageBlocks(m, codec, made);
    if blocks == [] {
      Associates(Tagged(turns), [], []);
    } else {
      AppendedAlternates(turns, TurnRole(m), blocks);
      AppendedTagged(turns, TurnRole(m), blocks);
    }
  }

  lemma {:induction false} AddMessagesKeep(turns: seq<Turn>, messages: seq<Message>, codec: Codec, made: string)
    requires Alternates(turns) && forall m :: m in messages ==> m.role in OPENAI_ROLES
    ensures Alternates(AddMessages(turns, messages, codec, made))
    ensures Tagged(AddMessages(turns, messages, codec, made)) == Tagged(turns) + TaggedMessages(messages, codec, made)
    decreases |messages|
  {
    if messages == [] {
      Associates(Tagged(turns), [], []);
    } else {
      AddMessageKeeps(turns, messages[0], codec, made);
      AddMessagesKeep(AddMessage(turns, messages[0], codec, made), messages[1..], codec, made);
      Associates(Tagged(turns), Tag(TurnRole(messages[0]), MessageBlocks(messages[0], codec, made)),
        TaggedMessages(messages[1..], codec, made));
    }
  }

  function Spoken(messages: seq<Message>): seq<Message> {
    if messages == [] then []
    else (if IsSystem(messages[0].role) then [] else [messages[0]]) + Spoken(messages[1..])
  }

  /** System and developer messages leave no trace in the turns, the others none in the system field. */
  lemma {:induction false} SystemStaysApart(messages: seq<Message>, codec: Codec, made: string)
    ensures TaggedMessages(messages, codec, made) == TaggedMessages(Spoken(messages), codec, made)
    ensures SystemBlocks(Spoken(messages)) == []
  {
    if messages != [] {
      SystemStaysApart(messages[1..], codec, made);
      if IsSystem(messages[0].role) {
        assert Spoken(messages) == Spoken(messages[1..]);
        assert [] + TaggedMessages(messages[1..], codec, made) == TaggedMessages(messages[1..], codec, made);
      } else {
        assert Spoken(messages)[1..] == Spoken(messages[1..]);
      }
    }
  }

  /**
   * An accepted OpenAI request becomes strictly alternating non-empty turns holding exactly the
   * blocks of its messages, in their order and under their roles; only system and developer
   * messages reach the system field; a request is refused exactly for an unknown role.
   */
  lemma ConvertedShape(r: OpenaiRequest, codec: Codec, made: string)
    ensures ToAnthropic(r, codec, made).Ok? <==> forall m :: m in r.messages ==> m.role in OPENAI_ROLES
    ensures ToAnthropic(r, codec, made).Ok? ==>
      var out := ToAnthropic(r, codec, made).value;
      && Alternates(out.messages)
      && Tagged(out.messages) == TaggedMessages(Spoken(r.messages), codec, made)
      && out.system == SystemBlocks(r.messages) && SystemBlocks(Spoken(r.messages)) == []
  {
    SystemStaysApart(r.messages, codec, made);
    if BadRole(r.messages).None? {
      AddedFromNothing(r.messages, codec, made);
    }
  }

  lemma AddedFromNothing(messages: seq<Message>, codec: Codec, made: string)
    requires forall m :: m in messages ==> m.role in OPENAI_ROLES
    ensures Alternates(AddMessages([], messages, codec, made))
    ensures Tagged(AddMessages([], messages, codec, made)) == TaggedMessages(messages, codec, made)
  {
    AddMessagesKeep([], messages, codec, made);
    assert [] + TaggedMessages(messages, codec, made) == TaggedMessages(messages, codec, made);
  }

  // --- Anthropic to OpenAI ----------------------------------------------------------------------------

  datatype SystemField = SystemText(text: string) | SystemList(texts: seq<string>)

  datatype InTurn = InTurn(role: string, body: Body)

  /** An Anthropic request as it arrives: contents may be plain texts. */
  datatype Incoming = Incoming(
    common: Common, system: SystemField, messages: seq<InTurn>, maxTokens: int,
    stop: Option<seq<string>>, tools: seq<Tool>, choice: Option<Choice>)

  function TextOf(blocks: seq<Block>): string {
    if blocks == [] then "" else TextOf(blocks[..|blocks| - 1]) + LastText(blocks[|blocks| - 1])
  }

  function LastText(b: Block): string {
    if b.TextBlock? then b.text else ""
  }

  function ReasoningOf(blocks: seq<Block>): string {
    if blocks == [] then ""
    else ReasoningOf(blocks[..|blocks| - 1]) + if blocks[|blocks| - 1].Thinking? then blocks[|blocks| - 1].text else ""
  }

  function UseCall(b: Block, codec: Codec, made: string): ToolCall
    requires b.ToolUse?
  {
    ToolCall(if b.id != "" then b.id else made, b.name,
      ArgsText(codec.stringify(if b.input == J.Leaf(J.Null) then EMPTY_OBJECT else b.input)))
  }

  function CallsOf(blocks: seq<Block>, codec: Codec, made: string): seq<ToolCall> {
    if blocks == [] then []
    else
      CallsOf(blocks[..|blocks| - 1], codec, made)
      + if blocks[|blocks| - 1].ToolUse? then [UseCall(blocks[|blocks| - 1], codec, made)] else []
  }

  function BlocksIn(body: Body): seq<Block> {
    if body.BodyBlocks? then body.blocks else []
  }

  function BodyTextOf(body: Body): string {
    if body.BodyText? then body.text else TextOf(body.blocks)
  }

  method FromAnthropicBlocks(body: Body, codec: Codec, made: string)
    returns (text: string, toolCalls: seq<ToolCall>, reasoning: string)
    ensures text == BodyTextOf(body)
    ensures toolCalls == CallsOf(BlocksIn(body), codec, made) && reasoning == ReasoningOf(BlocksIn(body))
  {
    if body.BodyText? {
      return body.text, [], "";
    }
    text, toolCalls, reasoning := "", [], "";
    var blocks := body.blocks;
    for i := 0 to |blocks|
      invariant text == TextOf(blocks[..i])
      invariant toolCalls == CallsOf(blocks[..i], codec, made) && reasoning == ReasoningOf(blocks[..i])
    {
      var block := blocks[i];
      assert blocks[..i + 1][..i] == blocks[..i] && blocks[..i + 1][i] == block;
      if block.TextBlock? {
        text := text + block.text;
      } else if block.Thinking? {
        reasoning := reasoning + block.text;
      } else if block.ToolUse? {
        toolCalls := toolCalls + [UseCall(block, codec, made)];
      }
    }
    assert blocks[..|blocks|] == blocks;
  }

  function ResultMessages(blocks: seq<Block>): seq<Message> {
    if blocks == [] then []
    else
      (if blocks[0].ToolResult? then [Message("tool", Text(BodyTextOf(blocks[0].content)), blocks[0].toolUseId, [])] else [])
      + ResultMessages(blocks[1..])
  }

  function SpokenMessages(t: InTurn, codec: Codec, made: string): seq<Message> {
    var text, calls := BodyTextOf(t.body), CallsOf(BlocksIn(t.body), codec, made);
    if text == "" && calls == [] && ReasoningOf(BlocksIn(t.body)) == "" then []
    else [Message(t.role, if text == "" && calls != [] then NoContent else Text(text), "", calls)]
  }

  /** Tool results become messages of their own, ahead of what the turn says. */
  function TurnMessages(t: InTurn, codec: Codec, made: string): seq<Message> {
    ResultMessages(BlocksIn(t.body)) + SpokenMessages(t, codec, made)
  }

  function TurnsMessages(turns: seq<InTurn>, codec: Codec, made: string): seq<Message> {
    if turns == [] then [] else TurnMessages(turns[0], codec, made) + TurnsMessages(turns[1..], codec, made)
  }

  function JoinLines(texts: seq<string>): string {
    if texts == [] then ""
    else if |texts| == 1 then texts[0]
    else texts[0] + "\n" + JoinLines(texts[1..])
  }

  function SystemMessages(system: SystemField): seq<Message> {
    var text := if system.SystemText? then system.text else JoinLines(system.texts);
    if text == "" then [] else [Message("system", Text(text), "", [])]
  }

  function BadTurn(turns: seq<InTurn>): (r: Option<string>)
    ensures r.None? <==> forall t :: t in turns ==> t.role in {"user", "assistant"}
  {
    if turns == [] then None
    else if turns[0].role != "user" && turns[0].role != "assistant" then Some(turns[0].role)
    else BadTurn(turns[1..])
  }

  function ToOpenai(r: Incoming, codec: Codec, made: string): Result<OpenaiRequest> {
    var bad := BadTurn(r.messages);
    if bad.Some? then UnsupportedRole(bad.value)
    else Ok(OpenaiRequest(
      r.common, SystemMessages(r.system) + TurnsMessages(r.messages, codec, made),
      OrDefault(r.maxTokens, 0), 0,
      if r.stop.Some? then StopList(r.stop.value) else NoStop, SchemasOf(r.tools), r.choice))
  }

  method AnthropicToOpenaiRequest(r: Incoming, codec: Codec, made: string) returns (out: Result<OpenaiRequest>)
    ensures out == ToOpenai(r, codec, made)
  {
    var messages := SystemMessages(r.system);
    var turns := r.messages;
    assert turns[0..] == turns;
    for i := 0 to |turns|
      invariant BadTurn(turns[i..]) == BadTurn(turns)
      invariant messages + TurnsMessages(turns[i..], codec, made) == SystemMessages(r.system) + TurnsMessages(turns, codec, made)
    {
      assert turns[i..][0] == turns[i] && turns[i..][1..] == turns[i + 1..];
      if turns[i].role != "user" && turns[i].role != "assistant" {
        return UnsupportedRole(turns[i].role);
      }
      var more := ConvertTurn(turns[i], codec, made);
      Associates(messages, more, TurnsMessages(turns[i + 1..], codec, made));
      messages := messages + more;
    }
    Associates(messages, [], []);
    out := Ok(OpenaiRequest(
      r.common, messages, OrDefault(r.maxTokens, 0), 0,
      if r.stop.Some? then StopList(r.stop.value) else NoStop, SchemasOf(r.tools), r.choice));
  }

  method ConvertTurn(t: InTurn, codec: Codec, made: string) returns (messages: seq<Message>)
    ensures messages == TurnMessages(t, codec, made)
  {
    var blocks := BlocksIn(t.body);
    messages := [];
    assert blocks[0..] == blocks;
    for i := 0 to |blocks|
      invariant messages + ResultMessages(blocks[i..]) == ResultMessages(blocks)
    {
      assert blocks[i..][0] == blocks[i] && blocks[i..][1..] == blocks[i + 1..];
      if blocks[i].ToolResult? {
        var result := Message("tool", Text(BodyTextOf(blocks[i].content)), blocks[i].toolUseId, []);
        Associates(messages, [result], ResultMessages(blocks[i + 1..]));
        messages := messages + [result];
      } else {
        assert [] + ResultMessages(blocks[i + 1..]) == ResultMessages(blocks[i + 1..]);
      }
    }
    Associates(messages, [], []);
    var text, toolCalls, reasoning := FromAnthropicBlocks(t.body, codec, made);
    if text == "" && toolCalls == [] && reasoning == "" {
      return;
    }
    messages := messages + [Message(t.role, if text == "" && toolCalls != [] then NoContent else Text(text), "", toolCalls)];
  }

  /** Every accepted Anthropic request is an accepted OpenAI request. */
  lemma ConvertedIsAccepted(r: Incoming, codec: Codec, made: string)
    ensures ToOpenai(r, codec, made).Ok? ==> ToAnthropic(ToOpenai(r, codec, made).value, codec, made).Ok?
  {
    if BadTurn(r.messages).None? {
      TurnsRoles(r.messages, codec, made);
    }
  }

  lemma {:induction false} ResultRoles(blocks: seq<Block>)
    ensures forall m :: m in ResultMessages(blocks) ==> m.role == "tool"
  {
    if blocks != [] {
      ResultRoles(blocks[1..]);
    }
  }

  lemma {:induction false} TurnsRoles(turns: seq<InTurn>, codec: Codec, made: string)
    requires forall t :: t in turns ==> t.role in {"user", "assistant"}
    ensures forall m :: m in TurnsMessages(turns, codec, made) ==> m.role in OPENAI_ROLES
  {
    if turns != [] {
      ResultRoles(BlocksIn(turns[0].body));
      TurnsRoles(turns[1..], codec, made);
    }
  }
}
