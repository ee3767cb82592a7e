/**
 * What a converted request says, part by part: content parts and the blocks they become, images and
 * their URLs, tool arguments, and the fields beside the messages.
 */
module ConversionMeaning {
  import opened Options
  import J = JsonBounds
  import opened MessageConversion

  // --- content parts and blocks -----------------------------------------------------------

  /** The part a block of converted content stands for. */
  function PartOf(b: Block): Part {
    match b
    case TextBlock(text) => TextPart(text)
    case Image(Base64(mediaType, data)) => ImagePart("data:" + mediaType + ";base64," + data)
    case Image(Url(url)) => ImagePart(url)
    case _ => OtherPart
  }

  function PartsOf(blocks: seq<Block>): seq<Part> {
    if blocks == [] then [] else [PartOf(blocks[0])] + PartsOf(blocks[1..])
  }

  /** Texts and images that are not empty. */
  function Understood(parts: seq<Part>): seq<Part> {
    if parts == [] then []
    else
      (match parts[0]
       case TextPart(text) => if text == "" then [] else [parts[0]]
       case ImagePart(url) => if url == "" then [] else [parts[0]]
       case OtherPart => [])
      + Understood(parts[1..])
  }

  /** A media type holds neither separator. */
  predicate MediaType(m: string) {
    m != "" && forall i :: 0 <= i < |m| ==> m[i] != ';' && m[i] != ','
  }

  lemma {:induction false} UntilAnyStops(s: string, stops: set<char>)
    ensures var m := UntilAny(s, stops);
      && m <= s && (forall i :: 0 <= i < |m| ==> m[i] !in stops)
      && (|m| < |s| ==> s[|m|] in stops)
  {
    if s != "" && s[0] !in stops {
      UntilAnyStops(s[1..], stops);
    }
  }

  lemma {:induction false} UntilAnyIs(m: string, rest: string, stops: set<char>)
    requires (forall i :: 0 <= i < |m| ==> m[i] !in stops) && rest != "" && rest[0] in stops
    ensures UntilAny(m + rest, stops) == m
  {
    if m == "" {
      assert m + rest == rest;
    } else {
      assert (m + rest)[1..] == m[1..] + rest;
      UntilAnyIs(m[1..], rest, stops);
    }
  }

  lemma FourParts(a: string, b: string, c: string, d: string)
    ensures a + (b + (c + d)) == a + b + c + d
  {
  }

  lemma AfterPrefix(prefix: string, s: string)
    requires prefix <= s
    ensures s == prefix + s[|prefix|..]
  {
  }

  /** An image is sent as data exactly when its URL is a base64 data URL; either way the URL can be told back. */
  lemma ImageKeepsUrl(url: string)
    ensures PartOf(Image(ImageSource(url))) == ImagePart(url)
    ensures ImageSource(url).Base64? ==> MediaType(ImageSource(url).mediaType)
  {
    var data: string, base64: string := "data:", ";base64,";
    if data <= url {
      AfterPrefix(data, url);
      var rest := url[5..];
      UntilAnyStops(rest, {';', ','});
      var m := UntilAny(rest, {';', ','});
      AfterPrefix(m, rest);
      var after := rest[|m|..];
      if m != "" && base64 <= after {
        AfterPrefix(base64, after);
        FourParts(data, m, base64, after[8..]);
      }
    }
  }

  lemma DataUrlIsSplit(mediaType: string, data: string)
    requires MediaType(mediaType)
    ensures ImageSource("data:" + mediaType + ";base64," + data) == Base64(mediaType, data)
  {
    var after := ";base64," + data;
    var rest := mediaType + after;
    var url := "data:" + mediaType + ";base64," + data;
    assert url == "data:" + rest && url[5..] == rest;
    UntilAnyIs(mediaType, after, {';', ','});
    assert rest[|mediaType|..] == after && after[8..] == data;
  }

  /** The blocks of a content are its understood parts, all of them, in order. */
  lemma {:induction false} PartsSurvive(parts: seq<Part>)
    ensures PartsOf(PartsBlocks(parts)) == Understood(parts)
  {
    if parts != [] {
      PartsSurvive(parts[1..]);
      if parts[0].ImagePart? {
        ImageKeepsUrl(parts[0].url);
      }
      var first, rest := PartBlocks(parts[0]), PartsBlocks(parts[1..]);
      if first == [] {
        assert first + rest == rest;
      } else {
        assert (first + rest)[1..] == rest;
      }
    }
  }

  // --- messages -----------------------------------------------------------------------------

  /** Tool arguments: an object as it is, the text of one within the limits cleaned, and else nothing. */
  lemma ArgumentsSpelled(args: Args, codec: Codec)
    ensures var input := ParseArguments(args, codec);
      && input.Obj?
      && (args.ArgsValue? && args.value.Obj? ==> input == args.value)
      && (args.ArgsText? && args.text != "" && codec.parse(args.text).Some? && codec.parse(args.text).value.Obj? ==>
            var parsed := codec.parse(args.text).value;
            input == if J.Nodes(parsed) <= codec.maxNodes && J.Depth(parsed) <= codec.maxDepth
                     then J.CloneSanitized(parsed) else J.Obj([]))
      && (args.ArgsValue? && !args.value.Obj? ==> input == J.Obj([]))
      && (args.ArgsText? && (args.text == "" || codec.parse(args.text).None? || !codec.parse(args.text).value.Obj?) ==>
            input == J.Obj([]))
  {
  }

  /**
   * What one message gives its turn: nothing for the system's, a result block for a tool's, the
   * understood parts of anyone else's, and after an assistant's its tool uses.
   */
  lemma MessageSpelled(m: Message, codec: Codec, made: string)
    requires m.role in OPENAI_ROLES
    ensures var blocks := MessageBlocks(m, codec, made);
      && (m.role == "system" || m.role == "developer" ==> blocks == [])
      && (m.role == "tool" || m.role == "function" ==>
            TurnRole(m) == "user"
            && blocks == [ToolResult(m.toolCallId, BodyText(if m.content.Text? then m.content.text else ""))])
      && (m.role == "user" ==> TurnRole(m) == "user" && blocks == ContentBlocks(m.content))
      && (m.role == "assistant" ==> TurnRole(m) == "assistant" && blocks == ContentBlocks(m.content) + CallBlocks(m.toolCalls, codec, made))
  {
    assert ContentBlocks(m.content) + [] == ContentBlocks(m.content);
  }

  lemma ContentSpelled(content: Content)
    ensures PartsOf(ContentBlocks(content)) == match content
      case NoContent => []
      case Text(text) => if text == "" then [] else [TextPart(text)]
      case Parts(parts) => Understood(parts)
  {
    if content.Parts? {
      PartsSurvive(content.parts);
    } else if content.Text? && content.text != "" {
      assert [TextBlock(content.text)][1..] == [];
    }
  }

  lemma {:induction false} CallsSpelled(calls: seq<ToolCall>, codec: Codec, made: string)
    ensures |CallBlocks(calls, codec, made)| == |calls|
    ensures forall i :: 0 <= i < |calls| ==>
      CallBlocks(calls, codec, made)[i] == ToolUse(if calls[i].id == "" then made else calls[i].id, calls[i].name, ParseArguments(calls[i].args, codec))
  {
    if calls != [] {
      CallsSpelled(calls[1..], codec, made);
    }
  }

  /** The fields beside the messages. */
  lemma FieldsToAnthropic(r: OpenaiRequest, codec: Codec, made: string)
    requires ToAnthropic(r, codec, made).Ok?
    ensures var out := ToAnthropic(r, codec, made).value;
      && out.common == r.common
      && out.maxTokens == (if r.maxTokens != 0 then r.maxTokens else if r.maxCompletionTokens != 0 then r.maxCompletionTokens else 4096)
      && out.stop == (match r.stop case NoStop => None case StopText(text) => Some([text]) case StopList(texts) => Some(texts))
      && out.choice == (if r.choice.Some? && r.choice.value.OneTool? && r.choice.value.name == "" then None else r.choice)
  {
  }

  /** Every tool is kept in its place; a schema that is no object becomes that of an empty one. */
  lemma {:induction false} ToolsKept(tools: seq<Tool>)
    ensures |SchemasOf(tools)| == |tools|
    ensures forall i :: 0 <= i < |tools| ==>
      var t := SchemasOf(tools)[i];
      && t.name == tools[i].name && t.description == tools[i].description
      && t.schema == if tools[i].schema.Obj? then tools[i].schema
                     else J.Obj([J.Field("type", J.Leaf(J.Text("object"))), J.Field("properties", J.Obj([]))])
  {
    if tools != [] {
      ToolsKept(tools[1..]);
    }
  }

  // --- the way back -------------------------------------------------------------------------

  lemma FrontSnoc<T>(first: T, rest: seq<T>)
    ensures rest != [] ==> ([first] + rest)[..|rest|] == [first] + rest[..|rest| - 1] && ([first] + rest)[|rest|] == rest[|rest| - 1]
    ensures rest == [] ==> ([first] + rest)[..|rest|] == [] && ([first] + rest)[|rest|] == first
  {
  }

  /** Texts are joined in order; thoughts and tool uses stay out of the text. */
  lemma {:induction false} TextInOrder(first: Block, rest: seq<Block>)
    ensures TextOf([first] + rest) == (if first.TextBlock? then first.text else "") + TextOf(rest)
    decreases |rest|
  {
    FrontSnoc(first, rest);
    if rest != [] {
      TextInOrder(first, rest[..|rest| - 1]);
    }
  }

  lemma {:induction false} ThoughtsInOrder(first: Block, rest: seq<Block>)
    ensures ReasoningOf([first] + rest) == (if first.Thinking? then first.text else "") + ReasoningOf(rest)
    decreases |rest|
  {
    FrontSnoc(first, rest);
    if rest != [] {
      ThoughtsInOrder(first, rest[..|rest| - 1]);
    }
  }

  /** Each tool use becomes a call with its id, its name and its input as JSON text, no input as an empty object. */
  lemma {:induction false} CallsInOrder(first: Block, rest: seq<Block>, codec: Codec, made: string)
    ensures CallsOf([first] + rest, codec, made)
         == (if first.ToolUse? then
               [ToolCall(if first.id == "" then made else first.id, first.name,
                         ArgsText(codec.stringify(if first.input == J.Leaf(J.Null) then J.Obj([]) else first.input)))]
             else [])
            + CallsOf(rest, codec, made)
    decreases |rest|
  {
    FrontSnoc(first, rest);
    if rest != [] {
      CallsInOrder(first, rest[..|rest| - 1], codec, made);
    }
  }

  /** What a turn becomes: a message of its own for every tool result, in order, and then what it says, unless that is nothing. */
  lemma TurnSpelled(t: InTurn, codec: Codec, made: string)
    ensures var messages, results := TurnMessages(t, codec, made), ResultMessages(BlocksIn(t.body));
      var text, calls := BodyTextOf(t.body), CallsOf(BlocksIn(t.body), codec, made);
      var silent := text == "" && calls == [] && ReasoningOf(BlocksIn(t.body)) == "";
      && |messages| == |results| + (if silent then 0 else 1)
      && messages[..|results|] == results
      && (!silent ==> messages[|results|] == Message(t.role, if text == "" && calls != [] then NoContent else Text(text), "", calls))
  {
  }

  lemma {:induction false} ResultsSpelled(first: Block, rest: seq<Block>)
    ensures ResultMessages([first] + rest)
         == (if first.ToolResult? then
               [Message("tool", Text(if first.content.BodyText? then first.content.text else TextOf(first.content.blocks)), first.toolUseId, [])]
             else [])
            + ResultMessages(rest)
  {
    assert ([first] + rest)[1..] == rest;
  }

  lemma LinesJoined(first: string, rest: seq<string>)
    ensures JoinLines([]) == ""
    ensures JoinLines([first] + rest) == if rest == [] then first else first + "\n" + JoinLines(rest)
  {
    assert ([first] + rest)[1..] == rest;
  }

  /** The system field, a text or texts joined by line feeds, is the leading system message unless it is empty. */
  lemma SystemSpelled(r: Incoming, codec: Codec, made: string)
    requires ToOpenai(r, codec, made).Ok?
    ensures var text := if r.system.SystemText? then r.system.text else JoinLines(r.system.texts);
      ToOpenai(r, codec, made).value.messages
        == (if text == "" then [] else [Message("system", Text(text), "", [])]) + TurnsMessages(r.messages, codec, made)
  {
  }

  lemma FieldsToOpenai(r: Incoming, codec: Codec, made: string)
    requires ToOpenai(r, codec, made).Ok?
    ensures var out := ToOpenai(r, codec, made).value;
      && out.common == r.common && out.choice == r.choice && out.maxCompletionTokens == 0
      && out.maxTokens == (if r.maxTokens != 0 then r.maxTokens else 4096)
      && out.stop == (if r.stop.Some? then StopList(r.stop.value) else NoStop)
  {
  }

  lemma KnownRoles(role: string)
    ensures role in OPENAI_ROLES <==> role == "system" || role == "developer" || role == "user" || role == "assistant"
                                      || role == "tool" || role == "function"
  {
  }
}
