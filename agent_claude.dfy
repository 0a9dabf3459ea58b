/** The Messages API wire format: how the conversation history becomes the
    request's messages, how the request is assembled, and how the
    response's content blocks become the agent's own. The HTTP exchange
    itself is not part of this model. */
module AgentClaude {
  import opened Wrappers
  import opened Json
  import opened AgentTypes

  const MaxTokens: nat := 1024

  datatype ApiTool = ApiTool(name: string, description: string, inputSchema: Value)

  datatype ApiMessage = ApiMessage(role: string, content: Value)

  datatype ApiRequest = ApiRequest(
    model: string,
    maxTokens: nat,
    system: string,
    tools: seq<ApiTool>,
    messages: seq<ApiMessage>)

  /** A content block of the response, tagged by its "type". */
  datatype ApiContentBlock =
    | ApiText(text: string)
    | ApiToolUse(id: string, name: string, input: Value)

  /** One assistant content block as the JSON object sent back to the API. */
  function BlockJson(block: ContentBlock): (v: Value)
  {
    match block
    case Text(text) => Obj([("type", Str("text")), ("text", Str(text))])
    case ToolUse(id, name, input) =>
      Obj([("type", Str("tool_use")), ("id", Str(id)), ("name", Str(name)), ("input", input)])
  }

  /** The arm of `messages_to_api_format` for one message. */
  function ApiMessageOf(message: Message): (a: ApiMessage)
  {
    match message
    case User(content) => ApiMessage("user", Str(content))
    case Assistant(blocks) =>
      ApiMessage("assistant", Arr(seq(|blocks|, k requires 0 <= k < |blocks| => BlockJson(blocks[k]))))
    case ToolResult(toolUseId, content) =>
      ApiMessage("user", Arr([Obj([("type", Str("tool_result")), ("tool_use_id", Str(toolUseId)),
                                   ("content", Str(content))])]))
  }

  /** The whole history in wire form, message by message. */
  function ApiMessages(messages: seq<Message>): (r: seq<ApiMessage>)
  {
    seq(|messages|, k requires 0 <= k < |messages| => ApiMessageOf(messages[k]))
  }

  /** `messages_to_api_format`. */
  method MessagesToApiFormat(messages: seq<Message>) returns (apiMessages: seq<ApiMessage>)
    ensures apiMessages == ApiMessages(messages)
  {
    apiMessages := [];
    for i := 0 to |messages|
      invariant apiMessages == ApiMessages(messages[..i])
    {
      var message := messages[i];
      match message {
        case User(content) =>
          apiMessages := apiMessages + [ApiMessage("user", Str(content))];
        case Assistant(blocks) =>
          var contentBlocks := seq(|blocks|, k requires 0 <= k < |blocks| => BlockJson(blocks[k]));
          apiMessages := apiMessages + [ApiMessage("assistant", Arr(contentBlocks))];
        case ToolResult(toolUseId, content) =>
          apiMessages := apiMessages + [ApiMessage("user", Arr([Obj([("type", Str("tool_result")),
            ("tool_use_id", Str(toolUseId)), ("content", Str(content))])]))];
      }
      assert messages[..i + 1] == messages[..i] + [message];
    }
    assert messages[..|messages|] == messages;
  }

  /** Reads one block object back: the inverse of BlockJson. */
  function BlockOf(v: Value): (r: Option<ContentBlock>)
  {
    var kind := Index(v, "type");
    if kind == Str("text") && Index(v, "text").Str? then
      Some(Text(Index(v, "text").s))
    else if kind == Str("tool_use") && Index(v, "id").Str? && Index(v, "name").Str? && Get(v, "input").Some? then
      Some(ToolUse(Index(v, "id").s, Index(v, "name").s, Get(v, "input").value))
    else None
  }

  function BlocksOf(vs: seq<Value>): (r: Option<seq<ContentBlock>>)
    decreases |vs|
  {
    if vs == [] then Some([])
    else match (BlockOf(vs[0]), BlocksOf(vs[1..]))
      case (Some(b), Some(rest)) => Some([b] + rest)
      case _ => None
  }

  /** Reads one wire message back as a history entry: the inverse of
      ApiMessageOf. A user message with a string is a prompt; one with a
      single tool_result object is a tool result. */
  function MessageOf(a: ApiMessage): (r: Option<Message>)
  {
    if a.role == "assistant" && a.content.Arr? then
      match BlocksOf(a.content.items)
      case Some(blocks) => Some(Assistant(blocks))
      case None => None
    else if a.role == "user" && a.content.Str? then
      Some(User(a.content.s))
    else if a.role == "user" && a.content.Arr? && |a.content.items| == 1
         && Index(a.content.items[0], "type") == Str("tool_result")
         && Index(a.content.items[0], "tool_use_id").Str? && Index(a.content.items[0], "content").Str? then
      Some(ToolResult(Index(a.content.items[0], "tool_use_id").s, Index(a.content.items[0], "content").s))
    else None
  }

  lemma BlockReadsBack(block: ContentBlock)
    ensures BlockOf(BlockJson(block)) == Some(block)
  {
    match block
    case Text(text) => TextReadsBack(text);
    case ToolUse(id, name, input) => ToolUseReadsBack(id, name, input);
  }

  lemma TextReadsBack(text: string)
    ensures BlockOf(BlockJson(Text(text))) == Some(Text(text))
  {
    var members := BlockJson(Text(text)).members;
    assert "type" != "text" by { assert "type"[1] != "text"[1]; }
    LookupFirst(members, "type", 0);
    LookupFirst(members, "text", 1);
  }

  lemma ToolUseReadsBack(id: string, name: string, input: Value)
    ensures BlockOf(BlockJson(ToolUse(id, name, input))) == Some(ToolUse(id, name, input))
  {
    var v := BlockJson(ToolUse(id, name, input));
    assert "type" != "id" && "type" != "name" && "type" != "input" && "id" != "name" && "id" != "input" && "name" != "input" by {
      assert |"id"| == 2 && |"type"| == |"name"| == 4 && |"input"| == 5 && "type"[0] != "name"[0];
    }
    assert Get(v, "type") == Some(Str("tool_use")) by { LookupFirst(v.members, "type", 0); }
    assert Get(v, "id") == Some(Str(id)) by { LookupFirst(v.members, "id", 1); }
    assert Get(v, "name") == Some(Str(name)) by { LookupFirst(v.members, "name", 2); }
    assert Get(v, "input") == Some(input) by { LookupFirst(v.members, "input", 3); }
    assert Str("tool_use") != Str("text") by { assert |"tool_use"| != |"text"|; }
  }

  lemma {:induction false} BlocksReadBack(blocks: seq<ContentBlock>)
    ensures BlocksOf(seq(|blocks|, k requires 0 <= k < |blocks| => BlockJson(blocks[k]))) == Some(blocks)
    decreases |blocks|
  {
    var vs := seq(|blocks|, k requires 0 <= k < |blocks| => BlockJson(blocks[k]));
    if blocks != [] {
      BlockReadsBack(blocks[0]);
      BlocksReadBack(blocks[1..]);
      assert vs[1..] == seq(|blocks[1..]|, k requires 0 <= k < |blocks[1..]| => BlockJson(blocks[1..][k]));
      assert blocks == [blocks[0]] + blocks[1..];
    }
  }

  /** Nothing is lost in the wire form: every message reads back as itself,
      so the three kinds never collide. */
  lemma MessageReadsBack(message: Message)
    ensures MessageOf(ApiMessageOf(message)) == Some(message)
  {
    assert "assistant" != "user" by { assert |"assistant"| != |"user"|; }
    match message
    case User(content) =>
    case Assistant(blocks) =>
      BlocksReadBack(blocks);
    case ToolResult(toolUseId, content) =>
      var item := ApiMessageOf(message).content.items[0];
      assert "type" != "tool_use_id" && "type" != "content" && "tool_use_id" != "content" by {
        assert |"type"| != |"tool_use_id"| && "type"[0] != "content"[0] && "tool_use_id"[0] != "content"[0];
      }
      LookupFirst(item.members, "type", 0);
      LookupFirst(item.members, "tool_use_id", 1);
      LookupFirst(item.members, "content", 2);
  }

  /** The shape of each kind of message on the wire: prompts and tool
      results go as "user", assistant turns as "assistant" with one tagged
      object per block, a tool result as a one-element array. */
  lemma ApiMessageShape(message: Message)
    ensures ApiMessageOf(message).role == (if message.Assistant? then "assistant" else "user")
    ensures message.User? ==> ApiMessageOf(message).content == Str(message.content)
    ensures message.Assistant? ==>
      var items := ApiMessageOf(message).content.items;
      |items| == |message.blocks| &&
      forall k :: 0 <= k < |items| ==>
        Index(items[k], "type") == Str(if message.blocks[k].Text? then "text" else "tool_use")
    ensures message.ToolResult? ==>
      var items := ApiMessageOf(message).content.items;
      |items| == 1 && Index(items[0], "type") == Str("tool_result")
      && Index(items[0], "tool_use_id") == Str(message.toolUseId)
      && Index(items[0], "content") == Str(message.content)
  {
    match message
    case User(_) =>
    case Assistant(blocks) =>
      forall k | 0 <= k < |blocks|
        ensures Index(BlockJson(blocks[k]), "type") == Str(if blocks[k].Text? then "text" else "tool_use")
      {
        LookupFirst(BlockJson(blocks[k]).members, "type", 0);
      }
    case ToolResult(_, _) =>
      MessageReadsBack(message);
      var item := ApiMessageOf(message).content.items[0];
      LookupFirst(item.members, "type", 0);
  }

  /** The history goes out one wire message per entry, in order, and each
      reads back as the entry it came from. */
  lemma ApiMessagesFaithful(messages: seq<Message>)
    ensures |ApiMessages(messages)| == |messages|
    ensures forall k :: 0 <= k < |messages| ==> MessageOf(ApiMessages(messages)[k]) == Some(messages[k])
  {
    forall k | 0 <= k < |messages|
      ensures MessageOf(ApiMessages(messages)[k]) == Some(messages[k])
    {
      MessageReadsBack(messages[k]);
    }
  }

  function ApiToolOf(tool: Tool): (t: ApiTool)
  {
    ApiTool(tool.name, tool.description, tool.inputSchema)
  }

  /** The request `call_claude_api` sends. */
  function BuildRequest(model: string, systemPrompt: string, tools: seq<Tool>, messages: seq<Message>): (r: ApiRequest)
  {
    ApiRequest(model, MaxTokens,  systemPrompt,
               seq(|tools|, k requires 0 <= k < |tools| => ApiToolOf(tools[k])),
               ApiMessages(messages))
  }

  /** The request asks for at most 1024 tokens and carries the model, the
      system prompt, every tool and every message unchanged. */
  lemma BuildRequestPassesThrough(model: string, systemPrompt: string, tools: seq<Tool>, messages: seq<Message>)
    ensures BuildRequest(model, systemPrompt, tools, messages).maxTokens == 1024
    ensures BuildRequest(model, systemPrompt, tools, messages).model == model
    ensures BuildRequest(model, systemPrompt, tools, messages).system == systemPrompt
    ensures var sent := BuildRequest(model, systemPrompt, tools, messages).tools;
      seq(|sent|, k requires 0 <= k < |sent| => Tool(sent[k].name, sent[k].description, sent[k].inputSchema)) == tools
    ensures var sent := BuildRequest(model, systemPrompt, tools, messages).messages;
      |sent| == |messages| && forall k :: 0 <= k < |sent| ==> MessageOf(sent[k]) == Some(messages[k])
  {
    ApiMessagesFaithful(messages);
  }

  /** One response block as the agent's content block. */
  function FromApiBlock(block: ApiContentBlock): (b: ContentBlock)
  {
    match block
    case ApiText(text) => Text(text)
    case ApiToolUse(id, name, input) => ToolUse(id, name, input)
  }

  function ToApiBlock(block: ContentBlock): (b: ApiContentBlock)
  {
    match block
    case Text(text) => ApiText(text)
    case ToolUse(id, name, input) => ApiToolUse(id, name, input)
  }

  /** The response's blocks, converted one for one and in order. */
  function ConvertResponse(blocks: seq<ApiContentBlock>): (r: seq<ContentBlock>)
    ensures |r| == |blocks|
  {
    seq(|blocks|, k requires 0 <= k < |blocks| => FromApiBlock(blocks[k]))
  }

  /** The conversion loses nothing: converting back gives the response, and
      text stays text while tool calls stay tool calls with their fields. */
  lemma ConvertResponseFaithful(blocks: seq<ApiContentBlock>)
    ensures var r := ConvertResponse(blocks);
      seq(|r|, k requires 0 <= k < |r| => ToApiBlock(r[k])) == blocks
    ensures forall k :: 0 <= k < |blocks| ==> (ConvertResponse(blocks)[k].Text? <==> blocks[k].ApiText?)
  {
    var r := ConvertResponse(blocks);
    forall k | 0 <= k < |blocks|
      ensures ToApiBlock(r[k]) == blocks[k]
    {
      match blocks[k]
      case ApiText(_) =>
      case ApiToolUse(_, _, _) =>
    }
  }
}
