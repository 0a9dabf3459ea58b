/** The agent crate's vocabulary: its errors and how they display, the
    conversation messages, the content blocks of an assistant turn, and the
    tool definitions advertised to the model. */
module AgentTypes {
  import opened Wrappers
  import Json

  /** `AgentError`. */
  datatype AgentError =
    | ApiError(message: string)
    | ParseError(message: string)
    | ToolNotFound(name: string)
    | Cancelled

  const ApiPrefix := "API error: "
  const ParsePrefix := "Parse error: "
  const NotFoundPrefix := "Tool not found: "
  const CancelledText := "Agent execution cancelled"

  /** The `Display` text of an error: a fixed prefix and the carried text,
      or a fixed sentence for cancellation. */
  function Display(e: AgentError): (s: string)
    ensures e.ApiError? ==> |s| >= |ApiPrefix| && s[..|ApiPrefix|] == ApiPrefix && s[|ApiPrefix|..] == e.message
    ensures e.ParseError? ==> |s| >= |ParsePrefix| && s[..|ParsePrefix|] == ParsePrefix && s[|ParsePrefix|..] == e.message
    ensures e.ToolNotFound? ==> |s| >= |NotFoundPrefix| && s[..|NotFoundPrefix|] == NotFoundPrefix && s[|NotFoundPrefix|..] == e.name
    ensures e.Cancelled? ==> s == CancelledText
  {
    match e
    case ApiError(m) => ApiPrefix + m
    case ParseError(m) => ParsePrefix + m
    case ToolNotFound(n) => NotFoundPrefix + n
    case Cancelled => CancelledText
  }

  /** Reads an error back from its display text: the inverse of Display. */
  function ParseDisplay(s: string): (r: Option<AgentError>)
  {
    if s == CancelledText then Some(Cancelled)
    else if |s| >= |ApiPrefix| && s[..|ApiPrefix|] == ApiPrefix then Some(ApiError(s[|ApiPrefix|..]))
    else if |s| >= |ParsePrefix| && s[..|ParsePrefix|] == ParsePrefix then Some(ParseError(s[|ParsePrefix|..]))
    else if |s| >= |NotFoundPrefix| && s[..|NotFoundPrefix|] == NotFoundPrefix then Some(ToolNotFound(s[|NotFoundPrefix|..]))
    else None
  }

  /** Every error's text reads back as that error, so the four texts never
      collide. */
  lemma DisplayReadsBack(e: AgentError)
    ensures ParseDisplay(Display(e)) == Some(e)
  {
    var s := Display(e);
    match e
    case Cancelled =>
    case ApiError(m) =>
      assert s != CancelledText by { assert s[1] == 'P' != CancelledText[1]; }
    case ParseError(m) =>
      assert s != CancelledText by { assert s[0] == 'P' != CancelledText[0]; }
      assert s[..|ApiPrefix|] != ApiPrefix by { assert s[0] == 'P' != ApiPrefix[0]; }
    case ToolNotFound(n) =>
      assert s != CancelledText by { assert s[0] == 'T' != CancelledText[0]; }
      assert s[..|ApiPrefix|] != ApiPrefix by { assert s[0] == 'T' != ApiPrefix[0]; }
      assert s[..|ParsePrefix|] != ParsePrefix by { assert s[0] == 'T' != ParsePrefix[0]; }
  }

  /** Two errors with the same text are the same error. */
  lemma DisplayInjective(a: AgentError, b: AgentError)
    ensures Display(a) == Display(b) ==> a == b
  {
    DisplayReadsBack(a);
    DisplayReadsBack(b);
  }

  /** `ContentBlock`: a text block or a request to call a tool. */
  datatype ContentBlock =
    | Text(text: string)
    | ToolUse(id: string, name: string, input: Json.Value)

  /** `Message`: one entry of the conversation history. */
  datatype Message =
    | User(content: string)
    | Assistant(blocks: seq<ContentBlock>)
    | ToolResult(toolUseId: string, content: string)

  /** `Tool`: what the model is told about a tool. */
  datatype Tool = Tool(name: string, description: string, inputSchema: Json.Value)

  /** `ToolFn`: a tool's implementation, from its JSON input to its output
      text or an error message. */
  type ToolFn = Json.Value -> Result<string, string>
}
