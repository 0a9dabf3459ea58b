/** The agent itself: construction from the environment's API key, and the
    run loop that alternates between asking the model and executing the
    tools it asks for, recording everything in the message history.

    The Messages API is an oracle `api` from the request to either the
    response's content blocks and stop reason or an error; the cancellation
    token is `cancelled`, read at the start of each iteration; the
    environment variable is an optional string. */
module Agent {
  import opened Wrappers
  import Json
  import opened AgentTypes
  import AgentClaude

  const ModelName := "claude-sonnet-4-5"
  const MissingKey := "ANTHROPIC_API_KEY environment variable not set"
  const EndTurn := "end_turn"
  const ToolUseReason := "tool_use"

  /** `Agent`. */
  datatype Agent = Agent(
    apiKey: string,
    model: string,
    systemPrompt: string,
    tools: seq<Tool>,
    toolImplementations: map<string, ToolFn>)

  /** `Agent::new`, with the value of ANTHROPIC_API_KEY (None when unset). */
  function New(systemPrompt: string, tools: seq<Tool>, toolImplementations: map<string, ToolFn>,
               apiKeyVar: Option<string>): (r: Result<Agent, AgentError>)
    ensures r.Err? <==> apiKeyVar.None?
    ensures r.Err? ==> r.error == ApiError(MissingKey)
    ensures r.Ok? ==> r.value.apiKey == apiKeyVar.value && r.value.model == ModelName
    ensures r.Ok? ==> r.value.systemPrompt == systemPrompt && r.value.tools == tools
    ensures r.Ok? ==> r.value.toolImplementations == toolImplementations
  {
    match apiKeyVar
    case None => Err(ApiError(MissingKey))
    case Some(key) => Ok(Agent(key, ModelName, systemPrompt, tools, toolImplementations))
  }

  /** What one API call yields: the content blocks and the stop reason. */
  type ApiResult = Result<(seq<ContentBlock>, string), AgentError>

  /** The request sent for the current history. */
  function RequestFor(agent: Agent, history: seq<Message>): (r: AgentClaude.ApiRequest)
  {
    AgentClaude.BuildRequest(agent.model, agent.systemPrompt, agent.tools, history)
  }

  /** The tool calls among an assistant turn's blocks, as (id, name, input)
      in block order; text blocks are skipped. */
  function ToolUses(blocks: seq<ContentBlock>): (r: seq<(string, string, Json.Value)>)
    ensures |r| <= |blocks|
    ensures forall id, name, input ::
      (id, name, input) in r <==> ToolUse(id, name, input) in blocks
    decreases |blocks|
  {
    if blocks == [] then []
    else
      var rest := ToolUses(blocks[1..]);
      assert forall b :: b in blocks <==> b == blocks[0] || b in blocks[1..];
      match blocks[0]
      case ToolUse(id, name, input) => [(id, name, input)] + rest
      case Text(_) => rest
  }

  /** The calls keep their block order: the calls of a + b are those of a
      followed by those of b. */
  lemma {:induction false} ToolUsesAppend(a: seq<ContentBlock>, b: seq<ContentBlock>)
    ensures ToolUses(a + b) == ToolUses(a) + ToolUses(b)
    decreases |a|
  {
    if a != [] {
      assert (a + b)[0] == a[0];
      assert (a + b)[1..] == a[1..] + b;
      ToolUsesAppend(a[1..], b);
    } else {
      assert a + b == b;
    }
  }

  /** The content recorded for a tool's outcome: its output, or its error
      message after "Error: ". */
  function ResultContent(outcome: Result<string, string>): (s: string)
  {
    match outcome
    case Ok(output) => output
    case Err(message) => "Error: " + message
  }

  /** The tool results for the calls, in order, or the error for the first
      call naming a tool that has no implementation. */
  function ExecuteTools(implementations: map<string, ToolFn>, uses: seq<(string, string, Json.Value)>)
    : (r: Result<seq<Message>, AgentError>)
    decreases |uses|
  {
    if uses == [] then Ok([])
    else
      match ExecuteTools(implementations, uses[..|uses| - 1])
      case Err(e) => Err(e)
      case Ok(results) =>
        var (id, name, input) := uses[|uses| - 1];
        if name !in implementations then Err(ToolNotFound(name))
        else Ok(results + [ToolResult(id, ResultContent(implementations[name](input)))])
  }

  /** The result of a tool call with a known name. */
  function Answer(implementations: map<string, ToolFn>, use: (string, string, Json.Value)): (m: Message)
    requires use.1 in implementations
  {
    ToolResult(use.0, ResultContent(implementations[use.1](use.2)))
  }

  /** Executing the calls succeeds exactly when every name is known, and then
      there is one result per call, in order, answering that call's id with
      that call's outcome. */
  lemma {:induction false} ExecuteToolsOk(implementations: map<string, ToolFn>, uses: seq<(string, string, Json.Value)>)
    ensures ExecuteTools(implementations, uses).Ok? <==> forall k :: 0 <= k < |uses| ==> uses[k].1 in implementations
    ensures ExecuteTools(implementations, uses).Ok? ==>
      var results := ExecuteTools(implementations, uses).value;
      |results| == |uses| && forall k :: 0 <= k < |uses| ==> results[k] == Answer(implementations, uses[k])
    decreases |uses|
  {
    if uses != [] {
      var front := uses[..|uses| - 1];
      ExecuteToolsOk(implementations, front);
      assert forall k :: 0 <= k < |front| ==> front[k] == uses[k];
    }
  }

  /** A failure names the first call whose tool is unknown. */
  lemma {:induction false} ExecuteToolsErr(implementations: map<string, ToolFn>, uses: seq<(string, string, Json.Value)>)
    requires ExecuteTools(implementations, uses).Err?
    ensures exists k ::
      && 0 <= k < |uses| && uses[k].1 !in implementations
      && (forall j :: 0 <= j < k ==> uses[j].1 in implementations)
      && ExecuteTools(implementations, uses).error == ToolNotFound(uses[k].1)
    decreases |uses|
  {
    var front := uses[..|uses| - 1];
    assert forall k :: 0 <= k < |front| ==> front[k] == uses[k];
    if ExecuteTools(implementations, front).Err? {
      ExecuteToolsErr(implementations, front);
    } else {
      ExecuteToolsOk(implementations, front);
      var k := |uses| - 1;
      assert uses[k].1 !in implementations;
    }
  }

  /** Once a prefix of the calls fails, the whole run of calls fails the
      same way. */
  lemma {:induction false} ExecuteToolsErrPrefix(implementations: map<string, ToolFn>,
                                                 uses: seq<(string, string, Json.Value)>, i: nat)
    requires i <= |uses| && ExecuteTools(implementations, uses[..i]).Err?
    ensures ExecuteTools(implementations, uses) == ExecuteTools(implementations, uses[..i])
    decreases |uses| - i
  {
    if i < |uses| {
      assert uses[..i + 1][..i] == uses[..i];
      ExecuteToolsErrPrefix(implementations, uses, i + 1);
    } else {
      assert uses[..i] == uses;
    }
  }

  /** The `for` loop over the tool calls: push one result per call onto the
      history, or stop at the first unknown tool. */
  method ExecuteToolUses(agent: Agent, uses: seq<(string, string, Json.Value)>, history: seq<Message>)
    returns (r: Result<seq<Message>, AgentError>)
    ensures ExecuteTools(agent.toolImplementations, uses).Ok? ==>
      r == Ok(history + ExecuteTools(agent.toolImplementations, uses).value)
    ensures ExecuteTools(agent.toolImplementations, uses).Err? ==>
      r == Err(ExecuteTools(agent.toolImplementations, uses).error)
  {
    var implementations := agent.toolImplementations;
    var messageHistory := history;
    for i := 0 to |uses|
      invariant ExecuteTools(implementations, uses[..i]).Ok?
      invariant messageHistory == history + ExecuteTools(implementations, uses[..i]).value
    {
      var (toolUseId, toolName, toolInput) := uses[i];
      assert uses[..i + 1][..i] == uses[..i];
      if toolName !in implementations {
        ExecuteToolsErrPrefix(implementations, uses, i + 1);
        return Err(ToolNotFound(toolName));
      }
      var toolFn := implementations[toolName];
      var resultContent := match toolFn(toolInput)
        case Ok(output) => output
        case Err(errorMessage) => "Error: " + errorMessage;
      messageHistory := messageHistory + [ToolResult(toolUseId, resultContent)];
    }
    assert uses[..|uses|] == uses;
    return Ok(messageHistory);
  }

  /** Where one iteration leaves the run: going on with a longer history,
      or finished with a result. */
  datatype Outcome =
    | Continue(history: seq<Message>)
    | Finished(result: Result<seq<Message>, AgentError>)

  /** One iteration of the run loop, given whether the token is cancelled
      and what the API call returns. */
  function Iterate(agent: Agent, history: seq<Message>, cancelled: bool, response: ApiResult): (o: Outcome)
  {
    if cancelled then Finished(Err(Cancelled))
    else match response
      case Err(e) => Finished(Err(e))
      case Ok((blocks, stopReason)) =>
        var withAnswer := history + [Assistant(blocks)];
        if stopReason == EndTurn then Finished(Ok(withAnswer))
        else if stopReason == ToolUseReason then
          match ExecuteTools(agent.toolImplementations, ToolUses(blocks))
          case Err(e) => Finished(Err(e))
          case Ok(results) => Continue(withAnswer + results)
        else Finished(Ok(withAnswer))
  }

  /** The rules of one iteration: cancellation wins before anything is
      asked; an API error ends the run; the answer is recorded before the
      stop reason is looked at; any reason but "tool_use" ends the run
      successfully; "tool_use" continues with one result per tool call. */
  lemma IterateRules(agent: Agent, history: seq<Message>, cancelled: bool, response: ApiResult)
    ensures cancelled ==> Iterate(agent, history, cancelled, response) == Finished(Err(Cancelled))
    ensures !cancelled && response.Err? ==> Iterate(agent, history, cancelled, response) == Finished(Err(response.error))
    ensures !cancelled && response.Ok? && response.value.1 != ToolUseReason ==>
      Iterate(agent, history, cancelled, response) == Finished(Ok(history + [Assistant(response.value.0)]))
    ensures !cancelled && response.Ok? && response.value.1 == ToolUseReason ==>
      var uses := ToolUses(response.value.0);
      match Iterate(agent, history, cancelled, response)
      case Continue(next) =>
        (forall k :: 0 <= k < |uses| ==> uses[k].1 in agent.toolImplementations)
        && |next| == |history| + 1 + |uses|
        && next[..|history| + 1] == history + [Assistant(response.value.0)]
        && forall k :: 0 <= k < |uses| ==> next[|history| + 1 + k] == Answer(agent.toolImplementations, uses[k])
      case Finished(r) =>
        r.Err? && exists k ::
          && 0 <= k < |uses| && uses[k].1 !in agent.toolImplementations
          && r.error == ToolNotFound(uses[k].1)
  {
    if !cancelled && response.Ok? && response.value.1 == ToolUseReason {
      var uses := ToolUses(response.value.0);
      ExecuteToolsOk(agent.toolImplementations, uses);
      if ExecuteTools(agent.toolImplementations, uses).Err? {
        ExecuteToolsErr(agent.toolImplementations, uses);
      }
    }
  }

  /** Whatever history an iteration goes on with or finishes with extends
      the one it started from by the recorded answer. */
  lemma IterateExtends(agent: Agent, history: seq<Message>, cancelled: bool, response: ApiResult)
    ensures match Iterate(agent, history, cancelled, response)
      case Continue(next) => Extends(next, history)
      case Finished(r) => r.Ok? ==> Extends(r.value, history)
  {
  }

  /** h is history followed by an assistant answer and possibly more. */
  predicate Extends(h: seq<Message>, history: seq<Message>)
  {
    |h| > |history| && h[..|history|] == history && h[|history|].Assistant?
  }

  /** The run loop with at most fuel further iterations, from iteration
      number `iteration` on; None when the bound is reached. */
  function Loop(agent: Agent, history: seq<Message>, iteration: nat, cancelled: nat -> bool,
                api: AgentClaude.ApiRequest -> ApiResult, fuel: nat): (r: Option<Result<seq<Message>, AgentError>>)
    decreases fuel
  {
    if fuel == 0 then None
    else
      match Iterate(agent, history, cancelled(iteration), api(RequestFor(agent, history)))
      case Finished(result) => Some(result)
      case Continue(next) => Loop(agent, next, iteration + 1, cancelled, api, fuel - 1)
  }

  /** A successful run only ever adds to the history it was given, and the
      first thing it adds is the model's answer. */
  lemma {:induction false} LoopExtends(agent: Agent, history: seq<Message>, iteration: nat, cancelled: nat -> bool,
                                       api: AgentClaude.ApiRequest -> ApiResult, fuel: nat)
    ensures var r := Loop(agent, history, iteration, cancelled, api, fuel);
      r.Some? && r.value.Ok? ==> Extends(r.value.value, history)
    decreases fuel
  {
    if fuel > 0 {
      var response := api(RequestFor(agent, history));
      IterateExtends(agent, history, cancelled(iteration), response);
      match Iterate(agent, history, cancelled(iteration), response)
      case Finished(_) =>
      case Continue(next) =>
        LoopExtends(agent, next, iteration + 1, cancelled, api, fuel - 1);
        var r := Loop(agent, next, iteration + 1, cancelled, api, fuel - 1);
        if r.Some? && r.value.Ok? {
          var h := r.value.value;
          assert h[..|history|] == h[..|next|][..|history|];
        }
    }
  }

  /** `Agent::run`, bounded to maxIterations calls of the API. */
  method Run(agent: Agent, prompt: string, cancelled: nat -> bool, api: AgentClaude.ApiRequest -> ApiResult,
             maxIterations: nat) returns (r: Option<Result<seq<Message>, AgentError>>)
    ensures r == Loop(agent, [User(prompt)], 0, cancelled, api, maxIterations)
  {
    var messageHistory := [User(prompt)];
    var iterationCount := 0;
    while iterationCount < maxIterations
      invariant iterationCount <= maxIterations
      invariant Loop(agent, [User(prompt)], 0, cancelled, api, maxIterations)
             == Loop(agent, messageHistory, iterationCount, cancelled, api, maxIterations - iterationCount)
      decreases maxIterations - iterationCount
    {
      if cancelled(iterationCount) {
        return Some(Err(Cancelled));
      }
      var response := api(RequestFor(agent, messageHistory));
      if response.Err? {
        return Some(Err(response.error));
      }
      var (contentBlocks, stopReason) := response.value;
      var before := messageHistory;
      messageHistory := messageHistory + [Assistant(contentBlocks)];
      if stopReason == EndTurn {
        return Some(Ok(messageHistory));
      }
      if stopReason == ToolUseReason {
        var toolUses := ToolUses(contentBlocks);
        var next := ExecuteToolUses(agent, toolUses, messageHistory);
        if next.Err? {
          return Some(Err(next.error));
        }
        assert Iterate(agent, before, false, response) == Continue(next.value);
        messageHistory := next.value;
        iterationCount := iterationCount + 1;
        continue;
      }
      return Some(Ok(messageHistory));
    }
    return None;
  }

  /** A successful run's history starts with the prompt, followed by the
      model's first answer. */
  lemma RunStartsWithPrompt(agent: Agent, prompt: string, cancelled: nat -> bool,
                            api: AgentClaude.ApiRequest -> ApiResult, maxIterations: nat)
    ensures var r := Loop(agent, [User(prompt)], 0, cancelled, api, maxIterations);
      r.Some? && r.value.Ok? ==> |r.value.value| >= 2 && r.value.value[0] == User(prompt) && r.value.value[1].Assistant?
  {
    LoopExtends(agent, [User(prompt)], 0, cancelled, api, maxIterations);
  }

  /** A token cancelled before the first iteration ends the run with
      Cancelled whatever the API would have said. */
  lemma CancelledAtOnce(agent: Agent, prompt: string, cancelled: nat -> bool,
                        api: AgentClaude.ApiRequest -> ApiResult, maxIterations: nat)
    requires cancelled(0) && maxIterations > 0
    ensures Loop(agent, [User(prompt)], 0, cancelled, api, maxIterations) == Some(Err(Cancelled))
  {
  }

  /** With the key set, construction succeeds. */
  lemma NewWithKey(systemPrompt: string, tools: seq<Tool>, toolImplementations: map<string, ToolFn>)
    ensures New(systemPrompt, tools, toolImplementations, Some("test-key")).Ok?
  {
  }
}
