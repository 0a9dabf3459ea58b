/** The execution records shared by the Rust front ends: an HTTP request of
    the execution flow with its builders, and a log entry with its type and
    display name. */
module Records {
  import opened Wrappers

  type U16 = x: int | 0 <= x < 0x1_0000
  type U64 = x: int | 0 <= x < 0x1_0000_0000_0000_0000

  /** `ExecutionRequest`; `number` is a `usize`. */
  datatype ExecutionRequest = ExecutionRequest(
    number: nat,
    httpMethod: string,
    url: string,
    headers: seq<(string, string)>,
    body: Option<string>,
    statusCode: Option<U16>,
    responseBody: Option<string>,
    durationMs: Option<U64>)

  /** `ExecutionRequest::new`: no headers and nothing optional set. */
  function NewRequest(number: nat, httpMethod: string, url: string): (r: ExecutionRequest)
    ensures r.number == number && r.httpMethod == httpMethod && r.url == url
    ensures r.headers == []
    ensures r.body.None? && r.statusCode.None? && r.responseBody.None? && r.durationMs.None?
  {
    ExecutionRequest(number, httpMethod, url, [], None, None, None, None)
  }

  /** `with_headers` replaces the headers and nothing else. */
  function WithHeaders(req: ExecutionRequest, headers: seq<(string, string)>): (r: ExecutionRequest)
    ensures r.headers == headers
    ensures r.(headers := req.headers) == req
  {
    req.(headers := headers)
  }

  /** `with_body` sets the body and nothing else. */
  function WithBody(req: ExecutionRequest, body: string): (r: ExecutionRequest)
    ensures r.body == Some(body)
    ensures r.(body := req.body) == req
  {
    req.(body := Some(body))
  }

  /** `with_response` sets status, response body and duration together and
      nothing else. */
  function WithResponse(req: ExecutionRequest, statusCode: U16, responseBody: string, durationMs: U64): (r: ExecutionRequest)
    ensures r.statusCode == Some(statusCode) && r.responseBody == Some(responseBody) && r.durationMs == Some(durationMs)
    ensures r.(statusCode := req.statusCode, responseBody := req.responseBody, durationMs := req.durationMs) == req
  {
    req.(statusCode := Some(statusCode), responseBody := Some(responseBody), durationMs := Some(durationMs))
  }

  /** The builders touch disjoint fields, so their order does not matter,
      and a repeated builder keeps only its last argument. */
  lemma BuildersCommute(req: ExecutionRequest, headers: seq<(string, string)>, body: string,
                        statusCode: U16, responseBody: string, durationMs: U64)
    ensures WithBody(WithHeaders(req, headers), body) == WithHeaders(WithBody(req, body), headers)
    ensures WithResponse(WithHeaders(req, headers), statusCode, responseBody, durationMs)
         == WithHeaders(WithResponse(req, statusCode, responseBody, durationMs), headers)
    ensures WithResponse(WithBody(req, body), statusCode, responseBody, durationMs)
         == WithBody(WithResponse(req, statusCode, responseBody, durationMs), body)
  {
  }

  lemma BuildersLastWins(req: ExecutionRequest, h1: seq<(string, string)>, h2: seq<(string, string)>, b1: string, b2: string)
    ensures WithHeaders(WithHeaders(req, h1), h2) == WithHeaders(req, h2)
    ensures WithBody(WithBody(req, b1), b2) == WithBody(req, b2)
  {
  }

  /** The chain of the builder test: every field as given. */
  lemma BuilderChainExample()
    ensures var r := WithResponse(WithBody(WithHeaders(NewRequest(1, "GET", "/api/test"),
                                    [("Content-Type", "application/json")]), "test body"),
                                  200, "response body", 100);
      && r.number == 1 && r.httpMethod == "GET" && r.url == "/api/test"
      && |r.headers| == 1 && r.headers[0].0 == "Content-Type"
      && r.body == Some("test body") && r.statusCode == Some(200)
      && r.responseBody == Some("response body") && r.durationMs == Some(100)
  {
  }

  // ---------------------------------------------------------------------
  // Log entries
  // ---------------------------------------------------------------------

  datatype LogEntryType = UserPrompt | Planning | Discovery | ExecutionStart | RequestExec | RequestResult

  predicate SnakeCaseChar(c: char)
  {
    'a' <= c <= 'z' || c == '_'
  }

  /** The `Display` name of a log entry type. */
  function DisplayName(t: LogEntryType): (name: string)
    ensures name != []
    ensures forall k :: 0 <= k < |name| ==> SnakeCaseChar(name[k])
  {
    match t
    case UserPrompt => "user_prompt"
    case Planning => "planning"
    case Discovery => "discovery"
    case ExecutionStart => "execution_start"
    case RequestExec => "request_exec"
    case RequestResult => "request_result"
  }

  /** Reads a display name back; the inverse of `DisplayName`. */
  function ParseLogEntryType(name: string): (t: Option<LogEntryType>)
  {
    if name == "user_prompt" then Some(UserPrompt)
    else if name == "planning" then Some(Planning)
    else if name == "discovery" then Some(Discovery)
    else if name == "execution_start" then Some(ExecutionStart)
    else if name == "request_exec" then Some(RequestExec)
    else if name == "request_result" then Some(RequestResult)
    else None
  }

  lemma ParseDisplayName(t: LogEntryType)
    ensures ParseLogEntryType(DisplayName(t)) == Some(t)
  {
  }

  /** The six names are distinct, so the name identifies the type. */
  lemma DisplayNameInjective(s: LogEntryType, t: LogEntryType)
    ensures DisplayName(s) == DisplayName(t) ==> s == t
  {
    ParseDisplayName(s);
    ParseDisplayName(t);
  }

  /** `LogEntry`; `request_number` is a `usize`. */
  datatype LogEntry = LogEntry(entryType: LogEntryType, content: string, requestNumber: Option<nat>)

  /** `LogEntry::new`: no request number. */
  function NewLogEntry(entryType: LogEntryType, content: string): (e: LogEntry)
    ensures e.entryType == entryType && e.content == content && e.requestNumber.None?
  {
    LogEntry(entryType, content, None)
  }

  /** `with_request_number` sets the request number and nothing else. */
  function WithRequestNumber(entry: LogEntry, requestNumber: nat): (e: LogEntry)
    ensures e.requestNumber == Some(requestNumber)
    ensures e.(requestNumber := entry.requestNumber) == entry
  {
    entry.(requestNumber := Some(requestNumber))
  }
}
