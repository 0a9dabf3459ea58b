/** The first Python prototype of the front end: a fixed execution log, a
    list of executed requests with one selected, the details text of the
    selected request, and a prompt whose submissions are echoed into the
    log. */
module LegacyTui {
  import opened Wrappers
  import Text
  import Seqs

  /** `ExecutionRequest`; the headers dictionary is kept as its items in
      insertion order. */
  datatype ExecutionRequest = ExecutionRequest(
    number: int,
    httpMethod: string,
    url: string,
    headers: seq<(string, string)>,
    body: Option<string>,
    statusCode: Option<int>,
    responseBody: Option<string>,
    durationMs: Option<int>)

  const RequestMarker := "\U{25BC} Request"
  const ResponseMarker := "\U{25BC} Response"
  const PlanningText := "\U{1F916} Planning..."

  /** Python truthiness of an optional string: present and not empty. */
  predicate Truthy(text: Option<string>)
  {
    text.Some? && text.value != ""
  }

  /** `f"{x}"` of an optional integer. */
  function OptionalIntText(x: Option<int>): string
  {
    if x.Some? then Text.IntToString(x.value) else "None"
  }

  function TitleLine(req: ExecutionRequest): string
  {
    "[" + Text.IntToString(req.number) + "] " + req.httpMethod + " " + req.url
  }

  /** A falsy body (missing or empty) is shown as "(None)". */
  function BodyLines(body: Option<string>): seq<string>
  {
    if Truthy(body) then ["Body:"] + Text.SplitOn(body.value, '\n') else ["Body: (None)"]
  }

  function ResponseLines(responseBody: Option<string>): seq<string>
  {
    if Truthy(responseBody) then Text.SplitOn(responseBody.value, '\n') else []
  }

  function StatusLine(code: Option<int>): string
  {
    "Status: " + OptionalIntText(code) + " OK"
  }

  /** The lines of `_update_details_panel`, in order. */
  function DetailLines(req: ExecutionRequest): seq<string>
  {
    [TitleLine(req), "", RequestMarker, "Headers:"] + Text.HeaderLines(req.headers) + BodyLines(req.body)
      + ["", ResponseMarker, StatusLine(req.statusCode)] + ResponseLines(req.responseBody)
  }

  function ResponseStart(req: ExecutionRequest): nat
  {
    4 + |req.headers| + |BodyLines(req.body)|
  }

  /** The status line is always there, "None" standing in for a missing
      code; a body or response that is empty is treated as missing. */
  lemma DetailSections(req: ExecutionRequest)
    ensures var lines := DetailLines(req);
      var p := ResponseStart(req);
      && lines[..4] == [TitleLine(req), "", RequestMarker, "Headers:"]
      && (forall k :: 0 <= k < |req.headers| ==> lines[4 + k] == "  " + req.headers[k].0 + ": " + req.headers[k].1)
      && lines[4 + |req.headers|] == (if Truthy(req.body) then "Body:" else "Body: (None)")
      && (Truthy(req.body) ==> lines[5 + |req.headers|..p] == Text.SplitOn(req.body.value, '\n'))
      && lines[p..p + 3] == ["", ResponseMarker, StatusLine(req.statusCode)]
      && (req.statusCode.None? ==> lines[p + 2] == "Status: None OK")
      && lines[p + 3..] == (if Truthy(req.responseBody) then Text.SplitOn(req.responseBody.value, '\n') else [])
  {
    RequestPart(req);
    ResponsePart(req);
  }

  /** The lines before the response section. */
  lemma RequestPart(req: ExecutionRequest)
    ensures var lines := DetailLines(req);
      && |lines| >= ResponseStart(req) + 3
      && lines[..4] == [TitleLine(req), "", RequestMarker, "Headers:"]
      && (forall k :: 0 <= k < |req.headers| ==> lines[4 + k] == "  " + req.headers[k].0 + ": " + req.headers[k].1)
      && lines[4 + |req.headers|] == (if Truthy(req.body) then "Body:" else "Body: (None)")
      && (Truthy(req.body) ==> lines[5 + |req.headers|..ResponseStart(req)] == Text.SplitOn(req.body.value, '\n'))
  {
    var lines := DetailLines(req);
    var front := [TitleLine(req), "", RequestMarker, "Headers:"] + Text.HeaderLines(req.headers);
    assert lines == front + BodyLines(req.body) + ["", ResponseMarker, StatusLine(req.statusCode)]
      + ResponseLines(req.responseBody);
    assert lines[..4] == front[..4];
    if Truthy(req.body) {
      assert lines[5 + |req.headers|..ResponseStart(req)] == BodyLines(req.body)[1..];
    }
  }

  /** The response section: a blank line, the marker, the status line, then
      the response body's lines. */
  lemma ResponsePart(req: ExecutionRequest)
    ensures var lines := DetailLines(req);
      var p := ResponseStart(req);
      && |lines| >= p + 3
      && lines[p..p + 3] == ["", ResponseMarker, StatusLine(req.statusCode)]
      && (req.statusCode.None? ==> lines[p + 2] == "Status: None OK")
      && lines[p + 3..] == ResponseLines(req.responseBody)
  {
    var front := [TitleLine(req), "", RequestMarker, "Headers:"] + Text.HeaderLines(req.headers) + BodyLines(req.body);
    Seqs.Slices3(front, ["", ResponseMarker, StatusLine(req.statusCode)], ResponseLines(req.responseBody));
    StatusLineNone();
  }

  /** A missing status code is printed as the word None. */
  lemma StatusLineNone()
    ensures StatusLine(None) == "Status: None OK"
  {
    assert "Status: " + "None" == "Status: None";
  }

  /** The selection after a key, from the selection and the number of
      requests before it. */
  function KeySelection(index: int, count: nat, key: string): int
  {
    if key == "up" then (if index > 0 then index - 1 else index)
    else if key == "down" then (if index < count - 1 then index + 1 else index)
    else index
  }

  /** A legal selection: one of the requests' positions, or 0 when there
      are none. */
  predicate SelectionOk(index: int, count: nat)
  {
    0 <= index && index <= (if count == 0 then 0 else count - 1)
  }

  /** Up moves back iff not at the top, down moves on iff not at the
      bottom, each by one, and other keys leave the selection alone. */
  lemma KeySelectionMoves(index: int, count: nat, key: string)
    requires SelectionOk(index, count)
    ensures SelectionOk(KeySelection(index, count, key), count)
    ensures key == "up" ==> (KeySelection(index, count, key) == index - 1 <==> index > 0)
    ensures key == "down" ==> (KeySelection(index, count, key) == index + 1 <==> index < count - 1)
    ensures key != "up" && key != "down" ==> KeySelection(index, count, key) == index
  {
  }

  /** The four log lines a non-blank submission adds. */
  function EchoLines(message: string): (lines: seq<string>)
    ensures |lines| == 4 && lines[1] == "> " + message && lines[3] == PlanningText
    ensures lines[0] == "" && lines[2] == ""
  {
    ["", "> " + message, "", PlanningText]
  }

  /** What a submission does: nothing for blank input, otherwise echo the
      stripped text. */
  function Submission(value: string): (lines: Option<seq<string>>)
    ensures lines.None? <==> forall k :: 0 <= k < |value| ==> Text.PyIsSpace(value[k])
    ensures lines.Some? ==> lines.value == EchoLines(Text.Trim(value, Text.PyIsSpace))
  {
    Text.TrimProperties(value, Text.PyIsSpace);
    var message := Text.Trim(value, Text.PyIsSpace);
    if message == [] then None else Some(EchoLines(message))
  }

  // ---------------------------------------------------------------------
  // The application object
  // ---------------------------------------------------------------------

  const DummyLogLines: seq<string> := [
    "> get all users and update first email",
    "",
    PlanningText,
    "\U{2713} Found: GET /api/users",
    "\U{2713} Found: POST /api/users",
    "",
    "\U{1F504} Executing:",
    "[1] GET /api/users",
    "    \U{2713} 200 OK (145ms)",
    "[2] POST /api/users/1",
    "    \U{2713} 200 OK (89ms)"
  ]

  // Each payload is written as a concatenation rather than one string
  // literal: it denotes the same string, but keeps the verifier from
  // splitting literal payloads line by line in every proof that sees them.
  const DummyRequests: seq<ExecutionRequest> := [
    ExecutionRequest(1, "GET", "/api/users", [("Content-Type", "application/json")], None, Some(200),
                     Some("[" + "{\"id\": 1, \"email\": \"old@example.com\"}, ...]"), Some(145)),
    ExecutionRequest(2, "POST", "/api/users/1", [("Content-Type", "application/json")],
                     Some("{" + "\n  \"email\": \"new@example.com\"\n}"), Some(200),
                     Some("{" + "\n  \"id\": 1,\n  \"email\": \"new@example.com\"\n}"), Some(89))
  ]

  /** `CozyReqApp`: the log's lines, the requests, the selection, the
      prompt's text and focus, and the details panel's text. */
  class CozyReqApp {
    var requests: seq<ExecutionRequest>
    var logLines: seq<string>
    var selectedRequestIndex: int
    var inputValue: string
    var promptFocused: bool
    var detailsText: string

    predicate Valid()
      reads this
    {
      SelectionOk(selectedRequestIndex, |requests|)
    }

    constructor ()
      ensures Valid()
      ensures requests == [] && logLines == [] && selectedRequestIndex == 0
      ensures inputValue == "" && !promptFocused && detailsText == ""
    {
      requests := [];
      logLines := [];
      selectedRequestIndex := 0;
      inputValue := "";
      promptFocused := false;
      detailsText := "";
    }

    /** `_update_details_panel`: nothing to show without requests. */
    method UpdateDetailsPanel()
      requires Valid()
      modifies this`detailsText
      ensures Valid()
      ensures requests == old(requests) && logLines == old(logLines)
      ensures selectedRequestIndex == old(selectedRequestIndex)
      ensures inputValue == old(inputValue) && promptFocused == old(promptFocused)
      ensures requests == [] ==> detailsText == old(detailsText)
      ensures requests != [] ==> detailsText == Text.Join(DetailLines(requests[selectedRequestIndex]), '\n')
    {
      if requests == [] {
        return;
      }
      detailsText := FormatDetails(requests[selectedRequestIndex]);
    }

    /** `on_mount` with `_add_dummy_log`: the eleven example log lines, two
        requests, the second selected and shown. */
    method OnMount()
      requires Valid()
      modifies this`logLines, this`requests, this`selectedRequestIndex, this`detailsText
      ensures Valid()
      ensures logLines == old(logLines) + DummyLogLines
      ensures requests == DummyRequests && selectedRequestIndex == 1
      ensures detailsText == Text.Join(DetailLines(requests[selectedRequestIndex]), '\n')
      ensures inputValue == old(inputValue)
      ensures promptFocused == old(promptFocused)
    {
      logLines := logLines + DummyLogLines;
      requests := DummyRequests;
      selectedRequestIndex := 1;
      UpdateDetailsPanel();
    }

    /** `on_key`: up and down move the selection and refresh the details;
        ctrl+p focuses the prompt. */
    method OnKey(key: string)
      requires Valid()
      modifies this`selectedRequestIndex, this`detailsText, this`promptFocused
      ensures Valid()
      ensures selectedRequestIndex == KeySelection(old(selectedRequestIndex), |old(requests)|, key)
      ensures requests == old(requests) && logLines == old(logLines) && inputValue == old(inputValue)
      ensures promptFocused == (old(promptFocused) || (key == "ctrl+p"))
      ensures selectedRequestIndex != old(selectedRequestIndex) ==>
        detailsText == Text.Join(DetailLines(requests[selectedRequestIndex]), '\n')
      ensures selectedRequestIndex == old(selectedRequestIndex) ==> detailsText == old(detailsText)
    {
      if key == "up" && selectedRequestIndex > 0 {
        selectedRequestIndex := selectedRequestIndex - 1;
        UpdateDetailsPanel();
      } else if key == "down" && selectedRequestIndex < |requests| - 1 {
        selectedRequestIndex := selectedRequestIndex + 1;
        UpdateDetailsPanel();
      } else if key == "ctrl+p" {
        promptFocused := true;
      }
    }

    /** `on_input_submitted`: blank input is ignored and stays in the
        prompt; otherwise the prompt is cleared and the stripped text is
        echoed into the log. */
    method OnInputSubmitted()
      modifies this`inputValue, this`logLines
      ensures Submission(old(inputValue)).None? ==>
        inputValue == old(inputValue) && logLines == old(logLines)
      ensures Submission(old(inputValue)).Some? ==>
        inputValue == "" && logLines == old(logLines) + Submission(old(inputValue)).value
      ensures requests == old(requests) && selectedRequestIndex == old(selectedRequestIndex)
      ensures detailsText == old(detailsText) && promptFocused == old(promptFocused)
    {
      var message := Text.Trim(inputValue, Text.PyIsSpace);
      assert Submission(inputValue) == if message == [] then None else Some(EchoLines(message));
      if message == [] {
        return;
      }
      inputValue := "";
      // The blank line, the prompt, the blank line and the planning note.
      logLines := logLines + EchoLines(message);
    }
  }

  /** The details text of one request, built as `_update_details_panel`
      builds it: lines appended to a list, then joined with line feeds. */
  method FormatDetails(req: ExecutionRequest) returns (text: string)
    ensures text == Text.Join(DetailLines(req), '\n')
  {
    var details := RequestLinesOf(req);
    ghost var withBody := details;
    details := details + [""];
    details := details + [ResponseMarker];
    details := details + [StatusLine(req.statusCode)];
    assert details == withBody + ["", ResponseMarker, StatusLine(req.statusCode)];
    ghost var withStatus := details;
    if req.responseBody.Some? && req.responseBody.value != "" {
      details := AppendPieces(details, Text.SplitOn(req.responseBody.value, '\n'));
    }
    assert details == withStatus + ResponseLines(req.responseBody);
    assert details == DetailLines(req);
    text := Text.Join(details, '\n');
  }

  /** The first half of `_update_details_panel`: the title, the headers
      one by one, and the body. */
  method RequestLinesOf(req: ExecutionRequest) returns (details: seq<string>)
    ensures details == [TitleLine(req), "", RequestMarker, "Headers:"] + Text.HeaderLines(req.headers) + BodyLines(req.body)
  {
    details := [];
    details := details + [TitleLine(req)];
    details := details + [""];
    details := details + [RequestMarker];
    details := details + ["Headers:"];
    ghost var front := details;
    assert front == [TitleLine(req), "", RequestMarker, "Headers:"];
    var i := 0;
    while i < |req.headers|
      invariant 0 <= i <= |req.headers|
      invariant details == front + Text.HeaderLines(req.headers[..i])
    {
      Text.HeaderLinesSnoc(req.headers, i);
      details := details + [Text.HeaderLine(req.headers[i])];
      i := i + 1;
    }
    assert req.headers[..i] == req.headers;
    if req.body.Some? && req.body.value != "" {
      details := details + ["Body:"];
      details := AppendPieces(details, Text.SplitOn(req.body.value, '\n'));
    } else {
      details := details + ["Body: (None)"];
    }
  }

  /** `for line in text.split("\n"): details.append(line)`. */
  method AppendPieces(details: seq<string>, pieces: seq<string>) returns (r: seq<string>)
    ensures r == details + pieces
  {
    r := details;
    var j := 0;
    while j < |pieces|
      invariant 0 <= j <= |pieces|
      invariant r == details + pieces[..j]
    {
      assert pieces[..j + 1] == pieces[..j] + [pieces[j]];
      r := r + [pieces[j]];
      j := j + 1;
    }
    assert pieces[..j] == pieces;
  }
}
