/** The request details text of the Rust execution-flow front end: the
    lines `format_request_details` builds for one request, joined with line
    feeds, and the panel's choice between those details and a placeholder. */
module TuiView {
  import opened Wrappers
  import opened Records
  import TuiModel
  import Text

  const RequestMarker := "\U{25BC} Request"
  const ResponseMarker := "\U{25BC} Response"
  const NoRequestSelected := "No request selected"

  function TitleLine(req: ExecutionRequest): string
  {
    "[" + Text.NatToString(req.number) + "] " + req.httpMethod + " " + req.url
  }

  function BodyLines(body: Option<string>): seq<string>
  {
    if body.Some? then ["Body:"] + Text.RustLines(body.value) else ["Body: (None)"]
  }

  function StatusLine(code: U16): string
  {
    "Status: " + Text.NatToString(code) + " OK"
  }

  function StatusLines(code: Option<U16>): seq<string>
  {
    if code.Some? then [StatusLine(code.value)] else []
  }

  function ResponseLines(responseBody: Option<string>): seq<string>
  {
    if responseBody.Some? then Text.RustLines(responseBody.value) else []
  }

  /** The lines of the details text, in order. */
  function DetailLines(req: ExecutionRequest): seq<string>
  {
    [TitleLine(req), "", RequestMarker, "Headers:"] + Text.HeaderLines(req.headers) + BodyLines(req.body)
      + ["", ResponseMarker] + StatusLines(req.statusCode) + ResponseLines(req.responseBody)
  }

  /** `format_request_details`: collects the lines in a list, then joins
      them with line feeds. */
  method FormatRequestDetails(req: ExecutionRequest) returns (text: string)
    ensures text == Text.Join(DetailLines(req), '\n')
  {
    var details := RequestLinesOf(req);
    ghost var withBody := details;
    details := details + [""];
    details := details + [ResponseMarker];
    if req.statusCode.Some? {
      details := details + [StatusLine(req.statusCode.value)];
    }
    assert details == withBody + ["", ResponseMarker] + StatusLines(req.statusCode);
    ghost var withStatus := details;
    if req.responseBody.Some? {
      details := AppendLines(details, Text.RustLines(req.responseBody.value));
    }
    assert details == withStatus + ResponseLines(req.responseBody);
    assert details == DetailLines(req);
    text := Text.Join(details, '\n');
  }

  /** The first half of `format_request_details`: the title, the headers
      one by one, and the body. */
  method RequestLinesOf(req: ExecutionRequest) returns (details: seq<string>)
    ensures details == [TitleLine(req), "", RequestMarker, "Headers:"] + Text.HeaderLines(req.headers) + BodyLines(req.body)
  {
    details := [];
    details := details + [TitleLine(req)];
    details := details + [""];
    details := details + [RequestMarker];
    details := details + ["Headers:"];
    ghost var front := details;
    assert front == [TitleLine(req), "", RequestMarker, "Headers:"];
    var i := 0;
    while i < |req.headers|
      invariant 0 <= i <= |req.headers|
      invariant details == front + Text.HeaderLines(req.headers[..i])
    {
      Text.HeaderLinesSnoc(req.headers, i);
      details := details + [Text.HeaderLine(req.headers[i])];
      i := i + 1;
    }
    assert req.headers[..i] == req.headers;
    if req.body.Some? {
      details := details + ["Body:"];
      details := AppendLines(details, Text.RustLines(req.body.value));
    } else {
      details := details + ["Body: (None)"];
    }
  }

  /** `for line in text.lines() { details.push(line) }`. */
  method AppendLines(details: seq<string>, lines: seq<string>) returns (r: seq<string>)
    ensures r == details + lines
  {
    r := details;
    var j := 0;
    while j < |lines|
      invariant 0 <= j <= |lines|
      invariant r == details + lines[..j]
    {
      assert lines[..j + 1] == lines[..j] + [lines[j]];
      r := r + [lines[j]];
      j := j + 1;
    }
    assert lines[..j] == lines;
  }

  /** Where the body section ends and the response section starts. */
  function ResponseStart(req: ExecutionRequest): nat
  {
    4 + |req.headers| + |BodyLines(req.body)|
  }

  /** The request section: the title, a blank line, the request marker,
      "Headers:", one indented line per header in order, then "Body:" and
      the body's lines, or "Body: (None)". */
  lemma RequestSection(req: ExecutionRequest)
    ensures var lines := DetailLines(req);
      && |lines| >= ResponseStart(req) + 2
      && lines[..4] == [TitleLine(req), "", RequestMarker, "Headers:"]
      && (forall k :: 0 <= k < |req.headers| ==> lines[4 + k] == "  " + req.headers[k].0 + ": " + req.headers[k].1)
      && lines[4 + |req.headers|] == (if req.body.Some? then "Body:" else "Body: (None)")
      && (req.body.Some? ==> lines[5 + |req.headers|..ResponseStart(req)] == Text.RustLines(req.body.value))
  {
    var lines := DetailLines(req);
    var front := [TitleLine(req), "", RequestMarker, "Headers:"] + Text.HeaderLines(req.headers);
    assert lines == front + BodyLines(req.body) + ["", ResponseMarker]
      + StatusLines(req.statusCode) + ResponseLines(req.responseBody);
    assert lines[..4] == front[..4];
    if req.body.Some? {
      assert lines[5 + |req.headers|..ResponseStart(req)] == BodyLines(req.body)[1..];
    }
  }

  /** The response section: a blank line and the marker, then "Status: c OK"
      exactly when a status code is present (the word is "OK" for every
      code), then the response body's lines. */
  lemma ResponseSection(req: ExecutionRequest)
    ensures var lines := DetailLines(req);
      var p := ResponseStart(req);
      && lines[p] == "" && lines[p + 1] == ResponseMarker
      && (req.statusCode.Some? ==> lines[p + 2] == "Status: " + Text.NatToString(req.statusCode.value) + " OK"
                                   && lines[p + 3..] == ResponseLines(req.responseBody))
      && (req.statusCode.None? ==> lines[p + 2..] == ResponseLines(req.responseBody))
  {
    var lines := DetailLines(req);
    var front := [TitleLine(req), "", RequestMarker, "Headers:"] + Text.HeaderLines(req.headers) + BodyLines(req.body);
    assert |front| == ResponseStart(req);
    assert lines == front + (["", ResponseMarker] + StatusLines(req.statusCode) + ResponseLines(req.responseBody));
  }

  /** No line of the details contains a line feed when the method, the URL
      and the headers do not. */
  lemma DetailLinesSingle(req: ExecutionRequest)
    requires '\n' !in req.httpMethod && '\n' !in req.url
    requires forall k :: 0 <= k < |req.headers| ==> '\n' !in req.headers[k].0 && '\n' !in req.headers[k].1
    ensures forall k :: 0 <= k < |DetailLines(req)| ==> '\n' !in DetailLines(req)[k]
  {
    DigitsHaveNoLineFeed(req.number);
    if req.statusCode.Some? {
      DigitsHaveNoLineFeed(req.statusCode.value);
    }
  }

  lemma DigitsHaveNoLineFeed(n: nat)
    ensures '\n' !in Text.NatToString(n)
  {
  }

  /** The lines are only joined: splitting the text at line feeds gives
      them back, so no line feed is added at the end. */
  lemma FormatSplitsBack(req: ExecutionRequest)
    requires '\n' !in req.httpMethod && '\n' !in req.url
    requires forall k :: 0 <= k < |req.headers| ==> '\n' !in req.headers[k].0 && '\n' !in req.headers[k].1
    ensures Text.SplitOn(Text.Join(DetailLines(req), '\n'), '\n') == DetailLines(req)
  {
    DetailLinesSingle(req);
    Text.SplitJoin(DetailLines(req), '\n');
  }

  /** The content of the details panel: the selected request's details, or
      a placeholder when nothing is selected. */
  function DetailsContent(s: TuiModel.ModelState): (text: string)
    ensures s.selectedRequestIndex < |s.requests| ==> text == Text.Join(DetailLines(s.requests[s.selectedRequestIndex]), '\n')
    ensures s.selectedRequestIndex >= |s.requests| ==> text == NoRequestSelected
    ensures text == NoRequestSelected <==> s.selectedRequestIndex >= |s.requests|
  {
    match TuiModel.SelectedRequest(s)
    case None => NoRequestSelected
    case Some(req) =>
      var text := Text.Join(DetailLines(req), '\n');
      assert DetailLines(req)[0] == TitleLine(req) && TitleLine(req)[0] == '[';
      assert text[0] == '[' != NoRequestSelected[0];
      text
  }
}
