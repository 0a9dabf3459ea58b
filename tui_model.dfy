/** The state of the Rust execution-flow front end and its message-driven
    update (an Elm-style state machine): requests and log entries, a
    selection index, the prompt input buffer, the input mode and whether
    the program keeps running. */
module TuiModel {
  import opened Wrappers
  import opened Records
  import opened TuiEvents
  import Text

  datatype RunningState = Running | Done

  /** The fields of `Model` as one value. */
  datatype ModelState = ModelState(
    requests: seq<ExecutionRequest>,
    logEntries: seq<LogEntry>,
    selectedRequestIndex: nat,
    input: string,
    inputMode: InputMode,
    runningState: RunningState)

  /** `Model::new`. */
  const Initial := ModelState([], [], 0, "", Normal, Running)

  const PlanningText := "\U{1F916} Planning..."

  /** `get_selected_request`: the request at the index, if there is one. */
  function SelectedRequest(s: ModelState): (r: Option<ExecutionRequest>)
    ensures r.Some? <==> s.selectedRequestIndex < |s.requests|
    ensures r.Some? ==> r.value == s.requests[s.selectedRequestIndex]
  {
    if s.selectedRequestIndex < |s.requests| then Some(s.requests[s.selectedRequestIndex]) else None
  }

  /** The four entries `submit_prompt` appends for a message. */
  function PromptEntries(message: string): (entries: seq<LogEntry>)
    ensures |entries| == 4
    ensures entries[1].content == "> " + message
    ensures entries[3] == NewLogEntry(Planning, PlanningText)
    ensures forall k :: 0 <= k < 3 ==> entries[k].entryType == UserPrompt && entries[k].requestNumber.None?
    ensures entries[0].content == "" && entries[2].content == ""
  {
    [NewLogEntry(UserPrompt, ""),
     NewLogEntry(UserPrompt, "> " + message),
     NewLogEntry(UserPrompt, ""),
     NewLogEntry(Planning, PlanningText)]
  }

  /** The input with surrounding white space removed (`str::trim`). */
  function Trimmed(input: string): string
  {
    Text.Trim(input, Text.RustIsWhitespace)
  }

  /** What `update` does to the state for one message. */
  function Step(s: ModelState, msg: Message): ModelState
  {
    match msg
    case NavigateUp =>
      if s.selectedRequestIndex > 0 then s.(selectedRequestIndex := s.selectedRequestIndex - 1) else s
    case NavigateDown =>
      if |s.requests| != 0 && s.selectedRequestIndex < |s.requests| - 1
      then s.(selectedRequestIndex := s.selectedRequestIndex + 1) else s
    case EnterEditMode => s.(inputMode := Editing)
    case ExitEditMode => s.(inputMode := Normal)
    case InputChar(c) => s.(input := s.input + [c])
    case DeleteChar => if s.input == [] then s else s.(input := s.input[..|s.input| - 1])
    case SubmitPrompt =>
      var message := Trimmed(s.input);
      var entries := if message != [] then s.logEntries + PromptEntries(message) else s.logEntries;
      s.(logEntries := entries, input := "", inputMode := Normal)
    case Quit => s.(runningState := Done)
  }

  /** The selection is at most the last index, or 0 for no requests. */
  predicate IndexInBounds(s: ModelState)
  {
    s.selectedRequestIndex <= if |s.requests| == 0 then 0 else |s.requests| - 1
  }

  /** No message changes the requests, and every message keeps the
      selection within bounds. */
  lemma StepPreservesBounds(s: ModelState, msg: Message)
    requires IndexInBounds(s)
    ensures IndexInBounds(Step(s, msg))
    ensures Step(s, msg).requests == s.requests
  {
  }

  /** Navigation moves by one and only away from the ends; on an empty list
      both directions leave the index alone. */
  lemma NavigationMoves(s: ModelState)
    ensures var t := Step(s, NavigateUp);
      (t.selectedRequestIndex < s.selectedRequestIndex <==> s.selectedRequestIndex > 0)
      && (t.selectedRequestIndex == s.selectedRequestIndex || t.selectedRequestIndex == s.selectedRequestIndex - 1)
      && t.(selectedRequestIndex := s.selectedRequestIndex) == s
    ensures var t := Step(s, NavigateDown);
      (t.selectedRequestIndex > s.selectedRequestIndex <==> s.selectedRequestIndex + 1 < |s.requests|)
      && (t.selectedRequestIndex == s.selectedRequestIndex || t.selectedRequestIndex == s.selectedRequestIndex + 1)
      && t.(selectedRequestIndex := s.selectedRequestIndex) == s
    ensures s.requests == [] ==> Step(s, NavigateUp).selectedRequestIndex == Step(Step(s, NavigateUp), NavigateDown).selectedRequestIndex
  {
  }

  /** Typing a character and deleting it restores the input; deleting from
      an empty input does nothing. */
  lemma TypeThenDelete(s: ModelState, c: char)
    ensures Step(s, InputChar(c)).input == s.input + [c]
    ensures Step(Step(s, InputChar(c)), DeleteChar) == s
    ensures s.input == [] ==> Step(s, DeleteChar) == s
  {
    assert (s.input + [c])[..|s.input|] == s.input;
  }

  /** Submitting always empties the input and returns to normal mode; it
      appends the four prompt entries exactly when the trimmed input is not
      empty, and nothing for white space only. */
  lemma SubmitPromptEffect(s: ModelState)
    ensures var t := Step(s, SubmitPrompt);
      && t.input == "" && t.inputMode == Normal
      && t.requests == s.requests && t.selectedRequestIndex == s.selectedRequestIndex
      && t.runningState == s.runningState
      && ((forall k :: 0 <= k < |s.input| ==> Text.RustIsWhitespace(s.input[k])) ==> t.logEntries == s.logEntries)
      && ((exists k :: 0 <= k < |s.input| && !Text.RustIsWhitespace(s.input[k])) ==>
            t.logEntries == s.logEntries + PromptEntries(Trimmed(s.input)))
      && |t.logEntries| == |s.logEntries| + (if Trimmed(s.input) == [] then 0 else 4)
  {
    Text.TrimProperties(s.input, Text.RustIsWhitespace);
  }

  /** The mode switches do not look at the current mode, and quitting
      touches only the running state. */
  lemma ModesAndQuit(s: ModelState)
    ensures Step(s, EnterEditMode) == s.(inputMode := Editing)
    ensures Step(Step(s, EnterEditMode), EnterEditMode) == Step(s, EnterEditMode)
    ensures Step(s, ExitEditMode) == s.(inputMode := Normal)
    ensures Step(s, Quit).runningState == Done && Step(s, Quit).(runningState := s.runningState) == s
  {
  }

  /** A prompt without white space at its ends is logged verbatim, as
      "test prompt" is in the model's submission test. */
  lemma SubmitUntrimmed(s: ModelState)
    requires s.input != [] && !Text.RustIsWhitespace(s.input[0]) && !Text.RustIsWhitespace(s.input[|s.input| - 1])
    ensures Step(s, SubmitPrompt).logEntries == s.logEntries + PromptEntries(s.input)
    ensures Step(s, SubmitPrompt).logEntries[|s.logEntries| + 1].content == "> " + s.input
  {
    Text.TrimUnchanged(s.input, Text.RustIsWhitespace);
    SubmitPromptEffect(s);
    assert !Text.RustIsWhitespace(s.input[0]);
  }

  /** White space only adds nothing. */
  lemma SubmitBlankExample()
    ensures Step(Initial.(input := "   ", inputMode := Editing), SubmitPrompt).logEntries == []
  {
    var s := Initial.(input := "   ", inputMode := Editing);
    assert forall k :: 0 <= k < |s.input| ==> s.input[k] == ' ';
    SubmitPromptEffect(s);
  }

  /** `Model`, updated in place by `update`. */
  class Model {
    var requests: seq<ExecutionRequest>
    var logEntries: seq<LogEntry>
    var selectedRequestIndex: nat
    var input: string
    var inputMode: InputMode
    var runningState: RunningState

    function State(): ModelState
      reads this
    {
      ModelState(requests, logEntries, selectedRequestIndex, input, inputMode, runningState)
    }

    /** `Model::new` (and `Default`). */
    constructor ()
      ensures State() == Initial
    {
      requests := [];
      logEntries := [];
      selectedRequestIndex := 0;
      input := "";
      inputMode := Normal;
      runningState := Running;
    }

    /** `get_selected_request`. */
    function GetSelectedRequest(): (r: Option<ExecutionRequest>)
      reads this
      ensures r.Some? <==> selectedRequestIndex < |requests|
      ensures r.Some? ==> r.value == requests[selectedRequestIndex]
    {
      SelectedRequest(State())
    }

    /** `submit_prompt`: pushes the four entries. */
    method SubmitPromptEntries(message: string)
      modifies this
      ensures State() == old(State()).(logEntries := old(logEntries) + PromptEntries(message))
    {
      logEntries := logEntries + [NewLogEntry(UserPrompt, "")];
      logEntries := logEntries + [NewLogEntry(UserPrompt, "> " + message)];
      logEntries := logEntries + [NewLogEntry(UserPrompt, "")];
      logEntries := logEntries + [NewLogEntry(Planning, PlanningText)];
    }

    /** `update`: applies one message and never chains another. */
    method Update(msg: Message) returns (next: Option<Message>)
      modifies this
      ensures next == None
      ensures State() == Step(old(State()), msg)
    {
      match msg {
        case NavigateUp =>
          if selectedRequestIndex > 0 {
            selectedRequestIndex := selectedRequestIndex - 1;
          }
        case NavigateDown =>
          if |requests| != 0 && selectedRequestIndex < |requests| - 1 {
            selectedRequestIndex := selectedRequestIndex + 1;
          }
        case EnterEditMode =>
          inputMode := Editing;
        case ExitEditMode =>
          inputMode := Normal;
        case InputChar(c) =>
          input := input + [c];
        case DeleteChar =>
          if input != [] {
            input := input[..|input| - 1];
          }
        case SubmitPrompt =>
          var message := Trimmed(input);
          if message != [] {
            SubmitPromptEntries(message);
          }
          input := "";
          inputMode := Normal;
        case Quit =>
          runningState := Done;
      }
      next := None;
    }
  }

  // ---------------------------------------------------------------------
  // create_dummy_model
  // ---------------------------------------------------------------------

  const ContentTypeJson: seq<(string, string)> := [("Content-Type", "application/json")]

  const DummyRequests: seq<ExecutionRequest> := [
    WithResponse(WithHeaders(NewRequest(1, "GET", "/api/users"), ContentTypeJson),
                 200, "[{\"id\": 1, \"email\": \"old@example.com\"}, ...]", 145),
    WithResponse(WithBody(WithHeaders(NewRequest(2, "POST", "/api/users/1"), ContentTypeJson),
                          "{\n  \"email\": \"new@example.com\"\n}"),
                 200, "{\n  \"id\": 1,\n  \"email\": \"new@example.com\"\n}", 89)
  ]

  const DummyLog: seq<LogEntry> := [
    NewLogEntry(UserPrompt, "> get all users and update first email"),
    NewLogEntry(UserPrompt, ""),
    NewLogEntry(Planning, PlanningText),
    NewLogEntry(Discovery, "\U{2713} Found: GET /api/users"),
    NewLogEntry(Discovery, "\U{2713} Found: POST /api/users"),
    NewLogEntry(UserPrompt, ""),
    NewLogEntry(ExecutionStart, "\U{1F504} Executing:"),
    WithRequestNumber(NewLogEntry(RequestExec, "[1] GET /api/users"), 1),
    WithRequestNumber(NewLogEntry(RequestResult, "    \U{2713} 200 OK (145ms)"), 1),
    WithRequestNumber(NewLogEntry(RequestExec, "[2] POST /api/users/1"), 2),
    WithRequestNumber(NewLogEntry(RequestResult, "    \U{2713} 200 OK (89ms)"), 2)
  ]

  /** `create_dummy_model`: a fresh model, filled step by step. */
  method CreateDummyModel() returns (model: Model)
    ensures fresh(model)
    ensures model.State() == Initial.(requests := DummyRequests, logEntries := DummyLog, selectedRequestIndex := 1)
  {
    model := new Model();
    var i := 0;
    while i < |DummyLog|
      invariant 0 <= i <= |DummyLog|
      invariant model.State() == Initial.(logEntries := DummyLog[..i])
      modifies model
    {
      model.logEntries := model.logEntries + [DummyLog[i]];
      assert DummyLog[..i + 1] == DummyLog[..i] + [DummyLog[i]];
      i := i + 1;
    }
    model.requests := model.requests + [DummyRequests[0]];
    model.requests := model.requests + [DummyRequests[1]];
    model.selectedRequestIndex := 1;
  }

  /** The dummy model selects the second of its two requests, number 2,
      within bounds. */
  lemma DummyModelFacts()
    ensures var s := Initial.(requests := DummyRequests, logEntries := DummyLog, selectedRequestIndex := 1);
      && |s.requests| == 2 && |s.logEntries| == 11
      && IndexInBounds(s)
      && SelectedRequest(s).Some? && SelectedRequest(s).value.number == 2
      && s.inputMode == Normal && s.runningState == Running
  {
  }
}
