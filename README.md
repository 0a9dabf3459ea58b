# cozyreq in Dafny

This project models the core of cozyreq, a terminal tool that runs an AI
agent against an HTTP API described by an OpenAPI document and shows what
the agent did. The model covers five parts of the repository:

- **The Textual viewer.** Its data records are tool calls, log entries and
  agent runs. Its widgets are the status badge, the tool-call item and
  list, the tool-details panel, the log table and filter bar, and the logs
  screen. The application object loads the latest run and switches
  screens.
- **The OpenAPI endpoint extractor and its table formatter.** It collects
  one endpoint per HTTP-method key of every path item, sorts them stably by
  (path, method), and formats them as table rows.
- **The legacy Textual prototype.** This is its request list, the details
  text, prompt submission and key navigation.
- **The Rust ratatui front end.** This covers the Elm-style model,
  messages, key handling and details view (`crates/tui`). It also covers
  the request and log-entry builders and the counter components
  (`crates/cozyreq`).
- **The agent crate.** This covers its error texts and the conversation
  types. It also covers the three demonstration tools, the conversion of
  the history to the Messages API wire format, and the agent loop:
  - call the model;
  - stop on `end_turn`;
  - run the requested tools;
  - answer with tool results;
  - stop on cancellation.

Each source file is one Dafny module, and the Dafny file takes the file's
form:

- Widgets that update their fields become classes with `modifies` frames.
- Loops keep their loops, proved against specification functions.
- Pure code becomes functions with lemmas.

Shared helpers live in `Wrappers` (Option and Result), `Text` (characters,
digits, splitting and joining, header lines), `Json` (a JSON value whose object is an
ordered member list), `Seqs` (filter, count, subsequence), `Rich` (styled
spans) and `Keys` (crossterm key events).

Some parts of the system are inputs to the model, not parts of it:

- Python's `str.lower()` is the parameter `lower`.
- Float formatting (`:.3f`, `:.1f`) is the parameters `fixed3` and `fixed1`.
- JSON pretty-printing is `prettyJson`.
- The rendering of a rich table is `renderTable`.
- The database's answers are the arguments of `App.TuiApp.OnMount`.
- The Claude API is an oracle from request to response (`api`).
- The cancellation token is a function from iteration number to flag.
- The `ANTHROPIC_API_KEY` environment variable is an `Option<string>`.

Two behaviours of the code are easy to miss:

- An empty set of active log filters shows every log. Only the non-empty
  subsets filter (`log_table.py` lines 126-130), so turning every filter
  off shows all entries, not none.
- The duration badge and label say "Queued" for a finished call that has
  no duration. They say "Running..." only when the status is running.

A YAML or JSON object is an ordered member list. The document given to
`parse_openapi_endpoints` is a Python dict, so every object in it binds
each key once (`Json.UniqueKeys`); `OpenApi.ParseEndpoints` requires this
of its input, and `Json.LookupUnique` shows that a lookup then finds the
only binding.

Two pieces of the source are duplicated and are modelled once:

- `crates/tui/src/model.rs` repeats the `ExecutionRequest`/`LogEntry`
  builders of `crates/cozyreq/src/lib.rs`. `Records` models them for both.
- The two counter components are the same code. `Counter` models both.

## Model

| member | source | states |
|---|---|---|
| TuiModels.StatusLiteral | src/cozyreq/tui/models.py:5 | a tool-call status is one of the four literals queued/running/success/failed |
| TuiModels.LogTypeLiteral | src/cozyreq/tui/models.py:6 | a log type is one of INFO/TOOL/ERROR/DEBUG |
| TuiModels.RunStatusLiteral | src/cozyreq/tui/models.py:7 | a run status is one of running/completed/failed |
| TuiModels.LiteralsDistinct | src/cozyreq/tui/models.py:5-7 | distinct enumeration values have distinct literals, and there are exactly four log types |
| TuiModels.Duration | src/cozyreq/tui/models.py:44-48 | a run has a duration exactly when it has an end time, and start plus duration is the end |
| TuiModels.DurationExamples | src/cozyreq/tui/models.py:44-48 | a run from 12:00:00 to 12:02:34 lasts 154 s; an unfinished run has no duration |
| TuiModels.DurationLabel | src/cozyreq/tui/widgets/tool_call_item.py:60-65 | the label is the formatted seconds with "s", else "Running..." for a running call, else "Queued" |
| TuiModels.ClockOf | src/cozyreq/tui/widgets/tool_call_item.py:57 | hour, minute and second of a timestamp are in range and the day part is a whole number of days |
| TuiModels.TimeOfDay | src/cozyreq/tui/widgets/tool_call_item.py:57 | `%H:%M:%S` is eight characters with colons at positions 2 and 5, and its three digit pairs read back as the hour, minute and second of the timestamp's clock |
| TuiModels.ClockOfAt | src/cozyreq/tui/widgets/log_table.py:80 | the clock read from a timestamp built from hour, minute and second gives those back |
| TuiModels.TimeOfDayExample | src/cozyreq/tui/widgets/log_table.py:80 | 12:34:01 formats as "12:34:01" |
| StatusBadge.StatusIcon | src/cozyreq/tui/widgets/status_badge.py:40-49 | every tool-call status has a non-empty icon |
| StatusBadge.Icon | src/cozyreq/tui/widgets/status_badge.py:40-49 | only an unknown badge type has no icon; duration and size badges share the grey bar icon |
| StatusBadge.RenderShows | src/cozyreq/tui/widgets/status_badge.py:52-60 | the plain text is icon, space and text (only the text for an unknown type); the text span takes the status colour, or grey for other badges |
| StatusBadge.StatusBadge.constructor | src/cozyreq/tui/widgets/status_badge.py:14-36 | the badge holds the given type and text |
| StatusBadge.StatusBadge.UpdateStatus | src/cozyreq/tui/widgets/status_badge.py:64-74 | the badge now holds the new type and text and is rendered from them |
| ToolCallItem.Truncate | src/cozyreq/tui/widgets/tool_call_item.py:46-50 | short text is unchanged; long text keeps max-3 characters and gains "...", never exceeding the limit |
| ToolCallItem.TruncateIsPrefix | src/cozyreq/tui/widgets/tool_call_item.py:46-50 | a truncation is a prefix of the text or such a prefix followed by "..." |
| ToolCallItem.RenderShape | src/cozyreq/tui/widgets/tool_call_item.py:52-98 | the item has a fourth line exactly when there is a non-empty result summary; summary and result are cut to 50 and 30 characters; all lines but the first are bright black |
| ToolCallItem.SelectionAddsCursor | src/cozyreq/tui/widgets/tool_call_item.py:71-77 | selecting only adds the cursor at the end of the first line; its colour and the other lines are unchanged |
| ToolCallItem.ToolCallItem.constructor | src/cozyreq/tui/widgets/tool_call_item.py:12-34 | the item holds its call and selection and its renderable is built from them |
| ToolCallItem.ToolCallItem.UpdateRenderable | src/cozyreq/tui/widgets/tool_call_item.py:52-98 | the renderable is rebuilt from the unchanged call and selection |
| ToolCallItem.ToolCallItem.SetSelected | src/cozyreq/tui/widgets/tool_call_item.py:100-108 | the selection flag is set and the renderable follows it |
| ToolCallList.MovesKeepIndexOk | src/cozyreq/tui/widgets/tool_call_list.py:85-99 | next and previous keep the index legal, move by at most one, stay put exactly at the ends, and undo each other |
| ToolCallList.CompletedCountProperties | src/cozyreq/tui/widgets/tool_call_list.py:76-78 | the completed count never exceeds the list, equals it iff every call succeeded, and adds over concatenation |
| ToolCallList.ToolCallList.constructor | src/cozyreq/tui/widgets/tool_call_list.py:33-52 | the list starts at index 0 when non-empty, -1 otherwise, with one fresh item per call |
| ToolCallList.BuildItems | src/cozyreq/tui/widgets/tool_call_list.py:55-75 | one fresh, distinct, valid item per call, in order, and only the item at the selected index is highlighted |
| ToolCallList.ToolCallList.TotalCount | src/cozyreq/tui/widgets/tool_call_list.py:76-83 | the total counts every call, is never below the completed count, and equals it exactly when every call has succeeded |
| ToolCallList.Title | src/cozyreq/tui/widgets/tool_call_list.py:58-61 | the title is the call count between fixed words, and the count reads back from it |
| ToolCallList.ToolCallList.SelectNext | src/cozyreq/tui/widgets/tool_call_list.py:85-91 | the index moves to the next call if any, and a selection message is posted exactly when it moved |
| ToolCallList.ToolCallList.SelectPrevious | src/cozyreq/tui/widgets/tool_call_list.py:93-99 | the index moves to the previous call if any, and a selection message is posted exactly when it moved |
| ToolCallList.ToolCallList.UpdateSelection | src/cozyreq/tui/widgets/tool_call_list.py:101-126 | the index becomes the new one, only that item is selected, and the selected call and index are posted |
| ToolDetailsPanel.CapitalizedIsLiteral | src/cozyreq/tui/widgets/tool_details_panel.py:48 | the status badge text is the status literal with its first letter upper-cased |
| ToolDetailsPanel.SizeText | src/cozyreq/tui/widgets/tool_details_panel.py:60-66 | sizes below 1024 print in bytes, larger ones as kilobytes with one decimal |
| ToolDetailsPanel.ContentWidget | src/cozyreq/tui/widgets/tool_details_panel.py:81-99 | valid JSON shows pretty-printed, anything else verbatim |
| ToolDetailsPanel.ResponseWidget | src/cozyreq/tui/widgets/tool_details_panel.py:149-152 | a missing or empty response shows "no response yet", otherwise the content widget of the response |
| ToolDetailsPanel.ToolDetailsPanel.constructor | src/cozyreq/tui/widgets/tool_details_panel.py:101-154 | the panel shows the call, with a third badge exactly when the call has a size |
| ToolDetailsPanel.NewBadges | src/cozyreq/tui/widgets/tool_details_panel.py:46-68 | the badges are fresh and show the status, the duration and, exactly when the size is known, the size text |
| ToolDetailsPanel.ToolDetailsPanel.UpdateToolCall | src/cozyreq/tui/widgets/tool_details_panel.py:101-154 | the panel shows the new call; an existing size badge gets the new size, or keeps its text when there is none |
| LogTable.VisibleIsFilter | src/cozyreq/tui/widgets/log_table.py:119-137 | the visible logs are the logs that pass the type filter and the search, in order |
| LogTable.VisibleMembers | src/cozyreq/tui/widgets/log_table.py:119-137 | a log is visible iff it is in the table and passes both criteria; the visible logs are a subsequence |
| LogTable.NoCriteriaShowsAll | src/cozyreq/tui/widgets/log_table.py:119-137 | with all or no types and an empty search every log is visible |
| LogTable.EmptyAndAllAgree | src/cozyreq/tui/widgets/log_table.py:126-130 | no active filter and all four filters show the same logs |
| LogTable.TruncateMessage | src/cozyreq/tui/widgets/log_table.py:65-70 | the cell is the first line, cut to 77 characters plus "..." when longer than 80, never longer than 80 nor spanning lines |
| LogTable.RowsOf | src/cozyreq/tui/widgets/log_table.py:72-97 | one row per log, each built from that log |
| LogTable.RowsOfSnoc | src/cozyreq/tui/widgets/log_table.py:72-97 | adding a log adds its row at the end |
| LogTable.LogTable.constructor | src/cozyreq/tui/widgets/log_table.py:30-33 | all logs shown, all filters active, no search |
| LogTable.LogTable.OnMount | src/cozyreq/tui/widgets/log_table.py:35-43 | the rows are those of the shown logs |
| LogTable.LogTable.UpdateRows | src/cozyreq/tui/widgets/log_table.py:72-97 | the rows are rebuilt, one per shown log |
| LogTable.LogTable.FilterLogs | src/cozyreq/tui/widgets/log_table.py:99-107 | the filters are stored and the shown logs are those visible under them and the current search |
| LogTable.LogTable.SearchLogs | src/cozyreq/tui/widgets/log_table.py:109-117 | the lower-cased query is stored and the shown logs are those visible under it and the current filters |
| LogTable.LogTable.ApplyFilters | src/cozyreq/tui/widgets/log_table.py:119-137 | the shown logs are recomputed from both criteria and the rows follow |
| LogTableExamples.TypeFilterCounts | tests/tui/widgets/test_log_table.py:42-78 | filtering the sample logs by one type or several gives the expected counts |
| LogTableExamples.InitializedMatches | tests/tui/widgets/test_log_table.py:79-128 | a search for "initialized" matches exactly the expected sample log |
| LogTableExamples.WebMatches | tests/tui/widgets/test_log_table.py:79-128 | a search for "web" matches exactly the expected sample log |
| LogTableExamples.SearchInitialized | tests/tui/widgets/test_log_table.py:79-128 | the visible logs for "initialized" are that one log |
| LogTableExamples.SearchWeb | tests/tui/widgets/test_log_table.py:79-128 | the visible logs for "web" are that one log |
| LogTableExamples.SearchCleared | tests/tui/widgets/test_log_table.py:79-128 | clearing the search shows every log again |
| LogTableExamples.FilterThenSearch | tests/tui/widgets/test_log_table.py:142-186 | combining a type filter with a search keeps only logs meeting both |
| LogFilterBar.Toggle | src/cozyreq/tui/widgets/log_filter_bar.py:72-88 | toggling flips membership of that type and leaves every other type as it was |
| LogFilterBar.ToggleTwice | src/cozyreq/tui/widgets/log_filter_bar.py:72-88 | toggling twice restores the filters |
| LogFilterBar.FourMeansAll | src/cozyreq/tui/widgets/log_filter_bar.py:124-141 | four active filters is the same as all types active |
| LogFilterBar.ButtonType | src/cozyreq/tui/widgets/log_filter_bar.py:124-141 | each filter button id names exactly its type, other ids none |
| LogFilterBar.PressEffectCases | src/cozyreq/tui/widgets/log_filter_bar.py:124-141 | "All" clears a full set and fills any other; a type button toggles its type; other buttons change nothing |
| LogFilterBar.AllTwice | src/cozyreq/tui/widgets/log_filter_bar.py:124-141 | one press of "All" leaves all types or none active, and a second press switches to the other |
| LogFilterBar.LogFilterBar.constructor | src/cozyreq/tui/widgets/log_filter_bar.py:41-58 | all four filters start active and nothing is posted |
| LogFilterBar.LogFilterBar.UpdateButtonStyles | src/cozyreq/tui/widgets/log_filter_bar.py:105-122 | the button styles follow the filters, which are unchanged |
| LogFilterBar.LogFilterBar.ToggleFilter | src/cozyreq/tui/widgets/log_filter_bar.py:72-88 | the type is toggled and a filter-changed message with the new set is posted |
| LogFilterBar.LogFilterBar.SetAllFilters | src/cozyreq/tui/widgets/log_filter_bar.py:90-103 | all types or none become active and the new set is posted |
| LogFilterBar.LogFilterBar.OnButtonPressed | src/cozyreq/tui/widgets/log_filter_bar.py:124-141 | a recognised button applies its effect and posts the new set; any other changes nothing |
| LogFilterBar.LogFilterBar.OnInputChanged | src/cozyreq/tui/widgets/log_filter_bar.py:143-146 | a change in the search box posts its value; other inputs post nothing |
| LogsScreen.LogsScreen.constructor | src/cozyreq/tui/screens/logs_screen.py:33-44 | a fresh filter bar and a table showing every log |
| LogsScreen.LogsScreen.PressButton | src/cozyreq/tui/screens/logs_screen.py:46-49 | after a button press the table's logs and its rows are those visible under the bar's new filters; an unknown button changes nothing |
| LogsScreen.LogsScreen.TypeSearch | src/cozyreq/tui/screens/logs_screen.py:51-54 | after typing the table's logs and its rows are those visible under the lower-cased query |
| LogsScreen.AllOffShowsEverything | src/cozyreq/tui/screens/logs_screen.py:46-49 | turning every filter off through "All" shows the same logs as all filters on |
| App.DurationString | src/cozyreq/tui/app.py:73-78 | no duration shows "00:00" |
| App.DurationStringReadsBack | src/cozyreq/tui/app.py:73-78 | for runs under 100 minutes the MM:SS digits read back as the whole minutes and remaining seconds |
| App.PadDigits | src/cozyreq/tui/app.py:73-78 | a two-digit pad is two digits that read back as the number |
| App.DurationStringExamples | src/cozyreq/tui/app.py:73-78 | 154 s shows "02:34", -1 s shows "-1:59" under floor division, zero shows "00:00" |
| App.ShowScreen | src/cozyreq/tui/app.py:112-122 | the target screen becomes current, with a switch recorded only when it was not already current |
| App.ShowScreenIdempotent | src/cozyreq/tui/app.py:112-122 | showing the current screen again changes nothing; showing another records one switch |
| App.TuiApp.constructor | src/cozyreq/tui/app.py:46-50 | no run loaded, no header, no screens installed |
| App.TuiApp.OnMount | src/cozyreq/tui/app.py:59-105 | an error or no run shows an error header; otherwise the run's id and header, installed screens and the tool-call screen pushed; without a run the run id is kept |
| App.TuiApp.ShowError | src/cozyreq/tui/app.py:107-110 | the header becomes the error text; nothing else changes |
| App.TuiApp.ActionShowToolCalls | src/cozyreq/tui/app.py:112-116 | the tool-call screen is shown; the run id, header and screens are kept |
| App.TuiApp.ActionShowLogs | src/cozyreq/tui/app.py:118-122 | the logs screen is shown; the run id, header and screens are kept |
| OpenApi.EndpointDefaults | src/cozyreq/openapi.py:140-146 | summary, description and operation id are read from the operation, null when absent |
| OpenApi.ItemEndpoints | src/cozyreq/openapi.py:127-147 | every endpoint of a path item carries that item's path |
| OpenApi.ItemEndpointsCount | src/cozyreq/openapi.py:127-139 | one endpoint per method key whose operation is an object |
| OpenApi.CollectCount | src/cozyreq/openapi.py:122-147 | the endpoint count is the sum of the counts of the object path items |
| OpenApi.ItemEndpointsSound | src/cozyreq/openapi.py:127-147 | every endpoint is built from some method entry of the item |
| OpenApi.ItemEndpointsComplete | src/cozyreq/openapi.py:127-147 | every method entry of the item yields its endpoint |
| OpenApi.ItemEndpointsMembers | src/cozyreq/openapi.py:127-147 | an endpoint is produced iff some method entry of the item builds it |
| OpenApi.CollectSound | src/cozyreq/openapi.py:122-147 | every collected endpoint comes from an object path item of the document |
| OpenApi.CollectComplete | src/cozyreq/openapi.py:122-147 | every endpoint of every object path item is collected |
| OpenApi.CollectMembers | src/cozyreq/openapi.py:122-147 | an endpoint is collected iff the document defines it |
| OpenApi.UpperOfLower | src/cozyreq/openapi.py:127-141 | upper-casing after lower-casing is upper-casing |
| OpenApi.RecognisedMethodUpper | src/cozyreq/openapi.py:127-141 | an accepted method key upper-cases to one of the seven method names |
| OpenApi.KeyLtIrreflexive | src/cozyreq/openapi.py:150 | the (path, method) order is irreflexive |
| OpenApi.KeyLtTransitive | src/cozyreq/openapi.py:150 | the (path, method) order is transitive |
| OpenApi.KeyLtTotal | src/cozyreq/openapi.py:150 | any two endpoints have the same key or are ordered one way |
| OpenApi.KeyLtAsymmetric | src/cozyreq/openapi.py:150 | the order is asymmetric and strict |
| OpenApi.Insert | src/cozyreq/openapi.py:150 | insertion adds exactly the one element |
| OpenApi.InsertSorted | src/cozyreq/openapi.py:150 | inserting into a sorted list keeps it sorted |
| OpenApi.SortByKeySorted | src/cozyreq/openapi.py:150 | the sorted endpoints are ordered by (path, method) |
| OpenApi.SortByKeyPermutation | src/cozyreq/openapi.py:150 | sorting is a permutation |
| OpenApi.InsertStable | src/cozyreq/openapi.py:150 | insertion places a new element after those with an equal key |
| OpenApi.NoneWithKey | src/cozyreq/openapi.py:150 | a sorted list whose head is above a key holds nothing with that key |
| OpenApi.FilterNone | src/cozyreq/openapi.py:150 | filtering out every element leaves nothing |
| OpenApi.SortByKeyStable | src/cozyreq/openapi.py:150 | endpoints with the same key keep their document order |
| OpenApi.AppendOperations | src/cozyreq/openapi.py:127-147 | the loop over a path item appends exactly that item's endpoints |
| OpenApi.ParseOpenApiEndpoints | src/cozyreq/openapi.py:122-150 | the loop over the paths computes the specified parse |
| Json.LookupUnique | src/cozyreq/openapi.py:123 | in an object with distinct keys, looking a key up finds its one binding |
| OpenApi.ParseEndpointsOutcome | src/cozyreq/openapi.py:122-126 | parsing fails iff "paths" is present but not an object, with the `AttributeError` text that names the value's Python type; absent or empty paths give no endpoints |
| OpenApi.ParseEndpointsSorted | src/cozyreq/openapi.py:150 | the parsed endpoints are the collected ones sorted by key |
| OpenApi.ParseEndpointsStable | src/cozyreq/openapi.py:150 | parsed endpoints with one key appear in document order |
| OpenApi.ParseEndpointsMembers | src/cozyreq/openapi.py:122-150 | an endpoint is parsed iff the document defines it, and its method is upper-case |
| OpenApi.IgnoredKeys | src/cozyreq/openapi.py:127-137 | a path-item key that is not a method adds no endpoint |
| OpenApi.TraceAndParametersIgnored | src/cozyreq/openapi.py:127-137 | "trace", "TRACE" and "parameters" are not method keys |
| OpenApi.MethodStyle | src/cozyreq/openapi.py:168-176 | the seven methods have a colour of their own, anything else is white |
| OpenApi.RowOf | src/cozyreq/openapi.py:164-185 | a row shows the path, the styled method, and the summary or "No summary available" |
| OpenApi.FormatEndpointsList | src/cozyreq/openapi.py:156-185 | no endpoints shows the empty message, otherwise the table of their rows in order |
| OpenApi.ParsedRowsSorted | src/cozyreq/openapi.py:149-185 | listing the parsed endpoints gives one row per endpoint, ordered by path and, within a path, by method |
| Records.NewRequest | crates/cozyreq/src/lib.rs:19-30 | a new request carries its number, method and URL and nothing else |
| Records.WithHeaders | crates/cozyreq/src/lib.rs:32-35 | the headers are replaced and nothing else changes |
| Records.WithBody | crates/cozyreq/src/lib.rs:37-40 | the body is set and nothing else changes |
| Records.WithResponse | crates/cozyreq/src/lib.rs:42-47 | status, response body and duration are set and nothing else changes |
| Records.BuildersCommute | crates/cozyreq/src/lib.rs:32-47 | the builders may be applied in any order |
| Records.BuildersLastWins | crates/cozyreq/src/lib.rs:32-40 | a later header or body call overrides an earlier one |
| Records.BuilderChainExample | crates/tui/src/model.rs:335-353 | the builder chain of the unit test gives the expected request |
| Records.DisplayName | crates/cozyreq/src/lib.rs:61-72 | every entry type displays as a non-empty snake-case name |
| Records.ParseDisplayName | crates/cozyreq/src/lib.rs:61-72 | the display name reads back as the entry type |
| Records.DisplayNameInjective | crates/cozyreq/src/lib.rs:61-72 | different entry types have different names |
| Records.NewLogEntry | crates/cozyreq/src/lib.rs:83-89 | a new entry carries its type and content and no request number |
| Records.WithRequestNumber | crates/cozyreq/src/lib.rs:91-94 | the request number is set and nothing else changes |
| TuiEvents.HandleNormalMode | crates/tui/src/events.rs:39-47 | q quits, i edits, up and down navigate, and nothing else maps |
| TuiEvents.HandleEditingMode | crates/tui/src/events.rs:50-58 | Enter submits, Backspace deletes, Esc leaves, every character is typed, nothing else maps |
| TuiEvents.HandleKey | crates/tui/src/events.rs:31-36 | quit, edit and navigation messages come only from normal mode, typing, deleting, submitting and leaving only from editing mode; only q in normal mode quits, and every typed character in editing mode, q included, is input |
| TuiEvents.ModifiersIgnored | crates/tui/src/events.rs:140-147 | modifiers never change the message, so Ctrl+q still quits |
| TuiEvents.ModesSeparate | crates/tui/src/events.rs:31-58 | normal mode never yields editing messages and editing mode never yields normal ones |
| TuiModel.SelectedRequest | crates/tui/src/model.rs:139-141 | the selection is present iff the index is within the requests, and then it is that request |
| TuiModel.PromptEntries | crates/tui/src/model.rs:194-212 | a submission logs a blank line, the prompt after "> ", a blank line and the planning entry |
| TuiModel.StepPreservesBounds | crates/tui/src/model.rs:153-191 | no message moves the selection out of the requests or changes them |
| TuiModel.NavigationMoves | crates/tui/src/model.rs:153-191 | up and down move by one within bounds and stop at the ends |
| TuiModel.TypeThenDelete | crates/tui/src/model.rs:153-191 | typing appends a character and deleting then restores the state |
| TuiModel.SubmitPromptEffect | crates/tui/src/model.rs:194-212 | a submission clears the input and returns to normal mode, logging the trimmed prompt only when non-blank |
| TuiModel.ModesAndQuit | crates/tui/src/model.rs:153-191 | entering and leaving edit mode change only the mode; quitting changes only the running state |
| TuiModel.SubmitUntrimmed | crates/tui/src/model.rs:194-212 | a prompt without surrounding space is logged as typed |
| TuiModel.SubmitBlankExample | crates/tui/src/model.rs:495-532 | submitting spaces logs nothing |
| TuiModel.Model.constructor | crates/tui/src/model.rs:127-137 | the model starts in the initial state |
| TuiModel.Model.GetSelectedRequest | crates/tui/src/model.rs:139-141 | the selected request iff the index is in range |
| TuiModel.Model.SubmitPromptEntries | crates/tui/src/model.rs:194-212 | the four prompt entries are appended to the log and nothing else changes |
| TuiModel.Model.Update | crates/tui/src/model.rs:153-191 | the state moves by the specified step and no follow-up message is returned |
| TuiModel.CreateDummyModel | crates/tui/src/model.rs:215-300 | the dummy model holds the sample requests and log, with the second request selected |
| TuiModel.DummyModelFacts | crates/tui/src/model.rs:379-386 | the dummy model has two requests and eleven log entries, in normal mode, with request number 2 selected |
| Text.HeaderLines | crates/tui/src/view.rs:125-127 | one line per header, in order, from which each header whose name has no colon reads back |
| Text.HeaderLineReadsBack | cozyreq/tui.py:181-182 | a header line parses back into its name and value when the name has no colon |
| TuiView.FormatRequestDetails | crates/tui/src/view.rs:116-146 | the loop builds the specified detail lines joined by line feeds |
| TuiView.AppendLines | crates/tui/src/view.rs:116-146 | the lines are appended in order |
| TuiView.RequestSection | crates/tui/src/view.rs:116-146 | the text opens with the title, the request marker, the headers and the body or "(None)" |
| TuiView.ResponseSection | crates/tui/src/view.rs:116-146 | the response section follows, with the status and body when present |
| TuiView.DetailLinesSingle | crates/tui/src/view.rs:116-146 | without line feeds in the method, URL and headers, no detail line holds a line feed |
| TuiView.DigitsHaveNoLineFeed | crates/tui/src/view.rs:116-146 | a printed number holds no line feed |
| TuiView.FormatSplitsBack | crates/tui/src/view.rs:116-146 | splitting the details text on line feeds gives the detail lines back |
| TuiView.DetailsContent | crates/tui/src/view.rs:96-101 | an index inside the request list shows that request's joined detail lines; the placeholder shows exactly when the index is outside the list |
| Counter.KeyEffect | crates/tui/src/components/counter.rs:16-34 | up/j adds one, down/k subtracts one but not below zero, other keys keep the count, which stays a u32 |
| Counter.RaiseThenLower | crates/tui/src/components/counter.rs:16-34 | raising then lowering restores the count, and lowering zero stays zero |
| Counter.RenderText | crates/tui/src/components/counter.rs:38-40 | the text starts with "Counter: " |
| Counter.RenderReadsBack | crates/tui/src/components/counter.rs:38-40 | the digits after the prefix read back as the count |
| Counter.Counter.constructor | crates/tui/src/components/counter.rs:10-13 | the count starts at zero |
| Counter.Counter.Increment | crates/tui/src/components/counter.rs:16-18 | the count goes up by one |
| Counter.Counter.Decrement | crates/tui/src/components/counter.rs:20-24 | the count goes down by one, saturating at zero |
| Counter.Counter.OnKeyPressed | crates/tui/src/components/counter.rs:28-34 | the count changes by the key's effect |
| Counter.Counter.Render | crates/tui/src/components/counter.rs:38-40 | the text is the "Counter: " prefix followed by digits that read back as the current count |
| CounterApp.Step | crates/cozyreq/src/tui/model/mod.rs:21-28 | the counter rises by one exactly on Increment, falls by one exactly on Decrement and stays exactly on Quit; only Quit changes the running state, and it stops the app |
| CounterApp.IncrementDecrement | crates/cozyreq/src/tui/model/mod.rs:21-28 | incrementing then decrementing restores the counter, which may go negative |
| CounterApp.Model.constructor | crates/cozyreq/src/tui/model/mod.rs:6-13 | the counter starts at zero and the app is running |
| CounterApp.Model.Update | crates/cozyreq/src/tui/model/mod.rs:21-28 | the state moves by one step and no follow-up message is returned |
| CounterApp.HandleKey | crates/cozyreq/src/tui/event/mod.rs:18-25 | j, k and q map to increment, decrement and quit, and nothing else maps |
| LegacyTui.DetailSections | cozyreq/tui.py:178-197 | the details are the title, the request headers, the body or "(None)", then the status and the response body lines |
| LegacyTui.KeySelectionMoves | cozyreq/tui.py:221-232 | up and down move by one within the requests and stop at the ends; other keys keep the selection |
| LegacyTui.EchoLines | cozyreq/tui.py:201-219 | a submission logs a blank line, the prompt after "> ", a blank line and the planning line |
| LegacyTui.Submission | cozyreq/tui.py:201-219 | blank input does nothing, other input echoes its stripped text |
| LegacyTui.CozyReqApp.constructor | cozyreq/tui.py:92-96 | no requests, no log, selection 0, empty prompt |
| LegacyTui.CozyReqApp.UpdateDetailsPanel | cozyreq/tui.py:169-199 | with no requests the panel keeps its text, otherwise it shows the selected request's details |
| LegacyTui.CozyReqApp.OnMount | cozyreq/tui.py:110-167 | the dummy log lines and requests are loaded, the second request is selected and its details shown |
| LegacyTui.CozyReqApp.OnKey | cozyreq/tui.py:221-232 | the selection moves by the key and the details follow when it moved; ctrl+p focuses the prompt |
| LegacyTui.CozyReqApp.OnInputSubmitted | cozyreq/tui.py:201-219 | blank input changes nothing; other input clears the prompt and appends the echo lines of the stripped text |
| LegacyTui.FormatDetails | cozyreq/tui.py:178-197 | the loop builds the specified detail lines joined by line feeds |
| LegacyTui.AppendPieces | cozyreq/tui.py:178-197 | the pieces are appended in order |
| AgentTypes.Display | crates/agent/src/types.rs:13-22 | each error shows its fixed prefix and its text, cancellation a fixed sentence |
| AgentTypes.DisplayReadsBack | crates/agent/src/types.rs:13-22 | every error reads back from its text |
| AgentTypes.DisplayInjective | crates/agent/src/types.rs:13-22 | different errors display differently |
| AgentTools.GetWeather | crates/agent/src/tools.rs:33-42 | fails with "Missing location parameter" iff the location is not a string |
| AgentTools.GetTime | crates/agent/src/tools.rs:63-68 | fails with "Missing timezone parameter" iff the timezone is not a string |
| AgentTools.Calculate | crates/agent/src/tools.rs:89-95 | fails with "Missing expression parameter" iff the expression is not a string |
| AgentTools.CreateDummyTools | crates/agent/src/tools.rs:6-98 | the three tools in order, and implementations keyed by exactly their names |
| AgentTools.DummyToolsMatch | crates/agent/src/tools.rs:105-115 | three tools, three implementations, and the implementation names are the tool names |
| AgentTools.RequiredFieldIsChecked | crates/agent/src/tools.rs:11-95 | each schema requires one field, the one whose absence makes that tool fail |
| AgentTools.SchemaRequires | crates/agent/src/tools.rs:11-95 | an object schema built with one required field lists exactly that field as required |
| AgentTools.WeatherReportsDiffer | crates/agent/src/tools.rs:33-42 | for one unit, two reports are equal iff they are for the same location |
| AgentTools.WeatherWithUnit | crates/agent/src/tools.rs:33-42 | a location and a unit give the templated weather report |
| AgentTools.WeatherExample | crates/agent/src/tools.rs:117-132 | the San Francisco example gives the expected report |
| AgentTools.WeatherDefaultExample | crates/agent/src/tools.rs:134-145 | without a unit the report is in celsius |
| AgentTools.TimeExample | crates/agent/src/tools.rs:147-158 | the Los Angeles example gives the fixed time |
| AgentTools.CalculateExample | crates/agent/src/tools.rs:160-171 | the expression is echoed with the fixed answer 42 |
| AgentTools.MissingLocationExample | crates/agent/src/tools.rs:173-183 | an empty input fails with the missing-location message |
| AgentClaude.MessagesToApiFormat | crates/agent/src/claude.rs:58-113 | the loop converts each message to its wire form, in order |
| AgentClaude.BlockReadsBack | crates/agent/src/claude.rs:69-94 | a content block decodes back from its JSON |
| AgentClaude.TextReadsBack | crates/agent/src/claude.rs:73-78 | a text block decodes back from its "text" object |
| AgentClaude.ToolUseReadsBack | crates/agent/src/claude.rs:79-86 | a tool-use block decodes back with its id, name and input from its "tool_use" object |
| AgentClaude.BlocksReadBack | crates/agent/src/claude.rs:69-94 | a list of blocks decodes back from its JSON array |
| AgentClaude.MessageReadsBack | crates/agent/src/claude.rs:58-113 | every message decodes back from its wire form, so the conversion loses nothing |
| AgentClaude.ApiMessageShape | crates/agent/src/claude.rs:63-108 | assistant messages have the assistant role and the rest the user role; user text is a string, assistant blocks are typed, and tool results are tool_result blocks |
| AgentClaude.ApiMessagesFaithful | crates/agent/src/claude.rs:58-113 | one wire message per message, each decoding back to its original |
| AgentClaude.BuildRequestPassesThrough | crates/agent/src/claude.rs:132-151 | the request carries the model, 1024 max tokens, the system prompt, every tool and every message |
| AgentClaude.ConvertResponse | crates/agent/src/claude.rs:191-200 | one content block per response block |
| AgentClaude.ConvertResponseFaithful | crates/agent/src/claude.rs:191-200 | each block keeps its kind and converts back to the response block |
| Agent.New | crates/agent/src/lib.rs:24-44 | fails with the missing-key error iff the key variable is unset, otherwise carries the key, the model and the inputs |
| Agent.NewWithKey | crates/agent/src/lib.rs:186-207 | with a key set, creation succeeds |
| Agent.ToolUses | crates/agent/src/lib.rs:112-120 | the tool requests are exactly the tool-use blocks, never more than the blocks |
| Agent.ToolUsesAppend | crates/agent/src/lib.rs:112-120 | the tool requests of joined blocks are joined |
| Agent.ExecuteToolsOk | crates/agent/src/lib.rs:122-162 | running the tools succeeds iff every name is known, and then answers each request in order |
| Agent.ExecuteToolsErr | crates/agent/src/lib.rs:133-136 | a failure names the first unknown tool |
| Agent.ExecuteToolsErrPrefix | crates/agent/src/lib.rs:133-136 | a failure within the first requests is the failure of the whole batch |
| Agent.ExecuteToolUses | crates/agent/src/lib.rs:122-162 | the loop appends exactly the tool results, or stops with tool-not-found |
| Agent.IterateRules | crates/agent/src/lib.rs:70-177 | cancellation wins first, an API error ends the run, any stop reason but tool_use ends it with the answer recorded, and tool_use continues with one result per call or fails on the first unknown tool |
| Agent.IterateExtends | crates/agent/src/lib.rs:89-162 | a continuing iteration only appends to the history |
| Agent.LoopExtends | crates/agent/src/lib.rs:55-178 | a successful loop returns the history it started from, followed by an assistant answer and possibly more |
| Agent.Run | crates/agent/src/lib.rs:55-178 | the loop computes the specified run |
| Agent.RunStartsWithPrompt | crates/agent/src/lib.rs:62-64 | a successful run's history starts with the prompt followed by the model's answer |
| Agent.CancelledAtOnce | crates/agent/src/lib.rs:210-240 | a token cancelled before the first iteration ends the run with the cancellation error |

## Left out

- Screen layout, CSS, colours of the log-table rows and widget composition are rendering and are not modelled; the widgets' state and texts are.
- The progress indicator widget, the prompt and requests screens and the tool-calls screen composition are outside this model. The tool-calls screen is the list and the panel side by side, and both are modelled.
- The SQLite database (`database.py`) is not part of this model; its query results are inputs to `App.TuiApp.OnMount`.
- The Pydantic-model branch of `parse_openapi_endpoints` and `fetch_openapi_spec` (HTTP and YAML/JSON loading) need foreign libraries and the network; the model starts from the parsed document.
- Non-string keys in a YAML document are not modelled: object keys are strings.
- Python's `str.lower()`, float formatting, `json.loads`/`json.dumps` and rich table rendering are parameters, not definitions.
- The log-type icons of `log_table.py` are stored mis-encoded in the source file and are presentation only; they are not modelled.
- The legacy prototype's log and detail widgets are modelled as lists of text lines and a details string.
- The ratatui drawing (`view.rs` panels, List state, styles, cursor) is not modelled beyond the details text and panel content.
- The CLI entry points (`cli.py`, `cli.rs`, `main.rs`) and terminal setup are I/O and are left out.
- The Claude HTTP call, its JSON (de)serialisation, the `Usage` token counts and the tracing output are left out; the API is an oracle from request to response.
- serde_json's object key order is not modelled: blocks are decoded by key.
- Agent.Run: bounded by `maxIterations`; the source loop has no bound and runs until the model stops.
- Agent.Run: cancellation is sampled at the start of each iteration as a function of the iteration number, not observed concurrently; the iteration counter otherwise only feeds log output.
- The agent's async execution, task spawning and `CancellationToken` are replaced by the cancellation function.
- Tool-call statuses are a closed datatype of the four literals, so the fallback icon `("", "white")` that `_get_status_icon` (`tool_call_item.py` line 44) gives any other status string is not modelled, although the Python records do not validate the status.
- The OpenAPI error text names a non-mapping `paths` value's Python type; a YAML float there (`'float' object …`) is not modelled, since numbers are integers here.
- Counter.Counter.Increment: requires the count to be below `u32::MAX`, where the source would overflow (a panic in debug builds).
- Counter.KeyEffect: requires that an Up or `j` press does not start at `u32::MAX`, for the same reason.
- Counter.Counter.OnKeyPressed: requires the same of the pressed key, for the same reason.
- CounterApp.Step: requires the `i32` counter not to overflow, for the same reason.
- CounterApp.Model.Update: requires the same of the message, for the same reason.
