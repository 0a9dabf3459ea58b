/** The log table of the logs screen: an unchanging list of log entries
    shown through a type filter and a case-insensitive message search.
    Case folding is Python's `str.lower`, taken as a parameter. */
module LogTable {
  import opened TuiModels
  import Text
  import Seqs

  /** Whether a log passes both criteria. An empty type set and an empty
      query each let everything through; only the lowercased message is
      searched, never the metadata. */
  predicate Passes(log: LogEntry, filters: set<LogType>, search: string, lower: string -> string)
  {
    (filters == {} || log.logType in filters)
    && (search == "" || Text.Contains(lower(log.message), search))
  }

  /** The two comprehension conditions. */
  function ByType(filters: set<LogType>): LogEntry -> bool
  {
    (l: LogEntry) => l.logType in filters
  }

  function BySearch(search: string, lower: string -> string): LogEntry -> bool
  {
    (l: LogEntry) => Text.Contains(lower(l.message), search)
  }

  /** The list `_apply_filters` stores: first the type comprehension, then
      the search comprehension, each applied only when its criterion is
      set. */
  function Visible(logs: seq<LogEntry>, filters: set<LogType>, search: string, lower: string -> string): seq<LogEntry>
  {
    var typed := if filters != {} then Seqs.Filter(logs, ByType(filters)) else logs;
    if search != "" then Seqs.Filter(typed, BySearch(search, lower)) else typed
  }

  /** The two passes are one filter by `Passes`: the visible logs are
      exactly the logs passing both criteria, in their original order. */
  lemma VisibleIsFilter(logs: seq<LogEntry>, filters: set<LogType>, search: string, lower: string -> string)
    ensures Visible(logs, filters, search, lower) == Seqs.Filter(logs, l => Passes(l, filters, search, lower))
  {
    var byType := ByType(filters);
    var bySearch := BySearch(search, lower);
    var both := (l: LogEntry) => Passes(l, filters, search, lower);
    if filters != {} && search != "" {
      Seqs.FilterTwice(logs, byType, bySearch, both);
    } else if filters != {} {
      Seqs.FilterExtensional(logs, byType, both);
    } else if search != "" {
      Seqs.FilterExtensional(logs, bySearch, both);
    } else {
      Seqs.FilterAll(logs, both);
    }
  }

  /** A log is visible exactly when it is one of the logs and passes both
      criteria; the visible list keeps the original order. */
  lemma VisibleMembers(logs: seq<LogEntry>, filters: set<LogType>, search: string, lower: string -> string, log: LogEntry)
    ensures log in Visible(logs, filters, search, lower) <==> log in logs && Passes(log, filters, search, lower)
    ensures Seqs.IsSubsequence(Visible(logs, filters, search, lower), logs)
  {
    VisibleIsFilter(logs, filters, search, lower);
    var both := (l: LogEntry) => Passes(l, filters, search, lower);
    Seqs.FilterMembers(logs, both, log);
    Seqs.FilterIsSubsequence(logs, both);
  }

  /** With no search, all four types active and with no type active alike,
      every log is visible. */
  lemma NoCriteriaShowsAll(logs: seq<LogEntry>, lower: string -> string)
    ensures Visible(logs, AllLogTypes, "", lower) == logs
    ensures Visible(logs, {}, "", lower) == logs
  {
    LiteralsDistinct();
    Seqs.FilterAll(logs, ByType(AllLogTypes));
  }

  /** Whatever the search, no active type and all four active types show
      the same logs: turning every filter off hides nothing. */
  lemma EmptyAndAllAgree(logs: seq<LogEntry>, search: string, lower: string -> string)
    ensures Visible(logs, {}, search, lower) == Visible(logs, AllLogTypes, search, lower)
  {
    LiteralsDistinct();
    Seqs.FilterAll(logs, ByType(AllLogTypes));
  }

  /** `_truncate_message`: the first line of the message, cut to 77
      characters plus "..." when longer than 80. */
  function TruncateMessage(message: string): (r: string)
    ensures |r| <= 80
    ensures '\n' !in r
    ensures |Text.FirstLine(message)| <= 80 ==> r == Text.FirstLine(message)
    ensures |Text.FirstLine(message)| > 80 ==> r == message[..77] + "..."
  {
    var first := Text.FirstLine(message);
    if |first| > 80 then first[..77] + "..." else first
  }

  /** One table row: time of day, type and the shortened message. */
  datatype Row = Row(time: string, logType: string, message: string)

  function RowOf(log: LogEntry): Row
  {
    Row(TimeOfDay(log.timestamp), LogTypeLiteral(log.logType), TruncateMessage(log.message))
  }

  class LogTable {
    const logs: seq<LogEntry>
    const lower: string -> string
    var filteredLogs: seq<LogEntry>
    var currentFilters: set<LogType>
    var currentSearch: string
    var rows: seq<Row>

    /** The stored list is always what the criteria select. */
    predicate Valid()
      reads this
    {
      filteredLogs == Visible(logs, currentFilters, currentSearch, lower)
    }

    /** The table starts with every log visible, all four types active and
        no search; rows appear when the table is mounted. */
    constructor (logs: seq<LogEntry>, lower: string -> string)
      ensures Valid()
      ensures this.logs == logs && this.lower == lower
      ensures filteredLogs == logs
      ensures currentFilters == AllLogTypes && currentSearch == ""
      ensures rows == []
    {
      this.logs := logs;
      this.lower := lower;
      filteredLogs := logs;
      currentFilters := {Info, Tool, Error, Debug};
      currentSearch := "";
      rows := [];
      new;
      NoCriteriaShowsAll(logs, lower);
    }

    method OnMount()
      requires Valid()
      modifies this
      ensures Valid()
      ensures rows == RowsOf(filteredLogs)
      ensures filteredLogs == old(filteredLogs)
      ensures currentFilters == old(currentFilters) && currentSearch == old(currentSearch)
    {
      UpdateRows();
    }

    /** One row per visible log, in order. */
    method UpdateRows()
      modifies this
      ensures rows == RowsOf(filteredLogs)
      ensures |rows| == |filteredLogs|
      ensures filteredLogs == old(filteredLogs)
      ensures currentFilters == old(currentFilters) && currentSearch == old(currentSearch)
    {
      var built: seq<Row> := [];
      var i := 0;
      while i < |filteredLogs|
        invariant 0 <= i <= |filteredLogs|
        invariant built == RowsOf(filteredLogs[..i])
        invariant unchanged(this)
      {
        assert filteredLogs[..i + 1] == filteredLogs[..i] + [filteredLogs[i]];
        RowsOfSnoc(filteredLogs[..i], filteredLogs[i]);
        built := built + [RowOf(filteredLogs[i])];
        i := i + 1;
      }
      assert filteredLogs[..i] == filteredLogs;
      rows := built;
    }

    /** Replaces the type criterion; the search stays in force. */
    method FilterLogs(activeFilters: set<LogType>)
      requires Valid()
      modifies this
      ensures Valid()
      ensures currentFilters == activeFilters && currentSearch == old(currentSearch)
      ensures filteredLogs == Visible(logs, activeFilters, old(currentSearch), lower)
      ensures rows == RowsOf(filteredLogs)
    {
      currentFilters := activeFilters;
      ApplyFilters();
    }

    /** Replaces the search criterion with the lowercased query; the type
        set stays in force. */
    method SearchLogs(query: string)
      requires Valid()
      modifies this
      ensures Valid()
      ensures currentSearch == lower(query) && currentFilters == old(currentFilters)
      ensures filteredLogs == Visible(logs, old(currentFilters), lower(query), lower)
      ensures rows == RowsOf(filteredLogs)
    {
      currentSearch := lower(query);
      ApplyFilters();
    }

    method ApplyFilters()
      modifies this
      ensures Valid()
      ensures currentFilters == old(currentFilters) && currentSearch == old(currentSearch)
      ensures rows == RowsOf(filteredLogs)
    {
      var filtered := logs;
      if currentFilters != {} {
        filtered := Seqs.Filter(filtered, ByType(currentFilters));
      }
      if currentSearch != "" {
        filtered := Seqs.Filter(filtered, BySearch(currentSearch, lower));
      }
      filteredLogs := filtered;
      UpdateRows();
    }
  }

  function RowsOf(logs: seq<LogEntry>): (rows: seq<Row>)
    ensures |rows| == |logs|
    ensures forall k :: 0 <= k < |logs| ==> rows[k] == RowOf(logs[k])
  {
    seq(|logs|, k requires 0 <= k < |logs| => RowOf(logs[k]))
  }

  lemma RowsOfSnoc(logs: seq<LogEntry>, log: LogEntry)
    ensures RowsOf(logs + [log]) == RowsOf(logs) + [RowOf(log)]
  {
  }
}

/** The filtering and search behaviour the widget's tests exercise, with
    ASCII case folding standing in for `str.lower`. */
module LogTableExamples {
  import opened Wrappers
  import opened TuiModels
  import opened LogTable
  import Text
  import Seqs

  function Entry(i: nat, t: LogType, message: string): LogEntry
  {
    LogEntry("log", "run-001", At(0, 12, 34, i), t, message, None)
  }

  /** Types INFO, TOOL, ERROR, DEBUG, INFO: the INFO filter shows two rows,
      TOOL with ERROR two, all four types five. */
  lemma TypeFilterCounts(lower: string -> string)
    ensures var logs := [Entry(0, Info, "Message 0"), Entry(1, Tool, "Message 1"),
                         Entry(2, Error, "Message 2"), Entry(3, Debug, "Message 3"),
                         Entry(4, Info, "Message 4")];
      && |RowsOf(Visible(logs, {Info}, "", lower))| == 2
      && |RowsOf(Visible(logs, {Tool, Error}, "", lower))| == 2
      && |RowsOf(Visible(logs, AllLogTypes, "", lower))| == 5
  {
    var logs := [Entry(0, Info, "Message 0"), Entry(1, Tool, "Message 1"),
                 Entry(2, Error, "Message 2"), Entry(3, Debug, "Message 3"),
                 Entry(4, Info, "Message 4")];
    assert Seqs.Filter(logs, ByType({Info})) == [logs[0], logs[4]] by {
      assert logs[1..][1..][1..][1..] == [logs[4]];
    }
    assert Seqs.Filter(logs, ByType({Tool, Error})) == [logs[1], logs[2]] by {
      assert logs[1..][1..][1..][1..] == [logs[4]];
    }
    NoCriteriaShowsAll(logs, lower);
  }

  /** Three logs with distinct messages and types. The first two messages
      are written around the words searched for below. */
  function SearchExample(): seq<LogEntry>
  {
    [Entry(0, Info, "Agent " + "initialized" + " successfully"),
     Entry(1, Tool, "Running " + "web" + "_search"),
     Entry(2, Error, "Connection failed")]
  }

  lemma FilterThree(s: seq<LogEntry>, p: LogEntry -> bool)
    requires |s| == 3
    ensures Seqs.Filter(s, p) == (if p(s[0]) then [s[0]] else [])
                               + (if p(s[1]) then [s[1]] else [])
                               + (if p(s[2]) then [s[2]] else [])
  {
    assert Seqs.Filter(s[2..], p) == (if p(s[2]) then [s[2]] else []) by {
      assert s[2..][1..] == [];
    }
    assert s[1..][1..] == s[2..];
  }

  /** The query occurs in a lower-cased message that spells it between two
      other pieces. */
  lemma LowerContains(before: string, word: string, after: string, q: string)
    requires Text.AsciiLower(word) == q
    ensures Text.Contains(Text.AsciiLower(before + word + after), q)
  {
    var message := before + word + after;
    var m := Text.AsciiLower(message);
    Seqs.Slices3(before, word, after);
    assert m[|before|..|before| + |word|] == Text.AsciiLower(word);
    Text.ContainsAt(m, q, |before|);
  }

  /** The query is absent from the lower-cased message when one of its
      lower-case letters appears in the message in neither case. */
  lemma LetterAbsent(message: string, q: string, j: nat)
    requires j < |q| && 'a' <= q[j] <= 'z'
    requires q[j] !in message && ((q[j] as int) - 32) as char !in message
    ensures !Text.Contains(Text.AsciiLower(message), q)
  {
    var m := Text.AsciiLower(message);
    forall i | 0 <= i < |m| ensures m[i] != q[j] {
      assert message[i] in message;
    }
    Text.NotContainsAt(m, q, j);
  }

  /** An entry whose message spells the query, up to case, between two
      other pieces matches the search. */
  lemma MatchAt(l: LogEntry, before: string, word: string, after: string, q: string)
    requires l.message == before + word + after && Text.AsciiLower(word) == q
    ensures BySearch(q, Text.AsciiLower)(l)
  {
    LowerContains(before, word, after, q);
  }

  /** An entry whose message lacks the j-th letter of the query in both
      cases does not match the search. */
  lemma NoMatch(l: LogEntry, q: string, j: nat)
    requires j < |q| && 'a' <= q[j] <= 'z'
    requires q[j] !in l.message && ((q[j] as int) - 32) as char !in l.message
    ensures !BySearch(q, Text.AsciiLower)(l)
  {
    LetterAbsent(l.message, q, j);
  }

  lemma InitializedMatches()
    ensures var logs := SearchExample(); var m := BySearch("initialized", Text.AsciiLower);
      m(logs[0]) && !m(logs[1]) && !m(logs[2])
  {
    var q := "initialized";
    assert Text.AsciiLower(q) == q;
    MatchAt(SearchExample()[0], "Agent ", q, " successfully", q);
    assert q[8] == 'z' && ((q[8] as int) - 32) as char == 'Z';
    InitializedLettersSecond();
    NoMatch(SearchExample()[1], q, 8);
    InitializedLettersLast();
    NoMatch(SearchExample()[2], q, 8);
  }

  lemma WebMatches()
    ensures var logs := SearchExample(); var m := BySearch("web", Text.AsciiLower);
      !m(logs[0]) && m(logs[1]) && !m(logs[2])
  {
    var q := "web";
    assert Text.AsciiLower(q) == q;
    MatchAt(SearchExample()[1], "Running ", q, "_search", q);
    assert q[0] == 'w' && ((q[0] as int) - 32) as char == 'W';
    WebLettersFirst();
    NoMatch(SearchExample()[0], q, 0);
    WebLettersLast();
    NoMatch(SearchExample()[2], q, 0);
  }

  /** The letter checks behind the misses above, one message at a time. */
  lemma WebLettersFirst()
    ensures 'w' !in SearchExample()[0].message && 'W' !in SearchExample()[0].message
  {
  }

  lemma WebLettersLast()
    ensures 'w' !in SearchExample()[2].message && 'W' !in SearchExample()[2].message
  {
  }

  lemma InitializedLettersSecond()
    ensures 'z' !in SearchExample()[1].message && 'Z' !in SearchExample()[1].message
  {
  }

  lemma InitializedLettersLast()
    ensures 'z' !in SearchExample()[2].message && 'Z' !in SearchExample()[2].message
  {
  }

  /** Searching "initialized" finds only the first message. */
  lemma SearchInitialized()
    ensures Visible(SearchExample(), AllLogTypes, Text.AsciiLower("initialized"), Text.AsciiLower)
         == [SearchExample()[0]]
  {
    var logs := SearchExample();
    assert Text.AsciiLower("initialized") == "initialized";
    InitializedMatches();
    Seqs.FilterAll(logs, ByType(AllLogTypes));
    FilterThree(logs, BySearch("initialized", Text.AsciiLower));
  }

  /** Searching "web" finds only the second message. */
  lemma SearchWeb()
    ensures Visible(SearchExample(), AllLogTypes, Text.AsciiLower("web"), Text.AsciiLower)
         == [SearchExample()[1]]
  {
    var logs := SearchExample();
    assert Text.AsciiLower("web") == "web";
    WebMatches();
    Seqs.FilterAll(logs, ByType(AllLogTypes));
    FilterThree(logs, BySearch("web", Text.AsciiLower));
  }

  /** Clearing the search shows all three again. */
  lemma SearchCleared()
    ensures Visible(SearchExample(), AllLogTypes, Text.AsciiLower(""), Text.AsciiLower) == SearchExample()
  {
    assert Text.AsciiLower("") == "";
    NoCriteriaShowsAll(SearchExample(), Text.AsciiLower);
  }

  /** Two INFO logs, one mentioning "Agent", and an ERROR log that also
      mentions it. */
  function FilterExample(): seq<LogEntry>
  {
    [Entry(0, Info, "Agent" + " started successfully"),
     Entry(1, Info, "Processing data"),
     Entry(2, Error, "Agent" + " error occurred")]
  }

  /** With only INFO active, a search for "Agent" keeps the INFO message
      that mentions it and drops the ERROR one that also does. */
  lemma FilterThenSearch()
    ensures var logs := FilterExample();
      && |Visible(logs, {Info}, "", Text.AsciiLower)| == 2
      && Visible(logs, {Info}, Text.AsciiLower("Agent"), Text.AsciiLower) == [logs[0]]
  {
    var logs := FilterExample();
    var q := "agent";
    assert Text.AsciiLower("Agent") == q;
    var typed := [logs[0], logs[1]];
    assert Seqs.Filter(logs, ByType({Info})) == typed by {
      FilterThree(logs, ByType({Info}));
    }
    assert Seqs.Filter(typed, BySearch(q, Text.AsciiLower)) == [logs[0]] by {
      LowerContains("", "Agent", " started successfully", q);
      assert "" + "Agent" + " started successfully" == "Agent" + " started successfully";
      AgentNotProcessing();
      FilterTwo(typed, BySearch(q, Text.AsciiLower));
    }
  }

  lemma FilterTwo(s: seq<LogEntry>, p: LogEntry -> bool)
    requires |s| == 2
    ensures Seqs.Filter(s, p) == (if p(s[0]) then [s[0]] else []) + (if p(s[1]) then [s[1]] else [])
  {
    assert s[1..][1..] == [];
  }

  /** "processing data" has no "a" early enough to start "agent". */
  lemma AgentNotProcessing()
    ensures !Text.Contains(Text.AsciiLower("Processing data"), "agent")
  {
    var m := Text.AsciiLower("Processing data");
    assert m[..10] == "processing";
    Text.NotContainsAt(m, "agent", 0);
  }
}
