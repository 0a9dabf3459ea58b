/** The monitoring application: a header describing the latest agent run,
    and two screens, the tool-call timeline and the logs, between which the
    user switches. Loading from the database is an input: the outcome of
    looking up the latest run, then whether loading its tool calls and
    logs raised (with the exception's text). */
module App {
  import opened Wrappers
  import opened TuiModels
  import opened Rich
  import Text
  import StatusBadge

  /** The header's duration: whole minutes and seconds, each padded to two
      digits, from the floor of the duration in seconds (Python's `//` and
      `%` round toward minus infinity, as Dafny's do for a positive
      divisor); "00:00" without an end time. A zero duration is falsy and
      also gives "00:00". */
  function DurationString(d: Option<int>): (r: string)
    ensures d.None? ==> r == "00:00"
  {
    match d
    case None => "00:00"
    case Some(micros) =>
      if micros == 0 then "00:00"
      else
        var secs := micros / MicrosPerSecond;
        Text.Pad2(secs / 60) + ":" + Text.Pad2(secs % 60)
  }

  /** For a run shorter than a hundred minutes the text is exactly "MM:SS"
      and reads back as the whole seconds elapsed. */
  lemma DurationStringReadsBack(micros: int)
    requires 0 <= micros < 100 * 60 * MicrosPerSecond
    ensures var r := DurationString(Some(micros));
      && |r| == 5 && r[2] == ':'
      && Text.IsDigit(r[0]) && Text.IsDigit(r[1]) && Text.IsDigit(r[3]) && Text.IsDigit(r[4])
      && Digit(r[0]) * 600 + Digit(r[1]) * 60 + Digit(r[3]) * 10 + Digit(r[4]) == micros / MicrosPerSecond
  {
    var secs := micros / MicrosPerSecond;
    PadDigits(secs / 60);
    PadDigits(secs % 60);
  }

  function Digit(c: char): int
  {
    c as int - '0' as int
  }

  lemma PadDigits(n: int)
    requires 0 <= n < 100
    ensures |Text.Pad2(n)| == 2
    ensures Text.IsDigit(Text.Pad2(n)[0]) && Text.IsDigit(Text.Pad2(n)[1])
    ensures Digit(Text.Pad2(n)[0]) * 10 + Digit(Text.Pad2(n)[1]) == n
  {
  }

  /** Two minutes thirty-four gives "02:34"; a run that ended one second
      before it started gives "-1:59", as Python's floor division does. */
  lemma DurationStringExamples()
    ensures DurationString(Some(154 * MicrosPerSecond)) == "02:34"
    ensures DurationString(Some(-1 * MicrosPerSecond)) == "-1:59"
    ensures DurationString(Some(0)) == "00:00"
  {
    assert (154 * MicrosPerSecond) / MicrosPerSecond == 154;
    assert (-1 * MicrosPerSecond) / MicrosPerSecond == -1;
    assert Text.Pad2(-1) == "-1";
  }

  /** The header of a loaded run. */
  function RunHeader(run: AgentRun): StyledText
  {
    [Span("AI Agent Monitor", "bold cyan"),
     Span("  Run #" + Text.IntToString(run.runNumber), "yellow"),
     Span(" " + StatusBadge.Bar + " Duration: " + DurationString(Duration(run)), "dim"),
     Span(" " + StatusBadge.Bar + " Status: " + RunStatusLiteral(run.status),
          if run.status == Completed then "green" else "yellow")]
  }

  /** `_show_error`. */
  function ErrorHeader(message: string): StyledText
  {
    [Span("Error: " + message, "bold red")]
  }

  const NoRunsMessage: string := "No agent runs found in database"

  /** Which screen is current and the `switch_screen` calls made so far. */
  datatype Navigation = Navigation(current: string, switches: seq<string>)

  /** A show action: switch only when the target is not already current. */
  function ShowScreen(nav: Navigation, target: string): (r: Navigation)
    ensures r.current == target
    ensures nav.current == target ==> r == nav
    ensures nav.current != target ==> r.switches == nav.switches + [target]
  {
    if nav.current != target then Navigation(target, nav.switches + [target]) else nav
  }

  /** Repeating an action does nothing more, and alternating the two
      actions switches every time. */
  lemma ShowScreenIdempotent(nav: Navigation, target: string, other: string)
    requires other != target
    ensures ShowScreen(ShowScreen(nav, target), target) == ShowScreen(nav, target)
    ensures |ShowScreen(ShowScreen(nav, target), other).switches| == |ShowScreen(nav, target).switches| + 1
  {
  }

  class TuiApp {
    var runId: Option<string>
    var nav: Navigation
    var header: StyledText
    /** Names of the installed screens, in installation order. */
    var installed: seq<string>
    /** Screens pushed onto the screen stack. */
    var pushed: seq<string>

    constructor ()
      ensures nav == Navigation("tool_calls", [])
      ensures runId == None && header == [] && installed == [] && pushed == []
    {
      runId := None;
      nav := Navigation("tool_calls", []);
      header := [];
      installed := [];
      pushed := [];
    }

    /** Loads the latest run: without one, or when loading raises, the
        header shows the error and no screen is installed; otherwise the
        header describes the run and both screens are installed, the
        timeline shown first. */
    method OnMount(latest: Result<Option<AgentRun>, string>, dataError: Option<string>)
      modifies this
      ensures nav == old(nav)
      ensures latest.Err? ==> header == ErrorHeader("Error loading data: " + latest.error)
      ensures latest == Ok(None) ==> header == ErrorHeader(NoRunsMessage)
      ensures latest.Ok? && latest.value.Some? ==> runId == Some(latest.value.value.id)
      ensures latest.Ok? && latest.value.Some? && dataError.Some? ==>
        header == ErrorHeader("Error loading data: " + dataError.value)
      ensures latest.Ok? && latest.value.Some? && dataError.None? ==>
        && header == RunHeader(latest.value.value)
        && installed == old(installed) + ["tool_calls", "logs"]
        && pushed == old(pushed) + ["tool_calls"]
      ensures !(latest.Ok? && latest.value.Some? && dataError.None?) ==>
        installed == old(installed) && pushed == old(pushed)
      ensures !(latest.Ok? && latest.value.Some?) ==> runId == old(runId)
    {
      match latest {
        case Err(e) =>
          ShowError("Error loading data: " + e);
        case Ok(None) =>
          ShowError(NoRunsMessage);
        case Ok(Some(run)) =>
          runId := Some(run.id);
          header := RunHeader(run);
          match dataError {
            case Some(e) =>
              ShowError("Error loading data: " + e);
            case None =>
              installed := installed + ["tool_calls", "logs"];
              pushed := pushed + ["tool_calls"];
          }
      }
    }

    method ShowError(message: string)
      modifies this
      ensures header == ErrorHeader(message)
      ensures nav == old(nav) && runId == old(runId)
      ensures installed == old(installed) && pushed == old(pushed)
    {
      header := ErrorHeader(message);
    }

    method ActionShowToolCalls()
      modifies this
      ensures nav == ShowScreen(old(nav), "tool_calls")
      ensures header == old(header) && installed == old(installed) && pushed == old(pushed)
      ensures runId == old(runId)
    {
      if nav.current != "tool_calls" {
        nav := Navigation("tool_calls", nav.switches + ["tool_calls"]);
      }
    }

    method ActionShowLogs()
      modifies this
      ensures nav == ShowScreen(old(nav), "logs")
      ensures header == old(header) && installed == old(installed) && pushed == old(pushed)
      ensures runId == old(runId)
    {
      if nav.current != "logs" {
        nav := Navigation("logs", nav.switches + ["logs"]);
      }
    }
  }
}
