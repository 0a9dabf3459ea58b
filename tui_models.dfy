/** The records the monitoring screens display: tool calls, log entries and
    agent runs, with the enumerations of their status and type fields.
    A timestamp is a naive date-time, counted in microseconds from midnight
    at the start of day 0 (Python's `datetime` resolution). */
module TuiModels {
  import opened Wrappers
  import Text

  /** Execution status of a tool call. */
  datatype StatusType = Queued | Running | Success | Failed

  /** The literal the source stores for a status. */
  function StatusLiteral(s: StatusType): (r: string)
    ensures r in {"queued", "running", "success", "failed"}
  {
    match s
    case Queued => "queued"
    case Running => "running"
    case Success => "success"
    case Failed => "failed"
  }

  /** Kind of a log line. */
  datatype LogType = Info | Tool | Error | Debug

  function LogTypeLiteral(t: LogType): (r: string)
    ensures r in {"INFO", "TOOL", "ERROR", "DEBUG"}
  {
    match t
    case Info => "INFO"
    case Tool => "TOOL"
    case Error => "ERROR"
    case Debug => "DEBUG"
  }

  const AllLogTypes: set<LogType> := {Info, Tool, Error, Debug}

  /** Status of an agent run. */
  datatype RunStatus = RunRunning | Completed | RunFailed

  function RunStatusLiteral(s: RunStatus): (r: string)
    ensures r in {"running", "completed", "failed"}
  {
    match s
    case RunRunning => "running"
    case Completed => "completed"
    case RunFailed => "failed"
  }

  /** Each enumeration's literals are distinct, so a stored literal names
      exactly one member, and the four log types are all there are. */
  lemma LiteralsDistinct()
    ensures forall a: StatusType, b: StatusType :: StatusLiteral(a) == StatusLiteral(b) ==> a == b
    ensures forall a: LogType, b: LogType :: LogTypeLiteral(a) == LogTypeLiteral(b) ==> a == b
    ensures forall a: RunStatus, b: RunStatus :: RunStatusLiteral(a) == RunStatusLiteral(b) ==> a == b
    ensures forall t: LogType :: t in AllLogTypes
    ensures |AllLogTypes| == 4
  {
    forall t: LogType ensures t in AllLogTypes {
      match t
      case Info =>
      case Tool =>
      case Error =>
      case Debug =>
    }
  }

  type Timestamp = int

  const MicrosPerSecond: int := 1000000
  const MicrosPerDay: int := 86400 * MicrosPerSecond

  /** A tool call made during an agent run. `duration` is in seconds. */
  datatype ToolCall = ToolCall(
    id: string,
    runId: string,
    sequenceNumber: int,
    toolName: string,
    status: StatusType,
    timestamp: Timestamp,
    duration: Option<real>,
    request: string,
    response: Option<string>,
    size: Option<int>,
    summary: string,
    resultSummary: Option<string>)

  datatype LogEntry = LogEntry(
    id: string,
    runId: string,
    timestamp: Timestamp,
    logType: LogType,
    message: string,
    metadata: Option<string>)

  datatype AgentRun = AgentRun(
    id: string,
    runNumber: int,
    startTime: Timestamp,
    endTime: Option<Timestamp>,
    status: RunStatus)

  /** `AgentRun.duration`, in microseconds: end minus start once the run has
      an end time (a `datetime` is never falsy), nothing otherwise. No
      ordering of the two times is demanded. */
  function Duration(run: AgentRun): (d: Option<int>)
    ensures d.Some? <==> run.endTime.Some?
    ensures d.Some? ==> run.startTime + d.value == run.endTime.value
  {
    match run.endTime
    case Some(e) => Some(e - run.startTime)
    case None => None
  }

  /** The duration text a tool call shows: its seconds to three decimals
      when it has a duration, otherwise "Running..." while it runs and
      "Queued" in every other status, finished ones included. `fixed3` is
      Python's `f"{d:.3f}"`. */
  function DurationLabel(tc: ToolCall, fixed3: real -> string): (r: string)
    ensures tc.duration.Some? ==> r == fixed3(tc.duration.value) + "s"
    ensures tc.duration.None? && tc.status == Running ==> r == "Running..."
    ensures tc.duration.None? && tc.status != Running ==> r == "Queued"
  {
    match tc.duration
    case Some(d) => fixed3(d) + "s"
    case None => if tc.status == Running then "Running..." else "Queued"
  }

  /** The instant at hour:minute:second on the given day. */
  function At(day: int, hour: nat, minute: nat, second: nat): Timestamp
  {
    day * MicrosPerDay + ((hour * 60 + minute) * 60 + second) * MicrosPerSecond
  }

  /** A run from 12:00:00 to 12:02:34 on the same day lasted 154 seconds;
      one with no end time has no duration. */
  lemma DurationExamples(day: int)
    ensures Duration(AgentRun("r", 47, At(day, 12, 0, 0), Some(At(day, 12, 2, 34)), Completed))
         == Some(154 * MicrosPerSecond)
    ensures Duration(AgentRun("r", 47, At(day, 12, 0, 0), None, RunRunning)) == None
  {
  }

  /** Wall-clock hour, minute and second of a timestamp. */
  function ClockOf(ts: Timestamp): (hms: (nat, nat, nat))
    ensures hms.0 < 24 && hms.1 < 60 && hms.2 < 60
    ensures ts == (ts / MicrosPerDay) * MicrosPerDay
                  + ((hms.0 * 60 + hms.1) * 60 + hms.2) * MicrosPerSecond
                  + ts % MicrosPerSecond
  {
    var secs := (ts % MicrosPerDay) / MicrosPerSecond;
    (secs / 3600, (secs / 60) % 60, secs % 60)
  }

  /** `strftime("%H:%M:%S")`: two digits each for the hour, minute and
      second of the timestamp's clock, separated by colons. */
  function TimeOfDay(ts: Timestamp): (r: string)
    ensures |r| == 8 && r[2] == ':' && r[5] == ':'
    ensures forall k :: 0 <= k < 8 && k != 2 && k != 5 ==> Text.IsDigit(r[k])
    ensures Text.ParseDigits(r[0..2]) == ClockOf(ts).0
    ensures Text.ParseDigits(r[3..5]) == ClockOf(ts).1
    ensures Text.ParseDigits(r[6..8]) == ClockOf(ts).2
  {
    ClockText(ClockOf(ts))
  }

  /** The `HH:MM:SS` text of a clock reading, whose digit pairs read back
      as its three components. */
  function ClockText(hms: (nat, nat, nat)): (r: string)
    requires hms.0 < 24 && hms.1 < 60 && hms.2 < 60
    ensures |r| == 8 && r[2] == ':' && r[5] == ':'
    ensures forall k :: 0 <= k < 8 && k != 2 && k != 5 ==> Text.IsDigit(r[k])
    ensures Text.ParseDigits(r[0..2]) == hms.0
    ensures Text.ParseDigits(r[3..5]) == hms.1
    ensures Text.ParseDigits(r[6..8]) == hms.2
  {
    var hh, mm, ss := Two(hms.0), Two(hms.1), Two(hms.2);
    Text.ParseTwo(hh);
    Text.ParseTwo(mm);
    Text.ParseTwo(ss);
    Text.ThreePairs(hh, mm, ss);
    hh + ":" + mm + ":" + ss
  }

  function Two(n: nat): (r: string)
    requires n < 100
    ensures |r| == 2 && Text.IsDigit(r[0]) && Text.IsDigit(r[1])
    ensures (r[0] as int - '0' as int) * 10 + (r[1] as int - '0' as int) == n
  {
    Text.Pad2(n)
  }

  /** Euclidean division is determined by quotient and remainder. */
  lemma DivModUnique(a: int, d: int, q: int, r: int)
    requires d > 0 && 0 <= r < d && a == q * d + r
    ensures a / d == q && a % d == r
  {
    var q0, r0 := a / d, a % d;
    assert (q - q0) * d == r0 - r;
    if q > q0 {
      MulAtLeast(q - q0, d);
    } else if q < q0 {
      MulAtLeast(q0 - q, d);
    }
  }

  lemma {:induction false} MulAtLeast(x: int, d: int)
    requires x >= 1 && d > 0
    ensures x * d >= d
    decreases x
  {
    if x > 1 {
      MulAtLeast(x - 1, d);
      assert x * d == (x - 1) * d + d;
    }
  }

  /** Reading the clock of an instant built from a time of day gives that
      time of day back, whatever the day. */
  lemma ClockOfAt(day: int, hour: nat, minute: nat, second: nat)
    requires hour < 24 && minute < 60 && second < 60
    ensures ClockOf(At(day, hour, minute, second)) == (hour, minute, second)
  {
    var secs := (hour * 60 + minute) * 60 + second;
    DivModUnique(At(day, hour, minute, second), MicrosPerDay, day, secs * MicrosPerSecond);
    DivModUnique(secs * MicrosPerSecond, MicrosPerSecond, secs, 0);
    DivModUnique(secs, 3600, hour, minute * 60 + second);
    DivModUnique(secs, 60, hour * 60 + minute, second);
    DivModUnique(hour * 60 + minute, 60, hour, minute);
  }

  lemma TimeOfDayExample(day: int)
    ensures TimeOfDay(At(day, 12, 34, 1)) == "12:34:01"
  {
    ClockOfAt(day, 12, 34, 1);
  }
}
