/** The details panel of the selected tool call: a header, two or three
    badges (status, duration and, when the size is known, size) and the
    request and response contents. JSON decoding and re-encoding with an
    indent of two is the parameter `prettyJson`, None where decoding
    fails; `fixed3` and `fixed1` are the float formats `.3f` and `.1f`. */
module ToolDetailsPanel {
  import opened Wrappers
  import opened TuiModels
  import Text
  import StatusBadge

  function Header(tc: ToolCall): (r: string)
  {
    "Selected Tool: #" + Text.IntToString(tc.sequenceNumber) + " " + tc.toolName
  }

  /** `status.capitalize()` of a status literal. */
  function Capitalized(s: StatusType): (r: string)
  {
    match s
    case Queued => "Queued"
    case Running => "Running"
    case Success => "Success"
    case Failed => "Failed"
  }

  /** The badge text is the literal with its first letter in capitals. */
  lemma CapitalizedIsLiteral(s: StatusType)
    ensures |Capitalized(s)| == |StatusLiteral(s)|
    ensures Capitalized(s)[0] == Text.AsciiUpperChar(StatusLiteral(s)[0])
    ensures Capitalized(s)[1..] == StatusLiteral(s)[1..]
  {
  }

  /** The size text: whole bytes below one kibibyte, otherwise kibibytes
      to one decimal. */
  function SizeText(size: int, fixed1: real -> string): (r: string)
    ensures size < 1024 ==> r == Text.IntToString(size) + "B"
    ensures size >= 1024 ==> r == fixed1(size as real / 1024.0) + "KB"
  {
    var kb := size as real / 1024.0;
    if kb < 1.0 then Text.IntToString(size) + "B" else fixed1(kb) + "KB"
  }

  /** How a content string is shown. */
  datatype ContentView = Pretty(formatted: string) | Verbatim(content: string)

  /** `_create_content_widget`: the re-serialised JSON when the content
      decodes, the content itself when it does not. No decoding error
      escapes. */
  function ContentWidget(content: string, prettyJson: string -> Option<string>): (v: ContentView)
    ensures prettyJson(content).Some? <==> v.Pretty?
    ensures v.Pretty? ==> v.formatted == prettyJson(content).value
    ensures v.Verbatim? ==> v.content == content
  {
    match prettyJson(content)
    case Some(formatted) => Pretty(formatted)
    case None => Verbatim(content)
  }

  datatype ResponseView = Content(view: ContentView) | NoResponseYet

  /** The response tab shows "No response yet" for a missing or empty
      response and the content widget otherwise. */
  function ResponseWidget(response: Option<string>, prettyJson: string -> Option<string>): (v: ResponseView)
    ensures v.NoResponseYet? <==> response.None? || response.value == ""
    ensures v.Content? ==> v.view == ContentWidget(response.value, prettyJson)
  {
    match response
    case Some(r) => if r != "" then Content(ContentWidget(r, prettyJson)) else NoResponseYet
    case None => NoResponseYet
  }

  const NoResponseText: string := "No response yet"

  /** Two or three distinct badges, the first two showing the status and
      the duration of the call and the third, if any, a size. */
  predicate BadgesShow(badges: seq<StatusBadge.StatusBadge>, tc: ToolCall, fixed3: real -> string)
    reads badges
  {
    && 2 <= |badges| <= 3
    && (forall i, j :: 0 <= i < j < |badges| ==> badges[i] != badges[j])
    && (forall i {:trigger badges[i].Valid()} :: 0 <= i < |badges| ==> badges[i].Valid())
    && badges[0].statusType == StatusBadge.Status(tc.status)
    && badges[0].text == Capitalized(tc.status)
    && badges[1].statusType == StatusBadge.DurationBadge
    && badges[1].text == DurationLabel(tc, fixed3)
    && (|badges| == 3 ==> badges[2].statusType == StatusBadge.SizeBadge)
  }

  /** The badges `compose` yields: status, duration and, when the size is
      known, size. */
  method NewBadges(tc: ToolCall, fixed3: real -> string, fixed1: real -> string)
    returns (built: seq<StatusBadge.StatusBadge>)
    ensures BadgesShow(built, tc, fixed3)
    ensures forall i :: 0 <= i < |built| ==> fresh(built[i])
    ensures |built| == 3 <==> tc.size.Some?
    ensures tc.size.Some? ==> built[2].text == SizeText(tc.size.value, fixed1)
  {
    var status := new StatusBadge.StatusBadge(StatusBadge.Status(tc.status), Capitalized(tc.status));
    var duration := new StatusBadge.StatusBadge(StatusBadge.DurationBadge, DurationLabel(tc, fixed3));
    built := [status, duration];
    if tc.size.Some? {
      var size := new StatusBadge.StatusBadge(StatusBadge.SizeBadge, SizeText(tc.size.value, fixed1));
      built := built + [size];
    }
  }

  class ToolDetailsPanel {
    const fixed3: real -> string
    const fixed1: real -> string
    const prettyJson: string -> Option<string>
    var toolCall: ToolCall
    var header: string
    /** Status, duration and, if the first call shown had a size, size. */
    const badges: seq<StatusBadge.StatusBadge>
    var requestView: ContentView
    var responseView: ResponseView

    /** Header, status and duration badges and both tabs show the current
        tool call. */
    predicate Valid()
      reads this, badges
    {
      && BadgesShow(badges, toolCall, fixed3)
      && header == Header(toolCall)
      && requestView == ContentWidget(toolCall.request, prettyJson)
      && responseView == ResponseWidget(toolCall.response, prettyJson)
    }

    /** `__init__` with `compose`: a size badge exists exactly when the
        call's size is known. */
    constructor (tc: ToolCall, fixed3: real -> string, fixed1: real -> string,
                 prettyJson: string -> Option<string>)
      ensures Valid()
      ensures toolCall == tc
      ensures |badges| == 3 <==> tc.size.Some?
      ensures tc.size.Some? ==> badges[2].text == SizeText(tc.size.value, fixed1)
    {
      var built := NewBadges(tc, fixed3, fixed1);
      this.fixed3 := fixed3;
      this.fixed1 := fixed1;
      this.prettyJson := prettyJson;
      toolCall := tc;
      header := Header(tc);
      badges := built;
      requestView := ContentWidget(tc.request, prettyJson);
      responseView := ResponseWidget(tc.response, prettyJson);
    }

    /** Shows another call. The size badge changes only when it exists and
        the new size is known; otherwise it keeps its old text. */
    method UpdateToolCall(tc: ToolCall)
      requires Valid()
      modifies this, badges
      ensures Valid()
      ensures toolCall == tc
      ensures |badges| == 3 && tc.size.Some? ==> badges[2].text == SizeText(tc.size.value, fixed1)
      ensures |badges| == 3 && tc.size.None? ==> badges[2].text == old(badges[2].text)
    {
      toolCall := tc;
      header := Header(tc);
      UpdateBadges(tc);
      requestView := ContentWidget(tc.request, prettyJson);
      if tc.response.Some? && tc.response.value != "" {
        responseView := Content(ContentWidget(tc.response.value, prettyJson));
      } else {
        responseView := NoResponseYet;
      }
    }

    /** The badge half of `update_tool_call`. */
    method UpdateBadges(tc: ToolCall)
      requires 2 <= |badges| <= 3 && forall i, j :: 0 <= i < j < |badges| ==> badges[i] != badges[j]
      requires |badges| == 3 ==> badges[2].statusType == StatusBadge.SizeBadge && badges[2].Valid()
      modifies badges
      ensures BadgesShow(badges, tc, fixed3)
      ensures |badges| == 3 && tc.size.Some? ==> badges[2].text == SizeText(tc.size.value, fixed1)
      ensures |badges| == 3 && tc.size.None? ==> badges[2].text == old(badges[2].text)
    {
      badges[0].UpdateStatus(StatusBadge.Status(tc.status), Capitalized(tc.status));
      badges[1].UpdateStatus(StatusBadge.DurationBadge, DurationLabel(tc, fixed3));
      if |badges| > 2 && tc.size.Some? {
        badges[2].UpdateStatus(StatusBadge.SizeBadge, SizeText(tc.size.value, fixed1));
      }
    }
  }
}
