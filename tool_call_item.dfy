/** One entry of the tool-call timeline: up to four lines of styled text
    built from a tool call, with a cursor on the selected entry. */
module ToolCallItem {
  import opened Wrappers
  import opened TuiModels
  import opened Rich
  import Text
  import StatusBadge

  const Cursor: string := " \U{25C4}\U{2500}\U{2500}"

  /** `_truncate`: the text when it fits, otherwise as many leading
      characters as leave room for "..." (Python slicing, so a limit below
      three cuts from the back). */
  function Truncate(text: string, maxLength: int): (r: string)
    ensures |text| <= maxLength ==> r == text
    ensures |text| > maxLength >= 3 ==> r == text[..maxLength - 3] + "..."
    ensures maxLength >= 3 ==> |r| <= maxLength
  {
    if |text| <= maxLength then text else Text.PySliceTo(text, maxLength - 3) + "..."
  }

  /** A truncated text is always recognisable: it is the text itself or a
      prefix of it followed by "...". */
  lemma TruncateIsPrefix(text: string, maxLength: int)
    ensures var r := Truncate(text, maxLength);
      r == text || (|r| >= 3 && r[..|r| - 3] <= text && r[|r| - 3..] == "...")
  {
    var r := Truncate(text, maxLength);
    if |text| > maxLength {
      var front := Text.PySliceTo(text, maxLength - 3);
      assert r[..|r| - 3] == front;
    }
  }

  /** The first line: number, status icon and tool name, with the cursor
      when selected. */
  function HeadLine(tc: ToolCall, selected: bool): string
  {
    Text.IntToString(tc.sequenceNumber) + ". " + StatusBadge.StatusIcon(tc.status).0 + " " + tc.toolName
    + (if selected then Cursor else "")
  }

  /** The styled text `_update_renderable` builds. */
  function Render(tc: ToolCall, selected: bool, fixed3: real -> string): (t: StyledText)
  {
    var color := StatusBadge.StatusIcon(tc.status).1;
    [Span(HeadLine(tc, selected) + "\n", if tc.status != Queued then color else "bright_black"),
     Span("   " + TimeOfDay(tc.timestamp) + " " + StatusBadge.Bar + " " + DurationLabel(tc, fixed3) + "\n", "bright_black"),
     Span("   " + Truncate(tc.summary, 50) + "\n", "bright_black")]
    + (match tc.resultSummary
       case Some(rs) => if rs != "" then [Span("   " + Truncate(rs, 30), "bright_black")] else []
       case None => [])
  }

  /** The fourth line appears exactly when there is a non-empty result
      summary; the summary line holds at most 50 characters of summary and
      the result line at most 30; all lines but the first are bright
      black. */
  lemma RenderShape(tc: ToolCall, selected: bool, fixed3: real -> string)
    ensures var t := Render(tc, selected, fixed3);
      && (|t| == 4 <==> tc.resultSummary.Some? && tc.resultSummary.value != "")
      && 3 <= |t| <= 4
      && |t[2].text| <= 3 + 50 + 1
      && (|t| == 4 ==> |t[3].text| <= 3 + 30)
      && forall k :: 1 <= k < |t| ==> t[k].style == "bright_black"
  {
  }

  /** Selecting an entry only adds the cursor to the end of its first line;
      colours and every other line stay the same. */
  lemma SelectionAddsCursor(tc: ToolCall, fixed3: real -> string)
    ensures var on := Render(tc, true, fixed3);
            var off := Render(tc, false, fixed3);
      && |on| == |off|
      && on[0].text == HeadLine(tc, false) + Cursor + "\n"
      && off[0].text == HeadLine(tc, false) + "\n"
      && on[0].style == off[0].style
      && on[1..] == off[1..]
  {
  }

  class ToolCallItem {
    const fixed3: real -> string
    var toolCall: ToolCall
    var selected: bool
    var rendered: StyledText
    /** Whether the widget carries the "selected" style class. */
    var selectedClass: bool

    /** The text on screen and the style class follow the data. */
    predicate Valid()
      reads this
    {
      rendered == Render(toolCall, selected, fixed3) && selectedClass == selected
    }

    constructor (toolCall: ToolCall, selected: bool, fixed3: real -> string)
      ensures Valid()
      ensures this.toolCall == toolCall && this.selected == selected && this.fixed3 == fixed3
    {
      this.toolCall := toolCall;
      this.selected := selected;
      this.fixed3 := fixed3;
      new;
      UpdateRenderable();
    }

    method UpdateRenderable()
      modifies this
      ensures Valid()
      ensures toolCall == old(toolCall) && selected == old(selected)
    {
      rendered := Render(toolCall, selected, fixed3);
      selectedClass := selected;
    }

    /** Sets the flag and renders again. */
    method SetSelected(selected: bool)
      modifies this
      ensures Valid()
      ensures this.selected == selected && toolCall == old(toolCall)
    {
      this.selected := selected;
      UpdateRenderable();
    }
  }
}
