/** A badge: an icon and a text, both coloured by the badge's type. The
    type is one of the four execution statuses, a duration or size badge,
    or any other name (the type annotation is not enforced at run time). */
module StatusBadge {
  import opened TuiModels
  import opened Rich

  datatype BadgeType = Status(status: StatusType) | DurationBadge | SizeBadge | Other(name: string)

  const CheckMark: string := "\U{2713}"
  const Lightning: string := "\U{26A1}"
  const Hourglass: string := "\U{23F3}"
  const CrossMark: string := "\U{274C}"
  const Bar: string := "\U{2502}"

  /** The icon and colour of each execution status. */
  function StatusIcon(s: StatusType): (ic: (string, string))
    ensures ic.0 != ""
  {
    match s
    case Success => (CheckMark, "green")
    case Running => (Lightning, "yellow")
    case Queued => (Hourglass, "bright_black")
    case Failed => (CrossMark, "red")
  }

  /** The icon table: the statuses as above, a bar for duration and size,
      no icon and white for any other type. */
  function Icon(t: BadgeType): (ic: (string, string))
    ensures ic.0 == "" <==> t.Other?
    ensures t.DurationBadge? || t.SizeBadge? ==> ic == (Bar, "bright_black")
  {
    match t
    case Status(s) => StatusIcon(s)
    case DurationBadge => (Bar, "bright_black")
    case SizeBadge => (Bar, "bright_black")
    case Other(_) => ("", "white")
  }

  /** The rendered badge. */
  function Render(t: BadgeType, text: string): StyledText
  {
    var (icon, color) := Icon(t);
    (if icon != "" then [Span(icon + " ", color)] else [])
    + [Span(text, if t.Status? then color else "bright_black")]
  }

  /** What a badge shows is its icon and a space, when it has an icon, then
      its text; the text takes the icon's colour only for an execution
      status and is bright black otherwise. */
  lemma RenderShows(t: BadgeType, text: string)
    ensures Plain(Render(t, text)) == (if t.Other? then text else Icon(t).0 + " " + text)
    ensures var r := Render(t, text);
      r[|r| - 1].text == text
      && r[|r| - 1].style == (if t.Status? then Icon(t).1 else "bright_black")
  {
    var r := Render(t, text);
    if t.Other? {
      assert Plain(r) == text + Plain([]);
    } else {
      assert r == [Span(Icon(t).0 + " ", Icon(t).1), Span(text, r[1].style)];
      assert r[1..] == [r[1]];
      assert Plain(r[1..]) == text + Plain([]);
    }
  }

  class StatusBadge {
    var statusType: BadgeType
    var text: string
    var rendered: StyledText

    predicate Valid()
      reads this
    {
      rendered == Render(statusType, text)
    }

    constructor (statusType: BadgeType, text: string)
      ensures Valid()
      ensures this.statusType == statusType && this.text == text
    {
      this.statusType := statusType;
      this.text := text;
      rendered := Render(statusType, text);
    }

    /** Replaces both the type and the text and renders again. */
    method UpdateStatus(statusType: BadgeType, text: string)
      modifies this
      ensures Valid()
      ensures this.statusType == statusType && this.text == text
    {
      this.statusType := statusType;
      this.text := text;
      rendered := Render(statusType, text);
    }
  }
}
