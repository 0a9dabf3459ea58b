/** The filter bar above the log table: four per-type toggle buttons, an
    "All" button and a search input. Every change is announced by posting a
    message, kept here in the order posted. */
module LogFilterBar {
  import opened Wrappers
  import opened TuiModels

  /** `FilterChanged(active_filters)` and `SearchChanged(query)`. */
  datatype BarMessage = FilterChanged(activeFilters: set<LogType>) | SearchChanged(query: string)

  /** The active set after toggling t: t flips, every other type keeps its
      state. */
  function Toggle(filters: set<LogType>, t: LogType): (r: set<LogType>)
    ensures t in r <==> t !in filters
    ensures forall u :: u != t ==> (u in r <==> u in filters)
  {
    if t in filters then filters - {t} else filters + {t}
  }

  /** Toggling the same type twice restores the set. */
  lemma ToggleTwice(filters: set<LogType>, t: LogType)
    ensures Toggle(Toggle(filters, t), t) == filters
  {
  }

  /** A set of log types has four members exactly when it holds them all. */
  lemma FourMeansAll(filters: set<LogType>)
    ensures |filters| == 4 <==> filters == AllLogTypes
  {
    LiteralsDistinct();
    assert filters <= AllLogTypes;
    if filters != AllLogTypes {
      var t :| t in AllLogTypes - filters;
      assert filters <= AllLogTypes - {t};
      assert |AllLogTypes - {t}| == 3;
      SubsetSize(filters, AllLogTypes - {t});
    }
  }

  lemma {:induction false} SubsetSize(a: set<LogType>, b: set<LogType>)
    requires a <= b
    ensures |a| <= |b|
    decreases |b|
  {
    if b != {} {
      var x :| x in b;
      SubsetSize(a - {x}, b - {x});
    }
  }

  /** The log type behind each per-type button id. */
  function ButtonType(buttonId: string): (r: Option<LogType>)
    ensures r == Some(Info) <==> buttonId == "filter-info"
    ensures r == Some(Tool) <==> buttonId == "filter-tool"
    ensures r == Some(Error) <==> buttonId == "filter-error"
    ensures r == Some(Debug) <==> buttonId == "filter-debug"
  {
    if buttonId == "filter-info" then Some(Info)
    else if buttonId == "filter-tool" then Some(Tool)
    else if buttonId == "filter-error" then Some(Error)
    else if buttonId == "filter-debug" then Some(Debug)
    else None
  }

  /** The active set a button press leads to, or None for a button that is
      not one of the filter buttons. */
  function PressEffect(filters: set<LogType>, buttonId: string): (r: Option<set<LogType>>)
  {
    if buttonId == "filter-all" then Some(if |filters| == 4 then {} else AllLogTypes)
    else match ButtonType(buttonId)
      case Some(t) => Some(Toggle(filters, t))
      case None => None
  }

  /** "All" clears the set when every type is active and otherwise turns
      every type on; each type button flips its own type only; any other
      button changes nothing. */
  lemma PressEffectCases(filters: set<LogType>, buttonId: string)
    ensures buttonId == "filter-all" && filters == AllLogTypes ==> PressEffect(filters, buttonId) == Some({})
    ensures buttonId == "filter-all" && filters != AllLogTypes ==> PressEffect(filters, buttonId) == Some(AllLogTypes)
    ensures ButtonType(buttonId).Some? ==>
      var t := ButtonType(buttonId).value;
      && PressEffect(filters, buttonId).Some?
      && (t in PressEffect(filters, buttonId).value <==> t !in filters)
      && forall u :: u != t ==> (u in PressEffect(filters, buttonId).value <==> u in filters)
    ensures buttonId != "filter-all" && ButtonType(buttonId).None? ==> PressEffect(filters, buttonId).None?
  {
    FourMeansAll(filters);
  }

  /** Pressing "All" twice from any state ends with every type active. */
  lemma AllTwice(filters: set<LogType>)
    ensures var once := PressEffect(filters, "filter-all").value;
      once == {} || once == AllLogTypes
    ensures var once := PressEffect(filters, "filter-all").value;
      PressEffect(once, "filter-all").value == (if once == {} then AllLogTypes else {})
  {
    LiteralsDistinct();
    FourMeansAll(filters);
    FourMeansAll(PressEffect(filters, "filter-all").value);
  }

  class LogFilterBar {
    var activeFilters: set<LogType>
    /** The types whose button carries the "active" style class. */
    var styledActive: set<LogType>
    var posted: seq<BarMessage>

    /** The button styles always show the active set. */
    predicate Valid()
      reads this
    {
      styledActive == activeFilters
    }

    constructor ()
      ensures Valid()
      ensures activeFilters == AllLogTypes
      ensures posted == []
    {
      activeFilters := {Info, Tool, Error, Debug};
      styledActive := {Info, Tool, Error, Debug};
      posted := [];
    }

    method UpdateButtonStyles()
      modifies this
      ensures Valid()
      ensures activeFilters == old(activeFilters) && posted == old(posted)
    {
      styledActive := activeFilters;
    }

    /** Flips one type and posts one FilterChanged carrying the new set. */
    method ToggleFilter(t: LogType)
      requires Valid()
      modifies this
      ensures Valid()
      ensures activeFilters == Toggle(old(activeFilters), t)
      ensures posted == old(posted) + [FilterChanged(activeFilters)]
    {
      if t in activeFilters {
        activeFilters := activeFilters - {t};
      } else {
        activeFilters := activeFilters + {t};
      }
      UpdateButtonStyles();
      posted := posted + [FilterChanged(activeFilters)];
    }

    /** All four types or none, then one FilterChanged. */
    method SetAllFilters(active: bool)
      requires Valid()
      modifies this
      ensures Valid()
      ensures activeFilters == (if active then AllLogTypes else {})
      ensures posted == old(posted) + [FilterChanged(activeFilters)]
    {
      if active {
        activeFilters := {Info, Tool, Error, Debug};
      } else {
        activeFilters := {};
      }
      UpdateButtonStyles();
      posted := posted + [FilterChanged(activeFilters)];
    }

    /** A press on a filter button changes the set as `PressEffect` says and
        posts exactly one FilterChanged; any other button does nothing. */
    method OnButtonPressed(buttonId: string)
      requires Valid()
      modifies this
      ensures Valid()
      ensures PressEffect(old(activeFilters), buttonId).Some? ==>
        && activeFilters == PressEffect(old(activeFilters), buttonId).value
        && posted == old(posted) + [FilterChanged(activeFilters)]
      ensures PressEffect(old(activeFilters), buttonId).None? ==>
        activeFilters == old(activeFilters) && posted == old(posted)
    {
      if buttonId == "filter-all" {
        if |activeFilters| == 4 {
          SetAllFilters(false);
        } else {
          SetAllFilters(true);
        }
      } else if buttonId == "filter-info" {
        ToggleFilter(Info);
      } else if buttonId == "filter-tool" {
        ToggleFilter(Tool);
      } else if buttonId == "filter-error" {
        ToggleFilter(Error);
      } else if buttonId == "filter-debug" {
        ToggleFilter(Debug);
      }
    }

    /** Typing in the search input posts the raw text; the filter set is
        untouched. */
    method OnInputChanged(inputId: string, value: string)
      requires Valid()
      modifies this
      ensures Valid()
      ensures activeFilters == old(activeFilters)
      ensures posted == old(posted) + (if inputId == "log-search" then [SearchChanged(value)] else [])
    {
      if inputId == "log-search" {
        posted := posted + [SearchChanged(value)];
      }
    }
  }
}
