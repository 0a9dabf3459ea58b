/** The logs screen: the filter bar and the log table side by side, with
    each message the bar posts handed to the table. */
module LogsScreen {
  import opened Wrappers
  import opened TuiModels
  import LogTable
  import LogFilterBar

  class LogsScreen {
    const bar: LogFilterBar.LogFilterBar
    const table: LogTable.LogTable

    /** The table filters by exactly the set the bar shows as active. */
    predicate Valid()
      reads this, bar, table
    {
      bar.Valid() && table.Valid() && table.currentFilters == bar.activeFilters
    }

    constructor (logs: seq<LogEntry>, lower: string -> string)
      ensures Valid()
      ensures fresh(bar) && fresh(table)
      ensures table.logs == logs && table.lower == lower
      ensures table.filteredLogs == logs
    {
      bar := new LogFilterBar.LogFilterBar();
      table := new LogTable.LogTable(logs, lower);
    }

    /** A press on a bar button, then delivery of what it posted:
        `on_filter_changed` passes the new set to `filter_logs`. */
    method PressButton(buttonId: string)
      requires Valid()
      modifies bar, table
      ensures Valid()
      ensures table.currentSearch == old(table.currentSearch)
      ensures table.filteredLogs == LogTable.Visible(table.logs, bar.activeFilters, table.currentSearch, table.lower)
      ensures LogFilterBar.PressEffect(old(bar.activeFilters), buttonId).Some? ==>
        && bar.activeFilters == LogFilterBar.PressEffect(old(bar.activeFilters), buttonId).value
        && table.rows == LogTable.RowsOf(table.filteredLogs)
      ensures LogFilterBar.PressEffect(old(bar.activeFilters), buttonId).None? ==>
        && bar.activeFilters == old(bar.activeFilters) && table.filteredLogs == old(table.filteredLogs)
        && table.rows == old(table.rows)
    {
      var before := |bar.posted|;
      bar.OnButtonPressed(buttonId);
      if |bar.posted| > before {
        var msg := bar.posted[|bar.posted| - 1];
        if msg.FilterChanged? {
          table.FilterLogs(msg.activeFilters);
        }
      }
    }

    /** Typing into the search input, then delivery of SearchChanged:
        `on_search_changed` passes the raw text to `search_logs`, which
        lowercases it. */
    method TypeSearch(value: string)
      requires Valid()
      modifies bar, table
      ensures Valid()
      ensures table.currentSearch == table.lower(value)
      ensures bar.activeFilters == old(bar.activeFilters)
      ensures table.filteredLogs == LogTable.Visible(table.logs, bar.activeFilters, table.lower(value), table.lower)
      ensures table.rows == LogTable.RowsOf(table.filteredLogs)
    {
      bar.OnInputChanged("log-search", value);
      var msg := bar.posted[|bar.posted| - 1];
      table.SearchLogs(msg.query);
    }
  }

  /** Pressing "All" while every type is active posts the empty set, and
      the table then shows the same logs as before: nothing is hidden. */
  lemma AllOffShowsEverything(logs: seq<LogEntry>, search: string, lower: string -> string)
    ensures LogFilterBar.PressEffect(AllLogTypes, "filter-all") == Some({})
    ensures LogTable.Visible(logs, {}, search, lower) == LogTable.Visible(logs, AllLogTypes, search, lower)
  {
    LogFilterBar.PressEffectCases(AllLogTypes, "filter-all");
    LogTable.EmptyAndAllAgree(logs, search, lower);
  }
}
