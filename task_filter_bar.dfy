/** The filter bar of components/shared/task-filter-bar.tsx: the list
    toggles and filter removals it passes to `onFilterChange`, and its
    local copy of the search text. */
module TaskFilterBar {
  import opened Types
  import opened Seqs
  import opened TaskFilters

  /** A call `onFilterChange(key, value)`. */
  datatype Change = Change(key: FilterKey, value: FilterValue)

  /** The current list of a list-valued filter, `filters[key] as string[]`. */
  function Current(f: Filters, k: FilterKey): seq<string>
    requires k != Search
  {
    Get(f, k).items
  }

  class FilterBarState {
    var filters: Filters
    var search: string

    /** `useState(filters.search)`. */
    constructor (filters: Filters)
      ensures this.filters == filters && search == filters.search
    {
      this.filters := filters;
      search := filters.search;
    }

    /** A re-render with new `filters`: the local search text is not re-synced. */
    method Rerender(filters: Filters)
      modifies this
      ensures this.filters == filters && search == old(search)
    {
      this.filters := filters;
    }

    /** Typing in the search box sets the local text. The source also schedules
        `onFilterChange("search", value)` 300 ms later, once per keystroke (the
        returned `clearTimeout` cleanup is discarded by the caller, so nothing
        is debounced); that timer is not modelled. */
    method HandleSearchChange(value: string)
      modifies this
      ensures search == value && filters == old(filters)
    {
      search := value;
    }

    /** `toggleArrayFilter(key, value)` for the list filters (status, priority, assignee). */
    method ToggleArrayFilter(k: FilterKey, value: string) returns (change: Change)
      requires k != Search
      ensures change.key == k && change.value.Selection?
      ensures IsToggle(Current(filters, k), value, change.value.items)
    {
      var current := Current(filters, k);
      ToggleSpec(current, value);
      change := Change(k, Selection(Toggle(current, value)));
    }

    /** `removeFilter(key, value?)`: the search box and filter are emptied for
        `search`; a non-empty `value` is removed from its list; otherwise the
        whole list is emptied. */
    method RemoveFilter(k: FilterKey, value: Option<string>) returns (change: Change)
      modifies this
      ensures filters == old(filters)
      ensures k == Search ==> search == "" && change == Change(Search, Query(""))
      ensures k != Search ==> search == old(search) && change.key == k && change.value.Selection?
      ensures k != Search && IsPresent(value) ==>
        IsRemoval(Current(filters, k), value.value, change.value.items)
      ensures k != Search && !IsPresent(value) ==> change.value.items == []
      ensures Fits(change.key, change.value)
    {
      if k == Search {
        search := "";
        change := Change(Search, Query(""));
      } else if IsPresent(value) {
        RemoveSpec(Current(filters, k), value.value);
        change := Change(k, Selection(Remove(Current(filters, k), value.value)));
      } else {
        change := Change(k, Selection([]));
      }
    }
  }
}
