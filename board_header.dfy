/** The board header of components/views/board-header.tsx: the filter
    toggles it emits to the board, the filter count badge, and the
    project-name editor. Props are fields that a re-render replaces; a callback the header
    calls is returned as the value it is called with. */
module BoardHeader {
  import opened Seqs

  /** `activeFilterCount`: the number of selected values, over all three lists. */
  function ActiveFilterCount(assignees: seq<string>, priorities: seq<string>, labels: seq<string>): (n: nat)
    ensures n == 0 <==> assignees == [] && priorities == [] && labels == []
    ensures n >= (if assignees != [] then 1 else 0) + (if priorities != [] then 1 else 0) + (if labels != [] then 1 else 0)
  {
    |assignees| + |priorities| + |labels|
  }

  /** The lists `clearFilters` emits, in the order it calls the three callbacks. */
  datatype Cleared = Cleared(assignees: seq<string>, priorities: seq<string>, labels: seq<string>)

  class HeaderState {
    var projectName: string
    var filterAssignees: seq<string>
    var filterPriorities: seq<string>
    var filterLabels: seq<string>
    var isEditing: bool
    var editedName: string

    constructor (projectName: string, assignees: seq<string>, priorities: seq<string>, labels: seq<string>)
      ensures this.projectName == projectName
      ensures filterAssignees == assignees && filterPriorities == priorities && filterLabels == labels
      ensures !isEditing && editedName == projectName
    {
      this.projectName := projectName;
      filterAssignees := assignees;
      filterPriorities := priorities;
      filterLabels := labels;
      isEditing := false;
      editedName := projectName;
    }

    /** `toggleAssignee(userId)`: the list passed to `onFilterAssigneesChange`. */
    method ToggleAssignee(userId: string) returns (emitted: seq<string>)
      ensures emitted == Toggle(filterAssignees, userId)
      ensures IsToggle(filterAssignees, userId, emitted)
    {
      ToggleSpec(filterAssignees, userId);
      emitted := if userId in filterAssignees then Remove(filterAssignees, userId) else filterAssignees + [userId];
    }

    /** `togglePriority(priority)`: the list passed to `onFilterPrioritiesChange`. */
    method TogglePriority(priority: string) returns (emitted: seq<string>)
      ensures emitted == Toggle(filterPriorities, priority)
      ensures IsToggle(filterPriorities, priority, emitted)
    {
      ToggleSpec(filterPriorities, priority);
      emitted := if priority in filterPriorities then Remove(filterPriorities, priority) else filterPriorities + [priority];
    }

    /** `clearFilters()`. */
    method ClearFilters() returns (emitted: Cleared)
      ensures emitted == Cleared([], [], [])
      ensures ActiveFilterCount(emitted.assignees, emitted.priorities, emitted.labels) == 0
    {
      emitted := Cleared([], [], []);
    }

    function FilterCount(): nat
      reads this
    {
      ActiveFilterCount(filterAssignees, filterPriorities, filterLabels)
    }

    /** A re-render with new props; the local editing state is kept. */
    method Rerender(projectName: string, assignees: seq<string>, priorities: seq<string>, labels: seq<string>)
      modifies this
      ensures this.projectName == projectName
      ensures filterAssignees == assignees && filterPriorities == priorities && filterLabels == labels
      ensures isEditing == old(isEditing) && editedName == old(editedName)
    {
      this.projectName := projectName;
      filterAssignees := assignees;
      filterPriorities := priorities;
      filterLabels := labels;
    }

    /** Clicking the title. */
    method StartEditing()
      modifies this
      ensures projectName == old(projectName) && filterAssignees == old(filterAssignees)
      ensures filterPriorities == old(filterPriorities) && filterLabels == old(filterLabels)
      ensures isEditing && editedName == old(editedName)
    {
      isEditing := true;
    }

    method TypeName(text: string)
      modifies this
      ensures projectName == old(projectName) && filterAssignees == old(filterAssignees)
      ensures filterPriorities == old(filterPriorities) && filterLabels == old(filterLabels)
      ensures editedName == text && isEditing == old(isEditing)
    {
      editedName := text;
    }

    /** `handleNameSave` (Enter or blur): only leaves editing; nothing is saved. */
    method HandleNameSave()
      modifies this
      ensures projectName == old(projectName) && filterAssignees == old(filterAssignees)
      ensures filterPriorities == old(filterPriorities) && filterLabels == old(filterLabels)
      ensures !isEditing && editedName == old(editedName)
    {
      isEditing := false;
    }

    /** Escape: back to the project's name, editing ends. */
    method EscapeName()
      modifies this
      ensures projectName == old(projectName) && filterAssignees == old(filterAssignees)
      ensures filterPriorities == old(filterPriorities) && filterLabels == old(filterLabels)
      ensures !isEditing && editedName == projectName
    {
      editedName := projectName;
      isEditing := false;
    }
  }
}
