# Kanban board model

This project is a Dafny model of the client-side logic in a Next.js project-management app. It covers:

- **The Kanban board.** Columns of tasks, three filter lists, a sort key, and a drag state machine that reorders columns and moves tasks between columns.
- **The task-filter hook.** It is used by the list and calendar views.
- **Smaller helpers inside UI components.** These are the column's WIP (work-in-progress) limit and its input guards, the board header's filter toggles, the filter bar, the top bar's breadcrumbs, the sidebar's expanded projects and highlighted links, the route gate of the auth middleware, the command palette's search, the task card's label overflow and subtask count, and avatar initials.

Components that keep state in place are classes:

- `BoardView.BoardState`
- `TaskFilters.TaskFilterState`
- `BoardColumn.ColumnEditor`
- `BoardHeader.HeaderState`
- `TaskFilterBar.FilterBarState`
- `Sidebar.SidebarState`
- `CommandPalette.PaletteState`

Each method's `ensures` gives the new state as a pure function of the old one, and the lemmas about those functions state what the app promises. A callback that a component fires (`onRename`, `onFilterChange`, …) is returned as the value it would be called with. The records of `lib/types.ts` are datatypes in `types.dfy`:

- a label is either a bare string or an `{id, name, color}` object;
- times are integers;
- a JavaScript number is `JsNumber`: `NaN` or an integer.

Shared sequence and text operations are defined once each, in `seqs.dfy` and `text.dfy`. They are JavaScript's `filter`, `slice(0, n)`, `map`, `toLowerCase`/`toUpperCase` (ASCII only), `startsWith`, `includes`, `trim`, `split(' ')` and `parseInt`, plus the board's `arrayMove`.

The model follows the code as written:

- Card `position` fields are never renumbered after a move.
- A drag released over nothing keeps the column changes that drag-over already wrote.
- Drag-over writes `columnId` itself; it is not only a preview.
- Drag-end onto a task moves it by its index in the whole task list, not within its column.

## Model

| member | source | states |
|---|---|---|
| Seqs.Filter | components/views/board-view.tsx:70-83 | `filter` keeps exactly the elements that pass, and never lengthens the list |
| Seqs.FilterIsSubseq | hooks/use-task-filters.ts:24 | a filtered list is an order-preserving subsequence of its input |
| Seqs.FilterCount | hooks/use-task-filters.ts:24 | each passing value occurs as often as in the input, a failing one not at all |
| Seqs.FilterIdempotent | hooks/use-task-filters.ts:23-53 | filtering twice by the same test is filtering once |
| Seqs.ArrayMove | components/views/board-view.tsx:137 | remove at `from`, insert at `to`: same length, and the moved element lands at `to` |
| Seqs.ArrayMoveShape | components/views/board-view.tsx:184 | `arrayMove` is a permutation and keeps the relative order of the other elements |
| Seqs.ArrayMoveRoundTrip | components/views/board-view.tsx:199 | moving back from `to` to `from` restores the list |
| Seqs.FilterArrayMove | components/views/board-view.tsx:199-202 | filtering out the moved element gives the same list before and after the move |
| Seqs.Remove | components/views/board-header.tsx:79 | `filter(v => v !== x)` leaves no `x` behind |
| Seqs.RemoveSpec | components/shared/task-filter-bar.tsx:53 | removal deletes every occurrence and keeps the other values in order |
| Seqs.ToggleSpec | components/views/board-header.tsx:77-83 | toggling appends an absent value and removes every occurrence of a present one |
| Seqs.ToggleTwice | components/layout/sidebar.tsx:65-71 | toggling an absent value twice gives back the original list |
| Seqs.IndexOf | components/views/board-view.tsx:133-136 | `findIndex` returns the first index holding the id, or -1 exactly when the id is absent |
| Text.ContainsIff | hooks/use-task-filters.ts:25 | `includes` holds exactly when the query occurs at some index |
| Text.TrimEmptyIff | components/views/board-column.tsx:99 | the trim is empty exactly when the text is all whitespace |
| Text.JoinSplit | components/shared/user-avatar.tsx:21 | joining the pieces of `split(' ')` gives back the string |
| Text.SplitJoin | components/shared/user-avatar.tsx:21 | splitting a join of space-free pieces gives back the pieces |
| Text.ParseIntToString | components/views/board-column.tsx:76 | `parseInt(String(n))` is `n` for every safe integer (at most 2^53 - 1 in magnitude) |
| BoardFilter.FilteredTasks | components/views/board-view.tsx:66-88 | never longer than the task list, and the whole list when all three filter lists are empty |
| BoardFilter.FilteredTasksIsOneFilter | components/views/board-view.tsx:66-88 | the three gated stages are one filter by the conjunction of the active tests |
| BoardFilter.FilteredTasksSpec | components/views/board-view.tsx:66-88 | order-preserving subsequence; a task is shown iff it passes every active filter; multiplicities are kept |
| BoardFilter.UnassignedHidden | components/views/board-view.tsx:69-73 | a task whose `assigneeId` is null or empty is hidden once an assignee is selected |
| BoardFilter.UserById | components/views/board-view.tsx:61-64 | the first user with that id; null iff the id is falsy or no user has it |
| BoardSort.SortedTasks | components/views/board-view.tsx:90-107 | the result is a permutation of the input, and `manual` (any other key) keeps the order |
| BoardSort.SortSorted | components/views/board-view.tsx:93-104 | the result is ordered by the comparator's relation |
| BoardSort.SortStable | components/views/board-view.tsx:93-104 | for priority and creation date, tasks with equal keys keep their order |
| BoardSort.PrioritySort | components/views/board-view.tsx:94-95 | Urgent, High, Medium, Low, with ties in their prior order |
| BoardSort.CreatedDateSort | components/views/board-view.tsx:103 | newest first, with ties in their prior order |
| BoardSort.DueDateSort | components/views/board-view.tsx:97-101 | every dated task before every undated one, and dated tasks ascending |
| BoardSort.TasksForColumnSpec | components/views/board-view.tsx:109-113 | a column holds exactly the filtered tasks of that column, each as often; with `manual` it is a subsequence of the task list |
| BoardView.Retag | components/views/board-view.tsx:150-158 | `map` that sets `columnId` on the task with that id and leaves every other task as it is |
| BoardView.RetagSpec | components/views/board-view.tsx:150-158 | only the dragged task's `columnId` changes; ids, order and the other tasks are kept |
| BoardView.Drag | components/views/board-view.tsx:119-127 | with no target, or a target equal to the dragged item, both lists are unchanged |
| BoardView.ColumnDrag | components/views/board-view.tsx:132-140 | columns change only when both ends are columns, into `arrayMove` of the old order; tasks never change |
| BoardView.DragEndOntoTask | components/views/board-view.tsx:194-203 | the ids permute by `arrayMove` of global indices; the dragged task lands at the target's index with the target's column; the other tasks are unchanged |
| BoardView.DragMovesOnlyTheDraggedTask | components/views/board-view.tsx:141-161 | drag-over, and drag-end off a task, either permutes the columns or changes only the dragged task's column, to the hovered task's column or the hovered column |
| BoardView.DragTaskJoinsTarget | components/views/board-view.tsx:141-161 | a task dragged over a task or a column (or dropped on a column) ends up in the hovered task's column or that column; only its `columnId` changes, and the columns are kept |
| BoardView.EditColumn | components/views/board-view.tsx:224-245 | only the matching column's entry is edited |
| BoardView.EditColumnSpec | components/views/board-view.tsx:224-245 | rename, recolour and WIP change just their own field of the matching column; unknown ids are no-ops |
| BoardView.DeleteColumnSpec | components/views/board-view.tsx:236-239 | removes exactly that column and exactly its tasks, keeping the order of the rest |
| BoardView.AddColumn | components/views/board-view.tsx:213-222 | appends one column with position equal to the old column count; tasks unchanged |
| BoardView.AddThenDeleteColumn | components/views/board-view.tsx:213-239 | deleting a freshly added empty column gives back the board |
| BoardView.AddTask | components/views/board-view.tsx:247-266 | appends one `todo`, `medium`, unassigned, undated task whose position is the column's visible task count |
| BoardView.AddTaskShowsLast | components/views/board-view.tsx:247-266 | with no filters and manual order, the new task shows last in its column at its own position |
| BoardView.BoardState.constructor | components/views/board-view.tsx:38-45 | the initial state: the board's columns, the given tasks, nothing dragged, no filters, `manual`, `status` |
| BoardView.BoardState.Rerender | components/views/board-view.tsx:37-64 | new `board` and `users` props replace the old ones; every `useState` field keeps its value |
| BoardView.UserAfterRerender | components/views/board-view.tsx:61-64 | after a re-render with a newly fetched user list, `getUserById` of that list's first user's id returns that user |
| BoardView.BoardState.ActiveTask | components/views/board-view.tsx:58 | the dragged task exists iff `activeId` names a task |
| BoardView.BoardState.ActiveColumn | components/views/board-view.tsx:59 | the dragged column exists iff `activeId` names a column |
| BoardView.BoardState.HandleDragStart | components/views/board-view.tsx:115-117 | records the active id and nothing else |
| BoardView.BoardState.HandleDragOver | components/views/board-view.tsx:119-162 | the lists become `DragOver` of the old lists; `activeId` is kept |
| BoardView.BoardState.HandleDragEnd | components/views/board-view.tsx:164-211 | the lists become `DragEnd` of the old lists, and `activeId` is always cleared |
| BoardView.BoardState.HandleAddColumn | components/views/board-view.tsx:213-222 | the lists become `AddColumn` of the old lists |
| BoardView.BoardState.HandleColumnEdit | components/views/board-view.tsx:224-245 | columns become `EditColumn`; nothing else changes |
| BoardView.BoardState.HandleColumnRename | components/views/board-view.tsx:224-228 | renames the matching column only |
| BoardView.BoardState.HandleColumnColorChange | components/views/board-view.tsx:230-234 | recolours the matching column only |
| BoardView.BoardState.HandleSetWipLimit | components/views/board-view.tsx:241-245 | sets the matching column's limit only |
| BoardView.BoardState.HandleColumnDelete | components/views/board-view.tsx:236-239 | the lists become `DeleteColumn` of the old lists |
| BoardView.BoardState.HandleAddTask | components/views/board-view.tsx:247-266 | the lists become `AddTask` under the current filters and sort |
| BoardView.BoardState.SetFilterAssignees | components/views/board-view.tsx:272 | replaces only the assignee filter |
| BoardView.BoardState.SetFilterPriorities | components/views/board-view.tsx:273 | replaces only the priority filter |
| BoardView.BoardState.SetFilterLabels | components/views/board-view.tsx:274 | replaces only the label filter |
| BoardView.BoardState.SetView | components/views/board-view.tsx:275-276 | replaces only the sort and group keys |
| TaskFilters.Keep | hooks/use-task-filters.ts:24-52 | the early-return chain of the five filters; its meaning is stated by `KeepIff` |
| TaskFilters.FilteredTasks | hooks/use-task-filters.ts:23-53 | never longer than the input, and holds exactly the input tasks that `Keep` accepts |
| TaskFilters.KeepIff | hooks/use-task-filters.ts:23-53 | the early-return chain holds iff all five filters pass; an empty filter never constrains |
| TaskFilters.FilteredTasksSpec | hooks/use-task-filters.ts:23-53 | order-preserving subsequence of exactly the passing tasks, each as often as in the input |
| TaskFilters.NoFiltersShowsAll | hooks/use-task-filters.ts:15-21 | the initial (and cleared) filters show every task |
| TaskFilters.FilteredTasksIdempotent | hooks/use-task-filters.ts:23-53 | re-filtering the output gives the same list |
| TaskFilters.UnassignedDropped | hooks/use-task-filters.ts:37-42 | a task with no assignees is dropped once an assignee is selected |
| TaskFilters.ActiveFilterCount | hooks/use-task-filters.ts:69-77 | between 0 and 5, and 0 iff every filter is empty |
| TaskFilters.ActiveFilterCountIsKeysInUse | hooks/use-task-filters.ts:69-77 | the count is the number of filter keys whose value is not empty |
| TaskFilters.With | hooks/use-task-filters.ts:55-57 | `{...prev, [key]: value}` sets that key and leaves every other key unchanged |
| TaskFilters.WithOwnValue | hooks/use-task-filters.ts:55-57 | writing back a key's own value changes nothing |
| TaskFilters.TaskFilterState.constructor | hooks/use-task-filters.ts:15-21 | starts with no filters |
| TaskFilters.TaskFilterState.UpdateFilter | hooks/use-task-filters.ts:55-57 | the filters become `With(old, key, value)` |
| TaskFilters.TaskFilterState.ClearFilters | hooks/use-task-filters.ts:59-67 | the filters become the initial ones |
| BoardColumn.IsOverWipLimit | components/views/board-column.tsx:118 | over implies a truthy limit; an empty column is over only a negative limit |
| BoardColumn.OverWipMonotone | components/views/board-column.tsx:118 | adding tasks never clears the warning |
| BoardColumn.WipLineAsWritten | components/views/board-column.tsx:214-224 | the rendered line: a WIP line iff the limit is truthy, marked exceeded iff over; stray text iff the limit is set but falsy |
| BoardColumn.WipLineAsWrittenAgrees | components/views/board-column.tsx:214-224 | for a truthy limit the rendered line is the corrected one, and an unset limit renders nothing |
| BoardColumn.WipLineStrayZero | components/views/board-column.tsx:214-224 | as written, a limit of 0 or NaN renders the bare text "0" or "NaN" |
| BoardColumn.WipLineShown | components/views/board-column.tsx:214-224 | the WIP line shows iff the limit is truthy, and is marked exceeded iff the column is over it |
| BoardColumn.WipLineWarnsIffOver | components/views/board-column.tsx:218-222 | the line ends in " (Exceeded!)" exactly when the column is over its limit |
| BoardColumn.NonBlank | components/views/board-column.tsx:99 | the untrimmed text when its trim is non-empty, else nothing |
| BoardColumn.WipLimitFromText | components/views/board-column.tsx:113 | `undefined` iff the input is blank, else `parseInt` of it |
| BoardColumn.WipDialogRoundTrip | components/views/board-column.tsx:76 | saving the WIP dialog unedited keeps the column's limit when it is unset, NaN or a safe integer |
| BoardColumn.ShowPlaceholder | components/views/board-column.tsx:229 | the placeholder shows for an empty column while the add-card input is closed |
| BoardColumn.Content | components/views/board-column.tsx:229-246 | the placeholder iff no tasks and the add card is closed; otherwise the cards, in the given order |
| BoardColumn.ContentListsEveryTask | components/views/board-column.tsx:229-246 | a column with tasks lists every one; an empty column with the add card open lists none and shows no placeholder |
| BoardColumn.ColumnEditor.constructor | components/views/board-column.tsx:71-77 | the initial local state |
| BoardColumn.ColumnEditor.Rerender | components/views/board-column.tsx:71-77 | a new `column` prop replaces the old one and every local state is kept, the WIP dialog text included |
| BoardColumn.ColumnEditor.StartEditing | components/views/board-column.tsx:161 | enters editing and changes nothing else |
| BoardColumn.ColumnEditor.TypeName | components/views/board-column.tsx:146 | sets the edited name only |
| BoardColumn.ColumnEditor.HandleNameSave | components/views/board-column.tsx:98-103 | renames only to a non-blank name, passed untrimmed; always leaves editing |
| BoardColumn.ColumnEditor.EscapeName | components/views/board-column.tsx:148-154 | resets the name to the current `column` prop's and leaves editing |
| BoardColumn.ColumnEditor.OpenAddCard | components/views/board-column.tsx:288 | shows the add-card input only |
| BoardColumn.ColumnEditor.TypeTitle | components/views/board-column.tsx:253 | sets the new title only |
| BoardColumn.ColumnEditor.HandleAddTask | components/views/board-column.tsx:105-110 | adds only a non-blank title, and clears the input only then |
| BoardColumn.ColumnEditor.CancelAddCard | components/views/board-column.tsx:256-259 | hides the add-card input and clears it |
| BoardColumn.ColumnEditor.ToggleWipDialog | components/views/board-column.tsx:201 | opens or closes the WIP dialog only |
| BoardColumn.ColumnEditor.TypeWipLimit | components/views/board-column.tsx:311 | sets the dialog text only |
| BoardColumn.ColumnEditor.HandleSetWipLimit | components/views/board-column.tsx:112-116 | passes `WipLimitFromText` of the text, and always closes the dialog |
| BoardColumn.ColumnEditor.ToggleDeleteDialog | components/views/board-column.tsx:205 | opens or closes the delete dialog only |
| BoardColumn.ColumnEditor.ConfirmDelete | components/views/board-column.tsx:338-341 | deletes this column and closes the dialog |
| BoardColumn.RenameThenEscape | components/views/board-column.tsx:98-103 | renaming, re-rendering and pressing Escape in a new edit shows the new name |
| BoardHeader.ActiveFilterCount | components/views/board-header.tsx:99-100 | 0 iff all three lists are empty, and at least the number of non-empty lists |
| BoardHeader.HeaderState.constructor | components/views/board-header.tsx:56-57 | the props as given, not editing, and the edited name is the project name |
| BoardHeader.HeaderState.Rerender | components/views/board-header.tsx:56-57 | new props replace the old ones; the editing state and the edited name are kept |
| BoardHeader.HeaderState.ToggleAssignee | components/views/board-header.tsx:77-83 | emits the assignee list toggled by the id |
| BoardHeader.HeaderState.TogglePriority | components/views/board-header.tsx:85-91 | emits the priority list toggled by the value |
| BoardHeader.HeaderState.ClearFilters | components/views/board-header.tsx:93-97 | emits three empty lists, whose count is 0 |
| BoardHeader.HeaderState.StartEditing | components/views/board-header.tsx:124 | enters editing, name unchanged |
| BoardHeader.HeaderState.TypeName | components/views/board-header.tsx:109 | sets the edited name only |
| BoardHeader.HeaderState.HandleNameSave | components/views/board-header.tsx:73-75 | only leaves editing; nothing is saved |
| BoardHeader.HeaderState.EscapeName | components/views/board-header.tsx:111-117 | resets the name to the project's and leaves editing |
| TaskFilterBar.FilterBarState.constructor | components/shared/task-filter-bar.tsx:29 | the local search starts as the filters' search |
| TaskFilterBar.FilterBarState.Rerender | components/shared/task-filter-bar.tsx:29 | new `filters` replace the old ones and the local search text is not re-synced |
| TaskFilterBar.FilterBarState.HandleSearchChange | components/shared/task-filter-bar.tsx:31-32 | sets the local search text and leaves the filters alone |
| TaskFilterBar.FilterBarState.ToggleArrayFilter | components/shared/task-filter-bar.tsx:39-45 | emits the key's list with the value toggled |
| TaskFilterBar.FilterBarState.RemoveFilter | components/shared/task-filter-bar.tsx:47-57 | search: both texts emptied; with a value: that value removed, the rest kept in order; with no value: the empty list |
| Topbar.ProjectIdOf | components/layout/topbar.tsx:40-41 | an extracted id is non-empty and slash-free, and only under "/projects/" |
| Topbar.ProjectIdOfIff | components/layout/topbar.tsx:40-41 | the id is exactly the non-empty segment after "/projects/" up to the next '/' or the end |
| Topbar.ProjectById | components/layout/topbar.tsx:42 | the first listed project with that id, and none iff no project has it |
| Topbar.Breadcrumbs | components/layout/topbar.tsx:44-84 | always one or two crumbs |
| Topbar.PageCrumb | components/layout/topbar.tsx:45-55 | exactly `/dashboard`, `/my-tasks` or `/inbox` gives its own single crumb |
| Topbar.SettingsCrumbs | components/layout/topbar.tsx:57-65 | Settings first; Team or Profile only for exactly those paths |
| Topbar.ProjectCrumbs | components/layout/topbar.tsx:67-81 | the project's name first, then the first matching view crumb or nothing |
| Topbar.HomeCrumb | components/layout/topbar.tsx:83 | every other path gives the single Home crumb, and only those paths do |
| Topbar.ShowViewTabsIff | components/layout/topbar.tsx:95 | view tabs show iff a project was found |
| Middleware.UpdateSession | lib/supabase/middleware.ts:34-73 | a redirect goes only to /login or /dashboard, and a set cookie is only the demo cookie, only in demo mode |
| Middleware.RoutesDisjoint | lib/supabase/middleware.ts:34-36 | no path is both an auth page and protected, and the callback is neither |
| Middleware.CallbackPassesThrough | lib/supabase/middleware.ts:44-47 | the auth callback passes through whatever the user or the cookie |
| Middleware.ProtectedRedirectsToLogin | lib/supabase/middleware.ts:52-57 | a protected path redirects to /login iff there is neither a user nor demo mode |
| Middleware.AuthRouteWithUser | lib/supabase/middleware.ts:59-64 | an auth page with a user redirects to /dashboard, even in demo mode |
| Middleware.RedirectIff | lib/supabase/middleware.ts:34-73 | the only redirects are these two, each exactly under its own condition |
| Middleware.DemoCookieRefreshed | lib/supabase/middleware.ts:66-71 | without a redirect, the demo cookie is re-set iff demo mode is on |
| Middleware.OtherPathsPass | lib/supabase/middleware.ts:73 | a path neither auth nor protected passes, refreshing the demo cookie when it applies |
| Middleware.PublicRoutesPass | lib/supabase/middleware.ts:37 | `/` and `/pricing` paths always pass; `isPublicRoute` plays no part |
| Sidebar.IsProjectActiveAsWritten | components/layout/sidebar.tsx:196 | the prefix test as written; `ProjectPrefixOverlap` and `ActiveImpliesAsWritten` relate it to the segment test |
| Sidebar.ProjectPrefixOverlap | components/layout/sidebar.tsx:196 | as written, project "1" is highlighted on "/projects/12" |
| Sidebar.ActiveImpliesAsWritten | components/layout/sidebar.tsx:196 | the segment test only removes highlights the prefix test gives |
| Sidebar.ActiveIffTopbarProject | components/layout/sidebar.tsx:196 | for a slash-free id, the segment test agrees with the top bar's project id |
| Sidebar.IsViewActive | components/layout/sidebar.tsx:238-240 | a view link is highlighted on exactly its own path; `AtMostOneViewActive` states its consequence |
| Sidebar.ViewActiveImpliesProjectActive | components/layout/sidebar.tsx:239-240 | a highlighted view lies inside a highlighted project |
| Sidebar.AtMostOneViewActive | components/layout/sidebar.tsx:239-240 | at most one view link is highlighted |
| Sidebar.SidebarState.constructor | components/layout/sidebar.tsx:63 | no project starts expanded |
| Sidebar.SidebarState.IsProjectExpanded | components/layout/sidebar.tsx:73-75 | a project is expanded iff its id is in the list; `ToggleProject` states how it flips |
| Sidebar.SidebarState.ToggleProject | components/layout/sidebar.tsx:65-75 | toggles the id in the expanded list, and `isProjectExpanded` flips |
| CommandPalette.FilteredProjects | components/shared/command-palette.tsx:42-44 | exactly the projects whose lower-cased name contains the lower-cased search |
| CommandPalette.FilteredProjectsInOrder | components/shared/command-palette.tsx:42-44 | the project list keeps the original order |
| CommandPalette.FilteredTasks | components/shared/command-palette.tsx:46-48 | at most five tasks |
| CommandPalette.FilteredTasksSpec | components/shared/command-palette.tsx:46-48 | the first min(5, n) matching tasks, in the original order |
| CommandPalette.EmptySearch | components/shared/command-palette.tsx:42-48 | an empty search lists every project and the first five tasks |
| CommandPalette.GroupsSpec | components/shared/command-palette.tsx:60-121 | fixed groups and result groups never show together; a result group shows iff the search is non-empty and something matches |
| CommandPalette.VisibleGroups | components/shared/command-palette.tsx:60-136 | the two fixed groups show together, exactly for an empty search; a result group only for a non-empty one |
| CommandPalette.ItemPath | components/shared/command-palette.tsx:64-129 | the path each item navigates to; `ResultsOpenTheirProject` states where results lead |
| CommandPalette.ResultsOpenTheirProject | components/shared/command-palette.tsx:110-129 | a project result opens a path whose project id is that project's, and a task result one whose id is its board's |
| CommandPalette.Select | components/shared/command-palette.tsx:37-40 | closes the palette first, then navigates to the item's path |
| CommandPalette.PaletteState.SetSearch | components/shared/command-palette.tsx:55 | sets the search text |
| TaskCard.CompletedSubtasks | components/shared/task-card.tsx:17 | at most the subtask count; equal to it iff all are done; 0 iff none is |
| TaskCard.VisibleLabels | components/shared/task-card.tsx:18 | the first min(3, n) labels |
| TaskCard.LabelsAccounted | components/shared/task-card.tsx:18-19 | shown plus remaining is every label; remaining is at least 0, and positive iff there are more than 3 |
| TaskCard.LabelRowSpec | components/shared/task-card.tsx:28-46 | the row shows iff there are labels; the "+N" badge iff there are more than three, with N the rest |
| TaskCard.Footer | components/shared/task-card.tsx:73-96 | at most three entries; the comment and attachment counts show iff positive |
| TaskCard.FooterSpec | components/shared/task-card.tsx:73-96 | the footer shows iff it has an entry; progress never exceeds the subtask count |
| TaskCard.Render | components/shared/task-card.tsx:28-96 | the card keeps the due date and the assignee, and has a description iff the task's is non-empty |
| TaskCard.RenderSpec | components/shared/task-card.tsx:28-96 | each optional part of the card shows exactly when its source value is truthy |
| UserAvatar.GetInitialsAsWritten | components/shared/user-avatar.tsx:20-26 | as written: two characters when the first two parts are non-empty; with fewer than two parts, the first two characters of the name |
| UserAvatar.LeadingSpaceGivesUndefined | components/shared/user-avatar.tsx:23 | as written, " Bob" gets the initials "UNDEFINEDB" |
| UserAvatar.GetInitials | components/shared/user-avatar.tsx:20-26 | at most two characters, each the upper-cased form of a character of the name |
| UserAvatar.AgreesOnNonEmptyWords | components/shared/user-avatar.tsx:20-26 | the corrected initials equal the written ones whenever the first two words are non-empty |
| UserAvatar.InitialsOfWords | components/shared/user-avatar.tsx:22-24 | two or more words give the upper-cased first letters of the first two; later words do not matter |
| UserAvatar.InitialsOfOneWord | components/shared/user-avatar.tsx:25 | a single word gives its first two characters upper-cased; an empty name gives "" |

## Left out

- Supabase, in the middleware and everywhere else, is not modelled: the client, `getUser` (a boolean parameter), the session-cookie copy loop, and the logging. Each of these is network or browser I/O.
- The dnd-kit sensors, the collision detection and the `arrayMove` helper are not modelled. Drag events are `(activeId, overId?)` inputs, and `arrayMove` is defined as "remove at `from`, insert at `to`".
- Fresh ids from `Date.now()` and the creation time of a new task are parameters, not clock reads.
- Dates are not parsed. Due and creation dates are integers, and a missing or empty due date is `None`.
- `toLowerCase` and `toUpperCase` map ASCII letters only, because Unicode case mapping is not modelled.
- The delayed `onFilterChange("search", value)` of task-filter-bar.tsx:31-37 is not modelled, because it is timer-driven. Only the local text update is modelled. The code does not debounce. Each keystroke schedules its own `setTimeout`, and the cleanup that `handleSearchChange` returns is discarded by the `onChange` handler at line 67. So the filters receive every prefix of the typed text 300 ms after each key. A `removeFilter("search")` made within 300 ms of typing is undone when the pending timers fire.
- UserAvatar.GetInitialsAsWritten: strings are sequences of Unicode characters, while the source's `slice(0, 2)` and `parts[i][0]` take UTF-16 code units. A name that starts with a character outside the Basic Multilingual Plane (code point 65,536 or above) therefore gives different initials. For "😀Bob" the source gives "😀" and the model gives "😀B". For "😀 Bob" the source gives a lone high surrogate followed by "B".
- UserAvatar.GetInitials: "at most two characters" counts Unicode characters, not UTF-16 code units, for the reason given for GetInitialsAsWritten.
- UserAvatar.InitialsOfWords: the "first letter" of a word is its first Unicode character. The source's `parts[i][0]` is its first UTF-16 code unit, which is half of a surrogate pair for a character outside the Basic Multilingual Plane.
- UserAvatar.InitialsOfOneWord: the "first two characters" are Unicode characters. The source's `slice(0, 2)` takes two UTF-16 code units, which is a single character when the name starts with one outside the Basic Multilingual Plane.
- TaskFilterBar.FilterBarState.ToggleArrayFilter: requires a list key. The parameter `key: keyof TaskFilters` would also accept `search`, whose string value the cast `filters[key] as string[]` would then treat as a list. Every call site passes a list key.
- Text.ParseInt: a JavaScript number is an integer of unbounded size or NaN. The model does not capture the rounding of a double above 2^53, the `Infinity` that 309 or more digits give, or fractional values.
- Text.ParseIntToString: proved for safe integers only. From 1e21 on, `toString` writes exponent form ("1e+21"), which `parseInt` reads back as 1. Above 2^53 the stored double has already rounded. Neither is modelled.
- BoardColumn.WipDialogRoundTrip: proved for safe limits only. A limit typed with 22 or more digits is stored as a double of 1e21 or more. When the dialog is reopened it shows "1e+21", and saving that unedited stores 1. The model does not capture this.
- BoardSort.DueDateSort: claims only "dated before undated, dated ascending". The comparator returns 1 for two undated tasks, so it is not a consistent order there.
- BoardSort.Sort: `Array.prototype.sort` is modelled as a stable insertion sort driven by the source's comparators. The engine's own algorithm is not shown.
- Date formatting on the task card, image loading in the avatar, icons, CSS classes and all pure rendering are not modelled.
- `localStorage` persistence of the sidebar, `use-sidebar.ts` and the component trees that only lay out children are not part of this model.
- Behaviour the code does not have is not claimed: renumbering `position` after a move, restoring the board after an abandoned drag, and enforcing the WIP limit.

## Findings

| source | as written | input that shows it | evidently intended | confidence | as-written member | corrected member |
|---|---|---|---|---|---|---|
| components/views/board-column.tsx:214-224 | `{column.wipLimit && (<p>…)}` renders the falsy number itself | a limit of 0, which typing "0" in the WIP dialog stores | show nothing when there is no usable limit | not executed | BoardColumn.WipLineStrayZero | BoardColumn.WipLineShown |
| components/layout/sidebar.tsx:196 | `pathname.startsWith(`/projects/${project.id}`)` | project "1" on the path "/projects/12" | highlight a project only on its own page or below it | not executed | Sidebar.ProjectPrefixOverlap | Sidebar.ActiveIffTopbarProject |
| components/shared/user-avatar.tsx:23 | `${parts[0][0]}${parts[1][0]}` on an empty part | the name " Bob", or any name with a double or trailing space | initials taken from the name's own letters, at most two | not executed | UserAvatar.LeadingSpaceGivesUndefined | UserAvatar.GetInitials |
