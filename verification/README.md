# Collabflow core, modelled in Dafny

This project models the state-holding core of the Collabflow web
application, a suite of small collaboration tools built as React components
over in-memory lists:

- the **Gantt chart**, its host page and its task dialog. The chart has a
  window of whole weeks that moves a week at a time and zooms a week at a
  time. It shows one header column per day, marked as today, weekend or
  weekday. Each task gets a bar clipped to the window, and dashed arrows run
  from each dependency to the task that depends on it. The page upserts
  saved tasks, and the dialog validates the form and toggles dependencies.
- the **calendar note store** (append, update and delete by id, plus queries
  by date and by tag, the set of dates, the recent notes and the tag list)
  and the **notes timeline** (a stable, newest-first copy of the notes).
- the **time tracker** (start, pause, resume, stop, delete, edit, update,
  manual entry and the per-second tick over a list of time entries with an
  active-entry id, plus `formatTime`) and the **time report**
  (durations summed per day and per title in one pass, the last seven days,
  and the summary counts).
- the **list editors**. The tasks page has create, update, delete and
  drag-and-drop reordering done by splicing an array copy. The form
  builder adds fields with label validation and comma-separated dropdown
  options, removes fields and edits the title. The docs page edits
  documents and renames and deletes uploaded files. The chat page edits
  messages.

## How it is modelled

- **Time** is an integer number of milliseconds in a fixed local time zone.
  `DAY = 86400000`. `differenceInDays` is floor division of the difference
  by `DAY`, and `new Date(y, m, d)` is midnight of that civil day
  (`Dates.LocalDate`).
- **The wall clock, `Date.now()`, `crypto.randomUUID()` and `Math.random()`**
  are parameters (`now`, `today`, `freshId`). Ids made from the clock are
  `now` written in decimal (`Text.IntToString`).
- **Strings** are `seq<char>`. `trim` strips the ECMAScript white-space and
  line-terminator set (`Text.IsWhitespace`). `split` on one character keeps
  empty pieces. `padStart(2, '0')` and `toString` are written out.
- **React state** becomes a class per component, with one field per
  `useState` and one method per handler (the Cancel buttons included). A
  handler's `ensures` gives the new value of every field it may change. The list bodies (`map`, `filter`, spread) are the
  generic functions of `Collections`: `UpdateWhere`, `RemoveWhere`,
  `Filter`, `FindIndex`, `Find` and `SumOf`.
- **Effects that prefill a form when `editing` changes** run inside the
  handler that changes `editing`, and only when its value actually changes
  (`EditingChanged` in the tasks, docs and chat pages).
- **Loops stay loops.** These are the chart header's `push` loop, the
  `getTags` `forEach` into a `Set`, the report's `forEach` into a
  dictionary, and the drag-and-drop splice on an array. Each is a method
  whose `ensures` ties its result to a specification function, and the
  properties are proved about that function.

Task length is not clamped: `src/components/gantt/GanttChart.tsx:134`
computes `differenceInDays(end, start) + 1`, so a task whose end precedes
its start gets a bar of zero or negative length. The model follows the
code: `GanttChart.TaskDuration` is that expression, unclamped.

## Model

| member | source | states |
|---|---|---|
| Dates.DifferenceInDays | src/components/gantt/GanttChart.tsx:255-257 | the result d is the whole number of days with d·DAY ≤ a − b < (d+1)·DAY (floor division, also for negative differences) |
| Dates.DifferenceOfAddDays | src/components/gantt/GanttChart.tsx:255-257 | differenceInDays(d, d) = 0 and differenceInDays(addDays(d, k), d) = k for every k |
| Dates.DifferenceShift | src/components/gantt/GanttChart.tsx:25-31 | moving the second date k days later lowers the difference by exactly k |
| Dates.DayOfWeek | src/components/gantt/GanttChart.tsx:120 | `getDay` is always in 0..6 |
| Dates.DayOfWeekAddDays | src/components/gantt/GanttChart.tsx:43-45 | k days later the weekday is k further on, modulo 7 |
| Dates.StartOfWeek | src/components/gantt/GanttChart.tsx:22 | `startOfWeek` is a midnight Sunday no later than the given time and less than seven days before it |
| Dates.LocalDate | src/pages/features/GanttPage.tsx:26-27 | `new Date(y, m, d)` is a midnight |
| Dates.NextLocalDate | src/pages/features/GanttPage.tsx:26-27 | the next day of the month is exactly one `addDays` step later, month overflow included |
| Dates.CalendarAnchors | src/pages/features/GanttPage.tsx:26 | 1 January 1970 is day 0 and a Thursday; 20 April 2025 is a Sunday and is the start of the week of 23 April 2025 |
| Dates.ParseDateInput | src/components/gantt/TaskForm.tsx:46-47 | `new Date(input)` of a non-empty `yyyy-mm-dd` input is a midnight |
| Dates.ParseDateInputIsLocalDate | src/components/gantt/TaskForm.tsx:46-47 | from year 100 on, the parsed input is the same day as `new Date(year, month - 1, day)` |
| GanttChart.KindOf | src/components/gantt/GanttChart.tsx:118-121 | a column is "today" exactly when it is the same day as now, and "weekend" exactly when it is not today and falls on getDay 0 or 6 |
| GanttChart.TodayIsUnique | src/components/gantt/GanttChart.tsx:115-121 | at most one header column of a window is marked today |
| GanttChart.WeekendColumns | src/components/gantt/GanttChart.tsx:118-121 | in a window that starts on a Sunday, the weekend columns are exactly those at positions 0 and 6 modulo 7 (unless one is today) |
| GanttChart.LayoutBar | src/components/gantt/GanttChart.tsx:133-146 | a task gets a bar exactly when 0 ≤ diff + duration and diff ≤ numWeeks·7; a kept bar covers exactly the part of the task's days inside the window, from max(0, diff) to min(diff + duration, numWeeks·7), so a task cut off on the left or right keeps its inside portion; the bar starts inside the window, ends by its last column, and has a non-negative length when the task ends no earlier than it starts |
| GanttChart.LayoutBars | src/components/gantt/GanttChart.tsx:131-156 | one entry per task, entry i being `LayoutBar` of task i at row i; task i gets a bar exactly when it ends on or after the window's first day and starts no later than the day after its last; every bar sits at top i·48+2, lies within the window's columns, and has no negative length for a task whose end is not before its start |
| GanttChart.BarInsideWindow | src/components/gantt/GanttChart.tsx:142-146 | a task wholly inside the window keeps its own start offset and duration |
| GanttChart.BarSpanningWindow | src/components/gantt/GanttChart.tsx:142-146 | a task covering the whole window gets a bar from column 0 across all numWeeks·7 columns |
| GanttChart.BarTouchingWindow | src/components/gantt/GanttChart.tsx:137-146 | the boundary cases diff + duration = 0 and diff = numWeeks·7 are kept, with a bar of zero days |
| GanttChart.BarPixelsInsideGrid | src/components/gantt/GanttChart.tsx:152-156 | a kept bar's left edge is at or right of 0 and its right edge is at most 4 px short of the grid's width |
| GanttChart.WindowShiftMovesTasks | src/components/gantt/GanttChart.tsx:25-31 | moving the window k days later moves every task's start offset k days to the left |
| GanttChart.EdgeFor | src/components/gantt/GanttChart.tsx:166-186 | the arrow for one dependency id of a task: none when no listed task has that id; otherwise, when drawn, it runs from that id to the task, both x ends lie in the grid, and y1, y2 are the rows (first `findIndex`) of the dependency and of the task ·48+6; `EdgeDayTest` gives, in days, exactly when it is drawn |
| GanttChart.EdgeDayTest | src/components/gantt/GanttChart.tsx:166-186 | an arrow is drawn exactly when the dependency exists, ends on one of the window's days (0..W−1) and the task starts within 0..W days of the window start, W = numWeeks·7 |
| GanttChart.TaskEdges | src/components/gantt/GanttChart.tsx:169-186 | one arrow per dependency id that passes the test (the count is the number of such ids); each points at that task and is the arrow its id yields, and every passing id's arrow is in the list |
| GanttChart.EdgesFrom | src/components/gantt/GanttChart.tsx:166-186 | every arrow is the `EdgeFor` arrow of a dependency id of some task from `from` on (so no arrow is drawn that the loop would not draw), joins two listed tasks, has both x ends in the grid and y1, y2 at the rows (first `findIndex`) of the dependency and of the task ·48+6; every dependency of a task from `from` on that passes the test has its arrow in the list |
| GanttChart.NoEdgeFromMissingTask | src/components/gantt/GanttChart.tsx:170-171 | a dependency id that names no task yields no arrow |
| GanttChart.ChartWindow.constructor | src/components/gantt/GanttChart.tsx:22-23 | a new chart shows four weeks from the start of the current week |
| GanttChart.ChartWindow.PrevWeek | src/components/gantt/GanttChart.tsx:25-27 | the window moves exactly 7 days earlier and keeps its width |
| GanttChart.ChartWindow.NextWeek | src/components/gantt/GanttChart.tsx:29-31 | the window moves exactly 7 days later and keeps its width |
| GanttChart.ChartWindow.ZoomIn | src/components/gantt/GanttChart.tsx:33-35 | the width drops by one week only when it is above 2, so it never goes below 2 |
| GanttChart.ChartWindow.ZoomOut | src/components/gantt/GanttChart.tsx:37-39 | the width grows by one week and the floor of 2 still holds |
| GanttChart.ChartWindow.HeaderColumns | src/components/gantt/GanttChart.tsx:42-121 | exactly numWeeks·7 columns; column i is startDate + i days, i days after the start, and is classified by KindOf |
| GanttChart.ChartWindow.Bars | src/components/gantt/GanttChart.tsx:131-146 | one entry per task, entry i being `LayoutBar` of task i in the current window; every bar lies within the window's columns and has no negative length for a task whose end is not before its start |
| GanttChart.ChartWindow.Arrows | src/components/gantt/GanttChart.tsx:166-186 | every arrow is the `EdgeFor` arrow of a dependency id of a listed task in the current window, joins two listed tasks at their rows' y and has both x ends in the grid; every dependency of every task that passes the test has its arrow |
| GanttChart.WeekRoundTrip | src/components/gantt/GanttChart.tsx:25-31 | next week then previous week, or the reverse, restores the window |
| GanttPage.SampleTasksWellFormed | src/pages/features/GanttPage.tsx:22-49 | the sample tasks have distinct ids, none ends before it starts, and each depends only on tasks listed before it |
| GanttPage.SampleBars | src/pages/features/GanttPage.tsx:22-49 | in a two-week window from 20 April 2025 the three sample bars sit at days 0, 3 and 8, and last 3, 5 and 6 days (the last one clipped) |
| GanttPage.SampleEdges | src/pages/features/GanttPage.tsx:22-49 | in the same window the sample project draws exactly two arrows, task-1→task-2 and task-2→task-3, at the given pixel coordinates |
| GanttPage.SampleTaskArrows | src/pages/features/GanttPage.tsx:22-49 | in that window the first sample task draws no arrow, the second one arrow from task-1 and the third one arrow from task-2, at the given pixel coordinates |
| GanttPage.EarlierTaskHasNoBar | src/components/gantt/GanttChart.tsx:137-139 | a task from 1 to 5 March 2025 gets no bar in a window from 20 April 2025 |
| GanttPage.SaveTask | src/pages/features/GanttPage.tsx:64-72 | in edit mode the list keeps its length and order, and exactly the tasks with the saved id are replaced; in add mode the task is appended and the rest is unchanged |
| GanttPage.SaveTaskKeepsIdsDistinct | src/pages/features/GanttPage.tsx:64-72 | saving keeps the ids distinct (when appending, provided the new id is unused) |
| GanttPage.GanttPageState.constructor | src/pages/features/GanttPage.tsx:22-52 | the page starts with the sample tasks, the dialog closed and no current task |
| GanttPage.GanttPageState.HandleAddTask | src/pages/features/GanttPage.tsx:54-57 | opens the dialog with no current task and leaves the tasks alone |
| GanttPage.GanttPageState.HandleEditTask | src/pages/features/GanttPage.tsx:59-62 | opens the dialog on the clicked task and leaves the tasks alone |
| GanttPage.GanttPageState.HandleCloseForm | src/pages/features/GanttPage.tsx:112 | closes the dialog |
| GanttPage.GanttPageState.HandleSaveTask | src/pages/features/GanttPage.tsx:64-72 | the new list is SaveTask of the old one, in edit mode exactly when there is a current task |
| GanttPage.GanttPageState.View | src/pages/features/GanttPage.tsx:90-108 | the chart is shown exactly when the list is non-empty, with the page's tasks; otherwise the empty-state card |
| GanttPage.SubmitTaskForm | src/components/gantt/TaskForm.tsx:40-54 | the dialog is rejected exactly when the title is blank or a date is empty, and then the page is unchanged; otherwise the returned task has the page's current id (or the fresh one), the form's title, parsed dates, progress, colour and dependencies, the page's list becomes `SaveTask` of it in the page's mode, and the dialog closes |
| TaskForm.Toggle | src/components/gantt/TaskForm.tsx:57-63 | a chosen id is removed (the list shrinks) and an unchosen one is appended; every other id keeps its membership |
| TaskForm.ToggleTwice | src/components/gantt/TaskForm.tsx:57-63 | toggling an id twice restores every id's membership, and restores the very list when the id was not chosen |
| TaskForm.ToggleKeepsDistinct | src/components/gantt/TaskForm.tsx:57-63 | toggling never puts an id in a duplicate-free list twice |
| TaskForm.Choices | src/components/gantt/TaskForm.tsx:139-149 | checkboxes are offered only when a task is being edited; then exactly the listed tasks with another id are offered |
| TaskForm.TaskFormState.constructor | src/components/gantt/TaskForm.tsx:33-38 | the fields start from the task being edited, or from the defaults (empty title, progress 0, colour #6366F1, no dependencies) |
| TaskForm.TaskFormState.SetProps | src/components/gantt/TaskForm.tsx:32-38 | new props replace the task and the list, but the field state stays as it was mounted |
| TaskForm.TaskFormState.SetTitle | src/components/gantt/TaskForm.tsx:33 | typing sets the title |
| TaskForm.TaskFormState.SetDates | src/components/gantt/TaskForm.tsx:34-35 | picking or clearing dates sets them |
| TaskForm.TaskFormState.SetProgress | src/components/gantt/TaskForm.tsx:114 | moving the slider sets the progress and nothing else |
| TaskForm.TaskFormState.SetColor | src/components/gantt/TaskForm.tsx:128-133 | either colour input sets the colour and nothing else |
| TaskForm.TaskFormState.HandleDependencyChange | src/components/gantt/TaskForm.tsx:57-63 | the dependencies become the toggle of the old ones |
| TaskForm.TaskFormState.ToggleChoice | src/components/gantt/TaskForm.tsx:143-149 | ticking a checkbox toggles that task's id, so the edited task never becomes its own dependency |
| TaskForm.TaskFormState.HandleSave | src/components/gantt/TaskForm.tsx:40-51 | nothing is saved exactly when the title is blank after trim or a date is empty; otherwise the saved task keeps the edited task's id when there is one, and its dependencies are missing exactly when none are chosen |
| CalendarNotes.NewestFirst | src/components/calendar/CalendarNoteTimeline.tsx:8 | the sorted copy holds the same notes |
| CalendarNotes.NewestFirstIsOrdered | src/components/calendar/CalendarNoteTimeline.tsx:8 | the sorted copy is in non-increasing date order |
| CalendarNotes.NewestFirstIsStable | src/components/calendar/CalendarNoteTimeline.tsx:8 | notes with the same date keep their input order |
| CalendarNotes.NotesByDate | src/components/calendar/useCalendarNotes.ts:46-48 | a note is returned exactly when it is stored with that date |
| CalendarNotes.NotesByDateSnoc | src/components/calendar/useCalendarNotes.ts:46-48 | the notes of a date come in stored order, duplicates kept: none for no notes, and one more stored note is added at the end exactly when it has that date |
| CalendarNotes.DatesWithNotes | src/components/calendar/useCalendarNotes.ts:50-52 | every note's date is in the set, and there are no more dates than notes; `DatesWithNotesHaveNotes` gives the converse |
| CalendarNotes.DatesWithNotesHaveNotes | src/components/calendar/useCalendarNotes.ts:50-52 | a date is in the set exactly when some note has that date |
| CalendarNotes.NotesByTag | src/components/calendar/useCalendarNotes.ts:60-62 | a note is returned exactly when it carries that tag |
| CalendarNotes.NotesByTagSnoc | src/components/calendar/useCalendarNotes.ts:60-62 | the notes of a tag come in stored order, duplicates kept: one more stored note is added at the end exactly when it carries that tag |
| CalendarNotes.RecentNotes | src/components/calendar/useCalendarNotes.ts:54-58 | the first min(limit, count) notes of the stable newest-first order for a non-negative limit, and all but the last −limit of them for a negative one; newest first, all taken from the stored notes |
| CalendarNotes.RecentNotesAreNewest | src/components/calendar/useCalendarNotes.ts:54-58 | no note left out is newer than a note returned |
| CalendarNotes.DefaultRecentNotes | src/components/calendar/useCalendarNotes.ts:54 | with no limit given, the five newest notes (all of them when fewer) |
| CalendarNotes.TagList | src/components/calendar/useCalendarNotes.ts:64-70 | a tag is listed exactly when it is non-empty and some note has it; no tag is listed twice |
| CalendarNotes.TagListInFirstOccurrenceOrder | src/components/calendar/useCalendarNotes.ts:64-70 | tags are listed in the order of the first note carrying each |
| CalendarNotes.NoteStore.constructor | src/components/calendar/useCalendarNotes.ts:27 | the store starts from the saved notes |
| CalendarNotes.NoteStore.AddNote | src/components/calendar/useCalendarNotes.ts:34-36 | exactly one note, the draft under the fresh id, is appended; earlier notes are unchanged; ids stay distinct |
| CalendarNotes.NoteStore.UpdateNote | src/components/calendar/useCalendarNotes.ts:38-40 | every note with the id is replaced in place and the rest are unchanged; ids stay distinct |
| CalendarNotes.NoteStore.DeleteNote | src/components/calendar/useCalendarNotes.ts:42-44 | every note with the id goes, the rest keep their order, and no note with the id remains |
| CalendarNotes.NoteStore.Tags | src/components/calendar/useCalendarNotes.ts:64-70 | the `forEach` into a `Set` yields TagList of the notes |
| NoteTimeline.TimelineOf | src/components/calendar/CalendarNoteTimeline.tsx:8-16 | "No notes yet." exactly when there are no notes; otherwise a permutation of the notes, newest first, stable per date |
| TimeTracker.ClockFields | src/components/features/TimeTracker.tsx:61-64 | for ms ≥ 0, seconds and minutes are in 0..59, hours ≥ 0, and hours·3600 + minutes·60 + seconds = ⌊ms/1000⌋ |
| TimeTracker.FormatTime | src/components/features/TimeTracker.tsx:61-67 | the text is at least eight characters long (three fields padded to two, two colons); `FormatTimeReadsBack` states what the fields hold |
| TimeTracker.FormatTimeReadsBack | src/components/features/TimeTracker.tsx:61-67 | the text splits on ':' into three digit fields, each at least two wide, that read back as hours, minutes and seconds; minutes and seconds are exactly two wide and hours are never cut |
| TimeTracker.NewTimer | src/components/features/TimeTracker.tsx:73-81 | a started entry has id `now`, starts now, has no end, no time yet, and runs |
| TimeTracker.ManualTimeEntry | src/components/features/TimeTracker.tsx:181-192 | a manual entry ends now, its end minus its start is its duration, and it is not running |
| TimeTracker.FirstRunning | src/components/features/TimeTracker.tsx:33-38 | none exactly when no entry runs; otherwise the running entry at a position before which no entry runs, the one `find` returns |
| TimeTracker.StatusChangesKeepTotal | src/components/features/TimeTracker.tsx:90-202 | pause, resume, stop and retitle leave the total duration unchanged |
| TimeTracker.TotalDuration | src/components/features/TimeTracker.tsx:202 | the `reduce` starting at 0: the empty list totals 0, and when no duration is negative the total is non-negative and at least every single entry's duration |
| TimeTracker.AppendAddsToTotal | src/components/features/TimeTracker.tsx:83-202 | appending an entry adds its duration to the total |
| TimeTracker.ResumeCanLeaveTwoRunning | src/components/features/TimeTracker.tsx:103-114 | resuming an entry while another runs leaves two entries running: "at most one running" is not an invariant |
| TimeTracker.Tracker.constructor | src/components/features/TimeTracker.tsx:25-38 | mounting adopts the first running entry as the active one and starts with an empty form |
| TimeTracker.Tracker.SetTitle | src/components/features/TimeTracker.tsx:26 | typing sets the title |
| TimeTracker.Tracker.SetDescription | src/components/features/TimeTracker.tsx:27 | typing sets the description |
| TimeTracker.Tracker.SetManual | src/components/features/TimeTracker.tsx:29-30 | the manual-entry inputs, already read as whole numbers |
| TimeTracker.Tracker.Tick | src/components/features/TimeTracker.tsx:44-55 | a tick sets only the active entry's duration to now minus its start, so paused time is not subtracted; with no active entry nothing changes |
| TimeTracker.Tracker.HandleStart | src/components/features/TimeTracker.tsx:70-87 | an empty title does nothing; otherwise one new running entry is appended, made active, and the form is cleared |
| TimeTracker.Tracker.HandlePause | src/components/features/TimeTracker.tsx:90-100 | with no active entry nothing changes; otherwise only the active entry stops running, and there is no active entry afterwards |
| TimeTracker.Tracker.HandleResume | src/components/features/TimeTracker.tsx:103-114 | an unknown id does nothing; otherwise only that entry is set running and it becomes the active entry |
| TimeTracker.Tracker.HandleStop | src/components/features/TimeTracker.tsx:117-131 | only matching entries stop, ending now, and there is no active entry afterwards |
| TimeTracker.Tracker.HandleDelete | src/components/features/TimeTracker.tsx:134-139 | the id is filtered out, and the active entry is cleared only if it was that id |
| TimeTracker.Tracker.HandleEdit | src/components/features/TimeTracker.tsx:142-154 | an unknown id does nothing; otherwise the entry is loaded into the form and paused if it was the active one |
| TimeTracker.Tracker.HandleCancel | src/components/features/TimeTracker.tsx:229-235 | the Cancel button leaves edit mode and clears the title and description; the entries, the active entry and the manual inputs stay |
| TimeTracker.Tracker.HandleUpdate | src/components/features/TimeTracker.tsx:157-169 | with nothing being edited nothing changes; otherwise only the edited entry is retitled, and the form and edit mode are cleared |
| TimeTracker.Tracker.HandleManualEntry | src/components/features/TimeTracker.tsx:172-199 | rejected when the title is empty or hours·3600000 + minutes·60000 ≤ 0; otherwise one finished entry of that length, ending now, is appended and the inputs reset |
| TimeReport.GroupKeys | src/components/features/TimeReport.tsx:25-42 | a key is present exactly when some entry has it, and no key appears twice |
| TimeReport.RowsFor | src/components/features/TimeReport.tsx:30-47 | one row per key, holding that key's accumulated milliseconds |
| TimeReport.GroupsCoverTotal | src/components/features/TimeReport.tsx:25-55 | the grouped milliseconds add up to the total behind "Total Hours": every duration lands in exactly one group |
| TimeReport.GroupRowsAreDistinct | src/components/features/TimeReport.tsx:38-47 | exactly one row per distinct key, and only for keys some entry has |
| TimeReport.GroupDurations | src/components/features/TimeReport.tsx:23-44 | the one-pass dictionary accumulation yields the grouped rows |
| TimeReport.DailyData | src/components/features/TimeReport.tsx:22-34 | the per-day rows, keeping at most the last 7 produced |
| TimeReport.TaskData | src/components/features/TimeReport.tsx:37-48 | the per-title rows |
| TimeReport.SummaryOf | src/components/features/TimeReport.tsx:54-78 | the entry count is the list length, the active-timer count is the number of positions holding a running entry, and the total equals the sum of the grouped rows |
| TimeReport.NewEntriesAndActiveTimers | src/components/features/TimeReport.tsx:78 | a started timer adds one active timer; a manual entry adds none |
| TasksPage.OrUndefined | src/pages/features/TasksPage.tsx:64-82 | an empty input is stored as nothing, any other input as itself |
| TasksPage.OrEmptyOrUndefined | src/pages/features/TasksPage.tsx:41-65 | an input that is stored and prefilled again shows as itself |
| TasksPage.SpliceIndex | src/pages/features/TasksPage.tsx:116 | where `splice` inserts: an in-range index is used as is, any other is clamped into the list |
| TasksPage.Moved | src/pages/features/TasksPage.tsx:114-116 | moving keeps the list's length |
| TasksPage.MovedIsPermutation | src/pages/features/TasksPage.tsx:114-118 | the reordered list holds the same tasks |
| TasksPage.MovedPlacesItem | src/pages/features/TasksPage.tsx:114-118 | the dragged task sits at the destination and the others keep their relative order |
| TasksPage.MovedBack | src/pages/features/TasksPage.tsx:114-118 | dragging the task back restores the list |
| TasksPage.Reorder | src/pages/features/TasksPage.tsx:114-118 | the in-place splices on an array copy yield Moved(tasks, source, destination) |
| TasksPage.ShiftLeft | src/pages/features/TasksPage.tsx:115-116 | the two splices' net effect for a later destination: the elements after the source up to the destination move one place left, all others stay |
| TasksPage.ShiftRight | src/pages/features/TasksPage.tsx:115-116 | the two splices' net effect for an earlier destination: the elements from the destination up to the source move one place right, all others stay |
| TasksPage.UpdateKeepsIds | src/pages/features/TasksPage.tsx:58-67 | an update keeps every task's id in its position |
| TasksPage.Page.constructor | src/pages/features/TasksPage.tsx:24-30 | no tasks, an empty form with priority medium, not editing |
| TasksPage.Page.EditForm | src/pages/features/TasksPage.tsx:25-29 | typing sets the form fields |
| TasksPage.Page.EditingChanged | src/pages/features/TasksPage.tsx:34-51 | with an edit id the form is filled from that task if it exists; otherwise it is reset to the defaults |
| TasksPage.Page.HandleCreateOrUpdate | src/pages/features/TasksPage.tsx:53-96 | a blank title does nothing; an update rewrites only the edited task and leaves edit mode; a create appends one task with id `now`; either way the form resets, priority medium |
| TasksPage.Page.HandleEdit | src/pages/features/TasksPage.tsx:98 | a changed choice of a known id fills all five fields from that task (priority `medium` and empty date and assignee when missing); an unknown non-empty id leaves the form as it was; the empty id resets it |
| TasksPage.Page.HandleCancel | src/pages/features/TasksPage.tsx:190 | sets `editing` to null; the prefill effect then resets the form when `editing` was set, and the form is kept when it was already null |
| TasksPage.Page.HandleDelete | src/pages/features/TasksPage.tsx:100-103 | the id is filtered out, and edit mode is left (clearing the form) if it was that task |
| TasksPage.Page.HandleDragEnd | src/pages/features/TasksPage.tsx:111-119 | no destination does nothing; otherwise the list becomes Moved(tasks, source, destination) |
| Text.Trim | src/pages/features/TasksPage.tsx:55 | `trim` removes the leading and trailing white space and nothing else, and leaves no white space at either end |
| Text.TrimTrimmed | src/components/forms/FormBuilder.tsx:68 | a string with no white space at either end is its own `trim` |
| Text.TrimIdempotent | src/components/forms/FormBuilder.tsx:68 | trimming twice is trimming once |
| Text.BlankIffTrimEmpty | src/pages/features/DocsPage.tsx:73 | a string is blank exactly when its `trim` is empty |
| Text.Split | src/components/forms/FormBuilder.tsx:68 | `split` gives one piece more than there are separators, no piece holds a separator, and joining the pieces gives the string back |
| Text.SplitJoin | src/components/forms/FormBuilder.tsx:68 | splitting a join of separator-free pieces gives the pieces back |
| Text.NatToString | src/components/features/TimeTracker.tsx:66 | `toString` of a non-negative number is at least one digit, with no leading zero |
| Text.ParseNatToString | src/components/features/TimeTracker.tsx:66 | the decimal text of n reads back as n |
| Text.PadStart2 | src/components/features/TimeTracker.tsx:66 | `padStart(2, '0')` is at least two wide, ends with the string, and is zeros before it |
| Text.PaddedRoundTrip | src/components/features/TimeTracker.tsx:66 | a padded field reads back as the number it shows |
| Text.LexLeTotal | src/components/calendar/CalendarNoteTimeline.tsx:8 | any two dates compare one way or the other |
| Text.LexLeTransitive | src/components/calendar/CalendarNoteTimeline.tsx:8 | the date order is transitive |
| Text.LexLeAntisymmetric | src/components/calendar/CalendarNoteTimeline.tsx:8 | two dates ordered both ways are equal |
| Collections.FindIndex | src/components/gantt/GanttChart.tsx:174-175 | `findIndex` is −1 exactly when no element has the key, and otherwise the first position that does |
| Collections.Find | src/components/calendar/useCalendarNotes.ts:46 | `find` is absent exactly when no element has the key, and otherwise is the element at `findIndex` |
| Collections.UpdateWhere | src/components/calendar/useCalendarNotes.ts:38-40 | the `map` keeps length and order, rewrites exactly the elements with the key, and leaves the rest unchanged |
| Collections.UpdateMissing | src/components/calendar/useCalendarNotes.ts:38-40 | updating an unknown id changes nothing |
| Collections.UpdateKeepsKeys | src/pages/features/TasksPage.tsx:58-67 | an update that keeps ids keeps every position's id and keeps ids distinct |
| Collections.UpdateOne | src/pages/features/DocsPage.tsx:75-79 | updating a key held by one element rewrites that element only, in place |
| Collections.UpdateKeepsSum | src/components/features/TimeTracker.tsx:202 | an update that keeps a measure keeps its sum |
| Collections.RemoveWhere | src/components/calendar/useCalendarNotes.ts:42-44 | the `filter` keeps exactly the elements without the key, dropping one per element with the key |
| Collections.RemoveConcat | src/components/calendar/useCalendarNotes.ts:42-44 | removal works piecewise, so the survivors keep their relative order |
| Collections.RemoveMissing | src/components/calendar/useCalendarNotes.ts:42-44 | removing an unknown id changes nothing |
| Collections.RemoveOne | src/pages/features/DocsPage.tsx:53-55 | removing a key held by one element takes out that element only and keeps the others in order |
| Collections.RemoveIdempotent | src/components/calendar/useCalendarNotes.ts:42-44 | deleting twice is deleting once |
| Collections.RemoveKeepsDistinct | src/components/calendar/useCalendarNotes.ts:42-44 | deletion keeps ids distinct |
| Collections.Filter | src/components/calendar/useCalendarNotes.ts:46-48 | the `filter` result is as long as the number of elements that pass |
| Collections.FilterMembers | src/components/calendar/useCalendarNotes.ts:46-48 | the `filter` keeps exactly the elements that pass, and only elements of the list |
| Collections.FilterConcat | src/components/calendar/useCalendarNotes.ts:46-48 | filtering works piecewise, so the kept elements stay in order |
| Collections.SumOfConcat | src/components/features/TimeTracker.tsx:202 | the `reduce` sum splits over concatenation |
| Collections.CountWhereConcat | src/components/features/TimeReport.tsx:78 | counting splits over concatenation |
| Collections.CountWhereIndices | src/components/features/TimeReport.tsx:78 | `filter(p).length` is the number of positions whose element passes |
| Collections.FilterSnoc | src/components/calendar/useCalendarNotes.ts:46-48 | filtering a list grown by one element adds that element at the end exactly when it passes |
| FormBuilder.ParseOptions | src/components/forms/FormBuilder.tsx:68 | one option per comma-separated piece, empty pieces included, so commas + 1 options; each is the trimmed piece |
| FormBuilder.ParseJoinedOptions | src/components/forms/FormBuilder.tsx:68 | options typed as a comma-separated list of clean names come back as that list |
| FormBuilder.FieldOptions | src/components/forms/FormBuilder.tsx:67-69 | options are set exactly for a dropdown with non-blank option text, and then number commas + 1 |
| FormBuilder.RemoveAddedField | src/components/forms/FormBuilder.tsx:104-109 | removing a field just added under a new id gives back the fields as they were |
| FormBuilder.Builder.constructor | src/components/forms/FormBuilder.tsx:33-43 | a fresh template "Untitled Form" / "Form description" with id "form-" + now, no fields, and an empty text-field panel |
| FormBuilder.Builder.EditField | src/components/forms/FormBuilder.tsx:39-43 | typing into the panel sets its inputs |
| FormBuilder.Builder.AddField | src/components/forms/FormBuilder.tsx:49-81 | a blank label changes nothing; otherwise exactly one field is appended with the panel's type, label, placeholder, required flag and options, earlier fields are unchanged, and the panel's inputs reset while the type is kept |
| FormBuilder.Builder.RemoveField | src/components/forms/FormBuilder.tsx:104-109 | every field with the id goes and the others keep their order |
| FormBuilder.Builder.HandleTitleChange | src/components/forms/FormBuilder.tsx:96-98 | only the template's title changes |
| FormBuilder.Builder.HandleDescriptionChange | src/components/forms/FormBuilder.tsx:100-102 | only the template's description changes |
| DocsPage.DeleteUndoesCreate | src/pages/features/DocsPage.tsx:81-95 | deleting a document just created under a new id gives back the list as it was |
| DocsPage.UpdateOnlyThatDoc | src/pages/features/DocsPage.tsx:74-80 | saving an edit rewrites the title and content of that document only, in place, and keeps ids distinct |
| DocsPage.RenameOnlyThatFile | src/pages/features/DocsPage.tsx:47-51 | renaming changes that file's name only, in place |
| DocsPage.DeleteOnlyThatFile | src/pages/features/DocsPage.tsx:53-55 | deleting a file takes out that file only and keeps the rest in order |
| DocsPage.Page.constructor | src/pages/features/DocsPage.tsx:18-24 | no documents, no files, an empty form, not editing |
| DocsPage.Page.EditForm | src/pages/features/DocsPage.tsx:19-20 | typing sets the title and content |
| DocsPage.Page.EditingChanged | src/pages/features/DocsPage.tsx:27-38 | with an edit id the form is filled from that document if it exists; otherwise it is cleared |
| DocsPage.Page.HandleCreateOrUpdate | src/pages/features/DocsPage.tsx:71-89 | a blank title or content does nothing; an update rewrites only the edited document and leaves edit mode; a create appends one document with id `now`; either way the form is cleared |
| DocsPage.Page.HandleEdit | src/pages/features/DocsPage.tsx:91 | a changed choice of a known id fills title and content from that document; an unknown non-empty id leaves the form as it was; the empty id clears it |
| DocsPage.Page.HandleCancel | src/pages/features/DocsPage.tsx:139 | sets `editing` to null; the prefill effect then clears the form when `editing` was set, and the form is kept when it was already null |
| DocsPage.Page.HandleDelete | src/pages/features/DocsPage.tsx:92-95 | the id is filtered out, and edit mode is left (clearing the form) if it was that document |
| DocsPage.Page.HandleFileRename | src/pages/features/DocsPage.tsx:47-51 | only files with the id get the new name |
| DocsPage.Page.HandleFileDelete | src/pages/features/DocsPage.tsx:53-55 | every file with the id goes and the rest keep their order |
| ChatPage.DeleteUndoesPost | src/pages/features/ChatPage.tsx:46-60 | deleting a message just posted under a new id gives back the list as it was |
| ChatPage.UpdateOnlyThatMessage | src/pages/features/ChatPage.tsx:39-45 | saving an edit rewrites the username and text of that message only, in place, and keeps ids distinct |
| ChatPage.DeleteOnlyThatMessage | src/pages/features/ChatPage.tsx:57-60 | deleting a message takes out that message only and keeps the rest in order |
| ChatPage.Page.constructor | src/pages/features/ChatPage.tsx:17-20 | no messages, an empty form, not editing |
| ChatPage.Page.EditForm | src/pages/features/ChatPage.tsx:18-19 | typing sets the username and message |
| ChatPage.Page.EditingChanged | src/pages/features/ChatPage.tsx:23-34 | with an edit id the form is filled from that message if it exists; otherwise it is cleared |
| ChatPage.Page.HandleCreateOrUpdate | src/pages/features/ChatPage.tsx:36-54 | a blank username or message does nothing; an update rewrites only the edited message and leaves edit mode; a create appends one message with id `now` at the end; either way both inputs are emptied |
| ChatPage.Page.HandleEdit | src/pages/features/ChatPage.tsx:56 | a changed choice of a known id fills username and message from that message; an unknown non-empty id leaves the form as it was; the empty id clears it |
| ChatPage.Page.HandleCancel | src/pages/features/ChatPage.tsx:93 | sets `editing` to null; the prefill effect then clears the form when `editing` was set, and the form is kept when it was already null |
| ChatPage.Page.HandleDelete | src/pages/features/ChatPage.tsx:57-60 | the id is filtered out, and edit mode is left (clearing the form) if it was that message |

## Left out

- Rendering: the JSX, CSS classes, SVG markup, charts and the 3D/WebGL cards are not part of this model. Neither are the
  presentation-only components (Task3DCard.tsx, Calendar3DButton.tsx, MainLayout.tsx, Index.tsx, FeatureCard.tsx, App.tsx,
  TaskCard.tsx, DocCard.tsx, ChatMessageCard.tsx).
- Persistence in `localStorage`: loading and saving notes, entries, forms and AI messages is I/O. The stores start from a
  given list instead (`CalendarNotes.NoteStore.constructor`, `TimeTracker.Tracker.constructor`). `saveForm` is not modelled.
- Timers and async: the `setInterval` schedule is left out. Only the tick itself is modelled, with the time as a parameter
  (`TimeTracker.Tracker.Tick`).
- Clocks and random sources: `Date.now()`, `new Date()`, `crypto.randomUUID()` and `Math.random()` are parameters.
  Only the calendar note store requires its id to be fresh, because its callers rely on distinct ids. The other
  pages take the clock-made id as given, as the code does.
- Floating point: the conversion to hours, `Math.round(x * 100) / 100`, `toFixed(2)` and the pie labels are not part
  of this model. The report stays in integer milliseconds.
- TimeReport.DailyData: the rows are in the order their keys were first seen, as `Object.entries` lists them for
  keys that do not look like integers; the date labels never do.
- TimeReport.TaskData: the dictionary is a plain object literal, and the model treats it as a pure string map. Titles
  are free text, and for some of them the page differs: integer-like titles are listed first by `Object.entries`;
  a title `__proto__` reads the prototype, its assignment is ignored and its time is lost; a title naming an
  `Object.prototype` member (`constructor`, `toString`, `valueOf`, ...) reads a function, so `+` concatenates and
  the row's value is not a number. For such titles the model's rows, their order and `TimeReport.GroupsCoverTotal`
  do not describe what the page shows.
- GanttChart.TaskEdges: the contract states which arrows are drawn and how many, not their order, which only
  decides the SVG painting order.
- GanttChart.EdgesFrom: which arrows are drawn is stated in both directions, but, as for `TaskEdges`, their order (task by task, then dependency by dependency) and their multiplicity are not.
- TimeReport.DailyData: `toLocaleDateString` is a parameter `dayLabel`, because locale formatting is not modelled.
- Time zones: the time zone is fixed. Daylight-saving shifts in `addDays` and `differenceInDays` are not modelled. Nor is
  the UTC shift of `toISOString` in `formatDateForInput`: the dialog is given the date inputs as strings. Nor is the
  UTC reading of `new Date("yyyy-mm-dd")`, which `Dates.ParseDateInput` takes as local midnight.
- Dates.ParseDateInput: an input naming a day its month lacks (such as `2025-02-31`) is an invalid date in the code.
  The model rolls it over into the next month, as `new Date(y, m, d)` does. A date picker never produces such input.
- `parseInt` on the manual-entry and progress inputs: `SetManual` and `TaskForm.TaskFormState.SetProgress` take the
  value already read as a whole number, with an unreadable manual input as 0.
- File objects, `URL.createObjectURL`, the upload id built from `Math.random()` and the DOM download in the docs page
  are browser APIs. `handleFileUpload` and `handleFileDownload` are not modelled. Neither is the rename fallback in
  DocUploadCard.tsx, which keeps the old name when the typed name is blank.
- Toasts and the form builder's preview switch (`isPreview`) do not change the modelled state.
- CalendarNotes.RecentNotes: dates are compared as strings rather than as `new Date(...)` times. The two orders agree
  on well-formed `yyyy-MM-dd` dates; invalid dates (NaN comparisons) are not modelled.
- TasksPage.Page.HandleDragEnd: requires the source index to be a position in the list. The drag library only reports
  such indices. The destination is used as `splice` would clamp it.
- TaskForm.TaskFormState.constructor: the dialog's fields are initialised once, when it mounts. Later props do not
  refill them (`TaskForm.TaskFormState.SetProps`), as in the code.
- GanttChart.ChartWindow.ZoomIn: requires the zoom floor (at least two weeks). The constructor sets it and every
  handler keeps it.
