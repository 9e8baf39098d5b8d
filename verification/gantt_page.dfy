/**
 * The Gantt page: the task list it owns (seeded with a three-task sample
 * project), the task dialog's open flag and the task being edited, and the
 * save handler that either replaces the edited task or appends a new one.
 */
module GanttPage {
  import opened Collections
  import opened Dates
  import opened GanttChart
  import TaskForm
  import Text

  /** The sample project the page starts with: planning, then design, then development. */
  function SampleTasks(): seq<Task> {
    [ Task("task-1", "Project Planning", LocalDate(2025, 3, 20), LocalDate(2025, 3, 22), 100, "#6366F1", None),
      Task("task-2", "Design Phase", LocalDate(2025, 3, 23), LocalDate(2025, 3, 27), 70, "#22C55E", Some(["task-1"])),
      Task("task-3", "Development", LocalDate(2025, 3, 28), LocalDate(2025, 4, 5), 20, "#F97316", Some(["task-2"])) ]
  }

  /** Every dependency of `tasks[i]` names a task that comes before it in the list. */
  predicate DependsOnlyOnEarlier(tasks: seq<Task>) {
    forall i :: 0 <= i < |tasks| && tasks[i].dependencies.Some? ==>
      forall d :: d in tasks[i].dependencies.value ==> 0 <= FindIndex(tasks, TaskId, d) < i
  }

  /** The calendar days the sample project uses, as day numbers since 1 January 1970. */
  lemma SpringDays2025(d: int)
    ensures LocalDate(2025, 2, d) == (20147 + d) * DAY
    ensures LocalDate(2025, 3, d) == (20178 + d) * DAY
    ensures LocalDate(2025, 4, d) == (20208 + d) * DAY
  {
    assert DaysFromCivil(2025, 3, 1) == 20148;
    assert DaysFromCivil(2025, 4, 1) == 20179;
    assert DaysFromCivil(2025, 5, 1) == 20209;
  }

  /** The sample tasks' dates as day numbers. */
  lemma SampleDays()
    ensures SampleTasks()[0].startDate == 20198 * DAY && SampleTasks()[0].endDate == 20200 * DAY
    ensures SampleTasks()[1].startDate == 20201 * DAY && SampleTasks()[1].endDate == 20205 * DAY
    ensures SampleTasks()[2].startDate == 20206 * DAY && SampleTasks()[2].endDate == 20213 * DAY
  {
    SpringDays2025(20);
    SpringDays2025(22);
    SpringDays2025(23);
    SpringDays2025(27);
    SpringDays2025(28);
    SpringDays2025(5);
  }

  /** The sample tasks have distinct ids, end no earlier than they start, and depend only on earlier tasks. */
  lemma SampleTasksWellFormed()
    ensures DistinctKeys(SampleTasks(), TaskId)
    ensures forall i :: 0 <= i < |SampleTasks()| ==> SampleTasks()[i].startDate <= SampleTasks()[i].endDate
    ensures DependsOnlyOnEarlier(SampleTasks())
  {
    var ts := SampleTasks();
    SampleDays();
    assert FindIndex(ts, TaskId, "task-1") == 0;
    assert FindIndex(ts, TaskId, "task-2") == 1 by {
      assert ts[0].id != "task-2";
    }
  }

  /** Where the sample tasks sit in the list. */
  lemma SamplePositions()
    ensures FindIndex(SampleTasks(), TaskId, "task-1") == 0
    ensures FindIndex(SampleTasks(), TaskId, "task-2") == 1
    ensures FindIndex(SampleTasks(), TaskId, "task-3") == 2
  {
    var ts := SampleTasks();
    assert ts[0].id == "task-1" && ts[1].id == "task-2" && ts[2].id == "task-3";
  }

  /**
   * The sample project in a two-week window from Sunday 20 April 2025:
   * planning fills days 0-2, design days 3-7, and development starts on
   * day 8 and is clipped to the six days left.
   */
  lemma SampleBars()
    ensures LayoutBars(SampleTasks(), LocalDate(2025, 3, 20), 2)
            == [Some(Bar(0, 0, 3)), Some(Bar(1, 3, 5)), Some(Bar(2, 8, 6))]
  {
    var ts := SampleTasks();
    SampleDays();
    SpringDays2025(20);
    DayDiff(20198, 20198);
    DayDiff(20200, 20198);
    DayDiff(20201, 20198);
    DayDiff(20206, 20198);
    DayDiff(20205, 20201);
    DayDiff(20213, 20206);
    DayDiff(20200, 20198);
  }

  /** The arrows of each sample task in that window, one task at a time. */
  lemma SampleTaskArrows()
    ensures var ts, w := SampleTasks(), LocalDate(2025, 3, 20);
            TaskEdges(ts, ts[0], DepsOf(ts[0]), w, 2) == []
            && TaskEdges(ts, ts[1], DepsOf(ts[1]), w, 2) == [Edge("task-1", "task-2", 190, 6, 192, 54)]
            && TaskEdges(ts, ts[2], DepsOf(ts[2]), w, 2) == [Edge("task-2", "task-3", 510, 54, 512, 102)]
  {
    var ts := SampleTasks();
    var w := LocalDate(2025, 3, 20);
    SampleDays();
    SpringDays2025(20);
    SamplePositions();
    DayDiff(20200, 20198);
    DayDiff(20201, 20198);
    DayDiff(20205, 20198);
    DayDiff(20206, 20198);
    assert EdgeFor(ts, ts[1], "task-1", w, 2) == Some(Edge("task-1", "task-2", 190, 6, 192, 54));
    assert EdgeFor(ts, ts[2], "task-2", w, 2) == Some(Edge("task-2", "task-3", 510, 54, 512, 102));
    assert DepsOf(ts[0]) == [] && DepsOf(ts[1]) == ["task-1"] && DepsOf(ts[2]) == ["task-2"];
  }

  /**
   * In the same window both dependency arrows are drawn, each from 2px
   * before the end of the dependency's last day to the start of the
   * dependent task's first day, one row lower.
   */
  lemma SampleEdges()
    ensures EdgesFrom(SampleTasks(), 0, LocalDate(2025, 3, 20), 2)
            == [Edge("task-1", "task-2", 190, 6, 192, 54), Edge("task-2", "task-3", 510, 54, 512, 102)]
  {
    SampleTaskArrows();
    EdgesOfThreeTasks(SampleTasks(), LocalDate(2025, 3, 20), 2);
  }

  /** A three-task chart draws the first task's arrows, then the second's, then the third's. */
  lemma EdgesOfThreeTasks(ts: seq<Task>, w: int, numWeeks: int)
    requires |ts| == 3
    ensures EdgesFrom(ts, 0, w, numWeeks) == TaskEdges(ts, ts[0], DepsOf(ts[0]), w, numWeeks)
                                            + TaskEdges(ts, ts[1], DepsOf(ts[1]), w, numWeeks)
                                            + TaskEdges(ts, ts[2], DepsOf(ts[2]), w, numWeeks)
  {
    var a := TaskEdges(ts, ts[0], DepsOf(ts[0]), w, numWeeks);
    var b := TaskEdges(ts, ts[1], DepsOf(ts[1]), w, numWeeks);
    var c := TaskEdges(ts, ts[2], DepsOf(ts[2]), w, numWeeks);
    assert EdgesFrom(ts, 3, w, numWeeks) == [];
    assert EdgesFrom(ts, 2, w, numWeeks) == c;
    assert EdgesFrom(ts, 1, w, numWeeks) == b + c;
    assert a + (b + c) == a + b + c;
  }

  /** Between two midnights the day difference is the difference of the day numbers. */
  lemma DayDiff(a: int, b: int)
    ensures DifferenceInDays(a * DAY, b * DAY) == a - b
  {
    DifferenceOfAddDays(b * DAY, a - b);
  }

  /** A task wholly before the window (1-5 March 2025 against the window from 20 April) gets no bar. */
  lemma EarlierTaskHasNoBar()
    ensures LayoutBar(Task("task-c", "C", LocalDate(2025, 2, 1), LocalDate(2025, 2, 5), 0, "", None),
                      0, LocalDate(2025, 3, 20), 2).None?
  {
    SpringDays2025(1);
    SpringDays2025(5);
    SpringDays2025(20);
    DayDiff(20148, 20198);
    DayDiff(20152, 20148);
  }

  /** What the page shows: the chart when there are tasks, the empty-state card when there are none. */
  datatype View = ChartView(tasks: seq<Task>) | EmptyState

  /** `handleSaveTask`: replace the task with the saved id when editing, append otherwise. */
  function SaveTask(tasks: seq<Task>, editing: bool, task: Task): (r: seq<Task>)
    ensures editing ==> |r| == |tasks|
    ensures editing ==> forall i :: 0 <= i < |tasks| ==> r[i] == (if tasks[i].id == task.id then task else tasks[i])
    ensures !editing ==> |r| == |tasks| + 1 && r[..|tasks|] == tasks && r[|tasks|] == task
  {
    if editing then UpdateWhere(tasks, TaskId, task.id, ConstTask(task)) else tasks + [task]
  }

  function ConstTask(task: Task): Task -> Task {
    _ => task
  }

  /** Saving an edited task keeps the ids distinct; appending keeps them distinct when the new id is unused. */
  lemma SaveTaskKeepsIdsDistinct(tasks: seq<Task>, editing: bool, task: Task)
    requires DistinctKeys(tasks, TaskId)
    requires !editing ==> !HasKey(tasks, TaskId, task.id)
    ensures DistinctKeys(SaveTask(tasks, editing, task), TaskId)
  {
    if editing {
      UpdateKeepsKeys(tasks, TaskId, task.id, ConstTask(task));
    } else {
      var r := SaveTask(tasks, editing, task);
      forall i, j | 0 <= i < j < |r| ensures r[i].id != r[j].id {
        if j == |tasks| {
          assert r[i] == tasks[i];
        }
      }
    }
  }

  class GanttPageState {
    var tasks: seq<Task>
    var isFormOpen: bool
    var currentTask: Option<Task>

    constructor ()
      ensures tasks == SampleTasks() && !isFormOpen && currentTask == None
    {
      tasks := SampleTasks();
      isFormOpen := false;
      currentTask := None;
    }

    method HandleAddTask()
      modifies this
      ensures currentTask == None && isFormOpen && tasks == old(tasks)
    {
      currentTask := None;
      isFormOpen := true;
    }

    method HandleEditTask(task: Task)
      modifies this
      ensures currentTask == Some(task) && isFormOpen && tasks == old(tasks)
    {
      currentTask := Some(task);
      isFormOpen := true;
    }

    method HandleCloseForm()
      modifies this`isFormOpen
      ensures !isFormOpen
    {
      isFormOpen := false;
    }

    method HandleSaveTask(task: Task)
      modifies this`tasks
      ensures tasks == SaveTask(old(tasks), currentTask.Some?, task)
    {
      if currentTask.Some? {
        tasks := UpdateWhere(tasks, TaskId, task.id, ConstTask(task));
      } else {
        tasks := tasks + [task];
      }
    }

    function View(): (v: View)
      reads this
      ensures v.ChartView? <==> |tasks| > 0
      ensures v.ChartView? ==> v.tasks == tasks
    {
      if |tasks| > 0 then ChartView(tasks) else EmptyState
    }
  }

  /**
   * Pressing Save in the dialog: the form builds the task, the page stores
   * it with `handleSaveTask`, and the dialog closes; a rejected form leaves
   * the page as it was. The dialog is open on the page's current task.
   */
  method SubmitTaskForm(page: GanttPageState, form: TaskForm.TaskFormState, freshId: string)
    returns (saved: Option<Task>)
    requires form.Valid() && form.task == page.currentTask
    modifies page
    ensures page.currentTask == old(page.currentTask)
    ensures saved.None? <==> form.startDate == [] || form.endDate == [] || Text.IsBlank(form.title)
    ensures saved.None? ==> page.tasks == old(page.tasks) && page.isFormOpen == old(page.isFormOpen)
    ensures saved.Some? ==>
              && saved.value.id == (if page.currentTask.Some? && page.currentTask.value.id != "" then page.currentTask.value.id
                                    else freshId)
              && saved.value.title == form.title
              && saved.value.startDate == ParseDateInput(form.startDate)
              && saved.value.endDate == ParseDateInput(form.endDate)
              && saved.value.progress == form.progress && saved.value.color == form.color
              && saved.value.dependencies == (if |form.dependencies| > 0 then Some(form.dependencies) else None)
              && page.tasks == SaveTask(old(page.tasks), old(page.currentTask).Some?, saved.value)
              && !page.isFormOpen
  {
    saved := form.HandleSave(freshId);
    if saved.Some? {
      page.HandleSaveTask(saved.value);
      page.HandleCloseForm();
    }
  }
}
