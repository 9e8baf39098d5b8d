/**
 * The dialog that adds or edits a Gantt task. Its fields are React state
 * initialised once, when the dialog component mounts; the `task` and `tasks`
 * props can change afterwards without refilling them. Saving checks the title
 * and both dates and builds the task that is handed to the page.
 */
module TaskForm {
  import opened Collections
  import opened Text
  import opened Dates
  import opened GanttChart

  /** The default bar colour of a new task. */
  const DEFAULT_COLOR: string := "#6366F1"

  function Self(s: string): string {
    s
  }

  /** `handleDependencyChange`: drop `id` if it is chosen, otherwise append it. */
  function Toggle(deps: seq<string>, id: string): (r: seq<string>)
    ensures id in deps ==> id !in r && |r| < |deps|
    ensures id !in deps ==> r == deps + [id]
    ensures forall x :: x != id ==> (x in r <==> x in deps)
  {
    if id in deps then
      var r := RemoveWhere(deps, Self, id);
      assert forall i :: 0 <= i < |r| ==> Self(r[i]) != id;
      assert CountKey(deps, Self, id) > 0 by {
        CountKeyPositive(deps, id);
      }
      forall x | x != id && x in deps ensures x in r {
        var i :| 0 <= i < |deps| && deps[i] == x;
        assert Self(deps[i]) != id;
      }
      r
    else deps + [id]
  }

  lemma {:induction false} CountKeyPositive(deps: seq<string>, id: string)
    requires id in deps
    ensures CountKey(deps, Self, id) > 0
  {
    if deps[0] != id {
      CountKeyPositive(deps[1..], id);
    }
  }

  /** Toggling one id twice gives every id its old membership back; from "not chosen" it gives the very same list. */
  lemma ToggleTwice(deps: seq<string>, id: string)
    ensures forall x :: x in Toggle(Toggle(deps, id), id) <==> x in deps
    ensures id !in deps ==> Toggle(Toggle(deps, id), id) == deps
  {
    if id !in deps {
      var once := deps + [id];
      var twice := Toggle(once, id);
      RemoveConcat(deps, [id], Self, id);
      RemoveMissing(deps, Self, id);
      assert RemoveWhere([id], Self, id) == [];
    }
  }

  /** Toggling never puts an id in twice. */
  lemma ToggleKeepsDistinct(deps: seq<string>, id: string)
    requires DistinctKeys(deps, Self)
    ensures DistinctKeys(Toggle(deps, id), Self)
  {
    if id in deps {
      RemoveKeepsDistinct(deps, Self, id);
    }
  }

  /** The dependency checkboxes: every other task, offered only when a task is being edited. */
  function Choices(task: Option<Task>, tasks: seq<Task>): (r: seq<Task>)
    ensures task.None? ==> r == []
    ensures task.Some? ==> forall i :: 0 <= i < |r| ==> r[i].id != task.value.id && r[i] in tasks
    ensures task.Some? ==> forall i :: 0 <= i < |tasks| && tasks[i].id != task.value.id ==> tasks[i] in r
  {
    if task.None? then [] else RemoveWhere(tasks, TaskId, task.value.id)
  }

  class TaskFormState {
    var task: Option<Task>
    var tasks: seq<Task>
    var title: string
    var startDate: string
    var endDate: string
    var progress: int
    var color: string
    var dependencies: seq<string>

    /** The two date inputs only ever hold what a date picker produces, the empty value included. */
    ghost predicate Valid()
      reads this
    {
      IsDateInput(startDate) && IsDateInput(endDate)
    }

    /**
     * Mounting the dialog. `startInput` and `endInput` are what
     * `formatDateForInput` makes of the task's dates, or of the current date
     * when there is no task.
     */
    constructor (task: Option<Task>, tasks: seq<Task>, startInput: string, endInput: string)
      requires IsDateInput(startInput) && IsDateInput(endInput)
      ensures Valid()
      ensures this.task == task && this.tasks == tasks
      ensures title == (if task.Some? then task.value.title else "")
      ensures startDate == startInput && endDate == endInput
      ensures progress == (if task.Some? then task.value.progress else 0)
      ensures color == (if task.Some? && task.value.color != "" then task.value.color else DEFAULT_COLOR)
      ensures dependencies == (if task.Some? && task.value.dependencies.Some? then task.value.dependencies.value else [])
    {
      this.task := task;
      this.tasks := tasks;
      title := if task.Some? then task.value.title else "";
      startDate := startInput;
      endDate := endInput;
      progress := if task.Some? then task.value.progress else 0;
      color := if task.Some? && task.value.color != "" then task.value.color else DEFAULT_COLOR;
      dependencies := if task.Some? && task.value.dependencies.Some? then task.value.dependencies.value else [];
    }

    /** The page re-renders the dialog with new props; the field state is kept as it is. */
    method SetProps(task: Option<Task>, tasks: seq<Task>)
      modifies this
      ensures this.task == task && this.tasks == tasks
      ensures title == old(title) && startDate == old(startDate) && endDate == old(endDate)
      ensures progress == old(progress) && color == old(color) && dependencies == old(dependencies)
    {
      this.task := task;
      this.tasks := tasks;
    }

    method SetTitle(value: string)
      modifies this`title
      ensures title == value
    {
      title := value;
    }

    /** Picking or clearing the dates. */
    method SetDates(startValue: string, endValue: string)
      requires IsDateInput(startValue) && IsDateInput(endValue)
      modifies this`startDate, this`endDate
      ensures Valid() && startDate == startValue && endDate == endValue
    {
      startDate := startValue;
      endDate := endValue;
    }

    /** Moving the progress slider. */
    method SetProgress(value: int)
      modifies this`progress
      ensures progress == value
    {
      progress := value;
    }

    /** Picking a colour or typing one. */
    method SetColor(value: string)
      modifies this`color
      ensures color == value
    {
      color := value;
    }

    method HandleDependencyChange(id: string)
      modifies this`dependencies
      ensures dependencies == Toggle(old(dependencies), id)
    {
      dependencies := Toggle(dependencies, id);
    }

    /** Ticking the `k`-th checkbox: the task being edited never becomes its own dependency. */
    method ToggleChoice(k: int)
      requires 0 <= k < |Choices(task, tasks)|
      modifies this`dependencies
      ensures dependencies == Toggle(old(dependencies), Choices(task, tasks)[k].id)
      ensures task.Some? && task.value.id !in old(dependencies) ==> task.value.id !in dependencies
    {
      var id := Choices(task, tasks)[k].id;
      HandleDependencyChange(id);
    }

    /**
     * `handleSave`: nothing when the title is blank or a date is empty;
     * otherwise the task to hand to the page, keeping the edited task's id
     * (when it has one) and leaving out an empty dependency list.
     */
    method HandleSave(freshId: string) returns (saved: Option<Task>)
      requires Valid()
      ensures saved.None? <==> IsBlank(title) || startDate == [] || endDate == []
      ensures saved.Some? ==>
                && saved.value.id == (if task.Some? && task.value.id != "" then task.value.id else freshId)
                && saved.value.title == title && saved.value.progress == progress && saved.value.color == color
                && saved.value.startDate == ParseDateInput(startDate)
                && saved.value.endDate == ParseDateInput(endDate)
                && saved.value.dependencies == (if |dependencies| > 0 then Some(dependencies) else None)
    {
      if IsBlank(title) || startDate == [] || endDate == [] {
        return None;
      }
      var id := if task.Some? && task.value.id != "" then task.value.id else freshId;
      var deps := if |dependencies| > 0 then Some(dependencies) else None;
      saved := Some(Task(id, title, ParseDateInput(startDate), ParseDateInput(endDate), progress, color, deps));
    }
  }
}
