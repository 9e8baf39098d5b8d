/**
 * The Gantt chart component: a window of whole weeks on the timeline, moved
 * a week at a time and zoomed a week at a time; one header column per day of
 * the window; one bar per task that meets the window, clipped to it; and a
 * dashed arrow from the end of each dependency's bar to the start of the
 * dependent task's bar, drawn only when both ends lie inside the window.
 */
module GanttChart {
  import opened Dates
  import opened Collections

  /** A task as the chart receives it; `dependencies` is an optional field in the source. */
  datatype Task = Task(
    id: string,
    title: string,
    startDate: int,
    endDate: int,
    progress: int,
    color: string,
    dependencies: Option<seq<string>>)

  function TaskId(t: Task): string {
    t.id
  }

  /** Pixel sizes fixed by the chart's styling: a day column is 64px wide, a task row 48px high. */
  const COLUMN_PX: int := 64
  const ROW_PX: int := 48

  // ---------------------------------------------------------------------------
  // Header columns

  datatype ColumnKind = Today | Weekend | Weekday

  datatype Column = Column(date: int, kind: ColumnKind)

  /** A column is shaded as today if it is today's date, otherwise as weekend on a Saturday or a Sunday. */
  function KindOf(date: int, today: int): (k: ColumnKind)
    ensures k == Today <==> IsSameDay(date, today)
    ensures k == Weekend <==> !IsSameDay(date, today) && (DayOfWeek(date) == 0 || DayOfWeek(date) == 6)
  {
    if IsSameDay(date, today) then Today
    else if DayOfWeek(date) == 0 || DayOfWeek(date) == 6 then Weekend
    else Weekday
  }

  /** Two different columns of one header are never both today. */
  lemma TodayIsUnique(start: int, i: int, j: int, today: int)
    requires KindOf(AddDays(start, i), today) == Today
    requires KindOf(AddDays(start, j), today) == Today
    ensures i == j
  {
    DifferenceOfAddDays(start, i);
    DifferenceOfAddDays(start, j);
    var d := DayNumber(start);
    assert DayNumber(AddDays(start, i)) == d + i by {
      FloorDivUnique(AddDays(start, i), d + i);
    }
    assert DayNumber(AddDays(start, j)) == d + j by {
      FloorDivUnique(AddDays(start, j), d + j);
    }
  }

  /**
   * In a window that starts on a Sunday (as the chart's does), the weekend
   * columns are exactly those at positions 0 and 6 of each week.
   */
  lemma WeekendColumns(start: int, i: int, today: int)
    requires DayOfWeek(start) == 0 && 0 <= i
    requires !IsSameDay(AddDays(start, i), today)
    ensures KindOf(AddDays(start, i), today) == Weekend <==> (i % 7 == 0 || i % 7 == 6)
  {
    DayOfWeekAddDays(start, i);
  }

  // ---------------------------------------------------------------------------
  // Bars

  /** Whole days from the window's first day to the task's start (negative: the task starts earlier). */
  function StartDateDiff(t: Task, windowStart: int): int {
    DifferenceInDays(t.startDate, windowStart)
  }

  /** Days the task covers, counting both ends; not clamped, so an end before the start gives 0 or less. */
  function TaskDuration(t: Task): int {
    DifferenceInDays(t.endDate, t.startDate) + 1
  }

  /** The bar of the task in row `taskIndex`, in days from the window's first column. */
  datatype Bar = Bar(taskIndex: int, visibleStart: int, visibleDuration: int)

  function BarLeft(b: Bar): int {
    b.visibleStart * COLUMN_PX
  }

  function BarTop(b: Bar): int {
    b.taskIndex * ROW_PX + 2
  }

  function BarWidth(b: Bar): int {
    b.visibleDuration * COLUMN_PX - 4
  }

  function Max(a: int, b: int): int {
    if a >= b then a else b
  }

  function Min(a: int, b: int): int {
    if a <= b then a else b
  }

  /**
   * The bar of one task, or None when the task is skipped. A task is kept
   * exactly when its day range [diff, diff + duration] meets the window's
   * [0, numWeeks * 7], touching ends included, and its bar is then the part
   * of that range inside the window.
   */
  function LayoutBar(t: Task, taskIndex: int, windowStart: int, numWeeks: int): (r: Option<Bar>)
    requires numWeeks >= 0
    ensures r.Some? <==> StartDateDiff(t, windowStart) <= numWeeks * 7
                         && 0 <= StartDateDiff(t, windowStart) + TaskDuration(t)
    ensures r.Some? ==> r.value.taskIndex == taskIndex
                        && 0 <= r.value.visibleStart <= numWeeks * 7
                        && r.value.visibleStart + r.value.visibleDuration <= numWeeks * 7
    ensures r.Some? && t.startDate <= t.endDate ==> r.value.visibleDuration >= 0
    ensures r.Some? ==> r.value.visibleStart == Max(0, StartDateDiff(t, windowStart))
                        && r.value.visibleStart + r.value.visibleDuration
                           == Min(StartDateDiff(t, windowStart) + TaskDuration(t), numWeeks * 7)
  {
    var diff := StartDateDiff(t, windowStart);
    var duration := TaskDuration(t);
    if diff + duration < 0 || diff > numWeeks * 7 then None
    else
      var visibleStart := Max(0, diff);
      var visibleDuration := Min(duration - Max(0, -diff), numWeeks * 7 - visibleStart);
      Some(Bar(taskIndex, visibleStart, visibleDuration))
  }

  /** `tasks.map((task, taskIndex) => …)`: one entry per row, None where the task is skipped. */
  function LayoutBars(tasks: seq<Task>, windowStart: int, numWeeks: int): (r: seq<Option<Bar>>)
    requires numWeeks >= 0
    ensures |r| == |tasks|
    ensures forall i :: 0 <= i < |r| ==> r[i] == LayoutBar(tasks[i], i, windowStart, numWeeks)
    ensures forall i :: 0 <= i < |r| ==>
              (r[i].Some? <==> StartDateDiff(tasks[i], windowStart) <= numWeeks * 7
                               && 0 <= StartDateDiff(tasks[i], windowStart) + TaskDuration(tasks[i]))
    ensures forall i :: 0 <= i < |r| && r[i].Some? ==>
              BarTop(r[i].value) == i * ROW_PX + 2
              && 0 <= r[i].value.visibleStart
              && r[i].value.visibleStart + r[i].value.visibleDuration <= numWeeks * 7
              && (tasks[i].startDate <= tasks[i].endDate ==> r[i].value.visibleDuration >= 0)
  {
    seq(|tasks|, i requires 0 <= i < |tasks| => LayoutBar(tasks[i], i, windowStart, numWeeks))
  }

  /** A task wholly inside the window keeps its own start and length. */
  lemma BarInsideWindow(t: Task, taskIndex: int, windowStart: int, numWeeks: int)
    requires numWeeks >= 0 && t.startDate <= t.endDate
    requires 0 <= StartDateDiff(t, windowStart)
    requires StartDateDiff(t, windowStart) + TaskDuration(t) <= numWeeks * 7
    ensures LayoutBar(t, taskIndex, windowStart, numWeeks)
            == Some(Bar(taskIndex, StartDateDiff(t, windowStart), TaskDuration(t)))
  {
  }

  /** A task that covers the whole window gets a bar from the first column to the last. */
  lemma BarSpanningWindow(t: Task, taskIndex: int, windowStart: int, numWeeks: int)
    requires numWeeks >= 0
    requires StartDateDiff(t, windowStart) <= 0
    requires StartDateDiff(t, windowStart) + TaskDuration(t) >= numWeeks * 7
    ensures LayoutBar(t, taskIndex, windowStart, numWeeks) == Some(Bar(taskIndex, 0, numWeeks * 7))
  {
  }

  /** The two touching cases are kept, with a bar of no days. */
  lemma BarTouchingWindow(t: Task, taskIndex: int, windowStart: int, numWeeks: int)
    requires numWeeks >= 0 && t.startDate <= t.endDate
    requires StartDateDiff(t, windowStart) + TaskDuration(t) == 0 || StartDateDiff(t, windowStart) == numWeeks * 7
    ensures LayoutBar(t, taskIndex, windowStart, numWeeks).Some?
    ensures LayoutBar(t, taskIndex, windowStart, numWeeks).value.visibleDuration == 0
  {
  }

  /** In pixels: a kept bar starts at or right of the grid's left edge and ends 4px short of its right edge at most. */
  lemma BarPixelsInsideGrid(t: Task, taskIndex: int, windowStart: int, numWeeks: int)
    requires numWeeks >= 0
    requires LayoutBar(t, taskIndex, windowStart, numWeeks).Some?
    ensures var b := LayoutBar(t, taskIndex, windowStart, numWeeks).value;
            0 <= BarLeft(b) && BarLeft(b) + BarWidth(b) <= numWeeks * 7 * COLUMN_PX - 4
  {
  }

  /** Moving the window `k` days later moves every task `k` days to the left. */
  lemma WindowShiftMovesTasks(t: Task, windowStart: int, k: int)
    ensures StartDateDiff(t, AddDays(windowStart, k)) == StartDateDiff(t, windowStart) - k
  {
    DifferenceShift(t.startDate, windowStart, k);
  }

  // ---------------------------------------------------------------------------
  // Dependency edges

  /** An arrow from the end of `fromId`'s bar (x1, y1) to the start of `toId`'s bar (x2, y2), in pixels. */
  datatype Edge = Edge(fromId: string, toId: string, x1: int, y1: int, x2: int, y2: int)

  /** The x of an arrow's tail: 2px inside the right end of the dependency's last day. */
  function TailX(dep: Task, windowStart: int): int {
    (DifferenceInDays(dep.endDate, windowStart) + 1) * COLUMN_PX - 2
  }

  /** The x of an arrow's head: the left edge of the dependent task's first day. */
  function HeadX(t: Task, windowStart: int): int {
    DifferenceInDays(t.startDate, windowStart) * COLUMN_PX
  }

  predicate InGrid(x: int, numWeeks: int) {
    0 <= x <= numWeeks * 7 * COLUMN_PX
  }

  /** The arrow from the task named `depId` to `t`, if that task exists and both ends are in the grid. */
  function EdgeFor(tasks: seq<Task>, t: Task, depId: string, windowStart: int, numWeeks: int): (r: Option<Edge>)
    ensures !HasKey(tasks, TaskId, depId) ==> r.None?
    ensures r.Some? ==> r.value.fromId == depId && r.value.toId == t.id
                        && InGrid(r.value.x1, numWeeks) && InGrid(r.value.x2, numWeeks)
                        && r.value.y1 == FindIndex(tasks, TaskId, depId) * ROW_PX + 6
                        && r.value.y2 == FindIndex(tasks, TaskId, t.id) * ROW_PX + 6
  {
    match Find(tasks, TaskId, depId)
    case None => None
    case Some(dep) =>
      var startX := TailX(dep, windowStart);
      var startY := FindIndex(tasks, TaskId, depId) * ROW_PX + 6;
      var endX := HeadX(t, windowStart);
      var endY := FindIndex(tasks, TaskId, t.id) * ROW_PX + 6;
      if !InGrid(startX, numWeeks) || !InGrid(endX, numWeeks) then None
      else Some(Edge(depId, t.id, startX, startY, endX, endY))
  }

  /**
   * The pixel test in whole days: an arrow is drawn exactly when its
   * dependency exists, ends on one of the window's days, and the dependent
   * task starts on one of them or on the day just after the window.
   */
  lemma EdgeDayTest(tasks: seq<Task>, t: Task, depId: string, windowStart: int, numWeeks: int)
    ensures EdgeFor(tasks, t, depId, windowStart, numWeeks).Some? <==>
            HasKey(tasks, TaskId, depId)
            && 0 <= DifferenceInDays(Find(tasks, TaskId, depId).value.endDate, windowStart) <= numWeeks * 7 - 1
            && 0 <= DifferenceInDays(t.startDate, windowStart) <= numWeeks * 7
  {
    if HasKey(tasks, TaskId, depId) {
      var dep := Find(tasks, TaskId, depId).value;
      var d := DifferenceInDays(dep.endDate, windowStart);
      var w := numWeeks * 7;
      assert InGrid(TailX(dep, windowStart), numWeeks) <==> 0 <= d <= w - 1 by {
        assert TailX(dep, windowStart) == 64 * d + 62;
        assert numWeeks * 7 * COLUMN_PX == 64 * w;
      }
    }
  }

  /** Whether the dependency id `depId` of `t` gets an arrow. */
  function Drawn(tasks: seq<Task>, t: Task, windowStart: int, numWeeks: int): string -> bool {
    (depId: string) => EdgeFor(tasks, t, depId, windowStart, numWeeks).Some?
  }

  /**
   * The arrows of one task, one per dependency id in order, skipping those
   * not drawn: one arrow per drawn dependency, and only those.
   */
  function TaskEdges(tasks: seq<Task>, t: Task, deps: seq<string>, windowStart: int, numWeeks: int): (r: seq<Edge>)
    ensures |r| == CountWhere(deps, Drawn(tasks, t, windowStart, numWeeks))
    ensures forall e :: e in r ==> e.toId == t.id && e.fromId in deps
                                   && EdgeFor(tasks, t, e.fromId, windowStart, numWeeks) == Some(e)
    ensures forall k :: 0 <= k < |deps| && EdgeFor(tasks, t, deps[k], windowStart, numWeeks).Some? ==>
              EdgeFor(tasks, t, deps[k], windowStart, numWeeks).value in r
  {
    if deps == [] then []
    else
      var rest := TaskEdges(tasks, t, deps[1..], windowStart, numWeeks);
      match EdgeFor(tasks, t, deps[0], windowStart, numWeeks)
      case None => rest
      case Some(e) => [e] + rest
  }

  /** The dependency ids of `t`; a task without the field has none. */
  function DepsOf(t: Task): seq<string> {
    if t.dependencies.Some? then t.dependencies.value else []
  }

  /** `e` is the arrow `EdgeFor` draws for a dependency of one of the tasks from `from` on. */
  predicate DrawnFrom(tasks: seq<Task>, from: nat, e: Edge, windowStart: int, numWeeks: int) {
    exists i :: from <= i < |tasks| && e.fromId in DepsOf(tasks[i])
                && EdgeFor(tasks, tasks[i], e.fromId, windowStart, numWeeks) == Some(e)
  }

  /**
   * All arrows of the chart: the tasks from `from` on, in list order, each
   * with its dependencies in order. Every arrow joins two listed tasks and
   * lies in the grid, and every dependency that passes the test has its arrow.
   */
  function EdgesFrom(tasks: seq<Task>, from: nat, windowStart: int, numWeeks: int): (r: seq<Edge>)
    requires from <= |tasks|
    ensures forall e :: e in r ==> HasKey(tasks, TaskId, e.fromId) && HasKey(tasks, TaskId, e.toId)
                                   && InGrid(e.x1, numWeeks) && InGrid(e.x2, numWeeks)
                                   && e.y1 == FindIndex(tasks, TaskId, e.fromId) * ROW_PX + 6
                                   && e.y2 == FindIndex(tasks, TaskId, e.toId) * ROW_PX + 6
    ensures forall e :: e in r ==> DrawnFrom(tasks, from, e, windowStart, numWeeks)
    ensures forall i, k :: from <= i < |tasks| && 0 <= k < |DepsOf(tasks[i])|
                           && EdgeFor(tasks, tasks[i], DepsOf(tasks[i])[k], windowStart, numWeeks).Some? ==>
              EdgeFor(tasks, tasks[i], DepsOf(tasks[i])[k], windowStart, numWeeks).value in r
    decreases |tasks| - from
  {
    if from == |tasks| then []
    else
      var t := tasks[from];
      var mine := TaskEdges(tasks, t, DepsOf(t), windowStart, numWeeks);
      var rest := EdgesFrom(tasks, from + 1, windowStart, numWeeks);
      assert HasKey(tasks, TaskId, t.id) by {
        assert TaskId(tasks[from]) == t.id;
      }
      mine + rest
  }

  /** Removing a task removes every arrow that leaves it: no arrow names a task that is not in the list. */
  lemma NoEdgeFromMissingTask(tasks: seq<Task>, depId: string, windowStart: int, numWeeks: int)
    requires !HasKey(tasks, TaskId, depId)
    ensures forall e :: e in EdgesFrom(tasks, 0, windowStart, numWeeks) ==> e.fromId != depId
  {
  }

  // ---------------------------------------------------------------------------
  // Window state

  /** The chart's own state: the first day shown and the number of weeks shown. */
  class ChartWindow {
    var startDate: int
    var numWeeks: int

    /** The zoom floor: never fewer than two weeks. */
    ghost predicate Valid()
      reads this
    {
      numWeeks >= 2
    }

    /** A fresh chart shows four weeks from the start of the current week. */
    constructor (now: int)
      ensures Valid()
      ensures startDate == StartOfWeek(now) && numWeeks == 4
    {
      startDate := StartOfWeek(now);
      numWeeks := 4;
    }

    method PrevWeek()
      modifies this
      ensures startDate == AddDays(old(startDate), -7) && numWeeks == old(numWeeks)
    {
      startDate := AddDays(startDate, -7);
    }

    method NextWeek()
      modifies this
      ensures startDate == AddDays(old(startDate), 7) && numWeeks == old(numWeeks)
    {
      startDate := AddDays(startDate, 7);
    }

    /** Narrows the window by a week unless it is already at two weeks. */
    method ZoomIn()
      requires Valid()
      modifies this
      ensures Valid()
      ensures numWeeks == (if old(numWeeks) > 2 then old(numWeeks) - 1 else old(numWeeks))
      ensures startDate == old(startDate)
    {
      if numWeeks > 2 {
        numWeeks := numWeeks - 1;
      }
    }

    method ZoomOut()
      requires Valid()
      modifies this
      ensures Valid()
      ensures numWeeks == old(numWeeks) + 1 && startDate == old(startDate)
    {
      numWeeks := numWeeks + 1;
    }

    /** The header: one column per day of the window, built by pushing day after day. */
    method HeaderColumns(today: int) returns (cols: seq<Column>)
      requires Valid()
      ensures |cols| == numWeeks * 7
      ensures forall i :: 0 <= i < |cols| ==>
                cols[i].date == AddDays(startDate, i) && cols[i].kind == KindOf(cols[i].date, today)
      ensures forall i :: 0 <= i < |cols| ==> DifferenceInDays(cols[i].date, startDate) == i
    {
      cols := [];
      var i := 0;
      while i < numWeeks * 7
        invariant 0 <= i <= numWeeks * 7
        invariant |cols| == i
        invariant forall k :: 0 <= k < i ==>
                    cols[k].date == AddDays(startDate, k) && cols[k].kind == KindOf(cols[k].date, today)
        invariant forall k :: 0 <= k < i ==> DifferenceInDays(cols[k].date, startDate) == k
      {
        var date := AddDays(startDate, i);
        DifferenceOfAddDays(startDate, i);
        cols := cols + [Column(date, KindOf(date, today))];
        i := i + 1;
      }
    }

    /** The bars for the current window. */
    function Bars(tasks: seq<Task>): (r: seq<Option<Bar>>)
      requires Valid()
      reads this
      ensures |r| == |tasks|
      ensures forall i :: 0 <= i < |r| ==> r[i] == LayoutBar(tasks[i], i, startDate, numWeeks)
      ensures forall i :: 0 <= i < |r| && r[i].Some? ==>
                0 <= r[i].value.visibleStart
                && r[i].value.visibleStart + r[i].value.visibleDuration <= numWeeks * 7
                && (tasks[i].startDate <= tasks[i].endDate ==> r[i].value.visibleDuration >= 0)
    {
      LayoutBars(tasks, startDate, numWeeks)
    }

    /**
     * The arrows for the current window: each is the arrow `EdgeFor` draws
     * for a dependency of a listed task, joins two listed tasks and has both
     * x ends in the grid; each drawn dependency has one.
     */
    function Arrows(tasks: seq<Task>): (r: seq<Edge>)
      reads this
      ensures forall e :: e in r ==> HasKey(tasks, TaskId, e.fromId) && HasKey(tasks, TaskId, e.toId)
                                     && InGrid(e.x1, numWeeks) && InGrid(e.x2, numWeeks)
                                     && e.y1 == FindIndex(tasks, TaskId, e.fromId) * ROW_PX + 6
                                     && e.y2 == FindIndex(tasks, TaskId, e.toId) * ROW_PX + 6
      ensures forall e :: e in r ==> DrawnFrom(tasks, 0, e, startDate, numWeeks)
      ensures forall i, k :: 0 <= i < |tasks| && 0 <= k < |DepsOf(tasks[i])|
                             && EdgeFor(tasks, tasks[i], DepsOf(tasks[i])[k], startDate, numWeeks).Some? ==>
                EdgeFor(tasks, tasks[i], DepsOf(tasks[i])[k], startDate, numWeeks).value in r
    {
      EdgesFrom(tasks, 0, startDate, numWeeks)
    }
  }

  /** Forward a week and back again (either order) leaves the window where it was. */
  method WeekRoundTrip(w: ChartWindow, forwardFirst: bool)
    requires w.Valid()
    modifies w
    ensures w.startDate == old(w.startDate) && w.numWeeks == old(w.numWeeks)
  {
    if forwardFirst {
      w.NextWeek();
      w.PrevWeek();
    } else {
      w.PrevWeek();
      w.NextWeek();
    }
  }
}
