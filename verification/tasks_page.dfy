/**
 * The tasks page: a list of tasks edited through one form, which either
 * creates a task or rewrites the one being edited, plus delete and
 * drag-and-drop reordering. Choosing a task to edit fills the form from
 * it; leaving edit mode clears the form.
 */
module TasksPage {
  import opened Collections
  import opened Text

  datatype Priority = Low | Medium | High

  datatype TaskItem = TaskItem(
    id: string,
    title: string,
    description: string,
    priority: Option<Priority>,
    dueDate: Option<string>,
    assignee: Option<string>)

  function ItemId(t: TaskItem): string {
    t.id
  }

  /** `value || undefined`: an empty input stores nothing. */
  function OrUndefined(s: string): (r: Option<string>)
    ensures r.None? <==> s == ""
    ensures r.Some? ==> r.value == s
  {
    if s == "" then None else Some(s)
  }

  /** `value || ''`: a missing value shows as an empty input. */
  function OrEmpty(v: Option<string>): string {
    if v.Some? then v.value else ""
  }

  /** An input that went through `OrUndefined` shows again as itself. */
  lemma OrEmptyOrUndefined(s: string)
    ensures OrEmpty(OrUndefined(s)) == s
  {
  }

  /** The update `handleCreateOrUpdate` applies to the task being edited; its id is kept. */
  function ApplyForm(title: string, description: string, priority: Priority, dueDate: string, assignee: string): TaskItem -> TaskItem {
    (t: TaskItem) => t.(title := title, description := description, priority := Some(priority),
                        dueDate := OrUndefined(dueDate), assignee := OrUndefined(assignee))
  }

  // ---------------------------------------------------------------------------
  // Drag and drop

  /** Where `Array.prototype.splice(i, ...)` starts on an array of length `len`. */
  function SpliceIndex(i: int, len: nat): (r: nat)
    ensures r <= len
    ensures 0 <= i <= len ==> r == i
  {
    if i < 0 then (if len + i < 0 then 0 else len + i)
    else if i > len then len else i
  }

  /** `s` without its element at `i`. */
  function RemoveAt<T>(s: seq<T>, i: nat): (r: seq<T>)
    requires i < |s|
    ensures |r| == |s| - 1
  {
    s[..i] + s[i + 1..]
  }

  /** Take the element at `from` out and put it back in at position `to` of what remains. */
  function Moved<T>(s: seq<T>, from: nat, to: nat): (r: seq<T>)
    requires from < |s| && to < |s|
    ensures |r| == |s|
  {
    var rest := RemoveAt(s, from);
    rest[..to] + [s[from]] + rest[to..]
  }

  /** Which position of `s` ends up at position `j` of `Moved(s, from, to)`. */
  function MovedSource(from: nat, to: nat, j: nat): nat {
    if j == to then from
    else
      var k := if j < to then j else j - 1;
      if k < from then k else k + 1
  }

  lemma MovedAt<T>(s: seq<T>, from: nat, to: nat)
    requires from < |s| && to < |s|
    ensures forall j :: 0 <= j < |s| ==> MovedSource(from, to, j) < |s| && Moved(s, from, to)[j] == s[MovedSource(from, to, j)]
  {
    var rest := RemoveAt(s, from);
    forall j | 0 <= j < |s| ensures MovedSource(from, to, j) < |s| && Moved(s, from, to)[j] == s[MovedSource(from, to, j)] {
      if j < to {
        assert Moved(s, from, to)[j] == rest[j];
      } else if j > to {
        assert Moved(s, from, to)[j] == rest[j - 1];
      }
    }
  }

  /** The reordered list holds the same tasks. */
  lemma MovedIsPermutation<T>(s: seq<T>, from: nat, to: nat)
    requires from < |s| && to < |s|
    ensures multiset(Moved(s, from, to)) == multiset(s)
  {
    var rest := RemoveAt(s, from);
    var x := s[from];
    assert rest == rest[..to] + rest[to..];
    assert s == s[..from] + [x] + s[from + 1..];
    calc {
      multiset(Moved(s, from, to));
      multiset(rest[..to]) + multiset([x]) + multiset(rest[to..]);
      multiset(rest) + multiset([x]);
      multiset(s[..from]) + multiset(s[from + 1..]) + multiset([x]);
      multiset(s);
    }
  }

  /** The dragged task sits at the destination, and the others keep their relative order. */
  lemma MovedPlacesItem<T>(s: seq<T>, from: nat, to: nat)
    requires from < |s| && to < |s|
    ensures Moved(s, from, to)[to] == s[from]
    ensures RemoveAt(Moved(s, from, to), to) == RemoveAt(s, from)
  {
    var rest := RemoveAt(s, from);
    var r := Moved(s, from, to);
    assert r[..to] == rest[..to];
    assert r[to + 1..] == rest[to..];
  }

  /** Dragging the task back to where it came from restores the list. */
  lemma MovedBack<T>(s: seq<T>, from: nat, to: nat)
    requires from < |s| && to < |s|
    ensures Moved(Moved(s, from, to), to, from) == s
  {
    MovedPlacesItem(s, from, to);
    var rest := RemoveAt(s, from);
    assert s == rest[..from] + [s[from]] + rest[from..];
  }

  /** The splice loop moving `a[source + 1..to + 1]` one place left; the slot at `to` is then free. */
  method ShiftLeft<T>(a: array<T>, source: nat, to: nat)
    requires source <= to < a.Length
    modifies a
    ensures forall j :: 0 <= j < source ==> a[j] == old(a[j])
    ensures forall j :: source <= j < to ==> a[j] == old(a[j + 1])
    ensures forall j :: to <= j < a.Length ==> a[j] == old(a[j])
  {
    var k := source;
    while k < to
      invariant source <= k <= to
      invariant forall j :: 0 <= j < source ==> a[j] == old(a[j])
      invariant forall j :: source <= j < k ==> a[j] == old(a[j + 1])
      invariant forall j :: k <= j < a.Length ==> a[j] == old(a[j])
    {
      a[k] := a[k + 1];
      k := k + 1;
    }
  }

  /** The splice loop moving `a[to..source]` one place right; the slot at `to` is then free. */
  method ShiftRight<T>(a: array<T>, source: nat, to: nat)
    requires to <= source < a.Length
    modifies a
    ensures forall j :: 0 <= j <= to ==> a[j] == old(a[j])
    ensures forall j :: to < j <= source ==> a[j] == old(a[j - 1])
    ensures forall j :: source < j < a.Length ==> a[j] == old(a[j])
  {
    var k := source;
    while k > to
      invariant to <= k <= source
      invariant forall j :: 0 <= j <= k ==> a[j] == old(a[j])
      invariant forall j :: k < j <= source ==> a[j] == old(a[j - 1])
      invariant forall j :: source < j < a.Length ==> a[j] == old(a[j])
    {
      a[k] := a[k - 1];
      k := k - 1;
    }
  }

  /**
   * `handleDragEnd` once a destination exists: copy the list into an
   * array, splice the task out of `source`, and splice it back in at
   * `destination`, shifting the tasks between the two positions by one.
   */
  method Reorder<T>(tasks: seq<T>, source: int, destination: int) returns (items: seq<T>)
    requires 0 <= source < |tasks|
    ensures items == Moved(tasks, source, SpliceIndex(destination, |tasks| - 1))
  {
    var a := new T[|tasks|](i requires 0 <= i < |tasks| => tasks[i]);
    var to := SpliceIndex(destination, |tasks| - 1);
    var item := a[source];
    if source < to {
      ShiftLeft(a, source, to);
    } else {
      ShiftRight(a, source, to);
    }
    a[to] := item;
    MovedAt(tasks, source, to);
    forall j | 0 <= j < |tasks| ensures a[j] == Moved(tasks, source, to)[j] {
      assert a[j] == tasks[MovedSource(source, to, j)];
    }
    items := a[..];
  }

  // ---------------------------------------------------------------------------
  // The page

  class Page {
    var tasks: seq<TaskItem>
    var title: string
    var description: string
    var priority: Priority
    var dueDate: string
    var assignee: string
    var editing: Option<string>

    constructor ()
      ensures tasks == [] && editing == None
      ensures title == "" && description == "" && priority == Medium && dueDate == "" && assignee == ""
    {
      tasks := [];
      title := "";
      description := "";
      priority := Medium;
      dueDate := "";
      assignee := "";
      editing := None;
    }

    /** The form shows its defaults. */
    ghost predicate FormCleared()
      reads this
    {
      title == "" && description == "" && priority == Medium && dueDate == "" && assignee == ""
    }

    /** Typing into the form. */
    method EditForm(title: string, description: string, priority: Priority, dueDate: string, assignee: string)
      modifies this`title, this`description, this`priority, this`dueDate, this`assignee
      ensures this.title == title && this.description == description && this.priority == priority
      ensures this.dueDate == dueDate && this.assignee == assignee
    {
      this.title := title;
      this.description := description;
      this.priority := priority;
      this.dueDate := dueDate;
      this.assignee := assignee;
    }

    /**
     * The prefill effect, run after `editing` has changed: a task id fills
     * the form from that task (if it still exists), no id clears the form.
     */
    method EditingChanged()
      modifies this`title, this`description, this`priority, this`dueDate, this`assignee
      ensures (editing.None? || editing.value == "") ==> FormCleared()
      ensures editing.Some? && editing.value != "" && !HasKey(tasks, ItemId, editing.value) ==>
                title == old(title) && description == old(description) && priority == old(priority)
                && dueDate == old(dueDate) && assignee == old(assignee)
      ensures editing.Some? && editing.value != "" && HasKey(tasks, ItemId, editing.value) ==>
                var t := Find(tasks, ItemId, editing.value).value;
                && title == t.title && description == t.description
                && priority == (if t.priority.Some? then t.priority.value else Medium)
                && dueDate == OrEmpty(t.dueDate) && assignee == OrEmpty(t.assignee)
    {
      if editing.Some? && editing.value != "" {
        var found := Find(tasks, ItemId, editing.value);
        if found.Some? {
          var t := found.value;
          title := t.title;
          description := t.description;
          priority := if t.priority.Some? then t.priority.value else Medium;
          dueDate := OrEmpty(t.dueDate);
          assignee := OrEmpty(t.assignee);
        }
      } else {
        title := "";
        description := "";
        priority := Medium;
        dueDate := "";
        assignee := "";
      }
    }

    /** `handleCreateOrUpdate`; a new task's id is `now` in decimal. */
    method HandleCreateOrUpdate(now: int)
      modifies this
      ensures IsBlank(old(title)) ==>
                tasks == old(tasks) && editing == old(editing) && title == old(title)
                && description == old(description) && priority == old(priority)
                && dueDate == old(dueDate) && assignee == old(assignee)
      ensures !IsBlank(old(title)) && old(editing).Some? && old(editing).value != "" ==>
                && tasks == UpdateWhere(old(tasks), ItemId, old(editing).value,
                                        ApplyForm(old(title), old(description), old(priority), old(dueDate), old(assignee)))
                && editing == None && FormCleared()
      ensures !IsBlank(old(title)) && !(old(editing).Some? && old(editing).value != "") ==>
                && tasks == old(tasks) + [TaskItem(IntToString(now), old(title), old(description), Some(old(priority)),
                                                   OrUndefined(old(dueDate)), OrUndefined(old(assignee)))]
                && editing == old(editing) && FormCleared()
    {
      if IsBlank(title) {
        return;
      }
      if editing.Some? && editing.value != "" {
        tasks := UpdateWhere(tasks, ItemId, editing.value, ApplyForm(title, description, priority, dueDate, assignee));
        editing := None;
      } else {
        tasks := tasks + [TaskItem(IntToString(now), title, description, Some(priority), OrUndefined(dueDate), OrUndefined(assignee))];
      }
      title := "";
      description := "";
      priority := Medium;
      dueDate := "";
      assignee := "";
    }

    /** `handleEdit`: choosing a task to edit, followed by the prefill effect when the choice changed. */
    method HandleEdit(id: string)
      modifies this`editing, this`title, this`description, this`priority, this`dueDate, this`assignee
      ensures editing == Some(id)
      ensures old(editing) == Some(id) ==>
                title == old(title) && description == old(description) && priority == old(priority)
                && dueDate == old(dueDate) && assignee == old(assignee)
      ensures old(editing) != Some(id) && id != "" && HasKey(tasks, ItemId, id) ==>
                var t := Find(tasks, ItemId, id).value;
                && title == t.title && description == t.description
                && priority == (if t.priority.Some? then t.priority.value else Medium)
                && dueDate == OrEmpty(t.dueDate) && assignee == OrEmpty(t.assignee)
      ensures id != "" && !HasKey(tasks, ItemId, id) ==>
                title == old(title) && description == old(description) && priority == old(priority)
                && dueDate == old(dueDate) && assignee == old(assignee)
      ensures old(editing) != Some(id) && id == "" ==> FormCleared()
    {
      if editing != Some(id) {
        editing := Some(id);
        EditingChanged();
      }
    }

    /** The Cancel button: leave edit mode; the prefill effect resets the form when that changed `editing`. */
    method HandleCancel()
      modifies this`editing, this`title, this`description, this`priority, this`dueDate, this`assignee
      ensures editing == None
      ensures old(editing).Some? ==> FormCleared()
      ensures old(editing).None? ==>
                title == old(title) && description == old(description) && priority == old(priority)
                && dueDate == old(dueDate) && assignee == old(assignee)
    {
      if editing != None {
        editing := None;
        EditingChanged();
      }
    }

    /** `handleDelete`: leaving edit mode on the deleted task clears the form. */
    method HandleDelete(id: string)
      modifies this
      ensures tasks == RemoveWhere(old(tasks), ItemId, id)
      ensures old(editing) == Some(id) ==> editing == None && FormCleared()
      ensures old(editing) != Some(id) ==>
                editing == old(editing) && title == old(title) && description == old(description)
                && priority == old(priority) && dueDate == old(dueDate) && assignee == old(assignee)
    {
      tasks := RemoveWhere(tasks, ItemId, id);
      if editing == Some(id) {
        editing := None;
        EditingChanged();
      }
    }

    /** `handleDragEnd`: a drop outside the list changes nothing. */
    method HandleDragEnd(source: int, destination: Option<int>)
      requires 0 <= source < |tasks|
      modifies this`tasks
      ensures destination.None? ==> tasks == old(tasks)
      ensures destination.Some? ==> tasks == Moved(old(tasks), source, SpliceIndex(destination.value, |old(tasks)| - 1))
    {
      if destination.None? {
        return;
      }
      tasks := Reorder(tasks, source, destination.value);
    }
  }

  /** Editing a task keeps every task's id where it was. */
  lemma UpdateKeepsIds(tasks: seq<TaskItem>, id: string, title: string, description: string,
                       priority: Priority, dueDate: string, assignee: string)
    ensures forall i :: 0 <= i < |tasks| ==>
              ItemId(UpdateWhere(tasks, ItemId, id, ApplyForm(title, description, priority, dueDate, assignee))[i]) == ItemId(tasks[i])
  {
    UpdateKeepsKeys(tasks, ItemId, id, ApplyForm(title, description, priority, dueDate, assignee));
  }
}
