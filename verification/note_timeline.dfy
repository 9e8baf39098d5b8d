/**
 * The notes timeline: the notes it is given, newest first, or the
 * "No notes yet." message when there are none. The sort runs on a copy, so
 * the caller's list is never reordered.
 */
module NoteTimeline {
  import opened Collections
  import opened CalendarNotes

  datatype Timeline = NoNotesYet | Entries(sorted: seq<Note>)

  /** What the timeline shows for `notes`. */
  function TimelineOf(notes: seq<Note>): (v: Timeline)
    ensures v.NoNotesYet? <==> notes == []
    ensures v.Entries? ==> multiset(v.sorted) == multiset(notes) && NewestFirstOrder(v.sorted)
    ensures v.Entries? ==> forall date :: Filter(v.sorted, OnDate(date)) == Filter(notes, OnDate(date))
  {
    var sorted := NewestFirst(notes);
    NewestFirstIsOrdered(notes);
    forall date ensures Filter(sorted, OnDate(date)) == Filter(notes, OnDate(date)) {
      NewestFirstIsStable(notes, date);
    }
    if |sorted| == 0 then NoNotesYet else Entries(sorted)
  }
}
