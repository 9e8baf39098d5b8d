/**
 * The calendar note store: a list of notes kept in insertion order, the
 * three edits that replace it (append with a fresh id, update by id, delete
 * by id) and the queries over it. Dates are `yyyy-MM-dd` strings; both
 * newest-first orderings of the suite compare them, and on such strings
 * code-unit order is calendar order, so one stable sort under `LexLe`
 * serves the recent-notes view and the timeline.
 */
module CalendarNotes {
  import opened Collections
  import opened Text

  datatype Note = Note(id: string, date: string, title: string, description: string, tag: Option<string>)

  /** A note as the caller hands it to `addNote`: everything but the id. */
  datatype NoteDraft = NoteDraft(date: string, title: string, description: string, tag: Option<string>)

  function NoteId(n: Note): string {
    n.id
  }

  function WithId(d: NoteDraft, id: string): Note {
    Note(id, d.date, d.title, d.description, d.tag)
  }

  function ConstNote(note: Note): Note -> Note {
    _ => note
  }

  // ---------------------------------------------------------------------------
  // Newest first

  /** Later notes never have a later date than earlier ones. */
  predicate NewestFirstOrder(s: seq<Note>) {
    forall i, j :: 0 <= i < j < |s| ==> LexLe(s[j].date, s[i].date)
  }

  /** Put `x` in front of the first note whose date is not later than its own. */
  function Insert(x: Note, s: seq<Note>): (r: seq<Note>)
    ensures multiset(r) == multiset(s) + multiset{x}
  {
    if s == [] then [x]
    else if LexLe(s[0].date, x.date) then [x] + s
    else
      assert s == [s[0]] + s[1..];
      [s[0]] + Insert(x, s[1..])
  }

  /**
   * `[...notes].sort(newer first)`: a fresh sequence holding the same notes,
   * newest date first; notes with one date keep their relative order, as
   * the stable `Array.prototype.sort` of ECMAScript 2019 keeps them.
   */
  function NewestFirst(xs: seq<Note>): (r: seq<Note>)
    ensures multiset(r) == multiset(xs)
    ensures |r| == |xs|
  {
    if xs == [] then []
    else
      assert xs == [xs[0]] + xs[1..];
      Insert(xs[0], NewestFirst(xs[1..]))
  }

  lemma {:induction false} InsertKeepsOrder(x: Note, s: seq<Note>)
    requires NewestFirstOrder(s)
    ensures NewestFirstOrder(Insert(x, s))
  {
    if s == [] {
    } else if LexLe(s[0].date, x.date) {
      var r := Insert(x, s);
      forall j | 1 <= j < |r| ensures LexLe(r[j].date, x.date) {
        if j > 1 {
          LexLeTransitive(s[j - 1].date, s[0].date, x.date);
        }
      }
    } else {
      var rest := Insert(x, s[1..]);
      InsertKeepsOrder(x, s[1..]);
      LexLeTotal(s[0].date, x.date);
      forall y | y in rest ensures LexLe(y.date, s[0].date) {
        assert y in multiset(rest);
        if y != x {
          assert y in multiset(s[1..]);
          var k :| 0 <= k < |s[1..]| && s[1..][k] == y;
          assert s[k + 1] == y;
        }
      }
      var r := [s[0]] + rest;
      forall i, j | 0 <= i < j < |r| ensures LexLe(r[j].date, r[i].date) {
        assert r[j] == rest[j - 1];
        if i > 0 {
          assert r[i] == rest[i - 1];
        }
      }
    }
  }

  /** The newest-first sequence is in newest-first order. */
  lemma {:induction false} NewestFirstIsOrdered(xs: seq<Note>)
    ensures NewestFirstOrder(NewestFirst(xs))
  {
    if xs != [] {
      NewestFirstIsOrdered(xs[1..]);
      InsertKeepsOrder(xs[0], NewestFirst(xs[1..]));
    }
  }

  /** The notes of one day. */
  function OnDate(date: string): Note -> bool {
    (n: Note) => n.date == date
  }

  lemma {:induction false} InsertOnDate(x: Note, s: seq<Note>, date: string)
    ensures Filter(Insert(x, s), OnDate(date))
            == (if x.date == date then [x] else []) + Filter(s, OnDate(date))
  {
    if s == [] {
    } else if LexLe(s[0].date, x.date) {
      FilterCons(x, s, OnDate(date));
    } else {
      InsertOnDate(x, s[1..], date);
      InsertBehindOnDate(x, s, date);
    }
  }

  /** The step of InsertOnDate where `x` goes behind the first note, which is strictly newer. */
  lemma InsertBehindOnDate(x: Note, s: seq<Note>, date: string)
    requires s != [] && !LexLe(s[0].date, x.date)
    requires Filter(Insert(x, s[1..]), OnDate(date))
             == (if x.date == date then [x] else []) + Filter(s[1..], OnDate(date))
    ensures Filter(Insert(x, s), OnDate(date))
            == (if x.date == date then [x] else []) + Filter(s, OnDate(date))
  {
    if x.date == date {
      LexLeTotal(x.date, x.date);
    }
    FilterSwap(s, Insert(x, s[1..]), if x.date == date then [x] else [], OnDate(date));
  }

  /** Stability: for every date, the notes of that date come out in their input order. */
  lemma {:induction false} NewestFirstIsStable(xs: seq<Note>, date: string)
    ensures Filter(NewestFirst(xs), OnDate(date)) == Filter(xs, OnDate(date))
  {
    if xs != [] {
      NewestFirstIsStable(xs[1..], date);
      InsertOnDate(xs[0], NewestFirst(xs[1..]), date);
    }
  }

  // ---------------------------------------------------------------------------
  // Queries

  /** `getNotesByDate`: exactly the notes of that date, in stored order. */
  function NotesByDate(notes: seq<Note>, date: string): (r: seq<Note>)
    ensures forall n :: n in r <==> n in notes && n.date == date
  {
    FilterMembers(notes, OnDate(date));
    Filter(notes, OnDate(date))
  }

  /**
   * The notes of a date are kept in stored order, duplicates included: no
   * notes give none, and one more note adds it at the end exactly when it
   * has that date.
   */
  lemma NotesByDateSnoc(notes: seq<Note>, n: Note, date: string)
    ensures NotesByDate([], date) == []
    ensures NotesByDate(notes + [n], date) == NotesByDate(notes, date) + (if n.date == date then [n] else [])
  {
    FilterSnoc(notes, n, OnDate(date));
  }

  /** `getDatesWithNotes`. */
  function DatesWithNotes(notes: seq<Note>): (r: set<string>)
    ensures forall n :: n in notes ==> n.date in r
    ensures |r| <= |notes|
  {
    DatesAtMostNotes(notes);
    set n | n in notes :: n.date
  }

  /** There are no more distinct dates than notes. */
  lemma {:induction false} DatesAtMostNotes(notes: seq<Note>)
    ensures |set n | n in notes :: n.date| <= |notes|
  {
    if notes != [] {
      var rest := notes[1..];
      DatesAtMostNotes(rest);
      assert notes == [notes[0]] + rest;
      assert (set n | n in notes :: n.date) == (set n | n in rest :: n.date) + {notes[0].date};
    }
  }

  /** A date is among the dates with notes exactly when it has a note. */
  lemma DatesWithNotesHaveNotes(notes: seq<Note>, date: string)
    ensures date in DatesWithNotes(notes) <==> NotesByDate(notes, date) != []
  {
    if date in DatesWithNotes(notes) {
      var n :| n in notes && n.date == date;
      assert n in NotesByDate(notes, date);
    }
    if NotesByDate(notes, date) != [] {
      assert NotesByDate(notes, date)[0] in notes;
    }
  }

  /** The notes carrying tag `tag`; a note without a tag matches no string. */
  function Tagged(tag: string): Note -> bool {
    (n: Note) => n.tag == Some(tag)
  }

  /** `getNotesByTag`: exactly the notes with that tag, in stored order. */
  function NotesByTag(notes: seq<Note>, tag: string): (r: seq<Note>)
    ensures forall n :: n in r <==> n in notes && n.tag == Some(tag)
  {
    FilterMembers(notes, Tagged(tag));
    Filter(notes, Tagged(tag))
  }

  /** The notes with a tag are kept in stored order, duplicates included, as for dates. */
  lemma NotesByTagSnoc(notes: seq<Note>, n: Note, tag: string)
    ensures NotesByTag([], tag) == []
    ensures NotesByTag(notes + [n], tag) == NotesByTag(notes, tag) + (if n.tag == Some(tag) then [n] else [])
  {
    FilterSnoc(notes, n, Tagged(tag));
  }

  /** Where `Array.prototype.slice(0, limit)` stops on a sequence of length `len`. */
  function SliceEnd(len: nat, limit: int): (e: nat)
    ensures e <= len
    ensures limit >= 0 ==> e == Min(limit, len)
    ensures limit < 0 ==> e == Max(len + limit, 0)
  {
    if limit < 0 then (if len + limit < 0 then 0 else len + limit)
    else if limit < len then limit else len
  }

  function Min(a: int, b: int): int {
    if a <= b then a else b
  }

  function Max(a: int, b: int): int {
    if a >= b then a else b
  }

  /** The limit `getRecentNotes` uses when it is given none. */
  const RECENT_LIMIT: int := 5

  /**
   * `getRecentNotes(limit)`: the first `limit` notes of the newest-first
   * order (a negative limit counts back from the end); the stored list is
   * left as it is.
   */
  function RecentNotes(notes: seq<Note>, limit: int): (r: seq<Note>)
    ensures limit >= 0 ==> |r| == Min(limit, |notes|)
    ensures limit >= 0 ==> r == NewestFirst(notes)[..Min(limit, |notes|)]
    ensures limit < 0 ==> r == NewestFirst(notes)[..Max(|notes| + limit, 0)]
    ensures NewestFirstOrder(r)
    ensures multiset(r) <= multiset(notes)
  {
    var sorted := NewestFirst(notes);
    NewestFirstIsOrdered(notes);
    var e := SliceEnd(|sorted|, limit);
    assert sorted == sorted[..e] + sorted[e..];
    assert multiset(sorted) == multiset(sorted[..e]) + multiset(sorted[e..]);
    sorted[..e]
  }
  /** In newest-first order, every note of a prefix is at least as new as every note after it. */
  lemma PrefixIsNewest(sorted: seq<Note>, e: nat)
    requires NewestFirstOrder(sorted) && e <= |sorted|
    ensures forall m: Note, n: Note :: m in sorted[..e] && n in sorted[e..] ==> LexLe(n.date, m.date)
  {
    forall m: Note, n: Note | m in sorted[..e] && n in sorted[e..] ensures LexLe(n.date, m.date) {
      var i :| 0 <= i < e && sorted[..e][i] == m;
      var j :| 0 <= j < |sorted| - e && sorted[e..][j] == n;
      assert sorted[i] == m && sorted[e + j] == n;
    }
  }

  /** The recent notes are the newest ones: no note left out has a later date than a note kept. */
  lemma RecentNotesAreNewest(notes: seq<Note>, limit: int)
    ensures forall m: Note, n: Note :: m in RecentNotes(notes, limit) && n in multiset(notes) - multiset(RecentNotes(notes, limit)) ==>
              LexLe(n.date, m.date)
  {
    var sorted := NewestFirst(notes);
    NewestFirstIsOrdered(notes);
    var e := SliceEnd(|sorted|, limit);
    PrefixIsNewest(sorted, e);
    assert sorted == sorted[..e] + sorted[e..];
    assert multiset(notes) - multiset(sorted[..e]) == multiset(sorted[e..]);
  }

  /** `getRecentNotes()` with no argument: the five newest notes, or all of them when there are fewer. */
  function DefaultRecentNotes(notes: seq<Note>): (r: seq<Note>)
    ensures |r| == Min(RECENT_LIMIT, |notes|)
    ensures r == NewestFirst(notes)[..|r|]
  {
    RecentNotes(notes, RECENT_LIMIT)
  }


  /** A note's tag as `getTags` reads it: a missing tag reads as the empty string. */
  function TagOf(n: Note): string {
    if n.tag.Some? then n.tag.value else ""
  }

  /**
   * The tag list `getTags` builds: each non-empty tag once, in the order
   * of its first note.
   */
  function TagList(notes: seq<Note>): (r: seq<string>)
    ensures forall t :: t in r <==> t != "" && HasKey(notes, TagOf, t)
  {
    if notes == [] then []
    else
      var prefix := notes[..|notes| - 1];
      var last := notes[|notes| - 1];
      assert notes == prefix + [last];
      forall t ensures HasKey(notes, TagOf, t) <==> HasKey(prefix, TagOf, t) || TagOf(last) == t {
        HasKeySnoc(prefix, last, TagOf, t);
      }
      var rest := TagList(prefix);
      if TagOf(last) != "" && TagOf(last) !in rest then rest + [TagOf(last)] else rest
  }

  /** Tags are listed in the order of their first notes, so none is listed twice. */
  lemma {:induction false} TagListInFirstOccurrenceOrder(notes: seq<Note>)
    ensures forall i, j :: 0 <= i < j < |TagList(notes)| ==>
              FindIndex(notes, TagOf, TagList(notes)[i]) < FindIndex(notes, TagOf, TagList(notes)[j])
  {
    if notes != [] {
      var prefix := notes[..|notes| - 1];
      var last := notes[|notes| - 1];
      assert notes == prefix + [last];
      TagListInFirstOccurrenceOrder(prefix);
      var rest := TagList(prefix);
      var r := TagList(notes);
      forall k | 0 <= k < |rest|
        ensures FindIndex(notes, TagOf, rest[k]) == FindIndex(prefix, TagOf, rest[k])
      {
        FindIndexSnoc(prefix, last, TagOf, rest[k]);
      }
      if TagOf(last) != "" && TagOf(last) !in rest {
        FindIndexSnoc(prefix, last, TagOf, TagOf(last));
        forall i, j | 0 <= i < j < |r|
          ensures FindIndex(notes, TagOf, r[i]) < FindIndex(notes, TagOf, r[j])
        {
          assert r[i] == rest[i];
          if j < |rest| {
            assert r[j] == rest[j];
          }
        }
      }
    }
  }

  // ---------------------------------------------------------------------------
  // The store

  class NoteStore {
    var notes: seq<Note>

    /** No two notes share an id. */
    ghost predicate Valid()
      reads this
    {
      DistinctKeys(notes, NoteId)
    }

    /** The hook starts from the notes saved in the browser; reading them is not part of this model. */
    constructor (saved: seq<Note>)
      ensures notes == saved
    {
      notes := saved;
    }

    /** `addNote`: the draft goes at the end under an id no note has yet. */
    method AddNote(draft: NoteDraft, freshId: string)
      requires !HasKey(notes, NoteId, freshId)
      modifies this
      ensures notes == old(notes) + [WithId(draft, freshId)]
      ensures old(Valid()) ==> Valid()
    {
      notes := notes + [WithId(draft, freshId)];
      forall i, j | 0 <= i < j < |notes| && j == |notes| - 1 ensures notes[i].id != notes[j].id {
        assert notes[i] == old(notes)[i];
      }
    }

    /** `updateNote`: every note with the id is replaced, in place. */
    method UpdateNote(note: Note)
      modifies this
      ensures notes == UpdateWhere(old(notes), NoteId, note.id, ConstNote(note))
      ensures old(Valid()) ==> Valid()
    {
      UpdateKeepsKeys(notes, NoteId, note.id, ConstNote(note));
      notes := UpdateWhere(notes, NoteId, note.id, ConstNote(note));
    }

    /** `deleteNote`: every note with the id goes; the rest keep their order. */
    method DeleteNote(id: string)
      modifies this
      ensures notes == RemoveWhere(old(notes), NoteId, id)
      ensures !HasKey(notes, NoteId, id)
      ensures old(Valid()) ==> Valid()
    {
      if Valid() {
        RemoveKeepsDistinct(notes, NoteId, id);
      }
      notes := RemoveWhere(notes, NoteId, id);
    }

    /** `getTags`: one pass over the notes, adding each truthy tag to an insertion-ordered set. */
    method Tags() returns (tags: seq<string>)
      ensures tags == TagList(notes)
    {
      tags := [];
      var i := 0;
      while i < |notes|
        invariant 0 <= i <= |notes|
        invariant tags == TagList(notes[..i])
      {
        var t := notes[i].tag;
        assert notes[..i + 1][..i] == notes[..i];
        if t.Some? && t.value != "" && t.value !in tags {
          tags := tags + [t.value];
        }
        i := i + 1;
      }
      assert notes[..|notes|] == notes;
    }
  }
}
