/**
 * The time tracker: a list of time entries (owned by the page and handed
 * down with its setter), the entry whose timer is ticking, and the form
 * fields. Every handler replaces the list by a `map` or `filter` over it or
 * appends to it. The wall clock is the `now` argument of the handlers that
 * read it; an entry's id is `now` written in decimal.
 */
module TimeTracker {
  import opened Collections
  import opened Text

  datatype TimeEntry = TimeEntry(
    id: string,
    title: string,
    description: string,
    startTime: int,
    endTime: Option<int>,
    duration: int,
    isRunning: bool)

  function EntryId(e: TimeEntry): string {
    e.id
  }

  function Duration(e: TimeEntry): int {
    e.duration
  }

  function Running(e: TimeEntry): bool {
    e.isRunning
  }

  const SECOND_MS: int := 1000
  const MINUTE_MS: int := 60000
  const HOUR_MS: int := 3600000

  // ---------------------------------------------------------------------------
  // formatTime

  /** JavaScript's `%`: the remainder takes the sign of the dividend. */
  function TruncRem(x: int, m: int): (r: int)
    requires m > 0
    ensures x >= 0 ==> r == x % m
    ensures -m < r < m
  {
    if x >= 0 then x % m else -((-x) % m)
  }

  /** `Math.floor((ms / 1000) % 60)`. */
  function Seconds(ms: int): int {
    TruncRem(ms, MINUTE_MS) / SECOND_MS
  }

  /** `Math.floor((ms / (1000 * 60)) % 60)`. */
  function Minutes(ms: int): int {
    TruncRem(ms, HOUR_MS) / MINUTE_MS
  }

  /** `Math.floor(ms / (1000 * 60 * 60))`. */
  function Hours(ms: int): int {
    ms / HOUR_MS
  }

  /** `formatTime(ms)`: hours, minutes and seconds, each padded to two digits, joined by colons. */
  function FormatTime(ms: int): (r: string)
    ensures |r| >= 8
  {
    PadStart2(IntToString(Hours(ms))) + ":" + PadStart2(IntToString(Minutes(ms))) + ":" + PadStart2(IntToString(Seconds(ms)))
  }

  /** Division by one of the clock's units, pinned down by the quotient and remainder it must have. */
  lemma DivMod(x: int, d: int, q: int, r: int)
    requires d == SECOND_MS || d == MINUTE_MS || d == HOUR_MS
    requires 0 <= r < d && x == q * d + r
    ensures x / d == q && x % d == r
  {
    if d == SECOND_MS {
      assert x == q * SECOND_MS + r;
    } else if d == MINUTE_MS {
      assert x == q * MINUTE_MS + r;
    } else {
      assert x == q * HOUR_MS + r;
    }
  }

  /** For a non-negative duration the three fields are a clock reading of its whole seconds. */
  lemma ClockFields(ms: int)
    requires ms >= 0
    ensures 0 <= Seconds(ms) < 60 && 0 <= Minutes(ms) < 60 && Hours(ms) >= 0
    ensures Hours(ms) * 3600 + Minutes(ms) * 60 + Seconds(ms) == ms / 1000
  {
    var q := ms / 1000;
    var r0 := ms % 1000;
    var h := q / 3600;
    var rest := q % 3600;
    var m := rest / 60;
    var s := rest % 60;
    var inSecond := s * SECOND_MS + r0;
    var inHour := m * MINUTE_MS + inSecond;
    assert 0 <= inSecond < MINUTE_MS;
    assert 0 <= inHour < HOUR_MS;
    assert ms == h * HOUR_MS + inHour;
    DivMod(ms, HOUR_MS, h, inHour);
    DivMod(inHour, MINUTE_MS, m, inSecond);
    DivMod(ms, MINUTE_MS, h * 60 + m, inSecond);
    DivMod(inSecond, SECOND_MS, s, r0);
  }

  /**
   * For a non-negative duration the text reads back: three colon-separated
   * digit fields, minutes and seconds exactly two wide, hours at least two
   * and never cut short, whose values are the clock reading.
   */
  lemma FormatTimeReadsBack(ms: int)
    requires ms >= 0
    ensures |Split(FormatTime(ms), ':')| == 3
    ensures var f := Split(FormatTime(ms), ':');
            && |f[0]| >= 2 && |f[1]| == 2 && |f[2]| == 2
            && AllDigits(f[0]) && AllDigits(f[1]) && AllDigits(f[2])
            && ParseDigits(f[0]) == Hours(ms)
            && ParseDigits(f[1]) == Minutes(ms)
            && ParseDigits(f[2]) == Seconds(ms)
            && ParseDigits(f[0]) * 3600 + ParseDigits(f[1]) * 60 + ParseDigits(f[2]) == ms / 1000
  {
    ClockFields(ms);
    var hours, minutes, seconds := Hours(ms), Minutes(ms), Seconds(ms);
    var h := PadStart2(NatToString(hours));
    var m := PadStart2(NatToString(minutes));
    var s := PadStart2(NatToString(seconds));
    Field(hours);
    Field(minutes);
    Field(seconds);
    assert FormatTime(ms) == h + ":" + m + ":" + s;
    SplitThree(h, m, s);
  }

  /** Three colon-free fields joined by colons split back into those fields. */
  lemma SplitThree(a: string, b: string, c: string)
    requires ':' !in a && ':' !in b && ':' !in c
    ensures Split(a + ":" + b + ":" + c, ':') == [a, b, c]
  {
    assert a + ":" + b + ":" + c == a + [':'] + (b + [':'] + c);
    SplitPiece(a, b + [':'] + c, ':');
    SplitPiece(b, c, ':');
    SplitNoSeparator(c, ':');
  }

  /** `n < 100` takes at most two digits. */
  lemma ShortNumeral(n: nat)
    requires n < 100
    ensures |NatToString(n)| <= 2
  {
    if n >= 10 {
      assert n / 10 < 10;
    }
  }

  /** A padded field is digits only, reads back as its value, and is two wide below 100. */
  lemma Field(n: nat)
    ensures AllDigits(PadStart2(NatToString(n))) && ':' !in PadStart2(NatToString(n))
    ensures ParseDigits(PadStart2(NatToString(n))) == n
    ensures n < 100 ==> |PadStart2(NatToString(n))| == 2
  {
    if n < 100 {
      ShortNumeral(n);
    }
    PaddedRoundTrip(n);
    PaddedIsDigits(NatToString(n));
  }

  lemma PaddedIsDigits(s: string)
    requires AllDigits(s)
    ensures AllDigits(PadStart2(s)) && ':' !in PadStart2(s)
  {
    var r := PadStart2(s);
    var z := |r| - |s|;
    forall i | 0 <= i < |r| ensures '0' <= r[i] <= '9' {
      if i >= z {
        assert r[i] == r[z..][i - z];
      }
    }
  }

  // ---------------------------------------------------------------------------
  // Entries

  /** `totalDuration`: the durations of all entries added up. */
  function TotalDuration(entries: seq<TimeEntry>): (r: int)
    ensures entries == [] ==> r == 0
    ensures (forall i :: 0 <= i < |entries| ==> entries[i].duration >= 0) ==>
              0 <= r && forall i :: 0 <= i < |entries| ==> entries[i].duration <= r
  {
    NonNegativeSum(entries);
    SumOf(entries, Duration)
  }

  /** With no negative duration the sum is at least each single duration, and so at least zero. */
  lemma {:induction false} NonNegativeSum(entries: seq<TimeEntry>)
    ensures (forall i :: 0 <= i < |entries| ==> entries[i].duration >= 0) ==>
              0 <= SumOf(entries, Duration)
              && forall i :: 0 <= i < |entries| ==> entries[i].duration <= SumOf(entries, Duration)
  {
    if entries != [] && forall i :: 0 <= i < |entries| ==> entries[i].duration >= 0 {
      var rest := entries[1..];
      assert forall i :: 0 <= i < |rest| ==> rest[i].duration >= 0 by {
        forall i | 0 <= i < |rest| ensures rest[i].duration >= 0 {
          assert rest[i] == entries[i + 1];
        }
      }
      NonNegativeSum(rest);
      forall i | 0 <= i < |entries| ensures entries[i].duration <= SumOf(entries, Duration) {
        if i > 0 {
          assert entries[i] == rest[i - 1];
        }
      }
    }
  }

  /** The entry `handleStart` adds: started now, no end, no time yet, running. */
  function NewTimer(now: int, title: string, description: string): (e: TimeEntry)
    ensures e.id == IntToString(now) && e.startTime == now
    ensures e.endTime.None? && e.duration == 0 && e.isRunning
  {
    TimeEntry(IntToString(now), title, description, now, None, 0, true)
  }

  /** `hours * 60 * 60 * 1000 + minutes * 60 * 1000`. */
  function ManualDuration(hours: int, minutes: int): int {
    hours * HOUR_MS + minutes * MINUTE_MS
  }

  /** The entry `handleManualEntry` adds: it ends now and began `duration` earlier. */
  function ManualTimeEntry(now: int, title: string, description: string, duration: int): (e: TimeEntry)
    ensures e.endTime == Some(now) && e.endTime.value - e.startTime == e.duration == duration
    ensures !e.isRunning && e.id == IntToString(now)
  {
    TimeEntry(IntToString(now), title, description, now - duration, Some(now), duration, false)
  }

  function SetRunning(running: bool): TimeEntry -> TimeEntry {
    (e: TimeEntry) => e.(isRunning := running)
  }

  function StopAt(now: int): TimeEntry -> TimeEntry {
    (e: TimeEntry) => e.(isRunning := false, endTime := Some(now))
  }

  function Retitle(title: string, description: string): TimeEntry -> TimeEntry {
    (e: TimeEntry) => e.(title := title, description := description)
  }

  function ElapsedAt(now: int): TimeEntry -> TimeEntry {
    (e: TimeEntry) => e.(duration := now - e.startTime)
  }

  /** Whether `entries[i]` is running and no entry before it is: the one `find` stops at. */
  predicate FirstRunningAt(entries: seq<TimeEntry>, i: int) {
    0 <= i < |entries| && entries[i].isRunning && forall j :: 0 <= j < i ==> !entries[j].isRunning
  }

  /** The first running entry, which the tracker adopts as its active entry when it mounts. */
  function FirstRunning(entries: seq<TimeEntry>): (r: Option<TimeEntry>)
    ensures r.None? <==> forall i :: 0 <= i < |entries| ==> !entries[i].isRunning
    ensures r.Some? ==> exists i :: FirstRunningAt(entries, i) && entries[i] == r.value
  {
    if entries == [] then None
    else if entries[0].isRunning then
      assert FirstRunningAt(entries, 0);
      Some(entries[0])
    else
      var r := FirstRunning(entries[1..]);
      assert forall i :: 1 <= i < |entries| ==> entries[i] == entries[1..][i - 1];
      if r.Some? then
        var i :| FirstRunningAt(entries[1..], i) && entries[1..][i] == r.value;
        assert FirstRunningAt(entries, i + 1);
        r
      else r
  }

  /** Pausing, resuming, stopping and retitling change no entry's duration, so none changes the total. */
  lemma StatusChangesKeepTotal(entries: seq<TimeEntry>, k: string, now: int, title: string, description: string)
    ensures TotalDuration(UpdateWhere(entries, EntryId, k, SetRunning(false))) == TotalDuration(entries)
    ensures TotalDuration(UpdateWhere(entries, EntryId, k, SetRunning(true))) == TotalDuration(entries)
    ensures TotalDuration(UpdateWhere(entries, EntryId, k, StopAt(now))) == TotalDuration(entries)
    ensures TotalDuration(UpdateWhere(entries, EntryId, k, Retitle(title, description))) == TotalDuration(entries)
  {
    UpdateKeepsSum(entries, EntryId, k, SetRunning(false), Duration);
    UpdateKeepsSum(entries, EntryId, k, SetRunning(true), Duration);
    UpdateKeepsSum(entries, EntryId, k, StopAt(now), Duration);
    UpdateKeepsSum(entries, EntryId, k, Retitle(title, description), Duration);
  }

  /** Appending an entry adds its duration to the total. */
  lemma AppendAddsToTotal(entries: seq<TimeEntry>, e: TimeEntry)
    ensures TotalDuration(entries + [e]) == TotalDuration(entries) + e.duration
  {
    SumOfConcat(entries, [e], Duration);
  }

  /**
   * "At most one timer runs" is not kept: resuming a paused entry while
   * another one runs leaves two running entries.
   */
  lemma ResumeCanLeaveTwoRunning()
    ensures var entries := [TimeEntry("1", "a", "", 0, None, 5, true), TimeEntry("2", "b", "", 0, None, 7, false)];
            CountWhere(entries, Running) == 1
            && CountWhere(UpdateWhere(entries, EntryId, "2", SetRunning(true)), Running) == 2
  {
    var entries := [TimeEntry("1", "a", "", 0, None, 5, true), TimeEntry("2", "b", "", 0, None, 7, false)];
    var after := UpdateWhere(entries, EntryId, "2", SetRunning(true));
    assert after[0].isRunning && after[1].isRunning;
    assert after == [after[0], after[1]];
    assert entries[1..] == [entries[1]];
    assert after[1..] == [after[1]];
  }

  class Tracker {
    var entries: seq<TimeEntry>
    var activeEntry: Option<TimeEntry>
    var title: string
    var description: string
    var editing: Option<string>
    var manualHours: int
    var manualMinutes: int

    /** Mounting: empty form, and the first running entry, if any, becomes the active one. */
    constructor (entries: seq<TimeEntry>)
      ensures this.entries == entries && activeEntry == FirstRunning(entries)
      ensures title == "" && description == "" && editing == None
      ensures manualHours == 0 && manualMinutes == 0
    {
      this.entries := entries;
      activeEntry := FirstRunning(entries);
      title := "";
      description := "";
      editing := None;
      manualHours := 0;
      manualMinutes := 0;
    }

    method SetTitle(value: string)
      modifies this`title
      ensures title == value
    {
      title := value;
    }

    method SetDescription(value: string)
      modifies this`description
      ensures description == value
    {
      description := value;
    }

    /** The manual-entry inputs, already read as whole numbers (an unreadable one as 0). */
    method SetManual(hours: int, minutes: int)
      modifies this`manualHours, this`manualMinutes
      ensures manualHours == hours && manualMinutes == minutes
    {
      manualHours := hours;
      manualMinutes := minutes;
    }

    /** One tick of the running timer: the active entry's duration becomes the time since it started. */
    method Tick(now: int)
      modifies this`entries
      ensures activeEntry.None? ==> entries == old(entries)
      ensures activeEntry.Some? ==> entries == UpdateWhere(old(entries), EntryId, activeEntry.value.id, ElapsedAt(now))
      ensures |entries| == |old(entries)|
      ensures forall i :: 0 <= i < |entries| ==>
                entries[i] == (if activeEntry.Some? && old(entries)[i].id == activeEntry.value.id
                               then old(entries)[i].(duration := now - old(entries)[i].startTime)
                               else old(entries)[i])
    {
      if activeEntry.Some? {
        entries := UpdateWhere(entries, EntryId, activeEntry.value.id, ElapsedAt(now));
      }
    }

    /** `handleStart`. */
    method HandleStart(now: int)
      modifies this`entries, this`activeEntry, this`title, this`description
      ensures old(title) == "" ==> entries == old(entries) && activeEntry == old(activeEntry)
                                   && title == old(title) && description == old(description)
      ensures old(title) != "" ==>
                && entries == old(entries) + [NewTimer(now, old(title), old(description))]
                && activeEntry == Some(NewTimer(now, old(title), old(description)))
                && title == "" && description == ""
    {
      if title == "" {
        return;
      }
      var e := NewTimer(now, title, description);
      entries := entries + [e];
      activeEntry := Some(e);
      title := "";
      description := "";
    }

    /** `handlePause`. */
    method HandlePause()
      modifies this`entries, this`activeEntry
      ensures old(activeEntry).None? ==> entries == old(entries) && activeEntry == None
      ensures old(activeEntry).Some? ==>
                entries == UpdateWhere(old(entries), EntryId, old(activeEntry).value.id, SetRunning(false))
      ensures activeEntry == None
    {
      if activeEntry.None? {
        return;
      }
      entries := UpdateWhere(entries, EntryId, activeEntry.value.id, SetRunning(false));
      activeEntry := None;
    }

    /** `handleResume`: any known entry can be resumed, whatever else is running. */
    method HandleResume(id: string)
      modifies this`entries, this`activeEntry
      ensures !HasKey(old(entries), EntryId, id) ==> entries == old(entries) && activeEntry == old(activeEntry)
      ensures HasKey(old(entries), EntryId, id) ==>
                && entries == UpdateWhere(old(entries), EntryId, id, SetRunning(true))
                && activeEntry == Some(Find(old(entries), EntryId, id).value.(isRunning := true))
    {
      var found := Find(entries, EntryId, id);
      if found.None? {
        return;
      }
      entries := UpdateWhere(entries, EntryId, id, SetRunning(true));
      activeEntry := Some(found.value.(isRunning := true));
    }

    /** `handleStop`: the entry ends now, whichever entry was active. */
    method HandleStop(id: string, now: int)
      modifies this`entries, this`activeEntry
      ensures entries == UpdateWhere(old(entries), EntryId, id, StopAt(now))
      ensures activeEntry == None
    {
      entries := UpdateWhere(entries, EntryId, id, StopAt(now));
      activeEntry := None;
    }

    /** `handleDelete`. */
    method HandleDelete(id: string)
      modifies this`entries, this`activeEntry
      ensures entries == RemoveWhere(old(entries), EntryId, id)
      ensures activeEntry == (if old(activeEntry).Some? && old(activeEntry).value.id == id then None else old(activeEntry))
    {
      entries := RemoveWhere(entries, EntryId, id);
      if activeEntry.Some? && activeEntry.value.id == id {
        activeEntry := None;
      }
    }

    /** `handleEdit`: load the entry into the form, pausing it first if it is the active one. */
    method HandleEdit(id: string)
      modifies this`entries, this`activeEntry, this`title, this`description, this`editing
      ensures !HasKey(old(entries), EntryId, id) ==>
                entries == old(entries) && activeEntry == old(activeEntry) && editing == old(editing)
                && title == old(title) && description == old(description)
      ensures HasKey(old(entries), EntryId, id) ==>
                && editing == Some(id)
                && title == Find(old(entries), EntryId, id).value.title
                && description == Find(old(entries), EntryId, id).value.description
                && (old(activeEntry).Some? && old(activeEntry).value.id == id ==>
                      entries == UpdateWhere(old(entries), EntryId, id, SetRunning(false)) && activeEntry == None)
                && (!(old(activeEntry).Some? && old(activeEntry).value.id == id) ==>
                      entries == old(entries) && activeEntry == old(activeEntry))
    {
      var found := Find(entries, EntryId, id);
      if found.None? {
        return;
      }
      editing := Some(id);
      title := found.value.title;
      description := found.value.description;
      if activeEntry.Some? && activeEntry.value.id == id {
        HandlePause();
      }
    }

    /** The Cancel button beside Update: leaves edit mode and clears the title and description. */
    method HandleCancel()
      modifies this`editing, this`title, this`description
      ensures editing == None && title == "" && description == ""
    {
      editing := None;
      title := "";
      description := "";
    }

    /** `handleUpdate`: write the form's title and description into the edited entry and clear the form. */
    method HandleUpdate()
      modifies this`entries, this`title, this`description, this`editing
      ensures (old(editing).None? || old(editing).value == "") ==>
                entries == old(entries) && editing == old(editing)
                && title == old(title) && description == old(description)
      ensures old(editing).Some? && old(editing).value != "" ==>
                && entries == UpdateWhere(old(entries), EntryId, old(editing).value, Retitle(old(title), old(description)))
                && editing == None && title == "" && description == ""
    {
      if editing.None? || editing.value == "" {
        return;
      }
      entries := UpdateWhere(entries, EntryId, editing.value, Retitle(title, description));
      editing := None;
      title := "";
      description := "";
    }

    /** `handleManualEntry`: a finished entry of the given length, ending now. */
    method HandleManualEntry(now: int)
      modifies this`entries, this`title, this`description, this`manualHours, this`manualMinutes
      ensures var d := ManualDuration(old(manualHours), old(manualMinutes));
              (old(title) == "" || d <= 0) ==>
                entries == old(entries) && title == old(title) && description == old(description)
                && manualHours == old(manualHours) && manualMinutes == old(manualMinutes)
      ensures var d := ManualDuration(old(manualHours), old(manualMinutes));
              (old(title) != "" && d > 0) ==>
                && entries == old(entries) + [ManualTimeEntry(now, old(title), old(description), d)]
                && title == "" && description == "" && manualHours == 0 && manualMinutes == 0
    {
      if title == "" {
        return;
      }
      var duration := ManualDuration(manualHours, manualMinutes);
      if duration <= 0 {
        return;
      }
      entries := entries + [ManualTimeEntry(now, title, description, duration)];
      title := "";
      description := "";
      manualHours := 0;
      manualMinutes := 0;
    }
  }
}
