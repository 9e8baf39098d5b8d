/**
 * The time report: the entries' durations summed per day and per task
 * title, accumulated into a dictionary in one pass over the entries, and
 * the summary counts. Durations stay in integer milliseconds; the report's
 * conversion to rounded hours is not part of this model.
 */
module TimeReport {
  import opened Collections
  import opened TimeTracker

  /** One bar or slice of the charts: a group's name and its total time. */
  datatype Row = Row(name: string, durationMs: int)

  function RowMs(r: Row): int {
    r.durationMs
  }

  function RowName(r: Row): string {
    r.name
  }

  /** The group keys in the order the dictionary first receives them. */
  function GroupKeys(entries: seq<TimeEntry>, key: TimeEntry -> string): (r: seq<string>)
    ensures forall k :: k in r <==> HasKey(entries, key, k)
    ensures forall i, j :: 0 <= i < j < |r| ==> r[i] != r[j]
  {
    if entries == [] then []
    else
      var prefix := entries[..|entries| - 1];
      var last := entries[|entries| - 1];
      assert entries == prefix + [last];
      forall k ensures HasKey(entries, key, k) <==> HasKey(prefix, key, k) || key(last) == k {
        HasKeySnoc(prefix, last, key, k);
      }
      var rest := GroupKeys(prefix, key);
      if key(last) in rest then rest else rest + [key(last)]
  }

  /** What the dictionary holds for key `k` once every entry has been added in. */
  function KeyTotal(entries: seq<TimeEntry>, key: TimeEntry -> string, k: string): int {
    if entries == [] then 0
    else
      var last := entries[|entries| - 1];
      KeyTotal(entries[..|entries| - 1], key, k) + (if key(last) == k then last.duration else 0)
  }

  /** A key no entry has collects nothing. */
  lemma {:induction false} KeyTotalAbsent(entries: seq<TimeEntry>, key: TimeEntry -> string, k: string)
    requires !HasKey(entries, key, k)
    ensures KeyTotal(entries, key, k) == 0
  {
    if entries != [] {
      var prefix := entries[..|entries| - 1];
      HasKeySnoc(prefix, entries[|entries| - 1], key, k);
      assert entries == prefix + [entries[|entries| - 1]];
      KeyTotalAbsent(prefix, key, k);
    }
  }

  /** `Object.entries(dict).map(...)`: one row per key, with the key's total. */
  function RowsFor(keys: seq<string>, entries: seq<TimeEntry>, key: TimeEntry -> string): (r: seq<Row>)
    ensures |r| == |keys|
    ensures forall i :: 0 <= i < |keys| ==> r[i] == Row(keys[i], KeyTotal(entries, key, keys[i]))
  {
    if keys == [] then [] else [Row(keys[0], KeyTotal(entries, key, keys[0]))] + RowsFor(keys[1..], entries, key)
  }

  /** The grouped rows: one per distinct key, in first-occurrence order. */
  function GroupRows(entries: seq<TimeEntry>, key: TimeEntry -> string): seq<Row> {
    RowsFor(GroupKeys(entries, key), entries, key)
  }

  /** Adding one entry raises the row of its key by its duration, when that key has a row, and no other row. */
  lemma {:induction false} RowsForAddEntry(keys: seq<string>, p: seq<TimeEntry>, e: TimeEntry, key: TimeEntry -> string)
    requires forall i, j :: 0 <= i < j < |keys| ==> keys[i] != keys[j]
    ensures SumOf(RowsFor(keys, p + [e], key), RowMs)
            == SumOf(RowsFor(keys, p, key), RowMs) + (if key(e) in keys then e.duration else 0)
  {
    if keys != [] {
      assert (p + [e])[..|p + [e]| - 1] == p;
      RowsForAddEntry(keys[1..], p, e, key);
      assert RowsFor(keys, p + [e], key)[1..] == RowsFor(keys[1..], p + [e], key);
      assert RowsFor(keys, p, key)[1..] == RowsFor(keys[1..], p, key);
      if key(e) == keys[0] {
        assert key(e) !in keys[1..] by {
          forall i | 0 <= i < |keys[1..]| ensures keys[1..][i] != keys[0] {
            assert keys[1..][i] == keys[i + 1];
          }
        }
      } else {
        assert key(e) in keys <==> key(e) in keys[1..] by {
          assert keys == [keys[0]] + keys[1..];
        }
      }
    }
  }

  /** Adding a key adds its row's total. */
  lemma {:induction false} RowsForAddKey(keys: seq<string>, c: string, entries: seq<TimeEntry>, key: TimeEntry -> string)
    ensures SumOf(RowsFor(keys + [c], entries, key), RowMs)
            == SumOf(RowsFor(keys, entries, key), RowMs) + KeyTotal(entries, key, c)
  {
    assert RowsFor(keys + [c], entries, key) == RowsFor(keys, entries, key) + [Row(c, KeyTotal(entries, key, c))];
    SumOfConcat(RowsFor(keys, entries, key), [Row(c, KeyTotal(entries, key, c))], RowMs);
  }

  /**
   * Every entry's duration lands in exactly one group, so the grouped
   * milliseconds add up to the total behind the "Total Hours" figure.
   */
  lemma {:induction false} GroupsCoverTotal(entries: seq<TimeEntry>, key: TimeEntry -> string)
    ensures SumOf(GroupRows(entries, key), RowMs) == TotalDuration(entries)
  {
    if entries != [] {
      var p := entries[..|entries| - 1];
      var e := entries[|entries| - 1];
      assert entries == p + [e];
      GroupsCoverTotal(p, key);
      SumOfConcat(p, [e], Duration);
      var ks := GroupKeys(p, key);
      RowsForAddEntry(ks, p, e, key);
      if key(e) !in ks {
        RowsForAddKey(ks, key(e), entries, key);
        forall k | k in ks ensures k != key(e) {
        }
        RowsForAddEntry(ks, p, e, key);
        KeyTotalAbsent(p, key, key(e));
        assert KeyTotal(entries, key, key(e)) == e.duration;
      }
    }
  }

  /** Each group appears as exactly one row, and every row names a key some entry has. */
  lemma GroupRowsAreDistinct(entries: seq<TimeEntry>, key: TimeEntry -> string)
    ensures DistinctKeys(GroupRows(entries, key), RowName)
    ensures forall k :: HasKey(entries, key, k) <==> HasKey(GroupRows(entries, key), RowName, k)
  {
    var ks := GroupKeys(entries, key);
    var rows := GroupRows(entries, key);
    forall k ensures HasKey(entries, key, k) <==> HasKey(rows, RowName, k) {
      if HasKey(entries, key, k) {
        var i :| 0 <= i < |ks| && ks[i] == k;
        assert RowName(rows[i]) == k;
      }
      if HasKey(rows, RowName, k) {
        var i :| 0 <= i < |rows| && RowName(rows[i]) == k;
        assert ks[i] == k;
      }
    }
  }

  /**
   * One pass over the entries adding each duration into a dictionary keyed
   * by `key`, then one row per dictionary key.
   */
  method GroupDurations(entries: seq<TimeEntry>, key: TimeEntry -> string) returns (rows: seq<Row>)
    ensures rows == GroupRows(entries, key)
  {
    var order: seq<string> := [];
    var sums: map<string, int> := map[];
    var i := 0;
    while i < |entries|
      invariant 0 <= i <= |entries|
      invariant order == GroupKeys(entries[..i], key)
      invariant forall k :: k in sums <==> k in order
      invariant forall k :: k in order ==> sums[k] == KeyTotal(entries[..i], key, k)
    {
      var e := entries[i];
      var k := key(e);
      assert entries[..i + 1][..i] == entries[..i];
      assert entries[..i + 1][i] == e;
      if k !in order {
        KeyTotalAbsent(entries[..i], key, k);
      }
      var before := if k in sums then sums[k] else 0;
      sums := sums[k := before + e.duration];
      if k !in order {
        order := order + [k];
      }
      i := i + 1;
    }
    assert entries[..|entries|] == entries;
    rows := seq(|order|, j requires 0 <= j < |order| => Row(order[j], sums[order[j]]));
  }

  /** How many days the daily chart shows at most. */
  const DAYS_SHOWN: int := 7

  /**
   * `dailyData`: the entries grouped by the calendar day they started on,
   * as `dayLabel` writes it, keeping only the last seven groups.
   */
  method DailyData(entries: seq<TimeEntry>, dayLabel: int -> string) returns (daily: seq<Row>)
    ensures var all := GroupRows(entries, StartDay(dayLabel));
            && |daily| == (if |all| < DAYS_SHOWN then |all| else DAYS_SHOWN)
            && daily == all[|all| - |daily|..]
  {
    var rows := GroupDurations(entries, StartDay(dayLabel));
    daily := if |rows| > DAYS_SHOWN then rows[|rows| - DAYS_SHOWN..] else rows;
  }

  function StartDay(dayLabel: int -> string): TimeEntry -> string {
    (e: TimeEntry) => dayLabel(e.startTime)
  }

  /** `taskData`: the entries grouped by title. */
  method TaskData(entries: seq<TimeEntry>) returns (tasks: seq<Row>)
    ensures tasks == GroupRows(entries, EntryTitle)
  {
    tasks := GroupDurations(entries, EntryTitle);
  }

  function EntryTitle(e: TimeEntry): string {
    e.title
  }

  /** The summary card: total time, number of entries, number of running timers. */
  datatype Summary = Summary(totalMs: int, totalEntries: nat, activeTimers: nat)

  function SummaryOf(entries: seq<TimeEntry>): (s: Summary)
    ensures s.activeTimers <= s.totalEntries == |entries|
    ensures s.totalMs == SumOf(GroupRows(entries, EntryTitle), RowMs)
    ensures s.activeTimers == |set i | 0 <= i < |entries| && entries[i].isRunning|
  {
    GroupsCoverTotal(entries, EntryTitle);
    CountWhereIndices(entries, Running);
    assert IndicesWhere(entries, Running) == set i | 0 <= i < |entries| && entries[i].isRunning;
    Summary(TotalDuration(entries), |entries|, CountWhere(entries, Running))
  }

  /** A started timer counts as one more active timer; a manual entry does not. */
  lemma NewEntriesAndActiveTimers(entries: seq<TimeEntry>, now: int, title: string, description: string, duration: int)
    ensures SummaryOf(entries + [NewTimer(now, title, description)]).activeTimers == SummaryOf(entries).activeTimers + 1
    ensures SummaryOf(entries + [ManualTimeEntry(now, title, description, duration)]).activeTimers
            == SummaryOf(entries).activeTimers
  {
    CountWhereConcat(entries, [NewTimer(now, title, description)], Running);
    CountWhereConcat(entries, [ManualTimeEntry(now, title, description, duration)], Running);
  }
}
