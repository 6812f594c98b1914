/**
 * The aggregation of the log analyser: pass rates over the samples of one log
 * (`avg_bool`), per-task counters over several logs, and the numeric task order.
 */
module Tasks {
  import opened Optional
  import opened Text
  import opened Checks
  import opened Analyze

  /** A parsed sample together with the scorer's verdict (`checks["correct"]`). */
  datatype TaskEntry = TaskEntry(checks: SampleChecks, correct: bool)

  /** The keys counted per sample and per task. */
  datatype StatKey = CodeExecuted | StlCreated | CheckKey(check: Check) | Correct

  /** The nine keys, in the order of the counter dictionary. */
  const StatKeys: seq<StatKey> := [
    CodeExecuted, StlCreated,
    CheckKey(Watertight), CheckKey(SingleComponent), CheckKey(BoundingBox),
    CheckKey(Volume), CheckKey(Chamfer), CheckKey(Hausdorff),
    Correct]

  /**
   * The value under `key` is true. Every value is a boolean or `None`, so Python's
   * truthiness (`if c.get(key)`) and `is True` agree: `None` counts as not passed.
   */
  predicate Passed(entry: TaskEntry, key: StatKey) {
    match key
    case CodeExecuted => entry.checks.codeExecuted
    case StlCreated => entry.checks.stlCreated
    case CheckKey(c) => entry.checks.Get(c) == Some(true)
    case Correct => entry.correct
  }

  // ---------------------------------------------------------------------------
  // avg_bool

  /** How many samples pass under `key`. */
  function CountPassed(samples: seq<TaskEntry>, key: StatKey): (n: nat)
    ensures n <= |samples|
  {
    if samples == [] then 0
    else CountPassed(samples[..|samples| - 1], key) + (if Passed(samples[|samples| - 1], key) then 1 else 0)
  }

  /** Every sample passes exactly when the count is the number of samples. */
  lemma {:induction false} CountAll(samples: seq<TaskEntry>, key: StatKey)
    ensures CountPassed(samples, key) == |samples| <==> forall k :: 0 <= k < |samples| ==> Passed(samples[k], key)
  {
    if samples != [] {
      var init := samples[..|samples| - 1];
      CountAll(init, key);
      assert forall k :: 0 <= k < |init| ==> init[k] == samples[k];
    }
  }

  /** No sample passes exactly when the count is zero. */
  lemma {:induction false} CountNone(samples: seq<TaskEntry>, key: StatKey)
    ensures CountPassed(samples, key) == 0 <==> forall k :: 0 <= k < |samples| ==> !Passed(samples[k], key)
  {
    if samples != [] {
      var init := samples[..|samples| - 1];
      CountNone(init, key);
      assert forall k :: 0 <= k < |init| ==> init[k] == samples[k];
    }
  }

  /**
   * `avg_bool(key)`: the fraction of samples that pass under `key`. The analyser only
   * computes it for a log with at least one sample.
   */
  function AvgBool(samples: seq<TaskEntry>, key: StatKey): (rate: real)
    requires |samples| > 0
    ensures 0.0 <= rate <= 1.0
    ensures rate * |samples| as real == CountPassed(samples, key) as real
  {
    CountPassed(samples, key) as real / |samples| as real
  }

  /** The rate is 1 exactly when every sample passes, and 0 exactly when none does. */
  lemma AvgBoolExtremes(samples: seq<TaskEntry>, key: StatKey)
    requires |samples| > 0
    ensures AvgBool(samples, key) == 1.0 <==> forall k :: 0 <= k < |samples| ==> Passed(samples[k], key)
    ensures AvgBool(samples, key) == 0.0 <==> forall k :: 0 <= k < |samples| ==> !Passed(samples[k], key)
  {
    CountAll(samples, key);
    CountNone(samples, key);
    QuotientExtremes(CountPassed(samples, key) as real, |samples| as real);
  }

  lemma QuotientExtremes(c: real, m: real)
    requires m > 0.0
    ensures c / m == 1.0 <==> c == m
    ensures c / m == 0.0 <==> c == 0.0
  {
  }

  // ---------------------------------------------------------------------------
  // task_sort_key

  /** `int(m.group(1))` or `float("inf")`. */
  datatype SortKey = Numbered(n: nat) | Unnumbered

  /** The order `sorted` uses on keys: numbers by value, infinity after every number. */
  predicate KeyLe(a: SortKey, b: SortKey) {
    match a
    case Numbered(x) => b.Unnumbered? || x <= b.n
    case Unnumbered => b.Unnumbered?
  }

  /** Length of the run of decimal digits at the front of `s`. */
  function DigitRun(s: string): (n: nat)
    ensures n <= |s|
    ensures AllDigits(s[..n])
    ensures n < |s| ==> !IsDigit(s[n])
  {
    if s == [] || !IsDigit(s[0]) then 0
    else
      var n := 1 + DigitRun(s[1..]);
      assert forall k :: 1 <= k < n ==> s[..n][k] == s[1..][..n - 1][k - 1];
      n
  }

  /**
   * `task_sort_key`: `re.match(r"task(\d+)", tid)` takes the longest run of digits
   * after a leading `task`; the id sorts by that number, or last when there is none.
   */
  function TaskSortKey(id: string): (key: SortKey)
    ensures key.Numbered? <==> StartsWith(id, "task") && |id| > 4 && IsDigit(id[4])
  {
    if StartsWith(id, "task") && DigitRun(id[4..]) > 0 then
      var n := DigitRun(id[4..]);
      assert id[4..][..n] == id[4..4 + n];
      Numbered(ParseDecimal(id[4..4 + n]))
    else Unnumbered
  }

  /** `task<n><rest>` sorts as `n` when the rest does not continue the number. */
  lemma TaskSortKeyNumber(n: nat, rest: string)
    requires rest == [] || !IsDigit(rest[0])
    ensures TaskSortKey("task" + NatText(n) + rest) == Numbered(n)
  {
    var id := "task" + NatText(n) + rest;
    var digits := NatText(n);
    assert id[4..] == digits + rest;
    DigitRunOf(digits, rest);
    assert id[4..4 + |digits|] == digits;
    ParseNatText(n);
  }

  lemma {:induction false} DigitRunOf(digits: string, rest: string)
    requires AllDigits(digits)
    requires rest == [] || !IsDigit(rest[0])
    ensures DigitRun(digits + rest) == |digits|
  {
    if digits != [] {
      assert (digits + rest)[1..] == digits[1..] + rest;
      DigitRunOf(digits[1..], rest);
    } else {
      assert digits + rest == rest;
    }
  }

  // ---------------------------------------------------------------------------
  // sorted(all_task_ids, key=task_sort_key)

  /** `ids` listed in ascending key order. */
  predicate AscendingKeys(ids: seq<string>) {
    forall i, j :: 0 <= i < j < |ids| ==> KeyLe(TaskSortKey(ids[i]), TaskSortKey(ids[j]))
  }

  /** Inserts `id` after every element whose key is not larger (keeps equal keys in arrival order). */
  function InsertByKey(id: string, sorted: seq<string>): (r: seq<string>)
    ensures multiset(r) == multiset(sorted) + multiset{id}
  {
    if sorted == [] then [id]
    else if !KeyLe(TaskSortKey(sorted[0]), TaskSortKey(id)) then [id] + sorted
    else
      assert sorted == [sorted[0]] + sorted[1..];
      [sorted[0]] + InsertByKey(id, sorted[1..])
  }

  /** Inserting into an ascending list keeps it ascending. */
  lemma {:induction false} InsertKeepsAscending(id: string, sorted: seq<string>)
    requires AscendingKeys(sorted)
    ensures AscendingKeys(InsertByKey(id, sorted))
  {
    if sorted == [] {
    } else if !KeyLe(TaskSortKey(sorted[0]), TaskSortKey(id)) {
      forall j | 0 <= j < |sorted| ensures KeyLe(TaskSortKey(id), TaskSortKey(sorted[j])) {
        assert KeyLe(TaskSortKey(sorted[0]), TaskSortKey(sorted[j])) || j == 0;
      }
      ConsAscending(id, sorted);
    } else {
      var rest := sorted[1..];
      var tail := InsertByKey(id, rest);
      InsertKeepsAscending(id, rest);
      forall j | 0 <= j < |tail| ensures KeyLe(TaskSortKey(sorted[0]), TaskSortKey(tail[j])) {
        assert tail[j] in multiset(tail);
        if tail[j] != id {
          assert tail[j] in multiset(rest);
          var m :| 0 <= m < |rest| && rest[m] == tail[j];
          assert sorted[m + 1] == tail[j];
        }
      }
      ConsAscending(sorted[0], tail);
    }
  }

  /** A key no larger than every key of an ascending list can go in front of it. */
  lemma ConsAscending(first: string, ids: seq<string>)
    requires AscendingKeys(ids)
    requires forall j :: 0 <= j < |ids| ==> KeyLe(TaskSortKey(first), TaskSortKey(ids[j]))
    ensures AscendingKeys([first] + ids)
  {
    var all := [first] + ids;
    forall i, j | 0 <= i < j < |all| ensures KeyLe(TaskSortKey(all[i]), TaskSortKey(all[j])) {
      if i == 0 {
        assert all[j] == ids[j - 1];
      } else {
        assert all[i] == ids[i - 1] && all[j] == ids[j - 1];
      }
    }
  }

  /** Python's stable `sorted` of the ids in the order the set yields them. */
  function SortTasks(order: seq<string>): (sorted: seq<string>)
    ensures multiset(sorted) == multiset(order)
    ensures AscendingKeys(sorted)
  {
    if order == [] then []
    else
      assert order == order[..|order| - 1] + [order[|order| - 1]];
      var init := SortTasks(order[..|order| - 1]);
      InsertKeepsAscending(order[|order| - 1], init);
      InsertByKey(order[|order| - 1], init)
  }

  /**
   * Whatever order the set of task ids is enumerated in, the sorted list holds each id
   * exactly once, ascending by key: numbered tasks by number, then every other id.
   */
  lemma SortedTaskIds(order: seq<string>, ids: set<string>)
    requires forall i, j :: 0 <= i < j < |order| ==> order[i] != order[j]
    requires (set t | t in order) == ids
    ensures var sorted := SortTasks(order);
      && |sorted| == |ids|
      && (forall t :: t in sorted <==> t in ids)
      && (forall i, j :: 0 <= i < j < |sorted| ==> TaskSortKey(sorted[i]).Unnumbered? ==> TaskSortKey(sorted[j]).Unnumbered?)
  {
    var sorted := SortTasks(order);
    assert forall t :: t in sorted <==> t in multiset(sorted);
    assert forall t :: t in order <==> t in multiset(order);
    DistinctCard(order);
  }

  /** A list without repetitions has as many elements as its set. */
  lemma {:induction false} DistinctCard(s: seq<string>)
    requires forall i, j :: 0 <= i < j < |s| ==> s[i] != s[j]
    ensures |set t | t in s| == |s|
  {
    if s != [] {
      var init := s[..|s| - 1];
      DistinctCard(init);
      assert (set t | t in s) == (set t | t in init) + {s[|s| - 1]};
      assert s[|s| - 1] !in init;
    }
  }

  // ---------------------------------------------------------------------------
  // The per-task counters of format_per_task_table

  /** Every task id that appears in some log. */
  function TaskIds(logs: seq<map<string, TaskEntry>>): set<string> {
    if logs == [] then {} else TaskIds(logs[..|logs| - 1]) + logs[|logs| - 1].Keys
  }

  /** How many logs hold a result for task `t` (`task_counts[t]`). */
  function ModelsWith(logs: seq<map<string, TaskEntry>>, t: string): nat {
    if logs == [] then 0
    else ModelsWith(logs[..|logs| - 1], t) + (if t in logs[|logs| - 1] then 1 else 0)
  }

  /** How many logs hold a result for task `t` that passes under `key` (`task_stats[t][key]`). */
  function PassCount(logs: seq<map<string, TaskEntry>>, t: string, key: StatKey): nat {
    if logs == [] then 0
    else
      var last := logs[|logs| - 1];
      PassCount(logs[..|logs| - 1], t, key) + (if t in last && Passed(last[t], key) then 1 else 0)
  }

  /** A pass count never exceeds the number of models that attempted the task, so each rate is at most 1. */
  lemma {:induction false} PassCountBounded(logs: seq<map<string, TaskEntry>>, t: string, key: StatKey)
    ensures PassCount(logs, t, key) <= ModelsWith(logs, t)
  {
    if logs != [] {
      PassCountBounded(logs[..|logs| - 1], t, key);
    }
  }

  /** Every listed task was attempted by some model, so the `total == 0` guard never skips a row. */
  lemma {:induction false} ListedTasksAttempted(logs: seq<map<string, TaskEntry>>, t: string)
    requires t in TaskIds(logs)
    ensures ModelsWith(logs, t) >= 1
  {
    var init := logs[..|logs| - 1];
    if t !in logs[|logs| - 1] {
      ListedTasksAttempted(init, t);
    }
  }

  /** The row of counters a task starts with. */
  const ZeroRow: map<StatKey, nat> := map key | key in StatKeys :: 0

  /** The inner loop over the counter keys: adds one under each key the entry passes. */
  method AddPasses(row: map<StatKey, nat>, entry: TaskEntry) returns (updated: map<StatKey, nat>)
    ensures updated.Keys == row.Keys
    ensures forall key :: key in row ==> updated[key] == row[key] + (if Passed(entry, key) then 1 else 0)
  {
    updated := row;
    var pending := row.Keys;
    while pending != {}
      invariant pending <= row.Keys && updated.Keys == row.Keys
      invariant forall key :: key in row ==>
        updated[key] == row[key] + (if key !in pending && Passed(entry, key) then 1 else 0)
      decreases |pending|
    {
      var key :| key in pending;
      if Passed(entry, key) {
        updated := updated[key := updated[key] + 1];
      }
      pending := pending - {key};
    }
  }

  /** The counters of task `t` after `logs`: its model count and a full row of pass counts. */
  ghost predicate TaskTallied(logs: seq<map<string, TaskEntry>>, t: string, count: nat, row: map<StatKey, nat>) {
    && count == ModelsWith(logs, t)
    && row.Keys == ZeroRow.Keys
    && forall key :: key in ZeroRow ==> row[key] == PassCount(logs, t, key)
  }

  /** The counters after `logs`, as the nested loops leave them. */
  ghost predicate Tallied(logs: seq<map<string, TaskEntry>>, ids: set<string>, counts: map<string, nat>,
                          stats: map<string, map<StatKey, nat>>)
  {
    && ids == TaskIds(logs) && counts.Keys == ids && stats.Keys == ids
    && forall t :: t in ids ==> TaskTallied(logs, t, counts[t], stats[t])
  }

  /**
   * The counting loops of `format_per_task_table`: every task seen in some log, how many
   * logs hold it, and per key how many of those results pass.
   */
  method TaskCounters(logs: seq<map<string, TaskEntry>>)
    returns (ids: set<string>, counts: map<string, nat>, stats: map<string, map<StatKey, nat>>)
    ensures Tallied(logs, ids, counts, stats)
  {
    ids, counts, stats := {}, map[], map[];
    for i := 0 to |logs|
      invariant Tallied(logs[..i], ids, counts, stats)
    {
      assert logs[..i + 1] == logs[..i] + [logs[i]];
      if |logs[i]| == 0 {
        EmptyLog(logs[..i], logs[i], ids, counts, stats);
        continue;
      }
      ids, counts, stats := CountLog(logs[..i], logs[i], ids, counts, stats);
    }
    assert logs[..|logs|] == logs;
  }

  /** A log without task results changes no counter. */
  lemma EmptyLog(before: seq<map<string, TaskEntry>>, log: map<string, TaskEntry>,
                 ids: set<string>, counts: map<string, nat>, stats: map<string, map<StatKey, nat>>)
    requires |log| == 0
    requires Tallied(before, ids, counts, stats)
    ensures Tallied(before + [log], ids, counts, stats)
  {
    var after := before + [log];
    assert after[..|after| - 1] == before;
    forall t | t in ids ensures TaskTallied(after, t, counts[t], stats[t]) {
      OtherTask(before, log, t);
    }
  }

  /** Part way through one log: the tasks still `pending` are counted up to `before`, the others up to `before + [log]`. */
  ghost predicate PartlyTallied(before: seq<map<string, TaskEntry>>, log: map<string, TaskEntry>, pending: set<string>,
                                ids: set<string>, counts: map<string, nat>, stats: map<string, map<StatKey, nat>>)
  {
    && pending <= log.Keys
    && ids == TaskIds(before) + (log.Keys - pending)
    && counts.Keys == ids && stats.Keys == ids
    && (forall t :: t in ids && t in pending ==> TaskTallied(before, t, counts[t], stats[t]))
    && (forall t :: t in ids && t !in pending ==> TaskTallied(before + [log], t, counts[t], stats[t]))
  }

  /** The loop over one log's `task_results`, in whatever order the dictionary yields them. */
  method CountLog(before: seq<map<string, TaskEntry>>, log: map<string, TaskEntry>,
                  ids0: set<string>, counts0: map<string, nat>, stats0: map<string, map<StatKey, nat>>)
    returns (ids: set<string>, counts: map<string, nat>, stats: map<string, map<StatKey, nat>>)
    requires Tallied(before, ids0, counts0, stats0)
    ensures Tallied(before + [log], ids, counts, stats)
  {
    ids, counts, stats := ids0, counts0, stats0;
    var pending := log.Keys;
    StartLog(before, log, ids, counts, stats);
    while pending != {}
      invariant PartlyTallied(before, log, pending, ids, counts, stats)
      decreases |pending|
    {
      var t :| t in pending;
      ghost var ids0, counts0, stats0 := ids, counts, stats;
      ids, counts, stats := CountTask(before, log, t, ids, counts, stats);
      PartlyTalliedStep(before, log, pending, t, ids0, counts0, stats0, ids, counts, stats);
      pending := pending - {t};
    }
    FinishLog(before, log, ids, counts, stats);
  }

  lemma StartLog(before: seq<map<string, TaskEntry>>, log: map<string, TaskEntry>,
                 ids: set<string>, counts: map<string, nat>, stats: map<string, map<StatKey, nat>>)
    requires Tallied(before, ids, counts, stats)
    ensures PartlyTallied(before, log, log.Keys, ids, counts, stats)
  {
    forall t | t in ids && t !in log ensures TaskTallied(before + [log], t, counts[t], stats[t]) {
      OtherTask(before, log, t);
    }
  }

  lemma FinishLog(before: seq<map<string, TaskEntry>>, log: map<string, TaskEntry>,
                  ids: set<string>, counts: map<string, nat>, stats: map<string, map<StatKey, nat>>)
    requires PartlyTallied(before, log, {}, ids, counts, stats)
    ensures Tallied(before + [log], ids, counts, stats)
  {
    var after := before + [log];
    assert after[..|after| - 1] == before;
  }

  lemma PartlyTalliedStep(before: seq<map<string, TaskEntry>>, log: map<string, TaskEntry>, pending: set<string>, t: string,
                          ids0: set<string>, counts0: map<string, nat>, stats0: map<string, map<StatKey, nat>>,
                          ids: set<string>, counts: map<string, nat>, stats: map<string, map<StatKey, nat>>)
    requires PartlyTallied(before, log, pending, ids0, counts0, stats0)
    requires t in pending
    requires ids == ids0 + {t} && counts.Keys == ids && stats.Keys == ids
    requires TaskTallied(before + [log], t, counts[t], stats[t])
    requires forall u :: u in ids0 && u != t ==> counts[u] == counts0[u] && stats[u] == stats0[u]
    ensures PartlyTallied(before, log, pending - {t}, ids, counts, stats)
  {
  }

  /** One iteration over `task_results`: registers task `t` if new and counts its result. */
  method CountTask(ghost before: seq<map<string, TaskEntry>>, log: map<string, TaskEntry>, t: string,
                   ids0: set<string>, counts0: map<string, nat>, stats0: map<string, map<StatKey, nat>>)
    returns (ids: set<string>, counts: map<string, nat>, stats: map<string, map<StatKey, nat>>)
    requires t in log
    requires counts0.Keys == ids0 && stats0.Keys == ids0
    requires t in ids0 ==> TaskTallied(before, t, counts0[t], stats0[t])
    requires t !in ids0 ==> t !in TaskIds(before)
    ensures ids == ids0 + {t} && counts.Keys == ids && stats.Keys == ids
    ensures TaskTallied(before + [log], t, counts[t], stats[t])
    ensures forall u :: u in ids0 && u != t ==> counts[u] == counts0[u] && stats[u] == stats0[u]
  {
    ids, counts, stats := ids0 + {t}, counts0, stats0;
    if t !in stats {
      NeverSeen(before, t);
      stats := stats[t := ZeroRow];
      counts := counts[t := 0];
    }
    var row := AddPasses(stats[t], log[t]);
    TallyStep(before, log, t, counts[t], stats[t], row);
    counts := counts[t := counts[t] + 1];
    stats := stats[t := row];
  }

  /** Counting the result of task `t` in one more log. */
  lemma TallyStep(before: seq<map<string, TaskEntry>>, log: map<string, TaskEntry>, t: string,
                  count: nat, row: map<StatKey, nat>, row': map<StatKey, nat>)
    requires t in log
    requires TaskTallied(before, t, count, row)
    requires row'.Keys == row.Keys
    requires forall key :: key in row ==> row'[key] == row[key] + (if Passed(log[t], key) then 1 else 0)
    ensures TaskTallied(before + [log], t, count + 1, row')
  {
    var after := before + [log];
    assert after[..|after| - 1] == before;
  }

  /** A log without a result for `t` leaves its counters as they are. */
  lemma OtherTask(before: seq<map<string, TaskEntry>>, log: map<string, TaskEntry>, t: string)
    requires t !in log
    ensures ModelsWith(before + [log], t) == ModelsWith(before, t)
    ensures forall key :: PassCount(before + [log], t, key) == PassCount(before, t, key)
  {
    var after := before + [log];
    assert after[..|after| - 1] == before;
  }

  /** A task not yet listed has no count and no passes: it starts from a row of zeros. */
  lemma {:induction false} NeverSeen(logs: seq<map<string, TaskEntry>>, t: string)
    requires t !in TaskIds(logs)
    ensures TaskTallied(logs, t, 0, ZeroRow)
  {
    if logs != [] {
      NeverSeen(logs[..|logs| - 1], t);
    }
  }
}
