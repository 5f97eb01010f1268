/**
 Log-level histogram (programming_in_small/example1): `aggregateLogs` counts
 log entries per level with a loop; `aggregateLogsCorecursive` does the same
 by accumulator recursion. Both are proved equal to `Histogram`, the
 reference definition "level |-> number of entries with that level".
 */
module LogStats {
  import opened GoMap

  datatype LogEntry = LogEntry(level: string)

  /** Number of entries of `logs` whose level is `level`. */
  function Occurrences(logs: seq<LogEntry>, level: string): nat
  {
    if logs == [] then 0
    else (if logs[0].level == level then 1 else 0) + Occurrences(logs[1..], level)
  }

  /** The levels that occur in `logs`. */
  function Levels(logs: seq<LogEntry>): set<string>
  {
    set e | e in logs :: e.level
  }

  /** Reference histogram: exactly the occurring levels, each with its count. */
  function Histogram(logs: seq<LogEntry>): map<string, int>
  {
    map l | l in Levels(logs) :: Occurrences(logs, l)
  }

  lemma {:induction false} OccurrencesAppend(a: seq<LogEntry>, b: seq<LogEntry>, level: string)
    ensures Occurrences(a + b, level) == Occurrences(a, level) + Occurrences(b, level)
  {
    if a != [] {
      assert (a + b)[0] == a[0] && (a + b)[1..] == a[1..] + b;
      OccurrencesAppend(a[1..], b, level);
    } else {
      assert a + b == b;
    }
  }

  /** A level occurs in `logs` exactly when its count is positive. */
  lemma {:induction false} OccurrencesPositive(logs: seq<LogEntry>, level: string)
    ensures level in Levels(logs) <==> Occurrences(logs, level) > 0
  {
    if logs != [] {
      OccurrencesPositive(logs[1..], level);
      assert logs == [logs[0]] + logs[1..];
      assert Levels(logs) == {logs[0].level} + Levels(logs[1..]);
    }
  }

  /** The count of a level is the multiplicity of its (only) entry value. */
  lemma {:induction false} OccurrencesMultiset(logs: seq<LogEntry>, level: string)
    ensures Occurrences(logs, level) == multiset(logs)[LogEntry(level)]
  {
    if logs != [] {
      OccurrencesMultiset(logs[1..], level);
      assert logs == [logs[0]] + logs[1..];
      assert multiset(logs) == multiset{logs[0]} + multiset(logs[1..]);
    }
  }

  // ---------------------------------------------------------------------
  // example1/before: the loop version

  /** `aggregateLogs`: one pass over `logs`, `stats[log.Level]++` per entry. */
  method AggregateLogs(logs: seq<LogEntry>) returns (stats: map<string, int>)
    ensures stats == Histogram(logs)
    ensures stats.Keys == Levels(logs)
    ensures forall l :: l in stats ==> stats[l] == Occurrences(logs, l) >= 1
    ensures stats == AggregateLogsCorecursive(logs)
  {
    stats := map[];
    for i := 0 to |logs|
      invariant stats.Keys == Levels(logs[..i])
      invariant forall l :: Lookup(stats, l) == Occurrences(logs[..i], l)
    {
      assert logs[..i + 1] == logs[..i] + [logs[i]];
      forall l ensures Occurrences(logs[..i + 1], l) == Occurrences(logs[..i], l) + Occurrences([logs[i]], l) {
        OccurrencesAppend(logs[..i], [logs[i]], l);
      }
      forall l ensures Occurrences([logs[i]], l) == if logs[i].level == l then 1 else 0 {
        assert [logs[i]][1..] == [];
      }
      stats := Add(stats, logs[i].level, 1);
    }
    assert logs[..|logs|] == logs;
    forall l | l in stats ensures stats[l] == Occurrences(logs, l) >= 1 {
      OccurrencesPositive(logs, l);
    }
    CorecursiveIsHistogram(logs);
  }

  // ---------------------------------------------------------------------
  // example1/after: the accumulator-recursion version

  /** `aggregate`: add one to the head entry's level, recurse on the rest. */
  function Aggregate(remaining: seq<LogEntry>, acc: map<string, int>): map<string, int>
    decreases |remaining|
  {
    if |remaining| == 0 then acc
    else Aggregate(remaining[1..], Add(acc, remaining[0].level, 1))
  }

  /** `aggregateLogsCorecursive`: start `aggregate` from an empty map. */
  function AggregateLogsCorecursive(logs: seq<LogEntry>): map<string, int>
  {
    Aggregate(logs, map[])
  }

  /** `aggregate(remaining, acc)` is `acc` with every level's count raised by
      its number of occurrences in `remaining`, and no other key added. */
  lemma {:induction false} AggregateCounts(remaining: seq<LogEntry>, acc: map<string, int>)
    ensures Aggregate(remaining, acc).Keys == acc.Keys + Levels(remaining)
    ensures forall l :: Lookup(Aggregate(remaining, acc), l) == Lookup(acc, l) + Occurrences(remaining, l)
    decreases |remaining|
  {
    if |remaining| != 0 {
      var e, rest := remaining[0], remaining[1..];
      AggregateCounts(rest, Add(acc, e.level, 1));
      assert remaining == [e] + rest;
      assert Levels(remaining) == {e.level} + Levels(rest);
    }
  }

  /** The recursive version computes the reference histogram. */
  lemma CorecursiveIsHistogram(logs: seq<LogEntry>)
    ensures AggregateLogsCorecursive(logs) == Histogram(logs)
  {
    var r := AggregateLogsCorecursive(logs);
    AggregateCounts(logs, map[]);
    forall l | l in r ensures r[l] == Histogram(logs)[l] {
      assert Lookup(r, l) == Occurrences(logs, l);
    }
  }

  // ---------------------------------------------------------------------
  // Properties of the histogram

  /** Every stored count is the number of entries with that level, and at least 1. */
  lemma HistogramCounts(logs: seq<LogEntry>, level: string)
    ensures level in Histogram(logs) <==> Occurrences(logs, level) > 0
    ensures level in Histogram(logs) ==> Histogram(logs)[level] == Occurrences(logs, level)
  {
    OccurrencesPositive(logs, level);
  }

  /** No log entries, no keys. */
  lemma HistogramEmpty()
    ensures Histogram([]) == map[]
  {
    assert Levels([]) == {};
  }

  /** The counts add up to the number of entries. */
  lemma HistogramTotal(logs: seq<LogEntry>)
    ensures Sum(Histogram(logs)) == |logs|
  {
    CorecursiveIsHistogram(logs);
    AggregateSum(logs, map[]);
    assert Sum(map[]) == 0;
  }

  lemma {:induction false} AggregateSum(remaining: seq<LogEntry>, acc: map<string, int>)
    ensures Sum(Aggregate(remaining, acc)) == Sum(acc) + |remaining|
    decreases |remaining|
  {
    if |remaining| != 0 {
      SumAdd(acc, remaining[0].level, 1);
      AggregateSum(remaining[1..], Add(acc, remaining[0].level, 1));
    }
  }

  /** Reordering the entries does not change the histogram. */
  lemma HistogramPermutation(logs: seq<LogEntry>, shuffled: seq<LogEntry>)
    requires multiset(logs) == multiset(shuffled)
    ensures Histogram(logs) == Histogram(shuffled)
  {
    forall l ensures Occurrences(logs, l) == Occurrences(shuffled, l) {
      OccurrencesMultiset(logs, l);
      OccurrencesMultiset(shuffled, l);
    }
    forall l ensures l in Levels(logs) <==> l in Levels(shuffled) {
      OccurrencesPositive(logs, l);
      OccurrencesPositive(shuffled, l);
    }
    assert Levels(logs) == Levels(shuffled);
  }
}
