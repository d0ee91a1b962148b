/** From execution logs to metric reports: sort by SQL, group, fold. */
module Metrics {
  import opened Basics
  import opened Handler
  import opened Average

  datatype MetricHistory = MetricHistory(
    sqlStr: string,
    dbServerPort: string,
    avgDuration: int,
    maxDuration: int,
    minDuration: int,
    execCount: nat,
    cacheHitCount: nat)

  const I64_MAX := 0x7fff_ffff_ffff_ffff

  // ---- the order of SQL texts ---------------------------------------------------

  predicate Less(a: string, b: string) {
    if b == "" then false
    else if a == "" then true
    else a[0] < b[0] || (a[0] == b[0] && Less(a[1..], b[1..]))
  }

  lemma {:induction false} LessTotal(a: string, b: string)
    ensures Less(a, b) || a == b || Less(b, a)
    ensures !(Less(a, b) && Less(b, a)) && !Less(a, a)
  {
    if a != "" && b != "" {
      LessTotal(a[1..], b[1..]);
      assert a == [a[0]] + a[1..] && b == [b[0]] + b[1..];
    }
    if a != "" {
      LessTotal(a[1..], a[1..]);
    }
  }

  lemma {:induction false} LessTransitive(a: string, b: string, c: string)
    requires Less(a, b) && Less(b, c)
    ensures Less(a, c)
  {
    if a != "" && a[0] == b[0] == c[0] {
      LessTransitive(a[1..], b[1..], c[1..]);
    }
  }

  /** `a` comes before `b`: it is a proper prefix, or has the smaller character
      where they first differ. */
  predicate DiffersAt(a: string, b: string, k: int) {
    && 0 <= k <= |a| && k < |b| && a[..k] == b[..k]
    && (k == |a| || a[k] < b[k])
  }

  lemma {:induction false} LessExactly(a: string, b: string)
    ensures Less(a, b) <==> exists k :: DiffersAt(a, b, k)
  {
    if b != "" && a == "" {
      assert DiffersAt(a, b, 0);
    } else if b != "" {
      LessExactly(a[1..], b[1..]);
      assert forall k :: 1 <= k <= |a| && k <= |b| ==> (a[..k] == b[..k] <==> a[0] == b[0] && a[1..][..k - 1] == b[1..][..k - 1]) by {
        forall k | 1 <= k <= |a| && k <= |b|
          ensures a[..k] == b[..k] <==> a[0] == b[0] && a[1..][..k - 1] == b[1..][..k - 1]
        {
          assert a[..k] == [a[0]] + a[1..][..k - 1] && b[..k] == [b[0]] + b[1..][..k - 1];
        }
      }
      if a[0] < b[0] {
        assert DiffersAt(a, b, 0);
      } else if a[0] == b[0] && Less(a[1..], b[1..]) {
        var k :| DiffersAt(a[1..], b[1..], k);
        assert DiffersAt(a, b, k + 1);
      }
      if k :| DiffersAt(a, b, k) {
        assert k == 0 || DiffersAt(a[1..], b[1..], k - 1);
      }
    }
  }

  // ---- sorting and selecting ------------------------------------------------------

  /** The stable sort by SQL text. */
  function Insert(x: ExecLog, sorted: seq<ExecLog>): seq<ExecLog> {
    if sorted == [] || !Less(sorted[0].sqlStr, x.sqlStr) then [x] + sorted
    else [sorted[0]] + Insert(x, sorted[1..])
  }

  function SortedBySql(logs: seq<ExecLog>): seq<ExecLog> {
    if logs == [] then [] else Insert(logs[0], SortedBySql(logs[1..]))
  }

  predicate Ordered(logs: seq<ExecLog>) {
    forall i, j :: 0 <= i < j < |logs| ==> !Less(logs[j].sqlStr, logs[i].sqlStr)
  }

  /** The logs of one SQL text, in order. */
  function Of(logs: seq<ExecLog>, sql: string): seq<ExecLog> {
    if logs == [] then []
    else (if logs[0].sqlStr == sql then [logs[0]] else []) + Of(logs[1..], sql)
  }

  lemma {:induction false} OfAppend(a: seq<ExecLog>, b: seq<ExecLog>, sql: string)
    ensures Of(a + b, sql) == Of(a, sql) + Of(b, sql)
  {
    if a == [] {
      assert a + b == b;
    } else {
      OfAppend(a[1..], b, sql);
      assert (a + b)[1..] == a[1..] + b;
      var head := if a[0].sqlStr == sql then [a[0]] else [];
      Associative(head, Of(a[1..], sql), Of(b, sql));
    }
  }

  lemma {:induction false} OfMembers(logs: seq<ExecLog>, sql: string)
    ensures forall log :: log in Of(logs, sql) <==> log in logs && log.sqlStr == sql
    ensures Of(logs, sql) != [] <==> exists log :: log in logs && log.sqlStr == sql
  {
    if logs != [] {
      OfMembers(logs[1..], sql);
      var rest := Of(logs[1..], sql);
      forall log
        ensures log in Of(logs, sql) <==> log in logs && log.sqlStr == sql
      {
      }
      if Of(logs, sql) != [] {
        assert Of(logs, sql)[0] in Of(logs, sql);
      }
    }
  }

  lemma {:induction false} InsertOf(x: ExecLog, sorted: seq<ExecLog>, sql: string)
    ensures Of(Insert(x, sorted), sql) == Of([x] + sorted, sql)
    ensures forall log :: log in Insert(x, sorted) <==> log == x || log in sorted
  {
    assert ([x] + sorted)[1..] == sorted;
    if sorted != [] && Less(sorted[0].sqlStr, x.sqlStr) {
      LessTotal(x.sqlStr, x.sqlStr);
      InsertOf(x, sorted[1..], sql);
      assert Insert(x, sorted)[1..] == Insert(x, sorted[1..]);
      assert ([x] + sorted[1..])[1..] == sorted[1..];
      assert sorted == [sorted[0]] + sorted[1..];
    }
  }

  lemma {:induction false} InsertOrdered(x: ExecLog, sorted: seq<ExecLog>)
    requires Ordered(sorted)
    ensures Ordered(Insert(x, sorted))
  {
    var out := Insert(x, sorted);
    InsertOf(x, sorted, "");
    if sorted == [] {
    } else if Less(sorted[0].sqlStr, x.sqlStr) {
      InsertOrdered(x, sorted[1..]);
      InsertOf(x, sorted[1..], "");
      forall j | 0 < j < |out|
        ensures !Less(out[j].sqlStr, out[0].sqlStr)
      {
        assert out[j] in Insert(x, sorted[1..]);
        LessTotal(sorted[0].sqlStr, x.sqlStr);
        if out[j] != x {
          var k :| 0 <= k < |sorted[1..]| && sorted[1..][k] == out[j];
          assert sorted[k + 1] == out[j];
        }
      }
    } else {
      forall j | 0 < j < |out|
        ensures !Less(out[j].sqlStr, x.sqlStr)
      {
        assert out[j] == sorted[j - 1];
        LessTotal(sorted[0].sqlStr, out[j].sqlStr);
        if Less(out[j].sqlStr, x.sqlStr) && sorted[0].sqlStr != out[j].sqlStr {
          LessTransitive(sorted[0].sqlStr, out[j].sqlStr, x.sqlStr);
        }
      }
    }
  }

  lemma {:induction false} SortProperties(logs: seq<ExecLog>, sql: string)
    ensures Ordered(SortedBySql(logs))
    ensures Of(SortedBySql(logs), sql) == Of(logs, sql)
  {
    if logs != [] {
      SortProperties(logs[1..], sql);
      InsertOrdered(logs[0], SortedBySql(logs[1..]));
      InsertOf(logs[0], SortedBySql(logs[1..]), sql);
      assert ([logs[0]] + SortedBySql(logs[1..]))[1..] == SortedBySql(logs[1..]);
    }
  }

  // ---- the folds of one group ---------------------------------------------------------

  function MaxDuration(logs: seq<ExecLog>): int {
    if logs == [] then -1
    else
      var m, d := MaxDuration(logs[..|logs| - 1]), logs[|logs| - 1].totalDuration;
      if m < d then d else m
  }

  function MinDuration(logs: seq<ExecLog>): int {
    if logs == [] then I64_MAX
    else
      var m, d := MinDuration(logs[..|logs| - 1]), logs[|logs| - 1].totalDuration;
      if m > d then d else m
  }

  function Hits(logs: seq<ExecLog>): nat {
    if logs == [] then 0
    else Hits(logs[..|logs| - 1]) + (if logs[|logs| - 1].fromCache then 1 else 0)
  }

  function Durations(logs: seq<ExecLog>): seq<int> {
    seq(|logs|, i requires 0 <= i < |logs| => logs[i].totalDuration)
  }

  function RecordOf(port: string, sql: string, group: seq<ExecLog>): MetricHistory {
    MetricHistory(sql, port, AsI32(Mean(Durations(group))), MaxDuration(group), MinDuration(group), |group|, Hits(group))
  }

  predicate KeysIncrease(report: seq<MetricHistory>) {
    forall i, j :: 0 <= i < j < |report| ==> Less(report[i].sqlStr, report[j].sqlStr)
  }

  ghost predicate HasRecord(report: seq<MetricHistory>, sql: string) {
    exists i :: 0 <= i < |report| && report[i].sqlStr == sql
  }

  /** One record for each SQL text in the batch, in strictly increasing order,
      and each record the summary of exactly the logs of its text. */
  ghost predicate Aggregates(port: string, logs: seq<ExecLog>, report: seq<MetricHistory>) {
    && KeysIncrease(report)
    && (forall i :: 0 <= i < |report| ==>
          Of(logs, report[i].sqlStr) != []
          && report[i] == RecordOf(port, report[i].sqlStr, Of(logs, report[i].sqlStr)))
    && (forall k :: 0 <= k < |logs| ==> HasRecord(report, logs[k].sqlStr))
  }

  lemma GroupSnoc(group: seq<ExecLog>, log: ExecLog)
    ensures MaxDuration(group + [log]) == (if MaxDuration(group) < log.totalDuration then log.totalDuration else MaxDuration(group))
    ensures MinDuration(group + [log]) == (if MinDuration(group) > log.totalDuration then log.totalDuration else MinDuration(group))
    ensures Hits(group + [log]) == Hits(group) + (if log.fromCache then 1 else 0)
    ensures Durations(group + [log]) == Durations(group) + [log.totalDuration]
  {
    assert (group + [log])[..|group|] == group;
  }

  /** Folds one group, as the loop over its logs does. */
  method Summarise(port: string, sql: string, group: seq<ExecLog>) returns (record: MetricHistory)
    requires group != []
    ensures record == RecordOf(port, sql, group)
  {
    var calculator := new AveragedCollection();
    var maxDuration, minDuration, cacheHitCount, totalCount := -1, I64_MAX, 0, 0;
    for i := 0 to |group|
      invariant totalCount == i
      invariant calculator.list == Durations(group[..i])
      invariant i > 0 ==> calculator.average == Mean(calculator.list)
      invariant maxDuration == MaxDuration(group[..i]) && minDuration == MinDuration(group[..i])
      invariant cacheHitCount == Hits(group[..i])
    {
      GroupSnoc(group[..i], group[i]);
      assert group[..i + 1] == group[..i] + [group[i]];
      calculator.Add(group[i].totalDuration);
      if maxDuration < group[i].totalDuration {
        maxDuration := group[i].totalDuration;
      }
      if minDuration > group[i].totalDuration {
        minDuration := group[i].totalDuration;
      }
      if group[i].fromCache {
        cacheHitCount := cacheHitCount + 1;
      }
      totalCount := totalCount + 1;
    }
    assert group[..|group|] == group;
    record := MetricHistory(sql, port, AsI32(calculator.average), maxDuration, minDuration, totalCount, cacheHitCount);
  }

  lemma {:induction false} OfSame(group: seq<ExecLog>, sql: string)
    requires forall i :: 0 <= i < |group| ==> group[i].sqlStr == sql
    ensures Of(group, sql) == group
  {
    if group != [] {
      OfSame(group[1..], sql);
    }
  }

  lemma OfOtherGroup(before: seq<ExecLog>, group: seq<ExecLog>, sql: string, key: string)
    requires forall i :: 0 <= i < |group| ==> group[i].sqlStr == sql
    requires forall log :: log in before ==> Less(log.sqlStr, sql)
    ensures key != sql ==> Of(before + group, key) == Of(before, key)
    ensures key == sql ==> Of(before + group, key) == group
    ensures Of(before, key) != [] ==> Less(key, sql)
  {
    LessTotal(sql, sql);
    OfAppend(before, group, key);
    OfMembers(before, key);
    if key == sql {
      OfSame(group, sql);
    } else {
      OfMembers(group, key);
    }
  }

  /** Appending a group with a larger key to a report. */
  lemma AggregatesGroup(port: string, before: seq<ExecLog>, report: seq<MetricHistory>, sql: string, group: seq<ExecLog>)
    requires Aggregates(port, before, report) && group != []
    requires forall i :: 0 <= i < |group| ==> group[i].sqlStr == sql
    requires forall log :: log in before ==> Less(log.sqlStr, sql)
    ensures Aggregates(port, before + group, report + [RecordOf(port, sql, group)])
  {
    var after := report + [RecordOf(port, sql, group)];
    OfOtherGroup(before, group, sql, sql);
    forall i | 0 <= i < |report|
      ensures Less(report[i].sqlStr, sql) && Of(before + group, report[i].sqlStr) == Of(before, report[i].sqlStr)
    {
      LessTotal(report[i].sqlStr, sql);
      OfOtherGroup(before, group, sql, report[i].sqlStr);
    }
    assert KeysIncrease(after);
    forall i | 0 <= i < |after|
      ensures Of(before + group, after[i].sqlStr) != []
           && after[i] == RecordOf(port, after[i].sqlStr, Of(before + group, after[i].sqlStr))
    {
      if i < |report| {
        assert after[i] == report[i];
      }
    }
    var logs := before + group;
    forall k | 0 <= k < |logs|
      ensures HasRecord(after, logs[k].sqlStr)
    {
      if k < |before| {
        var i :| 0 <= i < |report| && report[i].sqlStr == before[k].sqlStr;
        assert after[i].sqlStr == logs[k].sqlStr;
      } else {
        assert after[|report|].sqlStr == logs[k].sqlStr;
      }
    }
  }

  lemma AggregatesSorted(port: string, logs: seq<ExecLog>, report: seq<MetricHistory>)
    requires Aggregates(port, SortedBySql(logs), report)
    ensures Aggregates(port, logs, report)
  {
    var sorted := SortedBySql(logs);
    forall i | 0 <= i < |report|
      ensures Of(logs, report[i].sqlStr) == Of(sorted, report[i].sqlStr)
    {
      SortProperties(logs, report[i].sqlStr);
    }
    forall k | 0 <= k < |logs|
      ensures HasRecord(report, logs[k].sqlStr)
    {
      SortProperties(logs, logs[k].sqlStr);
      OfMembers(logs, logs[k].sqlStr);
      OfMembers(sorted, logs[k].sqlStr);
      assert logs[k] in sorted;
      var m :| 0 <= m < |sorted| && sorted[m] == logs[k];
    }
  }

  lemma NextGroup(sorted: seq<ExecLog>, i: nat, j: nat)
    requires Ordered(sorted) && i < j < |sorted| && sorted[j].sqlStr != sorted[i].sqlStr
    requires forall k :: i <= k < j ==> sorted[k].sqlStr == sorted[i].sqlStr
    requires forall k :: 0 <= k < i ==> Less(sorted[k].sqlStr, sorted[i].sqlStr)
    ensures forall k :: 0 <= k < j ==> Less(sorted[k].sqlStr, sorted[j].sqlStr)
  {
    LessTotal(sorted[i].sqlStr, sorted[j].sqlStr);
    forall k | 0 <= k < j
      ensures Less(sorted[k].sqlStr, sorted[j].sqlStr)
    {
      if k < i {
        LessTransitive(sorted[k].sqlStr, sorted[i].sqlStr, sorted[j].sqlStr);
      }
    }
  }

  /** The first `i` sorted logs end with a whole group. */
  predicate Boundary(sorted: seq<ExecLog>, i: nat) {
    i <= |sorted| && (i < |sorted| ==> forall k :: 0 <= k < i ==> Less(sorted[k].sqlStr, sorted[i].sqlStr))
  }

  /** One group of the sorted logs: it starts at `i` and ends before `j`. */
  method GroupEnd(sorted: seq<ExecLog>, i: nat) returns (j: nat)
    requires Ordered(sorted) && i < |sorted| && Boundary(sorted, i)
    ensures i < j && Boundary(sorted, j)
    ensures forall k :: i <= k < j ==> sorted[k].sqlStr == sorted[i].sqlStr
  {
    j := i + 1;
    while j < |sorted| && sorted[j].sqlStr == sorted[i].sqlStr
      invariant i < j <= |sorted|
      invariant forall k :: i <= k < j ==> sorted[k].sqlStr == sorted[i].sqlStr
    {
      j := j + 1;
    }
    if j < |sorted| {
      NextGroup(sorted, i, j);
    }
  }

  lemma AggregatesPrefix(port: string, sorted: seq<ExecLog>, report: seq<MetricHistory>, i: nat, j: nat)
    requires i < j <= |sorted| && Boundary(sorted, i) && Aggregates(port, sorted[..i], report)
    requires forall k :: i <= k < j ==> sorted[k].sqlStr == sorted[i].sqlStr
    ensures Aggregates(port, sorted[..j], report + [RecordOf(port, sorted[i].sqlStr, sorted[i..j])])
  {
    AggregatesGroup(port, sorted[..i], report, sorted[i].sqlStr, sorted[i..j]);
    assert sorted[..i] + sorted[i..j] == sorted[..j];
  }

  method HandleMetrics(port: string, logs: seq<ExecLog>) returns (report: seq<MetricHistory>)
    ensures Aggregates(port, logs, report)
  {
    var sorted := SortedBySql(logs);
    SortProperties(logs, "");
    report := [];
    var i := 0;
    while i < |sorted|
      invariant Boundary(sorted, i)
      invariant Aggregates(port, sorted[..i], report)
      decreases |sorted| - i
    {
      var j := GroupEnd(sorted, i);
      var record := Summarise(port, sorted[i].sqlStr, sorted[i..j]);
      AggregatesPrefix(port, sorted, report, i, j);
      report := report + [record];
      i := j;
    }
    assert sorted[..i] == sorted;
    AggregatesSorted(port, logs, report);
  }

  // ---- what a report says -----------------------------------------------------------------

  lemma {:induction false} GroupBounds(logs: seq<ExecLog>)
    requires forall i :: 0 <= i < |logs| ==> 0 <= logs[i].totalDuration <= I64_MAX
    ensures forall i :: 0 <= i < |logs| ==> MinDuration(logs) <= logs[i].totalDuration <= MaxDuration(logs)
    ensures logs != [] ==> exists i :: 0 <= i < |logs| && logs[i].totalDuration == MaxDuration(logs)
    ensures logs != [] ==> exists i :: 0 <= i < |logs| && logs[i].totalDuration == MinDuration(logs)
    ensures Hits(logs) <= |logs|
  {
    if logs != [] {
      var init, last := logs[..|logs| - 1], logs[|logs| - 1];
      GroupBounds(init);
      if init != [] {
        var i :| 0 <= i < |init| && init[i].totalDuration == MaxDuration(init);
        var j :| 0 <= j < |init| && init[j].totalDuration == MinDuration(init);
        assert logs[i] == init[i] && logs[j] == init[j] && logs[|logs| - 1] == last;
      } else {
        assert logs[0] == last;
      }
    }
  }

  predicate ClockDurations(logs: seq<ExecLog>) {
    forall i :: 0 <= i < |logs| ==> 0 <= logs[i].totalDuration <= I64_MAX
  }

  /** A record that says the truth about its logs: extremes that bound and are
      attained, all executions counted, no more hits than executions, and the
      floor of the mean, cut off at the largest i32, as the average. */
  ghost predicate Exact(record: MetricHistory, group: seq<ExecLog>)
    requires group != []
  {
    var mean := Sum(Durations(group)) / |group|;
    && (forall i :: 0 <= i < |group| ==> record.minDuration <= group[i].totalDuration <= record.maxDuration)
    && (exists i :: 0 <= i < |group| && group[i].totalDuration == record.maxDuration)
    && (exists i :: 0 <= i < |group| && group[i].totalDuration == record.minDuration)
    && 0 <= record.cacheHitCount <= record.execCount == |group|
    && record.minDuration <= mean <= record.maxDuration
    && record.avgDuration == (if mean > I32_MAX then I32_MAX else mean)
  }

  lemma RecordExact(port: string, sql: string, group: seq<ExecLog>)
    requires group != [] && ClockDurations(group)
    ensures Exact(RecordOf(port, sql, group), group)
  {
    GroupBounds(group);
    var durations, low, high := Durations(group), MinDuration(group), MaxDuration(group);
    assert low >= 0 && high >= 0;
    assert forall i :: 0 <= i < |durations| ==> durations[i] == group[i].totalDuration;
    ReportedAverage(durations, low, high);
  }

  /** For durations a clock can give, every record of a report is exact about
      exactly the logs of its SQL text. */
  lemma ReportExact(port: string, logs: seq<ExecLog>, report: seq<MetricHistory>, r: int)
    requires Aggregates(port, logs, report) && 0 <= r < |report| && ClockDurations(logs)
    ensures var group := Of(logs, report[r].sqlStr);
            && group != [] && Exact(report[r], group) && report[r].dbServerPort == port
            && (forall log :: log in group <==> log in logs && log.sqlStr == report[r].sqlStr)
  {
    var group := Of(logs, report[r].sqlStr);
    OfMembers(logs, report[r].sqlStr);
    forall i | 0 <= i < |group|
      ensures 0 <= group[i].totalDuration <= I64_MAX
    {
      assert group[i] in logs;
    }
    RecordExact(port, report[r].sqlStr, group);
  }

  // ---- conservation -------------------------------------------------------------------------

  function TotalExecs(report: seq<MetricHistory>): nat {
    if report == [] then 0 else TotalExecs(report[..|report| - 1]) + report[|report| - 1].execCount
  }

  function TotalHits(report: seq<MetricHistory>): nat {
    if report == [] then 0 else TotalHits(report[..|report| - 1]) + report[|report| - 1].cacheHitCount
  }

  /** The logs of every other SQL text. */
  function Without(logs: seq<ExecLog>, sql: string): seq<ExecLog> {
    if logs == [] then []
    else (if logs[0].sqlStr == sql then [] else [logs[0]]) + Without(logs[1..], sql)
  }

  lemma {:induction false} HitsAppend(a: seq<ExecLog>, b: seq<ExecLog>)
    ensures Hits(a + b) == Hits(a) + Hits(b)
  {
    if b == [] {
      assert a + b == a;
    } else {
      assert (a + b)[..|a + b| - 1] == a + b[..|b| - 1];
      HitsAppend(a, b[..|b| - 1]);
    }
  }

  lemma {:induction false} WithoutSplits(logs: seq<ExecLog>, sql: string, key: string)
    ensures |logs| == |Of(logs, sql)| + |Without(logs, sql)|
    ensures Hits(logs) == Hits(Of(logs, sql)) + Hits(Without(logs, sql))
    ensures Of(Without(logs, sql), key) == if key == sql then [] else Of(logs, key)
    ensures forall log :: log in Without(logs, sql) <==> log in logs && log.sqlStr != sql
  {
    if logs != [] {
      WithoutSplits(logs[1..], sql, key);
      var first := [logs[0]];
      assert logs == first + logs[1..];
      HitsAppend(first, logs[1..]);
      HitsAppend(if logs[0].sqlStr == sql then first else [], Of(logs[1..], sql));
      HitsAppend(if logs[0].sqlStr == sql then [] else first, Without(logs[1..], sql));
      OfAppend(if logs[0].sqlStr == sql then [] else first, Without(logs[1..], sql), key);
    }
  }

  lemma InitRecord(port: string, logs: seq<ExecLog>, report: seq<MetricHistory>, i: nat)
    requires Aggregates(port, logs, report) && i < |report| - 1
    ensures Of(Without(logs, report[|report| - 1].sqlStr), report[i].sqlStr) == Of(logs, report[i].sqlStr)
  {
    var sql := report[|report| - 1].sqlStr;
    assert Less(report[i].sqlStr, sql);
    LessTotal(report[i].sqlStr, sql);
    WithoutSplits(logs, sql, report[i].sqlStr);
  }

  lemma {:induction false} WithoutIndex(logs: seq<ExecLog>, sql: string, k: nat) returns (m: nat)
    requires k < |Without(logs, sql)|
    ensures m < |logs| && logs[m] == Without(logs, sql)[k] && logs[m].sqlStr != sql
  {
    if logs[0].sqlStr != sql && k == 0 {
      m := 0;
    } else {
      m := WithoutIndex(logs[1..], sql, if logs[0].sqlStr == sql then k else k - 1);
      m := m + 1;
    }
  }

  lemma InitCovers(logs: seq<ExecLog>, report: seq<MetricHistory>, k: nat)
    requires report != [] && k < |Without(logs, report[|report| - 1].sqlStr)|
    requires forall m :: 0 <= m < |logs| ==> HasRecord(report, logs[m].sqlStr)
    ensures HasRecord(report[..|report| - 1], Without(logs, report[|report| - 1].sqlStr)[k].sqlStr)
  {
    var sql := report[|report| - 1].sqlStr;
    var log := Without(logs, sql)[k];
    var m := WithoutIndex(logs, sql, k);
    var i :| 0 <= i < |report| && report[i].sqlStr == log.sqlStr;
    assert report[..|report| - 1][i].sqlStr == log.sqlStr;
  }

  lemma AggregatesInit(port: string, logs: seq<ExecLog>, report: seq<MetricHistory>)
    requires Aggregates(port, logs, report) && report != []
    ensures Aggregates(port, Without(logs, report[|report| - 1].sqlStr), report[..|report| - 1])
  {
    var init, rest := report[..|report| - 1], Without(logs, report[|report| - 1].sqlStr);
    assert KeysIncrease(init);
    forall i | 0 <= i < |init|
      ensures Of(rest, init[i].sqlStr) != [] && init[i] == RecordOf(port, init[i].sqlStr, Of(rest, init[i].sqlStr))
    {
      InitRecord(port, logs, report, i);
      assert init[i] == report[i];
    }
    forall k | 0 <= k < |rest|
      ensures HasRecord(init, rest[k].sqlStr)
    {
      InitCovers(logs, report, k);
    }
  }

  lemma AggregatesSomething(port: string, logs: seq<ExecLog>, report: seq<MetricHistory>)
    requires Aggregates(port, logs, report)
    ensures logs != [] ==> report != []
  {
    if logs != [] {
      assert HasRecord(report, logs[0].sqlStr);
    }
  }

  /** A report accounts for every log of its batch, hits included. */
  lemma {:induction false} ReportConserves(port: string, logs: seq<ExecLog>, report: seq<MetricHistory>)
    requires Aggregates(port, logs, report)
    ensures TotalExecs(report) == |logs| && TotalHits(report) == Hits(logs)
    decreases |report|
  {
    AggregatesSomething(port, logs, report);
    if report != [] {
      var sql := report[|report| - 1].sqlStr;
      WithoutSplits(logs, sql, sql);
      AggregatesInit(port, logs, report);
      ReportConserves(port, Without(logs, sql), report[..|report| - 1]);
    }
  }

  // ---- batches ------------------------------------------------------------------------------

  ghost predicate AllAggregate(port: string, batches: seq<seq<ExecLog>>, reports: seq<seq<MetricHistory>>) {
    |batches| == |reports| && forall i :: 0 <= i < |batches| ==> Aggregates(port, batches[i], reports[i])
  }

  lemma AllInit(port: string, batches: seq<seq<ExecLog>>, reports: seq<seq<MetricHistory>>)
    requires AllAggregate(port, batches, reports) && batches != []
    ensures AllAggregate(port, batches[..|batches| - 1], reports[..|reports| - 1])
    ensures Aggregates(port, batches[|batches| - 1], reports[|reports| - 1])
  {
  }

  lemma {:induction false} ReportsConserve(port: string, batches: seq<seq<ExecLog>>, reports: seq<seq<MetricHistory>>)
    requires AllAggregate(port, batches, reports)
    ensures TotalExecs(Concat(reports)) == |Concat(batches)|
    ensures TotalHits(Concat(reports)) == Hits(Concat(batches))
  {
    if batches != [] {
      var n := |batches| - 1;
      AllInit(port, batches, reports);
      ReportsConserve(port, batches[..n], reports[..n]);
      ReportConserves(port, batches[n], reports[n]);
      TotalsAppend(Concat(reports[..n]), reports[n]);
      HitsAppend(Concat(batches[..n]), batches[n]);
    }
  }

  lemma {:induction false} TotalsAppend(a: seq<MetricHistory>, b: seq<MetricHistory>)
    ensures TotalExecs(a + b) == TotalExecs(a) + TotalExecs(b)
    ensures TotalHits(a + b) == TotalHits(a) + TotalHits(b)
  {
    if b == [] {
      assert a + b == a;
    } else {
      assert (a + b)[..|a + b| - 1] == a + b[..|b| - 1];
      TotalsAppend(a, b[..|b| - 1]);
    }
  }

  /** The records of one SQL text. */
  function RecordsOf(report: seq<MetricHistory>, sql: string): seq<MetricHistory> {
    if report == [] then []
    else RecordsOf(report[..|report| - 1], sql)
         + (if report[|report| - 1].sqlStr == sql then [report[|report| - 1]] else [])
  }

  datatype Merged = Merged(maxDuration: int, minDuration: int, execCount: nat, cacheHitCount: nat)

  const NOTHING := Merged(-1, I64_MAX, 0, 0)

  function Max(a: int, b: int): int {
    if a < b then b else a
  }

  function Min(a: int, b: int): int {
    if a > b then b else a
  }

  function Join(a: Merged, b: Merged): Merged {
    Merged(Max(a.maxDuration, b.maxDuration), Min(a.minDuration, b.minDuration),
           a.execCount + b.execCount, a.cacheHitCount + b.cacheHitCount)
  }

  lemma JoinAssociative(a: Merged, b: Merged, c: Merged)
    ensures Join(Join(a, b), c) == Join(a, Join(b, c))
  {
  }

  predicate Bounded(m: Merged) {
    m.maxDuration >= -1 && m.minDuration <= I64_MAX
  }

  lemma JoinNothing(m: Merged)
    requires Bounded(m)
    ensures Join(m, NOTHING) == m && Join(NOTHING, m) == m
  {
  }

  function Summary(group: seq<ExecLog>): Merged {
    Merged(MaxDuration(group), MinDuration(group), |group|, Hits(group))
  }

  function Fields(r: MetricHistory): Merged {
    Merged(r.maxDuration, r.minDuration, r.execCount, r.cacheHitCount)
  }

  /** The admin query over stored records: max, min and sums. */
  function Merge(records: seq<MetricHistory>): Merged {
    if records == [] then NOTHING
    else Join(Merge(records[..|records| - 1]), Fields(records[|records| - 1]))
  }

  lemma SummarySnoc(group: seq<ExecLog>, log: ExecLog)
    ensures Summary(group + [log])
         == Join(Summary(group), Merged(log.totalDuration, log.totalDuration, 1, if log.fromCache then 1 else 0))
  {
    GroupSnoc(group, log);
  }

  lemma {:induction false} SummaryBounded(group: seq<ExecLog>)
    ensures Bounded(Summary(group))
  {
    if group != [] {
      SummaryBounded(group[..|group| - 1]);
    }
  }

  lemma {:induction false} SummaryAppend(a: seq<ExecLog>, b: seq<ExecLog>)
    ensures Summary(a + b) == Join(Summary(a), Summary(b))
  {
    if b == [] {
      assert a + b == a;
      SummaryBounded(a);
      JoinNothing(Summary(a));
    } else {
      var init, last := b[..|b| - 1], b[|b| - 1];
      assert a + b == (a + init) + [last];
      assert b == init + [last];
      SummaryAppend(a, init);
      SummarySnoc(a + init, last);
      SummarySnoc(init, last);
      JoinAssociative(Summary(a), Summary(init),
                      Merged(last.totalDuration, last.totalDuration, 1, if last.fromCache then 1 else 0));
    }
  }

  lemma {:induction false} RecordsAppend(a: seq<MetricHistory>, b: seq<MetricHistory>, sql: string)
    ensures RecordsOf(a + b, sql) == RecordsOf(a, sql) + RecordsOf(b, sql)
  {
    if b == [] {
      assert a + b == a;
    } else {
      assert (a + b)[..|a + b| - 1] == a + b[..|b| - 1];
      RecordsAppend(a, b[..|b| - 1], sql);
    }
  }

  lemma {:induction false} MergeBounded(records: seq<MetricHistory>)
    ensures Bounded(Merge(records))
  {
    if records != [] {
      MergeBounded(records[..|records| - 1]);
    }
  }

  lemma {:induction false} MergeAppend(a: seq<MetricHistory>, b: seq<MetricHistory>)
    ensures Merge(a + b) == Join(Merge(a), Merge(b))
  {
    if b == [] {
      assert a + b == a;
      MergeBounded(a);
      JoinNothing(Merge(a));
    } else {
      var init, last := b[..|b| - 1], b[|b| - 1];
      assert (a + b)[..|a + b| - 1] == a + init;
      assert (a + b)[|a + b| - 1] == last;
      MergeAppend(a, init);
      JoinAssociative(Merge(a), Merge(init), Fields(last));
    }
  }

  /** Each report holds one record of a text it saw, and none of others. */
  lemma {:induction false} OneRecord(port: string, logs: seq<ExecLog>, report: seq<MetricHistory>, sql: string)
    requires Aggregates(port, logs, report)
    ensures Merge(RecordsOf(report, sql)) == Summary(Of(logs, sql))
    decreases |report|
  {
    AggregatesSomething(port, logs, report);
    if report != [] {
      var init, last := report[..|report| - 1], report[|report| - 1];
      var rest := Without(logs, last.sqlStr);
      AggregatesInit(port, logs, report);
      WithoutSplits(logs, last.sqlStr, sql);
      OneRecord(port, rest, init, sql);
      if sql == last.sqlStr {
        SummaryBounded(Of(logs, sql));
        assert Of(rest, sql) == [] && Merge(RecordsOf(init, sql)) == NOTHING;
        MergeOne(RecordsOf(init, sql), last);
      } else {
        assert RecordsOf(init, sql) + [] == RecordsOf(init, sql);
      }
    }
  }

  lemma MergeOne(records: seq<MetricHistory>, last: MetricHistory)
    requires Merge(records) == NOTHING && Bounded(Fields(last))
    ensures Merge(records + [last]) == Fields(last)
  {
    assert (records + [last])[..|records|] == records;
    JoinNothing(Fields(last));
  }

  /** How logs were cut into batches does not matter: merging the records of a
      text over all reports gives what one aggregation of everything gives. */
  lemma {:induction false} BatchesDoNotMatter(port: string, batches: seq<seq<ExecLog>>, reports: seq<seq<MetricHistory>>, sql: string)
    requires AllAggregate(port, batches, reports)
    ensures Merge(RecordsOf(Concat(reports), sql)) == Summary(Of(Concat(batches), sql))
  {
    if batches != [] {
      var n := |batches| - 1;
      AllInit(port, batches, reports);
      BatchesDoNotMatter(port, batches[..n], reports[..n], sql);
      OneRecord(port, batches[n], reports[n], sql);
      RecordsAppend(Concat(reports[..n]), reports[n], sql);
      MergeAppend(RecordsOf(Concat(reports[..n]), sql), RecordsOf(reports[n], sql));
      OfAppend(Concat(batches[..n]), batches[n], sql);
      SummaryAppend(Of(Concat(batches[..n]), sql), Of(batches[n], sql));
    }
  }

  // ---- the metrics job ---------------------------------------------------------------------

  /** The receiving end of the log channel. */
  class LogReceiver {
    var queue: seq<ExecLog>

    constructor (logs: seq<ExecLog>)
      ensures queue == logs
    {
      queue := logs;
    }

    method TryReceive() returns (log: Option<ExecLog>)
      modifies this
      ensures log == (if old(queue) == [] then None else Some(old(queue)[0]))
      ensures queue == (if old(queue) == [] then [] else old(queue)[1..])
    {
      if queue == [] {
        return None;
      }
      log := Some(queue[0]);
      queue := queue[1..];
    }

    /** One tick of the job: everything queued becomes one batch, in order, and
        a batch without logs is not reported. */
    method HandleMessages(port: string) returns (batch: seq<ExecLog>, report: Option<seq<MetricHistory>>)
      modifies this
      ensures batch == old(queue) && queue == []
      ensures report.None? <==> batch == []
      ensures report.Some? ==> Aggregates(port, batch, report.value)
    {
      batch := [];
      var more := true;
      while more
        invariant batch + queue == old(queue)
        invariant !more ==> queue == []
        decreases |queue|, more
      {
        var log := TryReceive();
        match log {
          case None =>
            more := false;
          case Some(entry) =>
            batch := batch + [entry];
        }
      }
      if batch == [] {
        return batch, None;
      }
      var records := HandleMetrics(port, batch);
      report := Some(records);
    }
  }
}
