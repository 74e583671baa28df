/**
  Summary of a benchmark run: interpolated latency percentiles and per-benchmark aggregates.
 */
module BenchmarkSummary {
  import opened Collections
  import opened Corpus
  import opened Ordering
  import opened RankingMetrics

  // ---------------------------------------------------------------- percentiles

  function Ceiling(x: real): int {
    -((-x).Floor)
  }

  function Blend(low: real, gap: real, part: real): real {
    low + gap * part
  }

  lemma BlendBracketed(low: real, gap: real, part: real)
    requires 0.0 <= gap && 0.0 <= part <= 1.0
    ensures low <= Blend(low, gap, part) <= low + gap
  {
  }

  lemma BlendMonotone(low: real, gap: real, s: real, t: real)
    requires 0.0 <= gap && s <= t
    ensures Blend(low, gap, s) <= Blend(low, gap, t)
  {
  }

  /** Linear interpolation between the two order statistics around `position`. */
  function Interpolate(ordered: seq<real>, position: real): real
    requires 0.0 <= position <= (|ordered| - 1) as real
  {
    var lower, upper := position.Floor, Ceiling(position);
    if lower == upper then ordered[lower]
    else Blend(ordered[lower], ordered[upper] - ordered[lower], position - lower as real)
  }

  /** `(len(ordered) - 1) * percentile` */
  function Position(n: nat, p: real): (r: real)
    requires n > 0 && 0.0 <= p <= 1.0
    ensures 0.0 <= r <= (n - 1) as real
  {
    ProductBetween((n - 1) as real, p);
    (n - 1) as real * p
  }

  lemma PositionMonotone(n: nat, p: real, q: real)
    requires n > 0 && 0.0 <= p <= q <= 1.0
    ensures Position(n, p) <= Position(n, q)
  {
    SlopeMonotone((n - 1) as real, p, q);
  }

  lemma ProductBetween(m: real, t: real)
    requires 0.0 <= m && 0.0 <= t <= 1.0
    ensures 0.0 <= m * t <= m
  {
  }

  function Percentile(values: seq<real>, p: real): real
    requires 0.0 <= p <= 1.0
  {
    if values == [] then 0.0 else Interpolate(Ascending(values), Position(|values|, p))
  }

  lemma FloorAndCeiling(position: real, n: nat)
    requires 0.0 <= position <= n as real
    ensures 0 <= position.Floor <= Ceiling(position) <= n
    ensures Ceiling(position) <= position.Floor + 1
    ensures 0.0 <= position - position.Floor as real <= 1.0
  {
  }

  lemma InterpolateBracketed(ordered: seq<real>, position: real)
    requires IsAscending(ordered)
    requires 0.0 <= position <= (|ordered| - 1) as real
    ensures ordered[position.Floor] <= Interpolate(ordered, position) <= ordered[Ceiling(position)]
  {
    hide Blend;
    var lower, upper := position.Floor, Ceiling(position);
    FloorAndCeiling(position, |ordered| - 1);
    if lower != upper {
      assert ordered[lower] <= ordered[upper];
      BlendBracketed(ordered[lower], ordered[upper] - ordered[lower], position - lower as real);
    }
  }

  lemma InterpolateMonotone(ordered: seq<real>, a: real, b: real)
    requires IsAscending(ordered)
    requires 0.0 <= a <= b <= (|ordered| - 1) as real
    ensures Interpolate(ordered, a) <= Interpolate(ordered, b)
  {
    InterpolateBracketed(ordered, a);
    InterpolateBracketed(ordered, b);
    var lower, upper := a.Floor, Ceiling(a);
    FloorAndCeiling(a, |ordered| - 1);
    FloorAndCeiling(b, |ordered| - 1);
    if upper <= b.Floor {
      assert Interpolate(ordered, a) <= ordered[upper] <= ordered[b.Floor] <= Interpolate(ordered, b);
    } else {
      assert b.Floor == lower && Ceiling(b) == upper && lower != upper;
      hide Blend;
      assert ordered[lower] <= ordered[upper];
      BlendMonotone(ordered[lower], ordered[upper] - ordered[lower], a - lower as real, b - lower as real);
    }
  }

  lemma SlopeMonotone(gap: real, s: real, t: real)
    requires gap >= 0.0 && s <= t
    ensures gap * s <= gap * t
  {
  }

  /** A percentile lies between its two neighbouring order statistics. */
  lemma PercentileBracketed(values: seq<real>, p: real)
    requires values != [] && 0.0 <= p <= 1.0
    ensures
      var position := Position(|values|, p);
      && 0 <= position.Floor <= Ceiling(position) < |values|
      && Ascending(values)[position.Floor] <= Percentile(values, p) <= Ascending(values)[Ceiling(position)]
  {
    FloorAndCeiling(Position(|values|, p), |values| - 1);
    InterpolateBracketed(Ascending(values), Position(|values|, p));
  }

  /** The 0th percentile is the minimum and the 100th the maximum. */
  lemma PercentileExtremes(values: seq<real>)
    requires values != []
    ensures Percentile(values, 0.0) in values && Percentile(values, 1.0) in values
    ensures forall v :: v in values ==> Percentile(values, 0.0) <= v <= Percentile(values, 1.0)
  {
    var ordered := Ascending(values);
    assert Position(|values|, 0.0) == 0.0 && Position(|values|, 1.0) == (|values| - 1) as real;
    hide Ascending, Position, Blend;
    assert Percentile(values, 0.0) == ordered[0] && Percentile(values, 1.0) == ordered[|values| - 1];
    assert ordered[0] in multiset(ordered) && ordered[|values| - 1] in multiset(ordered);
    forall v | v in values ensures ordered[0] <= v <= ordered[|values| - 1] {
      assert v in multiset(ordered);
    }
  }

  /** Percentiles never decrease, across all breakpoints. */
  lemma PercentileMonotone(values: seq<real>, p: real, q: real)
    requires 0.0 <= p <= q <= 1.0
    ensures Percentile(values, p) <= Percentile(values, q)
  {
    if values != [] {
      PositionMonotone(|values|, p, q);
      InterpolateMonotone(Ascending(values), Position(|values|, p), Position(|values|, q));
    }
  }

  /** Percentiles do not depend on the order of the values. */
  lemma PercentileOrderFree(a: seq<real>, b: seq<real>, p: real)
    requires multiset(a) == multiset(b)
    requires 0.0 <= p <= 1.0
    ensures Percentile(a, p) == Percentile(b, p)
  {
    assert |a| == |multiset(a)| == |multiset(b)| == |b|;
    assert multiset(Ascending(a)) == multiset(Ascending(b));
    AscendingIsUnique(Ascending(a), Ascending(b));
  }

  /**
    Between `i` and `i + 1` parts of the way through the sorted values the percentile is the straight
    line from one to the other, and it is the value itself at both ends.
   */
  lemma PercentileIsLinear(values: seq<real>, i: nat, part: real, p: real)
    requires i + 1 < |values| && 0.0 <= part <= 1.0 && 0.0 <= p <= 1.0
    requires p * (|values| - 1) as real == i as real + part
    ensures
      var ordered := Ascending(values);
      Percentile(values, p) == ordered[i] + (ordered[i + 1] - ordered[i]) * part
  {
    hide Ascending;
    var ordered, position := Ascending(values), Position(|values|, p);
    assert position == i as real + part;
    if part == 0.0 {
      assert position.Floor == i && Ceiling(position) == i;
    } else if part == 1.0 {
      assert position.Floor == i + 1 && Ceiling(position) == i + 1;
      assert (ordered[i + 1] - ordered[i]) * part == ordered[i + 1] - ordered[i];
    } else {
      assert position.Floor == i && Ceiling(position) == i + 1;
    }
  }

  /** Every percentile of one value is that value, and of no value 0. */
  lemma PercentileOfFew(value: real, p: real)
    requires 0.0 <= p <= 1.0
    ensures Percentile([value], p) == value && Percentile([], p) == 0.0
  {
    assert Position(1, p) == 0.0;
    assert Ascending([value]) == [value];
  }

  // ---------------------------------------------------------------- aggregation

  datatype Row = Row(
    benchmark: string,
    retrieved: seq<DocId>,
    latencyMs: real,
    vectorDegraded: bool,
    rerankDegraded: bool,
    metrics: MetricKey -> real)

  datatype Summary = Summary(
    queries: nat,
    emptyRate: real,
    latencyP50: real,
    latencyP95: real,
    vectorDegraded: nat,
    rerankDegraded: nat,
    metrics: MetricKey -> real)

  const COMBINED := "combined"

  /** The figures of a summary that are totals over its rows (a mean counts times its row count). */
  datatype Figure = Queries | Empty | VectorDegraded | RerankDegraded | Weighted(key: MetricKey)

  /** What one row contributes to a figure. */
  function Weight(figure: Figure, row: Row): real {
    match figure
    case Queries => 1.0
    case Empty => if row.retrieved == [] then 1.0 else 0.0
    case VectorDegraded => if row.vectorDegraded then 1.0 else 0.0
    case RerankDegraded => if row.rerankDegraded then 1.0 else 0.0
    case Weighted(key) => row.metrics(key)
  }

  function Sum(rows: seq<Row>, figure: Figure): real {
    if rows == [] then 0.0 else Sum(rows[..|rows| - 1], figure) + Weight(figure, rows[|rows| - 1])
  }

  function Count(rows: seq<Row>, flag: Row -> bool): nat {
    if rows == [] then 0 else Count(rows[..|rows| - 1], flag) + if flag(rows[|rows| - 1]) then 1 else 0
  }

  /** `sum(...) / len(items) if items else 0.0` */
  function Mean(rows: seq<Row>, figure: Figure): (r: real)
    ensures r * |rows| as real == Sum(rows, figure)
  {
    if rows == [] then 0.0 else Sum(rows, figure) / |rows| as real
  }

  function Latencies(rows: seq<Row>): (r: seq<real>)
    ensures |r| == |rows| && forall i :: 0 <= i < |rows| ==> r[i] == rows[i].latencyMs
  {
    seq(|rows|, i requires 0 <= i < |rows| => rows[i].latencyMs)
  }

  function Summarize(rows: seq<Row>): Summary {
    Summary(
      |rows|,
      Mean(rows, Empty),
      Percentile(Latencies(rows), 0.5),
      Percentile(Latencies(rows), 0.95),
      Count(rows, (r: Row) => r.vectorDegraded),
      Count(rows, (r: Row) => r.rerankDegraded),
      key => Mean(rows, Weighted(key)))
  }

  ghost function RowsOf(rows: seq<Row>, name: string): seq<Row> {
    if rows == [] then []
    else
      RowsOf(rows[..|rows| - 1], name) +
      if rows[|rows| - 1].benchmark == name then [rows[|rows| - 1]] else []
  }

  ghost function Benchmarks(rows: seq<Row>): set<string> {
    set i | 0 <= i < |rows| :: rows[i].benchmark
  }

  /** The rows behind a summary: "combined" stands for all rows, any other name for its own. */
  ghost function GroupOf(rows: seq<Row>, name: string): seq<Row> {
    if name == COMBINED then rows else RowsOf(rows, name)
  }

  /** `groups`: the rows of every benchmark, in order. */
  method GroupRows(rows: seq<Row>) returns (groups: map<string, seq<Row>>)
    ensures groups.Keys == Benchmarks(rows)
    ensures forall name :: name in groups ==> groups[name] == RowsOf(rows, name)
  {
    groups := map[];
    for i := 0 to |rows|
      invariant groups.Keys == Benchmarks(rows[..i])
      invariant forall name :: name in groups ==> groups[name] == RowsOf(rows[..i], name)
    {
      var row := rows[i];
      assert rows[..i + 1][..i] == rows[..i];
      if row.benchmark !in groups {
        AbsentHasNoRows(rows[..i], row.benchmark);
      }
      groups := groups[row.benchmark :=
        (if row.benchmark in groups then groups[row.benchmark] else []) + [row]];
      BenchmarksOfNext(rows, i);
    }
    assert rows[..|rows|] == rows;
  }

  method SummarizeGroups(groups: map<string, seq<Row>>) returns (result: map<string, Summary>)
    ensures result.Keys == groups.Keys
    ensures forall name :: name in groups ==> result[name] == Summarize(groups[name])
  {
    hide Summarize;
    result := map[];
    var pending := groups.Keys;
    while pending != {}
      invariant pending <= groups.Keys
      invariant forall name :: name in result <==> name in groups && name !in pending
      invariant forall name :: name in result ==> result[name] == Summarize(groups[name])
      decreases |pending|
    {
      var name :| name in pending;
      result := result[name := Summarize(groups[name])];
      pending := pending - {name};
    }
  }

  /** The rows for which nothing was retrieved, by position. */
  ghost function EmptyRows(rows: seq<Row>): set<nat> {
    set i: nat | i < |rows| && rows[i].retrieved == [] :: i
  }

  /** The two percentiles and the share of rows for which nothing was retrieved. */
  ghost predicate HasFigures(summary: Summary, rows: seq<Row>) {
    && summary.latencyP50 == Percentile(Latencies(rows), 0.5)
    && summary.latencyP95 == Percentile(Latencies(rows), 0.95)
    && summary.emptyRate * |rows| as real == |EmptyRows(rows)| as real
  }

  ghost function Aggregated(rows: seq<Row>): map<string, Summary> {
    map name | name in Benchmarks(rows) + {COMBINED} :: Summarize(GroupOf(rows, name))
  }

  /** `aggregate`: one summary for every benchmark and one for all rows together. */
  method Aggregate(rows: seq<Row>) returns (result: map<string, Summary>)
    ensures result == Aggregated(rows)
    ensures forall name :: name in result ==> HasFigures(result[name], GroupOf(rows, name))
  {
    hide Summarize, HasFigures, RowsOf, Benchmarks;
    var groups := GroupRows(rows);
    groups := groups[COMBINED := rows];
    result := SummarizeGroups(groups);
    forall name | name in result
      ensures HasFigures(result[name], GroupOf(rows, name))
    {
      FiguresOfSummary(GroupOf(rows, name));
    }
  }

  lemma FiguresOfSummary(rows: seq<Row>)
    ensures HasFigures(Summarize(rows), rows)
  {
    hide Percentile, Latencies;
    EmptyRowsAreCounted(rows);
  }

  lemma {:induction false} EmptyRowsAreCounted(rows: seq<Row>)
    ensures Sum(rows, Empty) == |EmptyRows(rows)| as real
  {
    if rows == [] {
    } else {
      var n := |rows| - 1;
      EmptyRowsAreCounted(rows[..n]);
      assert EmptyRows(rows) ==
             EmptyRows(rows[..n]) + if rows[n].retrieved == [] then {n} else {};
    }
  }

  lemma BenchmarksOfNext(rows: seq<Row>, i: nat)
    requires i < |rows|
    ensures Benchmarks(rows[..i + 1]) == Benchmarks(rows[..i]) + {rows[i].benchmark}
  {
  }

  lemma {:induction false} AbsentHasNoRows(rows: seq<Row>, name: string)
    requires name !in Benchmarks(rows)
    ensures RowsOf(rows, name) == []
  {
    if rows == [] {
    } else {
      var init := rows[..|rows| - 1];
      assert rows[|rows| - 1].benchmark in Benchmarks(rows);
      forall i | 0 <= i < |init| ensures init[i].benchmark != name {
        assert rows[i].benchmark in Benchmarks(rows);
      }
      AbsentHasNoRows(init, name);
    }
  }

  // ---------------------------------------------------------------- groups partition the rows

  /** A figure summed group by group over the listed benchmarks. */
  ghost function SumByGroup(rows: seq<Row>, names: seq<string>, figure: Figure): real {
    if names == [] then 0.0
    else SumByGroup(rows, names[..|names| - 1], figure) + Sum(RowsOf(rows, names[|names| - 1]), figure)
  }

  lemma {:induction false} SumByGroupOfNext(rows: seq<Row>, row: Row, names: seq<string>, figure: Figure)
    requires Distinct(names)
    ensures SumByGroup(rows + [row], names, figure)
         == SumByGroup(rows, names, figure) + if row.benchmark in names then Weight(figure, row) else 0.0
  {
    if names == [] {
    } else {
      var init, name := names[..|names| - 1], names[|names| - 1];
      assert names == init + [name];
      SumByGroupOfNext(rows, row, init, figure);
      assert (rows + [row])[..|rows|] == rows;
      var group := RowsOf(rows, name);
      if row.benchmark == name {
        assert (group + [row])[..|group|] == group;
        assert name !in init;
      } else {
        assert RowsOf(rows + [row], name) == group;
      }
    }
  }

  /** Any figure, summed group by group over all benchmarks, gives its sum over all rows. */
  lemma {:induction false} GroupsPartitionRows(rows: seq<Row>, names: seq<string>, figure: Figure)
    requires Distinct(names)
    requires forall name :: name in Benchmarks(rows) ==> name in names
    ensures SumByGroup(rows, names, figure) == Sum(rows, figure)
  {
    if rows == [] {
      NoRowsNoSum(names, figure);
    } else {
      var init, row := rows[..|rows| - 1], rows[|rows| - 1];
      assert rows == init + [row];
      BenchmarksOfNext(rows, |init|);
      assert rows[..|rows|] == rows;
      GroupsPartitionRows(init, names, figure);
      SumByGroupOfNext(init, row, names, figure);
    }
  }

  lemma {:induction false} NoRowsNoSum(names: seq<string>, figure: Figure)
    ensures SumByGroup([], names, figure) == 0.0
  {
    if names == [] {
    } else {
      NoRowsNoSum(names[..|names| - 1], figure);
    }
  }

  /** The figure as it can be read off a summary. */
  ghost function Reading(summary: Summary, figure: Figure): real {
    match figure
    case Queries => summary.queries as real
    case Empty => summary.emptyRate * summary.queries as real
    case VectorDegraded => summary.vectorDegraded as real
    case RerankDegraded => summary.rerankDegraded as real
    case Weighted(key) => summary.metrics(key) * summary.queries as real
  }

  lemma ReadingIsSum(rows: seq<Row>, figure: Figure)
    ensures Reading(Summarize(rows), figure) == Sum(rows, figure)
  {
    hide Percentile;
    match figure
    case Queries => LengthIsSum(rows);
    case Empty =>
    case VectorDegraded => CountIsSum(rows, (r: Row) => r.vectorDegraded, VectorDegraded);
    case RerankDegraded => CountIsSum(rows, (r: Row) => r.rerankDegraded, RerankDegraded);
    case Weighted(_) =>
  }

  lemma {:induction false} CountIsSum(rows: seq<Row>, flag: Row -> bool, figure: Figure)
    requires forall r :: Weight(figure, r) == if flag(r) then 1.0 else 0.0
    ensures Count(rows, flag) as real == Sum(rows, figure)
  {
    if rows == [] {
    } else {
      CountIsSum(rows[..|rows| - 1], flag, figure);
    }
  }

  lemma {:induction false} LengthIsSum(rows: seq<Row>)
    ensures |rows| as real == Sum(rows, Queries)
  {
    if rows == [] {
    } else {
      LengthIsSum(rows[..|rows| - 1]);
    }
  }

  /** What a figure adds up to over the summaries of the listed groups. */
  ghost function Reported(rows: seq<Row>, names: seq<string>, figure: Figure): real {
    if names == [] then 0.0
    else
      var last := names[|names| - 1];
      Reported(rows, names[..|names| - 1], figure) +
      if last in Aggregated(rows) then Reading(Aggregated(rows)[last], figure) else 0.0
  }

  /** `names` lists every reported group except "combined", each once. */
  ghost predicate ListsGroups(rows: seq<Row>, names: seq<string>) {
    && Distinct(names)
    && forall name :: name in names <==> name in Benchmarks(rows) && name != COMBINED
  }

  lemma {:induction false} ReportedIsSumByGroup(rows: seq<Row>, names: seq<string>, figure: Figure)
    requires COMBINED !in names
    ensures Reported(rows, names, figure) == SumByGroup(rows, names, figure)
  {
    hide Summarize, Weight, Reading;
    if names == [] {
    } else {
      var name := names[|names| - 1];
      ReportedIsSumByGroup(rows, names[..|names| - 1], figure);
      ReadingIsSum(RowsOf(rows, name), figure);
      if name !in Benchmarks(rows) {
        AbsentHasNoRows(rows, name);
      }
    }
  }

  /**
    Every figure of the groups falls short of the combined figure by exactly what the rows of a
    benchmark named "combined" contribute: the entry of that benchmark is overwritten. Without
    such a benchmark the groups' counts add up, and every combined metric is the mean of the group
    metrics weighted by their query counts.
   */
  lemma GroupFiguresAddUp(rows: seq<Row>, names: seq<string>, figure: Figure)
    requires ListsGroups(rows, names)
    ensures Reported(rows, names, figure) + Sum(RowsOf(rows, COMBINED), figure)
         == Reading(Aggregated(rows)[COMBINED], figure)
    ensures COMBINED !in Benchmarks(rows)
            ==> Reported(rows, names, figure) == Reading(Aggregated(rows)[COMBINED], figure)
  {
    hide Summarize, Weight, Reading;
    ReportedIsSumByGroup(rows, names, figure);
    var all := names + [COMBINED];
    assert all[..|names|] == names;
    GroupsPartitionRows(rows, all, figure);
    ReadingIsSum(rows, figure);
    if COMBINED !in Benchmarks(rows) {
      AbsentHasNoRows(rows, COMBINED);
    }
  }

  /** The groups' query counts add up to the combined count iff no benchmark is named "combined". */
  lemma QueriesAddUpIff(rows: seq<Row>, names: seq<string>)
    requires ListsGroups(rows, names)
    ensures Reported(rows, names, Queries) == Aggregated(rows)[COMBINED].queries as real
            <==> COMBINED !in Benchmarks(rows)
  {
    hide Summarize, Weight;
    GroupFiguresAddUp(rows, names, Queries);
    LengthIsSum(RowsOf(rows, COMBINED));
    if COMBINED in Benchmarks(rows) {
      PresentHasRows(rows, COMBINED);
    }
  }

  lemma {:induction false} PresentHasRows(rows: seq<Row>, name: string)
    requires name in Benchmarks(rows)
    ensures RowsOf(rows, name) != []
  {
    var init := rows[..|rows| - 1];
    if rows[|rows| - 1].benchmark != name {
      var i :| 0 <= i < |rows| && rows[i].benchmark == name;
      assert init[i].benchmark == name;
      PresentHasRows(init, name);
    }
  }
}
