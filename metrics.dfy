/**
 * Telemetry replies and the adapter's reduction of them: grouping raw rows
 * by workload (group_metric_result, group_metrics_by_service), the sample
 * window check of get_metrics, and per-service means
 * (compute_mean_by_service).
 */
module Metrics {
  import opened Wrappers
  import opened Lists

  /** The metric identifiers the adapter reads, as in `metric_types`. */
  const LatencyId: string := "sysdig_container_net_http_request_time"
  const ErrorRateId: string := "sysdig_container_net_http_statuscode_request_count"
  const CpuUsedId: string := "sysdig_container_cpu_used_percent"
  const MemoryUsedId: string := "sysdig_container_memory_used_percent"

  /** The key column of every query: samples are keyed by workload name. */
  const KeyId: string := "kube_workload_name"

  /** Width of one sample in seconds, and the most samples one query may span. */
  const Sampling: int := 10
  const MaxSamples: int := 600

  /** The dimensions `compute_mean_by_service` is asked for. */
  datatype Dim = Latency | ErrorRate | CpuUsed | MemoryUsed

  function MetricType(dim: Dim): string
  {
    match dim
    case Latency => LatencyId
    case ErrorRate => ErrorRateId
    case CpuUsed => CpuUsedId
    case MemoryUsed => MemoryUsedId
  }

  /** One row `{'d': [workload, v0, v1, ...]}` of a reply: `values` is `d[1..]`, one value per requested metric. */
  datatype Sample = Sample(workload: string, values: seq<real>)

  /**
   * A Python `dict` from workload name to its list of samples: the keys in
   * insertion order, and the lists.
   */
  datatype Series = Series(names: seq<string>, columns: map<string, seq<real>>)

  /** A Python `dict` from metric id to its Series: the ids in insertion order, and the series. */
  datatype MetricMap = MetricMap(ids: seq<string>, series: map<string, Series>)

  /** A Series a Python dict can be: each workload listed once, and listed exactly when it has a column. */
  predicate SeriesWellFormed(s: Series)
  {
    NoDuplicates(s.names) && (set w | w in s.names) == s.columns.Keys
  }

  /** A MetricMap a Python dict can be: each id listed once, listed exactly when it has a series, every series well formed. */
  predicate WellFormed(m: MetricMap)
  {
    && NoDuplicates(m.ids)
    && (set id | id in m.ids) == m.series.Keys
    && forall id :: id in m.series ==> SeriesWellFormed(m.series[id])
  }

  /** One requested metric of a metric group: its id and its aggregation (`{"group": ...}`). */
  datatype MetricRequest = MetricRequest(id: string, group: string)

  /** A column of a query: the key column, or a metric with its aggregation. */
  datatype MetricSpec = KeyColumn(id: string) | ValueColumn(id: string, group: string)

  /** The arguments `sdclient.get_data` is called with. */
  datatype Query = Query(metrics: seq<MetricSpec>, start: int, end: int, sampling: int, filter: string)

  /** The backend's answer to a query: `(True, {'data': rows})` or `(False, message)`. */
  datatype Reply = Fetched(data: seq<Sample>) | Failed(message: string)

  /** Every row carries at least `width` metric values. */
  predicate RowsHold(data: seq<Sample>, width: nat)
  {
    forall k :: 0 <= k < |data| ==> width <= |data[k].values|
  }

  /** The workload name of every row, in row order. */
  function Workloads(data: seq<Sample>): seq<string>
  {
    if data == [] then [] else Workloads(data[..|data| - 1]) + [data[|data| - 1].workload]
  }

  /** The values at position `index` of the rows of one workload, in row order. */
  function Column(data: seq<Sample>, workload: string, index: nat): (column: seq<real>)
    requires RowsHold(data, index + 1)
    ensures |column| <= |data|
    ensures |column| > 0 <==> workload in Workloads(data)
  {
    if data == [] then []
    else
      var init, last := data[..|data| - 1], data[|data| - 1];
      var column := Column(init, workload, index);
      if last.workload == workload then column + [last.values[index]] else column
  }

  /** Every workload of the reply, mapped to its column of values at `index`. */
  function ColumnsAt(data: seq<Sample>, index: nat): map<string, seq<real>>
    requires RowsHold(data, index + 1)
  {
    map w | w in Workloads(data) :: Column(data, w, index)
  }

  /** A value is in a workload's column exactly when some row of that workload carries it at `index`. */
  lemma {:induction false} ColumnHoldsRows(data: seq<Sample>, workload: string, index: nat, v: real)
    requires RowsHold(data, index + 1)
    ensures v in Column(data, workload, index) <==>
            exists k :: 0 <= k < |data| && data[k].workload == workload && data[k].values[index] == v
  {
    if data != [] {
      var init := data[..|data| - 1];
      ColumnHoldsRows(init, workload, index, v);
      if exists k :: 0 <= k < |data| && data[k].workload == workload && data[k].values[index] == v {
        var k :| 0 <= k < |data| && data[k].workload == workload && data[k].values[index] == v;
        if k < |init| {
          assert init[k] == data[k];
        }
      }
      if exists k :: 0 <= k < |init| && init[k].workload == workload && init[k].values[index] == v {
        var k :| 0 <= k < |init| && init[k].workload == workload && init[k].values[index] == v;
        assert data[k] == init[k];
      }
    }
  }

  /** Adding one row appends its value to its workload's column and leaves every other column alone. */
  lemma ColumnsAtAppend(data: seq<Sample>, index: nat)
    requires data != [] && RowsHold(data, index + 1)
    ensures var init, last := data[..|data| - 1], data[|data| - 1];
            var before := ColumnsAt(init, index);
            var w := last.workload;
            ColumnsAt(data, index) == before[w := (if w in before then before[w] else []) + [last.values[index]]]
  {
    var init, last := data[..|data| - 1], data[|data| - 1];
    var before := ColumnsAt(init, index);
    var w := last.workload;
    var after := before[w := (if w in before then before[w] else []) + [last.values[index]]];
    assert ColumnsAt(data, index).Keys == after.Keys;
    forall u | u in after ensures ColumnsAt(data, index)[u] == after[u] {
      if u != w {
        assert Column(data, u, index) == Column(init, u, index);
      }
    }
  }

  /**
   * Buckets the `index`-th value of every row under the row's workload
   * name, appending in row order to a defaultdict(list).
   */
  method GroupMetricResult(index: nat, data: seq<Sample>) returns (grouped: Series)
    requires RowsHold(data, index + 1)
    ensures grouped.names == Distinct(Workloads(data))
    ensures grouped.columns == ColumnsAt(data, index)
  {
    var names: seq<string> := [];
    var columns: map<string, seq<real>> := map[];
    for i := 0 to |data|
      invariant names == Distinct(Workloads(data[..i]))
      invariant columns == ColumnsAt(data[..i], index)
    {
      var w := data[i].workload;
      ghost var next := data[..i + 1];
      assert |next| == i + 1 && next[..i] == data[..i] && next[i] == data[i];
      ColumnsAtAppend(next, index);
      assert Workloads(next) == Workloads(data[..i]) + [w];
      if w in columns {
        columns := columns[w := columns[w] + [data[i].values[index]]];
      } else {
        names := names + [w];
        assert [] + [data[i].values[index]] == [data[i].values[index]];
        columns := columns[w := [data[i].values[index]]];
      }
    }
    assert data[..|data|] == data;
    grouped := Series(names, columns);
  }

  /** The grouping of a reply for the metrics `ids`: `ids[i]` maps to the grouping of value `i` of every row. */
  predicate GroupedFrom(grouped: MetricMap, ids: seq<string>, data: seq<Sample>)
    requires RowsHold(data, |ids|)
  {
    && grouped.ids == ids
    && grouped.series.Keys == (set m | m in ids)
    && forall i :: 0 <= i < |ids| ==>
         grouped.series[ids[i]] == Series(Distinct(Workloads(data)), ColumnsAt(data, i))
  }

  /** A grouping of a reply for distinct metric ids is a map a Python dict can be. */
  lemma GroupedIsWellFormed(grouped: MetricMap, ids: seq<string>, data: seq<Sample>)
    requires NoDuplicates(ids) && RowsHold(data, |ids|)
    requires GroupedFrom(grouped, ids, data)
    ensures WellFormed(grouped)
  {
    forall id | id in grouped.series
      ensures SeriesWellFormed(grouped.series[id])
    {
      var i :| 0 <= i < |ids| && ids[i] == id;
      var s := grouped.series[id];
      assert s == Series(Distinct(Workloads(data)), ColumnsAt(data, i));
      assert (set w | w in s.names) == (set w | w in Workloads(data)) == s.columns.Keys;
    }
  }

  /** Groups a reply once per requested metric, in the order the metrics were requested. */
  method GroupMetricsByService(ids: seq<string>, data: seq<Sample>) returns (grouped: MetricMap)
    requires NoDuplicates(ids)
    requires RowsHold(data, |ids|)
    ensures GroupedFrom(grouped, ids, data)
  {
    var series: map<string, Series> := map[];
    for i := 0 to |ids|
      invariant series.Keys == (set m | m in ids[..i])
      invariant forall k :: 0 <= k < i ==>
                  series[ids[k]] == Series(Distinct(Workloads(data)), ColumnsAt(data, k))
    {
      var byService := GroupMetricResult(i, data);
      series := series[ids[i] := byService];
      assert ids[..i + 1] == ids[..i] + [ids[i]];
    }
    assert ids[..|ids|] == ids;
    grouped := MetricMap(ids, series);
  }

  /** True when a window reaching `start` seconds back would need more than 600 samples of 10 seconds. */
  function WindowTooLarge(start: int): (tooLarge: bool)
    ensures tooLarge <==> start < -6000
  {
    start < 0 && (start as real) / (-Sampling as real) > MaxSamples as real
  }

  function Ids(group: seq<MetricRequest>): seq<string>
  {
    seq(|group|, i requires 0 <= i < |group| => group[i].id)
  }

  function Columns(group: seq<MetricRequest>): seq<MetricSpec>
  {
    seq(|group|, i requires 0 <= i < |group| => ValueColumn(group[i].id, group[i].group))
  }

  /**
   * Pulls one metric group. A window that would need more than 600
   * samples is refused before any query is issued; otherwise the query
   * goes out, and `reply` stands for the backend's answer to it.
   */
  method GetMetrics(group: seq<MetricRequest>, filter: string, start: int, end: int, reply: Reply)
    returns (query: Option<Query>, grouped: Option<MetricMap>)
    requires NoDuplicates(Ids(group))
    requires reply.Fetched? ==> RowsHold(reply.data, |group|)
    ensures query.None? <==> start < -6000
    ensures query.Some? ==>
              query.value == Query([KeyColumn(KeyId)] + Columns(group), start, end, Sampling, filter)
    ensures grouped.Some? <==> query.Some? && reply.Fetched?
    ensures grouped.Some? ==> GroupedFrom(grouped.value, Ids(group), reply.data)
    ensures grouped.Some? ==> WellFormed(grouped.value)
  {
    if WindowTooLarge(start) {
      return None, None;
    }
    query := Some(Query([KeyColumn(KeyId)] + Columns(group), start, end, Sampling, filter));
    match reply
    case Fetched(data) =>
      var byService := GroupMetricsByService(Ids(group), data);
      GroupedIsWellFormed(byService, Ids(group), data);
      grouped := Some(byService);
    case Failed(_) =>
      grouped := None;
  }

  function Sum(xs: seq<real>): real
  {
    if xs == [] then 0.0 else Sum(xs[..|xs| - 1]) + xs[|xs| - 1]
  }

  /** The arithmetic mean of a non-empty list (`statistics.mean`, over exact reals). */
  function Mean(xs: seq<real>): (m: real)
    requires |xs| > 0
    ensures m * (|xs| as real) == Sum(xs)
  {
    Sum(xs) / (|xs| as real)
  }

  /** The adapter's policy for a service's samples: no samples gives 0, otherwise their mean. */
  function MeanOrZero(xs: seq<real>): (m: real)
    ensures |xs| == 0 ==> m == 0.0
    ensures |xs| > 0 ==> m * (|xs| as real) == Sum(xs)
  {
    if |xs| == 0 then 0.0 else Mean(xs)
  }

  lemma {:induction false} SumBounds(xs: seq<real>, lo: real, hi: real)
    requires forall k :: 0 <= k < |xs| ==> lo <= xs[k] <= hi
    ensures (|xs| as real) * lo <= Sum(xs) <= (|xs| as real) * hi
  {
    if xs != [] {
      var init := xs[..|xs| - 1];
      assert forall k :: 0 <= k < |init| ==> init[k] == xs[k];
      SumBounds(init, lo, hi);
      var m := |init| as real;
      assert (|xs| as real) * lo == m * lo + lo;
      assert (|xs| as real) * hi == m * hi + hi;
    }
  }

  /** A mean lies between any lower and upper bound of its samples. */
  lemma MeanWithinBounds(xs: seq<real>, lo: real, hi: real)
    requires |xs| > 0
    requires forall k :: 0 <= k < |xs| ==> lo <= xs[k] <= hi
    ensures lo <= Mean(xs) <= hi
  {
    SumBounds(xs, lo, hi);
    var n := |xs| as real;
    assert (Mean(xs) - lo) * n >= 0.0;
    assert (hi - Mean(xs)) * n >= 0.0;
  }

  /** The samples of one service for one dimension; a service the metric does not list has none. */
  function SamplesOf(metrics: MetricMap, dim: Dim, service: string): seq<real>
    requires MetricType(dim) in metrics.series
  {
    var columns := metrics.series[MetricType(dim)].columns;
    if service in columns then columns[service] else []
  }

  /** One mean per requested service: 0 when it has no samples, otherwise the mean of its samples. */
  method ComputeMeanByService(metrics: MetricMap, dim: Dim, services: seq<string>)
    returns (means: map<string, real>)
    requires MetricType(dim) in metrics.series
    ensures means.Keys == (set s | s in services)
    ensures forall s :: s in means ==> means[s] == MeanOrZero(SamplesOf(metrics, dim, s))
  {
    var columns := metrics.series[MetricType(dim)].columns;
    means := map[];
    for i := 0 to |services|
      invariant means.Keys == (set s | s in services[..i])
      invariant forall s :: s in means ==> means[s] == MeanOrZero(SamplesOf(metrics, dim, s))
    {
      var service := services[i];
      var values := if service in columns then columns[service] else [];
      var mean := 0.0;
      if |values| == 0 {
        mean := 0.0;
      } else {
        mean := Mean(values);
      }
      means := means[service := mean];
      assert services[..i + 1] == services[..i] + [service];
    }
    assert services[..|services|] == services;
  }
}
