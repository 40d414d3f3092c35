/** The monitoring store (`MonitoringManager`): metric samples kept in memory
    and, best effort, in the store under `monitoring:<type>:<id>` with a time
    stamp index beside them; queries over the stored samples, aggregation by
    day, week or month, the latest sample per metric family, eviction by
    retention and the monitoring configuration. */
module Monitoring {
  import opened Common
  import opened KeyValue
  import opened Calendar

  /** A value of a sample's free-form metadata (`map[string]interface{}`). */
  datatype MetaValue = IntValue(i: int) | NumValue(r: real) | TextValue(s: string)

  datatype MonitoringData = MonitoringData(
    id: string,
    timestamp: int,        // Unix seconds
    metricType: string,    // bandwidth, concurrent_streams
    value: real,
    unit: string,          // Mbps, count
    streamId: string,
    inputType: string,
    outputType: string,
    metadata: map<string, MetaValue>)

  datatype MonitoringConfig = MonitoringConfig(
    id: string,
    enabled: bool,
    samplingRate: int,     // seconds between samples
    retentionDays: int,    // days to keep data
    createdAt: int,
    updatedAt: int)

  /** What the store holds under a `monitoring:` key: a sample, a time stamp
      index entry (the bare id of a sample) or the configuration. */
  datatype MonitoringValue = Sample(sample: MonitoringData) | Index(metricId: string) | ConfigRecord(config: MonitoringConfig)

  /** The answer of `GetRealTimeMetrics`: the latest sample of each family,
      when there is one, and the time of the call. */
  datatype RealTime = RealTime(bandwidth: Option<MonitoringData>, concurrentStreams: Option<MonitoringData>, timestamp: int)

  const KeyPrefix: string := "monitoring:"
  const ConfigKey: string := "monitoring:config"
  const DefaultSamplingRate: int := 5
  const DefaultRetentionDays: int := 30

  function SampleKey(metricType: string, id: string): string {
    KeyPrefix + metricType + ":" + id
  }

  function IndexKey(metricType: string, unix: int): string {
    KeyPrefix + "timestamp:" + metricType + ":" + IntToString(unix)
  }

  /** Every sample in memory is filed under its own id. */
  ghost predicate ValidState(metrics: map<string, MonitoringData>) {
    forall id :: id in metrics ==> metrics[id].id == id
  }

  // ---------------------------------------------------------------- queries

  /** A metadata value after a JSON round trip: every number comes back as a
      floating-point number. */
  function JsonValue(v: MetaValue): MetaValue {
    match v
    case IntValue(i) => NumValue(i as real)
    case _ => v
  }

  /** A sample as `json.Unmarshal` gives back what `json.Marshal` stored. */
  function JsonRoundTrip(m: MonitoringData): (r: MonitoringData)
    ensures r.metadata.Keys == m.metadata.Keys
    ensures forall k :: k in r.metadata ==> !r.metadata[k].IntValue?
    ensures r.(metadata := m.metadata) == m
    ensures forall k :: k in m.metadata && m.metadata[k].IntValue? ==> r.metadata[k] == NumValue(m.metadata[k].i as real)
    ensures forall k :: k in m.metadata && !m.metadata[k].IntValue? ==> r.metadata[k] == m.metadata[k]
  {
    m.(metadata := map k | k in m.metadata :: JsonValue(m.metadata[k]))
  }

  /** The keys the pattern `monitoring:<dataType>:*` lists. */
  function MatchingKeys(data: map<string, MonitoringValue>, dataType: string): set<string> {
    set k | k in data && HasPrefix(k, KeyPrefix + dataType + ":")
  }

  /** A listed key whose value can be fetched and decoded as a sample; an
      index entry is a bare id, not a JSON object, and never decodes. */
  predicate Decodes(data: map<string, MonitoringValue>, unreadable: set<string>, k: string) {
    k in data && k !in unreadable && data[k].Sample?
  }

  /** The three filters of `QueryData`: a missing bound (Go's zero time) does
      not restrict, both bounds are inclusive, an empty stream id matches
      every sample. */
  predicate Keep(m: MonitoringData, start: Option<int>, end: Option<int>, streamID: string) {
    && (start.None? || m.timestamp >= start.value)
    && (end.None? || m.timestamp <= end.value)
    && (streamID == "" || m.streamId == streamID)
  }

  /** The samples `QueryData` collects when it visits the keys `ks` in order. */
  function Selected(data: map<string, MonitoringValue>, unreadable: set<string>, ks: seq<string>,
                    start: Option<int>, end: Option<int>, streamID: string): seq<MonitoringData>
    decreases |ks|
  {
    if ks == [] then []
    else
      var prev := Selected(data, unreadable, ks[..|ks| - 1], start, end, streamID);
      var k := ks[|ks| - 1];
      if Decodes(data, unreadable, k) && Keep(JsonRoundTrip(data[k].sample), start, end, streamID)
      then prev + [JsonRoundTrip(data[k].sample)]
      else prev
  }

  /** A sample is collected exactly when it decodes from one of the visited
      keys and passes all three filters. */
  lemma {:induction false} SelectedMembers(data: map<string, MonitoringValue>, unreadable: set<string>, ks: seq<string>,
                                           start: Option<int>, end: Option<int>, streamID: string, s: MonitoringData)
    ensures s in Selected(data, unreadable, ks, start, end, streamID) <==>
      exists i :: 0 <= i < |ks| && Decodes(data, unreadable, ks[i]) && JsonRoundTrip(data[ks[i]].sample) == s && Keep(s, start, end, streamID)
    decreases |ks|
  {
    if ks != [] {
      var init := ks[..|ks| - 1];
      var last := |ks| - 1;
      SelectedMembers(data, unreadable, init, start, end, streamID, s);
      if exists i :: 0 <= i < |ks| && Decodes(data, unreadable, ks[i]) && JsonRoundTrip(data[ks[i]].sample) == s && Keep(s, start, end, streamID) {
        var i :| 0 <= i < |ks| && Decodes(data, unreadable, ks[i]) && JsonRoundTrip(data[ks[i]].sample) == s && Keep(s, start, end, streamID);
        if i < last {
          assert init[i] == ks[i];
        }
      }
      if exists i :: 0 <= i < |init| && Decodes(data, unreadable, init[i]) && JsonRoundTrip(data[init[i]].sample) == s && Keep(s, start, end, streamID) {
        var i :| 0 <= i < |init| && Decodes(data, unreadable, init[i]) && JsonRoundTrip(data[init[i]].sample) == s && Keep(s, start, end, streamID);
        assert ks[i] == init[i];
      }
    }
  }

  // ------------------------------------------------------------ aggregation

  /** The record that opens a bucket: a copy of its first sample with a fresh
      id and the metadata `sample_count: 1`, `period: <period>`. */
  function Open(m: MonitoringData, id: string, period: string): MonitoringData {
    m.(id := id, metadata := map["sample_count" := IntValue(1), "period" := TextValue(period)])
  }

  /** A later sample of the same bucket: its value is added and the count
      goes up by one (set to 1 should the count not be an integer). */
  function Absorb(existing: MonitoringData, m: MonitoringData): MonitoringData {
    var count :=
      if "sample_count" in existing.metadata && existing.metadata["sample_count"].IntValue?
      then existing.metadata["sample_count"].i + 1 else 1;
    existing.(value := existing.value + m.value, metadata := existing.metadata["sample_count" := IntValue(count)])
  }

  /** The bucket map `aggregateByPeriod` builds from `data` in order; the
      bucket opened by sample `i` takes the fresh id `freshIds(i)`. */
  function Aggregate(data: seq<MonitoringData>, bucket: int -> PeriodKey, period: string, freshIds: nat -> Uuid): map<PeriodKey, MonitoringData>
    decreases |data|
  {
    if data == [] then map[]
    else
      var n := |data| - 1;
      var prev := Aggregate(data[..n], bucket, period, freshIds);
      var k := bucket(data[n].timestamp);
      if k in prev then prev[k := Absorb(prev[k], data[n])]
      else prev[k := Open(data[n], freshIds(n), period)]
  }

  /** The sum of the values of the samples in bucket `k`. */
  function BucketSum(data: seq<MonitoringData>, bucket: int -> PeriodKey, k: PeriodKey): real
    decreases |data|
  {
    if data == [] then 0.0
    else
      var n := |data| - 1;
      BucketSum(data[..n], bucket, k) + (if bucket(data[n].timestamp) == k then data[n].value else 0.0)
  }

  /** The number of samples in bucket `k`. */
  function BucketCount(data: seq<MonitoringData>, bucket: int -> PeriodKey, k: PeriodKey): nat
    decreases |data|
  {
    if data == [] then 0
    else
      var n := |data| - 1;
      BucketCount(data[..n], bucket, k) + (if bucket(data[n].timestamp) == k then 1 else 0)
  }

  /** One record per distinct bucket key among the samples. */
  lemma {:induction false} AggregateKeys(data: seq<MonitoringData>, bucket: int -> PeriodKey, period: string, freshIds: nat -> Uuid)
    ensures Aggregate(data, bucket, period, freshIds).Keys == set i | 0 <= i < |data| :: bucket(data[i].timestamp)
    decreases |data|
  {
    if data != [] {
      var n := |data| - 1;
      var init := data[..n];
      AggregateKeys(init, bucket, period, freshIds);
      var before := set i | 0 <= i < |init| :: bucket(init[i].timestamp);
      var after := set i | 0 <= i < |data| :: bucket(data[i].timestamp);
      assert after == before + {bucket(data[n].timestamp)} by {
        forall x | x in after ensures x in before + {bucket(data[n].timestamp)} {
          var i :| 0 <= i < |data| && bucket(data[i].timestamp) == x;
          if i < n { assert init[i] == data[i]; }
        }
        forall x | x in before ensures x in after {
          var i :| 0 <= i < |init| && bucket(init[i].timestamp) == x;
          assert data[i] == init[i];
        }
      }
    }
  }

  /** A bucket none of the samples falls into is empty. */
  lemma {:induction false} BucketEmpty(data: seq<MonitoringData>, bucket: int -> PeriodKey, k: PeriodKey)
    requires forall j :: 0 <= j < |data| ==> bucket(data[j].timestamp) != k
    ensures BucketSum(data, bucket, k) == 0.0 && BucketCount(data, bucket, k) == 0
    decreases |data|
  {
    if data != [] {
      var n := |data| - 1;
      forall j | 0 <= j < n ensures bucket(data[..n][j].timestamp) != k {
        assert data[..n][j] == data[j];
      }
      BucketEmpty(data[..n], bucket, k);
    }
  }

  /** The record of a bucket is a copy of the bucket's first sample `f`, with
      the id generated for it, the sum of the bucket's values and the
      metadata `sample_count: <number of samples>`, `period: <period>`. */
  lemma {:induction false} AggregateBucket(data: seq<MonitoringData>, bucket: int -> PeriodKey, period: string, freshIds: nat -> Uuid, f: nat)
    requires f < |data|
    requires forall j :: 0 <= j < f ==> bucket(data[j].timestamp) != bucket(data[f].timestamp)
    ensures var k := bucket(data[f].timestamp);
      && k in Aggregate(data, bucket, period, freshIds)
      && Aggregate(data, bucket, period, freshIds)[k] ==
         data[f].(id := freshIds(f), value := BucketSum(data, bucket, k),
                  metadata := map["sample_count" := IntValue(BucketCount(data, bucket, k)), "period" := TextValue(period)])
    decreases |data|
  {
    var k := bucket(data[f].timestamp);
    var n := |data| - 1;
    var init := data[..n];
    var prev := Aggregate(init, bucket, period, freshIds);
    if f < n {
      assert init[f] == data[f];
      forall j | 0 <= j < f ensures bucket(init[j].timestamp) != bucket(init[f].timestamp) {
        assert init[j] == data[j];
      }
      AggregateBucket(init, bucket, period, freshIds, f);
      if bucket(data[n].timestamp) == k {
        var c := BucketCount(init, bucket, k);
        var md := map["sample_count" := IntValue(c), "period" := TextValue(period)];
        assert md["sample_count" := IntValue(c + 1)] == map["sample_count" := IntValue(c + 1), "period" := TextValue(period)];
      }
    } else {
      AggregateKeys(init, bucket, period, freshIds);
      forall j | 0 <= j < |init| ensures bucket(init[j].timestamp) != k {
        assert init[j] == data[j];
      }
      BucketEmpty(init, bucket, k);
    }
  }

  /** Every sample of a bucket is counted: when all samples share one bucket
      their number is the count. */
  lemma {:induction false} BucketCountAll(data: seq<MonitoringData>, bucket: int -> PeriodKey, k: PeriodKey)
    requires forall j :: 0 <= j < |data| ==> bucket(data[j].timestamp) == k
    ensures BucketCount(data, bucket, k) == |data|
    decreases |data|
  {
    if data != [] {
      var n := |data| - 1;
      forall j | 0 <= j < n ensures bucket(data[..n][j].timestamp) == k {
        assert data[..n][j] == data[j];
      }
      BucketCountAll(data[..n], bucket, k);
    }
  }

  /** The bucket function of period `p`. */
  function BucketOf(p: Period): int -> PeriodKey {
    t => BucketKey(p, t)
  }

  /** N samples of one day aggregate, under any period, into a single record
      whose `sample_count` is N. */
  lemma SameDayAggregatesToOne(data: seq<MonitoringData>, p: Period, period: string, freshIds: nat -> Uuid)
    requires |data| > 0
    requires forall i :: 0 <= i < |data| ==> DayNumber(data[i].timestamp) == DayNumber(data[0].timestamp)
    ensures var k := BucketKey(p, data[0].timestamp);
      && Aggregate(data, BucketOf(p), period, freshIds).Keys == {k}
      && Aggregate(data, BucketOf(p), period, freshIds)[k].value == BucketSum(data, BucketOf(p), k)
      && Aggregate(data, BucketOf(p), period, freshIds)[k].metadata["sample_count"] == IntValue(|data|)
  {
    var bucket := BucketOf(p);
    var k := BucketKey(p, data[0].timestamp);
    forall i | 0 <= i < |data| ensures bucket(data[i].timestamp) == k {
      SameDaySameBucket(p, data[i].timestamp, data[0].timestamp);
    }
    AggregateKeys(data, bucket, period, freshIds);
    assert (set i | 0 <= i < |data| :: bucket(data[i].timestamp)) == {k};
    AggregateBucket(data, bucket, period, freshIds, 0);
    BucketCountAll(data, bucket, k);
  }

  /** What `aggregateByPeriod` promises about `r`: the input itself when it is
      empty or the period is not recognised, otherwise the bucket records,
      each once, in no particular order. */
  ghost predicate AggregatedFrom(r: seq<MonitoringData>, data: seq<MonitoringData>, period: string, freshIds: nat -> Uuid) {
    if |data| == 0 || ParsePeriod(period).None? then r == data
    else
      var agg := Aggregate(data, BucketOf(ParsePeriod(period).value), period, freshIds);
      exists ks :: Enumerates(ks, agg.Keys) && ListsValues(r, agg, ks)
  }

  // ---------------------------------------------------- retention (cleanup)

  const NanosPerSecond: int := 1_000_000_000

  /** Go's signed 64-bit wrap-around. */
  function WrapInt64(x: int): int {
    (x + 0x8000_0000_0000_0000) % 0x1_0000_0000_0000_0000 - 0x8000_0000_0000_0000
  }

  /** As written: `time.Duration(RetentionDays) * 24 * time.Hour`, a count of
      nanoseconds in an `int64`, which wraps for more than 106751 days. */
  function RetentionAsWritten(days: int): (r: int)
    ensures -0x8000_0000_0000_0000 <= r < 0x8000_0000_0000_0000
    ensures -106751 <= days <= 106751 ==> r == days * SecondsPerDay * NanosPerSecond
  {
    var x := days * 24 * 3600 * NanosPerSecond;
    assert -106751 <= days <= 106751 ==> 0 <= x + 0x8000_0000_0000_0000 < 0x1_0000_0000_0000_0000;
    WrapInt64(x)
  }

  /** As written: `metric.Timestamp.Before(now.Add(-retention))`, the
      negation wrapping as well. */
  predicate ExpiredAsWritten(now: int, days: int, t: int) {
    t * NanosPerSecond < now * NanosPerSecond + WrapInt64(-RetentionAsWritten(days))
  }

  /** The cutoff the cleanup evidently intends: older than `days` days. */
  predicate Expired(now: int, days: int, t: int) {
    t < now - days * SecondsPerDay
  }

  /** Within the range of `int64` nanoseconds the two agree. */
  lemma ExpiredAsWrittenInRange(now: int, days: int, t: int)
    requires -106751 <= days <= 106751
    ensures ExpiredAsWritten(now, days, t) <==> Expired(now, days, t)
  {
    var x := days * 24 * 3600 * NanosPerSecond;
    assert -0x8000_0000_0000_0000 <= x < 0x8000_0000_0000_0000;
    assert 0 <= x + 0x8000_0000_0000_0000 < 0x1_0000_0000_0000_0000;
    assert (x + 0x8000_0000_0000_0000) % 0x1_0000_0000_0000_0000 == x + 0x8000_0000_0000_0000;
    assert 0 <= -x + 0x8000_0000_0000_0000 < 0x1_0000_0000_0000_0000;
    assert (-x + 0x8000_0000_0000_0000) % 0x1_0000_0000_0000_0000 == -x + 0x8000_0000_0000_0000;
  }

  /** A retention of 106752 days wraps to about minus 292 years, which puts
      the cutoff in the future: a sample taken this very second is evicted. */
  lemma RetentionOverflowCounterexample()
    ensures RetentionAsWritten(106752) < 0
    ensures ExpiredAsWritten(1700000000, 106752, 1700000000)
    ensures !Expired(1700000000, 106752, 1700000000)
  {
    assert 106752 * 24 * 3600 * NanosPerSecond == 9223372800000000000;
    assert RetentionAsWritten(106752) == 9223372800000000000 - 0x1_0000_0000_0000_0000;
    assert WrapInt64(0x1_0000_0000_0000_0000 - 9223372800000000000) == 0x1_0000_0000_0000_0000 - 9223372800000000000;
  }

  /** The samples a cleanup keeps while it walks the map: only the expired
      ones outside `rest` are gone. */
  function PrunedExcept(metrics: map<string, MonitoringData>, now: int, days: int, rest: set<string>): map<string, MonitoringData> {
    map id | id in metrics && (id in rest || !Expired(now, days, metrics[id].timestamp)) :: metrics[id]
  }

  /** The samples left once those older than the retention are gone. */
  function Retained(metrics: map<string, MonitoringData>, now: int, days: int): map<string, MonitoringData> {
    map id | id in metrics && !Expired(now, days, metrics[id].timestamp) :: metrics[id]
  }

  // ------------------------------------------------------- latest samples

  /** `o` is a latest sample of type `metricType` among the samples `among`:
      absent when there is none, otherwise one of them with a maximal time
      stamp. */
  ghost predicate IsLatest(metrics: map<string, MonitoringData>, among: set<string>, metricType: string, o: Option<MonitoringData>) {
    && (o.None? <==> forall id :: id in among && id in metrics ==> metrics[id].metricType != metricType)
    && (o.Some? ==>
          && (exists id :: id in among && id in metrics && metrics[id] == o.value)
          && o.value.metricType == metricType
          && forall id :: id in among && id in metrics && metrics[id].metricType == metricType ==>
               metrics[id].timestamp <= o.value.timestamp)
  }

  class MonitoringManager {
    var config: MonitoringConfig
    var metrics: map<string, MonitoringData>
    const rdb: Store<MonitoringValue>

    ghost predicate Valid()
      reads this
    {
      ValidState(metrics)
    }

    /** `NewMonitoringManager`: monitoring on, a sample every 5 seconds, 30
        days of retention, no samples. */
    constructor (rdb: Store<MonitoringValue>, freshId: Uuid, now: int)
      ensures Valid()
      ensures this.rdb == rdb && metrics == map[]
      ensures config == MonitoringConfig(freshId, true, DefaultSamplingRate, DefaultRetentionDays, now, now)
    {
      this.rdb := rdb;
      config := MonitoringConfig(freshId, true, DefaultSamplingRate, DefaultRetentionDays, now, now);
      metrics := map[];
    }

    /** `storeMetric`: the sample always enters memory; then, best effort, the
        store gets the sample and, only if that worked, the time stamp index.
        No failure is reported. */
    method StoreMetric(metric: MonitoringData, sampleOnline: bool, indexOnline: bool)
      requires Valid()
      modifies this, rdb
      ensures Valid()
      ensures metrics == old(metrics)[metric.id := metric] && config == old(config)
      ensures rdb.data ==
        if !sampleOnline then old(rdb.data)
        else if !indexOnline then old(rdb.data)[SampleKey(metric.metricType, metric.id) := Sample(metric)]
        else old(rdb.data)[SampleKey(metric.metricType, metric.id) := Sample(metric)]
                          [IndexKey(metric.metricType, metric.timestamp) := Index(metric.id)]
    {
      metrics := metrics[metric.id := metric];
      var ok := rdb.Set(SampleKey(metric.metricType, metric.id), Sample(metric), sampleOnline);
      if !ok {
        return;
      }
      var _ := rdb.Set(IndexKey(metric.metricType, metric.timestamp), Index(metric.id), indexOnline);
    }

    /** The collecting part of `QueryData`: list the keys of `dataType`, then
        keep each sample that decodes and passes the filters. Whether the key
        listing answers is `keysOnline`; the keys whose fetch fails are
        `unreadable`. */
    method CollectSamples(dataType: string, start: Option<int>, end: Option<int>, streamID: string,
                          keysOnline: bool, unreadable: set<string>) returns (results: seq<MonitoringData>)
      ensures !keysOnline ==> results == []
      ensures keysOnline ==> exists ks :: Enumerates(ks, MatchingKeys(rdb.data, dataType))
                                        && results == Selected(rdb.data, unreadable, ks, start, end, streamID)
    {
      results := [];
      if !keysOnline {
        return;
      }
      var keys := set k | k in rdb.data && HasPrefix(k, KeyPrefix + dataType + ":");
      ghost var ks: seq<string> := [];
      var rest := keys;
      while rest != {}
        invariant rest <= keys
        invariant Enumerates(ks, keys - rest)
        invariant results == Selected(rdb.data, unreadable, ks, start, end, streamID)
        decreases rest
      {
        var key :| key in rest;
        ghost var visited := ks;
        ks := ks + [key];
        assert ks[..|ks| - 1] == visited;
        rest := rest - {key};
        if key in unreadable || !rdb.data[key].Sample? {
          continue;
        }
        var metric := JsonRoundTrip(rdb.data[key].sample);
        if start.Some? && metric.timestamp < start.value {
          continue;
        }
        if end.Some? && metric.timestamp > end.value {
          continue;
        }
        if streamID != "" && metric.streamId != streamID {
          continue;
        }
        results := results + [metric];
      }
      assert keys - rest == MatchingKeys(rdb.data, dataType);
    }

    /** `QueryData`: the collected samples, aggregated when a period is
        given. */
    method QueryData(dataType: string, start: Option<int>, end: Option<int>, streamID: string, period: string,
                     keysOnline: bool, unreadable: set<string>, freshIds: nat -> Uuid) returns (r: seq<MonitoringData>)
      ensures !keysOnline ==> r == []
      ensures keysOnline ==> exists ks :: (Enumerates(ks, MatchingKeys(rdb.data, dataType)) &&
        var samples := Selected(rdb.data, unreadable, ks, start, end, streamID);
        && (period == "" ==> r == samples)
        && (period != "" ==> AggregatedFrom(r, samples, period, freshIds)))
    {
      var results := CollectSamples(dataType, start, end, streamID, keysOnline, unreadable);
      r := results;
      if period != "" {
        r := AggregateByPeriod(results, period, freshIds);
      }
    }

    /** `aggregateByPeriod`: bucket the samples by the period key, summing
        values and counting samples, then list the buckets. */
    static method AggregateByPeriod(data: seq<MonitoringData>, period: string, freshIds: nat -> Uuid)
      returns (r: seq<MonitoringData>)
      ensures |data| == 0 || ParsePeriod(period).None? ==> r == data
      ensures AggregatedFrom(r, data, period, freshIds)
    {
      if |data| == 0 {
        return data;
      }
      var p: Period;
      if period == "daily" {
        p := Daily;
      } else if period == "weekly" {
        p := Weekly;
      } else if period == "monthly" {
        p := Monthly;
      } else {
        return data;
      }
      var aggregated := BuildBuckets(data, BucketOf(p), period, freshIds);
      r := ListBuckets(aggregated);
    }

    /** The first loop of `aggregateByPeriod`: one pass over the samples in
        order, opening a bucket or adding to it. `bucket` stands for
        `metric.Timestamp.Format(timeFormat)`, chosen by the caller. */
    static method BuildBuckets(data: seq<MonitoringData>, bucket: int -> PeriodKey, period: string, freshIds: nat -> Uuid)
      returns (aggregated: map<PeriodKey, MonitoringData>)
      ensures aggregated == Aggregate(data, bucket, period, freshIds)
    {
      aggregated := map[];
      var i := 0;
      while i < |data|
        invariant 0 <= i <= |data|
        invariant aggregated == Aggregate(data[..i], bucket, period, freshIds)
      {
        var metric := data[i];
        var periodKey := bucket(metric.timestamp);
        assert data[..i + 1][..i] == data[..i];
        if periodKey in aggregated {
          aggregated := aggregated[periodKey := Absorb(aggregated[periodKey], metric)];
        } else {
          aggregated := aggregated[periodKey := Open(metric, freshIds(i), period)];
        }
        i := i + 1;
      }
      assert data[..i] == data;
    }

    /** The second loop of `aggregateByPeriod`: every bucket once, in the
        order of the map. */
    static method ListBuckets(aggregated: map<PeriodKey, MonitoringData>) returns (r: seq<MonitoringData>)
      ensures exists ks :: Enumerates(ks, aggregated.Keys) && ListsValues(r, aggregated, ks)
      ensures |r| == |aggregated|
    {
      r := [];
      ghost var ks: seq<PeriodKey> := [];
      var rest := aggregated.Keys;
      while rest != {}
        invariant rest <= aggregated.Keys
        invariant Enumerates(ks, aggregated.Keys - rest)
        invariant ListsValues(r, aggregated, ks)
        decreases rest
      {
        var k :| k in rest;
        r := r + [aggregated[k]];
        ks := ks + [k];
        rest := rest - {k};
      }
      assert aggregated.Keys - rest == aggregated.Keys;
      EnumerationLength(ks, aggregated.Keys);
    }

    /** The latest sample of one family, as the loops of `GetRealTimeMetrics`
        find it: a sample replaces the running one only when strictly
        later. */
    method Latest(metricType: string) returns (latest: Option<MonitoringData>)
      ensures IsLatest(metrics, metrics.Keys, metricType, latest)
    {
      latest := None;
      var rest := metrics.Keys;
      while rest != {}
        invariant rest <= metrics.Keys
        invariant IsLatest(metrics, metrics.Keys - rest, metricType, latest)
        decreases rest
      {
        var id :| id in rest;
        var metric := metrics[id];
        ghost var done := metrics.Keys - rest;
        if metric.metricType == metricType {
          if latest.None? || metric.timestamp > latest.value.timestamp {
            latest := Some(metric);
          }
        }
        rest := rest - {id};
        assert metrics.Keys - rest == done + {id};
      }
    }

    /** `GetRealTimeMetrics`: the latest `bandwidth` and `concurrent_streams`
        samples, each absent when there is none, and the time stamp `now`. */
    method GetRealTimeMetrics(now: int) returns (r: RealTime)
      ensures IsLatest(metrics, metrics.Keys, "bandwidth", r.bandwidth)
      ensures IsLatest(metrics, metrics.Keys, "concurrent_streams", r.concurrentStreams)
      ensures r.timestamp == now
    {
      var bandwidth := Latest("bandwidth");
      var streams := Latest("concurrent_streams");
      r := RealTime(bandwidth, streams, now);
    }

    /** `UpdateConfig`: stamp the new configuration, keep the creation time of
        the current one and install it before the store write, so it stays
        installed when that write fails. */
    method UpdateConfig(config: MonitoringConfig, now: int, online: bool) returns (out: MonitoringConfig, err: Outcome)
      modifies this, rdb
      ensures out == config.(updatedAt := now, createdAt := old(this.config).createdAt)
      ensures this.config == out && metrics == old(metrics)
      ensures err == if online then Ok else Fail(StoreWrite)
      ensures rdb.data == if online then old(rdb.data)[ConfigKey := ConfigRecord(out)] else old(rdb.data)
    {
      out := config.(updatedAt := now, createdAt := this.config.createdAt);
      this.config := out;
      var ok := rdb.Set(ConfigKey, ConfigRecord(out), online);
      err := if ok then Ok else Fail(StoreWrite);
    }

    /** `cleanupOldData`: drop from memory every sample older than the
        retention. The store is left to its own expiry. */
    method CleanupOldData(now: int)
      requires Valid()
      modifies this
      ensures Valid()
      ensures metrics == Retained(old(metrics), now, config.retentionDays) && config == old(config)
      ensures config.retentionDays >= 0 ==>
        forall id :: id in old(metrics) && old(metrics)[id].timestamp >= now ==> id in metrics
    {
      ghost var before := metrics;
      var days := config.retentionDays;
      var rest := metrics.Keys;
      while rest != {}
        invariant rest <= before.Keys
        invariant config == old(config)
        invariant metrics == PrunedExcept(before, now, days, rest)
        decreases rest
      {
        var id :| id in rest;
        assert id in metrics && metrics[id] == before[id];
        if metrics[id].timestamp < now - days * SecondsPerDay {
          metrics := metrics - {id};
        }
        rest := rest - {id};
      }
      assert PrunedExcept(before, now, days, rest) == Retained(before, now, days);
    }
  }

  const SampleA: Uuid := "6d6d6d6d-0000-4000-8000-000000000001"
  const SampleB: Uuid := "6d6d6d6d-0000-4000-8000-000000000002"
  const SampleC: Uuid := "6d6d6d6d-0000-4000-8000-000000000003"
  const ConfigA: Uuid := "6d6d6d6d-0000-4000-8000-0000000000c0"

  function BandwidthSample(id: string, t: int): MonitoringData {
    MonitoringData(id, t, "bandwidth", 100.5, "Mbps", "", "", "", map["active_streams" := IntValue(5)])
  }

  /** Two bandwidth samples and one stream count: the real-time view shows the
      later bandwidth sample and the only stream count. */
  method RealTimeScenario() returns (r: RealTime)
    ensures r.bandwidth == Some(BandwidthSample(SampleB, 200))
    ensures r.concurrentStreams.Some? && r.concurrentStreams.value.id == SampleC
    ensures r.timestamp == 300
  {
    var store := new Store<MonitoringValue>();
    var m := new MonitoringManager(store, ConfigA, 0);
    var count := MonitoringData(SampleC, 150, "concurrent_streams", 5.0, "count", "", "", "", map[]);
    m.StoreMetric(BandwidthSample(SampleA, 100), true, true);
    m.StoreMetric(BandwidthSample(SampleB, 200), true, true);
    m.StoreMetric(count, true, true);
    assert m.metrics == map[SampleA := BandwidthSample(SampleA, 100), SampleB := BandwidthSample(SampleB, 200), SampleC := count];
    r := m.GetRealTimeMetrics(300);
    assert m.metrics[SampleB].metricType == "bandwidth";
    assert m.metrics[SampleC].metricType == "concurrent_streams";
  }

  /** A stored sample comes back from an unfiltered query, its integer
      metadata turned into floating-point numbers; the index entry written
      beside it is not listed. */
  method QueryScenario() returns (r: seq<MonitoringData>)
    ensures r == [BandwidthSample(SampleA, 100).(metadata := map["active_streams" := NumValue(5.0)])]
  {
    var store := new Store<MonitoringValue>();
    var m := new MonitoringManager(store, ConfigA, 0);
    var sample := BandwidthSample(SampleA, 100);
    m.StoreMetric(sample, true, true);
    var k := SampleKey("bandwidth", SampleA);
    var index := IndexKey("bandwidth", 100);
    assert !HasPrefix(index, KeyPrefix + "bandwidth" + ":") by {
      assert index[11] == 't';
      assert (KeyPrefix + "bandwidth" + ":")[11] == 'b';
    }
    PrefixedKeyHasPrefix(KeyPrefix + "bandwidth" + ":", SampleA);
    assert MatchingKeys(m.rdb.data, "bandwidth") == {k};
    r := m.QueryData("bandwidth", None, None, "", "", true, {}, _ => ConfigA);
    ghost var ks :| Enumerates(ks, {k}) && r == Selected(m.rdb.data, {}, ks, None, None, "");
    EnumerationLength(ks, {k});
    assert ks == [k];
    assert k != index;
    assert m.rdb.data[k] == Sample(sample);
    assert Decodes(m.rdb.data, {}, k);
    assert JsonRoundTrip(sample).metadata == map["active_streams" := NumValue(5.0)];
    assert ks[..0] == [];
    assert Selected(m.rdb.data, {}, ks, None, None, "") == [JsonRoundTrip(sample)];
  }
}
