/** The statistics create_activity_file computes before it builds any message:
    first and last timestamps, elapsed time, and min/max/avg of heart rate and,
    for geolocated activities, of altitude.

    Two behaviours of the Python are kept as they are. A value is selected by
    truthiness, so an unset value and a value of 0 are both left out. The
    average divides the sum of the selected values by the number of ALL
    records, not by the number selected. */
module Aggregator {
  import opened Wrappers
  import opened Types

  /** The two fields the statistics are taken over. */
  datatype Metric = HeartRate | Altitude

  function Reading(r: Record, m: Metric): Option<real>
  {
    match m
    case HeartRate => if r.heartRate.Some? then Some(r.heartRate.value as real) else None
    case Altitude => r.altitude
  }

  /** Python truthiness of an optional number: set and non-zero. */
  predicate Truthy(v: Option<real>)
  {
    v.Some? && v.value != 0.0
  }

  /** The number of records whose reading is truthy. */
  function TruthyCount(records: seq<Record>, m: Metric): nat
  {
    if records == [] then 0
    else TruthyCount(records[..|records| - 1], m) + (if Truthy(Reading(records[|records| - 1], m)) then 1 else 0)
  }

  /** Each truthy reading added once, a falsy one counting as 0. */
  function SumTruthy(records: seq<Record>, m: Metric): real
  {
    if records == [] then 0.0
    else
      var last := Reading(records[|records| - 1], m);
      SumTruthy(records[..|records| - 1], m) + (if Truthy(last) then last.value else 0.0)
  }

  /** The generator `r.field for r in records if r.field`, in record order:
      one value per truthy record, so its sum is the sum of the truthy readings. */
  function Selected(records: seq<Record>, m: Metric): (vs: seq<real>)
    ensures |vs| == TruthyCount(records, m) <= |records|
    ensures (forall i :: 0 <= i < |records| ==> Truthy(Reading(records[i], m))) ==> |vs| == |records|
    ensures Sum(vs) == SumTruthy(records, m)
  {
    if records == [] then []
    else
      var init := records[..|records| - 1];
      var last := Reading(records[|records| - 1], m);
      assert forall i :: 0 <= i < |init| ==> init[i] == records[i];
      var front := Selected(init, m);
      if Truthy(last) then
        assert (front + [last.value])[..|front|] == front;
        front + [last.value]
      else
        front
  }

  /** The selected values are exactly the truthy readings. */
  lemma {:induction false} SelectedMembers(records: seq<Record>, m: Metric)
    ensures forall v :: v in Selected(records, m) ==>
              v != 0.0 && exists i :: 0 <= i < |records| && Reading(records[i], m) == Some(v)
    ensures forall i :: 0 <= i < |records| && Truthy(Reading(records[i], m)) ==>
              Reading(records[i], m).value in Selected(records, m)
  {
    if records != [] {
      var n := |records| - 1;
      var init := records[..n];
      SelectedMembers(init, m);
      assert forall i :: 0 <= i < n ==> init[i] == records[i];
    }
  }

  /** Python's min() over a non-empty sequence. */
  function Min(s: seq<real>): (m: real)
    requires s != []
    ensures m in s
    ensures forall x :: x in s ==> m <= x
  {
    if |s| == 1 then s[0]
    else
      var rest := Min(s[1..]);
      assert forall x :: x in s ==> x == s[0] || x in s[1..];
      if s[0] <= rest then s[0] else rest
  }

  /** Python's max() over a non-empty sequence. */
  function Max(s: seq<real>): (m: real)
    requires s != []
    ensures m in s
    ensures forall x :: x in s ==> x <= m
  {
    if |s| == 1 then s[0]
    else
      var rest := Max(s[1..]);
      assert forall x :: x in s ==> x == s[0] || x in s[1..];
      if s[0] >= rest then s[0] else rest
  }

  /** Python's sum(). */
  function Sum(s: seq<real>): real
  {
    if s == [] then 0.0 else Sum(s[..|s| - 1]) + s[|s| - 1]
  }

  /** b added to itself n times. */
  function Repeat(n: nat, b: real): real
  {
    if n == 0 then 0.0 else Repeat(n - 1, b) + b
  }

  lemma {:induction false} RepeatIsProduct(n: nat, b: real)
    ensures Repeat(n, b) == n as real * b
  {
    if n > 0 {
      RepeatIsProduct(n - 1, b);
    }
  }

  /** A sum of values each at most b is at most |s| copies of b. */
  lemma {:induction false} SumAtMost(s: seq<real>, b: real)
    requires forall x :: x in s ==> x <= b
    ensures Sum(s) <= Repeat(|s|, b)
  {
    if s != [] {
      var init := s[..|s| - 1];
      assert forall x :: x in init ==> x in s;
      SumAtMost(init, b);
      assert s[|s| - 1] in s;
    }
  }

  /** A sum of values each at least b is at least |s| copies of b. */
  lemma {:induction false} SumAtLeast(s: seq<real>, b: real)
    requires forall x :: x in s ==> b <= x
    ensures Repeat(|s|, b) <= Sum(s)
  {
    if s != [] {
      var init := s[..|s| - 1];
      assert forall x :: x in init ==> x in s;
      SumAtLeast(init, b);
      assert s[|s| - 1] in s;
    }
  }

  /** min, max and avg of one metric. */
  datatype Stats = Stats(min: real, max: real, avg: real)

  /** m is the value of some selected record and no selected record is below it. */
  ghost predicate IsLeast(m: real, records: seq<Record>, metric: Metric)
  {
    (exists i :: 0 <= i < |records| && Truthy(Reading(records[i], metric)) && Reading(records[i], metric).value == m) &&
    (forall i :: 0 <= i < |records| && Truthy(Reading(records[i], metric)) ==> m <= Reading(records[i], metric).value)
  }

  /** m is the value of some selected record and no selected record is above it. */
  ghost predicate IsGreatest(m: real, records: seq<Record>, metric: Metric)
  {
    (exists i :: 0 <= i < |records| && Truthy(Reading(records[i], metric)) && Reading(records[i], metric).value == m) &&
    (forall i :: 0 <= i < |records| && Truthy(Reading(records[i], metric)) ==> Reading(records[i], metric).value <= m)
  }

  /** The minimum of the selected values is the least selected reading. */
  lemma LeastOfSelected(records: seq<Record>, m: Metric, lo: real)
    requires lo in Selected(records, m)
    requires forall x :: x in Selected(records, m) ==> lo <= x
    ensures IsLeast(lo, records, m)
  {
    SelectedMembers(records, m);
    var i :| 0 <= i < |records| && Reading(records[i], m) == Some(lo);
    assert Truthy(Reading(records[i], m));
  }

  /** The maximum of the selected values is the greatest selected reading. */
  lemma GreatestOfSelected(records: seq<Record>, m: Metric, hi: real)
    requires hi in Selected(records, m)
    requires forall x :: x in Selected(records, m) ==> x <= hi
    ensures IsGreatest(hi, records, m)
  {
    SelectedMembers(records, m);
    var i :| 0 <= i < |records| && Reading(records[i], m) == Some(hi);
    assert Truthy(Reading(records[i], m));
  }

  /** min/max/avg of one metric; None where min() would raise because no
      record is selected. */
  function StatsOf(records: seq<Record>, m: Metric): (st: Option<Stats>)
    ensures st.None? <==> forall i :: 0 <= i < |records| ==> !Truthy(Reading(records[i], m))
    ensures st.Some? ==> IsLeast(st.value.min, records, m) && IsGreatest(st.value.max, records, m)
    ensures st.Some? ==> st.value.min <= st.value.max
    ensures st.Some? ==> st.value.avg == SumTruthy(records, m) / (|records| as real)
  {
    var vs := Selected(records, m);
    SelectedMembers(records, m);
    if vs == [] then None
    else
      var lo := Min(vs);
      var hi := Max(vs);
      LeastOfSelected(records, m, lo);
      GreatestOfSelected(records, m, hi);
      Some(Stats(lo, hi, Sum(vs) / (|records| as real)))
  }

  /** any(r.position_lat for r in records) */
  predicate IsGpxActivity(records: seq<Record>)
  {
    exists i :: 0 <= i < |records| && Truthy(records[i].positionLat)
  }

  /** What create_activity_file knows before it builds messages. altitude is
      present exactly for geolocated activities. */
  datatype Summary = Summary(
    startTimestamp: real,
    endTimestamp: real,
    totalTime: real,
    heartRate: Stats,
    isGpxActivity: bool,
    altitude: Option<Stats>)

  /** The aggregation at the head of create_activity_file, failing where the
      Python raises: on an empty record list (record_messages[0]), when no heart
      rate is selected (min() of nothing), and when a geolocated activity has no
      altitude selected. */
  function Aggregate(records: seq<Record>): (r: Result<Summary, ConversionError>)
    ensures r.Err? ==> r.error == EmptySampleSet || r.error == NoHeartRate || r.error == NoAltitude
    ensures r == Err(EmptySampleSet) <==> records == []
    ensures r == Err(NoHeartRate) <==>
              records != [] && forall i :: 0 <= i < |records| ==> !Truthy(Reading(records[i], HeartRate))
    ensures r == Err(NoAltitude) <==>
              records != [] && (exists i :: 0 <= i < |records| && Truthy(Reading(records[i], HeartRate))) &&
              IsGpxActivity(records) && forall i :: 0 <= i < |records| ==> !Truthy(Reading(records[i], Altitude))
    ensures r.Ok? ==>
              r.value.startTimestamp == records[0].timestamp &&
              r.value.endTimestamp == records[|records| - 1].timestamp &&
              r.value.totalTime == (records[|records| - 1].timestamp - records[0].timestamp) / 1000.0
    ensures r.Ok? ==>
              IsLeast(r.value.heartRate.min, records, HeartRate) &&
              IsGreatest(r.value.heartRate.max, records, HeartRate) &&
              r.value.heartRate.avg == SumTruthy(records, HeartRate) / (|records| as real)
    ensures r.Ok? ==>
              (r.value.isGpxActivity <==> IsGpxActivity(records)) &&
              (r.value.altitude.Some? <==> r.value.isGpxActivity) &&
              (r.value.altitude.Some? ==>
                 IsLeast(r.value.altitude.value.min, records, Altitude) &&
                 IsGreatest(r.value.altitude.value.max, records, Altitude) &&
                 r.value.altitude.value.avg == SumTruthy(records, Altitude) / (|records| as real))
  {
    if records == [] then Err(EmptySampleSet)
    else
      Summarise(records[0].timestamp, records[|records| - 1].timestamp,
                StatsOf(records, HeartRate), IsGpxActivity(records), StatsOf(records, Altitude))
  }

  /** The summary once the statistics are known; altitude statistics are looked
      at only for a geolocated activity. */
  function Summarise(start: real, end: real, hr: Option<Stats>, gpx: bool, alt: Option<Stats>): Result<Summary, ConversionError>
  {
    match hr
    case None => Err(NoHeartRate)
    case Some(h) =>
      if !gpx then Ok(Summary(start, end, (end - start) / 1000.0, h, false, None))
      else
        match alt
        case None => Err(NoAltitude)
        case Some(a) => Ok(Summary(start, end, (end - start) / 1000.0, h, true, Some(a)))
  }

  /** A non-empty aggregation is the summary of its endpoints and statistics. */
  lemma AggregateUnfolds(records: seq<Record>)
    requires records != []
    ensures Aggregate(records) ==
            Summarise(records[0].timestamp, records[|records| - 1].timestamp,
                      StatsOf(records, HeartRate), IsGpxActivity(records), StatsOf(records, Altitude))
  {
  }

  /** The statistics of a successful aggregation are those of StatsOf. */
  lemma AggregateStats(records: seq<Record>)
    requires Aggregate(records).Ok?
    ensures Some(Aggregate(records).value.heartRate) == StatsOf(records, HeartRate)
    ensures Aggregate(records).value.altitude ==
            (if IsGpxActivity(records) then StatsOf(records, Altitude) else None)
  {
  }

  /** At most k copies of b >= 0, divided by n >= k, give at most b. */
  lemma MeanAtMost(total: real, k: nat, n: nat, b: real)
    requires k <= n && 0 < n && 0.0 <= b && total <= Repeat(k, b)
    ensures total / (n as real) <= b
  {
    RepeatIsProduct(k, b);
    assert (n - k) as real * b >= 0.0;
    assert total <= n as real * b;
    assert total / (n as real) * (n as real) == total;
  }

  /** At most n copies of b, divided by n, give at most b. */
  lemma MeanAtMostAll(total: real, n: nat, b: real)
    requires 0 < n && total <= Repeat(n, b)
    ensures total / (n as real) <= b
  {
    RepeatIsProduct(n, b);
    assert total / (n as real) * (n as real) == total;
  }

  /** At least n copies of b, divided by n, give at least b. */
  lemma MeanAtLeast(total: real, n: nat, b: real)
    requires 0 < n && Repeat(n, b) <= total
    ensures b <= total / (n as real)
  {
    RepeatIsProduct(n, b);
    assert total / (n as real) * (n as real) == total;
  }

  /** With non-negative values the average never exceeds the maximum, although
      it divides by all records. */
  lemma AverageAtMostMax(records: seq<Record>, m: Metric)
    requires StatsOf(records, m).Some?
    requires StatsOf(records, m).value.max >= 0.0
    ensures StatsOf(records, m).value.avg <= StatsOf(records, m).value.max
  {
    var vs := Selected(records, m);
    assert vs != [];
    var hi := Max(vs);
    assert StatsOf(records, m).value == Stats(Min(vs), hi, Sum(vs) / (|records| as real));
    SumAtMost(vs, hi);
    MeanAtMost(Sum(vs), |vs|, |records|, hi);
  }

  /** The statistics of a metric every record has, spelled out. */
  lemma AllSelectedStats(records: seq<Record>, m: Metric) returns (vs: seq<real>)
    requires records != []
    requires forall i :: 0 <= i < |records| ==> Truthy(Reading(records[i], m))
    ensures vs == Selected(records, m) && vs != [] && |vs| == |records|
    ensures StatsOf(records, m) == Some(Stats(Min(vs), Max(vs), Sum(vs) / (|records| as real)))
  {
    assert Truthy(Reading(records[0], m));
    vs := Selected(records, m);
  }

  /** The plain mean of a non-empty sequence is at most its maximum. */
  lemma MeanAtMostMaximum(vs: seq<real>)
    requires vs != []
    ensures Sum(vs) / (|vs| as real) <= Max(vs)
  {
    SumAtMost(vs, Max(vs));
    MeanAtMostAll(Sum(vs), |vs|, Max(vs));
  }

  /** The plain mean of a non-empty sequence is at least its minimum. */
  lemma MeanAtLeastMinimum(vs: seq<real>)
    requires vs != []
    ensures Min(vs) <= Sum(vs) / (|vs| as real)
  {
    SumAtLeast(vs, Min(vs));
    MeanAtLeast(Sum(vs), |vs|, Min(vs));
  }

  /** When every record has a selected value, the average lies between the
      minimum and the maximum. */
  lemma AverageBetweenWhenAllSelected(records: seq<Record>, m: Metric)
    requires records != []
    requires forall i :: 0 <= i < |records| ==> Truthy(Reading(records[i], m))
    ensures StatsOf(records, m).Some?
    ensures StatsOf(records, m).value.min <= StatsOf(records, m).value.avg <= StatsOf(records, m).value.max
  {
    var vs := AllSelectedStats(records, m);
    MeanAtMostMaximum(vs);
    MeanAtLeastMinimum(vs);
  }

  /** Selection depends only on the truthy values, so turning a zero into an
      unset value (or back) changes nothing. */
  lemma {:induction false} SelectedAgree(a: seq<Record>, b: seq<Record>, m: Metric)
    requires |a| == |b|
    requires forall i :: 0 <= i < |a| ==> Truthy(Reading(a[i], m)) == Truthy(Reading(b[i], m))
    requires forall i :: 0 <= i < |a| && Truthy(Reading(a[i], m)) ==> Reading(a[i], m) == Reading(b[i], m)
    ensures Selected(a, m) == Selected(b, m)
  {
    if a != [] {
      var n := |a| - 1;
      assert forall i :: 0 <= i < n ==> a[..n][i] == a[i] && b[..n][i] == b[i];
      SelectedAgree(a[..n], b[..n], m);
    }
  }

  /** Records that differ only where values are not selected give the same
      statistics. */
  lemma StatsAgree(a: seq<Record>, b: seq<Record>, m: Metric)
    requires |a| == |b|
    requires Selected(a, m) == Selected(b, m)
    ensures StatsOf(a, m) == StatsOf(b, m)
  {
  }

  /** Replacing record k by one with the same timestamp, position and readings
      up to truthiness leaves the aggregation unchanged. */
  lemma AggregateAgree(records: seq<Record>, k: nat, r: Record)
    requires k < |records|
    requires r.timestamp == records[k].timestamp && r.positionLat == records[k].positionLat
    requires forall m :: Truthy(Reading(r, m)) == Truthy(Reading(records[k], m))
    requires forall m :: Truthy(Reading(r, m)) ==> Reading(r, m) == Reading(records[k], m)
    ensures Aggregate(records[k := r]) == Aggregate(records)
  {
    var changed := records[k := r];
    var hr := StatsOf(records, HeartRate);
    var alt := StatsOf(records, Altitude);
    var gpx := IsGpxActivity(records);
    assert StatsOf(changed, HeartRate) == hr by {
      SelectedAgree(records, changed, HeartRate);
      StatsAgree(records, changed, HeartRate);
    }
    assert StatsOf(changed, Altitude) == alt by {
      SelectedAgree(records, changed, Altitude);
      StatsAgree(records, changed, Altitude);
    }
    assert IsGpxActivity(changed) == gpx by {
      assert forall i :: 0 <= i < |records| ==> records[i].positionLat == changed[i].positionLat;
    }
    var start := records[0].timestamp;
    var end := records[|records| - 1].timestamp;
    assert changed[0].timestamp == start;
    assert changed[|records| - 1].timestamp == end;
    AggregateUnfolds(records);
    AggregateUnfolds(changed);
  }

  /** A heart rate of 0 counts exactly like a missing heart rate. */
  lemma ZeroHeartRateIsAbsent(records: seq<Record>, k: nat)
    requires k < |records| && records[k].heartRate == Some(0)
    ensures Aggregate(records[k := records[k].(heartRate := None)]) == Aggregate(records)
  {
    var r := records[k].(heartRate := None);
    assert Reading(r, Altitude) == Reading(records[k], Altitude);
    assert !Truthy(Reading(r, HeartRate)) && !Truthy(Reading(records[k], HeartRate));
    assert forall m :: Truthy(Reading(r, m)) == Truthy(Reading(records[k], m));
    AggregateAgree(records, k, r);
  }

  /** An altitude of 0 counts exactly like a missing altitude. */
  lemma ZeroAltitudeIsAbsent(records: seq<Record>, k: nat)
    requires k < |records| && records[k].altitude == Some(0.0)
    ensures Aggregate(records[k := records[k].(altitude := None)]) == Aggregate(records)
  {
    var r := records[k].(altitude := None);
    assert Reading(r, HeartRate) == Reading(records[k], HeartRate);
    assert !Truthy(Reading(r, Altitude)) && !Truthy(Reading(records[k], Altitude));
    assert forall m :: Truthy(Reading(r, m)) == Truthy(Reading(records[k], m));
    AggregateAgree(records, k, r);
  }

  /** Timestamps in input order never go backwards. */
  ghost predicate NonDecreasing(records: seq<Record>)
  {
    forall i :: 0 < i < |records| ==> records[i - 1].timestamp <= records[i].timestamp
  }

  /** For records in time order every timestamp lies between the first and the
      last, so every record falls inside the timer start/stop interval. */
  lemma {:induction false} WithinFirstAndLast(records: seq<Record>, k: nat)
    requires NonDecreasing(records) && k < |records|
    ensures records[0].timestamp <= records[k].timestamp <= records[|records| - 1].timestamp
  {
    if k > 0 {
      WithinFirstAndLast(records, k - 1);
    }
    if k < |records| - 1 {
      var init := records[..|records| - 1];
      assert NonDecreasing(init);
      WithinFirstAndLast(init, k);
    }
  }

  /** The elapsed time is never negative for records in time order. */
  lemma ElapsedNonNegative(records: seq<Record>)
    requires NonDecreasing(records) && Aggregate(records).Ok?
    ensures Aggregate(records).value.totalTime >= 0.0
  {
    WithinFirstAndLast(records, |records| - 1);
  }

  /** The average can fall below the minimum: one record of 100 bpm and one
      without a heart rate give min 100 and avg 50. */
  lemma AverageBelowMinimumExample()
    ensures var records := [Record(1000.0, None, None, None, Some(100)), Record(2000.0, None, None, None, None)];
            Aggregate(records).Ok? &&
            Aggregate(records).value.heartRate.min == 100.0 &&
            Aggregate(records).value.heartRate.avg == 50.0
  {
  }

  /** Below sea level the average can exceed the maximum: altitudes -10 and
      unset give max -10 and avg -5. */
  lemma AverageAboveMaximumExample()
    ensures var records := [Record(0.0, Some(1.0), Some(1.0), Some(-10.0), Some(90)),
                            Record(1000.0, Some(1.0), Some(1.0), None, Some(90))];
            Aggregate(records).Ok? &&
            Aggregate(records).value.altitude == Some(Stats(-10.0, -10.0, -5.0))
  {
    var records := [Record(0.0, Some(1.0), Some(1.0), Some(-10.0), Some(90)),
                    Record(1000.0, Some(1.0), Some(1.0), None, Some(90))];
    assert records[..1] == [records[0]];
    assert Selected(records[..1], Altitude) == [-10.0];
    assert Selected(records, Altitude) == [-10.0];
    assert Selected(records[..1], HeartRate) == [90.0];
    assert Selected(records, HeartRate) == [90.0, 90.0];
    assert IsGpxActivity(records) by { assert Truthy(records[0].positionLat); }
  }
}
