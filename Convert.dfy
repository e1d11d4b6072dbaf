/** gpx_to_fit and json_to_fit: extract records, classify by file name, and
    build the message list, up to the point where it goes to the FIT builder. */
module Convert {
  import opened Wrappers
  import opened Profile
  import opened Types
  import opened Extract
  import opened Classify
  import opened Aggregator
  import opened Encoder

  /** What converting one file yields: nothing for a skipped tracking file, or
      the message list written to the .fit file. */
  datatype Outcome = Skipped | Converted(messages: seq<Message>)

  /** gpx_to_fit: records from every track point, then the GPX prefix chain,
      then create_activity_file. An unrecognised prefix fails before any
      aggregation; otherwise the result is the message list of the records with
      the descriptor of the prefix and no sub-sport. */
  method GpxToFit(tracks: seq<Track>, fitFilename: string) returns (r: Result<Outcome, ConversionError>)
    ensures ClassifyGpx(fitFilename).Err? ==> r == Err(UnclassifiedActivity(fitFilename))
    ensures ClassifyGpx(fitFilename).Ok? && Aggregate(PointRecords(TrackPoints(tracks))).Err? ==>
              r == Err(Aggregate(PointRecords(TrackPoints(tracks))).error)
    ensures ClassifyGpx(fitFilename).Ok? && Aggregate(PointRecords(TrackPoints(tracks))).Ok? ==>
              r.Ok? && r.value.Converted? &&
              ValidStream(r.value.messages, PointRecords(TrackPoints(tracks)), ClassifyGpx(fitFilename).value,
                          Aggregate(PointRecords(TrackPoints(tracks))).value)
    ensures r.Ok? ==> r.value.Converted? && |r.value.messages| == |TrackPoints(tracks)| + 6
  {
    var records := GpxRecords(tracks);
    assert records == PointRecords(TrackPoints(tracks));
    var descriptor := ClassifyGpx(fitFilename);
    if descriptor.Err? {
      return Err(descriptor.error);
    }
    var created := CreateActivityFile(records, descriptor.value);
    if created.Err? {
      return Err(created.error);
    }
    return Ok(Converted(created.value));
  }

  /** json_to_fit: tracking files are skipped before anything else; otherwise
      one record per [offset, bpm] pair, then the JSON prefix chain, then
      create_activity_file. */
  method JsonToFit(startSeconds: real, heartRate: seq<(real, real)>, fitFilename: string)
    returns (r: Result<Outcome, ConversionError>)
    ensures r == Ok(Skipped) <==> IsTrackingFile(fitFilename)
    ensures !IsTrackingFile(fitFilename) && ClassifyJson(fitFilename).Err? ==>
              r == Err(UnclassifiedActivity(fitFilename))
    ensures !IsTrackingFile(fitFilename) && ClassifyJson(fitFilename).Ok? &&
            Aggregate(JsonSamples(startSeconds, heartRate)).Err? ==>
              r == Err(Aggregate(JsonSamples(startSeconds, heartRate)).error)
    ensures !IsTrackingFile(fitFilename) && ClassifyJson(fitFilename).Ok? &&
            Aggregate(JsonSamples(startSeconds, heartRate)).Ok? ==>
              r.Ok? && r.value.Converted? &&
              ValidStream(r.value.messages, JsonSamples(startSeconds, heartRate), ClassifyJson(fitFilename).value,
                          Aggregate(JsonSamples(startSeconds, heartRate)).value)
    ensures r.Ok? && r.value.Converted? ==> |r.value.messages| == |heartRate| + 6
  {
    if IsTrackingFile(fitFilename) {
      return Ok(Skipped);
    }
    var records := JsonRecords(startSeconds, heartRate);
    var descriptor := ClassifyJson(fitFilename);
    if descriptor.Err? {
      return Err(descriptor.error);
    }
    var created := CreateActivityFile(records, descriptor.value);
    if created.Err? {
      return Err(created.error);
    }
    return Ok(Converted(created.value));
  }

  /** The heart-rate statistics of the gym export below: min 100, max 120,
      and avg 330 / 3 = 110. */
  lemma GymHeartRate(records: seq<Record>)
    requires records == JsonSamples(1.0, [(0.0, 100.0), (1.0, 110.0), (2.0, 120.0)])
    ensures StatsOf(records, HeartRate) == Some(Stats(100.0, 120.0, 110.0))
  {
    assert records[0].heartRate == Some(100) && records[1].heartRate == Some(110) && records[2].heartRate == Some(120);
    assert records[..2][..1] == records[..1];
    assert Selected(records[..1], HeartRate) == [100.0];
    assert Selected(records[..2], HeartRate) == [100.0, 110.0];
    var vs := [100.0, 110.0, 120.0];
    assert Selected(records, HeartRate) == vs;
    assert vs[1..] == [110.0, 120.0] && vs[1..][1..] == [120.0];
    assert Min(vs) == 100.0 && Max(vs) == 120.0;
    assert Sum([100.0]) == 100.0 by { assert [100.0][..0] == []; }
    assert Sum([100.0, 110.0]) == 210.0 by { assert [100.0, 110.0][..1] == [100.0]; }
    assert Sum(vs) == 330.0 by { assert vs[..2] == [100.0, 110.0]; }
  }

  /** A gym export with heart rates 100, 110 and 120 one second apart starting
      at second 1: timestamps 1000 to 3000 ms, 2 s elapsed, heart rate
      100/120/110, not geolocated, classified as cardio training. */
  lemma GymExample()
    ensures var records := JsonSamples(1.0, [(0.0, 100.0), (1.0, 110.0), (2.0, 120.0)]);
            Aggregate(records) == Ok(Summary(1000.0, 3000.0, 2.0, Stats(100.0, 120.0, 110.0), false, None))
    ensures ClassifyJson("gym_session.fit") ==
            Ok(Descriptor(ActivityType.Generic, Sport.Training, Some(SubSport.CardioTraining)))
  {
    var records := JsonSamples(1.0, [(0.0, 100.0), (1.0, 110.0), (2.0, 120.0)]);
    assert records[0].timestamp == 1000.0 && records[2].timestamp == 3000.0;
    assert !IsGpxActivity(records);
    GymHeartRate(records);
    AggregateUnfolds(records);
  }
}
