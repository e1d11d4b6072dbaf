/** Turning already-parsed input into RecordMessages: the nested loops of
    gpx_to_fit and the heart-rate loop of json_to_fit. */
module Extract {
  import opened Wrappers
  import opened Types

  /** A GPX track point after parsing: position in degrees, optional elevation,
      the time in seconds since the epoch, and the heart rate read from the
      Garmin TrackPointExtension when the point carries extensions. */
  datatype GpxPoint = GpxPoint(
    latitude: real,
    longitude: real,
    elevation: Option<real>,
    time: real,
    heartRate: Option<int>)

  /** A GPX track: its segments, each a sequence of points. */
  datatype Track = Track(segments: seq<seq<GpxPoint>>)

  /** Python's int() applied to a float: truncation toward zero. */
  function Truncate(x: real): (n: int)
    ensures 0.0 <= x ==> 0 <= n && n as real <= x < n as real + 1.0
    ensures x < 0.0 ==> n <= 0 && n as real - 1.0 < x <= n as real
  {
    if x >= 0.0 then x.Floor else -((-x).Floor)
  }

  /** The record gpx_to_fit builds from one point. */
  function PointRecord(p: GpxPoint): Record
  {
    Record(Truncate(p.time * 1000.0) as real, Some(p.latitude), Some(p.longitude), p.elevation, p.heartRate)
  }

  /** The points of a list of segments, segment after segment. */
  function SegmentPoints(segments: seq<seq<GpxPoint>>): seq<GpxPoint>
  {
    if segments == [] then [] else SegmentPoints(segments[..|segments| - 1]) + segments[|segments| - 1]
  }

  /** The points of a list of tracks, track after track. */
  function TrackPoints(tracks: seq<Track>): seq<GpxPoint>
  {
    if tracks == [] then [] else TrackPoints(tracks[..|tracks| - 1]) + SegmentPoints(tracks[|tracks| - 1].segments)
  }

  /** The records gpx_to_fit builds, one per point, in order. */
  function PointRecords(points: seq<GpxPoint>): seq<Record>
  {
    seq(|points|, i requires 0 <= i < |points| => PointRecord(points[i]))
  }

  lemma {:induction false} SegmentPointsMembers(segments: seq<seq<GpxPoint>>, p: GpxPoint)
    ensures p in SegmentPoints(segments) <==> exists s :: 0 <= s < |segments| && p in segments[s]
  {
    if segments != [] {
      var init := segments[..|segments| - 1];
      SegmentPointsMembers(init, p);
      if p in SegmentPoints(init) {
        var s :| 0 <= s < |init| && p in init[s];
        assert segments[s] == init[s];
      }
      if exists s :: 0 <= s < |segments| && p in segments[s] {
        var s :| 0 <= s < |segments| && p in segments[s];
        if s < |init| {
          assert init[s] == segments[s];
        }
      }
    }
  }

  /** Every point of every segment of every track yields a record, and nothing
      else does. */
  lemma {:induction false} TrackPointsMembers(tracks: seq<Track>, p: GpxPoint)
    ensures p in TrackPoints(tracks) <==>
            exists t, s :: 0 <= t < |tracks| && 0 <= s < |tracks[t].segments| && p in tracks[t].segments[s]
  {
    if tracks != [] {
      var init := tracks[..|tracks| - 1];
      var last := tracks[|tracks| - 1];
      TrackPointsMembers(init, p);
      SegmentPointsMembers(last.segments, p);
      if p in TrackPoints(init) {
        var t, s :| 0 <= t < |init| && 0 <= s < |init[t].segments| && p in init[t].segments[s];
        assert tracks[t] == init[t];
      }
      if p in SegmentPoints(last.segments) {
        var s :| 0 <= s < |last.segments| && p in last.segments[s];
        assert tracks[|tracks| - 1] == last;
      }
      if exists t, s :: 0 <= t < |tracks| && 0 <= s < |tracks[t].segments| && p in tracks[t].segments[s] {
        var t, s :| 0 <= t < |tracks| && 0 <= s < |tracks[t].segments| && p in tracks[t].segments[s];
        if t < |init| {
          assert init[t] == tracks[t];
        }
      }
    }
  }

  /** The nested loops of gpx_to_fit: one record per point, tracks, then
      segments, then points, in input order. */
  method GpxRecords(tracks: seq<Track>) returns (records: seq<Record>)
    ensures |records| == |TrackPoints(tracks)|
    ensures forall i :: 0 <= i < |records| ==> records[i] == PointRecord(TrackPoints(tracks)[i])
  {
    records := [];
    ghost var visited: seq<GpxPoint> := [];
    for t := 0 to |tracks|
      invariant visited == TrackPoints(tracks[..t])
      invariant |records| == |visited|
      invariant forall i :: 0 <= i < |records| ==> records[i] == PointRecord(visited[i])
    {
      var segments := tracks[t].segments;
      for s := 0 to |segments|
        invariant visited == TrackPoints(tracks[..t]) + SegmentPoints(segments[..s])
        invariant |records| == |visited|
        invariant forall i :: 0 <= i < |records| ==> records[i] == PointRecord(visited[i])
      {
        var points := segments[s];
        for k := 0 to |points|
          invariant visited == TrackPoints(tracks[..t]) + SegmentPoints(segments[..s]) + points[..k]
          invariant |records| == |visited|
          invariant forall i :: 0 <= i < |records| ==> records[i] == PointRecord(visited[i])
        {
          records := records + [PointRecord(points[k])];
          visited := visited + [points[k]];
          assert points[..k + 1] == points[..k] + [points[k]];
        }
        assert points[..|points|] == points;
        assert segments[..s + 1][..s] == segments[..s];
      }
      assert segments[..|segments|] == segments;
      assert tracks[..t + 1][..t] == tracks[..t];
    }
    assert tracks[..|tracks|] == tracks;
  }

  /** The records json_to_fit builds from time_series.heartrate. */
  function JsonSamples(startSeconds: real, heartRate: seq<(real, real)>): seq<Record>
  {
    seq(|heartRate|, i requires 0 <= i < |heartRate| =>
      Record((startSeconds + heartRate[i].0) * 1000.0, None, None, None, Some(Truncate(heartRate[i].1))))
  }

  /** The loop of json_to_fit over [offset, bpm] pairs: one record per pair, in
      order, timestamped (start + offset) * 1000 with heart rate int(bpm) and no
      position or altitude. */
  method JsonRecords(startSeconds: real, heartRate: seq<(real, real)>) returns (records: seq<Record>)
    ensures |records| == |heartRate|
    ensures forall i :: 0 <= i < |records| ==>
              records[i].timestamp == (startSeconds + heartRate[i].0) * 1000.0 &&
              records[i].heartRate == Some(Truncate(heartRate[i].1)) &&
              records[i].positionLat == None && records[i].positionLong == None &&
              records[i].altitude == None
    ensures records == JsonSamples(startSeconds, heartRate)
  {
    records := [];
    for k := 0 to |heartRate|
      invariant records == JsonSamples(startSeconds, heartRate[..k])
    {
      var (second, bpm) := heartRate[k];
      var record := Record((startSeconds + second) * 1000.0, None, None, None, Some(Truncate(bpm)));
      records := records + [record];
    }
    assert heartRate[..|heartRate|] == heartRate;
  }
}
