/** The message list create_activity_file hands to the FIT file builder:
    file id, timer start, the records, timer stop, lap, session, activity. */
module Encoder {
  import opened Wrappers
  import opened Profile
  import opened Types
  import opened Aggregator

  /** The product name written into every file id ("My sports watch"). */
  const ProductName: string := "TomTom Adventurer"

  datatype FileIdMessage = FileIdMessage(
    fileType: FileType,
    manufacturer: Manufacturer,
    productName: string,
    timeCreated: real)

  datatype EventMessage = EventMessage(event: Event, eventType: EventType, timestamp: real)

  /** A lap message; the Option fields are left unset unless the activity is
      geolocated. */
  datatype LapMessage = LapMessage(
    timestamp: real,
    startTime: real,
    totalElapsedTime: real,
    totalTimerTime: real,
    avgHeartRate: real,
    minHeartRate: real,
    maxHeartRate: real,
    startPositionLat: Option<real>,
    startPositionLong: Option<real>,
    endPositionLat: Option<real>,
    endPositionLong: Option<real>,
    minAltitude: Option<real>,
    maxAltitude: Option<real>,
    avgAltitude: Option<real>)

  /** A session message; sub_sport is set only when a sub-sport is supplied,
      positions and altitudes only for a geolocated activity. */
  datatype SessionMessage = SessionMessage(
    messageIndex: nat,
    sport: Sport,
    subSport: Option<SubSport>,
    timestamp: real,
    startTime: real,
    totalElapsedTime: real,
    totalTimerTime: real,
    avgHeartRate: real,
    minHeartRate: real,
    maxHeartRate: real,
    startPositionLat: Option<real>,
    startPositionLong: Option<real>,
    avgAltitude: Option<real>,
    minAltitude: Option<real>,
    maxAltitude: Option<real>)

  datatype ActivityMessage = ActivityMessage(
    timestamp: real,
    totalTimerTime: real,
    numSessions: nat,
    activityType: ActivityType,
    localTimestamp: real)

  /** One entry of the list given to FitFileBuilder.add_all. */
  datatype Message =
    | FileIdMsg(fileId: FileIdMessage)
    | EventMsg(ev: EventMessage)
    | RecordMsg(record: Record)
    | LapMsg(lap: LapMessage)
    | SessionMsg(session: SessionMessage)
    | ActivityMsg(activity: ActivityMessage)

  /** The records a message list carries, in order: what a reader of the
      finished list gets back. */
  function RecordsOf(messages: seq<Message>): seq<Record>
  {
    if messages == [] then []
    else (if messages[0].RecordMsg? then [messages[0].record] else []) + RecordsOf(messages[1..])
  }

  lemma {:induction false} RecordsOfConcat(a: seq<Message>, b: seq<Message>)
    ensures RecordsOf(a + b) == RecordsOf(a) + RecordsOf(b)
  {
    if a == [] {
      assert a + b == b;
    } else {
      var c := a + b;
      assert c[0] == a[0];
      assert c[1..] == a[1..] + b;
      RecordsOfConcat(a[1..], b);
      var first := if a[0].RecordMsg? then [a[0].record] else [];
      assert RecordsOf(c) == first + (RecordsOf(a[1..]) + RecordsOf(b));
      assert RecordsOf(a) == first + RecordsOf(a[1..]);
    }
  }

  /** Wrapping records as messages and reading them back returns the records. */
  lemma {:induction false} RecordsOfWrapped(records: seq<Record>, wrapped: seq<Message>)
    requires |wrapped| == |records|
    requires forall i :: 0 <= i < |records| ==> wrapped[i] == RecordMsg(records[i])
    ensures RecordsOf(wrapped) == records
  {
    if records != [] {
      RecordsOfWrapped(records[1..], wrapped[1..]);
    }
  }

  /** The lap covers the whole activity: end and start timestamps, the elapsed
      time twice, the heart-rate statistics, and for a geolocated activity the
      first and last positions and the altitude statistics. */
  ghost predicate LapSummarises(lap: LapMessage, records: seq<Record>, s: Summary)
  {
    records != [] &&
    lap.timestamp == records[|records| - 1].timestamp &&
    lap.startTime == records[0].timestamp &&
    lap.totalElapsedTime == s.totalTime && lap.totalTimerTime == s.totalTime &&
    lap.minHeartRate == s.heartRate.min && lap.maxHeartRate == s.heartRate.max &&
    lap.avgHeartRate == s.heartRate.avg &&
    if s.isGpxActivity then
      s.altitude.Some? &&
      lap.startPositionLat == records[0].positionLat && lap.startPositionLong == records[0].positionLong &&
      lap.endPositionLat == records[|records| - 1].positionLat &&
      lap.endPositionLong == records[|records| - 1].positionLong &&
      lap.minAltitude == Some(s.altitude.value.min) && lap.maxAltitude == Some(s.altitude.value.max) &&
      lap.avgAltitude == Some(s.altitude.value.avg)
    else
      lap.startPositionLat == None && lap.startPositionLong == None &&
      lap.endPositionLat == None && lap.endPositionLong == None &&
      lap.minAltitude == None && lap.maxAltitude == None && lap.avgAltitude == None
  }

  /** The session: index 1, the sport, the sub-sport exactly when one is
      supplied, stamped at the start, the elapsed time twice, the heart-rate
      statistics, and for a geolocated activity only the start position and the
      altitude statistics. */
  ghost predicate SessionSummarises(session: SessionMessage, records: seq<Record>, d: Descriptor, s: Summary)
  {
    records != [] &&
    session.messageIndex == 1 && session.sport == d.sport && session.subSport == d.subSport &&
    session.timestamp == records[0].timestamp && session.startTime == records[0].timestamp &&
    session.totalElapsedTime == s.totalTime && session.totalTimerTime == s.totalTime &&
    session.minHeartRate == s.heartRate.min && session.maxHeartRate == s.heartRate.max &&
    session.avgHeartRate == s.heartRate.avg &&
    if s.isGpxActivity then
      s.altitude.Some? &&
      session.startPositionLat == records[0].positionLat &&
      session.startPositionLong == records[0].positionLong &&
      session.minAltitude == Some(s.altitude.value.min) && session.maxAltitude == Some(s.altitude.value.max) &&
      session.avgAltitude == Some(s.altitude.value.avg)
    else
      session.startPositionLat == None && session.startPositionLong == None &&
      session.minAltitude == None && session.maxAltitude == None && session.avgAltitude == None
  }

  /** The whole list: [file id, timer start, records..., timer stop, lap,
      session, activity], every timestamp taken from the first or last record,
      the elapsed time (last - first) / 1000. */
  ghost predicate ValidStream(messages: seq<Message>, records: seq<Record>, d: Descriptor, s: Summary)
  {
    var n := |records|;
    n > 0 && |messages| == n + 6 &&
    messages[0] == FileIdMsg(FileIdMessage(FileType.Activity, Manufacturer.TomTom, ProductName, records[0].timestamp)) &&
    messages[1] == EventMsg(EventMessage(Event.Timer, EventType.Start, records[0].timestamp)) &&
    (forall i :: 0 <= i < n ==> messages[i + 2] == RecordMsg(records[i])) &&
    messages[n + 2] == EventMsg(EventMessage(Event.Timer, EventType.StopAll, records[n - 1].timestamp)) &&
    messages[n + 3].LapMsg? && LapSummarises(messages[n + 3].lap, records, s) &&
    messages[n + 4].SessionMsg? && SessionSummarises(messages[n + 4].session, records, d, s) &&
    messages[n + 5] == ActivityMsg(ActivityMessage(records[0].timestamp, s.totalTime, 1, d.activityType,
                                                   records[0].timestamp / 1000.0))
  }

  /** The lap fields create_activity_file assigns. */
  method BuildLap(records: seq<Record>, s: Summary) returns (lap: LapMessage)
    requires records != []
    requires s.isGpxActivity ==> s.altitude.Some?
    ensures LapSummarises(lap, records, s)
  {
    var startTimestamp := records[0].timestamp;
    var endTimestamp := records[|records| - 1].timestamp;
    lap := LapMessage(endTimestamp, startTimestamp, s.totalTime, s.totalTime,
                      s.heartRate.avg, s.heartRate.min, s.heartRate.max,
                      None, None, None, None, None, None, None);
    if s.isGpxActivity {
      var altitude := s.altitude.value;
      lap := lap.(startPositionLat := records[0].positionLat, startPositionLong := records[0].positionLong,
                  endPositionLat := records[|records| - 1].positionLat,
                  endPositionLong := records[|records| - 1].positionLong,
                  minAltitude := Some(altitude.min), maxAltitude := Some(altitude.max),
                  avgAltitude := Some(altitude.avg));
    }
  }

  /** The session fields create_activity_file assigns; `if subsport:` sets the
      sub-sport only when one is supplied. */
  method BuildSession(records: seq<Record>, d: Descriptor, s: Summary) returns (session: SessionMessage)
    requires records != []
    requires s.isGpxActivity ==> s.altitude.Some?
    ensures SessionSummarises(session, records, d, s)
  {
    var startTimestamp := records[0].timestamp;
    session := SessionMessage(1, d.sport, None, startTimestamp, startTimestamp, s.totalTime, s.totalTime,
                              s.heartRate.avg, s.heartRate.min, s.heartRate.max,
                              None, None, None, None, None);
    if d.subSport.Some? {
      session := session.(subSport := d.subSport);
    }
    if s.isGpxActivity {
      var altitude := s.altitude.value;
      session := session.(startPositionLat := records[0].positionLat,
                          startPositionLong := records[0].positionLong,
                          avgAltitude := Some(altitude.avg), minAltitude := Some(altitude.min),
                          maxAltitude := Some(altitude.max));
    }
  }

  /** The list literal of create_activity_file, records spliced in. */
  function MessageList(fileId: FileIdMessage, timerStart: EventMessage, records: seq<Record>,
                       timerStop: EventMessage, lap: LapMessage, session: SessionMessage,
                       activity: ActivityMessage): seq<Message>
  {
    [FileIdMsg(fileId), EventMsg(timerStart)]
    + seq(|records|, i requires 0 <= i < |records| => RecordMsg(records[i]))
    + [EventMsg(timerStop), LapMsg(lap), SessionMsg(session), ActivityMsg(activity)]
  }

  /** The list literal puts every message in its place and the records back to
      back between the timer events. */
  lemma MessageListLayout(fileId: FileIdMessage, timerStart: EventMessage, records: seq<Record>,
                          timerStop: EventMessage, lap: LapMessage, session: SessionMessage,
                          activity: ActivityMessage)
    ensures var ms := MessageList(fileId, timerStart, records, timerStop, lap, session, activity);
            var n := |records|;
            |ms| == n + 6 && ms[0] == FileIdMsg(fileId) && ms[1] == EventMsg(timerStart) &&
            (forall i :: 0 <= i < n ==> ms[i + 2] == RecordMsg(records[i])) &&
            ms[n + 2] == EventMsg(timerStop) && ms[n + 3] == LapMsg(lap) &&
            ms[n + 4] == SessionMsg(session) && ms[n + 5] == ActivityMsg(activity) &&
            RecordsOf(ms) == records
  {
    var head := [FileIdMsg(fileId), EventMsg(timerStart)];
    var body := seq(|records|, i requires 0 <= i < |records| => RecordMsg(records[i]));
    var tail := [EventMsg(timerStop), LapMsg(lap), SessionMsg(session), ActivityMsg(activity)];
    RecordsOfWrapped(records, body);
    RecordsOfConcat(head, body);
    RecordsOfConcat(head + body, tail);
    assert RecordsOf(tail) == [] by {
      assert tail[3..][1..] == [];
      assert RecordsOf(tail[3..]) == [];
      assert tail[2..][1..] == tail[3..];
      assert RecordsOf(tail[2..]) == [];
      assert tail[1..][1..] == tail[2..];
      assert RecordsOf(tail[1..]) == [];
    }
    assert RecordsOf(head) == [] by {
      assert head[1..][1..] == [];
    }
  }

  /** The messages of create_activity_file once the summary is known: every
      field of every message filled, listed in order. */
  method BuildMessages(records: seq<Record>, d: Descriptor, s: Summary) returns (messages: seq<Message>)
    requires records != []
    requires s.isGpxActivity ==> s.altitude.Some?
    ensures ValidStream(messages, records, d, s)
    ensures |messages| == |records| + 6 && RecordsOf(messages) == records
  {
    var startTimestamp := records[0].timestamp;
    var endTimestamp := records[|records| - 1].timestamp;

    var fileId := FileIdMessage(FileType.Activity, Manufacturer.TomTom, ProductName, startTimestamp);
    var timerStart := EventMessage(Event.Timer, EventType.Start, startTimestamp);
    var timerStop := EventMessage(Event.Timer, EventType.StopAll, endTimestamp);
    var lap := BuildLap(records, s);
    var session := BuildSession(records, d, s);
    var activity := ActivityMessage(startTimestamp, s.totalTime, 1, d.activityType, startTimestamp / 1000.0);

    messages := MessageList(fileId, timerStart, records, timerStop, lap, session, activity);
    MessageListLayout(fileId, timerStart, records, timerStop, lap, session, activity);
  }

  /** create_activity_file up to the FIT builder: aggregate, then fill each
      message and list them in order. It fails exactly where the aggregation
      fails; otherwise the list has the fixed layout of ValidStream, carries the
      records unchanged, and its lap, session and activity carry the aggregated
      statistics. */
  method CreateActivityFile(records: seq<Record>, d: Descriptor) returns (r: Result<seq<Message>, ConversionError>)
    ensures Aggregate(records).Err? ==> r == Err(Aggregate(records).error)
    ensures Aggregate(records).Ok? ==> r.Ok? && ValidStream(r.value, records, d, Aggregate(records).value)
    ensures r.Ok? ==> |r.value| == |records| + 6 && RecordsOf(r.value) == records
  {
    var aggregated := Aggregate(records);
    if aggregated.Err? {
      return Err(aggregated.error);
    }
    var messages := BuildMessages(records, d, aggregated.value);
    return Ok(messages);
  }
}
