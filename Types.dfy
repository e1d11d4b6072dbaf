/** The data the converter passes between its stages. */
module Types {
  import opened Wrappers
  import opened Profile

  /** One RecordMessage as the converter fills it. The timestamp is in
      milliseconds; every other field stays unset (None) unless the input
      provided it. */
  datatype Record = Record(
    timestamp: real,
    positionLat: Option<real>,
    positionLong: Option<real>,
    altitude: Option<real>,
    heartRate: Option<int>)

  /** The classification a file name prefix selects: the activity type of the
      activity message, and the sport and optional sub-sport of the session. */
  datatype Descriptor = Descriptor(activityType: ActivityType, sport: Sport, subSport: Option<SubSport>)

  /** The ways the conversion of one file stops without producing messages.
      UnclassifiedActivity: no prefix matched, so activity_type is never bound.
      EmptySampleSet: record_messages[0] on an empty list.
      NoHeartRate / NoAltitude: min() over an empty selection. */
  datatype ConversionError =
    | UnclassifiedActivity(filename: string)
    | EmptySampleSet
    | NoHeartRate
    | NoAltitude
}
