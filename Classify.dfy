/** Choosing the activity type, sport and sub-sport from the output file name,
    as the if/elif chains of gpx_to_fit and json_to_fit do. */
module Classify {
  import opened Wrappers
  import opened Profile
  import opened Types

  /** str.startswith */
  predicate StartsWith(name: string, prefix: string)
  {
    prefix <= name
  }

  /** Two prefixes of one name agree wherever both are defined. */
  lemma PrefixesAgree(name: string, p: string, q: string, k: nat)
    requires StartsWith(name, p) && StartsWith(name, q)
    requires k < |p| && k < |q|
    ensures p[k] == q[k]
  {
    assert p[k] == name[k] && q[k] == name[k];
  }

  /** The chain of gpx_to_fit. Its else branch builds a ValueError and drops it,
      so activity_type stays unbound and the call after the chain fails: the file
      is not converted. */
  function ClassifyGpx(fitFilename: string): (r: Result<Descriptor, ConversionError>)
    ensures r.Ok? ==> r.value.subSport == None
    ensures r.Err? ==> r.error == UnclassifiedActivity(fitFilename)
  {
    if StartsWith(fitFilename, "cycling_") then
      Ok(Descriptor(ActivityType.Cycling, Sport.Cycling, None))
    else if StartsWith(fitFilename, "hiking_") then
      Ok(Descriptor(ActivityType.Running, Sport.Hiking, None))
    else if StartsWith(fitFilename, "running_") then
      Ok(Descriptor(ActivityType.Running, Sport.Running, None))
    else
      Err(UnclassifiedActivity(fitFilename))
  }

  /** json_to_fit returns before doing anything for these files. */
  predicate IsTrackingFile(fitFilename: string)
  {
    StartsWith(fitFilename, "tracking_")
  }

  /** The chain of json_to_fit, reached only for names that are not tracking
      files; its else branch fails in the same way as the GPX one. */
  function ClassifyJson(fitFilename: string): (r: Result<Descriptor, ConversionError>)
    ensures r.Ok? ==> r.value.subSport.Some?
    ensures r.Err? ==> r.error == UnclassifiedActivity(fitFilename)
  {
    if StartsWith(fitFilename, "gym_") then
      Ok(Descriptor(ActivityType.Generic, Sport.Training, Some(SubSport.CardioTraining)))
    else if StartsWith(fitFilename, "indoor_cycling_") then
      Ok(Descriptor(ActivityType.Cycling, Sport.Cycling, Some(SubSport.IndoorCycling)))
    else if StartsWith(fitFilename, "treadmill_") then
      Ok(Descriptor(ActivityType.Running, Sport.Running, Some(SubSport.Treadmill)))
    else
      Err(UnclassifiedActivity(fitFilename))
  }

  /** The prefixes the GPX chain tests, with the descriptor each one selects. */
  const GpxTable: seq<(string, Descriptor)> := [
    ("cycling_", Descriptor(ActivityType.Cycling, Sport.Cycling, None)),
    ("hiking_", Descriptor(ActivityType.Running, Sport.Hiking, None)),
    ("running_", Descriptor(ActivityType.Running, Sport.Running, None))
  ]

  /** The prefixes the JSON chain tests, with the descriptor each one selects. */
  const JsonTable: seq<(string, Descriptor)> := [
    ("gym_", Descriptor(ActivityType.Generic, Sport.Training, Some(SubSport.CardioTraining))),
    ("indoor_cycling_", Descriptor(ActivityType.Cycling, Sport.Cycling, Some(SubSport.IndoorCycling))),
    ("treadmill_", Descriptor(ActivityType.Running, Sport.Running, Some(SubSport.Treadmill)))
  ]

  /** A name matches some row of a table with descriptor d. */
  predicate Matches(table: seq<(string, Descriptor)>, name: string, d: Descriptor)
  {
    exists i :: 0 <= i < |table| && StartsWith(name, table[i].0) && table[i].1 == d
  }

  /** The GPX chain agrees with its table in both directions: a name classifies
      as d exactly when a row whose prefix the name starts with says d, and it
      is refused exactly when no prefix matches. */
  lemma GpxTableExact(name: string, d: Descriptor)
    ensures ClassifyGpx(name) == Ok(d) <==> Matches(GpxTable, name, d)
    ensures ClassifyGpx(name).Err? <==> forall i :: 0 <= i < |GpxTable| ==> !StartsWith(name, GpxTable[i].0)
  {
    if StartsWith(name, "cycling_") {
      assert StartsWith(name, GpxTable[0].0);
      if StartsWith(name, "hiking_") { PrefixesAgree(name, "cycling_", "hiking_", 0); }
      if StartsWith(name, "running_") { PrefixesAgree(name, "cycling_", "running_", 0); }
    } else if StartsWith(name, "hiking_") {
      assert StartsWith(name, GpxTable[1].0);
      if StartsWith(name, "running_") { PrefixesAgree(name, "hiking_", "running_", 0); }
    } else if StartsWith(name, "running_") {
      assert StartsWith(name, GpxTable[2].0);
    }
  }

  /** The JSON chain agrees with its table in both directions. */
  lemma JsonTableExact(name: string, d: Descriptor)
    ensures ClassifyJson(name) == Ok(d) <==> Matches(JsonTable, name, d)
    ensures ClassifyJson(name).Err? <==> forall i :: 0 <= i < |JsonTable| ==> !StartsWith(name, JsonTable[i].0)
  {
    if StartsWith(name, "gym_") {
      assert StartsWith(name, JsonTable[0].0);
      if StartsWith(name, "indoor_cycling_") { PrefixesAgree(name, "gym_", "indoor_cycling_", 0); }
      if StartsWith(name, "treadmill_") { PrefixesAgree(name, "gym_", "treadmill_", 0); }
    } else if StartsWith(name, "indoor_cycling_") {
      assert StartsWith(name, JsonTable[1].0);
      if StartsWith(name, "treadmill_") { PrefixesAgree(name, "indoor_cycling_", "treadmill_", 0); }
    } else if StartsWith(name, "treadmill_") {
      assert StartsWith(name, JsonTable[2].0);
    }
  }

  /** No JSON activity prefix is also a tracking prefix, so skipping tracking
      files first removes no activity. */
  lemma TrackingDisjointFromJsonTable(name: string)
    requires IsTrackingFile(name)
    ensures ClassifyJson(name).Err?
  {
    if StartsWith(name, "gym_") { PrefixesAgree(name, "tracking_", "gym_", 0); }
    if StartsWith(name, "indoor_cycling_") { PrefixesAgree(name, "tracking_", "indoor_cycling_", 0); }
    if StartsWith(name, "treadmill_") { PrefixesAgree(name, "tracking_", "treadmill_", 2); }
  }
}
