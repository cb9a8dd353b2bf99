/**
 * The feature row backend/main.py builds for one batch entry: the numeric
 * fields of the schema (None read as 0), the discrete boolean fields as 0/1
 * (None read as 0), the low-frequency measurements, and a one-hot encoding of
 * the activity type. The row has 137 entries.
 */
module Features {
  import opened Common

  /** The numeric fields of the first block, in row order. */
  const SensorFields: seq<string> := [
    "rawAccMagnitudeStatsMean", "rawAccMagnitudeStatsStd", "rawAccMagnitudeStatsMoment3",
    "rawAccMagnitudeStatsMoment4", "rawAccMagnitudeStatsPercentile25",
    "rawAccMagnitudeStatsPercentile50", "rawAccMagnitudeStatsPercentile75", "rawAcc3dMeanX",
    "rawAcc3dMeanY", "rawAcc3dMeanZ", "rawAcc3dStdX", "rawAcc3dStdY", "rawAcc3dStdZ", "rawAcc3dRoXy",
    "rawAcc3dRoXz", "rawAcc3dRoYz", "procGyroMagnitudeStatsMean", "procGyroMagnitudeStatsStd",
    "procGyroMagnitudeStatsMoment3", "procGyroMagnitudeStatsMoment4",
    "procGyroMagnitudeStatsPercentile25", "procGyroMagnitudeStatsPercentile50",
    "procGyroMagnitudeStatsPercentile75", "procGyro3dMeanX", "procGyro3dMeanY", "procGyro3dMeanZ",
    "procGyro3dStdX", "procGyro3dStdY", "procGyro3dStdZ", "procGyro3dRoXy", "procGyro3dRoXz",
    "procGyro3dRoYz", "rawMagnetMagnitudeStatsMean", "rawMagnetMagnitudeStatsStd",
    "rawMagnetMagnitudeStatsMoment3", "rawMagnetMagnitudeStatsMoment4",
    "rawMagnetMagnitudeStatsPercentile25", "rawMagnetMagnitudeStatsPercentile50",
    "rawMagnetMagnitudeStatsPercentile75", "rawMagnet3dMeanX", "rawMagnet3dMeanY", "rawMagnet3dMeanZ",
    "rawMagnet3dStdX", "rawMagnet3dStdY", "rawMagnet3dStdZ", "rawMagnet3dRoXy", "rawMagnet3dRoXz",
    "rawMagnet3dRoYz", "locationNumValidUpdates", "locationLogLatitudeRange",
    "locationLogLongitudeRange", "locationMinAltitude", "locationMaxAltitude", "locationMinSpeed",
    "locationMaxSpeed", "locationBestHorizontalAccuracy", "locationBestVerticalAccuracy",
    "locationDiameter", "locationLogDiameter", "locationQuickFeaturesStdLat",
    "locationQuickFeaturesStdLong", "locationQuickFeaturesLatChange",
    "locationQuickFeaturesLongChange", "audioNaiveMfcc0Mean", "audioNaiveMfcc1Mean",
    "audioNaiveMfcc2Mean", "audioNaiveMfcc3Mean", "audioNaiveMfcc4Mean", "audioNaiveMfcc5Mean",
    "audioNaiveMfcc6Mean", "audioNaiveMfcc7Mean", "audioNaiveMfcc8Mean", "audioNaiveMfcc9Mean",
    "audioNaiveMfcc10Mean", "audioNaiveMfcc11Mean", "audioNaiveMfcc12Mean", "audioNaiveMfcc0Std",
    "audioNaiveMfcc1Std", "audioNaiveMfcc2Std", "audioNaiveMfcc3Std", "audioNaiveMfcc4Std",
    "audioNaiveMfcc5Std", "audioNaiveMfcc6Std", "audioNaiveMfcc7Std", "audioNaiveMfcc8Std",
    "audioNaiveMfcc9Std", "audioNaiveMfcc10Std", "audioNaiveMfcc11Std", "audioNaiveMfcc12Std",
    "audioPropertiesMaxAbsValue", "audioPropertiesNormalizationMultiplier"
  ]

  /** The discrete boolean fields, in row order. */
  const DiscreteFields: seq<string> := [
    "discreteAppStateIsActive", "discreteAppStateIsInactive", "discreteAppStateIsBackground",
    "discreteAppStateMissing", "discreteBatteryPluggedIsAc", "discreteBatteryPluggedIsUsb",
    "discreteBatteryPluggedIsWireless", "discreteBatteryPluggedMissing",
    "discreteBatteryStateIsUnknown", "discreteBatteryStateIsUnplugged",
    "discreteBatteryStateIsNotCharging", "discreteBatteryStateIsDischarging",
    "discreteBatteryStateIsCharging", "discreteBatteryStateIsFull", "discreteBatteryStateMissing",
    "discreteOnThePhoneIsFalse", "discreteOnThePhoneIsTrue", "discreteOnThePhoneMissing",
    "discreteRingerModeIsNormal", "discreteRingerModeIsSilentNoVibrate",
    "discreteRingerModeIsSilentWithVibrate", "discreteRingerModeMissing",
    "discreteWifiStatusIsNotReachable", "discreteWifiStatusIsReachableViaWifi",
    "discreteWifiStatusIsReachableViaWwan", "discreteWifiStatusMissing",
    "discreteTimeOfDayBetween0and6", "discreteTimeOfDayBetween3and9", "discreteTimeOfDayBetween6and12",
    "discreteTimeOfDayBetween9and15", "discreteTimeOfDayBetween12and18",
    "discreteTimeOfDayBetween15and21", "discreteTimeOfDayBetween18and24",
    "discreteTimeOfDayBetween21and3"
  ]

  /** The low-frequency measurements, in row order. */
  const LowFrequencyFields: seq<string> := [
    "lfMeasurementsLight", "lfMeasurementsPressure", "lfMeasurementsProximityCm",
    "lfMeasurementsProximity", "lfMeasurementsRelativeHumidity", "lfMeasurementsBatteryLevel",
    "lfMeasurementsScreenBrightness"
  ]

  /** The activity types of the one-hot block, in row order. */
  const ActivityTypes: seq<string> := ["IN_VEHICLE", "WALKING", "RUNNING", "ON_BICYCLE", "SLEEPING"]

  const FeatureCount := 137

  /** One batch entry: the numeric and boolean fields that are not None, and the activity type. */
  datatype Entry = Entry(numbers: map<string, real>, flags: map<string, bool>, activityType: Option<string>)

  function NumberOrZero(entry: Entry, name: string): real {
    if name in entry.numbers then entry.numbers[name] else 0.0
  }

  /** `int(flag if flag is not None else 0)`. */
  function FlagAsInt(entry: Entry, name: string): real {
    if name in entry.flags && entry.flags[name] then 1.0 else 0.0
  }

  /** `1 if entry.activityType == kind else 0`. */
  function Indicator(activityType: Option<string>, kind: string): real {
    if activityType == Some(kind) then 1.0 else 0.0
  }

  function NumberBlock(entry: Entry, names: seq<string>): seq<real> {
    seq(|names|, i requires 0 <= i < |names| => NumberOrZero(entry, names[i]))
  }

  function FlagBlock(entry: Entry, names: seq<string>): seq<real> {
    seq(|names|, i requires 0 <= i < |names| => FlagAsInt(entry, names[i]))
  }

  function OneHot(activityType: Option<string>): seq<real> {
    seq(|ActivityTypes|, i requires 0 <= i < |ActivityTypes| => Indicator(activityType, ActivityTypes[i]))
  }

  /** `feature_values` for one entry. */
  function FeatureRow(entry: Entry): (row: seq<real>)
    ensures |row| == FeatureCount
  {
    NumberBlock(entry, SensorFields) + FlagBlock(entry, DiscreteFields)
      + NumberBlock(entry, LowFrequencyFields) + OneHot(entry.activityType)
  }

  /** Offsets of the four blocks in a row. */
  const DiscreteStart := |SensorFields|
  const LowFrequencyStart := DiscreteStart + |DiscreteFields|
  const ActivityStart := LowFrequencyStart + |LowFrequencyFields|

  lemma BlockSizes()
    ensures |SensorFields| == 91 && |DiscreteFields| == 34 && |LowFrequencyFields| == 7 && |ActivityTypes| == 5
    ensures DiscreteStart == 91 && LowFrequencyStart == 125 && ActivityStart == 132
    ensures ActivityStart + |ActivityTypes| == FeatureCount
  {
  }

  /** The four blocks of a row, in order. */
  lemma RowBlocks(entry: Entry)
    ensures FeatureRow(entry) == NumberBlock(entry, SensorFields) + FlagBlock(entry, DiscreteFields)
      + NumberBlock(entry, LowFrequencyFields) + OneHot(entry.activityType)
    ensures |NumberBlock(entry, SensorFields)| == DiscreteStart
    ensures |NumberBlock(entry, SensorFields)| + |FlagBlock(entry, DiscreteFields)| == LowFrequencyStart
    ensures |NumberBlock(entry, SensorFields)| + |FlagBlock(entry, DiscreteFields)|
      + |NumberBlock(entry, LowFrequencyFields)| == ActivityStart
  {
  }

  /** A numeric field of the first block is copied when present and is 0 when None. */
  lemma SensorFeature(entry: Entry, i: nat)
    requires i < DiscreteStart
    ensures FeatureRow(entry)[i] == (if SensorFields[i] in entry.numbers then entry.numbers[SensorFields[i]] else 0.0)
  {
    RowBlocks(entry);
    ConcatAt(NumberBlock(entry, SensorFields), FlagBlock(entry, DiscreteFields),
      NumberBlock(entry, LowFrequencyFields), OneHot(entry.activityType), i);
  }

  /** A boolean field gives 1 when it is present and true, and 0 otherwise (None included). */
  lemma DiscreteFeature(entry: Entry, i: nat)
    requires DiscreteStart <= i < LowFrequencyStart
    ensures var name := DiscreteFields[i - DiscreteStart];
      (FeatureRow(entry)[i] == 1.0 <==> name in entry.flags && entry.flags[name])
      && (FeatureRow(entry)[i] == 0.0 || FeatureRow(entry)[i] == 1.0)
  {
    var a, b := NumberBlock(entry, SensorFields), FlagBlock(entry, DiscreteFields);
    var cd := NumberBlock(entry, LowFrequencyFields) + OneHot(entry.activityType);
    RowBlocks(entry);
    assert FeatureRow(entry) == a + b + cd;
    SecondBlockAt(a, b, cd, i);
    assert b[i - DiscreteStart] == FlagAsInt(entry, DiscreteFields[i - DiscreteStart]);
  }

  lemma SecondBlockAt(a: seq<real>, b: seq<real>, c: seq<real>, i: nat)
    requires |a| <= i < |a| + |b|
    ensures (a + b + c)[i] == b[i - |a|]
  {
  }

  /** A low-frequency measurement is copied when present and is 0 when None. */
  lemma LowFrequencyFeature(entry: Entry, i: nat)
    requires LowFrequencyStart <= i < ActivityStart
    ensures var name := LowFrequencyFields[i - LowFrequencyStart];
      FeatureRow(entry)[i] == (if name in entry.numbers then entry.numbers[name] else 0.0)
  {
    RowBlocks(entry);
    ConcatAt(NumberBlock(entry, SensorFields), FlagBlock(entry, DiscreteFields),
      NumberBlock(entry, LowFrequencyFields), OneHot(entry.activityType), i);
  }

  /** Entry `ActivityStart + k` is 1 exactly when the activity type is the k-th listed type, else 0. */
  lemma ActivityFeature(entry: Entry, i: nat)
    requires ActivityStart <= i < FeatureCount
    ensures (FeatureRow(entry)[i] == 1.0 <==> entry.activityType == Some(ActivityTypes[i - ActivityStart]))
      && (FeatureRow(entry)[i] == 0.0 || FeatureRow(entry)[i] == 1.0)
  {
    RowBlocks(entry);
    ConcatAt(NumberBlock(entry, SensorFields), FlagBlock(entry, DiscreteFields),
      NumberBlock(entry, LowFrequencyFields), OneHot(entry.activityType), i);
  }

  /** Indexing into four concatenated blocks. */
  lemma ConcatAt(a: seq<real>, b: seq<real>, c: seq<real>, d: seq<real>, i: nat)
    requires i < |a| + |b| + |c| + |d|
    ensures i < |a| ==> (a + b + c + d)[i] == a[i]
    ensures |a| <= i < |a| + |b| ==> (a + b + c + d)[i] == b[i - |a|]
    ensures |a| + |b| <= i < |a| + |b| + |c| ==> (a + b + c + d)[i] == c[i - |a| - |b|]
    ensures |a| + |b| + |c| <= i ==> (a + b + c + d)[i] == d[i - |a| - |b| - |c|]
  {
  }

  /**
   * The last five entries hold at most one 1, and hold one exactly when the
   * activity type is one of the five listed types.
   */
  lemma OneHotExclusive(entry: Entry)
    ensures forall i, j :: ActivityStart <= i < j < FeatureCount ==>
      FeatureRow(entry)[i] == 0.0 || FeatureRow(entry)[j] == 0.0
    ensures (exists i :: ActivityStart <= i < FeatureCount && FeatureRow(entry)[i] == 1.0)
      <==> entry.activityType.Some? && entry.activityType.value in ActivityTypes
  {
    var row := FeatureRow(entry);
    forall i | ActivityStart <= i < FeatureCount
      ensures row[i] == 1.0 <==> entry.activityType == Some(ActivityTypes[i - ActivityStart])
      ensures row[i] == 0.0 || row[i] == 1.0
    {
      ActivityFeature(entry, i);
    }
    if entry.activityType.Some? && entry.activityType.value in ActivityTypes {
      var k :| 0 <= k < |ActivityTypes| && ActivityTypes[k] == entry.activityType.value;
      assert row[ActivityStart + k] == 1.0;
    }
  }
}
