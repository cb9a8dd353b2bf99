/**
 * The two kinds of sleep event the activity-recognition provider delivers,
 * the `;`-delimited line and the JSON payload the durable receiver
 * (SleepReceiver.kt) builds from each, and readers that recover the event
 * from either form.
 */
module SleepEvents {
  import opened Common
  import opened Decimal
  import opened Text
  import opened Http

  /** `SleepSegmentEvent`: the provider's duration is a field of its own, not end - start. */
  datatype SleepSegmentEvent = SleepSegmentEvent(
    startTimeMillis: Int64, endTimeMillis: Int64, segmentDurationMillis: Int64, status: Int32)

  /** `SleepClassifyEvent`. */
  datatype SleepClassifyEvent = SleepClassifyEvent(
    timestampMillis: Int64, confidence: Int32, light: Int32, motion: Int32)

  /**
   * A broadcast `Intent`, seen through `hasEvents` / `extractEvents` of each
   * event class: `None` when the intent carries no list of that kind.
   */
  datatype Intent = Intent(
    segmentEvents: Option<seq<SleepSegmentEvent>>, classifyEvents: Option<seq<SleepClassifyEvent>>)

  datatype SleepRecord = Segment(segment: SleepSegmentEvent) | Classify(classify: SleepClassifyEvent)

  const Separator := ';'

  /** The line written for a segment event. */
  function SegmentLine(e: SleepSegmentEvent): (line: string)
    ensures "sleepSegment;" <= line
    ensures |line| > 0 && line[|line| - 1] == Separator
  {
    "sleepSegment;" + IntToString(e.startTimeMillis) + ";" + IntToString(e.endTimeMillis) + ";"
      + IntToString(e.segmentDurationMillis) + ";" + IntToString(e.status) + ";"
  }

  /** The line written for a classify event. */
  function ClassifyLine(e: SleepClassifyEvent): (line: string)
    ensures "sleepClassify;" <= line
    ensures |line| > 0 && line[|line| - 1] == Separator
  {
    "sleepClassify;" + IntToString(e.timestampMillis) + ";" + IntToString(e.confidence) + ";"
      + IntToString(e.light) + ";" + IntToString(e.motion) + ";"
  }

  /** The JSON body posted for a segment event. */
  function SegmentPayload(e: SleepSegmentEvent): (body: JsonObject)
    ensures body.Keys == {"startTime", "endTime", "duration", "status"}
    ensures forall key :: key in body ==> body[key].JNumber?
    ensures body["duration"] == JNumber(e.segmentDurationMillis)
  {
    map["startTime" := JNumber(e.startTimeMillis), "endTime" := JNumber(e.endTimeMillis),
        "duration" := JNumber(e.segmentDurationMillis), "status" := JNumber(e.status)]
  }

  /** The JSON body posted for a classify event. */
  function ClassifyPayload(e: SleepClassifyEvent): (body: JsonObject)
    ensures body.Keys == {"timestampMillis", "confidence", "light", "motion"}
    ensures forall key :: key in body ==> body[key].JNumber?
  {
    map["timestampMillis" := JNumber(e.timestampMillis), "confidence" := JNumber(e.confidence),
        "light" := JNumber(e.light), "motion" := JNumber(e.motion)]
  }

  /** Reads a line back: a tag, four decimal integers in range, each field followed by `;`. */
  function ParseLine(line: string): Option<SleepRecord> {
    var f := Split(line, Separator);
    if |f| != 6 || f[5] != "" then None
    else
      match (ParseInt(f[1]), ParseInt(f[2]), ParseInt(f[3]), ParseInt(f[4]))
      case (Some(a), Some(b), Some(c), Some(d)) =>
        if f[0] == "sleepSegment" && IsInt64(a) && IsInt64(b) && IsInt64(c) && IsInt32(d) then
          Some(Segment(SleepSegmentEvent(a, b, c, d)))
        else if f[0] == "sleepClassify" && IsInt64(a) && IsInt32(b) && IsInt32(c) && IsInt32(d) then
          Some(Classify(SleepClassifyEvent(a, b, c, d)))
        else None
      case _ => None
  }

  function Number(body: JsonObject, key: string): Option<int> {
    if key in body && body[key].JNumber? then Some(body[key].n) else None
  }

  /** Reads a posted body back: exactly the four keys of one kind, each a number in range. */
  function RecordOfPayload(body: JsonObject): Option<SleepRecord> {
    if body.Keys == {"startTime", "endTime", "duration", "status"} then
      match (Number(body, "startTime"), Number(body, "endTime"), Number(body, "duration"), Number(body, "status"))
      case (Some(a), Some(b), Some(c), Some(d)) =>
        if IsInt64(a) && IsInt64(b) && IsInt64(c) && IsInt32(d) then
          Some(Segment(SleepSegmentEvent(a, b, c, d)))
        else None
      case _ => None
    else if body.Keys == {"timestampMillis", "confidence", "light", "motion"} then
      match (Number(body, "timestampMillis"), Number(body, "confidence"), Number(body, "light"), Number(body, "motion"))
      case (Some(a), Some(b), Some(c), Some(d)) =>
        if IsInt64(a) && IsInt32(b) && IsInt32(c) && IsInt32(d) then
          Some(Classify(SleepClassifyEvent(a, b, c, d)))
        else None
      case _ => None
    else None
  }

  lemma TerminatedFive(f: seq<string>, sep: char)
    requires |f| == 5
    ensures Terminated(f, sep) == f[0] + [sep] + f[1] + [sep] + f[2] + [sep] + f[3] + [sep] + f[4] + [sep]
  {
    assert f[1..][1..][1..][1..][1..] == [];
    assert Terminated(f[4..], sep) == f[4] + [sep] by { assert f[4..][1..] == []; }
    assert Terminated(f[3..], sep) == f[3] + [sep] + Terminated(f[4..], sep) by { assert f[3..][1..] == f[4..]; }
    assert Terminated(f[2..], sep) == f[2] + [sep] + Terminated(f[3..], sep) by { assert f[2..][1..] == f[3..]; }
    assert Terminated(f[1..], sep) == f[1] + [sep] + Terminated(f[2..], sep) by { assert f[1..][1..] == f[2..]; }
  }

  /** A segment line is its tag and the four values in source order, each followed by `;`. */
  lemma SegmentLineFields(e: SleepSegmentEvent)
    ensures Split(SegmentLine(e), Separator) ==
      ["sleepSegment", IntToString(e.startTimeMillis), IntToString(e.endTimeMillis),
       IntToString(e.segmentDurationMillis), IntToString(e.status), ""]
  {
    var fields := ["sleepSegment", IntToString(e.startTimeMillis), IntToString(e.endTimeMillis),
                   IntToString(e.segmentDurationMillis), IntToString(e.status)];
    TerminatedFive(fields, Separator);
    assert "sleepSegment;" == "sleepSegment" + [Separator];
    forall i | 0 <= i < |fields| ensures Separator !in fields[i] {
      if i > 0 { NoSeparator(if i == 1 then e.startTimeMillis else if i == 2 then e.endTimeMillis
                             else if i == 3 then e.segmentDurationMillis else e.status, Separator); }
    }
    SplitTerminated(fields, Separator);
  }

  /** A classify line is its tag and the four values in source order, each followed by `;`. */
  lemma ClassifyLineFields(e: SleepClassifyEvent)
    ensures Split(ClassifyLine(e), Separator) ==
      ["sleepClassify", IntToString(e.timestampMillis), IntToString(e.confidence),
       IntToString(e.light), IntToString(e.motion), ""]
  {
    var fields := ["sleepClassify", IntToString(e.timestampMillis), IntToString(e.confidence),
                   IntToString(e.light), IntToString(e.motion)];
    TerminatedFive(fields, Separator);
    assert "sleepClassify;" == "sleepClassify" + [Separator];
    forall i | 0 <= i < |fields| ensures Separator !in fields[i] {
      if i > 0 { NoSeparator(if i == 1 then e.timestampMillis else if i == 2 then e.confidence
                             else if i == 3 then e.light else e.motion, Separator); }
    }
    SplitTerminated(fields, Separator);
  }

  /** The line written for an event reads back as that event, so no two events share a line. */
  lemma SegmentLineRoundTrip(e: SleepSegmentEvent)
    ensures ParseLine(SegmentLine(e)) == Some(Segment(e))
  {
    SegmentLineFields(e);
    IntRoundTrip(e.startTimeMillis);
    IntRoundTrip(e.endTimeMillis);
    IntRoundTrip(e.segmentDurationMillis);
    IntRoundTrip(e.status);
  }

  lemma ClassifyLineRoundTrip(e: SleepClassifyEvent)
    ensures ParseLine(ClassifyLine(e)) == Some(Classify(e))
  {
    ClassifyLineFields(e);
    IntRoundTrip(e.timestampMillis);
    IntRoundTrip(e.confidence);
    IntRoundTrip(e.light);
    IntRoundTrip(e.motion);
  }

  /** The posted body carries exactly the segment's four values under the four segment keys. */
  lemma SegmentPayloadRoundTrip(e: SleepSegmentEvent)
    ensures SegmentPayload(e).Keys == {"startTime", "endTime", "duration", "status"}
    ensures RecordOfPayload(SegmentPayload(e)) == Some(Segment(e))
  {
  }

  lemma ClassifyPayloadRoundTrip(e: SleepClassifyEvent)
    ensures ClassifyPayload(e).Keys == {"timestampMillis", "confidence", "light", "motion"}
    ensures RecordOfPayload(ClassifyPayload(e)) == Some(Classify(e))
  {
  }

  /**
   * The duration on the line is the provider's `segmentDurationMillis`, which
   * need not equal end - start: here it is 7 where end - start is 4000.
   */
  lemma DurationIsCopied()
    ensures var e := SleepSegmentEvent(1000, 5000, 7, 1);
      e.endTimeMillis - e.startTimeMillis == 4000 &&
      ParseLine(SegmentLine(e)) == Some(Segment(e)) &&
      Split(SegmentLine(e), Separator)[3] == "7"
  {
    var e := SleepSegmentEvent(1000, 5000, 7, 1);
    SegmentLineRoundTrip(e);
    SegmentLineFields(e);
  }
}
