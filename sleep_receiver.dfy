/**
 * The durable receiver (SleepReceiver.kt): for each event of a delivery, in
 * order, it overwrites its file with the event's line and posts the event's
 * JSON body. The file is `sleep2.csv` resolved against the process's working
 * directory; `None` stands for a file that does not exist.
 */
module SleepReceiver {
  import opened Common
  import opened Http
  import opened SleepEvents

  /** The events of a delivery, in list order; segment events shadow classify events. */
  function DeliveryRecords(intent: Intent): (rs: seq<SleepRecord>)
    ensures intent.segmentEvents.Some? ==>
      && |rs| == |intent.segmentEvents.value|
      && forall k :: 0 <= k < |rs| ==> rs[k] == Segment(intent.segmentEvents.value[k])
    ensures intent.segmentEvents.None? && intent.classifyEvents.Some? ==>
      && |rs| == |intent.classifyEvents.value|
      && forall k :: 0 <= k < |rs| ==> rs[k] == Classify(intent.classifyEvents.value[k])
    ensures intent.segmentEvents.None? && intent.classifyEvents.None? ==> rs == []
  {
    match intent.segmentEvents
    case Some(es) => SegmentRecords(es)
    case None =>
      match intent.classifyEvents
      case Some(cs) => ClassifyRecords(cs)
      case None => []
  }

  function SegmentRecords(es: seq<SleepSegmentEvent>): seq<SleepRecord> {
    seq(|es|, i requires 0 <= i < |es| => Segment(es[i]))
  }

  function ClassifyRecords(cs: seq<SleepClassifyEvent>): seq<SleepRecord> {
    seq(|cs|, i requires 0 <= i < |cs| => Classify(cs[i]))
  }

  function LineOf(r: SleepRecord): string {
    match r
    case Segment(e) => SegmentLine(e)
    case Classify(e) => ClassifyLine(e)
  }

  function PayloadOf(r: SleepRecord): JsonObject {
    match r
    case Segment(e) => SegmentPayload(e)
    case Classify(e) => ClassifyPayload(e)
  }

  /** The requests posted for a run of events, one per event, in order. */
  function Requests(rs: seq<SleepRecord>): (out: seq<Request>)
  {
    if |rs| == 0 then [] else Requests(rs[..|rs| - 1]) + [JsonPost(PayloadOf(rs[|rs| - 1]))]
  }

  /** What `writeToFile2` leaves behind: the new line if the file could be opened, else the old file. */
  function Overwritten(file: Option<string>, data: string, writable: bool): Option<string> {
    if writable then Some(data + "\n") else file
  }

  /** The file after a delivery: only the last event's line survives. */
  function FileAfter(file: Option<string>, rs: seq<SleepRecord>, writable: bool): Option<string> {
    if writable && |rs| > 0 then Some(LineOf(rs[|rs| - 1]) + "\n") else file
  }

  lemma {:induction false} RequestsAt(rs: seq<SleepRecord>, k: nat)
    requires k < |rs|
    ensures |Requests(rs)| == |rs|
    ensures Requests(rs)[k] == JsonPost(PayloadOf(rs[k]))
  {
    if k < |rs| - 1 {
      RequestsAt(rs[..|rs| - 1], k);
    } else if |rs| > 1 {
      RequestsAt(rs[..|rs| - 1], 0);
    }
  }

  /**
   * A delivery of N events yields N lines and N requests, the k-th of each
   * carrying the k-th event (which both read back to).
   */
  lemma {:induction false} DeliveryFanOut(intent: Intent, k: nat)
    requires k < |DeliveryRecords(intent)|
    ensures |Requests(DeliveryRecords(intent))| == |DeliveryRecords(intent)|
    ensures intent.segmentEvents.Some? ==>
      |DeliveryRecords(intent)| == |intent.segmentEvents.value| &&
      ParseLine(LineOf(DeliveryRecords(intent)[k])) == Some(Segment(intent.segmentEvents.value[k])) &&
      RecordOfPayload(Requests(DeliveryRecords(intent))[k].body) == Some(Segment(intent.segmentEvents.value[k]))
    ensures intent.segmentEvents.None? && intent.classifyEvents.Some? ==>
      |DeliveryRecords(intent)| == |intent.classifyEvents.value| &&
      ParseLine(LineOf(DeliveryRecords(intent)[k])) == Some(Classify(intent.classifyEvents.value[k])) &&
      RecordOfPayload(Requests(DeliveryRecords(intent))[k].body) == Some(Classify(intent.classifyEvents.value[k]))
    ensures IsJsonPost(Requests(DeliveryRecords(intent))[k])
  {
    var rs := DeliveryRecords(intent);
    RequestsAt(rs, k);
    match rs[k]
    case Segment(e) =>
      SegmentLineRoundTrip(e);
      SegmentPayloadRoundTrip(e);
    case Classify(e) =>
      ClassifyLineRoundTrip(e);
      ClassifyPayloadRoundTrip(e);
  }

  lemma Step(rs: seq<SleepRecord>, i: nat, file: Option<string>, writable: bool)
    requires i < |rs|
    ensures Requests(rs[..i + 1]) == Requests(rs[..i]) + [JsonPost(PayloadOf(rs[i]))]
    ensures FileAfter(file, rs[..i + 1], writable) == Overwritten(FileAfter(file, rs[..i], writable), LineOf(rs[i]), writable)
  {
    assert rs[..i + 1][..i] == rs[..i];
  }

  /** A delivery with neither kind of event writes and posts nothing. */
  lemma EmptyDelivery(file: Option<string>, writable: bool)
    ensures Requests(DeliveryRecords(Intent(None, None))) == []
    ensures FileAfter(file, DeliveryRecords(Intent(None, None)), writable) == file
  {
  }

  class SleepReceiver {
    /** `sleep2.csv` in the working directory. */
    var file: Option<string>
    /** The requests added to Volley queues, oldest first. */
    var outbox: seq<Request>

    /** Every request is a JSON POST to the endpoint whose body is one event's payload. */
    ghost predicate Valid()
      reads this
    {
      forall k :: 0 <= k < |outbox| ==> IsJsonPost(outbox[k]) && RecordOfPayload(outbox[k].body).Some?
    }

    constructor (existing: Option<string>)
      ensures Valid() && file == existing && outbox == []
    {
      file := existing;
      outbox := [];
    }

    method OnReceive(intent: Intent, writable: bool)
      requires Valid()
      modifies this
      ensures Valid()
      ensures outbox == old(outbox) + Requests(DeliveryRecords(intent))
      ensures file == FileAfter(old(file), DeliveryRecords(intent), writable)
    {
      if intent.segmentEvents.Some? {
        ForEachSegment(intent.segmentEvents.value, writable);
      } else if intent.classifyEvents.Some? {
        ForEachClassify(intent.classifyEvents.value, writable);
      }
    }

    /** The `forEach` over segment events: write the line, then post the payload. */
    method ForEachSegment(events: seq<SleepSegmentEvent>, writable: bool)
      requires Valid()
      modifies this
      ensures Valid()
      ensures outbox == old(outbox) + Requests(SegmentRecords(events))
      ensures file == FileAfter(old(file), SegmentRecords(events), writable)
    {
      ghost var rs := SegmentRecords(events);
      for i := 0 to |events|
        invariant Valid()
        invariant outbox == old(outbox) + Requests(rs[..i])
        invariant file == FileAfter(old(file), rs[..i], writable)
      {
        var e := events[i];
        var message := SegmentLine(e);
        WriteToFile2(message, writable);
        SendHttpRequestSegment(e.startTimeMillis, e.endTimeMillis, e.segmentDurationMillis, e.status);
        assert rs[i] == Segment(e);
        Step(rs, i, old(file), writable);
      }
      assert rs[..|events|] == rs;
    }

    /** The `forEach` over classify events: write the line, then post the payload. */
    method ForEachClassify(events: seq<SleepClassifyEvent>, writable: bool)
      requires Valid()
      modifies this
      ensures Valid()
      ensures outbox == old(outbox) + Requests(ClassifyRecords(events))
      ensures file == FileAfter(old(file), ClassifyRecords(events), writable)
    {
      ghost var rs := ClassifyRecords(events);
      for i := 0 to |events|
        invariant Valid()
        invariant outbox == old(outbox) + Requests(rs[..i])
        invariant file == FileAfter(old(file), rs[..i], writable)
      {
        var e := events[i];
        var message := ClassifyLine(e);
        WriteToFile2(message, writable);
        SendHttpRequestClassify(e.timestampMillis, e.confidence, e.light, e.motion);
        assert rs[i] == Classify(e);
        Step(rs, i, old(file), writable);
      }
      assert rs[..|events|] == rs;
    }

    /** Truncates the file and writes one line; a failure to open it is swallowed. */
    method WriteToFile2(data: string, writable: bool)
      modifies this
      ensures file == Overwritten(old(file), data, writable)
      ensures outbox == old(outbox)
    {
      if writable {
        file := Some(data + "\n");
      }
    }

    method SendHttpRequestSegment(startTime: Int64, endTime: Int64, duration: Int64, status: Int32)
      requires Valid()
      modifies this
      ensures Valid()
      ensures outbox == old(outbox) + [JsonPost(SegmentPayload(SleepSegmentEvent(startTime, endTime, duration, status)))]
      ensures file == old(file)
    {
      var json: JsonObject := map[];
      json := json["startTime" := JNumber(startTime)];
      json := json["endTime" := JNumber(endTime)];
      json := json["duration" := JNumber(duration)];
      json := json["status" := JNumber(status)];
      SegmentPayloadRoundTrip(SleepSegmentEvent(startTime, endTime, duration, status));
      outbox := outbox + [Request("POST", Endpoint, JsonHeaders, json)];
    }

    method SendHttpRequestClassify(timestampMillis: Int64, confidence: Int32, light: Int32, motion: Int32)
      requires Valid()
      modifies this
      ensures Valid()
      ensures outbox == old(outbox) + [JsonPost(ClassifyPayload(SleepClassifyEvent(timestampMillis, confidence, light, motion)))]
      ensures file == old(file)
    {
      var json: JsonObject := map[];
      json := json["timestampMillis" := JNumber(timestampMillis)];
      json := json["confidence" := JNumber(confidence)];
      json := json["light" := JNumber(light)];
      json := json["motion" := JNumber(motion)];
      ClassifyPayloadRoundTrip(SleepClassifyEvent(timestampMillis, confidence, light, motion));
      outbox := outbox + [Request("POST", Endpoint, JsonHeaders, json)];
    }
  }
}
