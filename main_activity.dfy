/**
 * The sleep side of MainActivity.kt: the handler of the
 * `com.activity.detector/sleep_detector` method channel, the inline broadcast
 * receiver it registers on every call, and the lifecycle notices its
 * subscribe / unsubscribe listeners write to `sleep2.csv` in the Downloads
 * directory and post to the collection endpoint.
 *
 * A provider task is modelled as completing within the call that started it:
 * `OnMethodCall` takes the task's outcome as an input and runs the listener
 * that outcome selects.
 */
module MainActivity {
  import opened Common
  import opened Decimal
  import opened Http
  import opened SleepEvents

  const InitSleepApi := "initSleepApi"
  const StopSleepApi := "stopSleepApi"

  const SubscribedText := "Successfully subscribed to sleep data."
  const UnsubscribedFileText := "Unsubscribed to sleep data."
  const UnsubscribedPostText := "Successfully unsubscribed to sleep data."

  const SubscribeErrorPrefix := "Exception when subscribing to sleep data: "
  const UnsubscribeErrorPrefix := "Exception when unsubscribing from sleep data: "

  function SubscribeErrorText(exception: string): string {
    SubscribeErrorPrefix + exception
  }

  function UnsubscribeErrorText(exception: string): string {
    UnsubscribeErrorPrefix + exception
  }

  /** The texts the handler ever writes or posts. */
  predicate IsLifecycleText(t: string) {
    t == SubscribedText || t == UnsubscribedFileText || t == UnsubscribedPostText
    || SubscribeErrorPrefix <= t || UnsubscribeErrorPrefix <= t
  }

  /** How a provider task completes; `exception` is the exception's `toString`. */
  datatype TaskOutcome = TaskSucceeded | TaskFailed(exception: string)

  /** What the Flutter `result` of one call has received when the call's work is done. */
  datatype Answer = Unanswered | AnswerSuccess(value: string) | AnswerError(code: string, message: string)

  datatype ProviderRequest = RequestSleepSegmentUpdates | RemoveSleepSegmentUpdates

  /** The channel message for a segment event; the two instants go through `Date.toString`. */
  function SegmentMessage(e: SleepSegmentEvent, formatDate: Int64 -> string): (m: string)
    ensures "sleepSegment;" <= m
    ensures |IntToString(e.status)| <= |m| && m[|m| - |IntToString(e.status)|..] == IntToString(e.status)
  {
    var head := formatDate(e.startTimeMillis) + ";" + formatDate(e.endTimeMillis) + ";"
      + IntToString(e.segmentDurationMillis) + ";";
    assert "sleepSegment;" + head + IntToString(e.status) == "sleepSegment;" + (head + IntToString(e.status));
    assert ("sleepSegment;" + head + IntToString(e.status))[|"sleepSegment;" + head|..] == IntToString(e.status);
    "sleepSegment;" + formatDate(e.startTimeMillis) + ";" + formatDate(e.endTimeMillis) + ";"
      + IntToString(e.segmentDurationMillis) + ";" + IntToString(e.status)
  }

  /** The channel message for a classify event; the timestamp goes through `Date.toString`. */
  function ClassifyMessage(e: SleepClassifyEvent, formatDate: Int64 -> string): (m: string)
    ensures "sleepClassify;" <= m
    ensures |IntToString(e.motion)| <= |m| && m[|m| - |IntToString(e.motion)|..] == IntToString(e.motion)
  {
    var head := formatDate(e.timestampMillis) + ";" + IntToString(e.confidence) + ";"
      + IntToString(e.light) + ";";
    assert "sleepClassify;" + head + IntToString(e.motion) == "sleepClassify;" + (head + IntToString(e.motion));
    assert ("sleepClassify;" + head + IntToString(e.motion))[|"sleepClassify;" + head|..] == IntToString(e.motion);
    "sleepClassify;" + formatDate(e.timestampMillis) + ";" + IntToString(e.confidence) + ";"
      + IntToString(e.light) + ";" + IntToString(e.motion)
  }

  /** The messages one inline receiver sends for a (possibly null) intent, in event order. */
  function InlineMessages(intent: Option<Intent>, formatDate: Int64 -> string): (ms: seq<string>)
    ensures intent.None? ==> ms == []
    ensures intent.Some? && intent.value.segmentEvents.Some? ==>
      && |ms| == |intent.value.segmentEvents.value|
      && forall k :: 0 <= k < |ms| ==> ms[k] == SegmentMessage(intent.value.segmentEvents.value[k], formatDate)
    ensures intent.Some? && intent.value.segmentEvents.None? && intent.value.classifyEvents.Some? ==>
      && |ms| == |intent.value.classifyEvents.value|
      && forall k :: 0 <= k < |ms| ==> ms[k] == ClassifyMessage(intent.value.classifyEvents.value[k], formatDate)
    ensures intent.Some? && intent.value.segmentEvents.None? && intent.value.classifyEvents.None? ==> ms == []
  {
    match intent
    case None => []
    case Some(it) =>
      match it.segmentEvents
      case Some(es) => SegmentMessages(es, formatDate)
      case None =>
        match it.classifyEvents
        case Some(cs) => ClassifyMessages(cs, formatDate)
        case None => []
  }

  function SegmentMessages(es: seq<SleepSegmentEvent>, formatDate: Int64 -> string): seq<string> {
    seq(|es|, k requires 0 <= k < |es| => SegmentMessage(es[k], formatDate))
  }

  function ClassifyMessages(cs: seq<SleepClassifyEvent>, formatDate: Int64 -> string): seq<string> {
    seq(|cs|, k requires 0 <= k < |cs| => ClassifyMessage(cs[k], formatDate))
  }

  /** `s` repeated `n` times. */
  function Repeat<T>(s: seq<T>, n: nat): seq<T> {
    if n == 0 then [] else Repeat(s, n - 1) + s
  }

  lemma EndsWith(a: string, b: string)
    requires |b| > 0
    ensures |a + b| > 0 && (a + b)[|a + b| - 1] == b[|b| - 1]
  {
  }

  /**
   * An inline receiver ignores a null intent, lets segment events shadow
   * classify events, sends one message per event, and no message ends in `;`.
   */
  lemma InlineMessagesShape(intent: Option<Intent>, formatDate: Int64 -> string)
    ensures intent.None? ==> InlineMessages(intent, formatDate) == []
    ensures intent.Some? && intent.value.segmentEvents.Some? ==>
      InlineMessages(intent, formatDate) == InlineMessages(Some(Intent(intent.value.segmentEvents, None)), formatDate)
    ensures intent.Some? && intent.value.segmentEvents.Some? ==>
      |InlineMessages(intent, formatDate)| == |intent.value.segmentEvents.value|
    ensures intent.Some? && intent.value.segmentEvents.None? && intent.value.classifyEvents.Some? ==>
      |InlineMessages(intent, formatDate)| == |intent.value.classifyEvents.value|
    ensures forall k :: 0 <= k < |InlineMessages(intent, formatDate)| ==>
      var m := InlineMessages(intent, formatDate)[k]; |m| > 0 && IsDigit(m[|m| - 1])
  {
    var ms := InlineMessages(intent, formatDate);
    forall k | 0 <= k < |ms| ensures |ms[k]| > 0 && IsDigit(ms[k][|ms[k]| - 1]) {
      var it := intent.value;
      if it.segmentEvents.Some? {
        var e := it.segmentEvents.value[k];
        EndsWith("sleepSegment;" + formatDate(e.startTimeMillis) + ";" + formatDate(e.endTimeMillis) + ";"
          + IntToString(e.segmentDurationMillis) + ";", IntToString(e.status));
      } else {
        var e := it.classifyEvents.value[k];
        EndsWith("sleepClassify;" + formatDate(e.timestampMillis) + ";" + IntToString(e.confidence) + ";"
          + IntToString(e.light) + ";", IntToString(e.motion));
      }
    }
  }

  /**
   * Were the instants rendered as plain decimals, a channel message would be
   * the durable receiver's line without its trailing `;`.
   */
  lemma MessagesMatchLines(e: SleepSegmentEvent, c: SleepClassifyEvent, formatDate: Int64 -> string)
    requires forall t: Int64 :: formatDate(t) == IntToString(t)
    ensures SegmentMessage(e, formatDate) + ";" == SegmentLine(e)
    ensures ClassifyMessage(c, formatDate) + ";" == ClassifyLine(c)
  {
  }

  lemma PrefixStep<T>(s: seq<T>, i: nat)
    requires i < |s|
    ensures s[..i + 1] == s[..i] + [s[i]]
  {
  }

  lemma RepeatStep<T>(prefix: seq<T>, s: seq<T>, k: nat)
    ensures prefix + Repeat(s, k) + s == prefix + Repeat(s, k + 1)
  {
  }

  lemma {:induction false} RepeatLength<T>(s: seq<T>, n: nat)
    ensures |Repeat(s, n)| == n * |s|
  {
    if n > 0 {
      RepeatLength(s, n - 1);
    }
  }

  class SleepChannel {
    /** Inline receivers registered with `registerReceiver`, one per call. */
    var registeredReceivers: nat
    /** `ActivityCompat.requestPermissions` calls. */
    var permissionRequests: nat
    /** Requests made to the activity-recognition client, oldest first. */
    var providerRequests: seq<ProviderRequest>
    /** Messages sent on the `sleep_detector_messages` channel, oldest first. */
    var messages: seq<string>
    /** `sleep2.csv` in the Downloads directory; `None` when it does not exist. */
    var downloadsFile: Option<string>
    /** The requests added to Volley queues, oldest first. */
    var outbox: seq<Request>

    /** Every request is a JSON POST of `{"data": t}` for a lifecycle text `t`. */
    ghost predicate Valid()
      reads this
    {
      forall k :: 0 <= k < |outbox| ==>
        IsJsonPost(outbox[k]) && outbox[k].body.Keys == {"data"} && outbox[k].body["data"].JString?
        && IsLifecycleText(outbox[k].body["data"].s)
    }

    constructor (existing: Option<string>)
      ensures Valid()
      ensures registeredReceivers == 0 && permissionRequests == 0 && providerRequests == []
      ensures messages == [] && downloadsFile == existing && outbox == []
    {
      registeredReceivers := 0;
      permissionRequests := 0;
      providerRequests := [];
      messages := [];
      downloadsFile := existing;
      outbox := [];
    }

    /**
     * One call on the sleep method channel. `granted` is what
     * `checkSelfPermission` reports, `outcome` how the provider task completes,
     * `writable` whether the Downloads directory accepts new files and writes.
     * `crashed` is set when `createFile` throws out of a listener, which then
     * does nothing more.
     */
    method OnMethodCall(name: string, granted: bool, outcome: TaskOutcome, writable: bool)
      returns (answer: Answer, crashed: bool)
      requires Valid()
      modifies this
      ensures Valid()
      // a receiver is registered whatever the method is
      ensures registeredReceivers == old(registeredReceivers) + 1
      ensures permissionRequests == old(permissionRequests) + (if name == InitSleepApi then 1 else 0)
      ensures crashed <==> name == InitSleepApi && granted && old(downloadsFile).None? && !writable
      // any other method: nothing else happens and the call is never answered
      ensures name != InitSleepApi && name != StopSleepApi ==>
        answer == Unanswered && providerRequests == old(providerRequests) && messages == old(messages)
        && downloadsFile == old(downloadsFile) && outbox == old(outbox)
      // permission denied: no subscription and no answer
      ensures name == InitSleepApi && !granted ==>
        answer == Unanswered && providerRequests == old(providerRequests) && messages == old(messages)
        && downloadsFile == old(downloadsFile) && outbox == old(outbox)
      ensures name == InitSleepApi && granted ==>
        providerRequests == old(providerRequests) + [RequestSleepSegmentUpdates]
      ensures name == InitSleepApi && granted && outcome.TaskSucceeded? && crashed ==>
        answer == Unanswered && messages == old(messages) && downloadsFile == old(downloadsFile)
        && outbox == old(outbox)
      ensures name == InitSleepApi && granted && outcome.TaskSucceeded? && !crashed ==>
        answer == AnswerSuccess("sleepInitSuccess") && messages == old(messages) + ["sleepInitSuccess"]
        && downloadsFile == (if writable then Some(SubscribedText + "\n") else old(downloadsFile))
        && outbox == old(outbox) + [JsonPost(map["data" := JString(SubscribedText)])]
      ensures name == InitSleepApi && granted && outcome.TaskFailed? ==>
        answer == AnswerError("sleepInitError", SubscribeErrorText(outcome.exception))
        && messages == old(messages) + ["sleepInitError"]
      ensures name == InitSleepApi && granted && outcome.TaskFailed? && crashed ==>
        downloadsFile == old(downloadsFile) && outbox == old(outbox)
      ensures name == InitSleepApi && granted && outcome.TaskFailed? && !crashed ==>
        downloadsFile == (if writable then Some(SubscribeErrorText(outcome.exception) + "\n") else old(downloadsFile))
        && outbox == old(outbox) + [JsonPost(map["data" := JString(SubscribeErrorText(outcome.exception))])]
      // stop: neither permission nor a previous subscription is checked
      ensures name == StopSleepApi ==>
        providerRequests == old(providerRequests) + [RemoveSleepSegmentUpdates]
      ensures name == StopSleepApi && outcome.TaskSucceeded? ==>
        answer == AnswerSuccess("sleepStopSuccess") && messages == old(messages) + ["sleepStopSuccess"]
        && downloadsFile == (if writable then Some(UnsubscribedFileText + "\n") else old(downloadsFile))
        && outbox == old(outbox) + [JsonPost(map["data" := JString(UnsubscribedPostText)])]
      ensures name == StopSleepApi && outcome.TaskFailed? ==>
        answer == AnswerError("sleepStopError", UnsubscribeErrorText(outcome.exception))
        && messages == old(messages) + ["sleepStopError"]
        && downloadsFile == (if writable then Some(UnsubscribeErrorText(outcome.exception) + "\n")
                             else old(downloadsFile))
        && outbox == old(outbox) + [JsonPost(map["data" := JString(UnsubscribeErrorText(outcome.exception))])]
    {
      registeredReceivers := registeredReceivers + 1;
      answer, crashed := Unanswered, false;
      if name == InitSleepApi {
        permissionRequests := permissionRequests + 1;
        if granted {
          providerRequests := providerRequests + [RequestSleepSegmentUpdates];
          match outcome
          case TaskSucceeded =>
            crashed := CreateFile(writable);
            if !crashed {
              answer := AnswerSuccess("sleepInitSuccess");
              Send("sleepInitSuccess");
              WriteToFile2(SubscribedText, writable);
              SendHttpRequest(SubscribedText);
            }
          case TaskFailed(exception) =>
            answer := AnswerError("sleepInitError", SubscribeErrorText(exception));
            Send("sleepInitError");
            crashed := CreateFile(writable);
            if !crashed {
              WriteToFile2(SubscribeErrorText(exception), writable);
              SendHttpRequest(SubscribeErrorText(exception));
            }
        }
      } else if name == StopSleepApi {
        providerRequests := providerRequests + [RemoveSleepSegmentUpdates];
        match outcome
        case TaskSucceeded =>
          answer := AnswerSuccess("sleepStopSuccess");
          Send("sleepStopSuccess");
          WriteToFile2(UnsubscribedFileText, writable);
          SendHttpRequest(UnsubscribedPostText);
        case TaskFailed(exception) =>
          answer := AnswerError("sleepStopError", UnsubscribeErrorText(exception));
          Send("sleepStopError");
          WriteToFile2(UnsubscribeErrorText(exception), writable);
          SendHttpRequest(UnsubscribeErrorText(exception));
      }
    }

    /**
     * Creates an empty file when there is none and never truncates one;
     * `thrown` when `createNewFile` fails, an exception nothing catches.
     */
    method CreateFile(writable: bool) returns (thrown: bool)
      modifies this`downloadsFile
      ensures thrown <==> old(downloadsFile).None? && !writable
      ensures downloadsFile == (if old(downloadsFile).None? && writable then Some("") else old(downloadsFile))
    {
      thrown := false;
      if downloadsFile.None? {
        if writable {
          downloadsFile := Some("");
        } else {
          thrown := true;
        }
      }
    }

    /** Truncates the file and writes one line; a failure to open it is swallowed. */
    method WriteToFile2(data: string, writable: bool)
      modifies this`downloadsFile
      ensures downloadsFile == (if writable then Some(data + "\n") else old(downloadsFile))
    {
      if writable {
        downloadsFile := Some(data + "\n");
      }
    }

    method SendHttpRequest(data: string)
      requires Valid() && IsLifecycleText(data)
      modifies this`outbox
      ensures Valid()
      ensures outbox == old(outbox) + [JsonPost(map["data" := JString(data)])]
    {
      var json: JsonObject := map[];
      json := json["data" := JString(data)];
      outbox := outbox + [Request("POST", Endpoint, JsonHeaders, json)];
    }

    method Send(message: string)
      modifies this`messages
      ensures messages == old(messages) + [message]
    {
      messages := messages + [message];
    }

    /** One inline receiver's `onReceive`. */
    method InlineOnReceive(intent: Option<Intent>, formatDate: Int64 -> string)
      modifies this`messages
      ensures messages == old(messages) + InlineMessages(intent, formatDate)
    {
      if intent.None? {
        return;
      }
      var it := intent.value;
      if it.segmentEvents.Some? {
        SendSegmentMessages(it.segmentEvents.value, formatDate);
      } else if it.classifyEvents.Some? {
        SendClassifyMessages(it.classifyEvents.value, formatDate);
      }
    }

    /** The `for` loop over segment events: one message per event, in order. */
    method SendSegmentMessages(events: seq<SleepSegmentEvent>, formatDate: Int64 -> string)
      modifies this`messages
      ensures messages == old(messages) + SegmentMessages(events, formatDate)
    {
      ghost var ms := SegmentMessages(events, formatDate);
      for i := 0 to |events|
        invariant messages == old(messages) + ms[..i]
      {
        var e := events[i];
        Send(SegmentMessage(e, formatDate));
        PrefixStep(ms, i);
      }
      assert ms[..|events|] == ms;
    }

    /** The `for` loop over classify events: one message per event, in order. */
    method SendClassifyMessages(events: seq<SleepClassifyEvent>, formatDate: Int64 -> string)
      modifies this`messages
      ensures messages == old(messages) + ClassifyMessages(events, formatDate)
    {
      ghost var ms := ClassifyMessages(events, formatDate);
      for i := 0 to |events|
        invariant messages == old(messages) + ms[..i]
      {
        var e := events[i];
        Send(ClassifyMessage(e, formatDate));
        PrefixStep(ms, i);
      }
      assert ms[..|events|] == ms;
    }

    /**
     * A matching broadcast reaches every registered inline receiver in
     * registration order, so each event's message is sent once per receiver.
     */
    method DeliverBroadcast(intent: Option<Intent>, formatDate: Int64 -> string)
      modifies this`messages
      ensures messages == old(messages) + Repeat(InlineMessages(intent, formatDate), registeredReceivers)
    {
      ghost var ms := InlineMessages(intent, formatDate);
      var k := 0;
      while k < registeredReceivers
        invariant 0 <= k <= registeredReceivers
        invariant messages == old(messages) + Repeat(ms, k)
      {
        InlineOnReceive(intent, formatDate);
        RepeatStep(old(messages), ms, k);
        k := k + 1;
      }
    }
  }
}
