# Human activity detector: sleep collection and activity prediction

This project models three pieces of the human activity detector.

- **The durable sleep receiver** (`SleepReceiver`). The activity-recognition
  provider hands it a broadcast holding either a list of sleep-segment events
  or a list of sleep-classify events. For each event, in order, it does two
  things. It overwrites `sleep2.csv` with a `;`-terminated line. It posts a
  JSON body with the event's four values to the collection endpoint.
- **The sleep method channel of the main activity** (`MainActivity`).
  - `initSleepApi` asks for the activity-recognition permission. If the
    permission is held, it subscribes to sleep updates.
  - `stopSleepApi` unsubscribes.
  - Each listener answers the Flutter call, sends a short notice on the
    message channel, overwrites the Downloads file with a lifecycle text, and
    posts a lifecycle text. The two texts are the same, except after a
    successful stop.
  - Only the two `initSleepApi` listeners also call `createFile`. The success
    listener calls it before it answers. The failure listener calls it after it
    answers and sends its notice. The stop listeners never call it.
  - Every call also registers one more inline broadcast receiver. Each such
    receiver forwards events as messages on the channel.
- **The `/predict` endpoint of the backend** (`Backend`, `Features`).
  - It turns each batch entry into a row of 137 numbers.
  - It checks that the matrix is two-dimensional.
  - A classifier names one label per row, and the endpoint returns the most
    frequent label.
  - Every exception becomes an HTTP 500.

Supporting modules:
- `Common`: `Option`, `Result`, and the 64- and 32-bit ranges of Kotlin's
  `Long` and `Int`.
- `Decimal`: Kotlin's decimal rendering of integers, and a reader that
  inverts it.
- `Text`: a reader, not in the source, that splits a line back into its
  fields. The proofs use it to show that a written line loses nothing.
- `Http`: the JSON POST requests both Android classes queue.

Each file is an `Option<string>`, where `None` means the file does not exist.
A `writable` flag stands for whether the file system lets the file be opened
or created. Outgoing requests are appended to an `outbox`, and channel
messages to `messages`.

**Behaviour worth knowing.**
- The duration written and posted for a segment is the provider's
  `segmentDurationMillis` (SleepReceiver.kt:41). It is not `end - start`;
  see `SleepEvents.DurationIsCopied`.
- `writeToFile2` opens the file with `printWriter()`, which truncates it
  (SleepReceiver.kt:93, MainActivity.kt:216). Each write replaces the whole
  file, so after a delivery only the last event's line remains.
- When the permission is not held, `initSleepApi` never answers the Flutter
  call and returns no error (MainActivity.kt:130-161).
- `stopSleepApi` checks neither the permission nor an earlier subscription.
  It always asks the provider to remove updates (MainActivity.kt:163-165).
- After a successful stop, the file gets "Unsubscribed to sleep data."
  (MainActivity.kt:171). The post carries "Successfully unsubscribed to sleep
  data." (MainActivity.kt:172).
- The feature row has 137 entries: 91 + 34 + 7 + 5 (main.py:33-174). The
  comment above it says 134 (main.py:31).
- The 400 raised by the shape check (main.py:183-184) is caught by the
  endpoint's own `except Exception` (main.py:225-226). It is answered as a
  500 whose detail is
  `"Error during prediction: 400: Input data must be 2D (batch_size x features)."`.
- An empty batch is rejected this way, because `np.array([])` has shape
  `(0,)`.
- The inline receiver's channel messages have no trailing `;`
  (MainActivity.kt:97, 112), unlike the durable receiver's lines
  (SleepReceiver.kt:43, 58). Their instants pass through `Date.toString`
  (MainActivity.kt:93-94, 108).
- The durable receiver writes `sleep2.csv` relative to the working directory
  (SleepReceiver.kt:93). The main activity writes the file of that name in
  the Downloads directory (MainActivity.kt:212-214). These are two different
  files.

`most_frequent` is `Counter(xs).most_common(1)[0][0]`. It returns an element
with the largest count. Among equally frequent elements, it returns the one
that occurs first in the list. An empty list raises `IndexError`, which the
model states as `None`.

## Model

| member | source | states |
|---|---|---|
| SleepEvents.SegmentLine | android/app/src/main/kotlin/com/activity/detector/human_activity_detector/SleepReceiver.kt:39-43 | the segment line starts with the tag `sleepSegment;` and ends with `;` |
| SleepEvents.ClassifyLine | android/app/src/main/kotlin/com/activity/detector/human_activity_detector/SleepReceiver.kt:54-58 | the classify line starts with the tag `sleepClassify;` and ends with `;` |
| SleepEvents.SegmentPayload | android/app/src/main/kotlin/com/activity/detector/human_activity_detector/SleepReceiver.kt:106-114 | the segment body has exactly the keys startTime, endTime, duration and status, all numbers; duration is the provider's segmentDurationMillis |
| SleepEvents.ClassifyPayload | android/app/src/main/kotlin/com/activity/detector/human_activity_detector/SleepReceiver.kt:145-153 | the classify body has exactly the keys timestampMillis, confidence, light and motion, all numbers |
| SleepReceiver.DeliveryRecords | android/app/src/main/kotlin/com/activity/detector/human_activity_detector/SleepReceiver.kt:34-52 | the events a delivery processes: all segment events in list order when the intent has them, otherwise all classify events, otherwise none |
| SleepEvents.SegmentLineFields | android/app/src/main/kotlin/com/activity/detector/human_activity_detector/SleepReceiver.kt:43 | splitting a segment line on `;` gives the tag, the four values in decimal, and an empty last field |
| SleepEvents.ClassifyLineFields | android/app/src/main/kotlin/com/activity/detector/human_activity_detector/SleepReceiver.kt:58 | splitting a classify line on `;` gives the tag, the four values in decimal, and an empty last field |
| SleepEvents.SegmentLineRoundTrip | android/app/src/main/kotlin/com/activity/detector/human_activity_detector/SleepReceiver.kt:39-43 | the line written for a segment event reads back as exactly that event |
| SleepEvents.ClassifyLineRoundTrip | android/app/src/main/kotlin/com/activity/detector/human_activity_detector/SleepReceiver.kt:54-58 | the line written for a classify event reads back as exactly that event |
| SleepEvents.SegmentPayloadRoundTrip | android/app/src/main/kotlin/com/activity/detector/human_activity_detector/SleepReceiver.kt:106-114 | the segment body has exactly the keys startTime, endTime, duration and status, and reads back as the event |
| SleepEvents.ClassifyPayloadRoundTrip | android/app/src/main/kotlin/com/activity/detector/human_activity_detector/SleepReceiver.kt:145-153 | the classify body has exactly the keys timestampMillis, confidence, light and motion, and reads back as the event |
| SleepEvents.DurationIsCopied | android/app/src/main/kotlin/com/activity/detector/human_activity_detector/SleepReceiver.kt:39-43 | for a concrete event, the duration field of its line is segmentDurationMillis (7) while end - start is 4000 |
| SleepReceiver.RequestsAt | android/app/src/main/kotlin/com/activity/detector/human_activity_detector/SleepReceiver.kt:38-47 | one request per event, the k-th posting the k-th event's payload |
| SleepReceiver.DeliveryFanOut | android/app/src/main/kotlin/com/activity/detector/human_activity_detector/SleepReceiver.kt:34-64 | segment events shadow classify events; a delivery of N events gives N lines and N JSON posts, and the k-th of each reads back as the k-th event |
| SleepReceiver.EmptyDelivery | android/app/src/main/kotlin/com/activity/detector/human_activity_detector/SleepReceiver.kt:34-64 | an intent with neither kind of event writes nothing and posts nothing |
| SleepReceiver.SleepReceiver.constructor | android/app/src/main/kotlin/com/activity/detector/human_activity_detector/SleepReceiver.kt:25-28 | a receiver starts with the file as found and nothing posted |
| SleepReceiver.SleepReceiver.OnReceive | android/app/src/main/kotlin/com/activity/detector/human_activity_detector/SleepReceiver.kt:30-65 | the outbox grows by one post per event in delivery order; the file holds the last event's line, or is unchanged when nothing was delivered or it cannot be opened; every post stays a readable event payload |
| SleepReceiver.SleepReceiver.ForEachSegment | android/app/src/main/kotlin/com/activity/detector/human_activity_detector/SleepReceiver.kt:38-47 | the segment loop posts every segment's payload in order and leaves the last segment's line in the file |
| SleepReceiver.SleepReceiver.ForEachClassify | android/app/src/main/kotlin/com/activity/detector/human_activity_detector/SleepReceiver.kt:53-62 | the classify loop posts every classify event's payload in order and leaves the last event's line in the file |
| SleepReceiver.SleepReceiver.WriteToFile2 | android/app/src/main/kotlin/com/activity/detector/human_activity_detector/SleepReceiver.kt:91-98 | the file becomes the data plus a newline (truncated, not appended); when it cannot be opened, the file is unchanged and nothing is raised |
| SleepReceiver.SleepReceiver.SendHttpRequestSegment | android/app/src/main/kotlin/com/activity/detector/human_activity_detector/SleepReceiver.kt:101-139 | appends one JSON POST to the endpoint whose body is the segment payload |
| SleepReceiver.SleepReceiver.SendHttpRequestClassify | android/app/src/main/kotlin/com/activity/detector/human_activity_detector/SleepReceiver.kt:140-178 | appends one JSON POST to the endpoint whose body is the classify payload |
| Http.JsonPost | android/app/src/main/kotlin/com/activity/detector/human_activity_detector/SleepReceiver.kt:116-134 | a POST to the collection endpoint with the Content-Type application/json header, carrying the given body |
| Decimal.NatToString | android/app/src/main/kotlin/com/activity/detector/human_activity_detector/SleepReceiver.kt:43 | decimal digits of a natural number, at least one, with no leading zero except for 0 itself |
| Decimal.IntToString | android/app/src/main/kotlin/com/activity/detector/human_activity_detector/SleepReceiver.kt:43 | a number renders as digits with at most a leading minus sign, and ends in a digit |
| Decimal.NatRoundTrip | android/app/src/main/kotlin/com/activity/detector/human_activity_detector/SleepReceiver.kt:43 | parsing the rendering of a natural number gives the number back |
| Decimal.IntRoundTrip | android/app/src/main/kotlin/com/activity/detector/human_activity_detector/SleepReceiver.kt:43 | parsing the rendering of an integer gives the integer back |
| Decimal.NoSeparator | android/app/src/main/kotlin/com/activity/detector/human_activity_detector/SleepReceiver.kt:43 | a rendered number never contains the field separator |
| MainActivity.SegmentMessage | android/app/src/main/kotlin/com/activity/detector/human_activity_detector/MainActivity.kt:93-97 | the segment message starts with `sleepSegment;` and ends with the status in decimal |
| MainActivity.ClassifyMessage | android/app/src/main/kotlin/com/activity/detector/human_activity_detector/MainActivity.kt:108-112 | the classify message starts with `sleepClassify;` and ends with the motion in decimal |
| MainActivity.InlineMessages | android/app/src/main/kotlin/com/activity/detector/human_activity_detector/MainActivity.kt:84-116 | a null intent gives no message; otherwise one message per segment event in list order, or, when there are none, one per classify event, or nothing |
| MainActivity.InlineMessagesShape | android/app/src/main/kotlin/com/activity/detector/human_activity_detector/MainActivity.kt:83-116 | a null intent sends nothing; segment events shadow classify events; one message per event; every message ends in a digit, not `;` |
| MainActivity.MessagesMatchLines | android/app/src/main/kotlin/com/activity/detector/human_activity_detector/MainActivity.kt:93-112 | with instants rendered as plain numbers, a channel message plus `;` is exactly the durable receiver's line |
| MainActivity.RepeatLength | android/app/src/main/kotlin/com/activity/detector/human_activity_detector/MainActivity.kt:124-125 | n receivers deliver n times as many messages |
| MainActivity.SleepChannel.constructor | android/app/src/main/kotlin/com/activity/detector/human_activity_detector/MainActivity.kt:79-81 | the channel starts with no receivers, requests, messages or posts, and the Downloads file as found |
| MainActivity.SleepChannel.OnMethodCall | android/app/src/main/kotlin/com/activity/detector/human_activity_detector/MainActivity.kt:81-185 | every call registers a receiver; other methods leave the call unanswered and change nothing else; a denied permission issues the permission request, leaves the call unanswered and changes nothing else; init and stop each state their answer, channel notice, file and post for success and for failure; a failed createFile ends the listener |
| MainActivity.SleepChannel.CreateFile | android/app/src/main/kotlin/com/activity/detector/human_activity_detector/MainActivity.kt:188-199 | creates an empty file only when none exists, never truncates one, and throws exactly when the file is absent and cannot be created |
| MainActivity.SleepChannel.WriteToFile2 | android/app/src/main/kotlin/com/activity/detector/human_activity_detector/MainActivity.kt:211-222 | the Downloads file becomes the data plus a newline; when it cannot be opened, the file is unchanged and nothing is raised |
| MainActivity.SleepChannel.SendHttpRequest | android/app/src/main/kotlin/com/activity/detector/human_activity_detector/MainActivity.kt:224-259 | appends one JSON POST whose body is `{"data": text}` |
| MainActivity.SleepChannel.Send | android/app/src/main/kotlin/com/activity/detector/human_activity_detector/MainActivity.kt:146 | appends one message to the channel |
| MainActivity.SleepChannel.InlineOnReceive | android/app/src/main/kotlin/com/activity/detector/human_activity_detector/MainActivity.kt:83-122 | the channel gains exactly the intent's messages, in event order |
| MainActivity.SleepChannel.SendSegmentMessages | android/app/src/main/kotlin/com/activity/detector/human_activity_detector/MainActivity.kt:91-101 | the loop sends one message per segment event, in list order |
| MainActivity.SleepChannel.SendClassifyMessages | android/app/src/main/kotlin/com/activity/detector/human_activity_detector/MainActivity.kt:106-115 | the loop sends one message per classify event, in list order |
| MainActivity.SleepChannel.DeliverBroadcast | android/app/src/main/kotlin/com/activity/detector/human_activity_detector/MainActivity.kt:124-125 | a broadcast reaches every registered receiver, so the messages are repeated once per receiver |
| Features.FeatureRow | backend/main.py:31-175 | a feature row has 137 entries |
| Features.BlockSizes | backend/main.py:31-175 | the blocks hold 91, 34, 7 and 5 entries, starting at 0, 91, 125 and 132 |
| Features.SensorFeature | backend/main.py:33-123 | a sensor entry is the field's value when present and 0 when None |
| Features.DiscreteFeature | backend/main.py:126-160 | a flag entry is 0 or 1, and 1 exactly when the field is present and true |
| Features.LowFrequencyFeature | backend/main.py:162-169 | a low-frequency entry is the field's value when present and 0 when None |
| Features.ActivityFeature | backend/main.py:170-174 | entry 132 + k is 1 exactly when the activity type is the k-th listed type, else 0 |
| Features.OneHotExclusive | backend/main.py:170-174 | the last five entries hold at most one 1, and hold one exactly when the activity type is one of the five |
| Backend.Distinct | backend/main.py:21-22 | the Counter's keys: every element once, nothing else, in order of first occurrence |
| Backend.MaxIndex | backend/main.py:22 | the first key with the largest count |
| Backend.MostFrequent | backend/main.py:21-22 | None exactly for an empty list; otherwise an element of the list whose count is maximal and which occurs no later than any other element with that count |
| Backend.FirstAmongEqual | backend/main.py:22 | the first key with the largest count occurs no later than any element with that count |
| Backend.VoteIsLabel | backend/main.py:195-223 | a vote over label names returns a label name |
| Backend.BuildFeatures | backend/main.py:29-177 | one row of 137 features per batch entry, in batch order |
| Backend.Shape | backend/main.py:180-184 | the matrix is two-dimensional exactly when the batch is non-empty |
| Backend.Labels | backend/main.py:214 | label lookup succeeds exactly when every index is within the 15 label names, and then the k-th label is `label_names[indices[k]]` |
| Backend.ExceptionText | backend/main.py:226 | `str(e)`: an HTTPException renders as its status code, which reads back, followed by ": " and its detail; an IndexError as "list index out of range"; any other exception as its own text |
| Backend.PredictTry | backend/main.py:26-223 | an empty batch raises the 400 shape error; a label is returned exactly when the batch is non-empty, the classifier succeeds with at least one prediction, and every index is in range; the label is the majority vote; a classifier failure is raised as that failure, and any other failure on a non-empty batch (an empty prediction list or an index past the label names) as IndexError |
| Backend.Predict | backend/main.py:24-226 | every error is a 500 with the "Error during prediction: " prefix; an empty batch gets the 400 text inside that 500; a prediction is a label name, is returned exactly in the success case above, and is the most frequent label |

## Left out

- Model inference: TensorFlow's `model.predict` and the per-row `np.argmax`. These are the parameter `Classifier`, which returns a label index per row or the text of the exception raised.
- `np.array` and the reshape: the matrix is a sequence of rows, and `Shape` gives the array's shape for rows of one length.
- Python's `int` and `float` distinction in a row: all entries are `real`.
- FastAPI routing, the `DataBatch` schema and request validation. `DataBatch` is not part of this model; an entry is the map of fields that are not None.
- Loading the model at import time, and the `__main__` server start.
- The `print` calls in `predict`.
- Kotlin logging (`Log.d`, `Log.e`) and the exception text of a failed write.
- Volley's dispatch, the network and the response listeners, which are empty. A request is modelled as the entry queued.
- The Android permission dialog. `checkSelfPermission`'s answer is an input.
- The provider's subscription state and the `PendingIntent` identity. Requests to the provider are recorded in order.
- Task completion on another thread, and `MainScope`. A task is modelled as completing within the call that started it, and its outcome is an input.
- Events that arrive between the calls are not modelled.
- `Date.toString`: it depends on the locale and time zone, and is the parameter `formatDate`.
- The audio and ringtone method channels (MainActivity.kt:51-77): these are outside the sleep feature.
- `AudioProcessor` is not part of this model.
- The activity's lifecycle: receivers are never unregistered, matching the source.
- MainActivity.SleepChannel.OnMethodCall: after `createFile` throws, the model records `crashed` and stops the listener. It does not model what the process does after the uncaught exception.
- `IntentFilter` matching: `DeliverBroadcast` assumes a broadcast whose action matches the filter `com.activity.detector` (MainActivity.kt:124). The provider's `PendingIntent` names `SleepReceiver` explicitly (SleepReceiver.kt:69, MainActivity.kt:134-135, 165). Provider deliveries therefore go only to the durable receiver, and nothing in the source sends a broadcast the inline receivers would match. `DeliverBroadcast` describes what they would do if one were sent.
- `SleepReceiver.createSleepReceiverPendingIntent`: this only builds the `PendingIntent` handed to the provider.
- Concurrent or interleaved deliveries: each `OnReceive` runs to completion.
