/**
 * The `/predict` endpoint of backend/main.py: one feature row per batch entry,
 * the 2-D shape check, the classifier's label per row, the majority vote, and
 * the catch-all that turns every failure into status 500. The Keras model and
 * the per-row `argmax` are a parameter of the model.
 */
module Backend {
  import opened Common
  import opened Decimal
  import opened Features

  const LabelNames: seq<string> := [
    "TALKING", "WITH_FRIENDS", "EATING", "WATCHING_TV", "IN_CLASS", "IN_A_MEETING", "COOKING",
    "CLEANING", "TOILET", "FIX_restaurant", "SHOPPING", "WASHING_DISHES", "AT_THE_GYM",
    "DOING_LAUNDRY", "ELEVATOR"
  ]

  // ---------------------------------------------------------------------------
  // most_frequent: Counter(strings).most_common(1)[0][0]

  /** The distinct elements of `xs` in order of first occurrence: the keys of a `Counter`. */
  function Distinct(xs: seq<string>): (keys: seq<string>)
    ensures forall x :: x in keys <==> x in xs
    ensures forall i, j :: 0 <= i < j < |keys| ==> keys[i] != keys[j]
    ensures forall i, j, p :: 0 <= i < j < |keys| && 0 <= p < |xs| && xs[p] == keys[j] ==> keys[i] in xs[..p]
  {
    if |xs| == 0 then []
    else
      var init := xs[..|xs| - 1];
      var d := Distinct(init);
      var x := xs[|xs| - 1];
      assert forall p :: 0 <= p < |init| ==> init[..p] == xs[..p];
      assert xs == init + [x];
      if x in d then d else d + [x]
  }

  /**
   * The position `max` picks among `keys` by count in `xs`: a largest count,
   * and the first key that has it.
   */
  function MaxIndex(keys: seq<string>, xs: seq<string>): (i: nat)
    requires |keys| > 0
    ensures i < |keys|
    ensures forall j :: 0 <= j < |keys| ==> multiset(xs)[keys[j]] <= multiset(xs)[keys[i]]
    ensures forall j :: 0 <= j < i ==> multiset(xs)[keys[j]] < multiset(xs)[keys[i]]
  {
    if |keys| == 1 then 0
    else
      var b := MaxIndex(keys[..|keys| - 1], xs);
      if multiset(xs)[keys[|keys| - 1]] > multiset(xs)[keys[b]] then |keys| - 1 else b
  }

  /**
   * `most_frequent`: an element of `xs` with the largest count, and among
   * those the one that occurs first; `None` for an empty list, where the
   * source indexes into an empty result.
   */
  function MostFrequent(xs: seq<string>): (r: Option<string>)
    ensures r.None? <==> |xs| == 0
    ensures r.Some? ==> r.value in xs
    ensures r.Some? ==> forall y :: y in xs ==> multiset(xs)[y] <= multiset(xs)[r.value]
    ensures r.Some? ==> forall p :: 0 <= p < |xs| && multiset(xs)[xs[p]] == multiset(xs)[r.value] ==>
      r.value in xs[..p + 1]
  {
    if |xs| == 0 then None
    else
      var keys := Distinct(xs);
      var i := MaxIndex(keys, xs);
      FirstAmongEqual(xs, keys, i);
      Some(keys[i])
  }

  lemma FirstAmongEqual(xs: seq<string>, keys: seq<string>, i: nat)
    requires keys == Distinct(xs) && i < |keys|
    requires forall j :: 0 <= j < |keys| ==> multiset(xs)[keys[j]] <= multiset(xs)[keys[i]]
    requires forall j :: 0 <= j < i ==> multiset(xs)[keys[j]] < multiset(xs)[keys[i]]
    ensures forall y :: y in xs ==> multiset(xs)[y] <= multiset(xs)[keys[i]]
    ensures forall p :: 0 <= p < |xs| && multiset(xs)[xs[p]] == multiset(xs)[keys[i]] ==> keys[i] in xs[..p + 1]
  {
    forall y | y in xs ensures multiset(xs)[y] <= multiset(xs)[keys[i]] {
      var j :| 0 <= j < |keys| && keys[j] == y;
    }
    forall p | 0 <= p < |xs| && multiset(xs)[xs[p]] == multiset(xs)[keys[i]]
      ensures keys[i] in xs[..p + 1]
    {
      FirstAmongEqualAt(xs, keys, i, p);
    }
  }

  lemma FirstAmongEqualAt(xs: seq<string>, keys: seq<string>, i: nat, p: nat)
    requires keys == Distinct(xs) && i < |keys| && p < |xs|
    requires forall j :: 0 <= j < i ==> multiset(xs)[keys[j]] < multiset(xs)[keys[i]]
    requires multiset(xs)[xs[p]] == multiset(xs)[keys[i]]
    ensures keys[i] in xs[..p + 1]
  {
    assert xs[p] in xs;
    var j :| 0 <= j < |keys| && keys[j] == xs[p];
    if j == i {
      assert xs[..p + 1][p] == xs[p];
    } else {
      assert i < j;
      assert keys[i] in xs[..p];
      var q :| 0 <= q < p && xs[..p][q] == keys[i];
      assert xs[..p + 1][q] == keys[i];
    }
  }

  /** A majority vote over label names returns a label name. */
  lemma VoteIsLabel(labels: seq<string>)
    requires |labels| > 0 && forall k :: 0 <= k < |labels| ==> labels[k] in LabelNames
    ensures MostFrequent(labels).Some? && MostFrequent(labels).value in LabelNames
  {
  }

  // ---------------------------------------------------------------------------
  // predict

  /** The feature matrix of a batch, one row per entry, in batch order. */
  function FeatureRows(batch: seq<Entry>): seq<seq<real>> {
    seq(|batch|, k requires 0 <= k < |batch| => FeatureRow(batch[k]))
  }

  /** The loop that builds `features`. */
  method BuildFeatures(batch: seq<Entry>) returns (features: seq<seq<real>>)
    ensures |features| == |batch|
    ensures forall k :: 0 <= k < |batch| ==> features[k] == FeatureRow(batch[k]) && |features[k]| == FeatureCount
  {
    features := [];
    for k := 0 to |batch|
      invariant |features| == k
      invariant forall j :: 0 <= j < k ==> features[j] == FeatureRow(batch[j])
    {
      var featureValues := FeatureRow(batch[k]);
      features := features + [featureValues];
    }
  }

  /**
   * `np.array(rows).shape` for rows of one common length: `(0,)` for no rows,
   * otherwise `(rows, columns)`.
   */
  function Shape(rows: seq<seq<real>>): (s: seq<nat>)
    requires forall k :: 0 <= k < |rows| ==> |rows[k]| == FeatureCount
    ensures |s| == 2 <==> |rows| > 0
  {
    if |rows| == 0 then [0] else [|rows|, FeatureCount]
  }

  /**
   * The classifier: `model.predict` followed by `np.argmax` of each row's
   * scores, or the text of the exception it raises.
   */
  type Classifier = seq<seq<real>> -> Result<seq<nat>, string>

  /** `[label_names[i] for i in indices]`, which raises on an index past the end. */
  function Labels(indices: seq<nat>): (r: Option<seq<string>>)
    ensures r.Some? <==> forall k :: 0 <= k < |indices| ==> indices[k] < |LabelNames|
    ensures r.Some? ==> |r.value| == |indices| && forall k :: 0 <= k < |indices| ==> r.value[k] in LabelNames
    ensures r.Some? ==> forall k :: 0 <= k < |indices| ==> r.value[k] == LabelNames[indices[k]]
  {
    if forall k :: 0 <= k < |indices| ==> indices[k] < |LabelNames| then
      Some(seq(|indices|, k requires 0 <= k < |indices| => LabelNames[indices[k]]))
    else None
  }

  /** The exceptions the `try` block can raise. */
  datatype Exception = HTTPException(statusCode: int, detail: string) | IndexError | ModelError(text: string)

  /** `str(e)`; an `HTTPException` renders as "status: detail". */
  function ExceptionText(e: Exception): (t: string)
    ensures e.HTTPException? ==>
      && |IntToString(e.statusCode)| <= |t|
      && ParseInt(t[..|IntToString(e.statusCode)|]) == Some(e.statusCode)
      && t[|IntToString(e.statusCode)|..] == ": " + e.detail
    ensures e.IndexError? ==> t == "list index out of range"
    ensures e.ModelError? ==> t == e.text
  {
    match e
    case HTTPException(code, detail) =>
      var status := IntToString(code);
      IntRoundTrip(code);
      assert (status + ": " + detail)[..|status|] == status;
      status + ": " + detail
    case IndexError => "list index out of range"
    case ModelError(text) => text
  }

  const ShapeErrorDetail := "Input data must be 2D (batch_size x features)."
  const ErrorPrefix := "Error during prediction: "

  datatype Response = Prediction(prediction: string) | HttpError(statusCode: int, detail: string)

  /** The body of the `try` block: the voted label, or the exception raised. */
  method PredictTry(batch: seq<Entry>, model: Classifier) returns (outcome: Result<string, Exception>)
    ensures |batch| == 0 ==> outcome == Failure(HTTPException(400, ShapeErrorDetail))
    ensures outcome.Success? <==>
      |batch| > 0 && model(FeatureRows(batch)).Success? && |model(FeatureRows(batch)).value| > 0
      && Labels(model(FeatureRows(batch)).value).Some?
    ensures |batch| > 0 && model(FeatureRows(batch)).Failure? ==>
      outcome == Failure(ModelError(model(FeatureRows(batch)).error))
    ensures |batch| > 0 && model(FeatureRows(batch)).Success? && outcome.Failure? ==> outcome == Failure(IndexError)
    ensures outcome.Success? ==>
      Some(outcome.value) == MostFrequent(Labels(model(FeatureRows(batch)).value).value)
      && outcome.value in LabelNames
  {
    var features := BuildFeatures(batch);
    assert features == FeatureRows(batch);
    if |Shape(features)| != 2 {
      return Failure(HTTPException(400, ShapeErrorDetail));
    }
    var predictions := model(features);
    if predictions.Failure? {
      return Failure(ModelError(predictions.error));
    }
    var predictedLabels := Labels(predictions.value);
    if predictedLabels.None? {
      return Failure(IndexError);
    }
    var vote := MostFrequent(predictedLabels.value);
    if vote.None? {
      return Failure(IndexError);
    }
    outcome := Success(vote.value);
  }

  /**
   * `predict`: every exception, the 400 of the shape check included, is
   * caught by `except Exception` and answered with status 500.
   */
  method Predict(batch: seq<Entry>, model: Classifier) returns (response: Response)
    ensures response.HttpError? ==> response.statusCode == 500 && ErrorPrefix <= response.detail
    ensures |batch| == 0 ==> response == HttpError(500, ErrorPrefix + "400: " + ShapeErrorDetail)
    ensures response.Prediction? ==> response.prediction in LabelNames
    ensures response.Prediction? <==>
      |batch| > 0 && model(FeatureRows(batch)).Success? && |model(FeatureRows(batch)).value| > 0
      && Labels(model(FeatureRows(batch)).value).Some?
    ensures response.Prediction? ==>
      Some(response.prediction) == MostFrequent(Labels(model(FeatureRows(batch)).value).value)
  {
    var outcome := PredictTry(batch, model);
    match outcome
    case Success(voted) =>
      response := Prediction(voted);
    case Failure(e) =>
      response := HttpError(500, ErrorPrefix + ExceptionText(e));
      if |batch| == 0 {
        assert IntToString(400) == "400";
      }
  }
}
