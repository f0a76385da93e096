/** Inference and result extraction (`predict_single_image`,
    `predict_batch_images`). The network followed by softmax is an opaque
    classifier: it maps the [1,28,28] tensor of one image to a row of ten
    class probabilities. Elapsed times are inputs. */
module Inference {
  import opened Common
  import opened Preprocess

  /** One row of class probabilities, indexed by class. */
  type ProbRow = r: seq<real> | |r| == NumClasses
    witness [0.0, 0.0, 0.0, 0.0, 0.0, 0.0, 0.0, 0.0, 0.0, 0.0]

  /** The loaded network followed by softmax, applied to one image of a batch. */
  type Classifier = ImageTensor -> ProbRow

  /** A prediction as `predict_single_image` / `predict_batch_images` build it. */
  datatype PredictionResult = PredictionResult(
    prediction: nat,
    confidence: real,
    probabilities: map<string, real>,
    inferenceTimeMs: real)

  /** What `predict_batch_images` returns. */
  datatype BatchResult = BatchResult(
    predictions: seq<PredictionResult>,
    totalInferenceTimeMs: real,
    averageInferenceTimeMs: real)

  /** The two ways a prediction fails: a RuntimeError when no model is loaded,
      or the ValueError that preprocessing raised. */
  datatype PredictError = ModelNotLoaded | Invalid(cause: ValueError)

  /** `torch.argmax` over one row: the first index holding the maximum. */
  function ArgMax(row: seq<real>): (k: nat)
    requires |row| > 0
    ensures k < |row|
    ensures forall j :: 0 <= j < |row| ==> row[j] <= row[k]
    ensures forall j :: 0 <= j < k ==> row[j] < row[k]
  {
    if |row| == 1 then 0
    else
      var k := ArgMax(row[..|row| - 1]);
      if row[|row| - 1] > row[k] then |row| - 1 else k
  }

  /** The digit whose key is `k`. */
  function ClassOfKey(k: string): nat
    requires k in ClassKeys()
    ensures ClassOfKey(k) < NumClasses && ClassKey(ClassOfKey(k)) == k
  {
    k[0] as int - '0' as int
  }

  /** `{str(i): float(probabilities[i]) for i in range(10)}`. */
  function ProbabilityMap(row: ProbRow): (m: map<string, real>)
    ensures m.Keys == ClassKeys()
    ensures forall i :: 0 <= i < NumClasses ==> m[ClassKey(i)] == row[i]
  {
    map k | k in ClassKeys() :: row[ClassOfKey(k)]
  }

  /** The result for one probability row: the first most probable class, its
      probability rounded to 4 decimals, the full probability map. */
  function ExtractPrediction(row: ProbRow, timeMs: real): (p: PredictionResult)
    ensures p.prediction < NumClasses
    ensures forall j :: 0 <= j < NumClasses ==> row[j] <= row[p.prediction]
    ensures forall j :: 0 <= j < p.prediction ==> row[j] < row[p.prediction]
    ensures p.probabilities.Keys == ClassKeys()
    ensures forall i :: 0 <= i < NumClasses ==> p.probabilities[ClassKey(i)] == row[i]
    ensures p.confidence == Round(p.probabilities[ClassKey(p.prediction)], 4)
    ensures p.inferenceTimeMs == timeMs
  {
    var c := ArgMax(row);
    PredictionResult(c, Round(row[c], 4), ProbabilityMap(row), timeMs)
  }

  /** `predict_single_image`: the model check comes first, then
      preprocessing, then one forward pass; the elapsed time is rounded to
      two decimals. */
  function PredictSingleImage(model: Option<Classifier>, pixels: seq<real>, elapsedMs: real)
    : (r: Result<PredictionResult, PredictError>)
    ensures model.None? ==> r == Err(ModelNotLoaded)
    ensures model.Some? && |pixels| != 784 ==> r == Err(Invalid(ImageLengthError(|pixels|)))
    ensures model.Some? && |pixels| == 784 ==>
      && r.Ok?
      && r.value == ExtractPrediction(model.value(ImageOf(pixels)), Round(elapsedMs, 2))
  {
    match model
    case None => Err(ModelNotLoaded)
    case Some(classify) =>
      match PreprocessImage(pixels)
      case Err(e) => Err(Invalid(e))
      case Ok(tensor) => Ok(ExtractPrediction(classify(tensor[0]), Round(elapsedMs, 2)))
  }

  /** What `predict_batch_images` returns or raises, given the time the forward
      pass over the whole batch took. All results carry the same time, the
      batch mean. */
  function BatchPrediction(model: Option<Classifier>, images: seq<seq<real>>, totalMs: real)
    : (r: Result<BatchResult, PredictError>)
    ensures model.None? ==> r == Err(ModelNotLoaded)
    ensures model.Some? && PreprocessBatch(images).Err? ==>
      r == Err(Invalid(PreprocessBatch(images).error))
    ensures model.Some? && PreprocessBatch(images).Ok? ==>
      && r.Ok?
      && |images| > 0
      && |r.value.predictions| == |images|
      && r.value.totalInferenceTimeMs == Round(totalMs, 2)
      && r.value.averageInferenceTimeMs == Round(totalMs / |images| as real, 2)
      && (forall i :: 0 <= i < |images| ==>
            r.value.predictions[i].inferenceTimeMs == r.value.averageInferenceTimeMs)
      && (forall i :: 0 <= i < |images| ==>
            r.value.predictions[i] ==
              ExtractPrediction(model.value(ImageOf(images[i])), r.value.averageInferenceTimeMs))
  {
    match model
    case None => Err(ModelNotLoaded)
    case Some(classify) =>
      match PreprocessBatch(images)
      case Err(e) => Err(Invalid(e))
      case Ok(batch) =>
        var average := Round(totalMs / |images| as real, 2);
        Ok(BatchResult(
          seq(|images|, i requires 0 <= i < |images| => ExtractPrediction(classify(batch[i]), average)),
          Round(totalMs, 2),
          average))
  }

  /** `predict_batch_images`: one forward pass over the batch, a loop building
      each result with time 0, then a loop setting every result's time to the
      rounded batch mean. */
  method PredictBatchImages(model: Option<Classifier>, images: seq<seq<real>>, totalMs: real)
    returns (r: Result<BatchResult, PredictError>)
    ensures r == BatchPrediction(model, images, totalMs)
  {
    if model.None? {
      return Err(ModelNotLoaded);
    }
    var pre := PreprocessBatchImages(images);
    if pre.Err? {
      return Err(Invalid(pre.error));
    }
    var batch := pre.value;
    var classify := model.value;
    var rows := seq(|batch|, k requires 0 <= k < |batch| => classify(batch[k]));
    var predictions := ExtractAll(rows);
    var total := totalMs;
    var average := total / |images| as real;
    predictions := SetInferenceTimes(predictions, rows, Round(average, 2));
    forall m | 0 <= m < |images|
      ensures predictions[m] == ExtractPrediction(classify(ImageOf(images[m])), Round(average, 2))
    {
      assert batch[m] == ImageOf(images[m]);
    }
    BatchPredictionIs(model, images, totalMs, predictions);
    r := Ok(BatchResult(predictions, Round(total, 2), Round(average, 2)));
  }

  /** The extraction loop of `predict_batch_images`: one result per row, in
      order, each with time 0 for now. */
  method ExtractAll(rows: seq<ProbRow>) returns (predictions: seq<PredictionResult>)
    ensures |predictions| == |rows|
    ensures forall j :: 0 <= j < |rows| ==> predictions[j] == ExtractPrediction(rows[j], 0.0)
  {
    predictions := [];
    var i := 0;
    while i < |rows|
      invariant 0 <= i <= |rows|
      invariant |predictions| == i
      invariant forall j :: 0 <= j < i ==> predictions[j] == ExtractPrediction(rows[j], 0.0)
    {
      predictions := predictions + [ExtractPrediction(rows[i], 0.0)];
      i := i + 1;
    }
  }

  /** The timing loop of `predict_batch_images`: every result gets the same time. */
  method SetInferenceTimes(predictions: seq<PredictionResult>, rows: seq<ProbRow>, timeMs: real)
    returns (retimed: seq<PredictionResult>)
    requires |predictions| == |rows|
    requires forall j :: 0 <= j < |rows| ==> predictions[j] == ExtractPrediction(rows[j], 0.0)
    ensures |retimed| == |rows|
    ensures forall j :: 0 <= j < |rows| ==> retimed[j] == ExtractPrediction(rows[j], timeMs)
  {
    retimed := predictions;
    var j := 0;
    while j < |retimed|
      invariant 0 <= j <= |retimed| == |rows|
      invariant forall m :: 0 <= m < j ==> retimed[m] == ExtractPrediction(rows[m], timeMs)
      invariant forall m :: j <= m < |rows| ==> retimed[m] == ExtractPrediction(rows[m], 0.0)
    {
      RetimePrediction(rows[j], 0.0, timeMs);
      retimed := retimed[j := retimed[j].(inferenceTimeMs := timeMs)];
      j := j + 1;
    }
  }

  lemma BatchPredictionIs(model: Option<Classifier>, images: seq<seq<real>>, totalMs: real,
                          predictions: seq<PredictionResult>)
    requires model.Some? && PreprocessBatch(images).Ok?
    requires |predictions| == |images|
    requires forall m :: 0 <= m < |images| ==>
      predictions[m] == ExtractPrediction(model.value(ImageOf(images[m])), Round(totalMs / |images| as real, 2))
    ensures BatchPrediction(model, images, totalMs)
      == Ok(BatchResult(predictions, Round(totalMs, 2), Round(totalMs / |images| as real, 2)))
  {
    var expected := BatchPrediction(model, images, totalMs).value;
    assert predictions == expected.predictions;
  }

  /** Setting the time of a result is extracting it with that time. */
  lemma RetimePrediction(row: ProbRow, t: real, t': real)
    ensures ExtractPrediction(row, t).(inferenceTimeMs := t') == ExtractPrediction(row, t')
  {
  }
}
