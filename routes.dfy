/** The three endpoints: `POST /predict` (`predict_digit`), `POST /predict/batch`
    (`predict_batch`) and `GET /metrics` (`get_metrics`). A handler returns its
    HTTP outcome together with the `update_metrics` calls it added to the
    request's background tasks, which run in order after the response. */
module Routes {
  import opened Common
  import opened Preprocess
  import opened Inference
  import opened Metrics
  import opened Schema

  /** `PredictionResponse`: one result and the request id it answers. */
  datatype PredictionResponse = PredictionResponse(
    prediction: nat,
    confidence: real,
    probabilities: map<string, real>,
    inferenceTimeMs: real,
    requestId: string)

  /** `BatchPredictionResponse`. */
  datatype BatchPredictionResponse = BatchPredictionResponse(
    predictions: seq<PredictionResponse>,
    batchSize: nat,
    totalInferenceTimeMs: real,
    averageInferenceTimeMs: real,
    requestId: string)

  /** A 200 response with its body, or the `HTTPException` a handler raises. */
  datatype Response<T> = Success(body: T) | Failure(statusCode: nat, detail: string)

  /** A handler's outcome and the background tasks it queued. */
  datatype Handled<T> = Handled(response: Response<T>, queued: seq<MetricsUpdate>)

  const PredictFailedMessage: string := "Prediction failed due to internal error"
  const BatchFailedMessage: string := "Batch prediction failed due to internal error"

  /** The response fields copied from an inference result. */
  function ToResponse(r: PredictionResult, requestId: string): (p: PredictionResponse)
    ensures p.prediction == r.prediction && p.confidence == r.confidence
    ensures p.probabilities == r.probabilities && p.inferenceTimeMs == r.inferenceTimeMs
    ensures p.requestId == requestId
  {
    PredictionResponse(r.prediction, r.confidence, r.probabilities, r.inferenceTimeMs, requestId)
  }

  // ---------------------------------------------------------------------------
  // POST /predict
  // ---------------------------------------------------------------------------

  /** `predict_digit`: exactly one metrics call on every path. A result is a
      200 whose fields are the result's, and its call records the predicted
      class and the rounded time. A ValueError is a 400 carrying its text;
      anything else, a missing model included, is a 500 with a fixed text.
      Both failures record `(-1, 0, success=False)`. */
  function PredictDigit(model: Option<Classifier>, pixels: seq<real>, requestId: string, elapsedMs: real)
    : (h: Handled<PredictionResponse>)
    ensures |h.queued| == 1
    ensures h.response.Success? <==> model.Some? && |pixels| == 784
    ensures h.response.Success? <==> h.queued[0].success
    ensures h.response.Success? ==>
      && h.response.body.requestId == requestId
      && h.queued[0] == MetricsUpdate(h.response.body.prediction, h.response.body.inferenceTimeMs, true)
      && PredictSingleImage(model, pixels, elapsedMs)
         == Ok(PredictionResult(h.response.body.prediction, h.response.body.confidence,
                                h.response.body.probabilities, h.response.body.inferenceTimeMs))
    ensures model.None? ==> h == Handled(Failure(500, PredictFailedMessage), [FailureUpdate])
    ensures model.Some? && |pixels| != 784 ==>
      h == Handled(Failure(400, Message(ImageLengthError(|pixels|))), [FailureUpdate])
  {
    match PredictSingleImage(model, pixels, elapsedMs)
    case Ok(result) =>
      Handled(Success(ToResponse(result, requestId)),
              [MetricsUpdate(result.prediction, result.inferenceTimeMs, true)])
    case Err(Invalid(e)) => Handled(Failure(400, Message(e)), [FailureUpdate])
    case Err(ModelNotLoaded) => Handled(Failure(500, PredictFailedMessage), [FailureUpdate])
  }

  /** Through the `ImageData` schema the 400 branch of `predict_digit` cannot
      be reached: a loaded model always answers 200. */
  lemma ValidatedImageIsPredicted(model: Option<Classifier>, pixels: seq<real>, requestId: string,
                                  elapsedMs: real)
    requires ImageDataValid(pixels) && model.Some?
    ensures PredictDigit(model, pixels, requestId, elapsedMs).response.Success?
  {
  }

  /** A successful single prediction counts one success, under its class. */
  lemma PredictSuccessCounted(s: MetricsState, model: Option<Classifier>, pixels: seq<real>,
                              requestId: string, elapsedMs: real)
    requires Inv(s)
    requires PredictDigit(model, pixels, requestId, elapsedMs).response.Success?
    ensures var h := PredictDigit(model, pixels, requestId, elapsedMs);
      var t := ApplyAll(s, h.queued);
      && t.successfulPredictions == s.successfulPredictions + 1
      && t.failedPredictions == s.failedPredictions
      && var k := ClassKey(h.response.body.prediction);
         t.predictionsByClass[k] == s.predictionsByClass[k] + 1
  {
    var h := PredictDigit(model, pixels, requestId, elapsedMs);
    assert h.queued[..0] == [];
    assert ApplyAll(s, h.queued) == Apply(s, h.queued[0]);
  }

  // ---------------------------------------------------------------------------
  // POST /predict/batch
  // ---------------------------------------------------------------------------

  /** `n` failure calls `(-1, 0, success=False)`. */
  function Failures(n: nat): (us: seq<MetricsUpdate>)
    ensures |us| == n && forall i :: 0 <= i < n ==> us[i] == FailureUpdate
  {
    seq(n, _ => FailureUpdate)
  }

  /** The request id of result `i` of a batch: `f"{request_id}-{i}"`. */
  function ItemRequestId(requestId: string, i: nat): (id: string)
    ensures |id| > |requestId| + 1 && id[..|requestId|] == requestId && id[|requestId|] == '-'
    ensures id[|requestId| + 1..] == NatToString(i)
  {
    requestId + "-" + NatToString(i)
  }

  /** Results of one batch carry distinct request ids. */
  lemma ItemRequestIdsDistinct(requestId: string, i: nat, j: nat)
    requires i != j
    ensures ItemRequestId(requestId, i) != ItemRequestId(requestId, j)
  {
    var a, b := ItemRequestId(requestId, i), ItemRequestId(requestId, j);
    if a == b {
      assert a[|requestId| + 1..] == NatToString(i);
      assert b[|requestId| + 1..] == NatToString(j);
      NatToStringInjective(i, j);
    }
  }

  /** One response per result, result `i` answering `{request_id}-{i}`. */
  function ItemResponses(result: BatchResult, requestId: string): (ps: seq<PredictionResponse>)
    ensures |ps| == |result.predictions|
    ensures forall i :: 0 <= i < |ps| ==> ps[i] == ToResponse(result.predictions[i], ItemRequestId(requestId, i))
  {
    seq(|result.predictions|, i requires 0 <= i < |result.predictions| =>
      ToResponse(result.predictions[i], ItemRequestId(requestId, i)))
  }

  /** The batch response built from a batch result: the items in order, each
      with an id of its own that starts with the batch's id, and the batch's
      size, timings and id. */
  function BatchResponse(result: BatchResult, images: seq<seq<real>>, requestId: string)
    : (b: BatchPredictionResponse)
    ensures |b.predictions| == |result.predictions| && b.batchSize == |images|
    ensures b.requestId == requestId
    ensures b.totalInferenceTimeMs == result.totalInferenceTimeMs
    ensures b.averageInferenceTimeMs == result.averageInferenceTimeMs
    ensures forall i :: 0 <= i < |b.predictions| ==>
      && b.predictions[i].prediction == result.predictions[i].prediction
      && b.predictions[i].confidence == result.predictions[i].confidence
      && b.predictions[i].probabilities == result.predictions[i].probabilities
      && |b.predictions[i].requestId| > |requestId| + 1
      && b.predictions[i].requestId[..|requestId|] == requestId
    ensures forall i, j :: 0 <= i < j < |b.predictions| ==>
      b.predictions[i].requestId != b.predictions[j].requestId
    ensures b.predictions == ItemResponses(result, requestId)
  {
    forall i, j | 0 <= i < j < |result.predictions|
      ensures ItemRequestId(requestId, i) != ItemRequestId(requestId, j)
    {
      ItemRequestIdsDistinct(requestId, i, j);
    }
    BatchPredictionResponse(
      ItemResponses(result, requestId),
      |images|,
      result.totalInferenceTimeMs,
      result.averageInferenceTimeMs,
      requestId)
  }

  /** One success call per result, with its class and time 0. */
  function BatchSuccesses(result: BatchResult): (us: seq<MetricsUpdate>)
    ensures |us| == |result.predictions|
    ensures forall i :: 0 <= i < |us| ==> us[i] == MetricsUpdate(result.predictions[i].prediction, 0.0, true)
  {
    seq(|result.predictions|, i requires 0 <= i < |result.predictions| =>
      MetricsUpdate(result.predictions[i].prediction, 0.0, true))
  }

  /** The outcome of `predict_batch` once the size checks passed: a missing
      model is a 500 with the fixed text, a preprocessing ValueError a 400
      with its text, both with one failure call per image; otherwise a 200
      with one success call per image. */
  function BatchOutcome(model: Option<Classifier>, images: seq<seq<real>>, requestId: string, totalMs: real)
    : (h: Handled<BatchPredictionResponse>)
    ensures model.None? ==> h == Handled(Failure(500, BatchFailedMessage), Failures(|images|))
    ensures model.Some? && PreprocessBatch(images).Err? ==>
      h == Handled(Failure(400, Message(PreprocessBatch(images).error)), Failures(|images|))
    ensures model.Some? && PreprocessBatch(images).Ok? ==>
      && h.response.Success?
      && |h.queued| == |images|
      && (forall i :: 0 <= i < |images| ==> h.queued[i].success && h.queued[i].inferenceTime == 0.0)
    ensures model.Some? && PreprocessBatch(images).Ok? ==>
      && h.response == Success(BatchResponse(BatchPrediction(model, images, totalMs).value, images, requestId))
      && (forall i :: 0 <= i < |images| ==>
            h.queued[i] == MetricsUpdate(BatchPrediction(model, images, totalMs).value.predictions[i].prediction, 0.0, true))
  {
    match BatchPrediction(model, images, totalMs)
    case Ok(result) => Handled(Success(BatchResponse(result, images, requestId)), BatchSuccesses(result))
    case Err(Invalid(e)) => Handled(Failure(400, Message(e)), Failures(|images|))
    case Err(ModelNotLoaded) => Handled(Failure(500, BatchFailedMessage), Failures(|images|))
  }

  /** What `predict_batch` returns and queues. The size checks raise an
      `HTTPException(400)` inside the `try`; it is no ValueError, so the
      generic handler turns it into a 500. Every path queues one call per
      image, none of them with a positive time. */
  function BatchRoute(model: Option<Classifier>, images: seq<seq<real>>, requestId: string, totalMs: real)
    : (h: Handled<BatchPredictionResponse>)
    ensures |h.queued| == |images|
    ensures forall i :: 0 <= i < |h.queued| ==> h.queued[i].inferenceTime == 0.0
    ensures (|images| > MaxBatchImages || |images| == 0) ==>
      h == Handled(Failure(500, BatchFailedMessage), Failures(|images|))
    ensures model.None? ==> h == Handled(Failure(500, BatchFailedMessage), Failures(|images|))
    ensures 0 < |images| <= MaxBatchImages && model.Some? && PreprocessBatch(images).Err? ==>
      h == Handled(Failure(400, Message(PreprocessBatch(images).error)), Failures(|images|))
    ensures h.response.Failure? ==> h.queued == Failures(|images|)
    ensures h.response.Failure? && h.response.statusCode == 400 ==>
      exists k :: (&& 0 <= k < |images| && |images[k]| != 784
                   && (forall j :: 0 <= j < k ==> |images[j]| == 784)
                   && h.response.detail == Message(BatchImageLengthError(|images[k]|)))
    ensures h.response.Success? <==>
      && 0 < |images| <= MaxBatchImages
      && model.Some?
      && (forall k :: 0 <= k < |images| ==> |images[k]| == 784)
    ensures h.response.Success? ==>
      && var body := h.response.body;
      && body.batchSize == |images|
      && body.requestId == requestId
      && |body.predictions| == |images|
      && body.totalInferenceTimeMs == Round(totalMs, 2)
      && body.averageInferenceTimeMs == Round(totalMs / |images| as real, 2)
      && (forall i :: 0 <= i < |images| ==>
            && body.predictions[i].requestId == ItemRequestId(requestId, i)
            && body.predictions[i].inferenceTimeMs == body.averageInferenceTimeMs
            && ToResponse(ExtractPrediction(model.value(ImageOf(images[i])), body.averageInferenceTimeMs),
                          ItemRequestId(requestId, i)) == body.predictions[i]
            && h.queued[i] == MetricsUpdate(body.predictions[i].prediction, 0.0, true))
  {
    if |images| > MaxBatchImages || |images| == 0 then
      Handled(Failure(500, BatchFailedMessage), Failures(|images|))
    else
      BatchFirstBadImage(images);
      BatchOutcome(model, images, requestId, totalMs)
  }

  /** When preprocessing fails on a non-empty batch, it names an image whose
      length is not 784. */
  lemma BatchFirstBadImage(images: seq<seq<real>>)
    ensures |images| > 0 && PreprocessBatch(images).Err? ==>
      exists k :: (&& 0 <= k < |images| && |images[k]| != 784
                   && (forall j :: 0 <= j < k ==> |images[j]| == 784)
                   && PreprocessBatch(images).error == BatchImageLengthError(|images[k]|))
  {
    if |images| > 0 && PreprocessBatch(images).Err? {
      var k := FirstBadImage(images, 0);
      assert k.Some?;
    }
  }

  /** `predict_batch`: the two size checks, one call of `predict_batch_images`,
      then a loop building each response and queuing each success call; on an
      error, a loop queuing one failure call per image. */
  method PredictBatch(model: Option<Classifier>, images: seq<seq<real>>, requestId: string, totalMs: real)
    returns (h: Handled<BatchPredictionResponse>)
    ensures h == BatchRoute(model, images, requestId, totalMs)
  {
    if |images| > MaxBatchImages || |images| == 0 {
      var failures := QueueFailures(|images|);
      return Handled(Failure(500, BatchFailedMessage), failures);
    }
    var results := PredictBatchImages(model, images, totalMs);
    match results
    case Err(e) =>
      var failures := QueueFailures(|images|);
      if e.Invalid? {
        h := Handled(Failure(400, Message(e.cause)), failures);
      } else {
        h := Handled(Failure(500, BatchFailedMessage), failures);
      }
    case Ok(result) =>
      var predictions, queued := RespondEach(result, requestId);
      h := Handled(
        Success(BatchPredictionResponse(
          predictions, |images|, result.totalInferenceTimeMs, result.averageInferenceTimeMs, requestId)),
        queued);
      assert h == BatchOutcome(model, images, requestId, totalMs);
  }

  /** The loop of `predict_batch` over the results: one response with the
      `{request_id}-{i}` id and one queued success call per result, in order. */
  method RespondEach(result: BatchResult, requestId: string)
    returns (predictions: seq<PredictionResponse>, queued: seq<MetricsUpdate>)
    ensures predictions == ItemResponses(result, requestId)
    ensures queued == BatchSuccesses(result)
  {
    predictions, queued := [], [];
    for i := 0 to |result.predictions|
      invariant |predictions| == |queued| == i
      invariant forall j :: 0 <= j < i ==>
        predictions[j] == ToResponse(result.predictions[j], ItemRequestId(requestId, j))
      invariant forall j :: 0 <= j < i ==>
        queued[j] == MetricsUpdate(result.predictions[j].prediction, 0.0, true)
    {
      var item := result.predictions[i];
      predictions := predictions + [ToResponse(item, ItemRequestId(requestId, i))];
      queued := queued + [MetricsUpdate(item.prediction, 0.0, true)];
    }
  }

  /** `for _ in range(n): background_tasks.add_task(update_metrics, -1, 0, success=False)`. */
  method QueueFailures(n: nat) returns (queued: seq<MetricsUpdate>)
    ensures queued == Failures(n)
  {
    queued := [];
    for i := 0 to n
      invariant queued == Failures(i)
    {
      queued := queued + [FailureUpdate];
    }
  }

  /** Through the `BatchImageData` schema the oversize branch cannot be
      reached: a validated, non-empty batch gets the outcome of inference. */
  lemma ValidatedBatchReachesInference(model: Option<Classifier>, images: seq<seq<real>>,
                                       requestId: string, totalMs: real)
    requires BatchImageDataValid(images) && |images| > 0
    ensures BatchRoute(model, images, requestId, totalMs) == BatchOutcome(model, images, requestId, totalMs)
  {
  }

  /** The schema admits an empty batch, which answers 500 and queues nothing. */
  lemma EmptyBatchPassesSchemaAndFails(model: Option<Classifier>, requestId: string, totalMs: real)
    ensures BatchImageDataValid([])
    ensures BatchRoute(model, [], requestId, totalMs) == Handled(Failure(500, BatchFailedMessage), [])
  {
    assert Failures(0) == [];
  }

  /** The schema does not bound inner lengths: a batch holding one empty image
      passes it and answers 400 with preprocessing's text. */
  lemma ShortImagePassesSchemaAndIsRejected(classify: Classifier, requestId: string, totalMs: real)
    ensures BatchImageDataValid([[]])
    ensures BatchRoute(Some(classify), [[]], requestId, totalMs).response
      == Failure(400, BatchLengthPrefix + "0")
  {
    var images: seq<seq<real>> := [[]];
    assert FirstBadImage(images, 0) == Some(0);
    assert NatToString(0) == "0";
  }

  /** Batch results never move the average: every call a batch queues has time 0. */
  lemma BatchKeepsAverage(s: MetricsState, model: Option<Classifier>, images: seq<seq<real>>,
                          requestId: string, totalMs: real)
    requires WellFormed(s)
    ensures ApplyAll(s, BatchRoute(model, images, requestId, totalMs).queued).averageInferenceTime
      == s.averageInferenceTime
  {
    ZeroTimeKeepsAverage(s, BatchRoute(model, images, requestId, totalMs).queued);
  }

  // ---------------------------------------------------------------------------
  // GET /metrics
  // ---------------------------------------------------------------------------

  /** `MetricsResponse`. */
  datatype MetricsReport = MetricsReport(
    totalPredictions: int,
    successfulPredictions: int,
    failedPredictions: int,
    successRate: real,
    averageInferenceTime: real,
    predictionsByClass: map<string, int>)

  /** `successful / total`, or 0.0 before any prediction. */
  function SuccessRate(s: MetricsState): (rate: real)
    ensures s.totalPredictions <= 0 ==> rate == 0.0
    ensures s.totalPredictions > 0 ==> rate * s.totalPredictions as real == s.successfulPredictions as real
  {
    if s.totalPredictions > 0 then s.successfulPredictions as real / s.totalPredictions as real else 0.0
  }

  /** `get_metrics`: the counters and class counts as stored, the success rate
      rounded to 4 decimals and the average to 3. */
  function GetMetrics(s: MetricsState): (m: MetricsReport)
    ensures m.totalPredictions == s.totalPredictions
    ensures m.successfulPredictions == s.successfulPredictions
    ensures m.failedPredictions == s.failedPredictions
    ensures m.predictionsByClass == s.predictionsByClass
    ensures m.successRate == Round(SuccessRate(s), 4)
    ensures m.averageInferenceTime == Round(s.averageInferenceTime, 3)
  {
    MetricsReport(
      s.totalPredictions, s.successfulPredictions, s.failedPredictions,
      Round(SuccessRate(s), 4), Round(s.averageInferenceTime, 3), s.predictionsByClass)
  }

  /** In every reachable state the reported success rate lies in [0, 1] and
      the reported average is non-negative. */
  lemma ReportBounds(s: MetricsState)
    requires Inv(s)
    ensures 0.0 <= GetMetrics(s).successRate <= 1.0
    ensures 0.0 <= GetMetrics(s).averageInferenceTime
  {
    var rate := SuccessRate(s);
    if s.totalPredictions > 0 {
      RateWithinUnit(s.successfulPredictions as real, s.totalPredictions as real, rate);
    }
    RoundUnitInterval(rate, 4);
    RoundNonNegative(s.averageInferenceTime, 3);
  }

  lemma RateWithinUnit(successful: real, total: real, rate: real)
    requires 0.0 <= successful <= total && total > 0.0 && rate * total == successful
    ensures 0.0 <= rate <= 1.0
  {
  }

  /** Three failures and one success give a success rate of 0.25. */
  lemma OneInFourSucceeded(s: MetricsState, us: seq<MetricsUpdate>)
    requires s == InitialMetrics()
    requires |us| == 4 && Successes(us) == 1
    ensures GetMetrics(ApplyAll(s, us)).successRate == 0.25
  {
    ApplyAllCounts(s, us);
    var t := ApplyAll(s, us);
    assert SuccessRate(t) == 0.25;
    assert Pow10(4) == 10000;
    assert RoundHalfEven(0.25 * 10000 as real) == 2500;
  }
}
