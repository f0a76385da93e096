/** The process-wide state (`global_variable.py`): the loaded model, if any,
    and the metrics dictionary. Serving a request runs its handler and then
    the background calls it queued, in order. */
module Globals {
  import opened Common
  import opened Inference
  import opened Metrics
  import opened Routes

  class AppState {
    /** `model`: None until the startup hook loads one. */
    var model: Option<Classifier>
    /** `prediction_metrics`. */
    const metrics: PredictionMetrics

    ghost predicate Valid()
      reads this, metrics
    {
      metrics.Valid()
    }

    /** The module's state at import time: no model and zeroed metrics. */
    constructor ()
      ensures Valid() && fresh(metrics)
      ensures model == None
      ensures metrics.totalPredictions == 0 && metrics.successfulPredictions == 0
      ensures metrics.failedPredictions == 0 && metrics.averageInferenceTime == 0.0
      ensures metrics.predictionsByClass == ZeroCounts() && metrics.recordedTimes == []
    {
      model := None;
      metrics := new PredictionMetrics();
    }

    /** `POST /predict`, then its queued metrics call. */
    method ServePredict(pixels: seq<real>, requestId: string, elapsedMs: real)
      returns (response: Response<PredictionResponse>)
      requires Valid()
      modifies metrics
      ensures Valid() && model == old(model)
      ensures var h := PredictDigit(model, pixels, requestId, elapsedMs);
        response == h.response && metrics.State() == ApplyAll(old(metrics.State()), h.queued)
    {
      var h := PredictDigit(model, pixels, requestId, elapsedMs);
      metrics.RunQueued(h.queued);
      response := h.response;
    }

    /** `POST /predict/batch`, then its queued metrics calls. */
    method ServeBatch(images: seq<seq<real>>, requestId: string, totalMs: real)
      returns (response: Response<BatchPredictionResponse>)
      requires Valid()
      modifies metrics
      ensures Valid() && model == old(model)
      ensures var h := BatchRoute(model, images, requestId, totalMs);
        response == h.response && metrics.State() == ApplyAll(old(metrics.State()), h.queued)
    {
      var h := PredictBatch(model, images, requestId, totalMs);
      metrics.RunQueued(h.queued);
      response := h.response;
    }

    /** `GET /metrics`: a read-only report of the current counters. */
    method ServeMetrics() returns (report: MetricsReport)
      requires Valid()
      ensures report == GetMetrics(metrics.State())
      ensures 0.0 <= report.successRate <= 1.0
    {
      ReportBounds(metrics.State());
      report := GetMetrics(metrics.State());
    }
  }

  /** A state in which every request so far was served keeps the invariant
      and the class counts stay within the successes. */
  lemma ServedStateInvariant(s: MetricsState, us: seq<MetricsUpdate>)
    requires s == InitialMetrics()
    ensures Inv(ApplyAll(s, us))
    ensures ClassTotal(ApplyAll(s, us).predictionsByClass) <= ApplyAll(s, us).successfulPredictions
  {
    InitialMetricsValid(s, []);
    ApplyAllPreservesInv(s, us);
    ApplyAllKeepsClassesWithinSuccesses(s, us);
    var t := ApplyAll(s, us);
    assert Inv(t);
    assert ClassesWithinSuccesses(t);
  }
}
