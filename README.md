# MNIST-Studio inference pipeline, modelled in Dafny

MNIST-Studio serves handwritten-digit predictions over HTTP and tracks usage
metrics. A React page lets the user draw a digit on a 28x28 grid and post it.
This project models the parts of the system that carry real logic:

- **Preprocessing** (`preprocess.dfy`). A flat list of 784 pixel values is
  reshaped row-major into a `[1,1,28,28]` tensor, and a batch into
  `[N,1,28,28]`. The model also covers the length checks and the exact
  `ValueError` texts they raise, including the second prefix that the
  re-raising `except` adds.
- **Extraction** (`inference.dfy`). The network plus softmax is an opaque
  `Classifier`, a function from an image tensor to ten probabilities. For
  each probability row the model computes:
  - the first most probable class, as `torch.argmax` picks it;
  - the confidence, rounded to four places;
  - the map of probabilities keyed "0".."9".

  It also models the batch timing: every result of a batch carries the
  rounded mean time.
- **Metrics** (`metrics.dfy`). `update_metrics` is a state machine over the
  dictionary `prediction_metrics`. It is modelled twice:
  - as a pure transition `Apply`;
  - as the class `PredictionMetrics`, whose fields are updated in place, with
    the invariant `total == successful + failed`, the class counts summing to
    at most the successes, and the average equal to the mean of the recorded
    success times while every one of them was positive.

  A separate lemma shows that a success with time 0, as the batch route
  records, dilutes the average.
- **Routes** (`routes.dfy`). Each endpoint returns a response and the ordered
  list of `update_metrics` calls it queued as background tasks:
  - `POST /predict` always queues exactly one call;
  - `POST /predict/batch` queues one call per image on every path;
  - `GET /metrics` reads the counters and writes nothing.

  The batch route's empty and oversize checks raise `HTTPException(400)`
  inside the `try`. The generic `except Exception` catches it, so the client
  sees a 500 with the generic message. The model reproduces this.
- **Schemas** (`schema.dfy`). The pydantic bounds are predicates: a single
  image has exactly 784 values, and a batch has at most 10 images. The batch
  has no lower bound and its inner lists have no length bound.
- **Process state** (`globals.dfy`). `AppState` holds the model slot, which
  starts empty, and the metrics dictionary, which starts zeroed. It serves
  each request by running the handler and then the calls it queued.
- **Drawing grid** (`drawing_grid.dfy`). The class `DrawingState` models the
  component state of `MNISTDrawingGrid`:
  - pointer position to cell, with its bounds check;
  - the max-update of one cell;
  - clearing the grid;
  - extracting the 784 values, `toFixed(3)` of `v / 255`, in row-major order;
  - the `sendToServer` guard and how the request settles.

  A lemma ties the extracted values to the backend: they pass the `ImageData`
  schema and reshape back to their cells.

Empty and oversize batches skip inference, but the client gets a 500 with
the generic message, because the `HTTPException(400)` is raised inside the
`try` (route_batch_predict.py:31-41, 83-88); `Routes.BatchRoute` states this.
An oversize batch also queues one failure call per image.

Python's `round(x, n)` is modelled as round-half-to-even on the exact
rational value. JavaScript's `toFixed(3)` is modelled as round-half-up. For
inputs `v / 255` no tie can occur, so the tie rule does not matter there.
The offset of a point inside its cell is written `x % cellWidth` in the
component. The model writes it as `x - cellWidth * col`, which is the same
value for the non-negative `x` of every point that hits a cell.

## Model

| member | source | states |
|---|---|---|
| Common.NatToString | backend/saved_models/predict.py:80 | `str(i)` of a natural: at least one character, all decimal digits, one digit exactly below 10, no leading zero |
| Common.DigitsValueOfNatToString | backend/saved_models/predict.py:20 | reading back the digits of the reported length gives the length again |
| Common.NatToStringInjective | backend/routes/route_batch_predict.py:53 | distinct indices render as distinct strings |
| Common.ClassKey | backend/saved_models/predict.py:80 | a class key is one decimal digit |
| Common.ClassKeyIsDecimal | backend/saved_models/predict.py:80 | the key of class `i` is `str(i)` |
| Common.ClassKeyInjective | backend/global_variables/global_variable.py:10 | distinct classes have distinct keys |
| Common.RoundHalfEven | backend/saved_models/predict.py:84 | the rounded integer is within one half of the value, and a tie goes to the even neighbour |
| Common.Round | backend/saved_models/predict.py:84 | `round(x, n)` has no digits past the `n`-th decimal place |
| Common.RoundToScale | backend/routes/route_metrics.py:24-25 | the rounded value is a whole multiple of `1/scale` |
| Common.RoundError | backend/saved_models/predict.py:84 | `round(x, n) * 10^n` is within one half of `x * 10^n` |
| Common.RoundToScaleError | backend/saved_models/predict.py:86 | rounding to a multiple of `1/scale` moves the value by at most half a unit |
| Common.RoundUnitInterval | backend/routes/route_metrics.py:24 | rounding a value of [0, 1] stays in [0, 1] |
| Common.RoundToScaleUnitInterval | backend/routes/route_metrics.py:24 | the same, for any positive scale |
| Common.RoundNonNegative | backend/routes/route_metrics.py:25 | rounding a non-negative value stays non-negative |
| Common.RoundToScaleNonNegative | backend/routes/route_metrics.py:25 | the same, for any positive scale |
| Preprocess.Reshape | backend/saved_models/predict.py:23 | 784 values become a 28x28 plane with cell (r, c) holding value `28*r + c` |
| Preprocess.Flatten | backend/saved_models/predict.py:23 | a 28x28 plane becomes 784 values, value `i` taken from row `i/28`, column `i%28` |
| Preprocess.ReshapeThenFlatten | backend/saved_models/predict.py:23 | flattening the reshape of 784 values gives them back |
| Preprocess.FlattenThenReshape | backend/saved_models/predict.py:46 | reshaping the flattening of a plane gives it back |
| Preprocess.Message | backend/saved_models/predict.py:17-29 | a length error's text is the doubled prefix followed by the digits of the offending length, and those digits read back as that length |
| Preprocess.ImageOf | backend/saved_models/predict.py:46 | 784 values become a [1,28,28] image tensor whose cell (r, c) holds value `28*r + c` |
| Preprocess.PreprocessImage | backend/saved_models/predict.py:10-29 | success exactly when there are 784 values, never truncating or padding; otherwise an error naming the actual length; on success shape [1,1,28,28] with element [0][0][r][c] equal to value `28*r + c` |
| Preprocess.FirstBadImage | backend/saved_models/predict.py:41-43 | finds an image whose length is not 784, or reports none exactly when every image from the start index has 784 values |
| Preprocess.StackImages | backend/saved_models/predict.py:50 | images of 784 values stack into a tensor of shape [N,1,28,28] whose entry k is the image of input k |
| Preprocess.PreprocessBatch | backend/saved_models/predict.py:31-56 | success exactly when the batch is non-empty and every image has 784 values; the first bad image is reported by its length; the empty list fails in the stacking step; on success image k is the reshape of input k |
| Preprocess.PreprocessBatchImages | backend/saved_models/predict.py:38-52 | the loop that reshapes each image and stops at the first bad one computes `PreprocessBatch` |
| Inference.ArgMax | backend/saved_models/predict.py:74 | the index holds a maximal probability and every earlier index holds a strictly smaller one |
| Inference.ClassOfKey | backend/saved_models/predict.py:80 | a key "0".."9" names the class whose key it is |
| Inference.ProbabilityMap | backend/saved_models/predict.py:80 | keys exactly "0".."9", key `str(i)` mapping to probability `i` |
| Inference.ExtractPrediction | backend/saved_models/predict.py:74-87 | the first most probable class, confidence equal to its probability rounded to 4 places, the ten-key map, and the given time |
| Inference.PredictSingleImage | backend/saved_models/predict.py:58-87 | with no model, the model-not-loaded error whatever the input; with a model, a length error for other than 784 values, else the extraction of the model's row with the time rounded to 2 places |
| Inference.BatchPrediction | backend/saved_models/predict.py:89-140 | with no model, the model-not-loaded error; a preprocessing error is passed on; otherwise one result per image in input order, each computed from that image's row, all carrying `round(total / N, 2)`, with the total rounded to 2 places |
| Inference.PredictBatchImages | backend/saved_models/predict.py:89-140 | the method with its two loops computes `BatchPrediction` |
| Inference.ExtractAll | backend/saved_models/predict.py:111-126 | one result per row, in order, each extracted with time 0 |
| Inference.SetInferenceTimes | backend/saved_models/predict.py:133-134 | after the loop every result is the extraction of its row with the batch time |
| Inference.BatchPredictionIs | backend/saved_models/predict.py:136-140 | results built image by image with the mean time make up the batch result |
| Inference.RetimePrediction | backend/saved_models/predict.py:134 | overwriting a result's time equals extracting it with that time |
| Metrics.ClassCounts | backend/global_variables/global_variable.py:10 | the ten class counts in class order |
| Metrics.ZeroCounts | backend/global_variables/global_variable.py:10 | keys exactly "0".."9", each 0 |
| Metrics.InitialMetrics | backend/global_variables/global_variable.py:5-11 | counters 0, average 0.0, class counts all zero |
| Metrics.InitialMetricsValid | backend/global_variables/global_variable.py:5-11 | the initial state satisfies the invariant, its class counts sum to at most the successes, and its average is the mean of no recorded times |
| Metrics.NextAverage | backend/saved_models/predict.py:156-158 | the new running average lies between the old average and the new time |
| Metrics.Apply | backend/saved_models/predict.py:142-164 | total grows by one; a failure changes only total and failed; a success adds one to successful and leaves failed alone; a non-positive time leaves the average alone; a class count grows by one exactly for a success of that class in 0..9 |
| Metrics.ClassKeysDistinct | backend/saved_models/predict.py:161-162 | incrementing one class key leaves the other nine alone |
| Metrics.ClassTotalIncrement | backend/saved_models/predict.py:162 | incrementing one class count adds one to the sum of class counts |
| Metrics.ApplyPreservesInv | backend/saved_models/predict.py:147-164 | every call keeps `total == successful + failed`, non-negative counts, the ten keys and a non-negative average |
| Metrics.ApplyClassTotal | backend/saved_models/predict.py:161-162 | the sum of class counts grows by one exactly for a success with a class in 0..9 |
| Metrics.ApplyAll | backend/saved_models/predict.py:142-164 | running a queue of calls adds its length to the total |
| Metrics.ApplyAllPreservesInv | backend/saved_models/predict.py:147-164 | any sequence of calls keeps the invariant |
| Metrics.ApplyAllCounts | backend/saved_models/predict.py:147-164 | successful grows by the number of successful calls and failed by the rest |
| Metrics.ApplyAllClassTotal | backend/saved_models/predict.py:161-162 | the sum of class counts grows by the successes with a digit class, which are at most the successes |
| Metrics.ApplyKeepsClassesWithinSuccesses | backend/saved_models/predict.py:149-162 | every call keeps the sum of class counts at most `successful` |
| Metrics.ApplyAllKeepsClassesWithinSuccesses | backend/saved_models/predict.py:149-162 | any sequence of calls keeps the sum of class counts at most `successful` |
| Metrics.ApplyKeepsValid | backend/saved_models/predict.py:142-164 | one call keeps the invariant, the class bound and the average equal to the mean of the recorded times while all were positive |
| Metrics.ClassCountsWithinSuccesses | backend/global_variables/global_variable.py:5-11 | from the initial state, the class counts sum to at most `successful` |
| Metrics.ZeroTimeKeepsAverage | backend/saved_models/predict.py:153 | calls with non-positive times never move the average |
| Metrics.ApplyKeepsMean | backend/saved_models/predict.py:153-158 | while every success time is positive, the incremental formula keeps the average equal to the mean of the success times |
| Metrics.ZeroTimeSuccessDilutesAverage | backend/saved_models/predict.py:153-158 | a batch success with time 0 followed by a 10 ms success leaves the average at 5 ms, not 10 ms |
| Metrics.TwoTimedSuccesses | backend/saved_models/predict.py:153-162 | successes of class 3 taking 10 ms and 20 ms give an average of 15 ms and add 2 to the count of "3" |
| Metrics.PredictionMetrics.constructor | backend/global_variables/global_variable.py:5-11 | the dictionary starts zeroed with the ten keys, and the invariant holds |
| Metrics.PredictionMetrics.UpdateMetrics | backend/saved_models/predict.py:142-164 | the in-place update makes the new state `Apply` of the old one, keeps the invariant (counts, class bound, mean average), and records the success time |
| Metrics.PredictionMetrics.RecordSuccess | backend/saved_models/predict.py:149-162 | the success branch: one more success, the average moved by the incremental formula only for a positive time, one more for a class in 0..9, the time recorded, total and failures untouched |
| Metrics.PredictionMetrics.RunQueued | backend/routes/route_predict.py:34-39 | running the queued calls in order leaves the state `ApplyAll` of the old state |
| Routes.ToResponse | backend/routes/route_predict.py:44-50 | the response fields are copied unchanged from the result, plus the request id |
| Routes.PredictDigit | backend/routes/route_predict.py:13-62 | exactly one queued call on every path, a success exactly when the call is a success and exactly when a model is loaded and there are 784 values; with no model a 500 with the generic message; a bad length a 400 with `str(e)`; on success the response copies the result and the call carries its class and time |
| Routes.ValidatedImageIsPredicted | backend/schema/input_schema.py:9-15 | an image that passes the schema is predicted whenever a model is loaded |
| Schema.ImageDataValid | backend/schema/input_schema.py:9-15 | a single-image body is valid exactly when it holds 784 values |
| Schema.BatchImageDataValid | backend/schema/input_schema.py:22-27 | a batch body is valid exactly when it holds at most 10 images, with no minimum and no bound on each image |
| Routes.PredictSuccessCounted | backend/routes/route_predict.py:34-39 | a successful single prediction adds one success, no failure, and one to its class |
| Routes.Failures | backend/routes/route_batch_predict.py:78-79 | `n` failure calls `(-1, 0, False)` |
| Routes.ItemRequestId | backend/routes/route_batch_predict.py:53 | the item id is the batch id, a dash, then `str(i)` |
| Routes.ItemRequestIdsDistinct | backend/routes/route_batch_predict.py:53 | the results of one batch carry distinct ids |
| Routes.ItemResponses | backend/routes/route_batch_predict.py:46-63 | one response per result, in order, result `i` answering `{request_id}-{i}` |
| Routes.BatchSuccesses | backend/routes/route_batch_predict.py:57-63 | one success call per result, in order, call i carrying result i's class and time 0 |
| Routes.BatchResponse | backend/routes/route_batch_predict.py:46-74 | the items are exactly the item responses, in order, copying each result (time included) under the id `{request_id}-{i}`; each id starts with the batch id and the ids are distinct; the batch size, timings and id |
| Routes.BatchOutcome | backend/routes/route_batch_predict.py:43-88 | no model is a 500 with the fixed text; a preprocessing ValueError is a 400 with its text; both queue one failure per image; otherwise a 200 whose body is the batch response of the inference result, with call i a success of result i's class and time 0 |
| Routes.BatchRoute | backend/routes/route_batch_predict.py:13-88 | one queued call per image, all with time 0; an empty or oversize batch is a 500; no model is a 500 with failures; a preprocessing ValueError on a batch of 1 to 10 images is a 400 with its text; any failure queues exactly the failure calls; a 400 carries the text of the first bad image; success exactly when the size, model and lengths are right, and then the batch size, results in order, item ids and one success call per result |
| Routes.BatchFirstBadImage | backend/saved_models/predict.py:41-43 | a failed non-empty batch names an image whose length is not 784 and before which all have 784 |
| Routes.PredictBatch | backend/routes/route_batch_predict.py:29-88 | the method with its loops computes `BatchRoute` |
| Routes.RespondEach | backend/routes/route_batch_predict.py:46-63 | the loop builds the item responses and the success calls, in order |
| Routes.QueueFailures | backend/routes/route_batch_predict.py:85-86 | the loop queues `n` failure calls |
| Routes.ValidatedBatchReachesInference | backend/schema/input_schema.py:22-27 | through the schema a non-empty batch skips the size checks and goes to inference |
| Routes.EmptyBatchPassesSchemaAndFails | backend/routes/route_batch_predict.py:37-41 | the schema admits an empty batch, which gets a 500 and queues no call |
| Routes.ShortImagePassesSchemaAndIsRejected | backend/schema/input_schema.py:22 | the schema admits a batch holding one empty image, which gets a 400 reporting length 0 |
| Routes.BatchKeepsAverage | backend/routes/route_batch_predict.py:58-63 | whatever a batch request does, its queued calls leave the average unchanged |
| Routes.SuccessRate | backend/routes/route_metrics.py:15-18 | 0.0 with no prediction yet, else the value that times the total gives the successes |
| Routes.GetMetrics | backend/routes/route_metrics.py:10-27 | counters and class counts reported as stored, the rate rounded to 4 places, the average rounded to 3 |
| Routes.ReportBounds | backend/routes/route_metrics.py:15-25 | in a state satisfying the invariant the reported rate lies in [0, 1] and the average is non-negative |
| Routes.OneInFourSucceeded | backend/routes/route_metrics.py:15-24 | from the initial state, one success among four calls reports a rate of 0.25 |
| Globals.AppState.constructor | backend/global_variables/global_variable.py:3-11 | no model loaded and a zeroed metrics dictionary |
| Globals.AppState.ServePredict | backend/routes/route_predict.py:13-62 | the response of `predict_digit`, with the metrics advanced by its queued call |
| Globals.AppState.ServeBatch | backend/routes/route_batch_predict.py:13-88 | the response of `predict_batch`, with the metrics advanced by its queued calls |
| Globals.AppState.ServeMetrics | backend/routes/route_metrics.py:9-27 | the report of the current state, with the rate in [0, 1] |
| Globals.ServedStateInvariant | backend/global_variables/global_variable.py:5-11 | after any sequence of calls from the initial state the invariant holds and the class counts sum to at most the successes |
| DrawingGrid.EmptyGrid | frontend/src/components/MNISTDrawingGrid.jsx:5 | a 28x28 grid of zeros |
| DrawingGrid.PixelFromPosition | frontend/src/components/MNISTDrawingGrid.jsx:14-31 | a found cell lies in 0..27 by 0..27, and the cell index times the cell size plus the offset gives the position within the element |
| DrawingGrid.PixelFromPositionInside | frontend/src/components/MNISTDrawingGrid.jsx:24-30 | for a laid-out grid a cell is found exactly when the point lies inside the element, and the offset lies inside the cell |
| DrawingGrid.FloorWithinCells | frontend/src/components/MNISTDrawingGrid.jsx:24-27 | `floor(d / size)` is in 0..27 exactly when `d` lies in `[0, 28*size)`, and `d` then lies in that cell |
| DrawingGrid.DrawCell | frontend/src/components/MNISTDrawingGrid.jsx:52-57 | the one cell becomes the larger of its old value and the intensity; no other cell changes and no cell decreases |
| DrawingGrid.DrawIdempotent | frontend/src/components/MNISTDrawingGrid.jsx:56 | drawing the same intensity on the same cell twice is the same as once |
| DrawingGrid.DrawCommutes | frontend/src/components/MNISTDrawingGrid.jsx:56 | two draws give the same grid in either order |
| DrawingGrid.Flat | frontend/src/components/MNISTDrawingGrid.jsx:119 | the first row comes first, and rows of 28 give 28 values per row |
| DrawingGrid.FlatIndex | frontend/src/components/MNISTDrawingGrid.jsx:119 | flattening rows of 28 puts cell (r, c) at index `28*r + c` |
| DrawingGrid.ToFixed3 | frontend/src/components/MNISTDrawingGrid.jsx:119 | the result is a multiple of 0.001 in `(x - 0.0005, x + 0.0005]`, so the nearest one, a tie going up |
| DrawingGrid.Normalize | frontend/src/components/MNISTDrawingGrid.jsx:119 | the value is `v / 255` to three decimals: a multiple of 0.001 within half a unit of `v / 255`, lying in [0, 1] |
| DrawingGrid.PixelValues | frontend/src/components/MNISTDrawingGrid.jsx:119 | 784 values in [0, 1], index `28*r + c` holding the normalised cell (r, c) |
| DrawingGrid.BackendReadsDrawing | frontend/src/components/MNISTDrawingGrid.jsx:117-123 | the extracted values pass the `ImageData` schema and preprocessing, and the backend's reshape puts each one back in its cell |
| DrawingGrid.DrawingState.constructor | frontend/src/components/MNISTDrawingGrid.jsx:5-11 | an empty grid, nothing extracted, predicted or failed, not drawing, not loading |
| DrawingGrid.DrawingState.DrawOnGrid | frontend/src/components/MNISTDrawingGrid.jsx:45-62 | a point outside the grid changes nothing; a point inside applies `DrawCell` with the computed intensity and sets `hasDrawing`; nothing else changes |
| DrawingGrid.DrawingState.PointerDown | frontend/src/components/MNISTDrawingGrid.jsx:65-69 | starts a stroke; a point inside the grid applies `DrawCell` and sets `hasDrawing`, one outside changes neither; values, prediction, error and loading stay |
| DrawingGrid.DrawingState.PointerMove | frontend/src/components/MNISTDrawingGrid.jsx:71-76 | the stroke flag stays; outside a stroke the grid and `hasDrawing` stay; during a stroke a point inside applies `DrawCell` and sets `hasDrawing`; values, prediction, error and loading stay |
| DrawingGrid.DrawingState.PointerUp | frontend/src/components/MNISTDrawingGrid.jsx:78-81 | ends the stroke; the grid, `hasDrawing`, values, prediction, error and loading stay |
| DrawingGrid.DrawingState.ClearGrid | frontend/src/components/MNISTDrawingGrid.jsx:104-110 | an empty grid, no values, prediction or error, `hasDrawing` false |
| DrawingGrid.DrawingState.GetPixelValues | frontend/src/components/MNISTDrawingGrid.jsx:117-123 | the values of the current grid, with prediction and error cleared |
| DrawingGrid.DrawingState.SendToServer | frontend/src/components/MNISTDrawingGrid.jsx:125-146 | without extracted values, an error and no request; otherwise loading, the prediction and error cleared, and a request of the values, which always satisfy the `ImageData` schema |
| DrawingGrid.DrawingState.ReceiveResponse | frontend/src/components/MNISTDrawingGrid.jsx:148-158 | a received body becomes the prediction; a non-ok status or a rejection becomes the prefixed error text; loading always stops |

## Left out

- The CNN, softmax and model loading (`model_architecture.py`, the startup code in `App.py`) are an opaque `Classifier`. The model slot is never filled within this model; the routes take it as a parameter.
- Floating point is not modelled. Pixel values, probabilities and times are exact reals, and `float32` conversion is an identity.
- `round` and `toFixed` work on the exact value, not on its nearest double, so double-rounding effects are not captured.
- `time.time()` and `uuid.uuid4()`: elapsed times and request ids are parameters.
- `calculatePixelIntensity` (the square-root geometry) is a function parameter whose result lies in 0..255.
- The touch handlers are the same state transitions as the mouse handlers, so only the pointer methods are modelled.
- React's deferred state updates are not modelled. Each handler updates the state at once, so `PointerMove` reads the stroke flag as already set by the preceding `PointerDown`.
- `fetch`, the server URL, JSON encoding and rendering are left out. `SendToServer` returns the values it would post, and `ReceiveResponse` takes how the request settled.
- `Preprocess.Message`: the text for an empty batch is a fixed constant standing for torch's own `stack` error text, which is not part of this model.
- Schema rejections are a 422 produced by pydantic with its own error body. They are left out; the schemas are only predicates.
- HTTP plumbing, middleware, logging, the health and root routes, `model_info` and concurrency between requests are left out. Background tasks run in order after their handler, never interleaved with another request.
- `Globals.AppState.ServePredict`, `Globals.AppState.ServeBatch`: they run the queued calls on every path, as the handlers intend. In FastAPI the background tasks are attached to a response the endpoint returns; when a handler raises `HTTPException`, the error response is built without them, so the failure calls the handler queued may never run. That framework behaviour is not modelled.
- `Metrics.Apply`: Python integers and floats are modelled as unbounded integers and exact reals, with no overflow or rounding of the running average.
