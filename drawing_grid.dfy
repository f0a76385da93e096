/** The drawing canvas of the web client (`MNISTDrawingGrid`): a 28x28 grid of
    intensities 0..255 that pointer strokes raise cell by cell, flattened
    row-major into the 784 values `POST /predict` expects. */
module DrawingGrid {
  import opened Common
  import opened Preprocess
  import opened Schema
  import opened Routes

  type Intensity = v: int | 0 <= v <= 255

  /** `calculatePixelIntensity(x, y, cellWidth, cellHeight)`. */
  type IntensityFn = (real, real, real, real) -> Intensity

  type Grid = seq<seq<int>>

  /** 28 rows of 28 intensities. */
  predicate IsGrid(g: Grid)
  {
    |g| == 28 && forall r :: 0 <= r < 28 ==> (|g[r]| == 28 && forall c :: 0 <= c < 28 ==> 0 <= g[r][c] <= 255)
  }

  /** `Array(28).fill().map(() => Array(28).fill(0))`. */
  function EmptyGrid(): (g: Grid)
    ensures IsGrid(g)
    ensures forall r, c :: 0 <= r < 28 && 0 <= c < 28 ==> g[r][c] == 0
  {
    seq(28, _ => seq(28, _ => 0))
  }

  // ---------------------------------------------------------------------------
  // Pointer position to cell
  // ---------------------------------------------------------------------------

  /** `getBoundingClientRect()` of the grid element. */
  datatype Rect = Rect(left: real, top: real, width: real, height: real)

  /** What `getPixelFromPosition` returns: the cell, the offset of the point
      inside it, and the cell's size. */
  datatype Pixel = Pixel(row: nat, col: nat, x: real, y: real, cellWidth: real, cellHeight: real)

  /** `getPixelFromPosition(clientX, clientY)`; `rect` is None when the grid
      element is not mounted. A zero width or height makes the JavaScript
      quotient infinite or NaN, which fails the bounds check. */
  function PixelFromPosition(rect: Option<Rect>, clientX: real, clientY: real): (p: Option<Pixel>)
    ensures p.Some? ==> p.value.row < 28 && p.value.col < 28
    ensures p.Some? ==>
      && rect.Some?
      && p.value.cellWidth * 28.0 == rect.value.width
      && p.value.cellHeight * 28.0 == rect.value.height
      && p.value.col as real * p.value.cellWidth + p.value.x == clientX - rect.value.left
      && p.value.row as real * p.value.cellHeight + p.value.y == clientY - rect.value.top
  {
    match rect
    case None => None
    case Some(r) =>
      var x := clientX - r.left;
      var y := clientY - r.top;
      if r.width == 0.0 || r.height == 0.0 then None
      else
        var cellWidth := r.width / 28.0;
        var cellHeight := r.height / 28.0;
        var col := (x / cellWidth).Floor;
        var row := (y / cellHeight).Floor;
        if 0 <= row < 28 && 0 <= col < 28 then
          Some(Pixel(row, col, x - cellWidth * col as real, y - cellHeight * row as real, cellWidth, cellHeight))
        else None
  }

  /** For a laid-out grid, a cell is found exactly when the point lies inside
      the rectangle, and the point's offset lies inside that cell. */
  lemma PixelFromPositionInside(rect: Rect, clientX: real, clientY: real)
    requires rect.width > 0.0 && rect.height > 0.0
    ensures var x, y := clientX - rect.left, clientY - rect.top;
      PixelFromPosition(Some(rect), clientX, clientY).Some? <==> (0.0 <= x < rect.width && 0.0 <= y < rect.height)
    ensures var p := PixelFromPosition(Some(rect), clientX, clientY);
      p.Some? ==> 0.0 <= p.value.x < p.value.cellWidth && 0.0 <= p.value.y < p.value.cellHeight
  {
    var x, y := clientX - rect.left, clientY - rect.top;
    var cellWidth, cellHeight := rect.width / 28.0, rect.height / 28.0;
    FloorWithinCells(x, cellWidth);
    FloorWithinCells(y, cellHeight);
  }

  /** The cell index `floor(d / size)` is in 0..27 exactly when `d` lies in
      `[0, 28 * size)`, and then `d` lies inside that cell. */
  lemma FloorWithinCells(d: real, size: real)
    requires size > 0.0
    ensures 0 <= (d / size).Floor < 28 <==> 0.0 <= d < 28.0 * size
    ensures var k := (d / size).Floor;
      k as real * size <= d < k as real * size + size
  {
    var q := d / size;
    var k := q.Floor;
    assert q * size == d;
    assert k as real <= q < k as real + 1.0;
    ScaleOrder(k as real, q, size);
    ScaleOrder(q, k as real + 1.0, size);
    assert (k as real + 1.0) * size == k as real * size + size;
    assert d < k as real * size + size by {
      assert q * size < (k as real + 1.0) * size;
    }
    assert 0 <= k < 28 <==> 0.0 <= q < 28.0 by {
      if 0.0 <= q < 28.0 {
        assert -1.0 < k as real < 28.0;
      }
    }
    ScaleOrder(0.0, q, size);
    ScaleOrder(q, 28.0, size);
  }

  /** Multiplying by a positive factor keeps the order, both ways. */
  lemma ScaleOrder(a: real, b: real, size: real)
    requires size > 0.0
    ensures a <= b <==> a * size <= b * size
    ensures a < b <==> a * size < b * size
  {
    if a <= b {
      assert (b - a) * size >= 0.0;
    } else {
      assert (a - b) * size > 0.0;
    }
  }

  // ---------------------------------------------------------------------------
  // Drawing
  // ---------------------------------------------------------------------------

  function Max(a: int, b: int): int { if a >= b then a else b }

  /** The grid after one draw at (row, col): that cell becomes the larger of
      its old intensity and the new one; no other cell changes. */
  function DrawCell(g: Grid, row: nat, col: nat, intensity: Intensity): (h: Grid)
    requires IsGrid(g) && row < 28 && col < 28
    ensures IsGrid(h)
    ensures h[row][col] == Max(g[row][col], intensity)
    ensures forall r, c :: 0 <= r < 28 && 0 <= c < 28 && (r != row || c != col) ==> h[r][c] == g[r][c]
    ensures forall r, c :: 0 <= r < 28 && 0 <= c < 28 ==> g[r][c] <= h[r][c]
  {
    g[row := g[row][col := Max(g[row][col], intensity)]]
  }

  /** Two grids with the same cells are the same grid. */
  lemma GridExtensionality(g: Grid, h: Grid)
    requires IsGrid(g) && IsGrid(h)
    requires forall r, c :: 0 <= r < 28 && 0 <= c < 28 ==> g[r][c] == h[r][c]
    ensures g == h
  {
    forall r | 0 <= r < 28
      ensures g[r] == h[r]
    {
      assert forall c :: 0 <= c < 28 ==> g[r][c] == h[r][c];
    }
  }

  /** Drawing the same intensity on the same cell again changes nothing. */
  lemma DrawIdempotent(g: Grid, row: nat, col: nat, intensity: Intensity)
    requires IsGrid(g) && row < 28 && col < 28
    ensures DrawCell(DrawCell(g, row, col, intensity), row, col, intensity) == DrawCell(g, row, col, intensity)
  {
    var once := DrawCell(g, row, col, intensity);
    GridExtensionality(DrawCell(once, row, col, intensity), once);
  }

  /** The order in which a stroke visits cells does not matter. */
  lemma DrawCommutes(g: Grid, r1: nat, c1: nat, v1: Intensity, r2: nat, c2: nat, v2: Intensity)
    requires IsGrid(g) && r1 < 28 && c1 < 28 && r2 < 28 && c2 < 28
    ensures DrawCell(DrawCell(g, r1, c1, v1), r2, c2, v2) == DrawCell(DrawCell(g, r2, c2, v2), r1, c1, v1)
  {
    GridExtensionality(DrawCell(DrawCell(g, r1, c1, v1), r2, c2, v2),
                       DrawCell(DrawCell(g, r2, c2, v2), r1, c1, v1));
  }

  // ---------------------------------------------------------------------------
  // Extracting pixel values
  // ---------------------------------------------------------------------------

  /** `rows.flat()`: the rows concatenated in order. */
  function Flat(rows: seq<seq<int>>): (f: seq<int>)
    ensures |rows| > 0 ==> |f| >= |rows[0]| && f[..|rows[0]|] == rows[0]
    ensures (forall r :: 0 <= r < |rows| ==> |rows[r]| == 28) ==> |f| == 28 * |rows|
  {
    if rows == [] then [] else rows[0] + Flat(rows[1..])
  }

  /** Flattening rows of 28 puts cell (r, c) at index `28 * r + c`. */
  lemma {:induction false} FlatIndex(rows: seq<seq<int>>)
    requires forall r :: 0 <= r < |rows| ==> |rows[r]| == 28
    ensures |Flat(rows)| == 28 * |rows|
    ensures forall r, c :: 0 <= r < |rows| && 0 <= c < 28 ==> Flat(rows)[28 * r + c] == rows[r][c]
  {
    if rows != [] {
      var rest := rows[1..];
      FlatIndex(rest);
      forall r, c | 0 <= r < |rows| && 0 <= c < 28
        ensures Flat(rows)[28 * r + c] == rows[r][c]
      {
        if r > 0 {
          assert Flat(rows)[28 * r + c] == Flat(rest)[28 * (r - 1) + c];
          assert rest[r - 1] == rows[r];
        }
      }
    }
  }

  /** `parseFloat(x.toFixed(3))` for `x >= 0`: the nearest multiple of 0.001,
      a tie going to the larger. */
  function ToFixed3(x: real): (r: real)
    requires x >= 0.0
    ensures x - 0.0005 < r <= x + 0.0005
    ensures HasScale(r, 1000)
  {
    var f := (x * 1000.0 + 0.5).Floor;
    assert f as real <= x * 1000.0 + 0.5 < f as real + 1.0;
    assert (f as real / 1000.0 * 1000.0).Floor == f;
    f as real / 1000.0
  }

  /** `parseFloat((val / 255).toFixed(3))`: an intensity scaled to [0, 1]. */
  function Normalize(v: int): (r: real)
    requires 0 <= v <= 255
    ensures 0.0 <= r <= 1.0
    ensures v as real / 255.0 - 0.0005 < r <= v as real / 255.0 + 0.0005
    ensures HasScale(r, 1000)
  {
    var x := v as real / 255.0;
    assert x * 1000.0 + 0.5 <= 1000.5;
    ToFixed3(x)
  }

  /** `grid.flat().map(val => parseFloat((val / 255).toFixed(3)))`. */
  function PixelValues(g: Grid): (values: seq<real>)
    requires IsGrid(g)
    ensures |values| == 784
    ensures forall r, c :: 0 <= r < 28 && 0 <= c < 28 ==> values[28 * r + c] == Normalize(g[r][c])
    ensures forall i :: 0 <= i < 784 ==> 0.0 <= values[i] <= 1.0
  {
    var flat := Flat(g);
    FlatIndex(g);
    assert forall i :: 0 <= i < 784 ==> flat[i] == g[i / 28][i % 28] by {
      forall i | 0 <= i < 784 ensures flat[i] == g[i / 28][i % 28] {
        assert 28 * (i / 28) + i % 28 == i;
      }
    }
    seq(|flat|, i requires 0 <= i < |flat| => Normalize(flat[i]))
  }

  /** The server's reshape puts each extracted value back in its cell, and
      the values pass both the request schema and preprocessing. */
  lemma BackendReadsDrawing(g: Grid)
    requires IsGrid(g)
    ensures ImageDataValid(PixelValues(g))
    ensures PreprocessImage(PixelValues(g)).Ok?
    ensures forall r, c :: 0 <= r < 28 && 0 <= c < 28 ==>
      Reshape(PixelValues(g))[r][c] == Normalize(g[r][c])
  {
  }

  // ---------------------------------------------------------------------------
  // Component state
  // ---------------------------------------------------------------------------

  const ExtractFirstMessage: string := "Please extract pixel values first"
  const SendFailedPrefix: string := "Failed to send data to server: "
  const StatusPrefix: string := "Server responded with status: "

  /** How the `fetch` of `sendToServer` settled. */
  datatype FetchOutcome =
    | Received(body: PredictionResponse)  // `response.ok` and a parsed body
    | NotOk(status: nat)                  // `response.ok` is false
    | Rejected(message: string)           // the request or the parse threw

  class DrawingState {
    var grid: Grid
    var isDrawing: bool
    var pixelValues: Option<seq<real>>
    var prediction: Option<PredictionResponse>
    var isLoading: bool
    var error: Option<string>
    var hasDrawing: bool

    ghost predicate Valid()
      reads this
    {
      && IsGrid(grid)
      && (pixelValues.Some? ==>
            |pixelValues.value| == 784
            && forall i :: 0 <= i < 784 ==> 0.0 <= pixelValues.value[i] <= 1.0)
    }

    /** The initial `useState` values. */
    constructor ()
      ensures Valid()
      ensures grid == EmptyGrid() && !isDrawing && !isLoading && !hasDrawing
      ensures pixelValues.None? && prediction.None? && error.None?
    {
      grid := EmptyGrid();
      isDrawing := false;
      pixelValues := None;
      prediction := None;
      isLoading := false;
      error := None;
      hasDrawing := false;
    }

    /** `drawOnGrid(clientX, clientY)`: a point outside the grid changes
      nothing; a point inside raises its cell and marks the grid drawn. */
    method DrawOnGrid(rect: Option<Rect>, clientX: real, clientY: real, intensityOf: IntensityFn)
      requires Valid()
      modifies this
      ensures Valid()
      ensures var p := PixelFromPosition(rect, clientX, clientY);
        && (p.None? ==> grid == old(grid) && hasDrawing == old(hasDrawing))
        && (p.Some? ==>
              && grid == DrawCell(old(grid), p.value.row, p.value.col,
                                  intensityOf(p.value.x, p.value.y, p.value.cellWidth, p.value.cellHeight))
              && hasDrawing)
      ensures isDrawing == old(isDrawing) && pixelValues == old(pixelValues)
      ensures prediction == old(prediction) && isLoading == old(isLoading) && error == old(error)
    {
      var pixel := PixelFromPosition(rect, clientX, clientY);
      if pixel.None? {
        return;
      }
      var p := pixel.value;
      var intensity := intensityOf(p.x, p.y, p.cellWidth, p.cellHeight);
      var newGrid := grid;
      var newRow := newGrid[p.row];
      newRow := newRow[p.col := Max(newRow[p.col], intensity)];
      newGrid := newGrid[p.row := newRow];
      grid := newGrid;
      hasDrawing := true;
    }

    /** `handleMouseDown`: start a stroke and draw its first point. */
    method PointerDown(rect: Option<Rect>, clientX: real, clientY: real, intensityOf: IntensityFn)
      requires Valid()
      modifies this
      ensures Valid() && isDrawing
      ensures var p := PixelFromPosition(rect, clientX, clientY);
        && (p.None? ==> grid == old(grid) && hasDrawing == old(hasDrawing))
        && (p.Some? ==>
              && grid == DrawCell(old(grid), p.value.row, p.value.col,
                                  intensityOf(p.value.x, p.value.y, p.value.cellWidth, p.value.cellHeight))
              && hasDrawing)
      ensures pixelValues == old(pixelValues)
      ensures prediction == old(prediction) && isLoading == old(isLoading) && error == old(error)
    {
      isDrawing := true;
      DrawOnGrid(rect, clientX, clientY, intensityOf);
    }

    /** `handleMouseMove`: draw only while a stroke is in progress. */
    method PointerMove(rect: Option<Rect>, clientX: real, clientY: real, intensityOf: IntensityFn)
      requires Valid()
      modifies this
      ensures Valid() && isDrawing == old(isDrawing)
      ensures !old(isDrawing) ==> grid == old(grid) && hasDrawing == old(hasDrawing)
      ensures old(isDrawing) ==> var p := PixelFromPosition(rect, clientX, clientY);
        && (p.None? ==> grid == old(grid) && hasDrawing == old(hasDrawing))
        && (p.Some? ==>
              && grid == DrawCell(old(grid), p.value.row, p.value.col,
                                  intensityOf(p.value.x, p.value.y, p.value.cellWidth, p.value.cellHeight))
              && hasDrawing)
      ensures pixelValues == old(pixelValues)
      ensures prediction == old(prediction) && isLoading == old(isLoading) && error == old(error)
    {
      if isDrawing {
        DrawOnGrid(rect, clientX, clientY, intensityOf);
      }
    }

    /** `handleMouseUp`: end the stroke. */
    method PointerUp()
      requires Valid()
      modifies this
      ensures Valid() && !isDrawing
      ensures grid == old(grid) && hasDrawing == old(hasDrawing) && pixelValues == old(pixelValues)
      ensures prediction == old(prediction) && isLoading == old(isLoading) && error == old(error)
    {
      isDrawing := false;
    }

    /** `clearGrid`: an empty grid and nothing extracted, predicted or failed. */
    method ClearGrid()
      requires Valid()
      modifies this
      ensures Valid()
      ensures grid == EmptyGrid() && !hasDrawing
      ensures pixelValues.None? && prediction.None? && error.None?
      ensures isDrawing == old(isDrawing) && isLoading == old(isLoading)
    {
      grid := EmptyGrid();
      pixelValues := None;
      prediction := None;
      error := None;
      hasDrawing := false;
    }

    /** `getPixelValues`: extract the current grid, dropping any earlier
      prediction and error. */
    method GetPixelValues()
      requires Valid()
      modifies this
      ensures Valid()
      ensures pixelValues == Some(PixelValues(grid)) && prediction.None? && error.None?
      ensures grid == old(grid) && hasDrawing == old(hasDrawing)
      ensures isDrawing == old(isDrawing) && isLoading == old(isLoading)
    {
      pixelValues := Some(PixelValues(grid));
      prediction := None;
      error := None;
    }

    /** `sendToServer` up to the request: without extracted values it only
      sets an error and sends nothing; otherwise it starts loading and
      returns the `pixel_values` it posts, which always satisfy the
      server's `ImageData` schema. */
    method SendToServer() returns (request: Option<seq<real>>)
      requires Valid()
      modifies this
      ensures Valid()
      ensures old(pixelValues).None? ==>
        && request.None? && error == Some(ExtractFirstMessage)
        && isLoading == old(isLoading) && prediction == old(prediction)
      ensures old(pixelValues).Some? ==>
        && request == old(pixelValues) && isLoading && error.None? && prediction.None?
      ensures request.Some? ==> ImageDataValid(request.value)
      ensures grid == old(grid) && pixelValues == old(pixelValues) && hasDrawing == old(hasDrawing)
      ensures isDrawing == old(isDrawing)
    {
      if pixelValues.None? {
        error := Some(ExtractFirstMessage);
        return None;
      }
      isLoading := true;
      error := None;
      prediction := None;
      request := pixelValues;
    }

    /** The rest of `sendToServer` once the `fetch` settles: store the
      prediction or the error text, then stop loading. */
    method ReceiveResponse(outcome: FetchOutcome)
      requires Valid()
      modifies this
      ensures Valid() && !isLoading
      ensures outcome.Received? ==> prediction == Some(outcome.body) && error == old(error)
      ensures outcome.NotOk? ==>
        error == Some(SendFailedPrefix + StatusPrefix + NatToString(outcome.status))
        && prediction == old(prediction)
      ensures outcome.Rejected? ==>
        error == Some(SendFailedPrefix + outcome.message) && prediction == old(prediction)
      ensures grid == old(grid) && pixelValues == old(pixelValues) && hasDrawing == old(hasDrawing)
      ensures isDrawing == old(isDrawing)
    {
      match outcome {
        case Received(body) =>
          prediction := Some(body);
        case NotOk(status) =>
          error := Some(SendFailedPrefix + StatusPrefix + NatToString(status));
        case Rejected(message) =>
          error := Some(SendFailedPrefix + message);
      }
      isLoading := false;
    }
  }
}
