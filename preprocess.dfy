/** Pixel-to-tensor preprocessing (`preprocess_image`, `preprocess_batch_images`).
    A tensor of shape [N,1,28,28] is a sequence of N images, each a sequence of
    one channel, each a 28x28 plane of reals. Values pass through unchanged:
    only the pixel count is checked. */
module Preprocess {
  import opened Common

  type Plane = seq<seq<real>>
  type ImageTensor = seq<Plane>
  type Tensor = seq<ImageTensor>

  predicate IsPlane(p: Plane)
  {
    |p| == 28 && forall r :: 0 <= r < 28 ==> |p[r]| == 28
  }

  /** Shape [1,28,28]: one channel holding a 28x28 plane. */
  predicate IsImageTensor(t: ImageTensor)
  {
    |t| == 1 && IsPlane(t[0])
  }

  /** Shape [n,1,28,28]. */
  predicate HasShape(t: Tensor, n: nat)
  {
    |t| == n && forall k :: 0 <= k < n ==> IsImageTensor(t[k])
  }

  /** Row-major reshape of 784 values into a 28x28 plane: value `i` lands in
      row `i / 28`, column `i % 28`. */
  function Reshape(pixels: seq<real>): (p: Plane)
    requires |pixels| == 784
    ensures IsPlane(p)
    ensures forall r, c :: 0 <= r < 28 && 0 <= c < 28 ==> p[r][c] == pixels[28 * r + c]
  {
    seq(28, r requires 0 <= r < 28 => pixels[28 * r .. 28 * r + 28])
  }

  /** Row-major flattening of a 28x28 plane, the inverse of Reshape. */
  function Flatten(p: Plane): (pixels: seq<real>)
    requires IsPlane(p)
    ensures |pixels| == 784
    ensures forall i :: 0 <= i < 784 ==> pixels[i] == p[i / 28][i % 28]
  {
    seq(784, i requires 0 <= i < 784 => p[i / 28][i % 28])
  }

  lemma ReshapeThenFlatten(pixels: seq<real>)
    requires |pixels| == 784
    ensures Flatten(Reshape(pixels)) == pixels
  {
    var q := Flatten(Reshape(pixels));
    forall i | 0 <= i < 784
      ensures q[i] == pixels[i]
    {
      var r, c := i / 28, i % 28;
      assert 28 * r + c == i;
    }
  }

  lemma FlattenThenReshape(p: Plane)
    requires IsPlane(p)
    ensures Reshape(Flatten(p)) == p
  {
    var q := Reshape(Flatten(p));
    forall r | 0 <= r < 28
      ensures q[r] == p[r]
    {
      forall c | 0 <= c < 28
        ensures q[r][c] == p[r][c]
      {
        var i := 28 * r + c;
        assert i / 28 == r && i % 28 == c;
      }
    }
  }

  // ---------------------------------------------------------------------------
  // Errors
  // ---------------------------------------------------------------------------

  /** The ValueError a preprocessing step raises. Each one is raised inside a
      `try` and re-raised with a prefix by the `except` around it. */
  datatype ValueError =
    | ImageLengthError(got: nat)       // single image with `got` values
    | BatchImageLengthError(got: nat)  // first offending image of a batch
    | BatchStackError                  // `torch.stack` of an empty list

  const ImageLengthPrefix: string :=
    "Image preprocessing failed: Expected 784 pixel values, got "
  const BatchLengthPrefix: string :=
    "Batch image preprocessing failed: Each image must have exactly 784 pixel values, got "
  const BatchStackMessage: string :=
    "Batch image preprocessing failed: stack expects a non-empty TensorList"

  /** `str(e)`: the text a client sees in the 400 response. A length error's
      text ends with the decimal digits of the offending length. */
  function Message(e: ValueError): (m: string)
    ensures e.ImageLengthError? ==>
      |m| > |ImageLengthPrefix| && m[..|ImageLengthPrefix|] == ImageLengthPrefix &&
      (forall i :: |ImageLengthPrefix| <= i < |m| ==> IsDigit(m[i])) &&
      DigitsValue(m[|ImageLengthPrefix|..]) == e.got
    ensures e.BatchImageLengthError? ==>
      |m| > |BatchLengthPrefix| && m[..|BatchLengthPrefix|] == BatchLengthPrefix &&
      (forall i :: |BatchLengthPrefix| <= i < |m| ==> IsDigit(m[i])) &&
      DigitsValue(m[|BatchLengthPrefix|..]) == e.got
  {
    match e
    case ImageLengthError(n) =>
      DigitsValueOfNatToString(n);
      LengthSuffix(ImageLengthPrefix, NatToString(n));
      ImageLengthPrefix + NatToString(n)
    case BatchImageLengthError(n) =>
      DigitsValueOfNatToString(n);
      LengthSuffix(BatchLengthPrefix, NatToString(n));
      BatchLengthPrefix + NatToString(n)
    case BatchStackError => BatchStackMessage
  }

  lemma LengthSuffix(prefix: string, digits: string)
    ensures (prefix + digits)[..|prefix|] == prefix
    ensures (prefix + digits)[|prefix|..] == digits
  {
  }

  // ---------------------------------------------------------------------------
  // Single image
  // ---------------------------------------------------------------------------

  /** The [1,28,28] tensor of one image. */
  function ImageOf(pixels: seq<real>): (t: ImageTensor)
    requires |pixels| == 784
    ensures IsImageTensor(t)
    ensures forall r, c :: 0 <= r < 28 && 0 <= c < 28 ==> t[0][r][c] == pixels[28 * r + c]
  {
    [Reshape(pixels)]
  }

  /** `preprocess_image`: exactly 784 values become a [1,1,28,28] tensor;
      any other count is a ValueError reporting that count. */
  function PreprocessImage(pixels: seq<real>): (r: Result<Tensor, ValueError>)
    ensures r.Ok? <==> |pixels| == 784
    ensures r.Err? ==> r.error == ImageLengthError(|pixels|)
    ensures r.Ok? ==> HasShape(r.value, 1)
    ensures r.Ok? ==> forall row, col :: 0 <= row < 28 && 0 <= col < 28 ==>
      r.value[0][0][row][col] == pixels[28 * row + col]
  {
    if |pixels| != 784 then Err(ImageLengthError(|pixels|))
    else Ok([ImageOf(pixels)])
  }

  // ---------------------------------------------------------------------------
  // Batch
  // ---------------------------------------------------------------------------

  /** The index of the first image, from `from` on, whose length is not 784. */
  function FirstBadImage(images: seq<seq<real>>, from: nat): (k: Option<nat>)
    requires from <= |images|
    ensures k.Some? ==>
      && from <= k.value < |images|
      && |images[k.value]| != 784
      && (forall j :: from <= j < k.value ==> |images[j]| == 784)
    ensures k.None? <==> forall j :: from <= j < |images| ==> |images[j]| == 784
    decreases |images| - from
  {
    if from == |images| then None
    else if |images[from]| != 784 then Some(from)
    else FirstBadImage(images, from + 1)
  }

  /** The batch tensor of images that all have 784 values. */
  function StackImages(images: seq<seq<real>>): (t: Tensor)
    requires forall k :: 0 <= k < |images| ==> |images[k]| == 784
    ensures HasShape(t, |images|)
    ensures forall k :: 0 <= k < |images| ==> t[k] == ImageOf(images[k])
  {
    seq(|images|, k requires 0 <= k < |images| => ImageOf(images[k]))
  }

  /** What `preprocess_batch_images` returns or raises: the first image whose
      length is not 784 is reported by its length; an empty list fails in
      `torch.stack`; otherwise image `k` of the tensor is input `k` reshaped. */
  function PreprocessBatch(images: seq<seq<real>>): (r: Result<Tensor, ValueError>)
    ensures r.Ok? <==> |images| > 0 && forall k :: 0 <= k < |images| ==> |images[k]| == 784
    ensures |images| == 0 ==> r == Err(BatchStackError)
    ensures forall k ::
      (0 <= k < |images| && |images[k]| != 784 && (forall j :: 0 <= j < k ==> |images[j]| == 784))
      ==> r == Err(BatchImageLengthError(|images[k]|))
    ensures r.Ok? ==>
      && HasShape(r.value, |images|)
      && (forall k :: 0 <= k < |images| ==> r.value[k] == [Reshape(images[k])])
  {
    match FirstBadImage(images, 0)
    case Some(k) => Err(BatchImageLengthError(|images[k]|))
    case None =>
      if |images| == 0 then Err(BatchStackError) else Ok(StackImages(images))
  }

  /** The loop of `preprocess_batch_images`: reshape each image in turn,
      stopping at the first one whose length is not 784, then stack. */
  method PreprocessBatchImages(images: seq<seq<real>>) returns (r: Result<Tensor, ValueError>)
    ensures r == PreprocessBatch(images)
  {
    var tensors: Tensor := [];
    var i := 0;
    while i < |images|
      invariant 0 <= i <= |images|
      invariant forall j :: 0 <= j < i ==> |images[j]| == 784
      invariant |tensors| == i
      invariant forall j :: 0 <= j < i ==> tensors[j] == ImageOf(images[j])
    {
      if |images[i]| != 784 {
        return Err(BatchImageLengthError(|images[i]|));
      }
      tensors := tensors + [ImageOf(images[i])];
      i := i + 1;
    }
    if |tensors| == 0 {
      return Err(BatchStackError);
    }
    assert tensors == StackImages(images);
    r := Ok(tensors);
  }
}
