/** The request bodies' validation (`ImageData`, `BatchImageData`), as the
    predicates a body must satisfy before a handler runs. */
module Schema {

  /** Most images a batch body may hold. */
  const MaxBatchImages: nat := 10

  /** `ImageData.pixel_values`: between 784 and 784 items. */
  predicate ImageDataValid(pixelValues: seq<real>)
    ensures ImageDataValid(pixelValues) <==> |pixelValues| == 784
  {
    784 <= |pixelValues| <= 784
  }

  /** `BatchImageData.images`: at most 10 items, no minimum, and no bound on
      the length of each inner list. */
  predicate BatchImageDataValid(images: seq<seq<real>>)
    ensures BatchImageDataValid(images) ==> |images| <= MaxBatchImages
    ensures |images| <= MaxBatchImages ==> BatchImageDataValid(images)
  {
    |images| <= MaxBatchImages
  }
}
