/** `ImageLoader.loadImage(from:completion:)`: a cache lookup, or one data task, and one completion call. */
module ImageLoading {
  import opened Basics
  import opened CustomErrors
  import opened Transport

  /** The error of a fetch whose data is missing or is not an image. */
  const InvalidImageData: CustomError := CustomError("Invalid Image Data")

  /** What one call does: whether it starts a data task, and the completion calls it makes, in order. */
  datatype LoadImageRun<Img> = LoadImageRun(taskStarted: bool, completions: seq<Result<Img, Error>>)

  /** The data task's closure: each branch calls `completion` and returns at once. */
  function TaskCallback<Img>(response: Response, decode: Bytes -> Option<Img>): (calls: seq<Result<Img, Error>>)
    ensures calls == [Classify(response, decode, InvalidImageData)]
  {
    if response.error.Some? then
      [Failure(response.error.value)]
    else if response.data.Some? && decode(response.data.value).Some? then
      [Success(decode(response.data.value).value)]
    else
      [Failure(Custom(InvalidImageData))]
  }

  /**
   * `loadImage`: a hit answers from the cache without a task; a miss starts a task whose response
   * (an argument here, as it comes from the network) decides the single completion call.
   */
  function LoadImage<Url, Img>(cache: map<Url, Img>, url: Url, response: Response, decode: Bytes -> Option<Img>): (run: LoadImageRun<Img>)
    ensures |run.completions| == 1
    ensures run.taskStarted <==> url !in cache
    ensures url in cache ==> run.completions[0] == Success(cache[url])
    ensures url !in cache ==> run.completions[0] == Classify(response, decode, InvalidImageData)
  {
    if url in cache then LoadImageRun(false, [Success(cache[url])])
    else LoadImageRun(true, TaskCallback(response, decode))
  }

  /**
   * On a miss: a transport error fails with that error whatever data came back, decodable data
   * succeeds with the image, and anything else fails with "Invalid Image Data".
   */
  lemma MissOutcomes<Url, Img>(cache: map<Url, Img>, url: Url, response: Response, decode: Bytes -> Option<Img>)
    requires url !in cache
    ensures var c := LoadImage(cache, url, response, decode).completions;
      && (response.error.Some? ==> c == [Failure(response.error.value)])
      && (response.error.None? && response.data.Some? && decode(response.data.value).Some? ==>
            c == [Success(decode(response.data.value).value)])
      && (response.error.None? && (response.data.None? || decode(response.data.value).None?) ==>
            c == [Failure(Custom(InvalidImageData))])
  {
  }
}
