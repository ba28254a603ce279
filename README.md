# ImageCache loader, modelled in Dafny

This project models the core of the Swift library ImageCache. That core is a keyed loader that
coalesces requests. A request for a URL is answered from the cache when it can be. Otherwise the
handler is registered, and at most one download is started for that URL. When the download finishes,
its result is classified, a decoded value is cached, and every registered handler is called once with
the same result.

The model has one module per source file:

- `LoaderModel` (`cache_loader_model.dfy`) is the loader of `CacheLoader.swift` as a state machine over
  values. A `State` holds the three tables the Swift code keeps: `cache`, `loadingUrls` (a set, because
  the code only ever stores `true`) and `pendingHandlers`. It also holds three logs the code does not
  keep: the operations submitted, the operations still outstanding, and every handler call. Each
  public operation, and the completion of a download, is a function between states. `Run` plays a
  sequence of such events.
- `LoaderProperties` (`cache_loader_properties.dfy`) proves what the loader guarantees about these
  functions. It covers the cache hit, single flight over any run without `cancelAll`, fan-out in order,
  the two handler policies, `removePendingHandlers`, `cancelAll` and `removeCache`. It also proves two
  behaviours of the code as written.
- `CacheLoading` (`cache_loader.dfy`) is the `CacheLoader` class. Its fields are the same tables, and
  its methods update them in place. Each method is proved to move `Model()` exactly as the matching
  `LoaderModel` function does.
- `DataTask` (`data_task_operation.dfy`) is the `DataTaskOperation` class with its three-state
  lifecycle and cancelled flag. A ghost log records its effects in order: state changes, task resume
  and cancel, and calls of the user's handler.
- `ImageCaching` (`image_cache.dfy`) has the cache key, `Config`, `cacheConfig`, `init` and `setup`,
  and the result forwarding of `loadImage`.
- `ImageLoading` (`image_loader.dfy`) is the plain `ImageLoader.loadImage`, modelled as a function.
- `CustomErrors` (`custom_error.dfy`) is `CustomError` and its `errorDescription`.
- `Transport` (`transport.dfy`) holds the shared response classification.
- `Operations` (`operation_queue.dfy`) is a minimal `OperationQueue`.
- `Basics` (`basics.dfy`) holds `Option`, `Result` and Swift's `compactMap`, `first` and `joined`.

These values are parameters of the model:
- The decoder, `value(from:)` or `UIImage(data:)`, is a function `Bytes -> Option<V>`.
- The result of a download is a `Response` (data and error), given with the completion event.
- A handler is an id. Calling it appends a `Delivery` to the log.

## Behaviour of the code as written

Two behaviours of the code break what a coalescing loader promises: that every waiting handler is
called, and that at most one download per URL runs at a time. The model follows the code.

- `handleResult` clears `pendingHandlers[url]` before it runs the handlers, but it clears
  `loadingUrls[url]` only after them. Suppose a download fails and one of its handlers asks for the
  same URL again. The new handler is then appended to a fresh list, and no download is started for it.
  When `loadingUrls[url]` is cleared, that handler is left waiting with no download under way.
  `RetryAfterFailureIsOrphaned` shows that this state is reached, and `OrphanNeverCalled` shows that
  the handler is then never called, whatever happens next, unless a new request registers it again.
  On the success path this cannot happen, given a cache that keeps the value and handlers that do not clear it: the cache is written first,
  so the second request is a hit (`RetryAfterSuccessHits`). If an earlier handler in the same list
  calls `removeCache`, or the external cache evicts the entry, the second request misses and is
  orphaned as on the failure path; the model does not cover that case.
- Completions are matched by URL only. After `cancelAll`, an operation that had already started still
  completes. Its completion then calls the handlers of a newer request for that URL and clears that
  request's in-flight mark (`StaleCompletionAfterCancelAll`). When that stale completion fails (a
  cancellation error is the usual case), the next request starts another download, and two downloads
  for one URL are then under way at once.

## Model

| member | source | states |
|---|---|---|
| `LoaderModel.LoadValue` | Sources/ImageCache/CacheLoader.swift:56-104 | definition of `loadValue` on the tables and logs; its properties are the `Load*` lemmas of `LoaderProperties` |
| `LoaderModel.Complete` | Sources/ImageCache/CacheLoader.swift:81-102 | definition of the operation's completion closure; its properties are `CompletionOutcome` and `CompletePreservesSingleFlight` |
| `LoaderModel.HandleResult` | Sources/ImageCache/CacheLoader.swift:136-142 | definition of `handleResult` as detach, run the handlers, then clear the mark; its properties are `HandleResultDelivers` and the two retry lemmas |
| `LoaderModel.RemovePendingHandlers` | Sources/ImageCache/CacheLoader.swift:110-118 | definition of `removePendingHandlers`; its properties are `RemovePendingCases` and `RemovedHandlerIsNotCalled` |
| `LoaderModel.CancelAll` | Sources/ImageCache/CacheLoader.swift:121-125 | definition of `cancelAll`; its properties are `CancelAllClears`, `CompletionAfterCancelAllIsSilent` and `StaleCompletionAfterCancelAll` |
| `LoaderModel.RemoveCache` | Sources/ImageCache/CacheLoader.swift:128-130 | definition of `removeCache`; its property is `RemoveCacheClears` |
| `LoaderModel.Reconfigure` | Sources/ImageCache/CacheLoader.swift:37-48 | definition of `config` on the tables (only the cache is replaced); its property is `ReconfigurePreservesSingleFlight` |
| `DataTask.DataTaskOperation.IsReady` | Sources/ImageCache/DataTaskOperation.swift:32 | definition of `isReady`; its property is `ExactlyOneFlag` |
| `DataTask.DataTaskOperation.IsExecuting` | Sources/ImageCache/DataTaskOperation.swift:33 | definition of `isExecuting`; its property is `ExactlyOneFlag` |
| `DataTask.DataTaskOperation.IsFinished` | Sources/ImageCache/DataTaskOperation.swift:34 | definition of `isFinished`; its property is `ExactlyOneFlag` |
| `LoaderProperties.LoadHit` | Sources/ImageCache/CacheLoader.swift:60-64 | a cache hit calls the completion once with `.success(cached value)` and the same URL; nothing is submitted and the other tables are unchanged |
| `LoaderProperties.LoadWhileInFlight` | Sources/ImageCache/CacheLoader.swift:66-76 | for a URL in flight, `keepOnlyLatestHandler` makes the list exactly `[completion]`; otherwise the completion goes at the end and the earlier handlers keep their order; nothing is submitted and nothing runs |
| `LoaderProperties.LoadFirstMiss` | Sources/ImageCache/CacheLoader.swift:78-81 | a first miss marks the URL loading, sets its list to `[completion]`, and submits exactly one operation |
| `LoaderProperties.LoadSubmits` | Sources/ImageCache/CacheLoader.swift:56-104 | a request submits an operation if and only if the URL is neither cached nor loading |
| `LoaderProperties.HandleResultDelivers` | Sources/ImageCache/CacheLoader.swift:136-142 | every pending handler is called once, in list order, with the same result and URL; afterwards the URL has no handlers and no in-flight mark; other URLs are unchanged |
| `LoaderProperties.CompletionOutcome` | Sources/ImageCache/CacheLoader.swift:86-101 | a transport error fails every handler with that error even when data is present; decodable data succeeds and is cached; anything else fails with "Invalid Value Data" and leaves the cache alone |
| `LoaderProperties.RetryAfterSuccessHits` | Sources/ImageCache/CacheLoader.swift:78-101 | after a first request by `h1` and a successful download, the cache is written before `handleResult` runs `h1`, so a new request by `h1` for the URL is a hit: it submits nothing, both calls are logged in order, and no handler is left waiting on the URL |
| `LoaderProperties.SuccessThenCacheHit` | Sources/ImageCache/CacheLoader.swift:60-64 | after a successful download, the next request is answered from the cache with that value and no new operation |
| `LoaderProperties.RemovePendingCases` | Sources/ImageCache/CacheLoader.swift:110-118 | with `keepLatestHandler` a non-empty list becomes `[last]`; without it the list is removed; an absent or empty list is kept; `loadingUrls` and the cache are untouched |
| `LoaderProperties.RemovedHandlerIsNotCalled` | Sources/ImageCache/CacheLoader.swift:110-118 | a handler removed before its download completes is never called, and a successful download still fills the cache |
| `LoaderProperties.CancelAllClears` | Sources/ImageCache/CacheLoader.swift:121-125 | `cancelAll` empties `pendingHandlers` and `loadingUrls` and changes nothing else |
| `LoaderProperties.CompletionAfterCancelAllIsSilent` | Sources/ImageCache/CacheLoader.swift:121-125 | a completion that arrives right after `cancelAll` calls no handler |
| `LoaderProperties.RemoveCacheClears` | Sources/ImageCache/CacheLoader.swift:128-130 | `removeCache` empties the cache and changes nothing else |
| `LoaderProperties.InitialSingleFlight` | Sources/ImageCache/CacheLoader.swift:20-21 | a new loader, with empty tables, satisfies single flight |
| `LoaderProperties.AtMostOneOutstanding` | Sources/ImageCache/CacheLoader.swift:67-79 | under single flight, at most one operation per URL is outstanding, and one is exactly when the URL is loading |
| `LoaderProperties.LoadValuePreservesSingleFlight` | Sources/ImageCache/CacheLoader.swift:67-79 | `loadValue` keeps single flight |
| `LoaderProperties.CompletePreservesSingleFlight` | Sources/ImageCache/CacheLoader.swift:81-102 | the completion of an outstanding operation keeps single flight |
| `LoaderProperties.RemovePendingPreservesSingleFlight` | Sources/ImageCache/CacheLoader.swift:110-118 | `removePendingHandlers` keeps single flight |
| `LoaderProperties.ReconfigurePreservesSingleFlight` | Sources/ImageCache/CacheLoader.swift:37-48 | replacing the cache keeps single flight |
| `LoaderProperties.StepPreservesSingleFlight` | Sources/ImageCache/CacheLoader.swift:56-142 | every event other than `cancelAll`, `config` included, keeps single flight |
| `LoaderProperties.RunPreservesSingleFlight` | Sources/ImageCache/CacheLoader.swift:56-142 | any run of events without `cancelAll` keeps single flight |
| `LoaderProperties.NoDoubleFetch` | Sources/ImageCache/CacheLoader.swift:67-79 | starting from a new loader, no run without `cancelAll` ever has two operations outstanding for one URL |
| `LoaderProperties.LoadAllWhileInFlight` | Sources/ImageCache/CacheLoader.swift:67-75 | successive requests for a URL in flight extend its list in order, or leave only the last one under `keepOnlyLatestHandler` |
| `LoaderProperties.Coalesced` | Sources/ImageCache/CacheLoader.swift:56-142 | N requests for a URL neither cached nor loading submit exactly one operation, and its completion calls all N handlers in order with the same result |
| `LoaderProperties.LatestHandlerOnly` | Sources/ImageCache/CacheLoader.swift:69-70 | with `keepOnlyLatestHandler`, N requests submit one operation, and only the last handler is called |
| `LoaderProperties.RetryAfterFailureIsOrphaned` | Sources/ImageCache/CacheLoader.swift:137-141 | a handler that asks again for the same URL on the failure path gets no new operation and is left waiting on a URL with no download under way |
| `LoaderProperties.OrphanNeverCalled` | Sources/ImageCache/CacheLoader.swift:78-79 | such an orphaned handler is never called, whatever events follow, unless a new request registers it again |
| `LoaderProperties.StaleCompletionAfterCancelAll` | Sources/ImageCache/CacheLoader.swift:121-141 | after `cancelAll`, an old operation's completion calls a newer request's handler and clears its in-flight mark; when the stale completion fails, a further request then starts a second concurrent download |
| `CacheLoading.CacheLoader.constructor` | Sources/ImageCache/CacheLoader.swift:15-23 | a loader starts with the given cache and queue, no URL in flight and no handlers |
| `CacheLoading.CacheLoader.Config` | Sources/ImageCache/CacheLoader.swift:37-48 | the old queue's operations are all asked to cancel, then the cache and queue are replaced; the other tables are kept |
| `CacheLoading.CacheLoader.LoadValue` | Sources/ImageCache/CacheLoader.swift:56-104 | the new state is `LoaderModel.LoadValue` of the old one; the queue receives one operation exactly when one is submitted; single flight is kept |
| `CacheLoading.CacheLoader.Complete` | Sources/ImageCache/CacheLoader.swift:81-102 | the new state is `LoaderModel.Complete` of the old one; single flight is kept |
| `CacheLoading.CacheLoader.HandleResult` | Sources/ImageCache/CacheLoader.swift:136-142 | the new state is `LoaderModel.HandleResult` of the old one; the loop calls the handlers in list order |
| `CacheLoading.CacheLoader.RemovePendingHandlers` | Sources/ImageCache/CacheLoader.swift:110-118 | the new state is `LoaderModel.RemovePendingHandlers` of the old one |
| `CacheLoading.CacheLoader.CancelAll` | Sources/ImageCache/CacheLoader.swift:121-125 | the tables are cleared and every operation the queue holds is asked to cancel |
| `CacheLoading.CacheLoader.RemoveCache` | Sources/ImageCache/CacheLoader.swift:128-130 | only the cache is emptied |
| `Transport.Classify` | Sources/ImageCache/CacheLoader.swift:86-99 | the result succeeds exactly when there is no error and the data decodes, and then holds the decoded value; an error wins over data; any other failure is the given custom error |
| `DataTask.DataTaskOperation.constructor` | Sources/ImageCache/DataTaskOperation.swift:38-46 | a new operation is `.ready` and not cancelled, has done nothing, and records whether a completion handler was given |
| `DataTask.ExactlyOneFlag` | Sources/ImageCache/DataTaskOperation.swift:32-34 | exactly one of `isReady`, `isExecuting` and `isFinished` is true |
| `DataTask.DataTaskOperation.Start` | Sources/ImageCache/DataTaskOperation.swift:50-66 | a cancelled operation moves to `.finished` without resuming its task; otherwise it moves to `.executing` and resumes the task once |
| `DataTask.DataTaskOperation.Cancel` | Sources/ImageCache/DataTaskOperation.swift:68-73 | the cancelled flag is set and the task is cancelled, whatever the state, and the state is kept |
| `DataTask.DataTaskOperation.TaskCompleted` | Sources/ImageCache/DataTaskOperation.swift:38-45 | the user's completion handler, when `init` was given one, is called first, and only then does the state become `.finished`; without one only the state changes |
| `DataTask.StateAfterAppend` | Sources/ImageCache/DataTaskOperation.swift:19-28 | the state is the last value assigned to it, and `.ready` before any assignment |
| `ImageCaching.Key` | Sources/ImageCache/ImageCache.swift:86-89 | the key is `url.absoluteString` with no size, and `url.absoluteString + "_" + size` with one |
| `ImageCaching.SizedKeysDiffer` | Sources/ImageCache/ImageCache.swift:86-89 | for one URL, distinct size strings give distinct keys |
| `ImageCaching.UnsizedKeyDiffers` | Sources/ImageCache/ImageCache.swift:86-89 | for one URL, the key without a size differs from every sized key |
| `ImageCaching.ConfigInit` | Sources/ImageCache/ImageCache.swift:102-107 | `countLimit`, `memoryLimit` and `showLog` are stored as given, and `maxConcurrentCount` is always 6 |
| `ImageCaching.ConfigInitDropsWidth` | Sources/ImageCache/ImageCache.swift:102-107 | the configuration the tests build with a width of 5 gets a width of 6 instead |
| `ImageCaching.ConfigInitIntended` | Sources/ImageCache/ImageCache.swift:102-107 | every argument, the width included, is stored as given |
| `ImageCaching.Config.CacheConfig` | Sources/ImageCache/ImageCache.swift:109-112 | `countLimit`, `memoryLimit` and `showLog` are passed on unchanged |
| `ImageCaching.CacheConfigForwards` | Sources/ImageCache/ImageCache.swift:102-112 | the cache configuration derived from `Config.init` carries exactly the three limits given, whatever the width argument |
| `ImageCaching.Forward` | Sources/ImageCache/ImageCache.swift:50-57 | `loadImage` passes the loader's success value or failure error on unchanged, with the same result URL |
| `ImageCaching.ImageCache.constructor` | Sources/ImageCache/ImageCache.swift:19-25 | `init` builds an empty cache and a new queue whose width is `config.maxConcurrentCount`, and keeps `config` |
| `ImageCaching.ImageCache.Setup` | Sources/ImageCache/ImageCache.swift:27-32 | `setup` asks the old queue's operations to cancel, then installs an empty cache and a new queue whose width is `config.maxConcurrentCount` |
| `ImageLoading.LoadImage` | Sources/ImageCache/ImageLoader.swift:24-47 | the completion is called exactly once; a task is started if and only if the cache misses; a hit gives `.success(image)` |
| `ImageLoading.TaskCallback` | Sources/ImageCache/ImageLoader.swift:31-45 | the task's closure calls the completion exactly once, with the shared classification under "Invalid Image Data" |
| `ImageLoading.MissOutcomes` | Sources/ImageCache/ImageLoader.swift:32-44 | on a miss, a transport error wins over data, decodable data gives `.success(image)`, and anything else gives "Invalid Image Data" |
| `CustomErrors.CustomError.ErrorDescription` | Sources/ImageCache/Common/CustomError.swift:13-19 | the stored message is returned when it is non-empty, "Unknown Error." when it is empty, and never nil |

## Findings

| source | as written | input that shows it | evidently intended | confidence | as-written member | corrected member |
|---|---|---|---|---|---|---|
| Sources/ImageCache/ImageCache.swift:102-107 | `Config.init` sets `maxConcurrentCount` to 6 and ignores its argument | the tests' `Config(countLimit: 100, memoryLimit: 100 * 1024 * 1024, showLog: false, maxConcurrentCount: 5)` (Tests/ImageCacheTests/ImageCacheTests.swift:9) gets a width of 6 | store the argument; its default is already 6 | not executed | `ImageCaching.ConfigInitDropsWidth` | `ImageCaching.ConfigInitIntended` |

The rest of the model takes a `Config` value, and `init` and `setup` use its `maxConcurrentCount`
whatever built it.

## Left out

- The external `Cache` library is left out: the `Cacheable` protocol, LRU eviction and count and memory
  limits. The cache is a plain map with lookup, set and remove-all. `Config.CacheConfig` builds a
  `StoreConfig`; `init` and `setup` create the cache as an empty map and apply no limits.
- URLSession is left out: `regenerateSession`, `session` and the response metadata (`URLResponse`). The
  data and error of a finished task are a parameter of the completion event.
- `receiveQueue` and the delivery context are left out. Handlers are recorded as called at the point
  where the code calls them.
- OperationQueue scheduling is left out: the concurrency bound, FIFO order and when `start()` is
  called. The queue records only its width, how many operations it received and how many it was asked
  to cancel.
- A submitted loader operation is represented by its URL, not by a `DataTaskOperation` object; the
  lifecycle of that object is modelled on its own.
- Whether a cancelled operation completes is left to the queue and URLSession. `cancel()` cancels the
  data task whether or not it has started, and a cancelled data task may still report completion,
  with a cancellation error. So a cancelled operation may still complete. The model keeps it
  outstanding, so its completion stays possible at any later point; this is what allows a stale
  completion.
- Concurrency is left out. Calls and completions are one interleaved sequential trace, as the loader
  has no lock of its own.
- Handler side effects are left out beyond the call log. A handler's own calls into the loader are
  modelled only in `RetryAfterFailureIsOrphaned` and `RetryAfterSuccessHits`. There the call is placed
  between the handler run and the clearing of `loadingUrls`, where `handleResult` makes it.
- `[weak self]` captures are left out: the loader and the operation are assumed alive when a closure
  runs.
- The KVO notifications in `state`'s `willSet`/`didSet` are left out.
- `logPrint` and `isLog` are left out; they only print.
- `BaseLoader`, the superclass of `OptimizedImageLoader`, is not part of this model. So the
  `keyGenerator` that `loadImage` passes, `cacheImage(for:)`, and the delegating `removePendingHandlers`,
  `cancelAll` and `removeCache` of `ImageCache` are left out. `ImageCache` holds a `CacheLoader` keyed by
  string, and it is created with empty tables.
- `value(from:)` of `OptimizedImageLoader`, `UIImage(data:)` and the downsampling in `UIImageEx.swift`
  (floating point, ImageIO) are left out. They appear only as the decoder parameter.
- `ImageLoader`'s `backgroundQueue` is never used and is not modelled. The `shared` instances are left
  out.
- A CGSize is given as its description string.
- The example app under `Example/` and the tests are left out.
