/**
 * The request-coalescing loader of `CacheLoader.swift` as a state machine over values.
 *
 * A `State` holds the loader's three tables (cache, keys in flight, pending handlers) and three logs
 * that the Swift code does not keep but that say what it did: every operation it submitted, the
 * operations whose completion has not run yet, and every call of a handler. Each public operation of
 * the loader, and the completion of a fetch, is a function from state to state; the class in
 * `CacheLoading` is proved against these functions.
 */
module LoaderModel {
  import opened Basics
  import opened CustomErrors
  import opened Transport

  /** A completion handler, identified by an id; calling it is recorded as a `Delivery`. */
  type HandlerId = nat

  datatype Delivery<K, V> = Delivery(handler: HandlerId, result: Result<V, Error>, url: K)

  datatype State<K, V> = State(
    cache: map<K, V>,                  // `cache`
    loading: set<K>,                   // the keys with `loadingUrls[url] == true`
    pending: map<K, seq<HandlerId>>,   // `pendingHandlers`
    submitted: seq<K>,                 // every operation handed to `executeQueue`, by key
    outstanding: multiset<K>,          // submitted operations whose completion has not run
    delivered: seq<Delivery<K, V>>)    // every handler call, in order

  /** The error of a fetch whose data is missing or does not decode. */
  const InvalidValueData: CustomError := CustomError("Invalid Value Data")

  /** A loader over `cache` before any request. */
  function Initial<K, V>(cache: map<K, V>): State<K, V>
  {
    State(cache, {}, map[], [], multiset{}, [])
  }

  /** `pendingHandlers[url] ?? []`. */
  function Handlers<K, V>(s: State<K, V>, url: K): seq<HandlerId>
  {
    if url in s.pending then s.pending[url] else []
  }

  /** The calls `handlers.forEach { $0(result, url) }` makes. */
  function Deliveries<K, V>(handlers: seq<HandlerId>, result: Result<V, Error>, url: K): (d: seq<Delivery<K, V>>)
    ensures |d| == |handlers|
    ensures forall i :: 0 <= i < |handlers| ==> d[i] == Delivery(handlers[i], result, url)
  {
    seq(|handlers|, i requires 0 <= i < |handlers| => Delivery(handlers[i], result, url))
  }

  /** `loadValue(from:keepOnlyLatestHandler:completion:)`. */
  function LoadValue<K, V>(s: State<K, V>, url: K, keepOnlyLatestHandler: bool, completion: HandlerId): State<K, V>
  {
    if url in s.cache then
      s.(delivered := s.delivered + [Delivery(completion, Success(s.cache[url]), url)])
    else if url in s.loading then
      s.(pending := s.pending[url := if keepOnlyLatestHandler then [completion] else Handlers(s, url) + [completion]])
    else
      s.(loading := s.loading + {url},
         pending := s.pending[url := [completion]],
         submitted := s.submitted + [url],
         outstanding := s.outstanding + multiset{url})
  }

  /** The first thing a completion does: its operation is no longer outstanding. */
  function Consume<K, V>(s: State<K, V>, url: K): State<K, V>
  {
    s.(outstanding := s.outstanding - multiset{url})
  }

  /** `self.cache[url] = value` on a successful fetch; a failure writes nothing. */
  function StoreResult<K, V>(s: State<K, V>, url: K, result: Result<V, Error>): State<K, V>
  {
    if result.Success? then s.(cache := s.cache[url := result.value]) else s
  }

  /** `pendingHandlers[url] = nil`, after the handlers were read. */
  function Detach<K, V>(s: State<K, V>, url: K): State<K, V>
  {
    s.(pending := s.pending - {url})
  }

  /** Running `handlers` with `result`. */
  function Notify<K, V>(s: State<K, V>, handlers: seq<HandlerId>, result: Result<V, Error>, url: K): State<K, V>
  {
    s.(delivered := s.delivered + Deliveries(handlers, result, url))
  }

  /** `loadingUrls[url] = nil`. */
  function Settle<K, V>(s: State<K, V>, url: K): State<K, V>
  {
    s.(loading := s.loading - {url})
  }

  /**
   * `handleResult(_:for:)`: detach the handlers, run them, and only then mark the key as no longer
   * loading. A handler may call back into the loader; such calls happen between `Notify` and `Settle`.
   */
  function HandleResult<K, V>(s: State<K, V>, result: Result<V, Error>, url: K): State<K, V>
  {
    if url in s.pending then
      Settle(Notify(Detach(s, url), s.pending[url], result, url), url)
    else
      Settle(s, url)
  }

  /** The operation's completion closure: classify the response, warm the cache on success, deliver. */
  function Complete<K, V>(s: State<K, V>, url: K, response: Response, decode: Bytes -> Option<V>): State<K, V>
  {
    var result := Classify(response, decode, InvalidValueData);
    HandleResult(StoreResult(Consume(s, url), url, result), result, url)
  }

  /** `removePendingHandlers(for:keepLatestHandler:)`. */
  function RemovePendingHandlers<K, V>(s: State<K, V>, url: K, keepLatestHandler: bool): State<K, V>
  {
    if url in s.pending && |s.pending[url]| > 0 then
      if keepLatestHandler then s.(pending := s.pending[url := [s.pending[url][|s.pending[url]| - 1]]])
      else s.(pending := s.pending - {url})
    else s
  }

  /** `cancelAll()`; the operations it asks to cancel are the queue's business and stay outstanding. */
  function CancelAll<K, V>(s: State<K, V>): State<K, V>
  {
    s.(pending := map[], loading := {})
  }

  /** `removeCache()`. */
  function RemoveCache<K, V>(s: State<K, V>): State<K, V>
  {
    s.(cache := map[])
  }

  /** `config(cache:executeQueue:receiveQueue:)` as seen by the tables: only the cache is replaced. */
  function Reconfigure<K, V>(s: State<K, V>, cache: map<K, V>): State<K, V>
  {
    s.(cache := cache)
  }

  /** One thing that can happen to a loader: a call of its API, or the completion of an operation. */
  datatype Event<K, V> =
    | Request(url: K, keepOnlyLatestHandler: bool, handler: HandlerId)
    | Completion(url: K, response: Response)
    | DropHandlers(url: K, keepLatestHandler: bool)
    | ClearCache
    | CancelEverything
    | Reconfig(cache: map<K, V>)

  /** A completion can only come from an outstanding operation; any other is not an event. */
  function Step<K, V>(s: State<K, V>, e: Event<K, V>, decode: Bytes -> Option<V>): State<K, V>
  {
    match e
    case Request(url, keep, h) => LoadValue(s, url, keep, h)
    case Completion(url, response) => if url in s.outstanding then Complete(s, url, response, decode) else s
    case DropHandlers(url, keep) => RemovePendingHandlers(s, url, keep)
    case ClearCache => RemoveCache(s)
    case CancelEverything => CancelAll(s)
    case Reconfig(cache) => Reconfigure(s, cache)
  }

  function Run<K, V>(s: State<K, V>, events: seq<Event<K, V>>, decode: Bytes -> Option<V>): State<K, V>
    decreases |events|
  {
    if events == [] then s else Run(Step(s, events[0], decode), events[1..], decode)
  }

  /** Requests for one key by each of `handlers` in turn, all under the same policy. */
  function LoadAll<K, V>(s: State<K, V>, url: K, keepOnlyLatestHandler: bool, handlers: seq<HandlerId>): State<K, V>
    decreases |handlers|
  {
    if handlers == [] then s
    else LoadAll(LoadValue(s, url, keepOnlyLatestHandler, handlers[0]), url, keepOnlyLatestHandler, handlers[1..])
  }

  /**
   * Single flight: a key is loading exactly when one operation for it is outstanding, and no
   * operation is outstanding for a key that is not loading.
   */
  ghost predicate SingleFlight<K, V>(s: State<K, V>)
  {
    s.outstanding == multiset(s.loading)
  }
}
