/**
 * `CacheLoader`: the loader's state as fields that its methods update in place. Every method is
 * proved to move `Model()` exactly as the matching function of `LoaderModel` does, and the ones that
 * keep single flight say so.
 */
module CacheLoading {
  import opened Basics
  import opened Transport
  import opened Operations
  import opened LoaderModel
  import LoaderProperties

  class CacheLoader<K(==), V> {
    var cache: map<K, V>
    var executeQueue: OperationQueue
    var loadingUrls: set<K>
    var pendingHandlers: map<K, seq<HandlerId>>
    /** Every operation handed to an execute queue, by key. */
    ghost var submitted: seq<K>
    /** The submitted operations whose completion has not run yet. */
    ghost var outstanding: multiset<K>
    /** Every call of a handler, in order. */
    ghost var delivered: seq<Delivery<K, V>>
    /** `value(from:)`, the decoder the adopting type supplies. */
    const decode: Bytes -> Option<V>

    ghost function Model(): State<K, V>
      reads this
    {
      State(cache, loadingUrls, pendingHandlers, submitted, outstanding, delivered)
    }

    constructor (cache: map<K, V>, executeQueue: OperationQueue, decode: Bytes -> Option<V>)
      ensures Model() == Initial(cache)
      ensures this.executeQueue == executeQueue && this.decode == decode
    {
      this.cache := cache;
      this.executeQueue := executeQueue;
      this.decode := decode;
      loadingUrls := {};
      pendingHandlers := map[];
      submitted := [];
      outstanding := multiset{};
      delivered := [];
    }

    /** `config(cache:executeQueue:receiveQueue:)`: cancel the old queue's operations, then swap cache and queue. */
    method Config(cache: map<K, V>, executeQueue: OperationQueue)
      modifies this, this.executeQueue
      ensures Model() == Reconfigure(old(Model()), cache)
      ensures this.executeQueue == executeQueue
      ensures old(this.executeQueue).cancelled == old(this.executeQueue.added) == old(this.executeQueue).added
      ensures SingleFlight(old(Model())) ==> SingleFlight(Model())
    {
      this.executeQueue.CancelAllOperations();
      this.cache := cache;
      this.executeQueue := executeQueue;
      if SingleFlight(old(Model())) {
        LoaderProperties.ReconfigurePreservesSingleFlight(old(Model()), cache);
      }
    }

    /** `loadValue(from:keepOnlyLatestHandler:completion:)`. */
    method LoadValue(url: K, keepOnlyLatestHandler: bool, completion: HandlerId)
      modifies this, executeQueue
      ensures Model() == LoaderModel.LoadValue(old(Model()), url, keepOnlyLatestHandler, completion)
      ensures executeQueue == old(executeQueue)
      ensures executeQueue.added == old(executeQueue.added) + (|submitted| - |old(submitted)|)
      ensures executeQueue.cancelled == old(executeQueue.cancelled)
      ensures executeQueue.maxConcurrentOperationCount == old(executeQueue.maxConcurrentOperationCount)
      ensures SingleFlight(old(Model())) ==> SingleFlight(Model())
    {
      if url in cache {
        delivered := delivered + [Delivery(completion, Success(cache[url]), url)];
      } else if url in loadingUrls {
        if keepOnlyLatestHandler {
          pendingHandlers := pendingHandlers[url := [completion]];
        } else {
          var preHandlers := if url in pendingHandlers then pendingHandlers[url] else [];
          pendingHandlers := pendingHandlers[url := preHandlers + [completion]];
        }
      } else {
        loadingUrls := loadingUrls + {url};
        pendingHandlers := pendingHandlers[url := [completion]];
        submitted := submitted + [url];
        outstanding := outstanding + multiset{url};
        executeQueue.AddOperation();
      }
      if SingleFlight(old(Model())) {
        LoaderProperties.LoadValuePreservesSingleFlight(old(Model()), url, keepOnlyLatestHandler, completion);
      }
    }

    /** The completion closure of the operation `loadValue` submitted for `url`. */
    method Complete(url: K, response: Response)
      requires url in outstanding
      modifies this
      ensures Model() == LoaderModel.Complete(old(Model()), url, response, decode)
      ensures executeQueue == old(executeQueue)
      ensures SingleFlight(old(Model())) ==> SingleFlight(Model())
    {
      outstanding := outstanding - multiset{url};
      var result: Result<V, Error>;
      if response.error.Some? {
        result := Failure(response.error.value);
      } else if response.data.Some? && decode(response.data.value).Some? {
        var value := decode(response.data.value).value;
        cache := cache[url := value];
        result := Success(value);
      } else {
        result := Failure(Custom(InvalidValueData));
      }
      HandleResult(result, url);
      if SingleFlight(old(Model())) {
        LoaderProperties.CompletePreservesSingleFlight(old(Model()), url, response, decode);
      }
    }

    /** `handleResult(_:for:)`. */
    method HandleResult(result: Result<V, Error>, url: K)
      modifies this
      ensures Model() == LoaderModel.HandleResult(old(Model()), result, url)
      ensures executeQueue == old(executeQueue)
    {
      if url in pendingHandlers {
        var handlers := pendingHandlers[url];
        pendingHandlers := pendingHandlers - {url};
        ghost var log := delivered;
        for i := 0 to |handlers|
          invariant log == old(delivered) + Deliveries(handlers[..i], result, url)
        {
          assert Deliveries(handlers[..i + 1], result, url)
              == Deliveries(handlers[..i], result, url) + [Delivery(handlers[i], result, url)];
          log := log + [Delivery(handlers[i], result, url)];
        }
        assert handlers[..|handlers|] == handlers;
        delivered := log;
      }
      loadingUrls := loadingUrls - {url};
    }

    /** `removePendingHandlers(for:keepLatestHandler:)`. */
    method RemovePendingHandlers(url: K, keepLatestHandler: bool)
      modifies this
      ensures Model() == LoaderModel.RemovePendingHandlers(old(Model()), url, keepLatestHandler)
      ensures executeQueue == old(executeQueue)
      ensures SingleFlight(old(Model())) ==> SingleFlight(Model())
    {
      if url in pendingHandlers && |pendingHandlers[url]| > 0 {
        var handlers := pendingHandlers[url];
        if keepLatestHandler {
          pendingHandlers := pendingHandlers[url := [handlers[|handlers| - 1]]];
        } else {
          pendingHandlers := pendingHandlers - {url};
        }
      }
    }

    /** `cancelAll()`. */
    method CancelAll()
      modifies this, executeQueue
      ensures Model() == LoaderModel.CancelAll(old(Model()))
      ensures executeQueue == old(executeQueue)
      ensures executeQueue.cancelled == executeQueue.added == old(executeQueue.added)
    {
      pendingHandlers := map[];
      loadingUrls := {};
      executeQueue.CancelAllOperations();
    }

    /** `removeCache()`. */
    method RemoveCache()
      modifies this
      ensures Model() == LoaderModel.RemoveCache(old(Model()))
      ensures executeQueue == old(executeQueue)
      ensures SingleFlight(old(Model())) ==> SingleFlight(Model())
    {
      cache := map[];
    }
  }
}
