/** What the loader of `CacheLoader.swift` guarantees, and two things it does not, stated over `LoaderModel`. */
module LoaderProperties {
  import opened Basics
  import opened Transport
  import opened LoaderModel

  // ----- loadValue -----

  /** A cache hit calls the completion once with the cached value and the same key, and changes nothing else. */
  lemma LoadHit<K, V>(s: State<K, V>, url: K, keepOnlyLatestHandler: bool, h: HandlerId)
    requires url in s.cache
    ensures var t := LoadValue(s, url, keepOnlyLatestHandler, h);
      && t.delivered == s.delivered + [Delivery(h, Success(s.cache[url]), url)]
      && t.submitted == s.submitted && t.outstanding == s.outstanding
      && t.loading == s.loading && t.pending == s.pending && t.cache == s.cache
  {
  }

  /**
   * While the key is being fetched a request only registers its handler: it replaces the list with
   * just itself under `keepOnlyLatestHandler`, and otherwise goes after the earlier handlers, which keep
   * their order. No operation is submitted and no handler runs.
   */
  lemma LoadWhileInFlight<K, V>(s: State<K, V>, url: K, keepOnlyLatestHandler: bool, h: HandlerId)
    requires url !in s.cache && url in s.loading
    ensures var t := LoadValue(s, url, keepOnlyLatestHandler, h);
      && t.submitted == s.submitted && t.outstanding == s.outstanding && t.delivered == s.delivered
      && t.loading == s.loading && t.cache == s.cache
      && url in t.pending && t.pending - {url} == s.pending - {url}
      && (keepOnlyLatestHandler ==> t.pending[url] == [h])
      && (!keepOnlyLatestHandler ==>
            && |t.pending[url]| == |Handlers(s, url)| + 1
            && t.pending[url][..|Handlers(s, url)|] == Handlers(s, url)
            && t.pending[url][|Handlers(s, url)|] == h)
  {
  }

  /** The first miss marks the key loading, installs the handler alone, and submits one operation. */
  lemma LoadFirstMiss<K, V>(s: State<K, V>, url: K, keepOnlyLatestHandler: bool, h: HandlerId)
    requires url !in s.cache && url !in s.loading
    ensures var t := LoadValue(s, url, keepOnlyLatestHandler, h);
      && t.loading == s.loading + {url}
      && url in t.pending && t.pending[url] == [h] && t.pending - {url} == s.pending - {url}
      && t.submitted == s.submitted + [url] && t.outstanding == s.outstanding + multiset{url}
      && t.delivered == s.delivered && t.cache == s.cache
  {
  }

  /** A request submits an operation if and only if the key is neither cached nor loading. */
  lemma LoadSubmits<K, V>(s: State<K, V>, url: K, keepOnlyLatestHandler: bool, h: HandlerId)
    ensures var t := LoadValue(s, url, keepOnlyLatestHandler, h);
      t.submitted == s.submitted + (if url !in s.cache && url !in s.loading then [url] else [])
  {
  }

  // ----- completion and handleResult -----

  /**
   * `handleResult` calls every pending handler of the key once, in list order, with the same result and
   * key; afterwards the key has neither handlers nor an in-flight mark, and other keys are untouched.
   */
  lemma HandleResultDelivers<K, V>(s: State<K, V>, result: Result<V, Error>, url: K)
    ensures var t := HandleResult(s, result, url);
      && t.delivered == s.delivered + Deliveries(Handlers(s, url), result, url)
      && url !in t.pending && url !in t.loading
      && t.pending == s.pending - {url} && t.loading == s.loading - {url}
      && t.cache == s.cache && t.submitted == s.submitted && t.outstanding == s.outstanding
  {
  }

  /**
   * A completion: a transport error fails every handler with that error even when data came back;
   * data that decodes succeeds and is cached; anything else fails with "Invalid Value Data" and
   * writes nothing to the cache.
   */
  lemma CompletionOutcome<K, V>(s: State<K, V>, url: K, response: Response, decode: Bytes -> Option<V>)
    ensures var t := Complete(s, url, response, decode);
      && t.pending == s.pending - {url} && t.loading == s.loading - {url}
      && t.outstanding == s.outstanding - multiset{url} && t.submitted == s.submitted
      && (response.error.Some? ==>
            t.delivered == s.delivered + Deliveries(Handlers(s, url), Failure(response.error.value), url)
            && t.cache == s.cache)
      && (response.error.None? && response.data.Some? && decode(response.data.value).Some? ==>
            t.delivered == s.delivered + Deliveries(Handlers(s, url), Success(decode(response.data.value).value), url)
            && t.cache == s.cache[url := decode(response.data.value).value])
      && (response.error.None? && (response.data.None? || decode(response.data.value).None?) ==>
            t.delivered == s.delivered + Deliveries(Handlers(s, url), Failure(Custom(InvalidValueData)), url)
            && t.cache == s.cache)
  {
    var r := Classify(response, decode, InvalidValueData);
    HandleResultDelivers(StoreResult(Consume(s, url), url, r), r, url);
  }

  /**
   * On success the cache is written before `handleResult` runs the handlers. A handler `h1` of the
   * first request that asks for the same key again with `h2` is answered from the cache at once; no
   * operation is submitted and no handler is left waiting on the key.
   */
  lemma RetryAfterSuccessHits<K, V>(s: State<K, V>, url: K, h1: HandlerId, h2: HandlerId, keepOnlyLatestHandler: bool,
                                    response: Response, decode: Bytes -> Option<V>)
    requires url !in s.cache && url !in s.loading
    requires Classify(response, decode, InvalidValueData).Success?
    ensures var r := Classify(response, decode, InvalidValueData);
      var started := LoadValue(s, url, false, h1);
      var stored := StoreResult(Consume(started, url), url, r);
      var running := Detach(stored, url);
      var retried := LoadValue(Notify(running, [h1], r, url), url, keepOnlyLatestHandler, h2);
      && started.pending[url] == [h1]
      && HandleResult(stored, r, url) == Settle(Notify(running, [h1], r, url), url)
      && running.cache[url] == r.value
      && retried.submitted == started.submitted && retried.pending == running.pending
      && retried.delivered == s.delivered + [Delivery(h1, r, url), Delivery(h2, r, url)]
      && url !in Settle(retried, url).pending && url !in Settle(retried, url).loading
  {
  }

  /** After a successful fetch, the next request for the key is answered from the cache without a fetch. */
  lemma SuccessThenCacheHit<K, V>(s: State<K, V>, url: K, response: Response, decode: Bytes -> Option<V>,
                                  keepOnlyLatestHandler: bool, h: HandlerId)
    requires Classify(response, decode, InvalidValueData).Success?
    ensures var t := Complete(s, url, response, decode);
      var u := LoadValue(t, url, keepOnlyLatestHandler, h);
      && u.submitted == t.submitted && u.outstanding == t.outstanding
      && u.delivered == t.delivered + [Delivery(h, Classify(response, decode, InvalidValueData), url)]
  {
    CompletionOutcome(s, url, response, decode);
  }

  // ----- removePendingHandlers, cancelAll, removeCache -----

  /**
   * `removePendingHandlers` keeps only the last of a non-empty list under `keepLatestHandler` and
   * removes the list otherwise; an absent or empty list stays as it is. Nothing but that list changes.
   */
  lemma RemovePendingCases<K, V>(s: State<K, V>, url: K, keepLatestHandler: bool)
    ensures var t := RemovePendingHandlers(s, url, keepLatestHandler);
      && t.loading == s.loading && t.cache == s.cache && t.submitted == s.submitted
      && t.outstanding == s.outstanding && t.delivered == s.delivered
      && t.pending - {url} == s.pending - {url}
      && (Handlers(s, url) != [] && keepLatestHandler ==>
            url in t.pending && t.pending[url] == [Handlers(s, url)[|Handlers(s, url)| - 1]])
      && (Handlers(s, url) != [] && !keepLatestHandler ==> url !in t.pending)
      && (Handlers(s, url) == [] ==> t.pending == s.pending)
  {
  }

  /** A handler removed before the fetch completes is never called, and a good fetch still fills the cache. */
  lemma RemovedHandlerIsNotCalled<K, V>(s: State<K, V>, url: K, h: HandlerId, response: Response, decode: Bytes -> Option<V>)
    requires url !in s.cache && url !in s.loading
    ensures var r := Classify(response, decode, InvalidValueData);
      var u := Complete(RemovePendingHandlers(LoadValue(s, url, false, h), url, false), url, response, decode);
      && u.delivered == s.delivered
      && u.cache == if r.Success? then s.cache[url := r.value] else s.cache
  {
    var t := RemovePendingHandlers(LoadValue(s, url, false, h), url, false);
    CompletionOutcome(t, url, response, decode);
  }

  /** `cancelAll` empties the handler table and the in-flight set and nothing else. */
  lemma CancelAllClears<K, V>(s: State<K, V>)
    ensures var t := CancelAll(s);
      && t.pending == map[] && t.loading == {}
      && t.cache == s.cache && t.submitted == s.submitted && t.outstanding == s.outstanding
      && t.delivered == s.delivered
  {
  }

  /** A completion that arrives right after `cancelAll` calls no handler. */
  lemma CompletionAfterCancelAllIsSilent<K, V>(s: State<K, V>, url: K, response: Response, decode: Bytes -> Option<V>)
    ensures Complete(CancelAll(s), url, response, decode).delivered == s.delivered
  {
    CompletionOutcome(CancelAll(s), url, response, decode);
  }

  /** `removeCache` empties the cache and nothing else. */
  lemma RemoveCacheClears<K, V>(s: State<K, V>)
    ensures var t := RemoveCache(s);
      && t.cache == map[]
      && t.loading == s.loading && t.pending == s.pending && t.submitted == s.submitted
      && t.outstanding == s.outstanding && t.delivered == s.delivered
  {
  }

  // ----- single flight -----

  lemma InitialSingleFlight<K, V>(cache: map<K, V>)
    ensures SingleFlight(Initial(cache))
  {
  }

  /** Under single flight there is at most one outstanding operation per key, and one exactly when it is loading. */
  lemma AtMostOneOutstanding<K, V>(s: State<K, V>, k: K)
    requires SingleFlight(s)
    ensures s.outstanding[k] <= 1
    ensures k in s.loading <==> s.outstanding[k] == 1
  {
  }

  lemma LoadValuePreservesSingleFlight<K, V>(s: State<K, V>, url: K, keepOnlyLatestHandler: bool, h: HandlerId)
    requires SingleFlight(s)
    ensures SingleFlight(LoadValue(s, url, keepOnlyLatestHandler, h))
  {
    if url !in s.cache && url !in s.loading {
      assert multiset(s.loading + {url}) == multiset(s.loading) + multiset{url};
    }
  }

  lemma CompletePreservesSingleFlight<K, V>(s: State<K, V>, url: K, response: Response, decode: Bytes -> Option<V>)
    requires SingleFlight(s) && url in s.outstanding
    ensures SingleFlight(Complete(s, url, response, decode))
  {
    CompletionOutcome(s, url, response, decode);
    assert url in s.loading;
    assert multiset(s.loading - {url}) == multiset(s.loading) - multiset{url};
  }

  lemma RemovePendingPreservesSingleFlight<K, V>(s: State<K, V>, url: K, keepLatestHandler: bool)
    requires SingleFlight(s)
    ensures SingleFlight(RemovePendingHandlers(s, url, keepLatestHandler))
  {
  }

  lemma ReconfigurePreservesSingleFlight<K, V>(s: State<K, V>, cache: map<K, V>)
    requires SingleFlight(s)
    ensures SingleFlight(Reconfigure(s, cache))
  {
  }

  lemma StepPreservesSingleFlight<K, V>(s: State<K, V>, e: Event<K, V>, decode: Bytes -> Option<V>)
    requires SingleFlight(s) && !e.CancelEverything?
    ensures SingleFlight(Step(s, e, decode))
  {
    match e
    case Request(url, keep, h) => LoadValuePreservesSingleFlight(s, url, keep, h);
    case Completion(url, response) =>
      if url in s.outstanding {
        CompletePreservesSingleFlight(s, url, response, decode);
      }
    case DropHandlers(url, keep) => RemovePendingPreservesSingleFlight(s, url, keep);
    case ClearCache =>
    case Reconfig(cache) => ReconfigurePreservesSingleFlight(s, cache);
  }

  /** Along any run without `cancelAll`, single flight is never broken. */
  lemma {:induction false} RunPreservesSingleFlight<K, V>(s: State<K, V>, events: seq<Event<K, V>>, decode: Bytes -> Option<V>)
    requires SingleFlight(s)
    requires forall i :: 0 <= i < |events| ==> !events[i].CancelEverything?
    ensures SingleFlight(Run(s, events, decode))
    decreases |events|
  {
    if events != [] {
      StepPreservesSingleFlight(s, events[0], decode);
      RunPreservesSingleFlight(Step(s, events[0], decode), events[1..], decode);
    }
  }

  /** From a fresh loader, no run without `cancelAll` ever has two operations for one key outstanding. */
  lemma NoDoubleFetch<K, V>(cache: map<K, V>, events: seq<Event<K, V>>, decode: Bytes -> Option<V>, k: K)
    requires forall i :: 0 <= i < |events| ==> !events[i].CancelEverything?
    ensures Run(Initial(cache), events, decode).outstanding[k] <= 1
  {
    InitialSingleFlight(cache);
    RunPreservesSingleFlight(Initial(cache), events, decode);
    AtMostOneOutstanding(Run(Initial(cache), events, decode), k);
  }

  // ----- coalescing -----

  function Last(hs: seq<HandlerId>): HandlerId
    requires hs != []
  {
    hs[|hs| - 1]
  }

  /** Requests for a key that is already loading only extend (or, keeping the latest, replace) its list. */
  lemma {:induction false} LoadAllWhileInFlight<K, V>(s: State<K, V>, url: K, keepOnlyLatestHandler: bool, hs: seq<HandlerId>)
    requires url !in s.cache && url in s.loading
    ensures LoadAll(s, url, keepOnlyLatestHandler, hs)
         == if hs == [] then s
            else s.(pending := s.pending[url := if keepOnlyLatestHandler then [Last(hs)] else Handlers(s, url) + hs])
    decreases |hs|
  {
    if hs != [] {
      var s1 := LoadValue(s, url, keepOnlyLatestHandler, hs[0]);
      LoadAllWhileInFlight(s1, url, keepOnlyLatestHandler, hs[1..]);
      assert Handlers(s1, url) == if keepOnlyLatestHandler then [hs[0]] else Handlers(s, url) + [hs[0]];
      assert hs == [hs[0]] + hs[1..];
      if hs[1..] == [] {
        assert hs == [hs[0]];
      } else {
        assert Last(hs[1..]) == Last(hs);
        assert (Handlers(s, url) + [hs[0]]) + hs[1..] == Handlers(s, url) + hs;
      }
    }
  }

  /**
   * Single flight, fan-out: requests by `hs` for a key that is neither cached nor loading submit exactly
   * one operation, and its completion calls every one of them, in order, with the same result.
   */
  lemma Coalesced<K, V>(s: State<K, V>, url: K, hs: seq<HandlerId>, response: Response, decode: Bytes -> Option<V>)
    requires url !in s.cache && url !in s.loading && hs != []
    ensures var loaded := LoadAll(s, url, false, hs);
      && loaded.submitted == s.submitted + [url]
      && Complete(loaded, url, response, decode).delivered
         == s.delivered + Deliveries(hs, Classify(response, decode, InvalidValueData), url)
  {
    var s1 := LoadValue(s, url, false, hs[0]);
    LoadAllWhileInFlight(s1, url, false, hs[1..]);
    var loaded := LoadAll(s, url, false, hs);
    assert [hs[0]] + hs[1..] == hs;
    assert Handlers(loaded, url) == hs;
    CompletionOutcome(loaded, url, response, decode);
  }

  /** Keeping only the latest handler, requests by `hs` submit one operation and only the last one is called. */
  lemma LatestHandlerOnly<K, V>(s: State<K, V>, url: K, hs: seq<HandlerId>, response: Response, decode: Bytes -> Option<V>)
    requires url !in s.cache && url !in s.loading && hs != []
    ensures var loaded := LoadAll(s, url, true, hs);
      && loaded.submitted == s.submitted + [url]
      && Complete(loaded, url, response, decode).delivered
         == s.delivered + [Delivery(Last(hs), Classify(response, decode, InvalidValueData), url)]
  {
    var s1 := LoadValue(s, url, true, hs[0]);
    LoadAllWhileInFlight(s1, url, true, hs[1..]);
    var loaded := LoadAll(s, url, true, hs);
    if hs[1..] != [] {
      assert Last(hs[1..]) == Last(hs);
    }
    assert Handlers(loaded, url) == [Last(hs)];
    CompletionOutcome(loaded, url, response, decode);
  }

  // ----- a handler that asks again from a failure callback -----

  /**
   * `h` waits only on `url`, and nothing can ever deliver to it there: the key is not loading and no
   * operation for it is outstanding.
   */
  ghost predicate Orphaned<K(!new), V>(s: State<K, V>, url: K, h: HandlerId)
  {
    forall k :: k in s.pending && h in s.pending[k] ==> k == url && k !in s.loading && s.outstanding[k] == 0
  }

  /** `t` extends `s`'s delivery log without calling `h`. */
  ghost predicate ExtendsWithout<K, V>(s: State<K, V>, t: State<K, V>, h: HandlerId)
  {
    && |s.delivered| <= |t.delivered| && t.delivered[..|s.delivered|] == s.delivered
    && forall i :: |s.delivered| <= i < |t.delivered| ==> t.delivered[i].handler != h
  }

  lemma NotifyWithout<K, V>(s: State<K, V>, hs: seq<HandlerId>, r: Result<V, Error>, url: K, h: HandlerId)
    requires h !in hs
    ensures ExtendsWithout(s, Notify(s, hs, r, url), h)
  {
    var t := Notify(s, hs, r, url);
    assert t.delivered[..|s.delivered|] == s.delivered;
    forall i | |s.delivered| <= i < |t.delivered|
      ensures t.delivered[i].handler != h
    {
      assert t.delivered[i] == Deliveries(hs, r, url)[i - |s.delivered|];
      assert hs[i - |s.delivered|] in hs;
    }
  }

  /** A request by another handler keeps a handler orphaned and does not call it. */
  lemma RequestKeepsOrphaned<K(!new), V>(s: State<K, V>, url: K, h: HandlerId, k: K, keep: bool, h': HandlerId)
    requires Orphaned(s, url, h) && h' != h
    ensures Orphaned(LoadValue(s, k, keep, h'), url, h)
    ensures ExtendsWithout(s, LoadValue(s, k, keep, h'), h)
  {
    if k !in s.cache && k in s.loading {
      assert h !in Handlers(s, k);
    }
    assert LoadValue(s, k, keep, h').delivered[..|s.delivered|] == s.delivered;
  }

  /** The completion of an outstanding operation keeps a handler orphaned and does not call it. */
  lemma CompletionKeepsOrphaned<K(!new), V>(s: State<K, V>, url: K, h: HandlerId, k: K, response: Response,
                                            decode: Bytes -> Option<V>)
    requires Orphaned(s, url, h) && k in s.outstanding
    ensures Orphaned(Complete(s, k, response, decode), url, h)
    ensures ExtendsWithout(s, Complete(s, k, response, decode), h)
  {
    assert h !in Handlers(s, k);
    var r := Classify(response, decode, InvalidValueData);
    var stored := StoreResult(Consume(s, k), k, r);
    assert Handlers(stored, k) == Handlers(s, k);
    CompletionOutcome(s, k, response, decode);
    NotifyWithout(Detach(stored, k), Handlers(s, k), r, k, h);
  }

  lemma StepKeepsOrphaned<K(!new), V>(s: State<K, V>, url: K, h: HandlerId, e: Event<K, V>, decode: Bytes -> Option<V>)
    requires Orphaned(s, url, h)
    requires !(e.Request? && e.handler == h)
    ensures Orphaned(Step(s, e, decode), url, h)
    ensures ExtendsWithout(s, Step(s, e, decode), h)
  {
    var t := Step(s, e, decode);
    match e
    case Request(k, keep, h') =>
      RequestKeepsOrphaned(s, url, h, k, keep, h');
    case Completion(k, response) =>
      if k in s.outstanding {
        CompletionKeepsOrphaned(s, url, h, k, response, decode);
      } else {
        assert t == s;
      }
    case DropHandlers(k, keep) =>
      if k in s.pending && |s.pending[k]| > 0 && keep {
        assert s.pending[k][|s.pending[k]| - 1] in s.pending[k];
      }
      assert t.delivered == s.delivered;
    case ClearCache =>
      assert t.delivered == s.delivered;
    case CancelEverything =>
      assert t.delivered == s.delivered;
    case Reconfig(cache) =>
      assert t.delivered == s.delivered;
  }

  /** An orphaned handler is never called, whatever requests, completions and cancellations follow. */
  lemma {:induction false} OrphanNeverCalled<K(!new), V>(s: State<K, V>, url: K, h: HandlerId, events: seq<Event<K, V>>,
                                                         decode: Bytes -> Option<V>)
    requires Orphaned(s, url, h)
    requires forall i :: 0 <= i < |events| ==> !(events[i].Request? && events[i].handler == h)
    ensures ExtendsWithout(s, Run(s, events, decode), h)
    decreases |events|
  {
    if events == [] {
      assert s.delivered[..|s.delivered|] == s.delivered;
    } else {
      var s1 := Step(s, events[0], decode);
      StepKeepsOrphaned(s, url, h, events[0], decode);
      OrphanNeverCalled(s1, url, h, events[1..], decode);
      var t := Run(s, events, decode);
      assert t == Run(s1, events[1..], decode);
      assert t.delivered[..|s.delivered|] == t.delivered[..|s1.delivered|][..|s.delivered|];
    }
  }

  /**
   * `handleResult` clears the handlers before running them but the in-flight mark only after. A handler
   * `h1` that, on a failed fetch, asks for the same key again with `h2` is appended to a fresh list
   * without a new fetch; when `handleResult` then clears the mark, `h2` is left orphaned: by
   * `OrphanNeverCalled` it is never called.
   */
  lemma RetryAfterFailureIsOrphaned<K(!new), V>(s: State<K, V>, url: K, h1: HandlerId, h2: HandlerId,
                                                response: Response, decode: Bytes -> Option<V>)
    requires url !in s.cache && url !in s.loading && SingleFlight(s)
    requires Classify(response, decode, InvalidValueData).Failure?
    requires forall k :: k in s.pending ==> h2 !in s.pending[k]
    ensures var r := Classify(response, decode, InvalidValueData);
      var started := LoadValue(s, url, false, h1);
      var stored := StoreResult(Consume(started, url), url, r);
      var running := Detach(stored, url);
      var retried := LoadValue(Notify(running, [h1], r, url), url, false, h2);
      var settled := Settle(retried, url);
      && HandleResult(stored, r, url) == Settle(Notify(running, [h1], r, url), url)
      && retried.submitted == started.submitted
      && settled.pending[url] == [h2] && url !in settled.loading && settled.outstanding[url] == 0
      && Orphaned(settled, url, h2)
  {
    AtMostOneOutstanding(s, url);
  }

  // ----- completions are matched by key only -----

  /**
   * After `cancelAll`, a new request for the key submits a second operation while the first is still
   * outstanding; the first one's completion then calls the new request's handler and clears the key's
   * in-flight mark, so a third request fetches again beside the second.
   */
  lemma StaleCompletionAfterCancelAll<K, V>(s: State<K, V>, url: K, h1: HandlerId, h2: HandlerId, h3: HandlerId,
                                            response: Response, decode: Bytes -> Option<V>)
    requires url !in s.cache && url !in s.loading && SingleFlight(s)
    ensures var r := Classify(response, decode, InvalidValueData);
      var first := LoadValue(s, url, false, h1);
      var second := LoadValue(CancelAll(first), url, false, h2);
      var stale := Complete(second, url, response, decode);
      && second.submitted == s.submitted + [url, url]
      && second.outstanding[url] == 2
      && stale.delivered == s.delivered + [Delivery(h2, r, url)]
      && url !in stale.loading && stale.outstanding[url] == 1
      && !SingleFlight(stale)
      && (r.Failure? ==> LoadValue(stale, url, false, h3).outstanding[url] == 2)
  {
    AtMostOneOutstanding(s, url);
    var second := LoadValue(CancelAll(LoadValue(s, url, false, h1)), url, false, h2);
    CompletionOutcome(second, url, response, decode);
    var stale := Complete(second, url, response, decode);
    assert multiset(stale.loading)[url] == 0;
  }
}
