/** `ImageCache`: the image-specific front of the loader, with its cache key and its configuration. */
module ImageCaching {
  import opened Basics
  import opened Transport
  import opened Operations
  import opened LoaderModel
  import CacheLoading

  // ----- cache keys -----

  /**
   * `key(from:preferredSize:)`: the URL's `absoluteString`, joined by "_" with the description of the
   * preferred size when there is one.
   */
  function Key(url: string, preferredSize: Option<string>): (key: string)
    ensures preferredSize.None? ==> key == url
    ensures preferredSize.Some? ==> key == url + "_" + preferredSize.value
  {
    CompactMapPair(Some(url), preferredSize);
    JoinedShort(url, if preferredSize.Some? then preferredSize.value else "", "_");
    Joined(CompactMap([Some(url), preferredSize]), "_")
  }

  /** For one URL, different sizes give different keys. */
  lemma SizedKeysDiffer(url: string, size1: string, size2: string)
    requires size1 != size2
    ensures Key(url, Some(size1)) != Key(url, Some(size2))
  {
    var k1, k2 := Key(url, Some(size1)), Key(url, Some(size2));
    assert k1[|url| + 1..] == size1;
    assert k2[|url| + 1..] == size2;
  }

  /** For one URL, the key without a size is none of the sized keys. */
  lemma UnsizedKeyDiffers(url: string, size: string)
    ensures Key(url, None) != Key(url, Some(size))
  {
    assert |Key(url, Some(size))| == |url| + 1 + |size|;
  }

  // ----- configuration -----

  /** The configuration of the external memory cache, `Cache<String, UIImage>.Config`. */
  datatype StoreConfig = StoreConfig(countLimit: int, memoryLimit: int, showLog: bool)

  const DefaultMaxConcurrentCount: int := 6

  datatype Config = Config(countLimit: int, memoryLimit: int, showLog: bool, maxConcurrentCount: int) {
    /** `cacheConfig`. */
    function CacheConfig(): (c: StoreConfig)
      ensures c.countLimit == countLimit && c.memoryLimit == memoryLimit && c.showLog == showLog
    {
      StoreConfig(countLimit, memoryLimit, showLog)
    }
  }

  /** `Config.init(countLimit:memoryLimit:showLog:maxConcurrentCount:)` as written: the last argument is dropped. */
  function ConfigInit(countLimit: int, memoryLimit: int, showLog: bool, maxConcurrentCount: int): (c: Config)
    ensures c.countLimit == countLimit && c.memoryLimit == memoryLimit && c.showLog == showLog
    ensures c.maxConcurrentCount == DefaultMaxConcurrentCount
  {
    Config(countLimit, memoryLimit, showLog, DefaultMaxConcurrentCount)
  }

  /** The configuration the test suite's set-up asks for gets a width of 6, not the 5 it passes. */
  lemma ConfigInitDropsWidth()
    ensures ConfigInit(100, 100 * 1024 * 1024, false, 5).maxConcurrentCount == DefaultMaxConcurrentCount == 6
  {
  }

  /** `Config.init` as evidently intended: every argument is stored. */
  function ConfigInitIntended(countLimit: int, memoryLimit: int, showLog: bool, maxConcurrentCount: int): (c: Config)
    ensures c.countLimit == countLimit && c.memoryLimit == memoryLimit && c.showLog == showLog
    ensures c.maxConcurrentCount == maxConcurrentCount
  {
    Config(countLimit, memoryLimit, showLog, maxConcurrentCount)
  }

  /** The cache configuration built from either initialiser carries exactly the three limits given. */
  lemma CacheConfigForwards(countLimit: int, memoryLimit: int, showLog: bool, maxConcurrentCount: int)
    ensures ConfigInit(countLimit, memoryLimit, showLog, maxConcurrentCount).CacheConfig()
         == StoreConfig(countLimit, memoryLimit, showLog)
    ensures ConfigInitIntended(countLimit, memoryLimit, showLog, maxConcurrentCount).CacheConfig()
         == StoreConfig(countLimit, memoryLimit, showLog)
  {
  }

  // ----- results -----

  /** The completion `loadImage` hands the loader: it passes the result and the result URL on unchanged. */
  function Forward<Img>(result: Result<Img, Error>, resultUrl: string): (passed: (Result<Img, Error>, string))
    ensures passed == (result, resultUrl)
  {
    match result
    case Success(value) => (Success(value), resultUrl)
    case Failure(error) => (Failure(error), resultUrl)
  }

  // ----- the front object -----

  class ImageCache<Img> {
    const loader: CacheLoading.CacheLoader<string, Img>
    /** Fixed at construction; `setup(config:)` does not replace it. */
    const config: Config

    /** `init(config:)`: a new empty cache and a new execute queue as wide as the configuration says. */
    constructor (config: Config, decode: Bytes -> Option<Img>)
      ensures this.config == config
      ensures fresh(loader) && fresh(loader.executeQueue)
      ensures loader.Model() == Initial(map[]) && loader.decode == decode
      ensures loader.executeQueue.maxConcurrentOperationCount == config.maxConcurrentCount
    {
      var executeQueue := new OperationQueue();
      executeQueue.maxConcurrentOperationCount := config.maxConcurrentCount;
      loader := new CacheLoading.CacheLoader(map[], executeQueue, decode);
      this.config := config;
    }

    /**
     * `setup(config:)`: reconfigure the loader with a new empty cache and a new queue as wide as
     * `config` says, after the old queue's operations were asked to cancel.
     */
    method Setup(config: Config)
      modifies loader, loader.executeQueue
      ensures fresh(loader.executeQueue)
      ensures loader.executeQueue.maxConcurrentOperationCount == config.maxConcurrentCount
      ensures loader.Model() == Reconfigure(old(loader.Model()), map[])
      ensures old(loader.executeQueue).cancelled == old(loader.executeQueue.added)
    {
      var executeQueue := new OperationQueue();
      executeQueue.maxConcurrentOperationCount := config.maxConcurrentCount;
      loader.Config(map[], executeQueue);
    }
  }
}
