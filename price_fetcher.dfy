/** Historical price lookup with a cache and two fallback providers
    (src/utils/price_fetcher.py). The HTTP providers are modelled as functions from a
    token and a UTC day index to a price, None standing for a raised exception. The
    cache is keyed by the raw timestamp, not by the day the providers are asked for. */
module PriceFetching {
  import opened Wrappers
  import opened Cache

  /** A price provider: `fetch_price(token_symbol, date)` with the date as a UTC day index. */
  type PriceSource = (string, int) -> Option<real>

  datatype Provider = CoinGecko | CoinMarketCap

  /** One request sent to a provider. */
  datatype ProviderCall = ProviderCall(provider: Provider, token: string, day: int)

  /** `datetime.utcfromtimestamp(timestamp)` truncated to its calendar day, as days since
      1970-01-01: the floor of the timestamp divided by 86400. */
  function UtcDay(timestamp: int): (day: int)
    ensures day * 86400 <= timestamp < (day + 1) * 86400
  {
    timestamp / 86400
  }

  /** What one call does: its result, the cache afterwards and the provider requests made. */
  datatype Fetch = Fetch(result: Result<real>, cache: map<CacheKey, real>, calls: seq<ProviderCall>)

  /** `fetch_historical_price` as a state transition of the cache: a hit returns the cached
      price; a miss asks CoinGecko, then on failure CoinMarketCap, for the timestamp's UTC
      day, and stores the first price obtained. When both fail the exception escapes
      before the store. */
  function Resolve(cache: map<CacheKey, real>, coinGecko: PriceSource, coinMarketCap: PriceSource,
                   token: string, timestamp: int): (f: Fetch)
    ensures f.result.Err? ==> f.result.error == ProviderError
    ensures |f.calls| <= 2
  {
    var key := (timestamp, token);
    if key in cache then
      Fetch(Ok(cache[key]), cache, [])
    else
      var day := UtcDay(timestamp);
      var first := ProviderCall(CoinGecko, token, day);
      match coinGecko(token, day)
      case Some(p) => Fetch(Ok(p), cache[key := p], [first])
      case None =>
        var second := ProviderCall(CoinMarketCap, token, day);
        match coinMarketCap(token, day)
        case Some(q) => Fetch(Ok(q), cache[key := q], [first, second])
        case None => Fetch(Err(ProviderError), cache, [first, second])
  }

  /** The two providers in their fixed order, without any cache. */
  function ProviderChain(coinGecko: PriceSource, coinMarketCap: PriceSource, token: string, day: int): (p: Option<real>)
    ensures coinGecko(token, day).Some? ==> p == coinGecko(token, day)
    ensures coinGecko(token, day).None? ==> p == coinMarketCap(token, day)
  {
    if coinGecko(token, day).Some? then coinGecko(token, day) else coinMarketCap(token, day)
  }

  function ToResult(p: Option<real>): Result<real> {
    match p
    case Some(v) => Ok(v)
    case None => Err(ProviderError)
  }

  /** On a hit the cached price comes back, no provider is asked and the cache is untouched. */
  lemma CacheHit(cache: map<CacheKey, real>, coinGecko: PriceSource, coinMarketCap: PriceSource,
                 token: string, timestamp: int)
    requires (timestamp, token) in cache
    ensures Resolve(cache, coinGecko, coinMarketCap, token, timestamp)
         == Fetch(Ok(cache[(timestamp, token)]), cache, [])
  {
  }

  /** On a miss the primary provider is asked first, for the timestamp's UTC day; when it
      answers, its price is returned and the secondary is never asked. */
  lemma PrimaryFirst(cache: map<CacheKey, real>, coinGecko: PriceSource, coinMarketCap: PriceSource,
                     token: string, timestamp: int)
    requires (timestamp, token) !in cache
    ensures var f := Resolve(cache, coinGecko, coinMarketCap, token, timestamp);
      && |f.calls| >= 1
      && f.calls[0] == ProviderCall(CoinGecko, token, UtcDay(timestamp))
      && (coinGecko(token, UtcDay(timestamp)).Some? ==>
            f.calls == [ProviderCall(CoinGecko, token, UtcDay(timestamp))]
            && f.result == Ok(coinGecko(token, UtcDay(timestamp)).value))
  {
  }

  /** When the primary fails the secondary is asked for the same token and day, and its
      answer decides the call. */
  lemma Fallback(cache: map<CacheKey, real>, coinGecko: PriceSource, coinMarketCap: PriceSource,
                 token: string, timestamp: int)
    requires (timestamp, token) !in cache
    requires coinGecko(token, UtcDay(timestamp)).None?
    ensures var f := Resolve(cache, coinGecko, coinMarketCap, token, timestamp);
      && f.calls == [ProviderCall(CoinGecko, token, UtcDay(timestamp)),
                     ProviderCall(CoinMarketCap, token, UtcDay(timestamp))]
      && f.result == ToResult(coinMarketCap(token, UtcDay(timestamp)))
  {
  }

  /** A failure is never cached: when the call fails the cache is exactly as before. */
  lemma FailureNotCached(cache: map<CacheKey, real>, coinGecko: PriceSource, coinMarketCap: PriceSource,
                         token: string, timestamp: int)
    ensures var f := Resolve(cache, coinGecko, coinMarketCap, token, timestamp);
      f.result.Err? <==> ((timestamp, token) !in cache
                          && coinGecko(token, UtcDay(timestamp)).None?
                          && coinMarketCap(token, UtcDay(timestamp)).None?)
    ensures var f := Resolve(cache, coinGecko, coinMarketCap, token, timestamp);
      f.result.Err? ==> f.cache == cache
  {
  }

  /** After a success the cache maps (timestamp, token) to the returned price and every
      other slot is unchanged. */
  lemma SuccessCached(cache: map<CacheKey, real>, coinGecko: PriceSource, coinMarketCap: PriceSource,
                      token: string, timestamp: int)
    ensures var f := Resolve(cache, coinGecko, coinMarketCap, token, timestamp);
      f.result.Ok? ==> f.cache == cache[(timestamp, token) := f.result.value]
  {
  }

  /** Every provider request carries the caller's token and the timestamp's UTC day. */
  lemma CallsUseSameDay(cache: map<CacheKey, real>, coinGecko: PriceSource, coinMarketCap: PriceSource,
                        token: string, timestamp: int)
    ensures var f := Resolve(cache, coinGecko, coinMarketCap, token, timestamp);
      forall i :: 0 <= i < |f.calls| ==> f.calls[i].token == token && f.calls[i].day == UtcDay(timestamp)
  {
  }

  /** Repeating a successful call with the same (token, timestamp) asks no provider and
      gives the same price. */
  lemma RepeatHits(cache: map<CacheKey, real>, coinGecko: PriceSource, coinMarketCap: PriceSource,
                   token: string, timestamp: int)
    ensures var f := Resolve(cache, coinGecko, coinMarketCap, token, timestamp);
      f.result.Ok? ==>
        Resolve(f.cache, coinGecko, coinMarketCap, token, timestamp) == Fetch(f.result, f.cache, [])
  {
  }

  /** Two different timestamps of the same UTC day use different slots: after caching the
      first, a lookup of the second still goes to the providers, for the same day. */
  lemma SameDayDifferentSlots(cache: map<CacheKey, real>, coinGecko: PriceSource, coinMarketCap: PriceSource,
                              token: string, t1: int, t2: int)
    requires t1 != t2 && UtcDay(t1) == UtcDay(t2)
    requires (t2, token) !in cache
    ensures var f1 := Resolve(cache, coinGecko, coinMarketCap, token, t1);
      var f2 := Resolve(f1.cache, coinGecko, coinMarketCap, token, t2);
      |f2.calls| >= 1 && f2.calls[0] == ProviderCall(CoinGecko, token, UtcDay(t1))
  {
  }

  /** The cache agrees with what the providers would answer, for every stored slot. */
  ghost predicate Consistent(cache: map<CacheKey, real>, coinGecko: PriceSource, coinMarketCap: PriceSource)
  {
    forall key :: key in cache ==> ProviderChain(coinGecko, coinMarketCap, key.1, UtcDay(key.0)) == Some(cache[key])
  }

  /** With providers that answer the same way each time they are asked, the cache is
      transparent: a cache filled only by this function keeps agreeing with the providers,
      and every call returns what the provider chain gives for the timestamp's day. */
  lemma CacheTransparent(cache: map<CacheKey, real>, coinGecko: PriceSource, coinMarketCap: PriceSource,
                         token: string, timestamp: int)
    requires Consistent(cache, coinGecko, coinMarketCap)
    ensures var f := Resolve(cache, coinGecko, coinMarketCap, token, timestamp);
      && f.result == ToResult(ProviderChain(coinGecko, coinMarketCap, token, UtcDay(timestamp)))
      && Consistent(f.cache, coinGecko, coinMarketCap)
  {
    var f := Resolve(cache, coinGecko, coinMarketCap, token, timestamp);
    var key := (timestamp, token);
    if key in cache {
      assert ProviderChain(coinGecko, coinMarketCap, key.1, UtcDay(key.0)) == Some(cache[key]);
    } else if f.result.Ok? {
      forall k | k in f.cache
        ensures ProviderChain(coinGecko, coinMarketCap, k.1, UtcDay(k.0)) == Some(f.cache[k])
      {
        if k != key {
          assert k in cache;
        }
      }
    }
  }

  /** The price resolver: the module-global cache manager together with the two providers
      the source names, and a ghost log of every provider request made so far. */
  class PriceFetcher {
    const cacheManager: CacheManager
    const coinGecko: PriceSource
    const coinMarketCap: PriceSource
    ghost var log: seq<ProviderCall>

    constructor (coinGecko: PriceSource, coinMarketCap: PriceSource)
      ensures fresh(cacheManager) && cacheManager.cache == map[]
      ensures this.coinGecko == coinGecko && this.coinMarketCap == coinMarketCap
      ensures log == []
    {
      this.cacheManager := new CacheManager();
      this.coinGecko := coinGecko;
      this.coinMarketCap := coinMarketCap;
      log := [];
    }

    /** `fetch_historical_price(token_symbol, timestamp)`. */
    method FetchHistoricalPrice(token: string, timestamp: int) returns (r: Result<real>)
      modifies this, cacheManager
      ensures var f := Resolve(old(cacheManager.cache), coinGecko, coinMarketCap, token, timestamp);
        r == f.result && cacheManager.cache == f.cache && log == old(log) + f.calls
    {
      var cached := cacheManager.GetCachedPrice(timestamp, token);
      if cached.Some? {
        return Ok(cached.value);
      }
      var day := UtcDay(timestamp);
      var price := coinGecko(token, day);
      log := log + [ProviderCall(CoinGecko, token, day)];
      if price.None? {
        price := coinMarketCap(token, day);
        log := log + [ProviderCall(CoinMarketCap, token, day)];
        if price.None? {
          return Err(ProviderError);
        }
      }
      cacheManager.StorePrice(timestamp, token, price.value);
      r := Ok(price.value);
    }
  }

  /** Two calls for the same token and timestamp: when the first succeeds the second
      returns the same price with no further provider request. */
  method FetchTwice(fetcher: PriceFetcher, token: string, timestamp: int) returns (first: Result<real>, second: Result<real>)
    modifies fetcher, fetcher.cacheManager
    ensures var f := Resolve(old(fetcher.cacheManager.cache), fetcher.coinGecko, fetcher.coinMarketCap, token, timestamp);
      first == f.result && (first.Ok? ==> second == first && fetcher.log == old(fetcher.log) + f.calls)
  {
    first := fetcher.FetchHistoricalPrice(token, timestamp);
    ghost var logged := fetcher.log;
    second := fetcher.FetchHistoricalPrice(token, timestamp);
    assert first.Ok? ==> fetcher.log == logged;
  }
}
