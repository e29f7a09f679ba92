/** The in-memory price cache (src/utils/cache_manager.py): a dictionary keyed by the
    pair (unix timestamp, token symbol), with no eviction and last-write-wins stores. */
module Cache {
  import opened Wrappers

  /** `(timestamp, token)`, in the order the source builds the tuple. */
  type CacheKey = (int, string)

  class CacheManager {
    var cache: map<CacheKey, real>

    constructor ()
      ensures cache == map[]
    {
      cache := map[];
    }

    /** `self.cache.get((timestamp, token))`: the stored price, or None. Reads only. */
    method GetCachedPrice(timestamp: int, token: string) returns (price: Option<real>)
      ensures price.Some? <==> (timestamp, token) in cache
      ensures price.Some? ==> price.value == cache[(timestamp, token)]
    {
      var key := (timestamp, token);
      if key in cache {
        price := Some(cache[key]);
      } else {
        price := None;
      }
    }

    /** `self.cache[(timestamp, token)] = price`: overwrites that slot and no other. */
    method StorePrice(timestamp: int, token: string, price: real)
      modifies this
      ensures cache == old(cache)[(timestamp, token) := price]
      ensures (timestamp, token) in cache && cache[(timestamp, token)] == price
      ensures forall t: int, k: string :: (t, k) != (timestamp, token) ==>
        ((t, k) in cache <==> (t, k) in old(cache)) &&
        ((t, k) in cache ==> cache[(t, k)] == old(cache)[(t, k)])
    {
      cache := cache[(timestamp, token) := price];
    }
  }

  /** A fresh manager answers None for every key; after a store it answers the stored
      price; a later store under the same key wins; and the same timestamp under two
      tokens names two independent slots. */
  method CacheScenario(t: int, a: string, b: string, p: real, q: real)
    returns (empty: Option<real>, stored: Option<real>, otherToken: Option<real>,
             overwritten: Option<real>, independent: Option<real>)
    requires a != b
    ensures empty == None
    ensures stored == Some(p)
    ensures otherToken == None
    ensures overwritten == Some(p)
    ensures independent == Some(q)
  {
    var m := new CacheManager();
    empty := m.GetCachedPrice(t, a);
    m.StorePrice(t, a, p);
    stored := m.GetCachedPrice(t, a);
    otherToken := m.GetCachedPrice(t, b);
    m.StorePrice(t, b, q);
    m.StorePrice(t, a, q);
    m.StorePrice(t, a, p);
    overwritten := m.GetCachedPrice(t, a);
    independent := m.GetCachedPrice(t, b);
  }
}
