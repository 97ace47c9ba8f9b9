/** The search results cache: a dictionary from search key to an entry that records whether it has loaded. */
module SearchCache {
  import opened Wrappers

  datatype CacheEntry = CacheEntry(loaded: bool)

  /** The distinguished key under which the unfiltered results are cached. */
  const AllResultsKey: string := "COMMONWEALTH_ALL_RESULTS"

  /** Page size of a search; it must match the limit of the database query. */
  const SearchPageSize: nat := 50

  lemma SearchPageSizeIsFifty()
    ensures SearchPageSize == 50
  {
  }

  /** `cache` with `key` (re)set to a not-yet-loaded entry. */
  function WithFreshEntry(cache: map<string, CacheEntry>, key: string): (c: map<string, CacheEntry>)
    ensures key in c && !c[key].loaded
    ensures forall k :: k != key ==> (k in c <==> k in cache)
    ensures forall k :: k != key && k in cache ==> c[k] == cache[k]
  {
    cache[key := CacheEntry(false)]
  }

  /** Re-initialising a key gives the same cache as initialising it once. */
  lemma WithFreshEntryIdempotent(cache: map<string, CacheEntry>, key: string)
    ensures WithFreshEntry(WithFreshEntry(cache, key), key) == WithFreshEntry(cache, key)
  {
  }

  /** An existing entry for the key is overwritten, whatever it held. */
  lemma WithFreshEntryOverwrites(cache: map<string, CacheEntry>, key: string, e: CacheEntry)
    ensures WithFreshEntry(cache[key := e], key) == WithFreshEntry(cache, key)
  {
  }

  class SearchCacheController {
    var cache: map<string, CacheEntry>

    constructor ()
      ensures cache == map[]
    {
      cache := map[];
    }

    function GetKey(key: string): (r: Option<CacheEntry>)
      reads this
      ensures r.Some? <==> key in cache
      ensures r.Some? ==> r.value == cache[key]
    {
      if key in cache then Some(cache[key]) else None
    }

    /** The entry for the distinguished all-results key. */
    function AllResults(): (r: Option<CacheEntry>)
      reads this
      ensures r == GetKey(AllResultsKey)
    {
      if AllResultsKey in cache then Some(cache[AllResultsKey]) else None
    }

    method InitKey(key: string)
      modifies this
      ensures cache == WithFreshEntry(old(cache), key)
    {
      cache := cache[key := CacheEntry(false)];
    }

    method ResetAllResults()
      modifies this
      ensures cache == WithFreshEntry(old(cache), AllResultsKey)
    {
      cache := cache[AllResultsKey := CacheEntry(false)];
    }
  }

  /** On a fresh controller no key is present; after InitKey the key reads back as not loaded and the others stay absent. */
  method InitThenGet(key: string, other: string) returns (c: SearchCacheController)
    requires other != key
    ensures fresh(c)
    ensures c.GetKey(key) == Some(CacheEntry(false))
    ensures c.GetKey(other).None?
  {
    c := new SearchCacheController();
    assert c.GetKey(other).None?;
    c.InitKey(key);
  }
}
