/** The two-tier search cache the pages share (src/contexts/SearchCacheContext.tsx): an
    in-memory LRU cache in front of the `localStorage` mirror. Reads try memory first and
    backfill it from storage; writes and clears go to both tiers. */
module SearchCache {
  import opened Wrappers
  import opened LruCache
  import opened Storage

  datatype Source = Memory | FromStorage

  /** `CacheMetadata`: where a hit came from and how old it is, in milliseconds. */
  datatype Metadata = Metadata(fromCache: bool, age: Option<int>, source: Source)

  datatype CacheHit<D> = CacheHit(data: D, metadata: Metadata)

  /** The provider's state: the LRU cache held in its ref, the page's storage and the time
      to live both tiers are read with. */
  class SearchCacheProvider<D> {
    const memory: LRUCache<D>
    const storage: LocalStorage
    const json: Json<D>
    const ttl: int

    ghost predicate Valid()
      reads this, memory
    {
      memory.Valid() && memory.ttl == ttl
    }

    /** `SearchCacheProvider({ttl = DEFAULT_TTL})` over an existing store. */
    constructor(storage: LocalStorage, json: Json<D>, ttl: Option<int>)
      ensures Valid() && fresh(memory)
      ensures memory.cache == OrderedMap([], map[]) && memory.maxSize == DEFAULT_MAX_SIZE
      ensures this.ttl == ttl.GetOr(DEFAULT_TTL)
      ensures this.storage == storage && this.json == json
    {
      var t := ttl.GetOr(DEFAULT_TTL);
      memory := new LRUCache(CacheOptions(None, Some(t)));
      this.storage := storage;
      this.json := json;
      this.ttl := t;
    }

    /** `getCached(key)`, with one clock reading `now` for the whole call. */
    method GetCached(key: string, now: int) returns (r: Option<CacheHit<D>>)
      requires Valid()
      modifies memory, storage
      ensures Valid()
      ensures Live(old(memory.cache), key, now, ttl) ==>
        && r == Some(CacheHit(old(memory.cache).entries[key].value,
                              Metadata(true, Some(now - old(memory.cache).entries[key].timestamp), Memory)))
        && memory.cache == AfterGet(old(memory.cache), key, now, ttl)
        && storage.items == old(storage.items)
      ensures !Live(old(memory.cache), key, now, ttl) ==>
        var loaded := Load(old(storage.items), json, key, now, ttl);
        var missed := AfterGet(old(memory.cache), key, now, ttl);
        && storage.items == loaded.items
        && (loaded.value.None? ==> r == None && memory.cache == missed)
        && (loaded.value.Some? ==>
             var t := StorageTimestamp(loaded.items, json, key);
             && r == Some(CacheHit(loaded.value.value,
                                   Metadata(true, if t.Some? && t.value != 0 then Some(now - t.value) else None, FromStorage)))
             && memory.cache == AfterSet(missed, key, loaded.value.value, now, memory.maxSize))
    {
      var memoryValue := memory.Get(key, now);
      if memoryValue.Some? {
        return Some(CacheHit(memoryValue.value, Metadata(true, memory.GetAge(key, now), Memory)));
      }
      var storageValue := LoadFromStorage(storage, json, key, now, ttl);
      if storageValue.Some? {
        memory.Set(key, storageValue.value, now);
        var timestamp := StorageTimestamp(storage.items, json, key);
        var age := if timestamp.Some? && timestamp.value != 0 then Some(now - timestamp.value) else None;
        return Some(CacheHit(storageValue.value, Metadata(true, age, FromStorage)));
      }
      r := None;
    }

    /** `setCached(key, value)`: the same value into both tiers. */
    method SetCached(key: string, value: D, now: int, writeSucceeds: bool)
      requires Valid()
      modifies memory, storage
      ensures Valid()
      ensures memory.cache == AfterSet(old(memory.cache), key, value, now, memory.maxSize)
      ensures storage.items == Saved(old(storage.items), json, key, value, now, writeSucceeds)
    {
      memory.Set(key, value, now);
      SaveToStorage(storage, json, key, value, now, writeSucceeds);
    }

    /** `clearCache()`: memory emptied, every cache key removed from storage. */
    method ClearCache()
      requires Valid()
      modifies memory, storage
      ensures Valid()
      ensures memory.cache == OrderedMap([], map[])
      ensures storage.items == old(storage.items) - CacheKeys(old(storage.items))
    {
      memory.Clear();
      ClearAllStorage(storage);
    }

    /** `getCacheAge(key)`: the memory age of a live entry, else the age of whatever entry
        storage holds, whatever its version and however old. */
    function GetCacheAge(key: string, now: int): (age: Option<int>)
      reads this, memory, storage
      requires Valid()
      ensures Live(memory.cache, key, now, ttl) ==> age == Some(now - memory.cache.entries[key].timestamp)
      ensures !Live(memory.cache, key, now, ttl) ==>
        (age.Some? <==> StorageTimestamp(storage.items, json, key).Some?)
      ensures !Live(memory.cache, key, now, ttl) && age.Some? ==>
        age.value == now - StorageTimestamp(storage.items, json, key).value
    {
      var memoryAge := memory.GetAge(key, now);
      if memoryAge.Some? then memoryAge
      else
        var timestamp := StorageTimestamp(storage.items, json, key);
        if timestamp.Some? then Some(now - timestamp.value) else None
    }
  }

  /** A value just written reads back from memory, zero milliseconds old, while storage holds
      its mirror. */
  method SetThenGetHitsMemory<D(!new)>(initial: map<string, string>, json: Json<D>, ttl: int, key: string, value: D, now: int)
    returns (r: Option<CacheHit<D>>, items: map<string, string>)
    requires ttl >= 0
    ensures r == Some(CacheHit(value, Metadata(true, Some(0), Memory)))
    ensures items == Saved(initial, json, key, value, now, true)
  {
    var storage := new LocalStorage(initial);
    var provider := new SearchCacheProvider(storage, json, Some(ttl));
    provider.SetCached(key, value, now, true);
    SetKeepsCapacity(OrderedMap([], map[]), key, value, now, DEFAULT_MAX_SIZE);
    r := provider.GetCached(key, now);
    items := storage.items;
  }

  /** A storage hit fills memory: the next read of the same key, at the same time, is a
      memory hit with the same value. */
  method StorageHitIsBackfilled<D(!new)>(initial: map<string, string>, json: Json<D>, ttl: int, key: string, value: D, saved: int, now: int)
    returns (first: Option<CacheHit<D>>, second: Option<CacheHit<D>>)
    requires RoundTrips(json) && saved <= now && now - saved <= ttl
    ensures first.Some? && first.value.data == value && first.value.metadata.source == FromStorage
    ensures second.Some? && second.value.data == value && second.value.metadata.source == Memory
  {
    var storage := new LocalStorage(Saved(initial, json, key, value, saved, true));
    var provider := new SearchCacheProvider(storage, json, Some(ttl));
    SaveLoadRoundTrip(initial, json, key, value, saved, now, ttl);
    first := provider.GetCached(key, now);
    SetKeepsCapacity(OrderedMap([], map[]), key, value, now, DEFAULT_MAX_SIZE);
    second := provider.GetCached(key, now);
  }
}
