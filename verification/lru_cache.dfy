/** The in-memory tier: a size-bounded cache whose entries expire after a time-to-live
    and whose least recently used entry is evicted first (class `LRUCache`). The clock
    is the explicit parameter `now`, in milliseconds. */
module LruCache {
  import opened Wrappers

  const DEFAULT_TTL: int := 30 * 60 * 1000
  const DEFAULT_MAX_SIZE: int := 100

  predicate Distinct(s: seq<string>) {
    forall i, j :: 0 <= i < j < |s| ==> s[i] != s[j]
  }

  /** The key order with one key taken out, every other key keeping its place. */
  function Without(order: seq<string>, key: string): (r: seq<string>)
    ensures forall k :: k in r <==> k in order && k != key
    ensures Distinct(order) ==> Distinct(r)
    ensures key in order ==> |r| < |order|
    ensures Distinct(order) && key in order ==> |r| == |order| - 1
    ensures key !in order ==> r == order
  {
    if order == [] then []
    else if order[0] == key then Without(order[1..], key)
    else
      var rest := Without(order[1..], key);
      assert Distinct(order) ==> order[0] !in order[1..];
      [order[0]] + rest
  }

  /** A duplicate-free key order has as many keys as the set of its keys. */
  lemma {:induction false} DistinctCardinality(s: seq<string>)
    requires Distinct(s)
    ensures |set k | k in s| == |s|
  {
    if s != [] {
      DistinctCardinality(s[1..]);
      assert (set k | k in s) == {s[0]} + (set k | k in s[1..]);
      assert s[0] !in s[1..];
    }
  }

  /** A JavaScript `Map`: its entries plus the order in which their keys were inserted,
      which is the order `keys()` yields them in. */
  datatype OrderedMap<E> = OrderedMap(keys: seq<string>, entries: map<string, E>) {

    ghost predicate Valid() {
      Distinct(keys) && forall k :: k in keys <==> k in entries
    }

    /** `Map.delete`. */
    function Delete(k: string): OrderedMap<E> {
      OrderedMap(Without(keys, k), entries - {k})
    }

    /** `Map.set`: a new key is appended; an existing key keeps its place and gets the new value. */
    function Put(k: string, e: E): OrderedMap<E> {
      OrderedMap(if k in entries then keys else keys + [k], entries[k := e])
    }

    /** `keys().next().value`: the first key in insertion order, if there is one. */
    function Oldest(): Option<string> {
      if keys == [] then None else Some(keys[0])
    }
  }

  lemma DeleteValid<E>(m: OrderedMap<E>, k: string)
    requires m.Valid()
    ensures m.Delete(k).Valid()
  {
  }

  lemma PutValid<E>(m: OrderedMap<E>, k: string, e: E)
    requires m.Valid()
    ensures m.Put(k, e).Valid()
  {
  }

  datatype Entry<V> = Entry(value: V, timestamp: int)

  /** An entry is stale once strictly more than `ttl` milliseconds have passed since it was written. */
  function IsExpired(timestamp: int, now: int, ttl: int): (b: bool)
    ensures b <==> timestamp + ttl < now
  {
    now - timestamp > ttl
  }

  /** The key holds an entry that has not expired. */
  predicate Live<V>(c: OrderedMap<Entry<V>>, key: string, now: int, ttl: int) {
    key in c.entries && !IsExpired(c.entries[key].timestamp, now, ttl)
  }

  /** The map after `get(key)`: a live key moves to the most recent position, an expired one is deleted. */
  function AfterGet<V>(c: OrderedMap<Entry<V>>, key: string, now: int, ttl: int): (g: OrderedMap<Entry<V>>)
    ensures key in g.entries <==> Live(c, key, now, ttl)
    ensures forall k :: k != key ==> (k in g.entries <==> k in c.entries)
    ensures forall k :: k in g.entries ==> k in c.entries && g.entries[k] == c.entries[k]
    ensures Live(c, key, now, ttl) ==> g.keys != [] && g.keys[|g.keys| - 1] == key
  {
    if key !in c.entries then c
    else if IsExpired(c.entries[key].timestamp, now, ttl) then c.Delete(key)
    else c.Delete(key).Put(key, c.entries[key])
  }

  /** The map after `has(key)`: an expired entry is deleted, nothing else changes. */
  function AfterHas<V>(c: OrderedMap<Entry<V>>, key: string, now: int, ttl: int): (h: OrderedMap<Entry<V>>)
    ensures key in h.entries <==> Live(c, key, now, ttl)
    ensures forall k :: k != key ==> (k in h.entries <==> k in c.entries)
    ensures forall k :: k in h.entries ==> k in c.entries && h.entries[k] == c.entries[k]
    ensures key !in c.entries || Live(c, key, now, ttl) ==> h == c
  {
    if key in c.entries && IsExpired(c.entries[key].timestamp, now, ttl) then c.Delete(key) else c
  }

  /** The eviction loop of `set`: while the map holds at least `maxSize` keys, delete the oldest. */
  function Evict<E>(c: OrderedMap<E>, maxSize: int): (e: OrderedMap<E>)
    requires maxSize >= 1
    ensures |e.keys| <= |c.keys| && |e.keys| < maxSize
    ensures forall k :: k in e.entries ==> k in c.entries && e.entries[k] == c.entries[k]
    decreases |c.keys|
  {
    if |c.keys| >= maxSize then Evict(c.Delete(c.keys[0]), maxSize) else c
  }

  /** The map after `set(key, value)` at time `now`. */
  function AfterSet<V>(c: OrderedMap<Entry<V>>, key: string, value: V, now: int, maxSize: int): (s: OrderedMap<Entry<V>>)
    requires maxSize >= 1
    ensures key in s.entries && s.entries[key] == Entry(value, now)
    ensures |s.keys| <= maxSize && s.keys != [] && s.keys[|s.keys| - 1] == key
    ensures forall k :: k in s.entries && k != key ==> k in c.entries && s.entries[k] == c.entries[k]
  {
    var removed := if key in c.entries then c.Delete(key) else c;
    Evict(removed, maxSize).Put(key, Entry(value, now))
  }

  /** Eviction takes keys from the front of the order only, and stops one short of the capacity:
      what stays is the most recently used suffix of the order, with its entries untouched. */
  lemma {:induction false} EvictTakesOldestFirst<E>(c: OrderedMap<E>, maxSize: int)
    requires c.Valid() && maxSize >= 1
    ensures var e := Evict(c, maxSize);
      && e.Valid()
      && |e.keys| == (if |c.keys| >= maxSize then maxSize - 1 else |c.keys|)
      && e.keys == c.keys[|c.keys| - |e.keys|..]
      && (forall k :: k in e.entries ==> k in c.entries && e.entries[k] == c.entries[k])
    decreases |c.keys|
  {
    if |c.keys| >= maxSize {
      var d := c.Delete(c.keys[0]);
      assert c.keys[0] !in c.keys[1..];
      assert d.keys == Without(c.keys[1..], c.keys[0]) == c.keys[1..];
      EvictTakesOldestFirst(d, maxSize);
    }
  }

  /** After `set` the cache holds at most `maxSize` keys, the written key is the most recent one,
      and it carries the new value with a fresh timestamp. */
  lemma SetKeepsCapacity<V>(c: OrderedMap<Entry<V>>, key: string, value: V, now: int, maxSize: int)
    requires c.Valid() && maxSize >= 1
    ensures var s := AfterSet(c, key, value, now, maxSize);
      && s.Valid()
      && |s.keys| <= maxSize
      && s.keys != [] && s.keys[|s.keys| - 1] == key
      && s.entries[key] == Entry(value, now)
  {
    var removed := if key in c.entries then c.Delete(key) else c;
    EvictTakesOldestFirst(removed, maxSize);
    PutValid(Evict(removed, maxSize), key, Entry(value, now));
  }

  /** `set` evicts least recently used keys first: the new order is a suffix of the old order
      (with `key` taken out), followed by `key`. */
  lemma SetEvictsLeastRecentlyUsed<V>(c: OrderedMap<Entry<V>>, key: string, value: V, now: int, maxSize: int)
    requires c.Valid() && maxSize >= 1
    ensures var rest := Without(c.keys, key);
      var kept := if |rest| >= maxSize then maxSize - 1 else |rest|;
      AfterSet(c, key, value, now, maxSize).keys == rest[|rest| - kept..] + [key]
    ensures forall k :: k in c.entries && k != key && k in AfterSet(c, key, value, now, maxSize).entries ==>
      AfterSet(c, key, value, now, maxSize).entries[k] == c.entries[k]
  {
    SetKeepsSuffix(c, key, value, now, maxSize);
  }

  lemma SetKeepsSuffix<V>(c: OrderedMap<Entry<V>>, key: string, value: V, now: int, maxSize: int)
    requires c.Valid() && maxSize >= 1
    ensures var rest := Without(c.keys, key);
      var kept := if |rest| >= maxSize then maxSize - 1 else |rest|;
      AfterSet(c, key, value, now, maxSize).keys == rest[|rest| - kept..] + [key]
  {
    EvictAfterRemoval(c, key, maxSize);
    SetAppendsKey(c, key, value, now, maxSize);
  }

  /** Eviction after taking `key` out keeps the most recent keys of the rest. */
  lemma EvictAfterRemoval<E>(c: OrderedMap<E>, key: string, maxSize: int)
    requires c.Valid() && maxSize >= 1
    ensures var removed := if key in c.entries then c.Delete(key) else c;
      var rest := Without(c.keys, key);
      var kept := if |rest| >= maxSize then maxSize - 1 else |rest|;
      Evict(removed, maxSize).keys == rest[|rest| - kept..]
  {
    var removed := if key in c.entries then c.Delete(key) else c;
    assert removed.keys == Without(c.keys, key);
    EvictTakesOldestFirst(removed, maxSize);
  }

  /** `set` appends the key to what eviction leaves of the other keys. */
  lemma SetAppendsKey<V>(c: OrderedMap<Entry<V>>, key: string, value: V, now: int, maxSize: int)
    requires maxSize >= 1
    ensures var removed := if key in c.entries then c.Delete(key) else c;
      AfterSet(c, key, value, now, maxSize).keys == Evict(removed, maxSize).keys + [key]
  {
    var removed := if key in c.entries then c.Delete(key) else c;
    assert key !in Evict(removed, maxSize).entries;
  }

  /** Writing a key that is already cached, in a cache within its capacity, evicts no other key:
      the key just moves to the most recent position. */
  lemma ResetEvictsNothing<V>(c: OrderedMap<Entry<V>>, key: string, value: V, now: int, maxSize: int)
    requires c.Valid() && maxSize >= 1 && |c.keys| <= maxSize
    requires key in c.entries
    ensures AfterSet(c, key, value, now, maxSize).keys == Without(c.keys, key) + [key]
  {
    SetEvictsLeastRecentlyUsed(c, key, value, now, maxSize);
    assert |Without(c.keys, key)| == |c.keys| - 1;
  }

  /** A `get` that hits moves the key to the most recent position, keeps every value and timestamp,
      and keeps the relative order of all other keys. */
  lemma GetMovesToMostRecent<V>(c: OrderedMap<Entry<V>>, key: string, now: int, ttl: int)
    requires c.Valid() && Live(c, key, now, ttl)
    ensures var g := AfterGet(c, key, now, ttl);
      && g.Valid()
      && g.keys == Without(c.keys, key) + [key]
      && g.entries == c.entries
      && Without(g.keys, key) == Without(c.keys, key)
  {
    GetHitShape(c, key, now, ttl);
    var w := Without(c.keys, key);
    WithoutAppend(w, key);
  }

  lemma GetHitShape<V>(c: OrderedMap<Entry<V>>, key: string, now: int, ttl: int)
    requires c.Valid() && Live(c, key, now, ttl)
    ensures var g := AfterGet(c, key, now, ttl);
      g.Valid() && g.keys == Without(c.keys, key) + [key] && g.entries == c.entries && key !in Without(c.keys, key)
  {
    var d := c.Delete(key);
    DeleteValid(c, key);
    assert key !in d.entries;
    PutValid(d, key, c.entries[key]);
  }

  lemma {:induction false} WithoutAppend(s: seq<string>, key: string)
    requires key !in s
    ensures Without(s + [key], key) == s
  {
    if s != [] {
      assert (s + [key])[1..] == s[1..] + [key];
      WithoutAppend(s[1..], key);
    }
  }

  /** An entry written at `t` is still a hit at exactly `t + ttl` and gone one millisecond later. */
  lemma ExpiryIsStrict<V>(c: OrderedMap<Entry<V>>, key: string, value: V, t: int, ttl: int, maxSize: int)
    requires c.Valid() && maxSize >= 1
    ensures var s := AfterSet(c, key, value, t, maxSize);
      Live(s, key, t + ttl, ttl) && !Live(s, key, t + ttl + 1, ttl)
  {
  }

  /** Eviction as the source writes it: the oldest key is deleted only when it is truthy,
      so an empty-string key, and an empty map, are skipped. */
  function EvictStepAsWritten<E>(c: OrderedMap<E>): (e: OrderedMap<E>)
    ensures c.keys == [] || c.keys[0] == "" ==> e == c
    ensures c.keys != [] && c.keys[0] != "" ==> c.keys[0] !in e.entries && |e.keys| < |c.keys|
    ensures forall k :: k in e.entries ==> k in c.entries && e.entries[k] == c.entries[k]
  {
    match c.Oldest()
    case Some(k) => if k != "" then c.Delete(k) else c
    case None => c
  }

  /** The as-written eviction loop run for at most `fuel` passes: `Some` of the map once the
      guard `size >= maxSize` is false, `None` while the loop is still going. */
  function RunEvictionAsWritten<E>(c: OrderedMap<E>, maxSize: int, fuel: nat): (r: Option<OrderedMap<E>>)
    ensures |c.keys| < maxSize ==> r == Some(c)
    ensures r.Some? ==> |r.value.keys| < maxSize
    ensures r.Some? ==> forall k :: k in r.value.entries ==> k in c.entries && r.value.entries[k] == c.entries[k]
    decreases fuel
  {
    if |c.keys| < maxSize then Some(c)
    else if fuel == 0 then None
    else RunEvictionAsWritten(EvictStepAsWritten(c), maxSize, fuel - 1)
  }

  /** With the oldest key "" and the cache at capacity, the as-written loop never ends. */
  lemma {:induction false} EmptyOldestKeyStallsEviction<E>(c: OrderedMap<E>, maxSize: int, fuel: nat)
    requires c.keys != [] && c.keys[0] == "" && |c.keys| >= maxSize
    ensures RunEvictionAsWritten(c, maxSize, fuel) == None
  {
    if fuel > 0 {
      assert EvictStepAsWritten(c) == c;
      EmptyOldestKeyStallsEviction(c, maxSize, fuel - 1);
    }
  }

  /** With a capacity of zero or less, the as-written loop never ends either. */
  lemma {:induction false} NonPositiveCapacityStallsEviction<E>(c: OrderedMap<E>, maxSize: int, fuel: nat)
    requires maxSize <= 0
    ensures RunEvictionAsWritten(c, maxSize, fuel) == None
    decreases fuel
  {
    if fuel > 0 {
      NonPositiveCapacityStallsEviction(EvictStepAsWritten(c), maxSize, fuel - 1);
    }
  }

  /** The constructor's options; an absent one takes its default. */
  datatype CacheOptions = CacheOptions(maxSize: Option<int>, ttl: Option<int>)

  class LRUCache<V> {
    var cache: OrderedMap<Entry<V>>
    const maxSize: int
    const ttl: int

    ghost predicate Valid()
      reads this
    {
      cache.Valid() && 1 <= maxSize && |cache.keys| <= maxSize
    }

    constructor(options: CacheOptions)
      requires options.maxSize.GetOr(DEFAULT_MAX_SIZE) >= 1
      ensures Valid() && cache == OrderedMap([], map[])
      ensures maxSize == options.maxSize.GetOr(DEFAULT_MAX_SIZE)
      ensures ttl == options.ttl.GetOr(DEFAULT_TTL)
    {
      cache := OrderedMap([], map[]);
      maxSize := options.maxSize.GetOr(DEFAULT_MAX_SIZE);
      ttl := options.ttl.GetOr(DEFAULT_TTL);
    }

    method Get(key: string, now: int) returns (r: Option<V>)
      requires Valid()
      modifies this
      ensures Valid()
      ensures r.Some? <==> Live(old(cache), key, now, ttl)
      ensures r.Some? ==> r.value == old(cache).entries[key].value
      ensures cache == AfterGet(old(cache), key, now, ttl)
    {
      if key !in cache.entries {
        return None;
      }
      var entry := cache.entries[key];
      if IsExpired(entry.timestamp, now, ttl) {
        cache := cache.Delete(key);
        return None;
      }
      cache := cache.Delete(key);
      cache := cache.Put(key, entry);
      r := Some(entry.value);
    }

    method Set(key: string, value: V, now: int)
      requires Valid()
      modifies this
      ensures Valid()
      ensures cache == AfterSet(old(cache), key, value, now, maxSize)
    {
      if key in cache.entries {
        cache := cache.Delete(key);
      }
      ghost var start := cache;
      while |cache.keys| >= maxSize
        invariant cache.Valid()
        invariant Evict(cache, maxSize) == Evict(start, maxSize)
        decreases |cache.keys|
      {
        // The oldest key is deleted whatever it is, the empty string included.
        cache := cache.Delete(cache.keys[0]);
      }
      cache := cache.Put(key, Entry(value, now));
    }

    method Has(key: string, now: int) returns (b: bool)
      requires Valid()
      modifies this
      ensures Valid()
      ensures b <==> Live(old(cache), key, now, ttl)
      ensures cache == AfterHas(old(cache), key, now, ttl)
    {
      if key !in cache.entries {
        return false;
      }
      if IsExpired(cache.entries[key].timestamp, now, ttl) {
        cache := cache.Delete(key);
        return false;
      }
      b := true;
    }

    /** Milliseconds since a live entry was written; absent for a missing or expired key,
        which is left in place. */
    function GetAge(key: string, now: int): (age: Option<int>)
      reads this
      ensures age.Some? <==> Live(cache, key, now, ttl)
      ensures age.Some? ==> age.value == now - cache.entries[key].timestamp && age.value <= ttl
    {
      if key !in cache.entries || IsExpired(cache.entries[key].timestamp, now, ttl) then None
      else Some(now - cache.entries[key].timestamp)
    }

    method Clear()
      requires Valid()
      modifies this
      ensures Valid() && cache == OrderedMap([], map[])
    {
      cache := OrderedMap([], map[]);
    }

    function Size(): (n: nat)
      reads this
      requires Valid()
      ensures n <= maxSize
      ensures n == |cache.entries|
    {
      DistinctCardinality(cache.keys);
      assert (set k | k in cache.keys) == cache.entries.Keys;
      |cache.keys|
    }
  }
}
