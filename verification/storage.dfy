/** The durable tier: cache entries mirrored into the browser's `localStorage`, one
    JSON object `{data, timestamp, version}` per key, under the `itunes-cache:` prefix
    (the storage helpers of src/lib/cache.ts). The store is a string-to-string map,
    JSON is a pair of functions, and the clock is the explicit parameter `now`. */
module Storage {
  import opened Wrappers

  const CACHE_VERSION: int := 1
  const STORAGE_KEY_PREFIX: string := "itunes-cache:"

  /** The object written for one cache entry. */
  datatype StoredEntry<D> = StoredEntry(data: D, timestamp: int, version: int)

  /** The fields read off a parsed item: `None` for a field the parsed value does not have,
      which JavaScript reads as `undefined` (the text `{}` has none of them). */
  datatype ParsedEntry<D> = ParsedEntry(data: Option<D>, timestamp: Option<int>, version: Option<int>)

  /** The fields of an entry as written: all present. */
  function Fields<D>(e: StoredEntry<D>): ParsedEntry<D> {
    ParsedEntry(Some(e.data), Some(e.timestamp), Some(e.version))
  }

  /** `JSON.stringify` of an entry, and `JSON.parse` of a stored string with its fields read;
      `parse` answers `None` where `JSON.parse` throws or where reading a field of what it
      produced would throw (the text "null", for one). */
  datatype Json<!D> = Json(stringify: StoredEntry<D> -> string, parse: string -> Option<ParsedEntry<D>>)

  /** Parsing what was written gives its fields back, and a written entry is never the empty
      string (it is the text of a JSON object). */
  ghost predicate RoundTrips<D(!new)>(json: Json<D>) {
    forall e :: json.parse(json.stringify(e)) == Some(Fields(e)) && json.stringify(e) != ""
  }

  /** `entry.version === CACHE_VERSION`; an absent version is not the current one. */
  predicate CurrentVersion<D>(e: ParsedEntry<D>) {
    e.version == Some(CACHE_VERSION)
  }

  /** `now - entry.timestamp > ttl`. Without a timestamp the difference is `NaN` and the
      comparison false, so an entry without one never counts as too old. */
  predicate TooOld<D>(e: ParsedEntry<D>, now: int, ttl: int) {
    e.timestamp.Some? && now - e.timestamp.value > ttl
  }

  /** The storage key of a cache key. */
  function StorageKey(key: string): string {
    STORAGE_KEY_PREFIX + key
  }

  /** `key.startsWith("itunes-cache:")`: the key belongs to the cache. */
  predicate IsCacheKey(k: string) {
    |k| >= |STORAGE_KEY_PREFIX| && k[..|STORAGE_KEY_PREFIX|] == STORAGE_KEY_PREFIX
  }

  lemma StorageKeyIsCacheKey(key: string)
    ensures IsCacheKey(StorageKey(key))
  {
    assert StorageKey(key)[..|STORAGE_KEY_PREFIX|] == STORAGE_KEY_PREFIX;
  }

  /** The store after `saveToStorage(key, value)` at time `now`; a write that fails (quota
      exceeded, storage unavailable) is swallowed and changes nothing. */
  function Saved<D>(items: map<string, string>, json: Json<D>, key: string, value: D, now: int, writeSucceeds: bool): (s: map<string, string>)
    ensures forall k :: k != StorageKey(key) ==> (k in s <==> k in items)
    ensures forall k :: k != StorageKey(key) && k in items ==> s[k] == items[k]
    ensures writeSucceeds ==> StorageKey(key) in s
  {
    if writeSucceeds then items[StorageKey(key) := json.stringify(StoredEntry(value, now, CACHE_VERSION))]
    else items
  }

  /** What `loadFromStorage` returns, with the store it leaves behind. */
  datatype Loaded<D> = Loaded(value: Option<D>, items: map<string, string>)

  /** `loadFromStorage(key, ttl)`: an absent or empty item and a parse failure are misses that
      change nothing; a wrong version or an entry older than `ttl` is a miss that removes the item;
      otherwise the entry's data, which is a miss when the entry has none. */
  function Load<D>(items: map<string, string>, json: Json<D>, key: string, now: int, ttl: int): (l: Loaded<D>)
    ensures l.items == items || l.items == items - {StorageKey(key)}
    ensures l.value.Some? ==> l.items == items
  {
    var k := StorageKey(key);
    if k !in items || items[k] == "" then Loaded(None, items)
    else match json.parse(items[k])
      case None => Loaded(None, items)
      case Some(e) =>
        if !CurrentVersion(e) then Loaded(None, items - {k})
        else if TooOld(e, now, ttl) then Loaded(None, items - {k})
        else Loaded(e.data, items)
  }

  /** `getStorageTimestamp(key)`: the timestamp of whatever parses under the key, with no version
      or age check. */
  function StorageTimestamp<D>(items: map<string, string>, json: Json<D>, key: string): (t: Option<int>)
    ensures t.Some? ==>
      (StorageKey(key) in items && json.parse(items[StorageKey(key)]).Some? &&
       json.parse(items[StorageKey(key)]).value.timestamp == t)
  {
    var k := StorageKey(key);
    if k !in items || items[k] == "" then None
    else match json.parse(items[k])
      case None => None
      case Some(e) => e.timestamp
  }

  /** A stored string that `clearExpiredStorage` removes: unparsable, of another version, or too old. */
  predicate IsStale<D>(json: Json<D>, stored: string, now: int, ttl: int) {
    match json.parse(stored)
    case None => true
    case Some(e) => !CurrentVersion(e) || TooOld(e, now, ttl)
  }

  /** The keys `clearExpiredStorage(ttl)` removes; empty items are skipped, not removed. */
  function StaleKeys<D>(items: map<string, string>, json: Json<D>, now: int, ttl: int): (ks: set<string>)
    ensures ks <= items.Keys
    ensures forall k :: k in ks ==> IsCacheKey(k) && items[k] != ""
  {
    set k | k in items && IsCacheKey(k) && items[k] != "" && IsStale(json, items[k], now, ttl)
  }

  /** The keys `clearAllStorage()` removes. */
  function CacheKeys(items: map<string, string>): set<string> {
    set k | k in items && IsCacheKey(k)
  }

  /** A load hits only for an entry of the current version that is not too old and has data,
      and then returns that data and leaves the store alone. */
  lemma LoadHitsOnlyCurrentFresh<D>(items: map<string, string>, json: Json<D>, key: string, now: int, ttl: int)
    ensures var l := Load(items, json, key, now, ttl); var k := StorageKey(key);
      l.value.Some? <==>
        (k in items && items[k] != "" && json.parse(items[k]).Some? &&
         CurrentVersion(json.parse(items[k]).value) && !TooOld(json.parse(items[k]).value, now, ttl) &&
         json.parse(items[k]).value.data.Some?)
    ensures var l := Load(items, json, key, now, ttl);
      l.value.Some? ==> l.value == json.parse(items[StorageKey(key)]).value.data && l.items == items
  {
  }

  /** A load removes nothing but its own item, and removes that only when the item parsed
      (wrong version or expired); a parse failure leaves the store as it was. */
  lemma LoadRemovesAtMostItsKey<D>(items: map<string, string>, json: Json<D>, key: string, now: int, ttl: int)
    ensures var l := Load(items, json, key, now, ttl);
      l.items == items || l.items == items - {StorageKey(key)}
    ensures var k := StorageKey(key);
      k in items && json.parse(items[k]).None? ==> Load(items, json, key, now, ttl).items == items
    ensures var k := StorageKey(key); var l := Load(items, json, key, now, ttl);
      l.items != items ==>
        (k in items && json.parse(items[k]).Some? && l.value.None? &&
         (!CurrentVersion(json.parse(items[k]).value) || TooOld(json.parse(items[k]).value, now, ttl)))
  {
  }

  /** An item that parses to a value with none of the fields (the text `{}`): a load removes it,
      since its version is not the current one, and it has no timestamp. */
  lemma FieldlessItemIsRemoved<D>(items: map<string, string>, json: Json<D>, key: string, now: int, ttl: int)
    requires var k := StorageKey(key); k in items && items[k] != "" && json.parse(items[k]) == Some(ParsedEntry(None, None, None))
    ensures Load(items, json, key, now, ttl) == Loaded(None, items - {StorageKey(key)})
    ensures StorageTimestamp(items, json, key) == None
  {
  }

  /** An item of the current version without a timestamp or data (the text `{"version":1}`):
      it never counts as too old, so a load misses without removing it, and
      `clearExpiredStorage` keeps it. */
  lemma UntimedItemIsKept<D>(items: map<string, string>, json: Json<D>, key: string, now: int, ttl: int)
    requires var k := StorageKey(key); k in items && items[k] != "" && json.parse(items[k]) == Some(ParsedEntry(None, None, Some(CACHE_VERSION)))
    ensures Load(items, json, key, now, ttl) == Loaded(None, items)
    ensures StorageKey(key) !in StaleKeys(items, json, now, ttl)
  {
  }

  /** What was saved loads back while it is at most `ttl` old, and the load leaves the store alone. */
  lemma SaveLoadRoundTrip<D(!new)>(items: map<string, string>, json: Json<D>, key: string, value: D, saved: int, now: int, ttl: int)
    requires RoundTrips(json)
    requires now - saved <= ttl
    ensures var s := Saved(items, json, key, value, saved, true);
      Load(s, json, key, now, ttl) == Loaded(Some(value), s)
  {
    var e := StoredEntry(value, saved, CACHE_VERSION);
    assert json.parse(json.stringify(e)) == Some(Fields(e));
  }

  /** Once older than `ttl`, a saved entry loads as a miss and its item is removed. */
  lemma SavedEntryExpires<D(!new)>(items: map<string, string>, json: Json<D>, key: string, value: D, saved: int, now: int, ttl: int)
    requires RoundTrips(json)
    requires now - saved > ttl
    ensures var s := Saved(items, json, key, value, saved, true);
      Load(s, json, key, now, ttl) == Loaded(None, s - {StorageKey(key)})
  {
    var e := StoredEntry(value, saved, CACHE_VERSION);
    assert json.parse(json.stringify(e)) == Some(Fields(e));
  }

  /** The timestamp peek does not look at version or age: where a load misses on an entry that
      parses and has data, and so removes it, the peek still reports that entry's timestamp. */
  lemma TimestampIgnoresVersionAndAge<D>(items: map<string, string>, json: Json<D>, key: string, now: int, ttl: int)
    requires var k := StorageKey(key); k in items && items[k] != "" && json.parse(items[k]).Some?
    ensures StorageTimestamp(items, json, key) == json.parse(items[StorageKey(key)]).value.timestamp
    ensures Load(items, json, key, now, ttl).value.None? && json.parse(items[StorageKey(key)]).value.data.Some? ==>
      Load(items, json, key, now, ttl).items == items - {StorageKey(key)}
  {
  }

  /** After `clearExpiredStorage` no load at the same instant removes anything: every cache item
      left is empty or a current, fresh entry. Items outside the prefix are kept as they were. */
  lemma ClearExpiredLeavesNothingStale<D>(items: map<string, string>, json: Json<D>, key: string, now: int, ttl: int)
    ensures var rest := items - StaleKeys(items, json, now, ttl);
      Load(rest, json, key, now, ttl).items == rest
    ensures forall k :: k in items && !IsCacheKey(k) ==> k in items - StaleKeys(items, json, now, ttl)
  {
    var rest := items - StaleKeys(items, json, now, ttl);
    var k := StorageKey(key);
    StorageKeyIsCacheKey(key);
    if k in rest && rest[k] != "" {
      assert k !in StaleKeys(items, json, now, ttl);
      assert !IsStale(json, items[k], now, ttl);
    }
  }

  /** After `clearAllStorage` every cache key loads as a miss and has no timestamp, while items
      outside the prefix are kept as they were. */
  lemma ClearAllForgetsEveryKey<D>(items: map<string, string>, json: Json<D>, key: string, now: int, ttl: int)
    ensures var rest := items - CacheKeys(items);
      Load(rest, json, key, now, ttl) == Loaded(None, rest) && StorageTimestamp(rest, json, key) == None
    ensures forall k :: k in items && !IsCacheKey(k) ==> k in items - CacheKeys(items)
  {
    StorageKeyIsCacheKey(key);
  }

  /** The browser's `localStorage`, shared by every cache tier of the page. */
  class LocalStorage {
    var items: map<string, string>

    constructor(initial: map<string, string>)
      ensures items == initial
    {
      items := initial;
    }
  }

  method SaveToStorage<D>(storage: LocalStorage, json: Json<D>, key: string, value: D, now: int, writeSucceeds: bool)
    modifies storage
    ensures storage.items == Saved(old(storage.items), json, key, value, now, writeSucceeds)
  {
    var entry := StoredEntry(value, now, CACHE_VERSION);
    if writeSucceeds {
      storage.items := storage.items[StorageKey(key) := json.stringify(entry)];
    }
  }

  method LoadFromStorage<D>(storage: LocalStorage, json: Json<D>, key: string, now: int, ttl: int) returns (r: Option<D>)
    modifies storage
    ensures Loaded(r, storage.items) == Load(old(storage.items), json, key, now, ttl)
  {
    var k := StorageKey(key);
    if k !in storage.items || storage.items[k] == "" {
      return None;
    }
    var entry := json.parse(storage.items[k]);
    if entry.None? {
      return None;
    }
    if !CurrentVersion(entry.value) {
      storage.items := storage.items - {k};
      return None;
    }
    if TooOld(entry.value, now, ttl) {
      storage.items := storage.items - {k};
      return None;
    }
    r := entry.value.data;
  }

  method ClearExpiredStorage<D>(storage: LocalStorage, json: Json<D>, now: int, ttl: int)
    modifies storage
    ensures storage.items == old(storage.items) - StaleKeys(old(storage.items), json, now, ttl)
  {
    var keysToRemove: seq<string> := [];
    var unvisited := storage.items.Keys;
    while unvisited != {}
      invariant storage.items == old(storage.items)
      invariant unvisited <= storage.items.Keys
      invariant forall k :: k in keysToRemove <==> k in StaleKeys(storage.items, json, now, ttl) && k !in unvisited
      decreases unvisited
    {
      var key :| key in unvisited;
      unvisited := unvisited - {key};
      if IsCacheKey(key) && storage.items[key] != "" {
        var stored := storage.items[key];
        match json.parse(stored)
        case None =>
          keysToRemove := keysToRemove + [key];
        case Some(entry) =>
          if !CurrentVersion(entry) || TooOld(entry, now, ttl) {
            keysToRemove := keysToRemove + [key];
          }
      }
    }
    RemoveAll(storage, keysToRemove);
  }

  method ClearAllStorage(storage: LocalStorage)
    modifies storage
    ensures storage.items == old(storage.items) - CacheKeys(old(storage.items))
  {
    var keysToRemove: seq<string> := [];
    var unvisited := storage.items.Keys;
    while unvisited != {}
      invariant storage.items == old(storage.items)
      invariant unvisited <= storage.items.Keys
      invariant forall k :: k in keysToRemove <==> k in CacheKeys(storage.items) && k !in unvisited
      decreases unvisited
    {
      var key :| key in unvisited;
      unvisited := unvisited - {key};
      if IsCacheKey(key) {
        keysToRemove := keysToRemove + [key];
      }
    }
    RemoveAll(storage, keysToRemove);
  }

  /** `keysToRemove.forEach(key => localStorage.removeItem(key))`. */
  method RemoveAll(storage: LocalStorage, keysToRemove: seq<string>)
    modifies storage
    ensures storage.items == old(storage.items) - set k | k in keysToRemove
  {
    var i := 0;
    while i < |keysToRemove|
      invariant 0 <= i <= |keysToRemove|
      invariant storage.items == old(storage.items) - set k | k in keysToRemove[..i]
    {
      assert keysToRemove[..i + 1] == keysToRemove[..i] + [keysToRemove[i]];
      storage.items := storage.items - {keysToRemove[i]};
      i := i + 1;
    }
    assert keysToRemove[..i] == keysToRemove;
  }
}
