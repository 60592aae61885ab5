# Podcast search: caches, request shaping and result shaping

A Dafny model of the logic core of a podcast-search web app. The app is built on the iTunes Search API.
The modelled parts are:

- **`LRUCache`**: an in-memory, size-bounded, time-to-live cache. Its recency order is the insertion order of a JavaScript `Map`.
- **`generateCacheKey`**: the canonical cache key for a search.
- **The `localStorage` mirror**: cache entries are saved as `{data, timestamp, version}` under the `itunes-cache:` prefix. There are helpers to load them, read their timestamp, clear the expired ones and clear them all.
- **The request deduplicator**: at most one in-flight request per key.
- **The four iTunes searches**:
  - the empty-term short cut;
  - the single-timestamp rate limiter;
  - the per-kind result filters;
  - the `||`-fallback mappers to `Podcast`, `Episode` and `Author`;
  - the `m:ss` duration format;
  - the grouping of podcast results by artist, and the name filter that follows it.
- **The search-cache provider**: memory in front of storage, with backfill on a storage hit, written and cleared through both tiers.
- **The `useSearch` field filter**.
- **The per-kind favourites toggle**.

The code is sequential once time, randomness and I/O are made explicit:

- **Time:** every clock read is a parameter `now`. A timer that fires late overshoots by `lateness`.
- **Randomness:** every `Math.random()` id is `randomIds(i)` for the i-th mapped result.
- **Date fallback:** `new Date().toISOString()` is `nowIso`.
- **Network:** the network is a function `network` from the request parameters to what came back.
- **`localStorage`:** a string-to-string map.
- **JSON:** a `stringify`/`parse` pair. `parse` is partial.

The JavaScript `Map`s of the cache and of the author grouping are an `OrderedMap`: a key sequence in insertion order, plus a map. State the code changes in place is a `class`:

- `LRUCache`;
- `LocalStorage`;
- the pending-request map;
- the rate limiter's last request time;
- the search-cache provider.

Pure code is functions over datatypes:

- the mappers;
- the cache key;
- `useSearch`;
- the favourites, which are replaced by a new record on each toggle.

The modules are:

- `Wrappers`: `Option`, `Result`.
- `Text`: the JavaScript `trim`, `toLowerCase`, `includes` and `String(n)` the code relies on.
- `Sequences`: `Array.prototype.filter`.
- `Domain`: the app's `Podcast`, `Episode` and `Author` types.
- `LruCache`.
- `Storage`.
- `CacheKey`.
- `RequestDedup`.
- `RateLimit`.
- `ItunesMapping`.
- `AuthorGrouping`.
- `ItunesSearch`.
- `SearchCache`.
- `SearchFilter`.
- `Favorites`.

## Model

| member | source | states |
|---|---|---|
| LruCache.LRUCache.constructor | src/lib/cache.ts:26-29 | An absent `maxSize` defaults to 100 and an absent `ttl` to 30 minutes. The cache starts empty. |
| LruCache.IsExpired | src/lib/cache.ts:99-101 | An entry is expired exactly when `now` is strictly past its timestamp plus `ttl`. |
| LruCache.AfterGet | src/lib/cache.ts:31-49 | After `get`, the key is present exactly when it was live. Other keys stay present or absent as before, and every surviving entry is unchanged. A live key ends up last in recency order. |
| LruCache.LRUCache.Get | src/lib/cache.ts:31-49 | Hits exactly when the key is present and not expired, and returns the stored value. A hit moves the key to the most recent position. An expired key is deleted. The capacity invariant is kept. |
| LruCache.GetMovesToMostRecent | src/lib/cache.ts:31-48 | On a hit, every value and timestamp is unchanged and the key is last in recency order. The other keys keep their relative order. |
| LruCache.LRUCache.Set | src/lib/cache.ts:51-69 | The new state is the old one with the key removed, the oldest keys evicted down to `maxSize - 1`, and the key appended with a fresh timestamp. The eviction loop deletes the oldest key whatever it is, and terminates. |
| LruCache.Evict | src/lib/cache.ts:58-63 | Eviction leaves fewer than `maxSize` keys, never adds one, and leaves every surviving entry unchanged. |
| LruCache.AfterSet | src/lib/cache.ts:51-69 | After `set`, the key holds the new value and `now` and is last in recency order. There are at most `maxSize` keys, and every other surviving entry is unchanged. |
| LruCache.SetKeepsCapacity | src/lib/cache.ts:51-69 | After `set`, the size is at most `maxSize`. The key is the most recent one, and it carries the new value and `now`. |
| LruCache.EvictTakesOldestFirst | src/lib/cache.ts:58-63 | Eviction removes keys from the front of the recency order only. It stops one below capacity and leaves the surviving entries untouched. |
| LruCache.SetEvictsLeastRecentlyUsed | src/lib/cache.ts:51-69 | The key order after `set` is a suffix of the old order, with the key taken out, followed by the key. Surviving entries of other keys are unchanged. |
| LruCache.ResetEvictsNothing | src/lib/cache.ts:53-55 | Re-setting a cached key within capacity evicts no other key. It only moves the key to the end. |
| LruCache.ExpiryIsStrict | src/lib/cache.ts:99-101 | An entry written at `t` is live at `t + ttl` and expired at `t + ttl + 1`. |
| LruCache.LRUCache.Has | src/lib/cache.ts:71-81 | True exactly for a live key, and does not reorder. An expired key is deleted. |
| LruCache.AfterHas | src/lib/cache.ts:71-81 | After `has`, the key is present exactly when it was live. Other keys and all surviving entries are unchanged. A missing or live key leaves the cache as it was. |
| LruCache.LRUCache.GetAge | src/lib/cache.ts:83-89 | Reads only. For a live key it is `now - timestamp`, which is at most `ttl`. For a missing or expired key it is absent. |
| LruCache.LRUCache.Clear | src/lib/cache.ts:91-93 | The cache is empty afterwards. |
| LruCache.LRUCache.Size | src/lib/cache.ts:95-97 | The number of entries, which is at most `maxSize`. |
| LruCache.DistinctCardinality | src/lib/cache.ts:22 | A repeat-free key order has as many keys as the set it lists. |
| LruCache.EmptyOldestKeyStallsEviction | src/lib/cache.ts:58-63 | As written, the eviction loop never ends once the oldest key is `""` and the cache is at capacity. |
| LruCache.NonPositiveCapacityStallsEviction | src/lib/cache.ts:58-63 | As written, the eviction loop never ends when `maxSize <= 0`. |
| LruCache.EvictStepAsWritten | src/lib/cache.ts:58-61 | One pass of the loop as written. It changes nothing when the map is empty or its oldest key is `""`. Otherwise it deletes the oldest key and shrinks the order. Surviving entries are unchanged. |
| LruCache.RunEvictionAsWritten | src/lib/cache.ts:57-62 | The loop as written, for a bounded number of passes. It stops at once below capacity. When it stops, fewer than `maxSize` keys remain, with their entries unchanged. |
| CacheKey.Normalize | src/lib/cache.ts:107-118 | The search type is kept, and the term is lowercased and trimmed. Media, limit and country each take the given value when present, and otherwise `podcast`, 50 and `US`, field by field. Absent options give all three defaults. |
| CacheKey.Render | src/lib/cache.ts:119 | The key starts with `itunes:` and ends with `:` followed by the country. |
| CacheKey.GenerateCacheKey | src/lib/cache.ts:107-120 | The key starts with `itunes:`, the type name, `:`, the lowercased trimmed term and `:`, and goes on past that. |
| CacheKey.CaseAndPaddingShareKey | src/lib/cache.ts:107-120 | `" Foo "` and `"foo"` give the same key for any type and options. |
| CacheKey.AbsentOptionsAreDefaults | src/lib/cache.ts:115-117 | Omitting the options gives the same key as passing `podcast`, 50 and `US`. |
| CacheKey.KeyDeterminesQuery | src/lib/cache.ts:119 | Equal keys come only from equal normalised queries, provided media and country contain no `:`. So searches whose media and country contain no `:` never share an entry. |
| CacheKey.ColonInMediaSharesKey | src/lib/cache.ts:119 | As written, the term `a:b` with media `c` and the term `a` with media `b:c` are different searches with the same key. |
| CacheKey.CheckedCacheKey | src/lib/cache.ts:107-120 | Gives a key exactly when the normalised media and country contain no `:`, and then it is `generateCacheKey`'s key. |
| CacheKey.CheckedKeyDeterminesSearch | src/lib/cache.ts:107-120 | Two searches with the same checked key normalise to the same query, so they may share a cache entry. |
| CacheKey.TailDeterminesOptions | src/lib/cache.ts:119 | Two equal keys agree on media, limit, country and the part before them. |
| CacheKey.SplitAtLastColon | src/lib/cache.ts:119 | A colon-joined string splits uniquely at its last colon when the tail has none. |
| CacheKey.SplitAtFirstColon | src/lib/cache.ts:119 | A colon-joined string splits uniquely at its first colon when the head has none. |
| Storage.StorageKeyIsCacheKey | src/lib/cache.ts:19 | Every storage key carries the `itunes-cache:` prefix. |
| Storage.SaveToStorage | src/lib/cache.ts:125-137 | The store gains the stringified `{value, now, 1}` under the prefixed key. A failed write changes nothing. |
| Storage.Saved | src/lib/cache.ts:125-137 | A save touches no other key, and a successful write leaves an item under the prefixed key. |
| Storage.Load | src/lib/cache.ts:139-163 | A load removes nothing or exactly its own key, and a hit removes nothing. |
| Storage.LoadFromStorage | src/lib/cache.ts:139-163 | The result and the new store are those of `Load`. |
| Storage.LoadHitsOnlyCurrentFresh | src/lib/cache.ts:139-163 | A load hits if and only if the item parses, has version 1, is not older than `ttl` and has data. An item without a timestamp is never older than `ttl`. A hit returns that item's data and leaves the store alone. |
| Storage.LoadRemovesAtMostItsKey | src/lib/cache.ts:148-160 | A load removes nothing or exactly its own key. A parse failure removes nothing. A removal happens only on a miss of a parsed entry whose version is not 1 or which is older than `ttl`. |
| Storage.FieldlessItemIsRemoved | src/lib/cache.ts:144-150 | An item that parses to a value with no fields, such as `{}`, is removed by a load, and it has no timestamp. |
| Storage.UntimedItemIsKept | src/lib/cache.ts:144-163 | An item of version 1 with no timestamp and no data, such as `{"version":1}`, makes a load miss without removing it. `clearExpiredStorage` keeps it too. |
| Storage.SaveLoadRoundTrip | src/lib/cache.ts:125-163 | What was saved loads back unchanged while at most `ttl` old. |
| Storage.SavedEntryExpires | src/lib/cache.ts:154-157 | Once older than `ttl`, a saved entry misses and its item is removed. |
| Storage.StorageTimestamp | src/lib/cache.ts:165-175 | A timestamp is reported only for a present item that parses, and it is that item's own timestamp field. |
| Storage.TimestampIgnoresVersionAndAge | src/lib/cache.ts:165-175 | The timestamp field of any parsed item is reported, even where a load of an item with data misses and removes it. |
| Storage.ClearExpiredStorage | src/lib/cache.ts:177-208 | Removes exactly the prefixed, non-empty items that do not parse, have another version or are older than `ttl`. An item without a timestamp is never older than `ttl`. |
| Storage.StaleKeys | src/lib/cache.ts:177-208 | The keys to clear are present, prefixed and non-empty items. |
| Storage.ClearExpiredLeavesNothingStale | src/lib/cache.ts:177-208 | Afterwards no load removes anything, and unprefixed items are kept. |
| Storage.ClearAllStorage | src/lib/cache.ts:210-225 | Removes exactly the prefixed items. |
| Storage.ClearAllForgetsEveryKey | src/lib/cache.ts:210-225 | Afterwards every cache key misses and has no timestamp, and unprefixed items are kept. |
| Storage.RemoveAll | src/lib/cache.ts:200 | The store loses exactly the listed keys. |
| RequestDedup.PendingRequests.constructor | src/lib/requestDedup.ts:8 | No request is pending at first. |
| RequestDedup.PendingRequests.DeduplicatedFetch | src/lib/requestDedup.ts:18-38 | The fetcher is called exactly when the key is not pending. A pending key yields its registered handle and changes nothing. Otherwise the new handle is registered under the key. |
| RequestDedup.PendingRequests.Settle | src/lib/requestDedup.ts:30-33 | Settling removes the key, whatever handle is registered under it. |
| RequestDedup.PendingRequests.IsRequestPending | src/lib/requestDedup.ts:43-45 | True if and only if the key is registered. |
| RequestDedup.PendingRequests.GetPendingRequestCount | src/lib/requestDedup.ts:50-52 | The number of distinct pending keys. It is 0 if and only if nothing is pending. |
| RequestDedup.PendingRequests.ClearPendingRequests | src/lib/requestDedup.ts:57-59 | Nothing is pending afterwards. |
| RequestDedup.ConcurrentCallsShareOneFetch | src/lib/requestDedup.ts:18-38 | Two overlapping calls share one handle and one fetch. A call after settlement fetches anew. |
| RequestDedup.StaleSettlementDropsNewerRequest | src/lib/requestDedup.ts:30-33 | After a clear and a new request on the same key, the old settlement removes the new registration, so a later caller fetches again. |
| RateLimit.Wait | src/lib/itunesApi.ts:44-50 | The wait is `3000 - (now - last)` exactly when under 3000 ms have passed, and 0 otherwise. It ends no earlier than `last + 3000`, and never exceeds 3000 for a clock that did not go back. |
| RateLimit.RateLimiter.constructor | src/lib/itunesApi.ts:42 | The last request time starts at 0. |
| RateLimit.RateLimiter.RateLimit | src/lib/itunesApi.ts:44-53 | Waits `Wait(last, now)`, then records the clock after the wait. The recorded time is at least 3000 after the previous one. |
| RateLimit.TwoRequestsAreSpaced | src/lib/itunesApi.ts:42-53 | Two consecutive requests are recorded at least 3000 ms apart, whatever the clock reads. |
| ItunesMapping.FirstTruthy | src/lib/itunesApi.ts:60-67 | The first truthy candidate (present and non-empty) wins. Otherwise the fallback is used, so the result is non-empty when the fallback is. |
| ItunesMapping.IdOf | src/lib/itunesApi.ts:56 | The id's digits read back as the first truthy id, and otherwise it is the random id. |
| ItunesMapping.Description | src/lib/itunesApi.ts:62 | `longDescription`, then `description`, then `shortDescription`, each when non-empty, else `No description available`. It is never empty. |
| ItunesMapping.ArtistName | src/lib/itunesApi.ts:61 | `artistName` when non-empty, else `Unknown Artist`. |
| ItunesMapping.Artwork | src/lib/itunesApi.ts:63 | `artworkUrl600`, then `artworkUrl100`, then `artworkUrl60`, each when non-empty, else the placeholder. It is non-empty when the placeholder is. |
| ItunesMapping.MapToPodcast | src/lib/itunesApi.ts:55-69 | Every field follows its `||` chain. The title is `collectionName`, then `trackName`, then `Unknown Podcast`. The id is `IdOf(collectionId, trackId, random)`. The author is `ArtistName` and the description is `Description`. The image is `Artwork` with the podcast placeholder. The category is `primaryGenreName`, else `Uncategorized`. The episode count is `trackCount`, or 0. The latest episode date is `releaseDate`, else the current date. Title, author, description, image and category are never empty. |
| ItunesMapping.PadTwo | src/lib/itunesApi.ts:76 | Left-pads with `0` to length 2 and keeps the original as the suffix. |
| ItunesMapping.FormatDuration | src/lib/itunesApi.ts:73-76 | The duration has at least four characters and ends with `:` and two digits. |
| ItunesMapping.DurationReadsBack | src/lib/itunesApi.ts:73-76 | The duration is minutes, `:`, then two second digits. The digits read back as `ms div 60000` and `(ms mod 60000) div 1000`, which is at most 59. Together they account for `ms` to within one second. |
| ItunesMapping.TwoDigitsValue | src/lib/itunesApi.ts:76 | Padding to two digits keeps the value the digits denote. |
| ItunesMapping.MissingDurationIsZero | src/lib/itunesApi.ts:73 | A missing or zero `trackTimeMillis` shows as `0:00`. |
| ItunesMapping.MapToEpisode | src/lib/itunesApi.ts:71-88 | Every field follows its `||` chain. The title is `trackName`, then `collectionName`, then `Unknown Episode`. The id is `IdOf(trackId, collectionId, random)`. The podcast title is `collectionName`, else `Unknown Podcast`. The podcast author is `ArtistName` and the description is `Description`. The duration is the formatted `trackTimeMillis`, or 0. The release date is `releaseDate`, else the current date. There is no episode number. The text fields are never empty. |
| ItunesMapping.MapToAuthor | src/lib/itunesApi.ts:90-102 | Every field follows its `||` chain. The id is `IdOf(artistId, collectionId, random)`. The name is `ArtistName`. The bio is `longDescription`, then `description`, then `Creator of ` with `collectionName` or `podcasts`. The image is `Artwork` with the author placeholder. `podcastCount` passes through, and total episodes are `trackCount`, or 0. Genres are the result's own, else the primary genre, else `Podcast`. Name, bio and image are never empty. |
| ItunesMapping.PodcastsFrom | src/lib/itunesApi.ts:125-127 | One podcast per kept result, in order, each mapped from it. |
| ItunesMapping.EpisodesFrom | src/lib/itunesApi.ts:155-157 | One episode per kept result, in order, each mapped from it. |
| ItunesMapping.ResultFiltersKeepExactly | src/lib/itunesApi.ts:126 | The podcast search keeps a result if and only if it is a `track` or of kind `podcast`. The episode search keeps a result if and only if it is of kind `podcast-episode`. |
| ItunesMapping.IsPodcastResult | src/lib/itunesApi.ts:126 | True exactly for a `track` or a result of kind `podcast`. A non-track episode result is never a podcast result. |
| ItunesMapping.IsEpisodeResult | src/lib/itunesApi.ts:156 | True only for results of kind `podcast-episode`. |
| Sequences.Filter | src/lib/itunesApi.ts:126 | The result is an order-preserving subsequence whose elements all satisfy the predicate. |
| Sequences.FilterCounts | src/lib/itunesApi.ts:126 | Each satisfying element is kept as often as it occurs, and nothing else is kept. |
| Sequences.FilterKeeps | src/lib/itunesApi.ts:203 | An input element is kept if and only if it satisfies the predicate. |
| Sequences.FilterAppend | src/lib/itunesApi.ts:203 | Filtering one more element extends the result by that element alone, and only if it satisfies the predicate. |
| AuthorGrouping.WithKeyIsFilter | src/lib/itunesApi.ts:190-198 | A group's members are exactly the results with its artist key, in input order. |
| AuthorGrouping.ArtistKey | src/lib/itunesApi.ts:190-191 | The key is never empty. With a truthy `artistId` its digits read back as that id, and otherwise it is the artist name or `Unknown Artist`. |
| AuthorGrouping.Push | src/lib/itunesApi.ts:193-196 | After one step, the result's key has a group whose podcasts are the old ones plus the result. The group's representative is the old one, or the result for a new key. Every other group is unchanged. |
| AuthorGrouping.FirstAppearanceDistinct | src/lib/itunesApi.ts:194-196 | Group keys are never repeated. |
| AuthorGrouping.FirstAppearanceKeys | src/lib/itunesApi.ts:190-196 | There is a group key if and only if some result has that key. The first result's key comes first. |
| AuthorGrouping.FirstAppearanceGrows | src/lib/itunesApi.ts:194-196 | Later results only append keys, so each key keeps the place it got when first seen. |
| AuthorGrouping.TotalAppend | src/lib/itunesApi.ts:201-202 | Adding a key adds its group's size to the total. |
| AuthorGrouping.TotalUpdate | src/lib/itunesApi.ts:197 | Replacing one group changes the total by the change in its size. |
| AuthorGrouping.PushKeepsGrouped | src/lib/itunesApi.ts:190-198 | One `forEach` step keeps the grouping invariant for the results seen so far. |
| AuthorGrouping.PushKeepsOrder | src/lib/itunesApi.ts:194-196 | One step keeps the keys in first-appearance order. |
| AuthorGrouping.PushKeepsMembers | src/lib/itunesApi.ts:194-197 | One step keeps each group equal to its key's results, with the first of them as the representative. |
| AuthorGrouping.PushKeepsTotal | src/lib/itunesApi.ts:197 | One step adds exactly one to the total group size. |
| AuthorGrouping.Grouping | src/lib/itunesApi.ts:188-198 | The grouping is a well-formed ordered map. |
| AuthorGrouping.GroupingIsGrouped | src/lib/itunesApi.ts:188-198 | There is one group per artist key, in first-appearance order. Each group holds exactly its key's results, led by the first. The sizes sum to the number of results. |
| AuthorGrouping.GroupByArtist | src/lib/itunesApi.ts:188-198 | The map the `forEach` fills has the same properties as `GroupingIsGrouped`. |
| AuthorGrouping.AuthorsOf | src/lib/itunesApi.ts:201-202 | One author per group, in key order. The i-th author is `MapToAuthor` of the i-th group's first result, with the group size as `podcastCount` and the i-th random id. So every field follows that result's fallbacks. The counts sum to the total group size. |
| AuthorGrouping.AuthorAt | src/lib/itunesApi.ts:202 | The i-th author is `MapToAuthor` of the i-th group's representative, counting that group's size. Its name is the representative's artist name. |
| AuthorGrouping.SumCountsMatch | src/lib/itunesApi.ts:201-202 | The authors' counts sum to the groups' total size. |
| AuthorGrouping.NameMatches | src/lib/itunesApi.ts:203 | An author passes exactly when its lowercased name contains the lowercased term. An author whose name equals the term, ignoring case, always passes. |
| ItunesSearch.Checked | src/lib/itunesApi.ts:117-123 | Yields a body exactly for an ok response. Any other status is `iTunes API error: <status>`. A thrown error is passed on unchanged. |
| ItunesSearch.PodcastRequest | src/lib/itunesApi.ts:110-115 | The podcast search sends the term, media `podcast`, entity `podcast`, the limit and country `US`, with no attribute. |
| ItunesSearch.EpisodeRequest | src/lib/itunesApi.ts:140-145 | The episode search is the podcast request with entity `podcastEpisode`, so the two differ. |
| ItunesSearch.AuthorRequest | src/lib/itunesApi.ts:171-177 | The author search is the podcast request plus attribute `artistTerm`, so the two differ. |
| ItunesSearch.StatusReadsBack | src/lib/itunesApi.ts:120 | The status can be read back from the error message. |
| ItunesSearch.SearchPodcasts | src/lib/itunesApi.ts:104-132 | A blank term gives `[]` without touching the limiter. Otherwise the limiter records the post-wait clock, and the result is the filtered, mapped podcasts or the error. |
| ItunesSearch.SearchEpisodes | src/lib/itunesApi.ts:134-162 | Same as `SearchPodcasts`, for episodes of kind `podcast-episode`. |
| ItunesSearch.MatchingAuthors | src/lib/itunesApi.ts:188-203 | A grouped author is returned exactly as often as it occurs among the grouped authors if its lowercased name contains the lowercased term, and never otherwise. The result is an ordered subsequence of the grouped authors. |
| ItunesSearch.ExactNameSurvives | src/lib/itunesApi.ts:203 | A grouped author whose name equals the term, ignoring case, is always returned. |
| ItunesSearch.AuthorSearchExample | src/lib/itunesApi.ts:188-203 | Podcasts by `A`, `A` and `B` searched for `A` give one author, `A`, with two podcasts. |
| ItunesSearch.SearchAuthors | src/lib/itunesApi.ts:164-208 | A blank term gives `[]` without touching the limiter. Otherwise the limiter records the post-wait clock, and the result is the matching authors or the error. |
| ItunesSearch.AllRequest | src/lib/itunesApi.ts:244 | Absent options default to media `all`, limit 50 and country `US`. Present ones are used as given. |
| ItunesSearch.SearchAll | src/lib/itunesApi.ts:243-271 | A blank term gives `{resultCount: 0, results: []}` without touching the limiter. Otherwise the result is the body as received, or the error. |
| SearchCache.SearchCacheProvider.constructor | src/contexts/SearchCacheContext.tsx:34-36 | An empty LRU cache of default capacity. It uses the provider's `ttl`, which defaults to 30 minutes. |
| SearchCache.SearchCacheProvider.GetCached | src/contexts/SearchCacheContext.tsx:43-74 | A memory hit returns the value, from memory, with its memory age, and leaves storage alone. Otherwise storage is loaded. A storage hit is written into memory with a fresh timestamp and returned from storage. Its age is given only when the stored timestamp is truthy. A miss in both tiers returns nothing. |
| SearchCache.SearchCacheProvider.SetCached | src/contexts/SearchCacheContext.tsx:76-80 | The same value goes into memory and into storage. |
| SearchCache.SearchCacheProvider.ClearCache | src/contexts/SearchCacheContext.tsx:82-85 | Memory is empty and every prefixed storage item is removed. |
| SearchCache.SearchCacheProvider.GetCacheAge | src/contexts/SearchCacheContext.tsx:87-101 | The memory age of a live entry. Otherwise `now` minus the stored timestamp, whatever its version or age. Otherwise absent. |
| SearchCache.SetThenGetHitsMemory | src/contexts/SearchCacheContext.tsx:76-80 | A value just set reads back from memory, 0 ms old, and storage holds its mirror. |
| SearchCache.StorageHitIsBackfilled | src/contexts/SearchCacheContext.tsx:58-71 | A storage hit fills memory, so the next read is a memory hit with the same value. |
| SearchFilter.UseSearch | src/hooks/useSearch.tsx:9-23 | The result is an order-preserving subsequence of the items. A query that is blank after lowercasing and trimming keeps all of them. |
| SearchFilter.UseSearchKeepsExactly | src/hooks/useSearch.tsx:17-22 | An item is kept if and only if the query is blank or some listed field, lowercased, contains the lowered query. |
| SearchFilter.NoFieldsKeepNothing | src/hooks/useSearch.tsx:18 | With no fields and a non-blank query, nothing is kept. |
| SearchFilter.BlankQueryKeepsAll | src/hooks/useSearch.tsx:11-15 | An all-whitespace query keeps every item. |
| SearchFilter.SubsequenceOfSelf | src/hooks/useSearch.tsx:14 | The items are a subsequence of themselves. |
| Favorites.Favorites.With | src/contexts/FavoritesContext.tsx:44-47 | Replaces one kind's set and keeps the other two. |
| Favorites.Initial | src/contexts/FavoritesContext.tsx:27-31 | All three sets start empty. |
| Favorites.Toggle | src/contexts/FavoritesContext.tsx:33-49 | The id's membership in its kind's set flips. Nothing else in that set changes, and the other two sets are kept. |
| Favorites.IsFavorite | src/contexts/FavoritesContext.tsx:51-54 | True exactly when the id is in its kind's set, and then that kind's count is at least one. |
| Favorites.FavoriteCount | src/contexts/FavoritesContext.tsx:56-59 | The size of the kind's set. It is 0 exactly when the set is empty. |
| Favorites.ToggleTwiceRestores | src/contexts/FavoritesContext.tsx:33-48 | Toggling the same id and kind twice gives back the original state. |
| Favorites.ToggleFlipsAndCounts | src/contexts/FavoritesContext.tsx:33-59 | `isFavorite` flips. The kind's count moves by one in the matching direction. Other kinds are unaffected. |
| Favorites.InitiallyEmpty | src/contexts/FavoritesContext.tsx:27-31 | At first nothing is a favourite and every count is 0. |
| Text.TrimStart | src/lib/cache.ts:114 | Returns a suffix; what it removed is whitespace, and the rest is empty or starts with a non-blank. |
| Text.TrimEnd | src/lib/cache.ts:114 | Returns a prefix; what it removed is whitespace, and the rest is empty or ends with a non-blank. |
| Text.Trim | src/lib/cache.ts:114 | Never longer than the input, and empty or starting and ending with a non-blank. |
| Text.TrimIsSlice | src/lib/cache.ts:114 | The trimmed text is a contiguous slice of the input, with only whitespace before and after it. |
| Text.TrimEmptyIffBlank | src/lib/itunesApi.ts:105 | A term trims to empty if and only if it is all whitespace. |
| Text.TrimEnds | src/lib/cache.ts:114 | A trimmed string is empty or starts and ends with a non-blank. |
| Text.TrimIdempotent | src/lib/cache.ts:114 | Trimming twice equals trimming once. |
| Text.ToLower | src/lib/cache.ts:114 | Lowercases character by character and keeps the length. |
| Text.ToLowerIdempotent | src/hooks/useSearch.tsx:11 | Lowercasing twice equals lowercasing once. |
| Text.LowerCharKeepsWhitespace | src/hooks/useSearch.tsx:11 | Lowercasing keeps a character's whitespace status. |
| Text.Contains | src/lib/itunesApi.ts:203 | A match implies the needle is no longer than the text. A needle that is a prefix of the text always matches, so the empty needle and the text itself match. |
| Text.NatToString | src/lib/cache.ts:119 | Renders a number as a non-empty string of decimal digits, with two or more digits exactly from 10 up. |
| Text.NatToStringRoundTrip | src/lib/cache.ts:119 | The decimal rendering reads back as the number. |
| Text.NatToStringInjective | src/lib/cache.ts:119 | Different numbers render differently. |

## Left out

- **Network and logging:** `fetch`, URL building and encoding, `response.json()` and `console.error` are not modelled. The response is whatever the `network` parameter returns for the request parameters. A JSON body of the wrong shape is not modelled.
- **Timers:** `setTimeout`/`await` in `rateLimit` become an explicit wait and a `lateness` overshoot. The rate limiter is modelled for calls in sequence. Two overlapping `rateLimit` calls that both read the old `lastRequestTime` before either writes are not modelled.
- **Other JavaScript built-ins:**
  - `Text.ToLower`: models `toLowerCase` for ASCII capitals only. Unicode case mapping is not modelled.
  - `Math.random()` ids and `new Date().toISOString()` dates are parameters. So is each `Date.now()` read, with one `now` per call: the source reads the clock more than once within one `getCached`, `getAge` or `getCacheAge` call.
  - The float `rating: 4.5` of a mapped podcast is not modelled, because it is floating point.
  - Durations are whole milliseconds (`nat`).
  - Limits are `nat`: the `limit` of `generateCacheKey`'s options and of the searches. The source's `limit?: number` also accepts negative and fractional values. `${limit}` renders them into the key (`…:-5:US`, `…:2.5:US`) and `String(limit)` into the request. That is not modelled.
- **Storage:**
  - JSON is an abstract `stringify`/`parse` pair. `parse` answering nothing covers both a thrown parse error and a parsed value whose fields cannot be read.
  - A parsed item's fields are each present with a number (or the data) or absent. A field holding a value of another JSON type is not modelled, such as a string timestamp that `-` would coerce to a number.
  - Storage being unavailable is modelled only as a failed write. A `localStorage` read that throws is not modelled.
  - `clearExpiredStorage` visits keys in an unspecified order. The removed set does not depend on the order.
- **React wiring:**
  - The mount-time `clearExpiredStorage(ttl)` effect of the search-cache provider is not modelled. Neither are React state, refs and memoisation.
  - `useSearch`'s `String(item[field])` is a caller-supplied field-to-string function per listed field.
- **Request deduplication:** promise identity and async settlement are not modelled. A request is an opaque handle, and its settlement is the explicit event `Settle`.
- **Out of scope:**
  - The `ITUNES_MEDIA_TYPES` table, which is constant data with no behaviour.
  - All pages, components and `src/hooks/useSearchCache.ts`, which are rendering, routing and timers.
  - The search functions never consult the caches or the deduplicator, so the model has no such gateway either.
- **Member-specific limits:**
  - `LruCache.LRUCache.constructor`: requires `maxSize >= 1`. With `maxSize <= 0` the source's eviction loop never ends (see Findings).
  - `LruCache.LRUCache.Get`: a cached value that is itself `undefined` reads as a miss in the source. Here every stored value is a hit.
  - `AuthorGrouping.GroupByArtist`: each `forEach` step is one `Push` on the ordered-map value. The source's separate `has`, `set`, `get` and `push` calls on a shared `Map` are not modelled.

## Findings

| source | as written | input that shows it | evidently intended | confidence | as-written member | corrected member |
|---|---|---|---|---|---|---|
| src/lib/cache.ts:58-63 | The eviction loop deletes the oldest key only when it is truthy, but keeps looping while `size >= maxSize`. | `maxSize = 1`, then `set("", a)`, then `set("x", b)`: the oldest key `""` is never deleted, so the loop never ends. | Evict the oldest key whatever it is. | not executed | LruCache.EmptyOldestKeyStallsEviction | LruCache.LRUCache.Set |
| src/lib/cache.ts:119 | The normalised fields are joined with `:` and no escaping. | `generateCacheKey('podcast', 'a:b', {media: 'c'})` and `generateCacheKey('podcast', 'a', {media: 'b:c'})` both give `itunes:podcast:a:b:c:50:US`. | Distinct searches get distinct keys. | not executed | CacheKey.ColonInMediaSharesKey | CacheKey.CheckedCacheKey |
| src/lib/cache.ts:26-29 | `maxSize` is taken as given, including 0 or negative values. | `new LRUCache({maxSize: 0})` then any `set`: the loop runs forever, on an empty map too. | A capacity of at least 1. | not executed | LruCache.NonPositiveCapacityStallsEviction | LruCache.LRUCache.constructor |
