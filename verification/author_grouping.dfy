/** The grouping step of the author search (src/lib/itunesApi.ts): podcast results are
    collected per artist in a `Map`, whose insertion order is the order authors come out in,
    and each group becomes one author whose podcast count is the group's size. */
module AuthorGrouping {
  import opened Text
  import opened Domain
  import opened ItunesMapping
  import opened LruCache
  import opened Sequences

  /** `String(result.artistId || (result.artistName || 'Unknown Artist'))`. */
  function ArtistKey(r: RawResult): (k: string)
    ensures k != ""
    ensures TruthyNumber(r.artistId) ==> AllDigits(k) && DigitsValue(k) == r.artistId.value
    ensures !TruthyNumber(r.artistId) ==> k == ArtistName(r)
  {
    if TruthyNumber(r.artistId) then NatToStringRoundTrip(r.artistId.value); NatToString(r.artistId.value)
    else ArtistName(r)
  }

  function HasKey(k: string): RawResult -> bool {
    (r: RawResult) => ArtistKey(r) == k
  }

  /** The results whose artist key is `k`, in input order, built the way the loop builds them. */
  function WithKey(rs: seq<RawResult>, k: string): seq<RawResult> {
    if rs == [] then []
    else WithKey(rs[..|rs| - 1], k) + (if ArtistKey(rs[|rs| - 1]) == k then [rs[|rs| - 1]] else [])
  }

  /** A group's members are exactly the results carrying its key, in their input order. */
  lemma {:induction false} WithKeyIsFilter(rs: seq<RawResult>, k: string)
    ensures WithKey(rs, k) == Filter(rs, HasKey(k))
  {
    if rs != [] {
      var init, last := rs[..|rs| - 1], rs[|rs| - 1];
      var tail := if ArtistKey(last) == k then [last] else [];
      calc {
        WithKey(rs, k);
        WithKey(init, k) + tail;
        { WithKeyIsFilter(init, k); }
        Filter(init, HasKey(k)) + tail;
        { FilterAppend(init, last, HasKey(k)); }
        Filter(init + [last], HasKey(k));
        { assert init + [last] == rs; }
        Filter(rs, HasKey(k));
      }
    }
  }

  /** One `artistMap` value: the result that opened the group and every result in it. */
  datatype Group = Group(result: RawResult, podcasts: seq<RawResult>)

  /** The distinct artist keys of `rs`, each placed where it first appears. */
  function FirstAppearance(rs: seq<RawResult>): seq<string> {
    if rs == [] then []
    else
      var ks := FirstAppearance(rs[..|rs| - 1]);
      var k := ArtistKey(rs[|rs| - 1]);
      if k in ks then ks else ks + [k]
  }

  /** The key order has no repeats. */
  lemma {:induction false} FirstAppearanceDistinct(rs: seq<RawResult>)
    ensures Distinct(FirstAppearance(rs))
  {
    if rs != [] {
      FirstAppearanceDistinct(rs[..|rs| - 1]);
    }
  }

  /** The key order holds exactly the keys of the results, and the first result's key comes first. */
  lemma {:induction false} FirstAppearanceKeys(rs: seq<RawResult>)
    ensures forall k :: k in FirstAppearance(rs) <==> exists r :: r in rs && ArtistKey(r) == k
    ensures rs != [] ==> FirstAppearance(rs)[0] == ArtistKey(rs[0])
  {
    if rs != [] {
      var init, last := rs[..|rs| - 1], rs[|rs| - 1];
      FirstAppearanceKeys(init);
      assert rs == init + [last];
      forall k ensures k in FirstAppearance(rs) <==> exists r :: r in rs && ArtistKey(r) == k {
        if k in FirstAppearance(init) {
          var r :| r in init && ArtistKey(r) == k;
          assert r in rs;
        }
        if exists r :: r in rs && ArtistKey(r) == k {
          var r :| r in rs && ArtistKey(r) == k;
          if r != last {
            assert r in init;
          }
        }
      }
      if init != [] {
        assert init[0] == rs[0];
      }
    }
  }

  /** A key keeps the place it got when first seen: later results only append new keys. */
  lemma {:induction false} FirstAppearanceGrows(rs: seq<RawResult>, i: nat)
    requires i <= |rs|
    ensures FirstAppearance(rs[..i]) <= FirstAppearance(rs)
    decreases |rs| - i
  {
    if i < |rs| {
      FirstAppearanceGrows(rs, i + 1);
      assert rs[..i + 1][..i] == rs[..i];
    } else {
      assert rs[..i] == rs;
    }
  }

  /** The sum of the group sizes, taken over the keys in order. */
  function TotalPodcasts(keys: seq<string>, groups: map<string, Group>): nat {
    if keys == [] then 0
    else (if keys[0] in groups then |groups[keys[0]].podcasts| else 0) + TotalPodcasts(keys[1..], groups)
  }

  lemma {:induction false} TotalAppend(keys: seq<string>, k: string, groups: map<string, Group>)
    ensures TotalPodcasts(keys + [k], groups)
      == TotalPodcasts(keys, groups) + (if k in groups then |groups[k].podcasts| else 0)
  {
    if keys == [] {
      assert [k][1..] == [];
    } else {
      assert (keys + [k])[1..] == keys[1..] + [k];
      TotalAppend(keys[1..], k, groups);
    }
  }

  /** Replacing the group of a key listed once changes the total by the change in its size;
      replacing the group of an unlisted key changes nothing. */
  lemma {:induction false} TotalUpdate(keys: seq<string>, groups: map<string, Group>, k: string, g: Group)
    requires Distinct(keys)
    ensures k !in keys ==> TotalPodcasts(keys, groups[k := g]) == TotalPodcasts(keys, groups)
    ensures k in keys && k in groups ==>
      TotalPodcasts(keys, groups[k := g]) + |groups[k].podcasts| == TotalPodcasts(keys, groups) + |g.podcasts|
  {
    if keys != [] {
      assert keys[0] !in keys[1..];
      TotalUpdate(keys[1..], groups, k, g);
    }
  }

  /** `artists` holds the groups of `rs`: one per key, in first-appearance order, each
      holding exactly the results with its key and opened by the first of them. */
  ghost predicate Grouped(artists: OrderedMap<Group>, rs: seq<RawResult>) {
    && artists.Valid()
    && artists.keys == FirstAppearance(rs)
    && Members(artists, rs)
    && TotalPodcasts(artists.keys, artists.entries) == |rs|
  }

  ghost predicate Members(artists: OrderedMap<Group>, rs: seq<RawResult>) {
    && (forall k :: k in artists.entries ==> artists.entries[k].podcasts == WithKey(rs, k))
    && (forall k :: k !in artists.entries ==> WithKey(rs, k) == [])
    && (forall k :: k in artists.entries ==>
         artists.entries[k].podcasts != [] && artists.entries[k].result == artists.entries[k].podcasts[0])
  }

  /** One step of the `forEach`: open a group for a new key, then push the result onto its
      key's group. */
  function Push(artists: OrderedMap<Group>, r: RawResult): (p: OrderedMap<Group>)
    ensures var k := ArtistKey(r);
      && k in p.entries
      && p.entries[k].podcasts == (if k in artists.entries then artists.entries[k].podcasts else []) + [r]
      && p.entries[k].result == (if k in artists.entries then artists.entries[k].result else r)
    ensures forall j :: j != ArtistKey(r) ==>
      (j in p.entries <==> j in artists.entries) && (j in artists.entries ==> p.entries[j] == artists.entries[j])
  {
    var k := ArtistKey(r);
    var withGroup := if k in artists.entries then artists else artists.Put(k, Group(r, []));
    withGroup.Put(k, Group(withGroup.entries[k].result, withGroup.entries[k].podcasts + [r]))
  }

  lemma PushKeepsGrouped(artists: OrderedMap<Group>, rs: seq<RawResult>, r: RawResult)
    requires Grouped(artists, rs)
    ensures Grouped(Push(artists, r), rs + [r])
  {
    PushKeepsOrder(artists, rs, r);
    PushKeepsMembers(artists, rs, r);
    PushKeepsTotal(artists, r);
  }

  lemma PushKeepsOrder(artists: OrderedMap<Group>, rs: seq<RawResult>, r: RawResult)
    requires artists.Valid() && artists.keys == FirstAppearance(rs)
    ensures Push(artists, r).Valid() && Push(artists, r).keys == FirstAppearance(rs + [r])
  {
    assert (rs + [r])[..|rs|] == rs;
  }

  lemma PushKeepsMembers(artists: OrderedMap<Group>, rs: seq<RawResult>, r: RawResult)
    requires Members(artists, rs)
    ensures Members(Push(artists, r), rs + [r])
  {
    var next := Push(artists, r);
    var key := ArtistKey(r);
    forall k | k in next.entries
      ensures next.entries[k].podcasts == WithKey(rs + [r], k)
      ensures next.entries[k].podcasts != [] && next.entries[k].result == next.entries[k].podcasts[0]
    {
      assert (rs + [r])[..|rs|] == rs;
      if k != key {
        assert next.entries[k] == artists.entries[k];
      } else if key in artists.entries {
        assert next.entries[k].podcasts == artists.entries[k].podcasts + [r];
      } else {
        assert next.entries[k] == Group(r, [r]);
      }
    }
    forall k | k !in next.entries
      ensures WithKey(rs + [r], k) == []
    {
      assert (rs + [r])[..|rs|] == rs;
    }
  }

  lemma PushKeepsTotal(artists: OrderedMap<Group>, r: RawResult)
    requires artists.Valid()
    ensures TotalPodcasts(Push(artists, r).keys, Push(artists, r).entries)
      == TotalPodcasts(artists.keys, artists.entries) + 1
  {
    var k := ArtistKey(r);
    var next := Push(artists, r);
    if k in artists.entries {
      TotalUpdate(artists.keys, artists.entries, k, next.entries[k]);
    } else {
      assert k !in artists.keys;
      assert next.keys == artists.keys + [k];
      assert [] + [r] == [r];
      assert next.entries == artists.entries[k := Group(r, [r])];
      TotalAppend(artists.keys, k, next.entries);
      TotalUpdate(artists.keys, artists.entries, k, next.entries[k]);
    }
  }

  /** The `artistMap` the `forEach` leaves behind for `rs`. */
  function Grouping(rs: seq<RawResult>): (g: OrderedMap<Group>)
    ensures g.Valid()
  {
    if rs == [] then OrderedMap([], map[]) else Push(Grouping(rs[..|rs| - 1]), rs[|rs| - 1])
  }

  /** Grouping yields one group per artist key, in first-appearance order; each holds exactly
      the results with its key, in input order, and is represented by the first of them; the
      group sizes add up to the number of results. */
  lemma {:induction false} GroupingIsGrouped(rs: seq<RawResult>)
    ensures Grouped(Grouping(rs), rs)
  {
    if rs != [] {
      var init, last := rs[..|rs| - 1], rs[|rs| - 1];
      assert init + [last] == rs;
      assert Grouping(rs) == Push(Grouping(init), last);
      GroupingIsGrouped(init);
      PushKeepsGrouped(Grouping(init), init, last);
    }
  }

  /** The `forEach` over the results, filling `artistMap` in place. */
  method GroupByArtist(results: seq<RawResult>) returns (artists: OrderedMap<Group>)
    ensures artists == Grouping(results)
    ensures artists.Valid()
    ensures artists.keys == FirstAppearance(results)
    ensures forall k :: k in artists.entries ==> artists.entries[k].podcasts == WithKey(results, k)
    ensures forall k :: k in artists.entries ==>
      artists.entries[k].podcasts != [] && artists.entries[k].result == artists.entries[k].podcasts[0]
    ensures TotalPodcasts(artists.keys, artists.entries) == |results|
  {
    artists := OrderedMap([], map[]);
    for i := 0 to |results|
      invariant artists == Grouping(results[..i])
    {
      var r := results[i];
      assert results[..i + 1][..i] == results[..i];
      artists := Push(artists, r);
    }
    assert results[..|results|] == results;
    GroupingIsGrouped(results);
  }

  /** Matching case-insensitively: the lowercased name contains the lowercased term. */
  /** The filter `author.name.toLowerCase().includes(term.toLowerCase())`. */
  function NameMatches(term: string): (matches: Author -> bool)
    ensures forall a: Author :: matches(a) <==> Contains(ToLower(a.name), ToLower(term))
    ensures forall a: Author :: ToLower(a.name) == ToLower(term) ==> matches(a)
  {
    (a: Author) => Contains(ToLower(a.name), ToLower(term))
  }

  function SumCounts(authors: seq<Author>): nat {
    if authors == [] then 0 else authors[0].podcastCount + SumCounts(authors[1..])
  }

  /** `Array.from(artistMap.values()).map(…)`: one author per group, in key order, taking
      its details from the group's first result and its count from the group's size. */
  function AuthorsOf(artists: OrderedMap<Group>, randomIds: nat -> string): (authors: seq<Author>)
    requires artists.Valid()
    ensures |authors| == |artists.keys|
    ensures forall i :: 0 <= i < |authors| ==>
      authors[i].name == ArtistName(artists.entries[artists.keys[i]].result) &&
      authors[i].podcastCount == |artists.entries[artists.keys[i]].podcasts|
    ensures forall i :: 0 <= i < |authors| ==>
      authors[i] == MapToAuthor(artists.entries[artists.keys[i]].result, |artists.entries[artists.keys[i]].podcasts|, randomIds(i))
    ensures SumCounts(authors) == TotalPodcasts(artists.keys, artists.entries)
  {
    var authors := seq(|artists.keys|, i requires 0 <= i < |artists.keys| => AuthorAt(artists, randomIds, i));
    SumCountsMatch(artists.keys, artists.entries, authors);
    authors
  }

  /** The author made from the i-th group. */
  function AuthorAt(artists: OrderedMap<Group>, randomIds: nat -> string, i: nat): (a: Author)
    requires artists.Valid() && i < |artists.keys|
    ensures a.name == ArtistName(artists.entries[artists.keys[i]].result)
    ensures a.podcastCount == |artists.entries[artists.keys[i]].podcasts|
    ensures a == MapToAuthor(artists.entries[artists.keys[i]].result, |artists.entries[artists.keys[i]].podcasts|, randomIds(i))
  {
    var g := artists.entries[artists.keys[i]];
    MapToAuthor(g.result, |g.podcasts|, randomIds(i))
  }

  lemma {:induction false} SumCountsMatch(keys: seq<string>, groups: map<string, Group>, authors: seq<Author>)
    requires forall k :: k in keys ==> k in groups
    requires |authors| == |keys|
    requires forall i :: 0 <= i < |keys| ==> authors[i].podcastCount == |groups[keys[i]].podcasts|
    ensures SumCounts(authors) == TotalPodcasts(keys, groups)
  {
    if keys != [] {
      SumCountsMatch(keys[1..], groups, authors[1..]);
    }
  }
}
