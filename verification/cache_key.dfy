/** The cache key builder (`generateCacheKey`): one canonical string per logical search. */
module CacheKey {
  import opened Wrappers
  import opened Text

  datatype SearchType = PodcastSearch | EpisodeSearch | AuthorSearch | AllSearch

  function TypeName(t: SearchType): string {
    match t
    case PodcastSearch => "podcast"
    case EpisodeSearch => "episode"
    case AuthorSearch => "author"
    case AllSearch => "all"
  }

  /** The optional `{media, limit, country}` argument; `??` defaults only what is absent. */
  datatype KeyOptions = KeyOptions(media: Option<string>, limit: Option<nat>, country: Option<string>)

  /** The normalised query the key spells out. */
  datatype Query = Query(searchType: SearchType, term: string, media: string, limit: nat, country: string)

  function Normalize(t: SearchType, term: string, options: Option<KeyOptions>): (q: Query)
    ensures q.searchType == t && q.term == Trim(ToLower(term))
    ensures options.None? ==> q.media == "podcast" && q.limit == 50 && q.country == "US"
    ensures options.Some? && options.value.media.None? ==> q.media == "podcast"
    ensures options.Some? && options.value.media.Some? ==> q.media == options.value.media.value
    ensures options.Some? && options.value.limit.None? ==> q.limit == 50
    ensures options.Some? && options.value.limit.Some? ==> q.limit == options.value.limit.value
    ensures options.Some? && options.value.country.None? ==> q.country == "US"
    ensures options.Some? && options.value.country.Some? ==> q.country == options.value.country.value
  {
    var o := options.GetOr(KeyOptions(None, None, None));
    Query(t, Trim(ToLower(term)), o.media.GetOr("podcast"), o.limit.GetOr(50), o.country.GetOr("US"))
  }

  /** `itunes:type:term:media:limit:country` for the query. */
  function Render(q: Query): (k: string)
    ensures |k| > 7 && k[..7] == "itunes:"
    ensures |k| > |q.country| && k[|k| - |q.country| - 1..] == ":" + q.country
  {
    "itunes:" + TypeName(q.searchType) + ":" + q.term + ":" + q.media + ":" + NatToString(q.limit) + ":" + q.country
  }

  /** `generateCacheKey(type, term, options)`: the key opens with the search type and the
      lowercased, trimmed term. */
  function GenerateCacheKey(t: SearchType, term: string, options: Option<KeyOptions>): (k: string)
    ensures var head := "itunes:" + TypeName(t) + ":" + Trim(ToLower(term)) + ":";
      |head| < |k| && k[..|head|] == head
  {
    var q := Normalize(t, term, options);
    RenderOpensWithHead(q);
    Render(q)
  }

  lemma RenderOpensWithHead(q: Query)
    ensures |Head(q) + ":"| < |Render(q)| && Render(q)[..|Head(q) + ":"|] == Head(q) + ":"
  {
    var rest := q.media + ":" + NatToString(q.limit) + ":" + q.country;
    assert Render(q) == (Head(q) + ":") + rest;
  }

  /** Terms that differ only in letter case and surrounding whitespace share a key. */
  lemma CaseAndPaddingShareKey(t: SearchType, options: Option<KeyOptions>)
    ensures GenerateCacheKey(t, " Foo ", options) == GenerateCacheKey(t, "foo", options)
  {
    PaddedFooNormalizes();
  }

  lemma PaddedFooNormalizes()
    ensures Trim(ToLower(" Foo ")) == "foo" && Trim(ToLower("foo")) == "foo"
  {
    LowerFoo();
    TrimFoo();
  }

  lemma LowerFoo()
    ensures ToLower(" Foo ") == " foo " && ToLower("foo") == "foo"
  {
    var lower := ToLower(" Foo ");
    assert lower[1] == LowerChar('F') == 'f';
    assert lower == " foo ";
  }

  lemma TrimFoo()
    ensures Trim(" foo ") == "foo" && Trim("foo") == "foo"
  {
    assert !IsWhitespace('f') && !IsWhitespace('o') && IsWhitespace(' ');
    assert " foo "[1..] == "foo ";
    assert TrimStart(" foo ") == "foo ";
    assert "foo "[..3] == "foo";
    assert TrimEnd("foo ") == "foo";
  }

  /** Leaving the options out is the same as passing the defaults. */
  lemma AbsentOptionsAreDefaults(t: SearchType, term: string)
    ensures GenerateCacheKey(t, term, None) ==
      GenerateCacheKey(t, term, Some(KeyOptions(Some("podcast"), Some(50), Some("US"))))
  {
  }

  predicate NoColon(s: string) {
    ':' !in s
  }

  /** The fields are joined with ':' and not escaped, so a colon in the media lets two different
      searches share a key: `a:b` with media `c`, and `a` with media `b:c`. */
  lemma ColonInMediaSharesKey()
    ensures var o1, o2 := Some(KeyOptions(Some("c"), None, None)), Some(KeyOptions(Some("b:c"), None, None));
      && Normalize(PodcastSearch, "a:b", o1) != Normalize(PodcastSearch, "a", o2)
      && GenerateCacheKey(PodcastSearch, "a:b", o1) == GenerateCacheKey(PodcastSearch, "a", o2)
  {
    PlainTermsNormalize();
    assert "a:b" != "a";
    assert "itunes:podcast:a:b:c:50:US" == "itunes:" + "podcast" + ":" + "a:b" + ":" + "c" + ":" + "50" + ":" + "US";
    assert "itunes:podcast:a:b:c:50:US" == "itunes:" + "podcast" + ":" + "a" + ":" + "b:c" + ":" + "50" + ":" + "US";
  }

  lemma PlainTermsNormalize()
    ensures Trim(ToLower("a:b")) == "a:b" && Trim(ToLower("a")) == "a" && NatToString(50) == "50"
  {
    assert ToLower("a:b") == "a:b" && ToLower("a") == "a";
    assert !IsWhitespace('a') && !IsWhitespace('b');
    assert TrimStart("a:b") == "a:b" && TrimEnd("a:b") == "a:b";
    assert TrimStart("a") == "a" && TrimEnd("a") == "a";
  }

  /** The key with the ambiguity ruled out: absent where the media or the country, after
      defaulting, contains ':'. */
  function CheckedCacheKey(t: SearchType, term: string, options: Option<KeyOptions>): (k: Option<string>)
    ensures var q := Normalize(t, term, options); k.Some? <==> NoColon(q.media) && NoColon(q.country)
    ensures k.Some? ==> k.value == GenerateCacheKey(t, term, options)
  {
    var q := Normalize(t, term, options);
    if NoColon(q.media) && NoColon(q.country) then Some(Render(q)) else None
  }

  /** Two searches that get the same checked key are the same normalised search. */
  lemma CheckedKeyDeterminesSearch(t1: SearchType, term1: string, o1: Option<KeyOptions>,
                                   t2: SearchType, term2: string, o2: Option<KeyOptions>)
    requires CheckedCacheKey(t1, term1, o1).Some?
    requires CheckedCacheKey(t1, term1, o1) == CheckedCacheKey(t2, term2, o2)
    ensures Normalize(t1, term1, o1) == Normalize(t2, term2, o2)
  {
    KeyDeterminesQuery(Normalize(t1, term1, o1), Normalize(t2, term2, o2));
  }

  /** A key names its query: when media and country contain no ':', equal keys come only from
      equal normalised queries, so distinct searches never share a cache entry. */
  lemma KeyDeterminesQuery(q1: Query, q2: Query)
    requires NoColon(q1.media) && NoColon(q1.country) && NoColon(q2.media) && NoColon(q2.country)
    requires Render(q1) == Render(q2)
    ensures q1 == q2
  {
    var h1, h2 := Head(q1), Head(q2);
    TailDeterminesOptions(q1, q2);
    var t1, t2 := TypeName(q1.searchType), TypeName(q2.searchType);
    assert h1 == "itunes:" + (t1 + ":" + q1.term);
    assert h2 == "itunes:" + (t2 + ":" + q2.term);
    assert h1[7..] == t1 + ":" + q1.term;
    assert h2[7..] == t2 + ":" + q2.term;
    SplitAtFirstColon(t1, q1.term, t2, q2.term);
  }

  /** The part of a key before its media. */
  function Head(q: Query): string {
    "itunes:" + TypeName(q.searchType) + ":" + q.term
  }

  /** Peeling country, limit and media off the end of two equal keys. */
  lemma TailDeterminesOptions(q1: Query, q2: Query)
    requires NoColon(q1.media) && NoColon(q1.country) && NoColon(q2.media) && NoColon(q2.country)
    requires Render(q1) == Render(q2)
    ensures Head(q1) == Head(q2) && q1.media == q2.media && q1.limit == q2.limit && q1.country == q2.country
  {
    var h1, h2 := Head(q1), Head(q2);
    var l1, l2 := NatToString(q1.limit), NatToString(q2.limit);
    assert Render(q1) == ((h1 + ":" + q1.media) + ":" + l1) + ":" + q1.country;
    assert Render(q2) == ((h2 + ":" + q2.media) + ":" + l2) + ":" + q2.country;
    SplitAtLastColon(h1 + ":" + q1.media + ":" + l1, q1.country, h2 + ":" + q2.media + ":" + l2, q2.country);
    DigitsHaveNoColon(l1);
    DigitsHaveNoColon(l2);
    SplitAtLastColon(h1 + ":" + q1.media, l1, h2 + ":" + q2.media, l2);
    NatToStringInjective(q1.limit, q2.limit);
    SplitAtLastColon(h1, q1.media, h2, q2.media);
  }

  lemma DigitsHaveNoColon(s: string)
    requires AllDigits(s)
    ensures NoColon(s)
  {
  }

  lemma SplitAtLastColon(a1: string, c1: string, a2: string, c2: string)
    requires NoColon(c1) && NoColon(c2)
    requires a1 + ":" + c1 == a2 + ":" + c2
    ensures a1 == a2 && c1 == c2
  {
    var s := a1 + ":" + c1;
    if |c1| < |c2| {
      ColonFallsInside(a1, c1, a2, c2);
      assert false;
    } else if |c2| < |c1| {
      ColonFallsInside(a2, c2, a1, c1);
      assert false;
    }
    assert a1 == s[..|a1|] && a2 == s[..|a2|];
    assert c1 == s[|a1| + 1..] && c2 == s[|a2| + 1..];
  }

  /** Two ways of splitting one string at a colon: the later colon lies inside the other tail. */
  lemma ColonFallsInside(a1: string, c1: string, a2: string, c2: string)
    requires a1 + ":" + c1 == a2 + ":" + c2 && |c1| < |c2|
    ensures ':' in c2
  {
    var s := a1 + ":" + c1;
    assert s[|a1|] == ':' && s[|a1|] == c2[|a1| - |a2| - 1];
  }

  lemma SplitAtFirstColon(a1: string, c1: string, a2: string, c2: string)
    requires NoColon(a1) && NoColon(a2)
    requires a1 + ":" + c1 == a2 + ":" + c2
    ensures a1 == a2 && c1 == c2
  {
    var s := a1 + ":" + c1;
    if |a1| < |a2| {
      ColonFallsInsideHead(a1, c1, a2, c2);
      assert false;
    } else if |a2| < |a1| {
      ColonFallsInsideHead(a2, c2, a1, c1);
      assert false;
    }
    assert a1 == s[..|a1|] && a2 == s[..|a2|];
    assert c1 == s[|a1| + 1..] && c2 == s[|a2| + 1..];
  }

  /** Two ways of splitting one string at a colon: the earlier colon lies inside the other head. */
  lemma ColonFallsInsideHead(a1: string, c1: string, a2: string, c2: string)
    requires a1 + ":" + c1 == a2 + ":" + c2 && |a1| < |a2|
    ensures ':' in a2
  {
    var s := a1 + ":" + c1;
    assert s[|a1|] == ':' && s[|a1|] == a2[|a1|];
  }
}
