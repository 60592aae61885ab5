/** The four searches of src/lib/itunesApi.ts. Each returns early on a blank term; otherwise it
    passes the rate limiter, sends one request and shapes the response. The network is the
    function `network` from the request sent to what came back, so the request parameters
    are part of the model and the URL encoding is not. */
module ItunesSearch {
  import opened Wrappers
  import opened Text
  import opened Domain
  import opened ItunesMapping
  import opened AuthorGrouping
  import opened RateLimit
  import Sequences

  /** The query parameters appended to `/search`, in the order the code appends them. */
  datatype Request = Request(
    term: string,
    media: string,
    entity: Option<string>,
    limit: nat,
    attribute: Option<string>,
    country: string)

  /** The parsed body: `{resultCount, results}`. */
  datatype SearchResponse = SearchResponse(resultCount: nat, results: seq<RawResult>)

  /** What `fetch` and `response.json()` produced: a thrown error, or a response with its
      `ok` flag, status code and body. */
  datatype Outcome =
    | Failed(error: string)
    | Received(ok: bool, status: nat, body: SearchResponse)

  const DEFAULT_LIMIT: nat := 50

  /** `!term.trim()`. */
  predicate IsBlank(term: string) {
    Trim(term) == ""
  }

  /** The body of an ok response, the `iTunes API error: <status>` error for any other, and
      the thrown error itself when the request failed. */
  function Checked(o: Outcome): (r: Result<SearchResponse>)
    ensures r.Ok? <==> o.Received? && o.ok
    ensures r.Ok? ==> r.value == o.body
    ensures o.Failed? ==> r == Err(o.error)
    ensures o.Received? && !o.ok ==> r == Err("iTunes API error: " + NatToString(o.status))
  {
    match o
    case Failed(e) => Err(e)
    case Received(ok, status, body) =>
      if ok then Ok(body) else Err("iTunes API error: " + NatToString(status))
  }

  /** A failed status is reported with its code, which can be read back from the message. */
  lemma StatusReadsBack(status: nat, body: SearchResponse)
    ensures var m := Checked(Received(false, status, body)).message;
      |m| > 18 && m[..18] == "iTunes API error: " && DigitsValue(m[18..]) == status
  {
    var m := Checked(Received(false, status, body)).message;
    assert m[18..] == NatToString(status);
    NatToStringRoundTrip(status);
  }

  function PodcastRequest(term: string, limit: nat): (q: Request)
    ensures q.term == term && q.limit == limit && q.media == "podcast" && q.country == "US"
    ensures q.entity == Some("podcast") && q.attribute.None?
  {
    Request(term, "podcast", Some("podcast"), limit, None, "US")
  }

  function EpisodeRequest(term: string, limit: nat): (q: Request)
    ensures q == PodcastRequest(term, limit).(entity := Some("podcastEpisode"))
    ensures q != PodcastRequest(term, limit)
  {
    assert "podcastEpisode" != "podcast" by { assert |"podcastEpisode"| != |"podcast"|; }
    Request(term, "podcast", Some("podcastEpisode"), limit, None, "US")
  }

  function AuthorRequest(term: string, limit: nat): (q: Request)
    ensures q == PodcastRequest(term, limit).(attribute := Some("artistTerm"))
    ensures q != PodcastRequest(term, limit)
  {
    Request(term, "podcast", Some("podcast"), limit, Some("artistTerm"), "US")
  }

  /** `searchPodcasts(term, limit = 50)`. */
  method SearchPodcasts(limiter: RateLimiter, term: string, limit: Option<nat>, now: int, lateness: nat,
                        network: Request -> Outcome, randomIds: nat -> string, nowIso: string)
    returns (r: Result<seq<Podcast>>)
    modifies limiter
    ensures IsBlank(term) ==> r == Ok([]) && limiter.lastRequestTime == old(limiter.lastRequestTime)
    ensures !IsBlank(term) ==>
      limiter.lastRequestTime == now + Wait(old(limiter.lastRequestTime), now) + lateness
    ensures !IsBlank(term) ==>
      var checked := Checked(network(PodcastRequest(term, limit.GetOr(DEFAULT_LIMIT))));
      r == if checked.Ok? then Ok(PodcastsFrom(checked.value.results, randomIds, nowIso)) else Err(checked.message)
  {
    if IsBlank(term) {
      return Ok([]);
    }
    var _ := limiter.RateLimit(now, lateness);
    var response := network(PodcastRequest(term, limit.GetOr(DEFAULT_LIMIT)));
    var checked := Checked(response);
    if checked.Err? {
      return Err(checked.message);
    }
    r := Ok(PodcastsFrom(checked.value.results, randomIds, nowIso));
  }

  /** `searchEpisodes(term, limit = 50)`. */
  method SearchEpisodes(limiter: RateLimiter, term: string, limit: Option<nat>, now: int, lateness: nat,
                        network: Request -> Outcome, randomIds: nat -> string, nowIso: string)
    returns (r: Result<seq<Episode>>)
    modifies limiter
    ensures IsBlank(term) ==> r == Ok([]) && limiter.lastRequestTime == old(limiter.lastRequestTime)
    ensures !IsBlank(term) ==>
      limiter.lastRequestTime == now + Wait(old(limiter.lastRequestTime), now) + lateness
    ensures !IsBlank(term) ==>
      var checked := Checked(network(EpisodeRequest(term, limit.GetOr(DEFAULT_LIMIT))));
      r == if checked.Ok? then Ok(EpisodesFrom(checked.value.results, randomIds, nowIso)) else Err(checked.message)
  {
    if IsBlank(term) {
      return Ok([]);
    }
    var _ := limiter.RateLimit(now, lateness);
    var response := network(EpisodeRequest(term, limit.GetOr(DEFAULT_LIMIT)));
    var checked := Checked(response);
    if checked.Err? {
      return Err(checked.message);
    }
    r := Ok(EpisodesFrom(checked.value.results, randomIds, nowIso));
  }

  /** The authors the author search returns for a response: one per artist group, keeping
      those whose name matches the term case-insensitively. */
  function MatchingAuthors(results: seq<RawResult>, term: string, randomIds: nat -> string): (authors: seq<Author>)
    ensures forall a :: a in authors ==> Contains(ToLower(a.name), ToLower(term))
    ensures Sequences.IsSubsequence(authors, AuthorsOf(Grouping(results), randomIds))
    ensures |authors| <= |FirstAppearance(results)|
    ensures var all := AuthorsOf(Grouping(results), randomIds);
      forall a :: multiset(authors)[a] == if Contains(ToLower(a.name), ToLower(term)) then multiset(all)[a] else 0
  {
    GroupingIsGrouped(results);
    var all := AuthorsOf(Grouping(results), randomIds);
    var kept := Sequences.Filter(all, NameMatches(term));
    assert forall a :: a in kept ==> NameMatches(term)(a);
    Sequences.FilterCounts(all, NameMatches(term));
    kept
  }

  /** A grouped author whose name equals the term up to letter case is always returned. */
  lemma ExactNameSurvives(results: seq<RawResult>, term: string, randomIds: nat -> string, a: Author)
    requires a in AuthorsOf(Grouping(results), randomIds)
    requires ToLower(a.name) == ToLower(term)
    ensures a in MatchingAuthors(results, term, randomIds)
  {
    var all := AuthorsOf(Grouping(results), randomIds);
    ContainsSelf(ToLower(term));
    assert multiset(all)[a] > 0;
  }

  /** A podcast result by the named artist, with no artist id and nothing else filled in. */
  function PodcastBy(artist: string, title: string): RawResult {
    RawResult("track", Some("podcast"), None, None, None, Some(title), None, Some(artist),
              None, None, None, None, None, None, None, None, None, None, None)
  }

  /** Two podcasts by "A" and one by "B", searched for "A": one author, "A", credited with both
      of its podcasts. */
  lemma AuthorSearchExample(randomIds: nat -> string)
    ensures var authors := MatchingAuthors([PodcastBy("A", "one"), PodcastBy("A", "two"), PodcastBy("B", "three")], "A", randomIds);
      |authors| == 1 && authors[0].name == "A" && authors[0].podcastCount == 2
  {
    var a1, a2, b := PodcastBy("A", "one"), PodcastBy("A", "two"), PodcastBy("B", "three");
    assert ArtistKey(a1) == "A" && ArtistKey(a2) == "A" && ArtistKey(b) == "B";
    assert ArtistName(a1) == "A" && ArtistName(b) == "B";
    TwoArtists(a1, a2, b, randomIds);
  }

  /** The example for any three results keyed "A", "A" and "B" and named after their keys. */
  lemma TwoArtists(a1: RawResult, a2: RawResult, b: RawResult, randomIds: nat -> string)
    requires ArtistKey(a1) == "A" && ArtistKey(a2) == "A" && ArtistKey(b) == "B"
    requires ArtistName(a1) == "A" && ArtistName(b) == "B"
    ensures var authors := MatchingAuthors([a1, a2, b], "A", randomIds);
      |authors| == 1 && authors[0].name == "A" && authors[0].podcastCount == 2
  {
    var all := AuthorsOf(Grouping([a1, a2, b]), randomIds);
    ExampleAuthors(a1, a2, b, randomIds);
    OnlyFirstMatches(all);
  }

  /** The grouped authors of the example: "A" with two podcasts, then "B". */
  lemma ExampleAuthors(a1: RawResult, a2: RawResult, b: RawResult, randomIds: nat -> string)
    requires ArtistKey(a1) == "A" && ArtistKey(a2) == "A" && ArtistKey(b) == "B"
    requires ArtistName(a1) == "A" && ArtistName(b) == "B"
    ensures var all := AuthorsOf(Grouping([a1, a2, b]), randomIds);
      |all| == 2 && all[0].name == "A" && all[0].podcastCount == 2 && all[1].name == "B"
  {
    var rs := [a1, a2, b];
    ExampleGroups(a1, a2, b);
    GroupingIsGrouped(rs);
    var g := Grouping(rs);
    assert g.keys == ["A", "B"];
    assert g.entries["A"].result == a1 && |g.entries["A"].podcasts| == 2;
    assert g.entries["B"].result == b;
  }

  /** Of two authors named "A" and "B", the term "A" keeps only the first. */
  lemma OnlyFirstMatches(all: seq<Author>)
    requires |all| == 2 && all[0].name == "A" && all[1].name == "B"
    ensures Sequences.Filter(all, NameMatches("A")) == [all[0]]
  {
    var p := NameMatches("A");
    ExampleMatches();
    assert p(all[0]) && !p(all[1]);
    assert all == [all[0]] + [all[1]];
    Sequences.FilterAppend([all[0]], all[1], p);
    assert [all[0]] == [] + [all[0]];
    Sequences.FilterAppend([], all[0], p);
  }

  /** The artist keys and groups of the example's results. */
  lemma ExampleGroups(a1: RawResult, a2: RawResult, b: RawResult)
    requires ArtistKey(a1) == "A" && ArtistKey(a2) == "A" && ArtistKey(b) == "B"
    ensures FirstAppearance([a1, a2, b]) == ["A", "B"]
    ensures WithKey([a1, a2, b], "A") == [a1, a2] && WithKey([a1, a2, b], "B") == [b]
  {
    assert "A" != "B" by { assert "A"[0] != "B"[0]; }
    ExampleKeys(a1, a2, b, "A", "B");
    ExampleMembers(a1, a2, b, "A", "B");
  }

  lemma ExampleKeys(a1: RawResult, a2: RawResult, b: RawResult, ka: string, kb: string)
    requires ArtistKey(a1) == ka && ArtistKey(a2) == ka && ArtistKey(b) == kb && ka != kb
    ensures FirstAppearance([a1, a2, b]) == [ka, kb]
  {
    assert [a1, a2, b][..2] == [a1, a2] && [a1, a2][..1] == [a1] && [a1][..0] == [];
    assert FirstAppearance([a1]) == [ka];
    assert FirstAppearance([a1, a2]) == [ka];
  }

  lemma ExampleMembers(a1: RawResult, a2: RawResult, b: RawResult, ka: string, kb: string)
    requires ArtistKey(a1) == ka && ArtistKey(a2) == ka && ArtistKey(b) == kb && ka != kb
    ensures WithKey([a1, a2, b], ka) == [a1, a2] && WithKey([a1, a2, b], kb) == [b]
  {
    assert [a1, a2, b][..2] == [a1, a2] && [a1, a2][..1] == [a1] && [a1][..0] == [];
    assert WithKey([a1], ka) == [a1] && WithKey([a1], kb) == [];
    assert WithKey([a1, a2], ka) == [a1, a2] && WithKey([a1, a2], kb) == [];
  }

  /** "A" matches the term "A", and "B" does not. */
  lemma ExampleMatches()
    ensures Contains(ToLower("A"), ToLower("A")) && !Contains(ToLower("B"), ToLower("A"))
  {
    assert ToLower("A") == "a" && ToLower("B") == "b";
    ContainsSelf("a");
    assert "b"[0..1] == "b" && "b"[0] != "a"[0];
  }

  /** `searchAuthors(term, limit = 50)`. */
  method SearchAuthors(limiter: RateLimiter, term: string, limit: Option<nat>, now: int, lateness: nat,
                       network: Request -> Outcome, randomIds: nat -> string)
    returns (r: Result<seq<Author>>)
    modifies limiter
    ensures IsBlank(term) ==> r == Ok([]) && limiter.lastRequestTime == old(limiter.lastRequestTime)
    ensures !IsBlank(term) ==>
      limiter.lastRequestTime == now + Wait(old(limiter.lastRequestTime), now) + lateness
    ensures !IsBlank(term) ==>
      var checked := Checked(network(AuthorRequest(term, limit.GetOr(DEFAULT_LIMIT))));
      r == if checked.Ok? then Ok(MatchingAuthors(checked.value.results, term, randomIds)) else Err(checked.message)
  {
    if IsBlank(term) {
      return Ok([]);
    }
    var _ := limiter.RateLimit(now, lateness);
    var response := network(AuthorRequest(term, limit.GetOr(DEFAULT_LIMIT)));
    var checked := Checked(response);
    if checked.Err? {
      return Err(checked.message);
    }
    var artists := GroupByArtist(checked.value.results);
    GroupingIsGrouped(checked.value.results);
    var authors := AuthorsOf(artists, randomIds);
    r := Ok(Sequences.Filter(authors, NameMatches(term)));
  }

  /** The options of `searchAll`; absent ones take their defaults. */
  datatype SearchAllOptions = SearchAllOptions(term: string, media: Option<string>, limit: Option<nat>, country: Option<string>)

  function AllRequest(options: SearchAllOptions): (q: Request)
    ensures q.term == options.term && q.entity == None && q.attribute == None
    ensures options.media.None? ==> q.media == "all"
    ensures options.limit.None? ==> q.limit == DEFAULT_LIMIT
    ensures options.country.None? ==> q.country == "US"
    ensures options.media.Some? ==> q.media == options.media.value
    ensures options.country.Some? ==> q.country == options.country.value
    ensures options.limit.Some? ==> q.limit == options.limit.value
  {
    Request(options.term, options.media.GetOr("all"), None, options.limit.GetOr(DEFAULT_LIMIT), None, options.country.GetOr("US"))
  }

  /** `searchAll(options)`: the response body as it came. */
  method SearchAll(limiter: RateLimiter, options: SearchAllOptions, now: int, lateness: nat, network: Request -> Outcome)
    returns (r: Result<SearchResponse>)
    modifies limiter
    ensures IsBlank(options.term) ==>
      r == Ok(SearchResponse(0, [])) && limiter.lastRequestTime == old(limiter.lastRequestTime)
    ensures !IsBlank(options.term) ==>
      limiter.lastRequestTime == now + Wait(old(limiter.lastRequestTime), now) + lateness
    ensures !IsBlank(options.term) ==> r == Checked(network(AllRequest(options)))
  {
    if IsBlank(options.term) {
      return Ok(SearchResponse(0, []));
    }
    var _ := limiter.RateLimit(now, lateness);
    var response := network(AllRequest(options));
    r := Checked(response);
  }
}
