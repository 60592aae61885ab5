/** From raw iTunes search results to domain records (the `mapITunesResultTo*` mappers and the
    per-kind result filters of src/lib/itunesApi.ts). JavaScript's `a || b` falls through on
    `""`, `0` and an absent field alike; `Math.random()` ids and `new Date().toISOString()`
    dates are parameters. */
module ItunesMapping {
  import opened Wrappers
  import opened Text
  import opened Domain
  import Sequences

  /** One element of the response's `results` array, with the fields the mappers read. */
  datatype RawResult = RawResult(
    wrapperType: string,
    kind: Option<string>,
    collectionId: Option<nat>,
    trackId: Option<nat>,
    artistId: Option<nat>,
    collectionName: Option<string>,
    trackName: Option<string>,
    artistName: Option<string>,
    artworkUrl600: Option<string>,
    artworkUrl100: Option<string>,
    artworkUrl60: Option<string>,
    releaseDate: Option<string>,
    trackCount: Option<nat>,
    primaryGenreName: Option<string>,
    shortDescription: Option<string>,
    longDescription: Option<string>,
    description: Option<string>,
    trackTimeMillis: Option<nat>,
    genres: Option<seq<string>>)

  predicate Truthy(s: Option<string>) {
    s.Some? && s.value != ""
  }

  predicate TruthyNumber(n: Option<nat>) {
    n.Some? && n.value != 0
  }

  /** `c0 || c1 || … || fallback`: the first truthy candidate, else the fallback. */
  function FirstTruthy(candidates: seq<Option<string>>, fallback: string): (r: string)
    ensures fallback != "" ==> r != ""
    ensures (forall i :: 0 <= i < |candidates| ==> !Truthy(candidates[i])) ==> r == fallback
    ensures forall i :: 0 <= i < |candidates| && Truthy(candidates[i]) && (forall j :: 0 <= j < i ==> !Truthy(candidates[j])) ==>
      r == candidates[i].value
  {
    if candidates == [] then fallback
    else if Truthy(candidates[0]) then candidates[0].value
    else FirstTruthy(candidates[1..], fallback)
  }

  /** `n || fallback` on a number. */
  function NumberOr(n: Option<nat>, fallback: nat): nat {
    if TruthyNumber(n) then n.value else fallback
  }

  /** `String(a || b || Math.random())`, the random part given as `randomId`. */
  function IdOf(a: Option<nat>, b: Option<nat>, randomId: string): (id: string)
    ensures TruthyNumber(a) ==> AllDigits(id) && DigitsValue(id) == a.value
    ensures !TruthyNumber(a) && TruthyNumber(b) ==> AllDigits(id) && DigitsValue(id) == b.value
    ensures !TruthyNumber(a) && !TruthyNumber(b) ==> id == randomId
  {
    if TruthyNumber(a) then NatToStringRoundTrip(a.value); NatToString(a.value)
    else if TruthyNumber(b) then NatToStringRoundTrip(b.value); NatToString(b.value)
    else randomId
  }

  /** `longDescription || description || shortDescription || 'No description available'`. */
  function Description(r: RawResult): (d: string)
    ensures d != ""
    ensures Truthy(r.longDescription) ==> d == r.longDescription.value
    ensures !Truthy(r.longDescription) && Truthy(r.description) ==> d == r.description.value
    ensures !Truthy(r.longDescription) && !Truthy(r.description) && Truthy(r.shortDescription) ==> d == r.shortDescription.value
    ensures !Truthy(r.longDescription) && !Truthy(r.description) && !Truthy(r.shortDescription) ==> d == "No description available"
  {
    var texts := [r.longDescription, r.description, r.shortDescription];
    assert texts[0] == r.longDescription && texts[1] == r.description && texts[2] == r.shortDescription;
    FirstTruthy(texts, "No description available")
  }

  /** `artistName || 'Unknown Artist'`. */
  function ArtistName(r: RawResult): (name: string)
    ensures name == if Truthy(r.artistName) then r.artistName.value else "Unknown Artist"
  {
    FirstTruthy([r.artistName], "Unknown Artist")
  }

  const PODCAST_IMAGE := "https://via.placeholder.com/300/4A90E2/ffffff?text=Podcast"
  const AUTHOR_IMAGE := "https://via.placeholder.com/150/4A90E2/ffffff?text=Author"

  /** `artworkUrl600 || artworkUrl100 || artworkUrl60 || placeholder`. */
  function Artwork(r: RawResult, placeholder: string): (url: string)
    ensures placeholder != "" ==> url != ""
    ensures Truthy(r.artworkUrl600) ==> url == r.artworkUrl600.value
    ensures !Truthy(r.artworkUrl600) && Truthy(r.artworkUrl100) ==> url == r.artworkUrl100.value
    ensures !Truthy(r.artworkUrl600) && !Truthy(r.artworkUrl100) && Truthy(r.artworkUrl60) ==> url == r.artworkUrl60.value
    ensures !Truthy(r.artworkUrl600) && !Truthy(r.artworkUrl100) && !Truthy(r.artworkUrl60) ==> url == placeholder
  {
    var urls := [r.artworkUrl600, r.artworkUrl100, r.artworkUrl60];
    assert urls[0] == r.artworkUrl600 && urls[1] == r.artworkUrl100 && urls[2] == r.artworkUrl60;
    FirstTruthy(urls, placeholder)
  }

  function MapToPodcast(r: RawResult, randomId: string, nowIso: string): (p: Podcast)
    ensures p.title != "" && p.author != "" && p.description != "" && p.imageUrl != "" && p.category != ""
    ensures Truthy(r.collectionName) ==> p.title == r.collectionName.value
    ensures !Truthy(r.collectionName) && Truthy(r.trackName) ==> p.title == r.trackName.value
    ensures !Truthy(r.collectionName) && !Truthy(r.trackName) ==> p.title == "Unknown Podcast"
    ensures p.id == IdOf(r.collectionId, r.trackId, randomId)
    ensures TruthyNumber(r.collectionId) ==> p.id == NatToString(r.collectionId.value)
    ensures randomId != "" ==> p.id != ""
    ensures p.author == ArtistName(r) && p.description == Description(r)
    ensures p.imageUrl == Artwork(r, PODCAST_IMAGE)
    ensures p.category == if Truthy(r.primaryGenreName) then r.primaryGenreName.value else "Uncategorized"
    ensures p.episodeCount == r.trackCount.GetOr(0)
    ensures p.latestEpisodeDate == if Truthy(r.releaseDate) then r.releaseDate.value else nowIso
  {
    var titles := [r.collectionName, r.trackName];
    assert titles[0] == r.collectionName && titles[1] == r.trackName;
    Podcast(
      IdOf(r.collectionId, r.trackId, randomId),
      FirstTruthy(titles, "Unknown Podcast"),
      ArtistName(r),
      Description(r),
      Artwork(r, PODCAST_IMAGE),
      FirstTruthy([r.primaryGenreName], "Uncategorized"),
      NumberOr(r.trackCount, 0),
      FirstTruthy([r.releaseDate], nowIso))
  }

  /** `padStart(2, '0')`. */
  function PadTwo(s: string): (r: string)
    ensures |r| == if |s| < 2 then 2 else |s|
    ensures r[|r| - |s|..] == s && forall i :: 0 <= i < |r| - |s| ==> r[i] == '0'
  {
    if |s| < 2 then seq(2 - |s|, _ => '0') + s else s
  }

  /** `${minutes}:${seconds.padStart(2, '0')}` for a duration in milliseconds. */
  function FormatDuration(ms: nat): (d: string)
    ensures |d| >= 4 && d[|d| - 3] == ':' && AllDigits(d[|d| - 2..])
  {
    SecondsPadToTwo((ms % 60000) / 1000);
    NatToString(ms / 60000) + ":" + PadTwo(NatToString((ms % 60000) / 1000))
  }

  /** Seconds below a minute pad to exactly two digits. */
  lemma SecondsPadToTwo(seconds: nat)
    requires seconds < 60
    ensures var p := PadTwo(NatToString(seconds)); |p| == 2 && AllDigits(p)
  {
    var s := NatToString(seconds);
    if seconds >= 10 {
      assert s == NatToString(seconds / 10) + [DigitChar(seconds % 10)];
      assert seconds / 10 < 10;
    }
  }

  /** A formatted duration reads back as whole minutes, a colon and two second digits in 00..59;
      together they account for the duration to within one second. */
  lemma DurationReadsBack(ms: nat)
    ensures var d := FormatDuration(ms);
      && |d| >= 4 && d[|d| - 3] == ':'
      && AllDigits(d[..|d| - 3]) && AllDigits(d[|d| - 2..])
      && DigitsValue(d[..|d| - 3]) == ms / 60000
      && DigitsValue(d[|d| - 2..]) == (ms % 60000) / 1000 <= 59
      && DigitsValue(d[..|d| - 3]) * 60000 + DigitsValue(d[|d| - 2..]) * 1000 <= ms
      && ms < DigitsValue(d[..|d| - 3]) * 60000 + DigitsValue(d[|d| - 2..]) * 1000 + 1000
  {
    var minutes, seconds := ms / 60000, (ms % 60000) / 1000;
    var d := FormatDuration(ms);
    MinutesAndSeconds(ms);
    DurationParts(ms);
    NatToStringRoundTrip(minutes);
    NatToStringRoundTrip(seconds);
    SecondsPadToTwo(seconds);
    TwoDigitsValue(NatToString(seconds), d[|d| - 2..]);
  }

  /** Whole minutes and the seconds left over account for `ms` to within one second. */
  lemma MinutesAndSeconds(ms: nat)
    ensures (ms % 60000) / 1000 <= 59
    ensures (ms / 60000) * 60000 + ((ms % 60000) / 1000) * 1000 <= ms
    ensures ms < (ms / 60000) * 60000 + ((ms % 60000) / 1000) * 1000 + 1000
  {
  }

  /** The text before the last three characters is the minutes, and the last two are the padded seconds. */
  lemma DurationParts(ms: nat)
    ensures var d := FormatDuration(ms);
      d[..|d| - 3] == NatToString(ms / 60000) && d[|d| - 2..] == PadTwo(NatToString((ms % 60000) / 1000))
  {
    var m, p := NatToString(ms / 60000), PadTwo(NatToString((ms % 60000) / 1000));
    SecondsPadToTwo((ms % 60000) / 1000);
    assert FormatDuration(ms) == m + ":" + p;
  }

  lemma TwoDigitsValue(s: string, p: string)
    requires AllDigits(s) && 1 <= |s| <= 2 && p == PadTwo(s)
    ensures AllDigits(p) && DigitsValue(p) == DigitsValue(s)
  {
    if |s| == 1 {
      assert p == ['0'] + s;
      assert p[..1] == ['0'];
      assert s[..0] == [];
      assert p[..1][..0] == [];
    }
  }

  /** A result without `trackTimeMillis` (or with 0) shows as "0:00". */
  lemma MissingDurationIsZero()
    ensures FormatDuration(0) == "0:00"
  {
    assert NatToString(0) == "0";
    assert PadTwo("0") == "00";
  }

  function MapToEpisode(r: RawResult, randomId: string, nowIso: string): (e: Episode)
    ensures e.title != "" && e.podcastTitle != "" && e.podcastAuthor != "" && e.description != ""
    ensures Truthy(r.trackName) ==> e.title == r.trackName.value
    ensures !Truthy(r.trackName) && Truthy(r.collectionName) ==> e.title == r.collectionName.value
    ensures !Truthy(r.trackName) && !Truthy(r.collectionName) ==> e.title == "Unknown Episode"
    ensures e.id == IdOf(r.trackId, r.collectionId, randomId)
    ensures TruthyNumber(r.trackId) ==> e.id == NatToString(r.trackId.value)
    ensures randomId != "" ==> e.id != ""
    ensures e.podcastTitle == if Truthy(r.collectionName) then r.collectionName.value else "Unknown Podcast"
    ensures e.podcastAuthor == ArtistName(r) && e.description == Description(r)
    ensures e.duration == FormatDuration(r.trackTimeMillis.GetOr(0))
    ensures e.releaseDate == if Truthy(r.releaseDate) then r.releaseDate.value else nowIso
    ensures e.episodeNumber == None
  {
    var titles := [r.trackName, r.collectionName];
    assert titles[0] == r.trackName && titles[1] == r.collectionName;
    Episode(
      IdOf(r.trackId, r.collectionId, randomId),
      FirstTruthy(titles, "Unknown Episode"),
      FirstTruthy([r.collectionName], "Unknown Podcast"),
      ArtistName(r),
      Description(r),
      FormatDuration(NumberOr(r.trackTimeMillis, 0)),
      FirstTruthy([r.releaseDate], nowIso),
      None)
  }

  function MapToAuthor(r: RawResult, podcastCount: nat, randomId: string): (a: Author)
    ensures a.name != "" && a.bio != "" && a.imageUrl != ""
    ensures a.podcastCount == podcastCount
    ensures a.name == ArtistName(r)
    ensures a.id == IdOf(r.artistId, r.collectionId, randomId)
    ensures TruthyNumber(r.artistId) ==> a.id == NatToString(r.artistId.value)
    ensures Truthy(r.longDescription) ==> a.bio == r.longDescription.value
    ensures !Truthy(r.longDescription) && Truthy(r.description) ==> a.bio == r.description.value
    ensures !Truthy(r.longDescription) && !Truthy(r.description) ==>
      a.bio == "Creator of " + (if Truthy(r.collectionName) then r.collectionName.value else "podcasts")
    ensures a.imageUrl == Artwork(r, AUTHOR_IMAGE)
    ensures a.totalEpisodes == r.trackCount.GetOr(0)
    ensures r.genres.Some? ==> a.genres == r.genres.value
    ensures r.genres.None? ==> a.genres == [FirstTruthy([r.primaryGenreName], "Podcast")]
  {
    var texts := [r.longDescription, r.description];
    assert texts[0] == r.longDescription && texts[1] == r.description;
    Author(
      IdOf(r.artistId, r.collectionId, randomId),
      ArtistName(r),
      FirstTruthy(texts, "Creator of " + FirstTruthy([r.collectionName], "podcasts")),
      Artwork(r, AUTHOR_IMAGE),
      podcastCount,
      NumberOr(r.trackCount, 0),
      if r.genres.Some? then r.genres.value
      else if Truthy(r.primaryGenreName) then [r.primaryGenreName.value]
      else ["Podcast"])
  }

  /** The podcast search keeps results that are tracks or of kind "podcast". */
  function IsPodcastResult(r: RawResult): (b: bool)
    ensures b <==> r.wrapperType == "track" || r.kind == Some("podcast")
    ensures r.wrapperType != "track" && IsEpisodeResult(r) ==> !b
  {
    r.wrapperType == "track" || r.kind == Some("podcast")
  }

  /** The episode search keeps results of kind "podcast-episode". */
  function IsEpisodeResult(r: RawResult): (b: bool)
    ensures b ==> r.kind.Some? && r.kind.value == "podcast-episode"
  {
    r.kind == Some("podcast-episode")
  }

  /** `results.filter(isPodcast).map(mapITunesResultToPodcast)`; `randomIds(i)` is the
      `Math.random()` the i-th mapped result would draw. */
  function PodcastsFrom(results: seq<RawResult>, randomIds: nat -> string, nowIso: string): (ps: seq<Podcast>)
    ensures var kept := Sequences.Filter(results, IsPodcastResult);
      |ps| == |kept| && forall i :: 0 <= i < |ps| ==> ps[i] == MapToPodcast(kept[i], randomIds(i), nowIso)
  {
    var kept := Sequences.Filter(results, IsPodcastResult);
    seq(|kept|, i requires 0 <= i < |kept| => MapToPodcast(kept[i], randomIds(i), nowIso))
  }

  /** `results.filter(isEpisode).map(mapITunesResultToEpisode)`. */
  function EpisodesFrom(results: seq<RawResult>, randomIds: nat -> string, nowIso: string): (es: seq<Episode>)
    ensures var kept := Sequences.Filter(results, IsEpisodeResult);
      |es| == |kept| && forall i :: 0 <= i < |es| ==> es[i] == MapToEpisode(kept[i], randomIds(i), nowIso)
  {
    var kept := Sequences.Filter(results, IsEpisodeResult);
    seq(|kept|, i requires 0 <= i < |kept| => MapToEpisode(kept[i], randomIds(i), nowIso))
  }

  /** Each podcast or episode produced comes from a result of the right kind, in input order,
      and every result of that kind produces one. */
  lemma ResultFiltersKeepExactly(results: seq<RawResult>, r: RawResult)
    requires r in results
    ensures r in Sequences.Filter(results, IsPodcastResult) <==> (r.wrapperType == "track" || r.kind == Some("podcast"))
    ensures r in Sequences.Filter(results, IsEpisodeResult) <==> r.kind == Some("podcast-episode")
  {
    Sequences.FilterKeeps(results, IsPodcastResult, r);
    Sequences.FilterKeeps(results, IsEpisodeResult, r);
  }
}
