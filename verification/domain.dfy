/** The records the search code hands to the pages (src/types/index.ts). */
module Domain {
  import opened Wrappers

  datatype Podcast = Podcast(
    id: string,
    title: string,
    author: string,
    description: string,
    imageUrl: string,
    category: string,
    episodeCount: nat,
    latestEpisodeDate: string)

  datatype Episode = Episode(
    id: string,
    title: string,
    podcastTitle: string,
    podcastAuthor: string,
    description: string,
    duration: string,
    releaseDate: string,
    episodeNumber: Option<nat>)

  datatype Author = Author(
    id: string,
    name: string,
    bio: string,
    imageUrl: string,
    podcastCount: nat,
    totalEpisodes: nat,
    genres: seq<string>)

  datatype FavoriteType = PodcastFavorite | EpisodeFavorite | AuthorFavorite
}
