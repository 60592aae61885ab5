/** The favourites kept by src/contexts/FavoritesContext.tsx: one set of ids per kind of
    item, replaced by a copy with one id added or removed on every toggle. */
module Favorites {
  import opened Domain

  datatype Favorites = Favorites(podcasts: set<string>, episodes: set<string>, authors: set<string>) {

    /** `favorites[`${type}s`]`. */
    function Of(t: FavoriteType): set<string> {
      match t
      case PodcastFavorite => podcasts
      case EpisodeFavorite => episodes
      case AuthorFavorite => authors
    }

    /** `{...favorites, [`${type}s`]: s}`. */
    function With(t: FavoriteType, s: set<string>): (f: Favorites)
      ensures f.Of(t) == s
      ensures forall u :: u != t ==> f.Of(u) == Of(u)
    {
      match t
      case PodcastFavorite => this.(podcasts := s)
      case EpisodeFavorite => this.(episodes := s)
      case AuthorFavorite => this.(authors := s)
    }
  }

  /** The provider's initial state. */
  function Initial(): (f: Favorites)
    ensures forall t :: f.Of(t) == {}
  {
    Favorites({}, {}, {})
  }

  /** `toggleFavorite(id, type)`: the id leaves the set of its kind if it was there and joins
      it otherwise; every other id, and the other kinds, are left alone. */
  function Toggle(f: Favorites, id: string, t: FavoriteType): (g: Favorites)
    ensures id in g.Of(t) <==> id !in f.Of(t)
    ensures g.Of(t) - {id} == f.Of(t) - {id}
    ensures forall u :: u != t ==> g.Of(u) == f.Of(u)
  {
    var s := f.Of(t);
    f.With(t, if id in s then s - {id} else s + {id})
  }

  /** `isFavorite(id, type)`. */
  function IsFavorite(f: Favorites, id: string, t: FavoriteType): (b: bool)
    ensures b <==> id in f.Of(t)
    ensures b ==> FavoriteCount(f, t) >= 1
  {
    id in f.Of(t)
  }

  /** `getFavoriteCount(type)`. */
  function FavoriteCount(f: Favorites, t: FavoriteType): (n: nat)
    ensures n == 0 <==> f.Of(t) == {}
  {
    |f.Of(t)|
  }

  /** Toggling the same id twice gives back the state it started from. */
  lemma ToggleTwiceRestores(f: Favorites, id: string, t: FavoriteType)
    ensures Toggle(Toggle(f, id, t), id, t) == f
  {
    var g := Toggle(Toggle(f, id, t), id, t);
    assert g.Of(t) == f.Of(t);
    assert g.Of(PodcastFavorite) == f.Of(PodcastFavorite);
    assert g.Of(EpisodeFavorite) == f.Of(EpisodeFavorite);
    assert g.Of(AuthorFavorite) == f.Of(AuthorFavorite);
  }

  /** A toggle flips whether the id is a favourite of that kind, and moves that kind's count
      by one in the matching direction; other kinds keep their answers and counts. */
  lemma ToggleFlipsAndCounts(f: Favorites, id: string, t: FavoriteType)
    ensures IsFavorite(Toggle(f, id, t), id, t) == !IsFavorite(f, id, t)
    ensures FavoriteCount(Toggle(f, id, t), t) ==
      if IsFavorite(f, id, t) then FavoriteCount(f, t) - 1 else FavoriteCount(f, t) + 1
    ensures forall u, x :: u != t ==>
      IsFavorite(Toggle(f, id, t), x, u) == IsFavorite(f, x, u) &&
      FavoriteCount(Toggle(f, id, t), u) == FavoriteCount(f, u)
  {
    var s := f.Of(t);
    if id in s {
      assert Toggle(f, id, t).Of(t) == s - {id};
    } else {
      assert Toggle(f, id, t).Of(t) == s + {id};
    }
  }

  /** Nothing is a favourite at first, and every count starts at zero. */
  lemma InitiallyEmpty(id: string, t: FavoriteType)
    ensures !IsFavorite(Initial(), id, t) && FavoriteCount(Initial(), t) == 0
  {
  }
}
