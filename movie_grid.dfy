/** MovieGrid: a grid of movie cards that marks the movies already in the
    watchlist, kept in a set of movie ids. */
module MovieGrid {
  import opened Wrappers
  import opened JsNumber
  import opened MovieService
  import opened WatchlistService

  /** `new Set(watchlist.map(item => parseInt(item.movieId)))`; a movie id that
      does not parse (NaN) matches no movie and is left out. */
  function MovieIdSet(entries: seq<Entry>): (ids: set<int>)
    ensures forall n :: n in ids ==> exists i :: 0 <= i < |entries| && ParseInt(entries[i].movieId) == Some(n)
    ensures forall i :: 0 <= i < |entries| && ParseInt(entries[i].movieId).Some? ==>
              ParseInt(entries[i].movieId).value in ids
  {
    if entries == [] then {}
    else
      var rest := MovieIdSet(entries[1..]);
      assert forall i :: 1 <= i < |entries| ==> entries[i] == entries[1..][i - 1];
      match ParseInt(entries[0].movieId)
      case None => rest
      case Some(n) => {n} + rest
  }

  /** An entry saved with a movie's id as text marks that movie. */
  lemma SavedEntryMarksMovie(entries: seq<Entry>, i: int, n: int)
    requires 0 <= i < |entries| && entries[i].movieId == IntToString(n)
    ensures n in MovieIdSet(entries)
  {
    ParseIntOfToString(n, []);
    assert IntToString(n) + [] == IntToString(n);
  }

  /** loadWatchlistStatus: the ids on success, the empty set on failure. */
  function LoadedSet(all: Result<seq<Entry>>): (ids: set<int>)
    ensures all.Failure? ==> ids == {}
    ensures all.Success? ==> ids == MovieIdSet(all.value)
  {
    match all
    case Success(entries) => MovieIdSet(entries)
    case Failure(_) => {}
  }

  /** handleWatchlistChange on a copy of the previous set: the id is added or
      deleted, every other id keeps its membership. */
  function WithMembership(prev: set<int>, movieId: int, isInWatchlist: bool): (ids: set<int>)
    ensures movieId in ids <==> isInWatchlist
    ensures forall x :: x != movieId ==> (x in ids <==> x in prev)
  {
    if isInWatchlist then prev + {movieId} else prev - {movieId}
  }

  /** Adding then deleting an id leaves the set as it was without the id, and
      deleting then adding as it was with it. */
  lemma MembershipRoundTrip(prev: set<int>, movieId: int)
    ensures WithMembership(WithMembership(prev, movieId, true), movieId, false) == prev - {movieId}
    ensures WithMembership(WithMembership(prev, movieId, false), movieId, true) == prev + {movieId}
    ensures movieId !in prev ==> WithMembership(WithMembership(prev, movieId, true), movieId, false) == prev
  {
  }

  /** A card: the movie and its `isInWatchlist` flag. */
  datatype Card = Card(movie: Movie, isInWatchlist: bool)

  /** One card per movie, in order, flagged by membership of the movie's Id. */
  function Cards(movies: seq<Movie>, watchlistItems: set<int>): (cards: seq<Card>)
    ensures |cards| == |movies|
    ensures forall i :: 0 <= i < |cards| ==>
              cards[i].movie == movies[i] && (cards[i].isInWatchlist <==> movies[i].Id in watchlistItems)
  {
    if movies == [] then []
    else [Card(movies[0], movies[0].Id in watchlistItems)] + Cards(movies[1..], watchlistItems)
  }

  const SkeletonCount: nat := 10

  /** Which view the grid renders. */
  datatype View = Skeletons(count: nat) | ErrorView(message: string) | EmptyView(title: string, description: string)
                | GridView(cards: seq<Card>)

  /** An error prop is shown when it is a non-empty string. */
  predicate Truthy(error: Option<string>) {
    error.Some? && error.value != ""
  }

  /** Loading first, then the error, then the empty message, then the grid. */
  function Render(movies: seq<Movie>, loading: bool, error: Option<string>, watchlistItems: set<int>,
                  emptyTitle: string, emptyDescription: string): (v: View)
    ensures v.Skeletons? <==> loading
    ensures v.ErrorView? <==> !loading && Truthy(error)
    ensures v.EmptyView? <==> !loading && !Truthy(error) && movies == []
    ensures v.GridView? ==> |v.cards| == |movies| > 0 && v.cards == Cards(movies, watchlistItems)
    ensures v.Skeletons? ==> v.count == SkeletonCount
    ensures v.ErrorView? ==> v.message == error.value
    ensures v.EmptyView? ==> v.title == emptyTitle && v.description == emptyDescription
  {
    if loading then Skeletons(SkeletonCount)
    else if Truthy(error) then ErrorView(error.value)
    else if |movies| == 0 then EmptyView(emptyTitle, emptyDescription)
    else GridView(Cards(movies, watchlistItems))
  }

  /** The grid's component state: the watchlist id set. */
  class Grid {
    var watchlistItems: set<int>

    constructor ()
      ensures watchlistItems == {}
    {
      watchlistItems := {};
    }

    /** The effect on `movies`: the status is loaded only for a non-empty list. */
    method MoviesEffect(movies: seq<Movie>, all: Result<seq<Entry>>)
      modifies this
      ensures |movies| > 0 ==> watchlistItems == LoadedSet(all)
      ensures |movies| == 0 ==> watchlistItems == old(watchlistItems)
    {
      if |movies| > 0 {
        watchlistItems := LoadedSet(all);
      }
    }

    method HandleWatchlistChange(movieId: int, isInWatchlist: bool)
      modifies this
      ensures watchlistItems == WithMembership(old(watchlistItems), movieId, isInWatchlist)
    {
      var newSet := watchlistItems;
      if isInWatchlist {
        newSet := newSet + {movieId};
      } else {
        newSet := newSet - {movieId};
      }
      watchlistItems := newSet;
    }
  }
}
