/** Watchlist: the page listing the saved movies, each merged with its watchlist
    entry, filtered by the watched flag, sorted, counted, and updated in place by
    remove, toggle-watched and rate. */
module Watchlist {
  import opened Wrappers
  import opened Seqs
  import opened Sorting
  import opened JsText
  import opened JsNumber
  import opened MovieService
  import opened WatchlistService
  import opened Apper

  /** A movie record spread together with its `watchlistItem`. */
  datatype WatchlistMovie = WatchlistMovie(movie: Movie, watchlistItem: Entry)

  /** The merge after loading: the i-th fetched movie carries the i-th entry. */
  function Merge(movieResults: seq<Movie>, watchlist: seq<Entry>): (r: seq<WatchlistMovie>)
    requires |movieResults| == |watchlist|
    ensures |r| == |watchlist|
    ensures forall i :: 0 <= i < |r| ==> r[i].movie == movieResults[i] && r[i].watchlistItem == watchlist[i]
  {
    if watchlist == [] then []
    else [WatchlistMovie(movieResults[0], watchlist[0])] + Merge(movieResults[1..], watchlist[1..])
  }

  /** `Promise.all` over `movieService.getById(item.movieId)`: every movie in
      order, or the first failure by position. */
  function FetchAll(items: seq<Entry>, fetchMovie: string -> Result<Movie>): (r: Result<seq<Movie>>)
    ensures r.Success? ==> |r.value| == |items|
    ensures r.Success? ==>
              forall i :: 0 <= i < |items| ==> fetchMovie(items[i].movieId) == Success(r.value[i])
    ensures r.Failure? <==> exists i :: 0 <= i < |items| && fetchMovie(items[i].movieId).Failure?
  {
    if items == [] then Success([])
    else
      match fetchMovie(items[0].movieId)
      case Failure(e) => Failure(e)
      case Success(m) =>
        match FetchAll(items[1..], fetchMovie)
        case Failure(e) =>
          var i :| 0 <= i < |items[1..]| && fetchMovie(items[1..][i].movieId).Failure?;
          assert fetchMovie(items[i + 1].movieId).Failure?;
          Failure(e)
        case Success(rest) =>
          assert forall i :: 1 <= i < |items| ==> items[i] == items[1..][i - 1];
          Success([m] + rest)
  }

  /** `err.message || 'Failed to load watchlist'` */
  function LoadErrorText(message: string): (t: string)
    ensures t != ""
    ensures message != "" ==> t == message
  {
    if message == "" then "Failed to load watchlist" else message
  }

  predicate IsWatched(m: WatchlistMovie) {
    m.watchlistItem.watched
  }

  /** The watched-flag filter of the list: 'watched', 'unwatched', or all. */
  function WatchFilter(movies: seq<WatchlistMovie>, filter: string): seq<WatchlistMovie> {
    if filter == "watched" then Filter(movies, IsWatched)
    else if filter == "unwatched" then Filter(movies, Negation(IsWatched))
    else movies
  }

  /** Whether a movie may pass the given filter. */
  predicate Admits(filter: string, m: WatchlistMovie) {
    (filter == "watched" ==> m.watchlistItem.watched) &&
    (filter == "unwatched" ==> !m.watchlistItem.watched)
  }

  /** The comparator of the list for each sort key; unknown keys give 0. */
  function WatchCompare(sortBy: string): (WatchlistMovie, WatchlistMovie) -> real {
    (a: WatchlistMovie, b: WatchlistMovie) =>
      if sortBy == "added" then (b.watchlistItem.addedDate - a.watchlistItem.addedDate) as real
      else if sortBy == "rating" then b.movie.rating - a.movie.rating
      else if sortBy == "title" then CompareText(a.movie.title, b.movie.title) as real
      else 0.0
  }

  /** What the list shows for a filter and a sort key. */
  function Shown(movies: seq<WatchlistMovie>, filter: string, sortBy: string): seq<WatchlistMovie> {
    StableSort(WatchFilter(movies, filter), WatchCompare(sortBy))
  }

  /** getFilteredAndSortedMovies: a copy, filtered, then sorted in place. */
  method FilteredAndSorted(movies: seq<WatchlistMovie>, filter: string, sortBy: string)
    returns (filtered: seq<WatchlistMovie>)
    ensures filtered == Shown(movies, filter, sortBy)
  {
    filtered := movies;
    if filter == "watched" {
      filtered := Filter(filtered, IsWatched);
    } else if filter == "unwatched" {
      filtered := Filter(filtered, Negation(IsWatched));
    }
    filtered := StableSort(filtered, WatchCompare(sortBy));
  }

  /** The list holds exactly the movies the filter admits, each as often as in
      the loaded list. */
  lemma ShownContents(movies: seq<WatchlistMovie>, filter: string, sortBy: string, m: WatchlistMovie)
    ensures multiset(Shown(movies, filter, sortBy))[m] ==
              if Admits(filter, m) then multiset(movies)[m] else 0
  {
    if filter == "watched" {
      FilterMultiset(movies, IsWatched, m);
    } else if filter == "unwatched" {
      FilterMultiset(movies, Negation(IsWatched), m);
      assert Negation(IsWatched)(m) == !IsWatched(m);
    }
  }

  lemma WatchCompareConsistent(sortBy: string)
    ensures Consistent(WatchCompare(sortBy))
  {
    var cmp := WatchCompare(sortBy);
    if sortBy == "title" {
      forall a: WatchlistMovie, b: WatchlistMovie ensures cmp(a, b) <= 0.0 || cmp(b, a) <= 0.0 {
        CompareTextAntisymmetric(a.movie.title, b.movie.title);
      }
      forall a: WatchlistMovie, b: WatchlistMovie, c: WatchlistMovie | cmp(a, b) <= 0.0 && cmp(b, c) <= 0.0
        ensures cmp(a, c) <= 0.0
      {
        CompareTextTransitive(a.movie.title, b.movie.title, c.movie.title);
      }
    }
  }

  /** 'added' puts the newest entry first, 'rating' gives non-increasing
      rating, 'title' ascending titles; any other key keeps the filtered order. */
  lemma ShownOrder(movies: seq<WatchlistMovie>, filter: string, sortBy: string)
    ensures sortBy == "added" ==>
              forall i, j :: 0 <= i < j < |Shown(movies, filter, sortBy)| ==>
                Shown(movies, filter, sortBy)[i].watchlistItem.addedDate >=
                Shown(movies, filter, sortBy)[j].watchlistItem.addedDate
    ensures sortBy == "rating" ==>
              forall i, j :: 0 <= i < j < |Shown(movies, filter, sortBy)| ==>
                Shown(movies, filter, sortBy)[i].movie.rating >= Shown(movies, filter, sortBy)[j].movie.rating
    ensures sortBy == "title" ==>
              forall i, j :: 0 <= i < j < |Shown(movies, filter, sortBy)| ==>
                CompareText(Shown(movies, filter, sortBy)[i].movie.title,
                            Shown(movies, filter, sortBy)[j].movie.title) <= 0
    ensures sortBy !in {"added", "rating", "title"} ==>
              Shown(movies, filter, sortBy) == WatchFilter(movies, filter)
  {
    var cmp := WatchCompare(sortBy);
    var v := Shown(movies, filter, sortBy);
    WatchCompareConsistent(sortBy);
    SortOrdered(WatchFilter(movies, filter), cmp);
    forall i, j | 0 <= i < j < |v| ensures cmp(v[i], v[j]) <= 0.0 {
    }
    if sortBy !in {"added", "rating", "title"} {
      SortAllTied(WatchFilter(movies, filter), cmp);
    }
  }

  /** `movies.filter(movie => movie.watchlistItem?.watched).length` */
  function WatchedCount(movies: seq<WatchlistMovie>): (n: nat)
    ensures n <= |movies|
  {
    |Filter(movies, IsWatched)|
  }

  function UnwatchedCount(movies: seq<WatchlistMovie>): (n: nat)
    ensures WatchedCount(movies) + n == |movies|
  {
    |movies| - WatchedCount(movies)
  }

  /** The count on each filter button is the length of the list that filter
      shows: All, To Watch and Watched. */
  lemma ButtonCountsMatchLists(movies: seq<WatchlistMovie>, sortBy: string)
    ensures |Shown(movies, "all", sortBy)| == |movies|
    ensures |Shown(movies, "unwatched", sortBy)| == UnwatchedCount(movies)
    ensures |Shown(movies, "watched", sortBy)| == WatchedCount(movies)
  {
    var cmp := WatchCompare(sortBy);
    assert |StableSort(movies, cmp)| == |multiset(movies)|;
    assert |StableSort(Filter(movies, IsWatched), cmp)| == |multiset(Filter(movies, IsWatched))|;
    var un := Filter(movies, Negation(IsWatched));
    assert |StableSort(un, cmp)| == |multiset(un)|;
    FilterSplitCount(movies, IsWatched);
  }

  /** Star k sends the rating 2k. */
  function StarRating(star: int): (rating: int)
    ensures rating / 2 == star && rating % 2 == 0
  {
    star * 2
  }

  /** `userRating && star <= userRating / 2`: set, non-zero, and at least twice
      the star's number. */
  predicate StarFilled(userRating: Option<int>, star: int) {
    userRating.Some? && userRating.value != 0 && star as real <= userRating.value as real / 2.0
  }

  /** After clicking star k, stars 1..k are drawn filled and the rest are not;
      an unset rating fills none. */
  lemma StarsUpToClicked(k: int, star: int)
    requires 1 <= k
    ensures StarFilled(Some(StarRating(k)), star) <==> star <= k
    ensures !StarFilled(None, star)
  {
    assert StarRating(k) as real / 2.0 == k as real;
  }

  /** e is the first entry of items whose movie id is the given text. */
  predicate FirstWithMovieId(items: seq<Entry>, text: string, e: Entry) {
    exists i :: 0 <= i < |items| && items[i] == e && e.movieId == text &&
                forall j :: 0 <= j < i ==> items[j].movieId != text
  }

  /** `items.find(item => item.movieId === movieId.toString())` */
  function EntryFor(items: seq<Entry>, movieId: int): (r: Option<Entry>)
    ensures r.Some? ==> r.value in items && r.value.movieId == IntToString(movieId)
    ensures r.Some? ==> FirstWithMovieId(items, IntToString(movieId), r.value)
    ensures r.None? <==> forall i :: 0 <= i < |items| ==> items[i].movieId != IntToString(movieId)
  {
    Find(items, (e: Entry) => e.movieId == IntToString(movieId))
  }

  /** An entry whose movie id was written by toString is found again by the
      number: the text comparison in removal agrees with parseInt. */
  lemma EntryForParsesBack(items: seq<Entry>, movieId: int)
    requires EntryFor(items, movieId).Some?
    ensures ParseInt(EntryFor(items, movieId).value.movieId) == Some(movieId)
  {
    ParseIntOfToString(movieId, []);
    assert IntToString(movieId) + [] == IntToString(movieId);
  }

  /** `movies.find(m => m.Id === movieId)` */
  function MovieFor(movies: seq<WatchlistMovie>, movieId: int): (r: Option<WatchlistMovie>)
    ensures r.Some? ==> r.value in movies && r.value.movie.Id == movieId
    ensures r.None? <==> forall i :: 0 <= i < |movies| ==> movies[i].movie.Id != movieId
  {
    Find(movies, (m: WatchlistMovie) => m.movie.Id == movieId)
  }

  function EntryIdIsNot(id: int): Entry -> bool {
    (e: Entry) => e.Id != id
  }

  function MovieIdIsNot(movieId: int): WatchlistMovie -> bool {
    (m: WatchlistMovie) => m.movie.Id != movieId
  }

  /** `items.map(item => item.Id === updated.Id ? updated : item)` */
  function ReplaceById(items: seq<Entry>, updated: Entry): (r: seq<Entry>)
    ensures |r| == |items|
    ensures forall i :: 0 <= i < |r| ==> r[i] == if items[i].Id == updated.Id then updated else items[i]
  {
    if items == [] then []
    else [if items[0].Id == updated.Id then updated else items[0]] + ReplaceById(items[1..], updated)
  }

  /** `movies.map(movie => movie.Id === movieId ? {...movie, watchlistItem: updated} : movie)` */
  function AttachToMovie(movies: seq<WatchlistMovie>, movieId: int, updated: Entry): (r: seq<WatchlistMovie>)
    ensures |r| == |movies|
    ensures forall i :: 0 <= i < |r| ==>
              r[i] == if movies[i].movie.Id == movieId then movies[i].(watchlistItem := updated) else movies[i]
  {
    if movies == [] then []
    else
      [if movies[0].movie.Id == movieId then movies[0].(watchlistItem := updated) else movies[0]]
      + AttachToMovie(movies[1..], movieId, updated)
  }

  predicate DistinctMovieIds(movies: seq<WatchlistMovie>) {
    forall i, j :: 0 <= i < j < |movies| ==> movies[i].movie.Id != movies[j].movie.Id
  }

  /** With one row per movie, attaching an entry with the flipped watched flag
      moves the movie between the two counts: watched goes up or down by one. */
  lemma ToggleMovesBetweenCounts(movies: seq<WatchlistMovie>, k: nat, updated: Entry)
    requires k < |movies| && DistinctMovieIds(movies)
    requires updated.watched == !movies[k].watchlistItem.watched
    ensures WatchedCount(AttachToMovie(movies, movies[k].movie.Id, updated)) ==
              WatchedCount(movies) + (if updated.watched then 1 else -1)
    ensures AttachToMovie(movies, movies[k].movie.Id, updated) == movies[k := movies[k].(watchlistItem := updated)]
  {
    var r := AttachToMovie(movies, movies[k].movie.Id, updated);
    var s := movies[k := movies[k].(watchlistItem := updated)];
    assert |r| == |s|;
    forall i | 0 <= i < |r| ensures r[i] == s[i] {
      if i != k {
        assert movies[i].movie.Id != movies[k].movie.Id;
      }
    }
    assert r == s;
    FilterCountUpdate(movies, k, movies[k].(watchlistItem := updated), IsWatched);
  }

  /** A request to watchlistService.update: the entry's Id and the data. */
  datatype UpdateRequest = UpdateRequest(Id: int, data: UpdateData)

  /** The page state: the loaded entries, the merged movies and the controls. */
  class WatchlistPage {
    var watchlistItems: seq<Entry>
    var movies: seq<WatchlistMovie>
    var loading: bool
    var error: Option<string>
    var filter: string
    var sortBy: string

    constructor ()
      ensures watchlistItems == [] && movies == [] && !loading && error.None?
      ensures filter == "all" && sortBy == "added"
    {
      watchlistItems := [];
      movies := [];
      loading := false;
      error := None;
      filter := "all";
      sortBy := "added";
    }

    /** loadWatchlist: the entries are stored as soon as they arrive; the
        movies are replaced only when every movie fetch succeeds. */
    method LoadWatchlist(list: Result<seq<Entry>>, fetchMovie: string -> Result<Movie>)
      modifies this
      ensures !loading && filter == old(filter) && sortBy == old(sortBy)
      ensures list.Failure? ==>
                watchlistItems == old(watchlistItems) && movies == old(movies) &&
                error == Some(LoadErrorText(list.error))
      ensures list.Success? ==> watchlistItems == list.value
      ensures list.Success? && FetchAll(list.value, fetchMovie).Success? ==>
                movies == Merge(FetchAll(list.value, fetchMovie).value, list.value) && error.None?
      ensures list.Success? && FetchAll(list.value, fetchMovie).Failure? ==>
                movies == old(movies) && error == Some(LoadErrorText(FetchAll(list.value, fetchMovie).error))
    {
      loading, error := true, None;
      if list.Failure? {
        error := Some(LoadErrorText(list.error));
      } else {
        watchlistItems := list.value;
        var fetched := FetchAll(list.value, fetchMovie);
        if fetched.Success? {
          movies := Merge(fetched.value, list.value);
        } else {
          error := Some(LoadErrorText(fetched.error));
        }
      }
      loading := false;
    }

    /** handleRemoveFromWatchlist: the entry is looked up by the movie id's
        text; after a delete that does not throw, that entry and that movie
        leave both lists. Returns the Id the delete was sent for. */
    method RemoveFromWatchlist(movieId: int, deleteCall: Call<Written<Row>>)
      returns (deleted: Option<int>)
      modifies this
      ensures deleted.Some? <==> EntryFor(old(watchlistItems), movieId).Some?
      ensures deleted.Some? ==> deleted.value == EntryFor(old(watchlistItems), movieId).value.Id
      ensures deleted.Some? && Delete(deleteCall).Success? ==>
                watchlistItems == Filter(old(watchlistItems), EntryIdIsNot(deleted.value)) &&
                movies == Filter(old(movies), MovieIdIsNot(movieId))
      ensures deleted.None? || Delete(deleteCall).Failure? ==>
                watchlistItems == old(watchlistItems) && movies == old(movies)
      ensures loading == old(loading) && error == old(error)
      ensures filter == old(filter) && sortBy == old(sortBy)
    {
      var item := EntryFor(watchlistItems, movieId);
      deleted := None;
      if item.Some? {
        deleted := Some(item.value.Id);
        if Delete(deleteCall).Success? {
          DropEntry(item.value.Id, movieId);
        }
      }
    }

    /** The two filters a completed delete applies. */
    method DropEntry(entryId: int, movieId: int)
      modifies this
      ensures watchlistItems == Filter(old(watchlistItems), EntryIdIsNot(entryId))
      ensures movies == Filter(old(movies), MovieIdIsNot(movieId))
      ensures loading == old(loading) && error == old(error)
      ensures filter == old(filter) && sortBy == old(sortBy)
    {
      watchlistItems := Filter(watchlistItems, EntryIdIsNot(entryId));
      movies := Filter(movies, MovieIdIsNot(movieId));
    }

    /** The request handleToggleWatched sends: the negated watched flag. */
    function ToggleRequest(movieId: int): (r: Option<UpdateRequest>)
      reads this
      ensures r.Some? <==> MovieFor(movies, movieId).Some?
      ensures r.Some? ==>
                r.value.Id == MovieFor(movies, movieId).value.watchlistItem.Id &&
                r.value.data == UpdateData(Some(!MovieFor(movies, movieId).value.watchlistItem.watched), None)
    {
      match MovieFor(movies, movieId)
      case None => None
      case Some(m) => Some(UpdateRequest(m.watchlistItem.Id, UpdateData(Some(!m.watchlistItem.watched), None)))
    }

    /** The request handleRateMovie sends: only the user rating. */
    function RateRequest(movieId: int, rating: int): (r: Option<UpdateRequest>)
      reads this
      ensures r.Some? <==> MovieFor(movies, movieId).Some?
      ensures r.Some? ==>
                r.value.Id == MovieFor(movies, movieId).value.watchlistItem.Id &&
                r.value.data == UpdateData(None, Some(rating))
    {
      match MovieFor(movies, movieId)
      case None => None
      case Some(m) => Some(UpdateRequest(m.watchlistItem.Id, UpdateData(None, Some(rating))))
    }

    /** The common tail of toggle and rate: after an update that returns an
        entry, that entry replaces the one with its Id and becomes the movie's
        `watchlistItem`; a failed update changes nothing. */
    method ApplyUpdate(movieId: int, updated: Result<Entry>)
      modifies this
      ensures updated.Success? ==>
                watchlistItems == ReplaceById(old(watchlistItems), updated.value) &&
                movies == AttachToMovie(old(movies), movieId, updated.value)
      ensures updated.Failure? ==> watchlistItems == old(watchlistItems) && movies == old(movies)
      ensures loading == old(loading) && error == old(error)
      ensures filter == old(filter) && sortBy == old(sortBy)
    {
      if updated.Success? {
        watchlistItems := ReplaceById(watchlistItems, updated.value);
        movies := AttachToMovie(movies, movieId, updated.value);
      }
    }

    /** handleToggleWatched; nothing is sent and nothing changes when the movie
        is not in the list. */
    method ToggleWatched(movieId: int, updateCall: Call<Written<Row>>)
      returns (sent: Option<UpdateRequest>)
      modifies this
      ensures sent == old(ToggleRequest(movieId))
      ensures sent.Some? && Update(updateCall).Success? ==>
                watchlistItems == ReplaceById(old(watchlistItems), Update(updateCall).value) &&
                movies == AttachToMovie(old(movies), movieId, Update(updateCall).value)
      ensures sent.None? || Update(updateCall).Failure? ==>
                watchlistItems == old(watchlistItems) && movies == old(movies)
      ensures loading == old(loading) && error == old(error)
      ensures filter == old(filter) && sortBy == old(sortBy)
    {
      sent := ToggleRequest(movieId);
      if sent.Some? {
        ApplyUpdate(movieId, Update(updateCall));
      }
    }

    /** handleRateMovie with the rating of the clicked star. */
    method RateMovie(movieId: int, rating: int, updateCall: Call<Written<Row>>)
      returns (sent: Option<UpdateRequest>)
      modifies this
      ensures sent == old(RateRequest(movieId, rating))
      ensures sent.Some? && Update(updateCall).Success? ==>
                watchlistItems == ReplaceById(old(watchlistItems), Update(updateCall).value) &&
                movies == AttachToMovie(old(movies), movieId, Update(updateCall).value)
      ensures sent.None? || Update(updateCall).Failure? ==>
                watchlistItems == old(watchlistItems) && movies == old(movies)
      ensures loading == old(loading) && error == old(error)
      ensures filter == old(filter) && sortBy == old(sortBy)
    {
      sent := RateRequest(movieId, rating);
      if sent.Some? {
        ApplyUpdate(movieId, Update(updateCall));
      }
    }

    method SetFilter(value: string)
      modifies this
      ensures filter == value && sortBy == old(sortBy)
      ensures watchlistItems == old(watchlistItems) && movies == old(movies)
      ensures loading == old(loading) && error == old(error)
    {
      filter := value;
    }

    method SetSortBy(value: string)
      modifies this
      ensures sortBy == value && filter == old(filter)
      ensures watchlistItems == old(watchlistItems) && movies == old(movies)
      ensures loading == old(loading) && error == old(error)
    {
      sortBy := value;
    }
  }

  /** Removal drops every row of the removed entry and of the removed movie and
      keeps every other row. */
  lemma RemovalDropsExactly(items: seq<Entry>, movies: seq<WatchlistMovie>, id: int, movieId: int)
    ensures forall e :: e in Filter(items, EntryIdIsNot(id)) <==> e in items && e.Id != id
    ensures forall m :: m in Filter(movies, MovieIdIsNot(movieId)) <==> m in movies && m.movie.Id != movieId
  {
    forall e ensures e in Filter(items, EntryIdIsNot(id)) <==> e in items && e.Id != id {
      FilterMembership(items, EntryIdIsNot(id), e);
    }
    forall m ensures m in Filter(movies, MovieIdIsNot(movieId)) <==> m in movies && m.movie.Id != movieId {
      FilterMembership(movies, MovieIdIsNot(movieId), m);
    }
  }
}
