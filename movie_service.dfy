/** movieService: movie queries against the backend. Every query is a pass-through
    whose response is interpreted by the rules below; getTrending adds a
    sort-and-slice. */
module MovieService {
  import opened Wrappers
  import opened Seqs
  import opened Sorting
  import opened Apper

  /** A movie record as the components read it; `streamingLinks` holds the
      entries of the platform-to-URL object in their enumeration order. The
      store is asked for `streaming_links`, so this record assumes the link
      object arrives under the camelCase key the components read. */
  datatype Movie = Movie(
    Id: int,
    title: string,
    year: int,
    rating: real,
    genres: seq<string>,
    streamingLinks: Option<seq<(string, string)>>)

  /** The number of movies getTrending keeps. */
  const TrendingCount: nat := 8

  /** The response rule shared by getAll, getByGenre, search, getPopular and
      getNewReleases: an unsuccessful response fails with the backend's message,
      a successful one yields its data, or [] when data is missing. */
  function FetchList(call: Call<Fetched<seq<Movie>>>): (r: Result<seq<Movie>>)
    ensures r.Success? <==> call.Returned? && call.response.success
    ensures r.Failure? ==> r.error == if call.Threw? then call.reason else call.response.message
    ensures r.Success? && call.response.data.None? ==> r.value == []
    ensures r.Success? && call.response.data.Some? ==> r.value == call.response.data.value
  {
    match call
    case Threw(reason) => Failure(reason)
    case Returned(response) =>
      if !response.success then Failure(response.message)
      else Success(response.data.GetOr([]))
  }

  /** getById: a successful response without a record is the error 'Movie not found'. */
  function GetById(call: Call<Fetched<Movie>>): (r: Result<Movie>)
    ensures r.Success? <==> call.Returned? && call.response.success && call.response.data.Some?
    ensures r.Success? ==> r.value == call.response.data.value
    ensures call.Returned? && call.response.success && call.response.data.None? ==>
              r == Failure("Movie not found")
    ensures call.Returned? && !call.response.success ==> r == Failure(call.response.message)
  {
    match call
    case Threw(reason) => Failure(reason)
    case Returned(response) =>
      if !response.success then Failure(response.message)
      else if response.data.None? then Failure("Movie not found")
      else Success(response.data.value)
  }

  /** The comparator `(a, b) => b.rating - a.rating`. */
  function ByRatingDesc(): (Movie, Movie) -> real {
    (a: Movie, b: Movie) => b.rating - a.rating
  }

  /** `movies.sort(byRatingDesc).slice(0, 8)` */
  function TopRated(movies: seq<Movie>): seq<Movie> {
    Take(StableSort(movies, ByRatingDesc()), TrendingCount)
  }

  /** getTrending: getAll's failure passes through; otherwise the top-rated eight. */
  function GetTrending(all: Result<seq<Movie>>): (r: Result<seq<Movie>>)
    ensures r.Failure? <==> all.Failure?
    ensures all.Failure? ==> r.error == all.error
    ensures r.Success? ==> r.value == TopRated(all.value)
  {
    match all
    case Failure(e) => Failure(e)
    case Success(movies) => Success(TopRated(movies))
  }

  lemma ByRatingDescConsistent()
    ensures Consistent(ByRatingDesc())
  {
  }

  /** Sorting with the rating comparator leaves ratings non-increasing. */
  lemma SortedByRating(movies: seq<Movie>)
    ensures forall i, j :: 0 <= i < j < |StableSort(movies, ByRatingDesc())| ==>
              StableSort(movies, ByRatingDesc())[i].rating >= StableSort(movies, ByRatingDesc())[j].rating
  {
    ByRatingDescConsistent();
    SortOrdered(movies, ByRatingDesc());
  }

  /** getTrending keeps min(8, n) movies in non-increasing rating and takes each
      at most as often as it occurs. */
  lemma TopRatedSpec(movies: seq<Movie>)
    ensures |TopRated(movies)| == Min(8, |movies|)
    ensures forall i, j :: 0 <= i < j < |TopRated(movies)| ==>
              TopRated(movies)[i].rating >= TopRated(movies)[j].rating
    ensures multiset(TopRated(movies)) <= multiset(movies)
  {
    var sorted := StableSort(movies, ByRatingDesc());
    var k := |TopRated(movies)|;
    SortedByRating(movies);
    assert sorted == sorted[..k] + sorted[k..];
  }

  /** No movie getTrending leaves out is rated above one it keeps. */
  lemma TopRatedExcludesLower(movies: seq<Movie>)
    ensures forall x, y :: x in multiset(movies) - multiset(TopRated(movies)) && y in TopRated(movies) ==>
              x.rating <= y.rating
  {
    var sorted := StableSort(movies, ByRatingDesc());
    var r := TopRated(movies);
    var k := |r|;
    var rest := sorted[k..];
    SortedByRating(movies);
    assert sorted == r + rest;
    assert multiset(movies) == multiset(r) + multiset(rest);
    forall x, y | x in multiset(movies) - multiset(r) && y in r ensures x.rating <= y.rating {
      assert x in multiset(rest);
      assert x in rest;
      var a :| 0 <= a < |rest| && rest[a] == x;
      var b :| 0 <= b < k && r[b] == y;
      assert sorted[k + a] == x && sorted[b] == y;
    }
  }
}
