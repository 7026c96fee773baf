/** MovieDetail: the page of one movie, with related movies of its first genre,
    its streaming buttons and the add/remove watchlist toggle. */
module MovieDetail {
  import opened Wrappers
  import opened Seqs
  import opened MovieService
  import opened WatchlistService
  import opened Apper

  const RelatedLimit: nat := 4

  function IdIsNot(id: int): Movie -> bool {
    (m: Movie) => m.Id != id
  }

  /** `related.filter(m => m.Id !== movie.Id).slice(0, 4)` */
  function RelatedMovies(movie: Movie, related: seq<Movie>): seq<Movie> {
    Take(Filter(related, IdIsNot(movie.Id)), RelatedLimit)
  }

  /** At most four, never the movie itself, all from the genre results and in
      their order; fewer than four only when no other candidate was left. */
  lemma RelatedMoviesSpec(movie: Movie, related: seq<Movie>)
    ensures |RelatedMovies(movie, related)| <= RelatedLimit
    ensures forall m :: m in RelatedMovies(movie, related) ==> m in related && m.Id != movie.Id
    ensures RelatedMovies(movie, related) == Filter(related, IdIsNot(movie.Id))[..|RelatedMovies(movie, related)|]
    ensures |RelatedMovies(movie, related)| < RelatedLimit ==>
              forall m :: m in related && m.Id != movie.Id ==> m in RelatedMovies(movie, related)
  {
    forall m ensures m in Filter(related, IdIsNot(movie.Id)) <==> m in related && m.Id != movie.Id {
      FilterMembership(related, IdIsNot(movie.Id), m);
    }
  }

  /** The display name of each known platform key. */
  function PlatformName(platform: string): (name: Option<string>)
    ensures name.Some? <==> platform in {"netflix", "prime", "hulu", "disney", "hbo", "apple", "shudder"}
  {
    if platform == "netflix" then Some("Netflix")
    else if platform == "prime" then Some("Prime Video")
    else if platform == "hulu" then Some("Hulu")
    else if platform == "disney" then Some("Disney+")
    else if platform == "hbo" then Some("HBO Max")
    else if platform == "apple" then Some("Apple TV+")
    else if platform == "shudder" then Some("Shudder")
    else None
  }

  /** A streaming button: the link's platform key and url, with the platform's
      name when the key is known. */
  datatype StreamingButton = StreamingButton(platform: string, url: string, name: Option<string>)

  function LinkButtons(links: seq<(string, string)>): (buttons: seq<StreamingButton>)
    ensures |buttons| == |links|
    ensures forall i :: 0 <= i < |links| ==>
              buttons[i].platform == links[i].0 && buttons[i].url == links[i].1 &&
              buttons[i].name == PlatformName(links[i].0)
  {
    if links == [] then []
    else [StreamingButton(links[0].0, links[0].1, PlatformName(links[0].0))] + LinkButtons(links[1..])
  }

  /** getStreamingButtons: none without links; otherwise one button per link
      entry, in order (the trailing `filter(Boolean)` keeps every object). */
  function StreamingButtons(movie: Option<Movie>): (buttons: seq<StreamingButton>)
    ensures movie.None? || movie.value.streamingLinks.None? ==> buttons == []
    ensures movie.Some? && movie.value.streamingLinks.Some? ==>
              buttons == LinkButtons(movie.value.streamingLinks.value)
  {
    if movie.Some? && movie.value.streamingLinks.Some? then LinkButtons(movie.value.streamingLinks.value)
    else []
  }

  /** `err.message || 'Failed to load movie details'` */
  function LoadErrorText(message: string): (t: string)
    ensures t != "" && (message != "" ==> t == message)
  {
    if message == "" then "Failed to load movie details" else message
  }

  /** What the page renders. */
  datatype View = Loading | ErrorView(message: string) | Nothing
                | PageView(movie: Movie, related: seq<Movie>, buttons: seq<StreamingButton>, inWatchlist: bool)

  /** Loading first, then a non-empty error, then nothing without a movie,
      then the page. */
  function Render(movie: Option<Movie>, related: seq<Movie>, loading: bool, error: Option<string>,
                  isInWatchlist: bool): (v: View)
    ensures v.Loading? <==> loading
    ensures v.ErrorView? <==> !loading && error.Some? && error.value != ""
    ensures v.Nothing? <==> !loading && (error.None? || error.value == "") && movie.None?
    ensures v.PageView? ==> v.movie == movie.value && v.buttons == StreamingButtons(movie)
    ensures v.PageView? ==> v.related == related && v.inWatchlist == isInWatchlist
    ensures v.ErrorView? ==> v.message == error.value
  {
    if loading then Loading
    else if error.Some? && error.value != "" then ErrorView(error.value)
    else if movie.None? then Nothing
    else PageView(movie.value, related, StreamingButtons(movie), isInWatchlist)
  }

  class DetailPage {
    const id: string
    var movie: Option<Movie>
    var relatedMovies: seq<Movie>
    var loading: bool
    var error: Option<string>
    var isInWatchlist: bool
    var watchlistLoading: bool

    constructor (id: string)
      ensures this.id == id && movie.None? && relatedMovies == [] && !loading && error.None?
      ensures !isInWatchlist && !watchlistLoading
    {
      this.id := id;
      movie := None;
      relatedMovies := [];
      loading := false;
      error := None;
      isInWatchlist := false;
      watchlistLoading := false;
    }

    /** loadMovie, given getById's outcome and the outcome of getByGenre for
        the movie's first genre; that second fetch is made, and its genre
        returned, only when the movie has genres. Related movies are left as
        they were when it is not made. */
    method LoadMovie(fetched: Result<Movie>, byGenre: Result<seq<Movie>>) returns (genreAsked: Option<string>)
      modifies this
      ensures !loading && isInWatchlist == old(isInWatchlist) && watchlistLoading == old(watchlistLoading)
      ensures fetched.Failure? ==>
                genreAsked.None? && movie == old(movie) && relatedMovies == old(relatedMovies) &&
                error == Some(LoadErrorText(fetched.error))
      ensures fetched.Success? ==> movie == Some(fetched.value)
      ensures fetched.Success? ==>
                (genreAsked.Some? <==> |fetched.value.genres| > 0) &&
                (genreAsked.Some? ==> genreAsked.value == fetched.value.genres[0])
      ensures fetched.Success? && genreAsked.None? ==> relatedMovies == old(relatedMovies) && error.None?
      ensures fetched.Success? && genreAsked.Some? && byGenre.Success? ==>
                relatedMovies == RelatedMovies(fetched.value, byGenre.value) && error.None?
      ensures fetched.Success? && genreAsked.Some? && byGenre.Failure? ==>
                relatedMovies == old(relatedMovies) && error == Some(LoadErrorText(byGenre.error))
    {
      loading, error := true, None;
      genreAsked := None;
      if fetched.Failure? {
        error := Some(LoadErrorText(fetched.error));
      } else {
        movie := Some(fetched.value);
        if |fetched.value.genres| > 0 {
          genreAsked := Some(fetched.value.genres[0]);
          ShowRelated(fetched.value, byGenre);
        }
      }
      loading := false;
    }

    /** The related-movies step of loadMovie. */
    method ShowRelated(current: Movie, byGenre: Result<seq<Movie>>)
      modifies this
      ensures byGenre.Success? ==> relatedMovies == RelatedMovies(current, byGenre.value) && error == old(error)
      ensures byGenre.Failure? ==> relatedMovies == old(relatedMovies) && error == Some(LoadErrorText(byGenre.error))
      ensures movie == old(movie) && loading == old(loading)
      ensures isInWatchlist == old(isInWatchlist) && watchlistLoading == old(watchlistLoading)
    {
      if byGenre.Success? {
        relatedMovies := RelatedMovies(current, byGenre.value);
      } else {
        error := Some(LoadErrorText(byGenre.error));
      }
    }

    /** checkWatchlistStatus; the service answers false on any failure. */
    method CheckWatchlistStatus(call: Call<Fetched<seq<Row>>>)
      modifies this
      ensures isInWatchlist == IsInWatchlist(call)
      ensures movie == old(movie) && relatedMovies == old(relatedMovies)
      ensures loading == old(loading) && error == old(error) && watchlistLoading == old(watchlistLoading)
    {
      isInWatchlist := IsInWatchlist(call);
    }

    /** handleWatchlistToggle: in the watchlist, look the entry up and delete
        it; otherwise create one for this id. The flag changes only when the
        write does not fail. */
    method HandleWatchlistToggle(lookup: Call<Fetched<seq<Row>>>, write: Call<Written<Row>>, now: int)
      returns (sent: Option<WatchlistRequest>)
      modifies this
      ensures !watchlistLoading
      ensures old(isInWatchlist) && GetByMovieId(lookup).None? ==> sent.None? && isInWatchlist
      ensures old(isInWatchlist) && GetByMovieId(lookup).Some? ==>
                sent == Some(DeleteEntry(GetByMovieId(lookup).value.Id)) &&
                (isInWatchlist <==> Delete(write).Failure?)
      ensures !old(isInWatchlist) ==>
                sent == Some(CreateEntry(CreatePayload(id, now))) &&
                (isInWatchlist <==> Create(write).Success?)
      ensures movie == old(movie) && relatedMovies == old(relatedMovies)
      ensures loading == old(loading) && error == old(error)
    {
      watchlistLoading := true;
      sent := None;
      if isInWatchlist {
        var entry := GetByMovieId(lookup);
        if entry.Some? {
          sent := Some(DeleteEntry(entry.value.Id));
          if Delete(write).Success? {
            isInWatchlist := false;
          }
        }
      } else {
        sent := Some(CreateEntry(CreatePayload(id, now)));
        if Create(write).Success? {
          isInWatchlist := true;
        }
      }
      watchlistLoading := false;
    }
  }
}
