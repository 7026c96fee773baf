/** MovieCard: one movie in a grid, with its rating badge, its first genres and
    a bookmark button that adds it to or removes it from the watchlist. */
module MovieCard {
  import opened Wrappers
  import opened Seqs
  import opened JsNumber
  import opened MovieService
  import opened WatchlistService
  import opened Apper

  /** The colour classes of the rating badge, from best to worst. */
  datatype RatingColor = Green | Accent | Yellow | Red

  /** getRatingColor: 8.5 and up, 7.5 and up, 6.5 and up, below. */
  function GetRatingColor(rating: real): (c: RatingColor)
    ensures c == Green <==> rating >= 8.5
    ensures c == Accent <==> 7.5 <= rating < 8.5
    ensures c == Yellow <==> 6.5 <= rating < 7.5
    ensures c == Red <==> rating < 6.5
  {
    if rating >= 8.5 then Green
    else if rating >= 7.5 then Accent
    else if rating >= 6.5 then Yellow
    else Red
  }

  function Rank(c: RatingColor): nat {
    match c
    case Red => 0
    case Yellow => 1
    case Accent => 2
    case Green => 3
  }

  /** A higher rating never gets a worse colour. */
  lemma RatingColorMonotone(a: real, b: real)
    requires a <= b
    ensures Rank(GetRatingColor(a)) <= Rank(GetRatingColor(b))
  {
  }

  const ShownGenres: nat := 2

  /** The genre chips: the first two genres, and a `+k` chip for the rest. */
  datatype Chips = Chips(shown: seq<string>, more: Option<nat>)

  function GenreChips(genres: seq<string>): (c: Chips)
    ensures |c.shown| == Min(ShownGenres, |genres|) && c.shown == genres[..|c.shown|]
    ensures c.more.Some? <==> |genres| > ShownGenres
  {
    Chips(Take(genres, ShownGenres), if |genres| > ShownGenres then Some(|genres| - ShownGenres) else None)
  }

  /** Every genre is either shown as a chip or counted in the `+k` chip. */
  lemma ChipsAccountForAll(genres: seq<string>)
    ensures |GenreChips(genres).shown| + GenreChips(genres).more.GetOr(0) == |genres|
  {
  }

  class Card {
    const movie: Movie
    var watchlisted: bool
    var loading: bool

    /** The initial `watchlisted` is the `isInWatchlist` prop. */
    constructor (movie: Movie, isInWatchlist: bool)
      ensures this.movie == movie && watchlisted == isInWatchlist && !loading
    {
      this.movie := movie;
      watchlisted := isInWatchlist;
      loading := false;
    }

    /** handleWatchlistToggle: a bookmarked movie's entry is looked up by its id
        text and deleted; otherwise an entry is created. Only a write that does
        not fail flips `watchlisted` and notifies the parent with (Id, flag). */
    method HandleWatchlistToggle(lookup: Call<Fetched<seq<Row>>>, write: Call<Written<Row>>, now: int)
      returns (sent: Option<WatchlistRequest>, notified: Option<(int, bool)>)
      modifies this
      ensures !loading
      ensures old(watchlisted) && GetByMovieId(lookup).None? ==>
                sent.None? && notified.None? && watchlisted
      ensures old(watchlisted) && GetByMovieId(lookup).Some? ==>
                sent == Some(DeleteEntry(GetByMovieId(lookup).value.Id)) &&
                (Delete(write).Success? ==> !watchlisted && notified == Some((movie.Id, false))) &&
                (Delete(write).Failure? ==> watchlisted && notified.None?)
      ensures !old(watchlisted) ==>
                sent == Some(CreateEntry(CreatePayload(IntToString(movie.Id), now))) &&
                (Create(write).Success? ==> watchlisted && notified == Some((movie.Id, true))) &&
                (Create(write).Failure? ==> !watchlisted && notified.None?)
    {
      loading := true;
      sent, notified := None, None;
      if watchlisted {
        var entry := GetByMovieId(lookup);
        if entry.Some? {
          sent := Some(DeleteEntry(entry.value.Id));
          if Delete(write).Success? {
            watchlisted := false;
            notified := Some((movie.Id, false));
          }
        }
      } else {
        sent := Some(CreateEntry(CreatePayload(IntToString(movie.Id), now)));
        if Create(write).Success? {
          watchlisted := true;
          notified := Some((movie.Id, true));
        }
      }
      loading := false;
    }
  }

  /** The entry a card creates names the card's movie by its numeric id. */
  lemma CardCreatesOwnMovie(movie: Movie, now: int)
    ensures CreatePayload(IntToString(movie.Id), now).movie_id == Some(movie.Id)
    ensures CreatePayload(IntToString(movie.Id), now) == CreateRecord(Some(movie.Id), now, false, None)
  {
    CreatePayloadCarriesMovie(movie.Id, now);
  }
}
