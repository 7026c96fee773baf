/** watchlistService: watchlist CRUD against the backend. The SDK calls are
    inputs; what is modelled is the field mapping, the payloads sent and how each
    response is read. */
module WatchlistService {
  import opened Wrappers
  import opened Seqs
  import opened JsNumber
  import opened Apper

  /** A watchlist record as stored by the backend (snake_case fields). The
      added date is a timestamp; a null rating is None. */
  datatype Row = Row(Id: int, movie_id: string, added_date: int, watched: bool, user_rating: Option<int>)

  /** A watchlist entry as the components see it (camelCase fields). */
  datatype Entry = Entry(Id: int, movieId: string, addedDate: int, watched: bool, userRating: Option<int>)

  /** The row-to-entry mapping written out in getAll, getById, create, update
      and getByMovieId. */
  function ToEntry(row: Row): (e: Entry)
    ensures e.Id == row.Id && e.watched == row.watched
    ensures e.movieId == row.movie_id && e.addedDate == row.added_date && e.userRating == row.user_rating
  {
    Entry(row.Id, row.movie_id, row.added_date, row.watched, row.user_rating)
  }

  /** The inverse renaming, used only to state that the mapping loses nothing. */
  function ToRow(e: Entry): Row {
    Row(e.Id, e.movieId, e.addedDate, e.watched, e.userRating)
  }

  lemma MappingIsBijective(row: Row, e: Entry)
    ensures ToRow(ToEntry(row)) == row
    ensures ToEntry(ToRow(e)) == e
  {
  }

  function MapRows(rows: seq<Row>): (r: seq<Entry>)
    ensures |r| == |rows| && forall i :: 0 <= i < |rows| ==> r[i] == ToEntry(rows[i])
  {
    seq(|rows|, i requires 0 <= i < |rows| => ToEntry(rows[i]))
  }

  /** getAll: an unsuccessful response fails with its message; missing data is []. */
  function GetAll(call: Call<Fetched<seq<Row>>>): (r: Result<seq<Entry>>)
    ensures r.Success? <==> call.Returned? && call.response.success
    ensures r.Failure? ==> r.error == if call.Threw? then call.reason else call.response.message
    ensures r.Success? ==> r.value == MapRows(call.response.data.GetOr([]))
    ensures r.Success? && call.response.data.None? ==> r.value == []
  {
    match call
    case Threw(reason) => Failure(reason)
    case Returned(response) =>
      if !response.success then Failure(response.message)
      else Success(MapRows(response.data.GetOr([])))
  }

  /** getById: a successful response without a record is 'Watchlist item not found'. */
  function GetById(call: Call<Fetched<Row>>): (r: Result<Entry>)
    ensures r.Success? <==> call.Returned? && call.response.success && call.response.data.Some?
    ensures r.Success? ==> r.value == ToEntry(call.response.data.value)
    ensures call.Returned? && call.response.success && call.response.data.None? ==>
              r == Failure("Watchlist item not found")
    ensures call.Returned? && !call.response.success ==> r == Failure(call.response.message)
  {
    match call
    case Threw(reason) => Failure(reason)
    case Returned(response) =>
      if !response.success then Failure(response.message)
      else if response.data.None? then Failure("Watchlist item not found")
      else Success(ToEntry(response.data.value))
  }

  /** The record create sends; `movie_id` is None where parseInt gives NaN. */
  datatype CreateRecord = CreateRecord(movie_id: Option<int>, added_date: int, watched: bool, user_rating: Option<int>)

  /** create's payload for `{ movieId }`, stamped with the current time `now`. */
  function CreatePayload(movieId: string, now: int): (p: CreateRecord)
    ensures p.movie_id == ParseInt(movieId) && p.added_date == now
    ensures !p.watched && p.user_rating.None?
  {
    CreateRecord(ParseInt(movieId), now, false, None)
  }

  /** A movie id written with toString is sent back as that very number. */
  lemma CreatePayloadCarriesMovie(movie: int, now: int)
    ensures CreatePayload(IntToString(movie), now).movie_id == Some(movie)
  {
    ParseIntOfToString(movie, []);
    assert IntToString(movie) + [] == IntToString(movie);
  }

  /** A write a component asks for: delete the entry with this Id, or create
      one with this payload. */
  datatype WatchlistRequest = DeleteEntry(Id: int) | CreateEntry(payload: CreateRecord)

  /** The fields update may change; None means the property is absent from `data`. */
  datatype UpdateData = UpdateData(watched: Option<bool>, userRating: Option<int>)

  /** The record update sends; None means the field is not in the record. */
  datatype UpdateRecord = UpdateRecord(Id: Option<int>, watched: Option<bool>, user_rating: Option<int>)

  /** update's payload: the id through `parseInt(id, 10)`, then `watched` and
      `user_rating` exactly when `data` has them. */
  function UpdatePayload(id: int, data: UpdateData): (p: UpdateRecord)
    ensures p.Id == Some(id)
    ensures p.watched.Some? <==> data.watched.Some?
    ensures p.user_rating.Some? <==> data.userRating.Some?
    ensures p.watched == data.watched && p.user_rating == data.userRating
  {
    ParseIntOfToString(id, []);
    assert IntToString(id) + [] == IntToString(id);
    UpdateRecord(ParseInt(IntToString(id)), data.watched, data.userRating)
  }

  /** delete's `RecordIds`: the id through `parseInt(id, 10)`. */
  function DeletePayload(id: int): (ids: seq<Option<int>>)
    ensures ids == [Some(id)]
  {
    ParseIntOfToString(id, []);
    assert IntToString(id) + [] == IntToString(id);
    [ParseInt(IntToString(id))]
  }

  predicate Succeeded(r: RecordResult<Row>) {
    r.success
  }

  function Failed(): RecordResult<Row> -> bool {
    Negation(Succeeded)
  }

  /** How create and update read their response: an unsuccessful response fails
      with its message, any failed result fails with `failure`, otherwise the
      first successful result's record, and `failure` when there is none. */
  function ReadWrite(call: Call<Written<Row>>, failure: string): (r: Result<Entry>)
    ensures r.Success? <==>
              && call.Returned? && call.response.success && call.response.results.Some?
              && (forall i :: 0 <= i < |call.response.results.value| ==> call.response.results.value[i].success)
              && |call.response.results.value| > 0
    ensures r.Success? ==> r.value == ToEntry(call.response.results.value[0].data)
    ensures call.Returned? && !call.response.success ==> r == Failure(call.response.message)
    ensures call.Returned? && call.response.success ==> r.Success? || r == Failure(failure)
  {
    match call
    case Threw(reason) => Failure(reason)
    case Returned(response) =>
      if !response.success then Failure(response.message)
      else if response.results.Some? then
        var results := response.results.value;
        var successful := Filter(results, Succeeded);
        var failed := Filter(results, Failed());
        FilterKeepsNone(results);
        if |failed| > 0 then Failure(failure)
        else if |successful| > 0 then
          FilterKeepsAll(results, Succeeded);
          Success(ToEntry(successful[0].data))
        else Failure(failure)
      else Failure(failure)
  }

  /** Some result failed exactly when the failed-results filter is non-empty. */
  lemma FilterKeepsNone(results: seq<RecordResult<Row>>)
    ensures |Filter(results, Failed())| == 0 <==> forall i :: 0 <= i < |results| ==> results[i].success
  {
    if exists i :: 0 <= i < |results| && !results[i].success {
      var i :| 0 <= i < |results| && !results[i].success;
      assert Negation(Succeeded)(results[i]) == !Succeeded(results[i]);
      assert Failed()(results[i]);
      FilterMembership(results, Failed(), results[i]);
      assert results[i] in Filter(results, Failed());
    } else {
      FilterKeepsAll(results, Succeeded);
      FilterSplitCount(results, Succeeded);
    }
  }

  /** create's reading of the response; once the response itself succeeded,
      every failure carries the text 'Failed to create watchlist item'. */
  function Create(call: Call<Written<Row>>): (r: Result<Entry>)
    ensures call.Returned? && call.response.success && r.Failure? ==> r.error == "Failed to create watchlist item"
    ensures r.Success? ==>
              call.Returned? && call.response.results.Some? && |call.response.results.value| > 0 &&
              r.value == ToEntry(call.response.results.value[0].data)
  {
    ReadWrite(call, "Failed to create watchlist item")
  }

  /** update's reading of the response, with 'Failed to update watchlist item'. */
  function Update(call: Call<Written<Row>>): (r: Result<Entry>)
    ensures call.Returned? && call.response.success && r.Failure? ==> r.error == "Failed to update watchlist item"
    ensures r.Success? ==>
              call.Returned? && call.response.results.Some? && |call.response.results.value| > 0 &&
              r.value == ToEntry(call.response.results.value[0].data)
  {
    ReadWrite(call, "Failed to update watchlist item")
  }

  /** delete: an unsuccessful response or any failed result fails; otherwise
      true iff some result succeeded, and true when there is no results array. */
  function Delete(call: Call<Written<Row>>): (r: Result<bool>)
    ensures r.Success? <==>
              && call.Returned? && call.response.success
              && (call.response.results.Some? ==>
                    forall i :: 0 <= i < |call.response.results.value| ==> call.response.results.value[i].success)
    ensures r.Success? ==> (r.value <==> call.response.results.None? || |call.response.results.value| > 0)
    ensures call.Returned? && !call.response.success ==> r == Failure(call.response.message)
    ensures call.Returned? && call.response.success && r.Failure? ==> r.error == "Failed to delete watchlist item"
  {
    match call
    case Threw(reason) => Failure(reason)
    case Returned(response) =>
      if !response.success then Failure(response.message)
      else if response.results.Some? then
        var results := response.results.value;
        var successful := Filter(results, Succeeded);
        var failed := Filter(results, Failed());
        FilterSplitCount(results, Succeeded);
        FilterKeepsNone(results);
        if |failed| > 0 then Failure("Failed to delete watchlist item")
        else Success(|successful| > 0)
      else Success(true)
  }

  /** isInWatchlist: true iff the query succeeded with at least one row; a
      failed response or a thrown error is false. */
  function IsInWatchlist(call: Call<Fetched<seq<Row>>>): (b: bool)
    ensures b <==> call.Returned? && call.response.success
                   && call.response.data.Some? && |call.response.data.value| > 0
  {
    match call
    case Threw(_) => false
    case Returned(response) => response.success && |response.data.GetOr([])| > 0
  }

  /** getByMovieId: the first row, mapped; null (None) when there is none, when
      the response failed or when the call threw. */
  function GetByMovieId(call: Call<Fetched<seq<Row>>>): (r: Option<Entry>)
    ensures r.Some? <==> call.Returned? && call.response.success
                         && call.response.data.Some? && |call.response.data.value| > 0
    ensures r.Some? ==> r.value == ToEntry(call.response.data.value[0])
  {
    match call
    case Threw(_) => None
    case Returned(response) =>
      if !response.success then None
      else if response.data.Some? && |response.data.value| > 0 then Some(ToEntry(response.data.value[0]))
      else None
  }

  /** The two lookups by movie id agree: an entry is found exactly when the
      movie is reported as in the watchlist. */
  lemma LookupsAgree(call: Call<Fetched<seq<Row>>>)
    ensures GetByMovieId(call).Some? <==> IsInWatchlist(call)
  {
  }
}
