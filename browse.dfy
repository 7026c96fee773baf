/** Browse: the page that filters the loaded movies by genre, year and rating and
    sorts them by the chosen key, plus the removable chips of active filters. */
module Browse {
  import opened Wrappers
  import opened Seqs
  import opened Sorting
  import opened JsText
  import opened MovieService
  import opened FilterPanel

  /** `movie.genres.some(genre => selected.includes(genre))` */
  function SharesGenre(selected: seq<string>): Movie -> bool {
    (m: Movie) => exists g :: g in m.genres && g in selected
  }

  /** Year filter, both ends inclusive. */
  function InYearRange(r: Range): Movie -> bool {
    (m: Movie) => r.min <= m.year && m.year <= r.max
  }

  /** Rating filter, both ends inclusive. */
  function InRatingRange(r: Range): Movie -> bool {
    (m: Movie) => r.min as real <= m.rating && m.rating <= r.max as real
  }

  /** A movie survives the three filter stages of applyFilters. */
  predicate Passes(f: Filters, m: Movie) {
    && (f.genres == [] || exists g :: g in m.genres && g in f.genres)
    && f.yearRange.min <= m.year <= f.yearRange.max
    && f.rating.min as real <= m.rating <= f.rating.max as real
  }

  function Keep(f: Filters): Movie -> bool {
    (m: Movie) => Passes(f, m)
  }

  /** The comparator of applyFilters for each sort key; unknown keys give 0. */
  function BrowseCompare(sortBy: string): (Movie, Movie) -> real {
    (a: Movie, b: Movie) =>
      if sortBy == "rating" then b.rating - a.rating
      else if sortBy == "year" then (b.year - a.year) as real
      else if sortBy == "title" then CompareText(a.title, b.title) as real
      else if sortBy == "popularity" then b.rating - a.rating
      else 0.0
  }

  /** What the page shows: the movies passing every filter, stably sorted. */
  function Visible(movies: seq<Movie>, f: Filters): seq<Movie> {
    StableSort(Filter(movies, Keep(f)), BrowseCompare(f.sortBy))
  }

  /** applyFilters: `filtered` is reassigned stage by stage, then sorted. */
  method ApplyFilters(movies: seq<Movie>, f: Filters) returns (filtered: seq<Movie>)
    ensures filtered == Visible(movies, f)
  {
    filtered := movies;
    if |f.genres| > 0 {
      filtered := Filter(filtered, SharesGenre(f.genres));
    }
    ghost var afterGenres := filtered;
    filtered := Filter(filtered, InYearRange(f.yearRange));
    filtered := Filter(filtered, InRatingRange(f.rating));
    FilterFuse(afterGenres, InYearRange(f.yearRange), InRatingRange(f.rating));
    ghost var ranges := Both(InYearRange(f.yearRange), InRatingRange(f.rating));
    if |f.genres| > 0 {
      FilterFuse(movies, SharesGenre(f.genres), ranges);
      FilterExtensional(movies, Both(SharesGenre(f.genres), ranges), Keep(f));
    } else {
      FilterExtensional(movies, ranges, Keep(f));
    }
    filtered := StableSort(filtered, BrowseCompare(f.sortBy));
  }

  /** Every sort key gives a consistent comparator. */
  lemma BrowseCompareConsistent(sortBy: string)
    ensures Consistent(BrowseCompare(sortBy))
  {
    var cmp := BrowseCompare(sortBy);
    if sortBy == "title" {
      forall a: Movie, b: Movie ensures cmp(a, b) <= 0.0 || cmp(b, a) <= 0.0 {
        CompareTextAntisymmetric(a.title, b.title);
      }
      forall a: Movie, b: Movie, c: Movie | cmp(a, b) <= 0.0 && cmp(b, c) <= 0.0
        ensures cmp(a, c) <= 0.0
      {
        CompareTextTransitive(a.title, b.title, c.title);
      }
    }
  }

  /** The result holds exactly the movies that pass all three filters, each as
      often as in the input: a permutation of the passing movies. */
  lemma VisibleContents(movies: seq<Movie>, f: Filters, m: Movie)
    ensures multiset(Visible(movies, f))[m] == if Passes(f, m) then multiset(movies)[m] else 0
    ensures m in Visible(movies, f) <==> m in movies && Passes(f, m)
  {
    FilterMultiset(movies, Keep(f), m);
  }

  /** Every movie shown lies in both ranges, inclusive, and shares a selected
      genre when any genre is selected. */
  lemma VisibleWithinFilters(movies: seq<Movie>, f: Filters)
    ensures forall m :: m in Visible(movies, f) ==>
              && f.yearRange.min <= m.year <= f.yearRange.max
              && f.rating.min as real <= m.rating <= f.rating.max as real
              && (f.genres != [] ==> exists g :: g in m.genres && g in f.genres)
  {
    forall m | m in Visible(movies, f) ensures Passes(f, m) {
      VisibleContents(movies, f, m);
    }
  }

  /** With no genre selected the genre stage keeps every movie. */
  lemma NoGenreKeepsAll(movies: seq<Movie>, f: Filters, m: Movie)
    requires f.genres == [] && f.yearRange.min <= m.year <= f.yearRange.max
    requires f.rating.min as real <= m.rating <= f.rating.max as real
    ensures m in movies ==> m in Visible(movies, f)
  {
    VisibleContents(movies, f, m);
  }

  /** The order of the result for each sort key; an unknown key keeps the
      filtered order. */
  lemma VisibleOrder(movies: seq<Movie>, f: Filters)
    ensures f.sortBy == "rating" || f.sortBy == "popularity" ==>
              forall i, j :: 0 <= i < j < |Visible(movies, f)| ==>
                Visible(movies, f)[i].rating >= Visible(movies, f)[j].rating
    ensures f.sortBy == "year" ==>
              forall i, j :: 0 <= i < j < |Visible(movies, f)| ==>
                Visible(movies, f)[i].year >= Visible(movies, f)[j].year
    ensures f.sortBy == "title" ==>
              forall i, j :: 0 <= i < j < |Visible(movies, f)| ==>
                CompareText(Visible(movies, f)[i].title, Visible(movies, f)[j].title) <= 0
    ensures f.sortBy !in {"rating", "year", "title", "popularity"} ==>
              Visible(movies, f) == Filter(movies, Keep(f))
  {
    var cmp := BrowseCompare(f.sortBy);
    var v := Visible(movies, f);
    BrowseCompareConsistent(f.sortBy);
    SortOrdered(Filter(movies, Keep(f)), cmp);
    forall i, j | 0 <= i < j < |v| ensures cmp(v[i], v[j]) <= 0.0 {
    }
    if f.sortBy !in {"rating", "year", "title", "popularity"} {
      SortAllTied(Filter(movies, Keep(f)), cmp);
    }
  }

  /** The X on a genre chip: that genre goes, everything else stays. */
  function RemoveGenreChip(f: Filters, genre: string): (r: Filters)
    ensures r.yearRange == f.yearRange && r.rating == f.rating && r.sortBy == f.sortBy
    ensures genre !in r.genres
    ensures forall g :: g != genre ==> (g in r.genres <==> g in f.genres)
  {
    FilterNotEqualDrops(f.genres, genre);
    forall g | g != genre ensures g in Filter(f.genres, NotEqualTo(genre)) <==> g in f.genres {
      FilterMembership(f.genres, NotEqualTo(genre), g);
    }
    f.(genres := Filter(f.genres, NotEqualTo(genre)))
  }

  /** The X on the year chip: the year range back to 2000-2024, nothing else. */
  function ClearYearChip(f: Filters): (r: Filters)
    ensures r.yearRange == DefaultYearRange
    ensures r.genres == f.genres && r.rating == f.rating && r.sortBy == f.sortBy
  {
    f.(yearRange := DefaultYearRange)
  }

  /** The X on the rating chip: the rating range back to 0-10, nothing else. */
  function ClearRatingChip(f: Filters): (r: Filters)
    ensures r.rating == DefaultRating
    ensures r.genres == f.genres && r.yearRange == f.yearRange && r.sortBy == f.sortBy
  {
    f.(rating := DefaultRating)
  }

  /** Each chip stands for one unit of the active-filter count, so removing a
      shown chip lowers the count by exactly one (genres kept distinct by the
      panel's toggle). */
  lemma ChipRemovalLowersCount(f: Filters, genre: string)
    ensures Distinct(f.genres) && genre in f.genres ==>
              ActiveFiltersCount(RemoveGenreChip(f, genre)) == ActiveFiltersCount(f) - 1
    ensures f.yearRange != DefaultYearRange ==>
              ActiveFiltersCount(ClearYearChip(f)) == ActiveFiltersCount(f) - 1
    ensures f.rating != DefaultRating ==>
              ActiveFiltersCount(ClearRatingChip(f)) == ActiveFiltersCount(f) - 1
  {
    if Distinct(f.genres) && genre in f.genres {
      FilterRemovesOne(f.genres, genre);
    }
  }

  /** The page state: the loaded movies, the current filters and the list shown.
      The effect on [movies, currentFilters] keeps the shown list in step. */
  class BrowsePage {
    var movies: seq<Movie>
    var filteredMovies: seq<Movie>
    var currentFilters: Filters
    var loading: bool
    var error: Option<string>

    ghost predicate Valid()
      reads this
    {
      filteredMovies == Visible(movies, currentFilters)
    }

    constructor ()
      ensures Valid() && movies == [] && filteredMovies == []
      ensures currentFilters == DefaultFilters && !loading && error.None?
    {
      movies := [];
      filteredMovies := [];
      currentFilters := DefaultFilters;
      loading := false;
      error := None;
    }

    /** loadMovies with the outcome of movieService.getAll. */
    method LoadMovies(result: Result<seq<Movie>>)
      requires Valid()
      modifies this
      ensures Valid() && !loading && currentFilters == old(currentFilters)
      ensures result.Success? ==> movies == result.value && error.None?
      ensures result.Failure? ==>
                movies == old(movies) &&
                error == Some(if result.error == "" then "Failed to load movies" else result.error)
    {
      loading := true;
      if result.Success? {
        ShowLoaded(result.value);
      } else {
        ShowLoadError(result.error);
      }
    }

    /** The success branch of loadMovies: the movies are stored and the effect
        filters them again. */
    method ShowLoaded(all: seq<Movie>)
      modifies this
      ensures Valid() && movies == all && error.None? && !loading
      ensures currentFilters == old(currentFilters)
    {
      var shown := ApplyFilters(all, currentFilters);
      movies, filteredMovies, error, loading := all, shown, None, false;
    }

    /** The failure branch of loadMovies: the message, or a fallback text. */
    method ShowLoadError(message: string)
      requires Valid()
      modifies this
      ensures Valid() && movies == old(movies) && !loading
      ensures currentFilters == old(currentFilters)
      ensures error == Some(if message == "" then "Failed to load movies" else message)
    {
      error, loading := Some(if message == "" then "Failed to load movies" else message), false;
    }

    /** handleFiltersChange: the panel or a chip hands over new filters. */
    method HandleFiltersChange(newFilters: Filters)
      requires Valid()
      modifies this
      ensures Valid() && currentFilters == newFilters
      ensures movies == old(movies) && loading == old(loading) && error == old(error)
    {
      currentFilters := newFilters;
      filteredMovies := ApplyFilters(movies, currentFilters);
    }
  }
}
