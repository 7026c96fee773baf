/** FilterPanel: the filter state behind the Browse page. Each handler builds a
    new filter object, stores it and hands the same object to `onFiltersChange`. */
module FilterPanel {
  import opened Seqs
  import opened JsNumber
  import opened Wrappers

  datatype Range = Range(min: int, max: int)

  datatype Filters = Filters(genres: seq<string>, yearRange: Range, rating: Range, sortBy: string)

  /** Which range a slider edits (`type`) and which end of it (`field`). */
  datatype RangeKind = YearRange | RatingRange
  datatype Bound = Min | Max

  const DefaultYearRange := Range(2000, 2024)
  const DefaultRating := Range(0, 10)
  const DefaultFilters := Filters([], DefaultYearRange, DefaultRating, "rating")

  /** One per selected genre, plus one for a year range other than 2000-2024,
      plus one for a rating range other than 0-10. */
  function ActiveFiltersCount(f: Filters): (n: nat)
    ensures n == 0 <==> f.genres == [] && f.yearRange == DefaultYearRange && f.rating == DefaultRating
    ensures |f.genres| <= n <= |f.genres| + 2
  {
    |f.genres|
      + (if f.yearRange.min != 2000 || f.yearRange.max != 2024 then 1 else 0)
      + (if f.rating.min != 0 || f.rating.max != 10 then 1 else 0)
  }

  /** A selected genre is dropped (every occurrence, keeping the others in
      order); an unselected one is appended at the end. */
  function ToggleGenre(genres: seq<string>, genre: string): (r: seq<string>)
    ensures genre in r <==> genre !in genres
    ensures genre !in genres ==> r == genres + [genre]
    ensures genre in genres ==> r == Filter(genres, NotEqualTo(genre))
  {
    if genre in genres then
      FilterNotEqualDrops(genres, genre);
      Filter(genres, NotEqualTo(genre))
    else genres + [genre]
  }

  /** Genres other than the toggled one keep their membership. */
  lemma ToggleKeepsOthers(genres: seq<string>, genre: string, g: string)
    requires g != genre
    ensures g in ToggleGenre(genres, genre) <==> g in genres
  {
    FilterMembership(genres, NotEqualTo(genre), g);
  }

  /** Toggling the same genre twice gives back the same set of selected genres
      (and exactly the same list when the genre was not selected). */
  lemma ToggleTwice(genres: seq<string>, genre: string)
    ensures forall g :: g in ToggleGenre(ToggleGenre(genres, genre), genre) <==> g in genres
    ensures genre !in genres ==> ToggleGenre(ToggleGenre(genres, genre), genre) == genres
  {
    var once := ToggleGenre(genres, genre);
    forall g ensures g in ToggleGenre(once, genre) <==> g in genres {
      if g != genre {
        ToggleKeepsOthers(once, genre, g);
        ToggleKeepsOthers(genres, genre, g);
      }
    }
    if genre !in genres {
      FilterAppend(genres, [genre], NotEqualTo(genre));
      FilterKeepsAll(genres, NotEqualTo(genre));
      assert Filter([genre], NotEqualTo(genre)) == [];
    }
  }

  /** Toggling keeps the selection free of duplicates. */
  lemma ToggleKeepsDistinct(genres: seq<string>, genre: string)
    requires Distinct(genres)
    ensures Distinct(ToggleGenre(genres, genre))
  {
    if genre in genres {
      FilterDistinct(genres, NotEqualTo(genre));
    }
  }

  function RangeOf(f: Filters, kind: RangeKind): Range {
    match kind
    case YearRange => f.yearRange
    case RatingRange => f.rating
  }

  /** `{ ...filters, [type]: { ...filters[type], [field]: v } }` */
  function WithBound(f: Filters, kind: RangeKind, bound: Bound, v: int): (r: Filters)
    ensures RangeOf(r, kind) == if bound == Min then RangeOf(f, kind).(min := v) else RangeOf(f, kind).(max := v)
    ensures forall k :: k != kind ==> RangeOf(r, k) == RangeOf(f, k)
    ensures r.genres == f.genres && r.sortBy == f.sortBy
  {
    var old_range := RangeOf(f, kind);
    var new_range := if bound == Min then old_range.(min := v) else old_range.(max := v);
    match kind
    case YearRange => f.(yearRange := new_range)
    case RatingRange => f.(rating := new_range)
  }

  class Panel {
    var filters: Filters
    var isOpen: bool

    constructor ()
      ensures filters == DefaultFilters && !isOpen
    {
      filters := DefaultFilters;
      isOpen := false;
    }

    /** handleGenreToggle; `emitted` is what onFiltersChange receives. */
    method HandleGenreToggle(genre: string) returns (emitted: Filters)
      modifies this
      ensures filters == old(filters).(genres := ToggleGenre(old(filters).genres, genre))
      ensures emitted == filters && isOpen == old(isOpen)
    {
      var newGenres := ToggleGenre(filters.genres, genre);
      var newFilters := filters.(genres := newGenres);
      filters := newFilters;
      emitted := newFilters;
    }

    /** handleRangeChange: the slider's value string goes through parseInt. A
        range slider always reports a numeral, so parseInt never yields NaN here. */
    method HandleRangeChange(kind: RangeKind, bound: Bound, value: string) returns (emitted: Filters)
      requires ParseInt(value).Some?
      modifies this
      ensures filters == WithBound(old(filters), kind, bound, ParseInt(value).value)
      ensures emitted == filters && isOpen == old(isOpen)
    {
      var newFilters := WithBound(filters, kind, bound, ParseInt(value).value);
      filters := newFilters;
      emitted := newFilters;
    }

    /** handleSortChange: only sortBy changes. */
    method HandleSortChange(sortBy: string) returns (emitted: Filters)
      modifies this
      ensures filters == old(filters).(sortBy := sortBy)
      ensures emitted == filters && isOpen == old(isOpen)
    {
      var newFilters := filters.(sortBy := sortBy);
      filters := newFilters;
      emitted := newFilters;
    }

    /** clearFilters: back to the initial defaults. */
    method ClearFilters() returns (emitted: Filters)
      modifies this
      ensures filters == DefaultFilters && ActiveFiltersCount(filters) == 0
      ensures emitted == filters && isOpen == old(isOpen)
    {
      filters := DefaultFilters;
      emitted := DefaultFilters;
    }

    /** The Filters button and the backdrop open and close the panel. */
    method SetOpen(open: bool)
      modifies this
      ensures isOpen == open && filters == old(filters)
    {
      isOpen := open;
    }
  }

  /** A slider value such as "7.5" is stored as its integer part 7. */
  lemma RangeChangeTakesIntegerPart(f: Filters, kind: RangeKind, bound: Bound, n: nat, fraction: string)
    requires AllDigits(fraction)
    ensures ParseInt(IntToString(n) + "." + fraction) == Some(n)
    ensures RangeOf(WithBound(f, kind, bound, n), kind) ==
              if bound == Min then RangeOf(f, kind).(min := n) else RangeOf(f, kind).(max := n)
  {
    assert IntToString(n) + "." + fraction == IntToString(n) + ("." + fraction);
    ParseIntOfToString(n, "." + fraction);
  }
}
