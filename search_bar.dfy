/** SearchBar: the header search box with its suggestion dropdown. */
module SearchBar {
  import opened Wrappers
  import opened Seqs
  import opened JsText
  import opened MovieService

  /** Shortest query that asks for suggestions, and how many are shown. */
  const MinQueryLength: nat := 2
  const SuggestionLimit: nat := 5

  /** Where a handler navigates: `/search?q=<text>` or `/movie/<Id>`. */
  datatype Route = SearchRoute(q: string) | MovieRoute(id: int)

  /** `searchQuery || query`: the argument when it is a non-empty string. */
  function FinalQuery(arg: Option<string>, query: string): (r: string)
    ensures arg.Some? && arg.value != "" ==> r == arg.value
    ensures arg.None? || arg.value == "" ==> r == query
  {
    if arg.Some? && arg.value != "" then arg.value else query
  }

  class SearchBox {
    var query: string
    var suggestions: seq<Movie>
    var isOpen: bool
    var loading: bool

    constructor ()
      ensures query == "" && suggestions == [] && !isOpen && !loading
    {
      query := "";
      suggestions := [];
      isOpen := false;
      loading := false;
    }

    /** The debounced effect on the query, given movieService.search's outcome:
        a short query clears and closes; otherwise the first five results open
        the dropdown, and an error only clears the suggestions. */
    method SuggestionEffect(results: Result<seq<Movie>>)
      modifies this
      ensures query == old(query)
      ensures |query| < MinQueryLength ==>
                suggestions == [] && !isOpen && loading == old(loading)
      ensures |query| >= MinQueryLength && results.Success? ==>
                suggestions == Take(results.value, SuggestionLimit) && isOpen && !loading
      ensures |query| >= MinQueryLength && results.Failure? ==>
                suggestions == [] && isOpen == old(isOpen) && !loading
    {
      if |query| < MinQueryLength {
        suggestions, isOpen := [], false;
        return;
      }
      loading := true;
      if results.Success? {
        suggestions, isOpen := Take(results.value, SuggestionLimit), true;
      } else {
        suggestions := [];
      }
      loading := false;
    }

    /** handleSearch: a non-blank final query navigates to its trimmed text,
        closes the dropdown, empties the box and is handed to onSearch; a blank
        one does nothing. */
    method HandleSearch(arg: Option<string>) returns (navigated: Option<Route>, searched: Option<string>)
      modifies this
      ensures IsBlank(FinalQuery(arg, old(query))) ==>
                navigated.None? && searched.None? &&
                query == old(query) && isOpen == old(isOpen)
      ensures !IsBlank(FinalQuery(arg, old(query))) ==>
                navigated == Some(SearchRoute(Trim(FinalQuery(arg, old(query))))) &&
                searched == Some(Trim(FinalQuery(arg, old(query)))) &&
                query == "" && !isOpen
      ensures suggestions == old(suggestions) && loading == old(loading)
    {
      var finalQuery := FinalQuery(arg, query);
      navigated, searched := None, None;
      if !IsBlank(finalQuery) {
        navigated := Some(SearchRoute(Trim(finalQuery)));
        isOpen := false;
        query := "";
        searched := Some(Trim(finalQuery));
      }
    }

    /** handleSuggestionClick: to the movie's page, dropdown closed, box emptied. */
    method HandleSuggestionClick(movie: Movie) returns (navigated: Route)
      modifies this
      ensures navigated == MovieRoute(movie.Id) && !isOpen && query == ""
      ensures suggestions == old(suggestions) && loading == old(loading)
    {
      navigated := MovieRoute(movie.Id);
      isOpen := false;
      query := "";
    }

    /** handleKeyPress: Enter searches with the box's text, Escape only closes
        the dropdown, any other key does nothing. */
    method HandleKeyPress(key: string) returns (navigated: Option<Route>, searched: Option<string>)
      modifies this
      ensures key == "Enter" && !IsBlank(old(query)) ==>
                navigated == Some(SearchRoute(Trim(old(query)))) &&
                searched == Some(Trim(old(query))) && query == "" && !isOpen
      ensures key == "Enter" && IsBlank(old(query)) ==>
                navigated.None? && searched.None? && query == old(query) && isOpen == old(isOpen)
      ensures key == "Escape" ==>
                navigated.None? && searched.None? && query == old(query) && !isOpen
      ensures key != "Enter" && key != "Escape" ==>
                navigated.None? && searched.None? && query == old(query) && isOpen == old(isOpen)
      ensures suggestions == old(suggestions) && loading == old(loading)
    {
      navigated, searched := None, None;
      if key == "Enter" {
        navigated, searched := HandleSearch(None);
      } else if key == "Escape" {
        isOpen := false;
      }
    }

    /** The input's onChange. */
    method SetQuery(value: string)
      modifies this
      ensures query == value
      ensures suggestions == old(suggestions) && isOpen == old(isOpen) && loading == old(loading)
    {
      query := value;
    }
  }
}
