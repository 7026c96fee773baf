/** Search: the page driven by the `q` URL parameter, with a search history of
    the last five queries and suggestions drawn from a fixed list. */
module Search {
  import opened Wrappers
  import opened Seqs
  import opened JsText
  import opened MovieService

  const HistoryLimit: nat := 5
  const SuggestionLimit: nat := 4

  /** The fixed suggestion list, in display order. */
  const SuggestionPool: seq<string> := [
    "Action movies 2023", "Christopher Nolan", "Marvel movies", "Top rated dramas",
    "Sci-fi thrillers", "Comedy films", "Oscar winners", "Netflix originals"
  ]

  /** The history after a successful search: the query first, then the older
      entries without it, cut to five. */
  function NewHistory(query: string, history: seq<string>): (r: seq<string>)
    ensures 1 <= |r| <= HistoryLimit && r[0] == query
  {
    Take([query] + Filter(history, NotEqualTo(query)), HistoryLimit)
  }

  /** The query occurs exactly once; the rest are the older entries other than
      the query, in their old order, as many as fit. */
  lemma NewHistorySpec(query: string, history: seq<string>)
    ensures multiset(NewHistory(query, history))[query] == 1
    ensures NewHistory(query, history)[1..] == Take(Filter(history, NotEqualTo(query)), HistoryLimit - 1)
    ensures forall x :: x in NewHistory(query, history) ==> x == query || x in history
  {
    var older := Filter(history, NotEqualTo(query));
    var r := NewHistory(query, history);
    assert r[1..] == Take(older, HistoryLimit - 1);
    FilterNotEqualDrops(history, query);
    assert r == [query] + r[1..];
    assert multiset(r[1..])[query] == 0 by {
      assert multiset(r[1..]) <= multiset(older) by {
        assert older == r[1..] + older[|r[1..]|..];
      }
    }
    forall x | x in r && x != query ensures x in history {
      assert x in older;
      FilterMembership(history, NotEqualTo(query), x);
    }
  }

  /** Searching for the same query twice leaves the history as after once. */
  lemma NewHistoryIdempotent(query: string, history: seq<string>)
    ensures NewHistory(query, NewHistory(query, history)) == NewHistory(query, history)
  {
    var r := NewHistory(query, history);
    var t := r[1..];
    NewHistorySpec(query, history);
    assert r == [query] + t;
    assert multiset(t)[query] == 0;
    forall i | 0 <= i < |t| ensures NotEqualTo(query)(t[i]) {
      assert t[i] in multiset(t);
    }
    FilterKeepsAll(t, NotEqualTo(query));
    assert Filter(r, NotEqualTo(query)) == t;
  }

  /** A history without repeats stays without repeats. */
  lemma NewHistoryDistinct(query: string, history: seq<string>)
    requires Distinct(history)
    ensures Distinct(NewHistory(query, history))
  {
    var older := Filter(history, NotEqualTo(query));
    var r := NewHistory(query, history);
    FilterDistinct(history, NotEqualTo(query));
    NewHistorySpec(query, history);
    forall i, j | 0 <= i < j < |r| ensures r[i] != r[j] {
      if i == 0 {
        assert r[j] == r[1..][j - 1] && r[1..][j - 1] in multiset(r[1..]);
        assert multiset(r)[query] == multiset([query])[query] + multiset(r[1..])[query] by {
          assert r == [query] + r[1..];
        }
      } else {
        assert r[i] == older[i - 1] && r[j] == older[j - 1];
      }
    }
  }

  /** `history.slice(0, 5)` on the stored history at mount. */
  function LoadHistory(stored: seq<string>): (r: seq<string>)
    ensures |r| <= HistoryLimit && |r| <= |stored| && r == stored[..|r|]
    ensures |stored| <= HistoryLimit ==> r == stored
  {
    Take(stored, HistoryLimit)
  }

  function NotIn(history: seq<string>): string -> bool {
    (s: string) => s !in history
  }

  /** getSearchSuggestions: the fixed suggestions not already in the history,
      the first four of them. */
  function Suggestions(history: seq<string>): seq<string> {
    Take(Filter(SuggestionPool, NotIn(history)), SuggestionLimit)
  }

  /** At most four suggestions, each from the fixed list and not in the
      history, in the fixed list's order; when fewer than four are shown, none
      was left out. */
  lemma SuggestionsSpec(history: seq<string>)
    ensures |Suggestions(history)| <= SuggestionLimit
    ensures forall s :: s in Suggestions(history) ==> s in SuggestionPool && s !in history
    ensures Suggestions(history) == Filter(SuggestionPool, NotIn(history))[..|Suggestions(history)|]
    ensures |Suggestions(history)| < SuggestionLimit ==>
              forall s :: s in SuggestionPool && s !in history ==> s in Suggestions(history)
  {
    var kept := Filter(SuggestionPool, NotIn(history));
    forall s ensures s in kept <==> s in SuggestionPool && s !in history {
      FilterMembership(SuggestionPool, NotIn(history), s);
    }
  }

  /** With no history the first four fixed suggestions are offered. */
  lemma SuggestionsWithoutHistory()
    ensures Suggestions([]) == SuggestionPool[..SuggestionLimit]
  {
    forall i | 0 <= i < |SuggestionPool| ensures NotIn([])(SuggestionPool[i]) {
    }
    FilterKeepsAll(SuggestionPool, NotIn([]));
  }

  /** `err.message || 'Search failed'` */
  function SearchErrorText(message: string): (t: string)
    ensures t != ""
    ensures message != "" ==> t == message
  {
    if message == "" then "Search failed" else message
  }

  /** The history the page holds once both mount effects have run, as the page
      is written: the load effect stores the first five stored entries, but the
      query effect's search runs in the first render's closure, whose history is
      still the initial [], so a successful search replaces the loaded history by
      the query alone. */
  function MountedHistory(stored: seq<string>, query: string, succeeded: bool): (r: seq<string>)
    ensures !IsBlank(query) && succeeded ==> r == [query]
    ensures IsBlank(query) || !succeeded ==> r == LoadHistory(stored)
  {
    if !IsBlank(query) && succeeded then NewHistory(query, []) else LoadHistory(stored)
  }

  /** The mount evidently intended: the first search joins the loaded history. */
  function IntendedMountedHistory(stored: seq<string>, query: string, succeeded: bool): seq<string> {
    if !IsBlank(query) && succeeded then NewHistory(query, LoadHistory(stored)) else LoadHistory(stored)
  }

  /** Stored ["a", "b"] and `?q=c`: the page ends with ["c"], where
      ["c", "a", "b"] was meant. */
  lemma MountSearchDropsStoredHistory()
    ensures MountedHistory(["a", "b"], "c", true) == ["c"]
    ensures IntendedMountedHistory(["a", "b"], "c", true) == ["c", "a", "b"]
    ensures MountedHistory(["a", "b"], "c", true) != IntendedMountedHistory(["a", "b"], "c", true)
  {
    assert !IsWhitespace('c');
    assert Trim("c") == "c";
    assert LoadHistory(["a", "b"]) == ["a", "b"];
    assert Filter(["b"], NotEqualTo("c")) == ["b"] by {
      assert ["b"][1..] == [];
    }
    assert Filter(["a", "b"], NotEqualTo("c")) == ["a", "b"] by {
      assert ["a", "b"][1..] == ["b"];
    }
    assert ["c"] + ["a", "b"] == ["c", "a", "b"];
  }

  /** With the intended mount no loaded entry is lost to the first search,
      except the fifth when the query is new and the history full. */
  lemma IntendedMountKeepsHistory(stored: seq<string>, query: string, succeeded: bool)
    ensures forall x :: x in LoadHistory(stored)[..Min(HistoryLimit - 1, |LoadHistory(stored)|)] ==>
              x in IntendedMountedHistory(stored, query, succeeded)
    ensures forall x :: x in IntendedMountedHistory(stored, query, succeeded) ==>
              x == query || x in LoadHistory(stored)
  {
    var h := LoadHistory(stored);
    var k := Min(HistoryLimit - 1, |h|);
    var r := IntendedMountedHistory(stored, query, succeeded);
    if !IsBlank(query) && succeeded {
      NewHistorySpec(query, h);
      var older := Filter(h, NotEqualTo(query));
      var early := Filter(h[..k], NotEqualTo(query));
      assert h == h[..k] + h[k..];
      FilterAppend(h[..k], h[k..], NotEqualTo(query));
      assert |early| <= k;
      assert r[1..] == older[..|early|] + older[|early|..Min(HistoryLimit - 1, |older|)];
      assert older[..|early|] == early;
      forall x | x in h[..k] ensures x in r {
        if x != query {
          FilterMembership(h[..k], NotEqualTo(query), x);
          assert x in r[1..];
        }
      }
    }
  }

  /** The page state; `q` is the URL parameter and `storedHistory` what is kept
      in local storage. */
  class SearchPage {
    var q: Option<string>
    var movies: seq<Movie>
    var loading: bool
    var error: Option<string>
    var searchHistory: seq<string>
    var showHistory: bool
    var storedHistory: seq<string>

    /** `searchParams.get('q') || ''` */
    function Query(): string
      reads this
    {
      q.GetOr("")
    }

    /** The first render, before any effect has run: every state starts at its
        initial value, the history included. */
    constructor (param: Option<string>, stored: seq<string>)
      ensures q == param && searchHistory == [] && storedHistory == stored
      ensures movies == [] && !loading && error.None? && !showHistory
    {
      q := param;
      movies := [];
      loading := false;
      error := None;
      searchHistory := [];
      showHistory := false;
      storedHistory := stored;
    }

    /** performSearch with the outcome of movieService.search; `seenHistory` is
        the `searchHistory` of the render whose closure runs it. */
    method PerformSearch(searchQuery: string, seenHistory: seq<string>, result: Result<seq<Movie>>)
      modifies this
      ensures !loading && q == old(q) && showHistory == old(showHistory)
      ensures result.Success? ==>
                movies == result.value && error.None? &&
                searchHistory == NewHistory(searchQuery, seenHistory) &&
                storedHistory == searchHistory
      ensures result.Failure? ==>
                movies == old(movies) && searchHistory == old(searchHistory) &&
                storedHistory == old(storedHistory) && error == Some(SearchErrorText(result.error))
    {
      loading, error := true, None;
      if result.Success? {
        movies := result.value;
        var newHistory := NewHistory(searchQuery, seenHistory);
        searchHistory, storedHistory := newHistory, newHistory;
      } else {
        error := Some(SearchErrorText(result.error));
      }
      loading := false;
    }

    /** The effect on the query: a non-blank query is searched and the history
        hidden; a blank one clears the results and shows the history.
        `seenHistory` is the history of the render the effect belongs to: []
        on mount, the current history after a later change of `q`. */
    method QueryEffect(seenHistory: seq<string>, result: Result<seq<Movie>>)
      modifies this
      ensures q == old(q)
      ensures !IsBlank(old(Query())) ==> !showHistory && !loading
      ensures !IsBlank(old(Query())) && result.Success? ==>
                movies == result.value && error.None? &&
                searchHistory == NewHistory(old(Query()), seenHistory) && storedHistory == searchHistory
      ensures !IsBlank(old(Query())) && result.Failure? ==>
                movies == old(movies) && searchHistory == old(searchHistory) &&
                storedHistory == old(storedHistory) && error == Some(SearchErrorText(result.error))
      ensures IsBlank(old(Query())) ==>
                movies == [] && showHistory && searchHistory == old(searchHistory) &&
                storedHistory == old(storedHistory) && error == old(error) && loading == old(loading)
    {
      if !IsBlank(Query()) {
        PerformSearch(Query(), seenHistory, result);
        showHistory := false;
      } else {
        movies := [];
        showHistory := true;
      }
    }

    /** The two mount effects in order: the stored history is loaded, then the
        query effect runs in the first render's closure, whose history is []. */
    method Mount(result: Result<seq<Movie>>)
      modifies this
      ensures q == old(q)
      ensures searchHistory == MountedHistory(old(storedHistory), old(Query()), result.Success?)
      ensures !IsBlank(old(Query())) ==> !showHistory && !loading
      ensures !IsBlank(old(Query())) && result.Success? ==>
                movies == result.value && error.None? && storedHistory == searchHistory
      ensures !IsBlank(old(Query())) && result.Failure? ==>
                movies == old(movies) && storedHistory == old(storedHistory) &&
                error == Some(SearchErrorText(result.error))
      ensures IsBlank(old(Query())) ==>
                movies == [] && showHistory && storedHistory == old(storedHistory) &&
                error == old(error) && loading == old(loading)
    {
      ghost var query := Query();
      ghost var stored := storedHistory;
      searchHistory := LoadHistory(storedHistory);
      assert Query() == query;
      QueryEffect([], result);
      assert !IsBlank(query) && result.Success? ==> searchHistory == NewHistory(query, []);
      assert !IsBlank(query) && result.Failure? ==> searchHistory == LoadHistory(stored);
    }

    /** handleSearch: a non-blank query sets `q` to its trimmed text, a blank
        one removes `q`. */
    method HandleSearch(searchQuery: string)
      modifies this
      ensures !IsBlank(searchQuery) ==> q == Some(Trim(searchQuery))
      ensures IsBlank(searchQuery) ==> q.None?
      ensures movies == old(movies) && searchHistory == old(searchHistory)
      ensures storedHistory == old(storedHistory) && showHistory == old(showHistory)
      ensures loading == old(loading) && error == old(error)
    {
      if !IsBlank(searchQuery) {
        q := Some(Trim(searchQuery));
      } else {
        q := None;
      }
    }

    /** clearSearchHistory: both the shown and the stored history are emptied. */
    method ClearSearchHistory()
      modifies this
      ensures searchHistory == [] && storedHistory == []
      ensures q == old(q) && movies == old(movies) && showHistory == old(showHistory)
      ensures loading == old(loading) && error == old(error)
    {
      searchHistory, storedHistory := [], [];
    }
  }

  /** A query set by handleSearch is never blank and is already trimmed, so the
      query effect searches for exactly that text. */
  lemma HandledQueryIsSearched(searchQuery: string)
    requires !IsBlank(searchQuery)
    ensures !IsBlank(Trim(searchQuery)) && Trim(Trim(searchQuery)) == Trim(searchQuery)
  {
    TrimIdempotent(searchQuery);
  }
}
