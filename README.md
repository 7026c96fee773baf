# CineVault: a verified model of the browsing and watchlist logic

CineVault is a React single-page app for browsing movies, searching them and
keeping a personal watchlist, backed by a record store reached through an SDK.
This project models in Dafny the rules the app's components and its two data
services apply, and proves what they promise.

- **Services** (`movie_service.dfy`, `watchlist_service.dfy`).
  - Each backend answer is an input value: a call that either returned a response (`success`, `message`, `data` or `results`) or threw.
  - The services are functions that read those answers.
  - Also modelled: the watchlist record mapping between `movie_id`/`movieId` and the other snake_case and camelCase fields, the create/update/delete payloads, and `getTrending`'s top-eight selection. Movie records are passed on unmapped.
- **Browse and FilterPanel** (`browse.dfy`, `filter_panel.dfy`).
  - The three-stage filter (genre, year, rating) and the sort by key.
  - The active-filter count, the chips that clear one filter, and the panel's own filter state.
  - The panel and the page each keep their own copy of the filters. Removing a chip on the page does not update the panel's copy; the model keeps the two apart as the app does.
- **Watchlist** (`watchlist.dfy`).
  - Merging movies with their entries, the watched filter and sort, and the counts.
  - The star rule.
  - Remove, toggle-watched and rate as in-place updates of the page's two lists.
- **Search and SearchBar** (`search.dfy`, `search_bar.dfy`).
  - The five-entry history, the suggestions and the `q` parameter.
  - The suggestion dropdown and the search box's handlers.
- **TrendingCarousel, MovieGrid, MovieDetail, MovieCard** (`trending_carousel.dfy`, `movie_grid.dfy`, `movie_detail.dfy`, `movie_card.dfy`).
  - The cyclic slide index and the watchlist id set.
  - Related movies and streaming buttons.
  - Which view renders.
  - The bookmark toggles.

Components whose handlers change state step by step are classes: their
fields are the component state and their methods the handlers.
- A handler's backend call is a parameter.
- The requests a handler sends are its out-parameters.
- Each method's `ensures` gives the whole new state.

Pure rules are functions, and lemmas state their properties.

Supporting modules:
- `Sorting`: `Array.prototype.sort` as a stable insertion sort driven by the comparator.
- `JsText`: `trim` over the ECMAScript white-space set, and a code-point order standing in for `localeCompare`.
- `JsNumber`: `toString` and `parseInt` on integers.
- `Seqs`: `filter`, `slice(0, n)` and `find`.

## Model

| member | source | states |
|---|---|---|
| MovieService.FetchList | src/services/api/movieService.js:33-38 | an unsuccessful response fails with the backend's message, a thrown error passes through, a successful one yields its data or [] when data is missing |
| MovieService.GetById | src/services/api/movieService.js:70-79 | succeeds exactly with a successful response carrying a record; no record is the error 'Movie not found'; an unsuccessful response fails with its message |
| MovieService.GetTrending | src/services/api/movieService.js:86-95 | getAll's failure passes through unchanged; otherwise the result is the rating-sorted list cut to eight |
| MovieService.ByRatingDescConsistent | src/services/api/movieService.js:90 | the comparator `b.rating - a.rating` is total and transitive, so sorting with it is well defined |
| MovieService.SortedByRating | src/services/api/movieService.js:90 | sorting with that comparator leaves ratings non-increasing |
| MovieService.TopRatedSpec | src/services/api/movieService.js:88-91 | getTrending returns min(8, n) movies in non-increasing rating, each at most as often as getAll returned it |
| MovieService.TopRatedExcludesLower | src/services/api/movieService.js:88-91 | no movie left out is rated above any movie kept |
| WatchlistService.ToEntry | src/services/api/watchlistService.js:33-39 | `movie_id`, `added_date`, `user_rating` become `movieId`, `addedDate`, `userRating`; `Id` and `watched` are copied |
| WatchlistService.MappingIsBijective | src/services/api/watchlistService.js:75-81 | the row-to-entry mapping loses nothing: it has an inverse on both sides |
| WatchlistService.GetAll | src/services/api/watchlistService.js:28-39 | an unsuccessful response fails with its message; otherwise every row mapped in order, [] when data is missing |
| WatchlistService.GetById | src/services/api/watchlistService.js:66-81 | no record is the error 'Watchlist item not found'; a record is returned mapped |
| WatchlistService.CreatePayload | src/services/api/watchlistService.js:96-104 | the new record has `movie_id = parseInt(movieId, 10)`, the current time, `watched` false and no user rating |
| WatchlistService.CreatePayloadCarriesMovie | src/services/api/watchlistService.js:99 | a movie id written by toString is sent back as that very number |
| WatchlistService.UpdatePayload | src/services/api/watchlistService.js:150-159 | the update record always has the integer `Id`, has `watched` iff the data has it and `user_rating` iff the data has `userRating`, nothing else |
| WatchlistService.DeletePayload | src/services/api/watchlistService.js:208-210 | delete sends exactly the one record id |
| WatchlistService.ReadWrite | src/services/api/watchlistService.js:109-135 | success iff the response succeeded with a non-empty results array and no failed result; then the first result mapped; an unsuccessful response fails with its message, anything else with the fixed text |
| WatchlistService.FilterKeepsNone | src/services/api/watchlistService.js:115-118 | the failed-results list is empty iff every result succeeded |
| WatchlistService.Create | src/services/api/watchlistService.js:118-135 | after a successful response every failure is 'Failed to create watchlist item'; a success is the first result mapped |
| WatchlistService.Update | src/services/api/watchlistService.js:176-193 | after a successful response every failure is 'Failed to update watchlist item'; a success is the first result mapped |
| WatchlistService.Delete | src/services/api/watchlistService.js:214-231 | fails on an unsuccessful response or any failed result, after a successful response with the text 'Failed to delete watchlist item'; otherwise true iff some result succeeded, and true when there is no results array |
| WatchlistService.IsInWatchlist | src/services/api/watchlistService.js:261-269 | true iff the response succeeded with at least one row; false on failure or a thrown error |
| WatchlistService.GetByMovieId | src/services/api/watchlistService.js:299-319 | the first row mapped, or null when there are no rows, the response failed or the call threw |
| WatchlistService.LookupsAgree | src/services/api/watchlistService.js:261-315 | getByMovieId finds an entry exactly when isInWatchlist answers true |
| JsNumber.ParseIntOfToString | src/services/api/watchlistService.js:150-151 | `parseInt(String(n), 10)` is n, also when other non-digit text follows the numeral |
| JsNumber.IntToStringInjective | src/components/pages/Watchlist.jsx:56-58 | equal id strings mean equal ids, so comparing `movieId` with `movieId.toString()` compares the numbers |
| JsText.TrimShape | src/components/pages/Search.jsx:29 | a string trims to nothing iff it is all white space; otherwise the trimmed text starts and ends with a non-space |
| JsText.TrimIdempotent | src/components/pages/Search.jsx:65-66 | trimming twice is trimming once |
| JsText.CompareTextAntisymmetric | src/components/pages/Browse.jsx:78 | the title order flips sign when its arguments swap and is 0 only for equal titles |
| JsText.CompareTextTransitive | src/components/pages/Browse.jsx:78 | the title order is transitive |
| Sorting.StableSort | src/components/pages/Browse.jsx:71-84 | the sort returns a permutation of its input |
| Sorting.SortOrdered | src/components/pages/Browse.jsx:71-84 | with a total, transitive comparator every element may precede every later one |
| Sorting.SortAllTied | src/components/pages/Browse.jsx:81-82 | a comparator that always answers 0 leaves the order unchanged |
| FilterPanel.ActiveFiltersCount | src/components/molecules/FilterPanel.jsx:63-65 | zero iff no genre is selected and both ranges are the defaults; between the genre count and the genre count plus two |
| FilterPanel.ToggleGenre | src/components/molecules/FilterPanel.jsx:27-30 | the genre's membership flips: a selected one is removed, an unselected one is appended at the end |
| FilterPanel.ToggleKeepsOthers | src/components/molecules/FilterPanel.jsx:28-30 | every other genre keeps its membership |
| FilterPanel.ToggleTwice | src/components/molecules/FilterPanel.jsx:28-30 | toggling a genre twice restores the selected set, and the exact list when the genre was not selected |
| FilterPanel.ToggleKeepsDistinct | src/components/molecules/FilterPanel.jsx:28-30 | toggling never selects a genre twice |
| FilterPanel.WithBound | src/components/molecules/FilterPanel.jsx:38-41 | only `filters[type][field]` changes |
| FilterPanel.RangeChangeTakesIntegerPart | src/components/molecules/FilterPanel.jsx:40 | a slider value such as "7.5" is stored as its integer part |
| FilterPanel.Panel.constructor | src/components/molecules/FilterPanel.jsx:7-13 | the panel starts closed with no genres, years 2000-2024, rating 0-10, sorted by rating |
| FilterPanel.Panel.HandleGenreToggle | src/components/molecules/FilterPanel.jsx:27-35 | only the genre list changes, and the callback receives the stored filters |
| FilterPanel.Panel.HandleRangeChange | src/components/molecules/FilterPanel.jsx:37-44 | only the chosen bound changes, to parseInt of the value, and the callback receives the stored filters |
| FilterPanel.Panel.HandleSortChange | src/components/molecules/FilterPanel.jsx:46-50 | only `sortBy` changes, and the callback receives the stored filters |
| FilterPanel.Panel.ClearFilters | src/components/molecules/FilterPanel.jsx:52-61 | the filters are exactly the defaults, whose active count is 0, and the callback receives them |
| FilterPanel.Panel.SetOpen | src/components/molecules/FilterPanel.jsx:72 | opening or closing leaves the filters alone |
| Browse.ApplyFilters | src/components/pages/Browse.jsx:46-87 | the staged filter and in-place sort equal the one-pass specification `Visible` |
| Browse.BrowseCompareConsistent | src/components/pages/Browse.jsx:71-84 | every sort key, known or not, gives a total and transitive comparator |
| Browse.VisibleContents | src/components/pages/Browse.jsx:47-68 | the result is a permutation of exactly the movies passing all three filters: each passing movie as often as in the input, no other |
| Browse.VisibleWithinFilters | src/components/pages/Browse.jsx:58-68 | every result lies in both ranges, ends included, and shares a selected genre when any is selected |
| Browse.NoGenreKeepsAll | src/components/pages/Browse.jsx:50-56 | with no genre selected, a movie in both ranges is always shown |
| Browse.VisibleOrder | src/components/pages/Browse.jsx:70-84 | 'rating' and 'popularity' give non-increasing rating, 'year' non-increasing year, 'title' ascending titles; any other key keeps the filtered order |
| Browse.RemoveGenreChip | src/components/pages/Browse.jsx:167-170 | only that genre leaves the selection; the other filter fields are unchanged |
| Browse.ClearYearChip | src/components/pages/Browse.jsx:182-187 | only the year range goes back to 2000-2024 |
| Browse.ClearRatingChip | src/components/pages/Browse.jsx:199-204 | only the rating range goes back to 0-10 |
| Browse.ChipRemovalLowersCount | src/components/pages/Browse.jsx:93-95 | removing a shown chip lowers the active-filter count by exactly one |
| Browse.BrowsePage.constructor | src/components/pages/Browse.jsx:11-21 | the page starts empty with the default filters |
| Browse.BrowsePage.LoadMovies | src/components/pages/Browse.jsx:31-44 | success stores the movies; failure keeps them and sets the message or 'Failed to load movies'; the shown list is re-filtered either way |
| Browse.BrowsePage.ShowLoaded | src/components/pages/Browse.jsx:27-37 | the stored movies are filtered again by the effect |
| Browse.BrowsePage.ShowLoadError | src/components/pages/Browse.jsx:38-39 | the error text falls back to 'Failed to load movies' when the message is empty |
| Browse.BrowsePage.HandleFiltersChange | src/components/pages/Browse.jsx:89-91 | new filters are stored and the shown list follows them |
| Watchlist.Merge | src/components/pages/Watchlist.jsx:40-43 | the merged list is as long as the watchlist and element i carries movie i and `watchlist[i]` |
| Watchlist.FetchAll | src/components/pages/Watchlist.jsx:35-39 | all movies arrive in entry order, or the whole load fails exactly when some fetch fails |
| Watchlist.LoadErrorText | src/components/pages/Watchlist.jsx:47 | the error is the message, or 'Failed to load watchlist' when it is empty |
| Watchlist.FilteredAndSorted | src/components/pages/Watchlist.jsx:125-150 | the staged filter and in-place sort equal the specification `Shown` |
| Watchlist.ShownContents | src/components/pages/Watchlist.jsx:126-133 | 'watched' keeps exactly the watched entries, 'unwatched' exactly the others, anything else keeps all, each as often as loaded |
| Watchlist.WatchCompareConsistent | src/components/pages/Watchlist.jsx:136-147 | every sort key gives a total and transitive comparator |
| Watchlist.ShownOrder | src/components/pages/Watchlist.jsx:136-147 | 'added' puts the newest first, 'rating' gives non-increasing rating, 'title' ascending titles, any other key keeps the order |
| Watchlist.WatchedCount | src/components/pages/Watchlist.jsx:153 | the watched count never exceeds the number of movies |
| Watchlist.UnwatchedCount | src/components/pages/Watchlist.jsx:154 | watched plus unwatched is the number of movies |
| Watchlist.ButtonCountsMatchLists | src/components/pages/Watchlist.jsx:254-258 | the count on each filter button equals the length of the list that filter shows |
| Watchlist.StarRating | src/components/pages/Watchlist.jsx:370 | star k requests the even rating 2k |
| Watchlist.StarsUpToClicked | src/components/pages/Watchlist.jsx:370-380 | after clicking star k exactly stars 1..k are filled; an unset rating fills none |
| Watchlist.EntryFor | src/components/pages/Watchlist.jsx:56-58 | the first entry whose `movieId` is the id's string, and none only when no entry has it |
| Watchlist.EntryForParsesBack | src/components/pages/Watchlist.jsx:56-58 | the entry found has a movie id that parses back to the number |
| Watchlist.MovieFor | src/components/pages/Watchlist.jsx:73-74 | a movie with that Id, and none only when no movie has it |
| Watchlist.ReplaceById | src/components/pages/Watchlist.jsx:81-83 | every entry with the returned entry's Id is replaced by it, every other entry is untouched |
| Watchlist.AttachToMovie | src/components/pages/Watchlist.jsx:85-89 | only the movies with that Id get the new `watchlistItem` |
| Watchlist.ToggleMovesBetweenCounts | src/components/pages/Watchlist.jsx:76-89 | with one row per movie, toggling changes exactly that row and moves the watched count by one |
| Watchlist.RemovalDropsExactly | src/components/pages/Watchlist.jsx:62-63 | removal drops exactly the rows with that entry Id and that movie Id |
| Watchlist.WatchlistPage.constructor | src/components/pages/Watchlist.jsx:14-19 | empty lists, filter 'all', sort 'added' |
| Watchlist.WatchlistPage.LoadWatchlist | src/components/pages/Watchlist.jsx:26-52 | entries are stored as soon as they arrive; movies are replaced by the merge only when every fetch succeeds; failures set the error text |
| Watchlist.WatchlistPage.RemoveFromWatchlist | src/components/pages/Watchlist.jsx:54-69 | a delete is sent only for an entry whose `movieId` is the id's string; after it, exactly that entry and that movie leave the lists; otherwise nothing changes |
| Watchlist.WatchlistPage.ToggleRequest | src/components/pages/Watchlist.jsx:73-79 | toggling sends the movie's entry Id with the negated watched flag, and nothing when the movie is absent |
| Watchlist.WatchlistPage.RateRequest | src/components/pages/Watchlist.jsx:101-107 | rating sends the entry Id with only the user rating |
| Watchlist.WatchlistPage.ApplyUpdate | src/components/pages/Watchlist.jsx:109-117 | a returned entry replaces the one with its Id and becomes the movie's item; a failed update changes nothing |
| Watchlist.WatchlistPage.ToggleWatched | src/components/pages/Watchlist.jsx:71-97 | the request, then the two list replacements, or no change when the movie is absent or the update fails |
| Watchlist.WatchlistPage.RateMovie | src/components/pages/Watchlist.jsx:99-123 | the request, then the two list replacements, or no change when the movie is absent or the update fails |
| Watchlist.WatchlistPage.SetFilter | src/components/pages/Watchlist.jsx:263 | only the filter changes |
| Watchlist.WatchlistPage.SetSortBy | src/components/pages/Watchlist.jsx:278 | only the sort key changes |
| Search.NewHistory | src/components/pages/Search.jsx:47-50 | the new history starts with the query and has one to five entries |
| Search.NewHistorySpec | src/components/pages/Search.jsx:47-50 | the query occurs exactly once; the rest are the older entries other than it, in their old order, as many as fit; nothing else appears |
| Search.NewHistoryIdempotent | src/components/pages/Search.jsx:47-50 | searching the same query again leaves the history as it is |
| Search.NewHistoryDistinct | src/components/pages/Search.jsx:47-50 | a history without repeats stays without repeats |
| Search.LoadHistory | src/components/pages/Search.jsx:24-25 | the loaded history is the first five stored entries |
| Search.SuggestionsSpec | src/components/pages/Search.jsx:82-97 | at most four suggestions, each from the fixed list and not in the history, in list order; fewer than four only when no other was left |
| Search.SuggestionsWithoutHistory | src/components/pages/Search.jsx:83-96 | with no history the first four fixed suggestions are offered |
| Search.SearchErrorText | src/components/pages/Search.jsx:56 | the error is the message, or 'Search failed' when it is empty |
| Search.MountedHistory | src/components/pages/Search.jsx:22-53 | after mount, a successful search on a non-blank `q` leaves only `[q]`; otherwise the first five stored entries |
| Search.MountSearchDropsStoredHistory | src/components/pages/Search.jsx:22-53 | stored ["a", "b"] with `?q=c` ends as ["c"], not the intended ["c", "a", "b"] |
| Search.IntendedMountKeepsHistory | src/components/pages/Search.jsx:24-25 | with the intended mount, the first four loaded entries all survive the first search, and nothing but the query is added |
| Search.SearchPage.constructor | src/components/pages/Search.jsx:12-20 | the first render: `q` from the URL, empty history, results and error, nothing loading |
| Search.SearchPage.PerformSearch | src/components/pages/Search.jsx:38-61 | success stores the results and the query added to the closure's history, also in storage; failure keeps them and sets the message or 'Search failed' |
| Search.SearchPage.QueryEffect | src/components/pages/Search.jsx:28-36 | a non-blank query is searched and the history hidden, with the whole new state of either outcome; a blank one clears the results and shows the history |
| Search.SearchPage.Mount | src/components/pages/Search.jsx:22-36 | the load effect, then the query effect with the first render's empty history; the history ends as `MountedHistory` and storage follows a successful search |
| Search.SearchPage.HandleSearch | src/components/pages/Search.jsx:63-71 | a non-blank query sets `q` to its trimmed text, a blank one removes `q` |
| Search.SearchPage.ClearSearchHistory | src/components/pages/Search.jsx:77-80 | the shown and the stored history become empty |
| Search.HandledQueryIsSearched | src/components/pages/Search.jsx:63-71 | a `q` set by handleSearch is non-blank and already trimmed, so the effect searches exactly it |
| SearchBar.FinalQuery | src/components/molecules/SearchBar.jsx:40 | the argument when it is a non-empty string, the box's query otherwise |
| SearchBar.SearchBox.constructor | src/components/molecules/SearchBar.jsx:9-12 | an empty box with a closed, empty dropdown |
| SearchBar.SearchBox.SuggestionEffect | src/components/molecules/SearchBar.jsx:15-37 | a query under two characters clears and closes; otherwise the first five results open the dropdown; an error only clears them |
| SearchBar.SearchBox.HandleSearch | src/components/molecules/SearchBar.jsx:39-47 | a non-blank final query navigates to its trimmed text, closes, empties the box and is handed on trimmed; a blank one does nothing |
| SearchBar.SearchBox.HandleSuggestionClick | src/components/molecules/SearchBar.jsx:49-53 | navigates to the movie's page, closes, empties the box |
| SearchBar.SearchBox.HandleKeyPress | src/components/molecules/SearchBar.jsx:55-61 | Enter searches with the box's text, Escape only closes, other keys do nothing |
| SearchBar.SearchBox.SetQuery | src/components/molecules/SearchBar.jsx:71 | only the query changes |
| TrendingCarousel.Next | src/components/organisms/TrendingCarousel.jsx:37 | on a slide index the next index is (i + 1) mod n, within [0, n) |
| TrendingCarousel.Prev | src/components/organisms/TrendingCarousel.jsx:31 | on a slide index the previous index is (i - 1) mod n, within [0, n) |
| TrendingCarousel.NextPrevInverse | src/components/organisms/TrendingCarousel.jsx:31-37 | next then previous, and previous then next, return to the same slide |
| TrendingCarousel.TicksCycle | src/components/organisms/TrendingCarousel.jsx:15-19 | k timer ticks move k slides on, cyclically |
| TrendingCarousel.FullCycle | src/components/organisms/TrendingCarousel.jsx:15-19 | n ticks bring back the same slide |
| TrendingCarousel.Carousel.constructor | src/components/organisms/TrendingCarousel.jsx:7-9 | the first slide, auto-playing |
| TrendingCarousel.Carousel.Tick | src/components/organisms/TrendingCarousel.jsx:12-22 | the tick advances only while auto-playing over a non-empty list, keeping the index in range |
| TrendingCarousel.Carousel.GoToNext | src/components/organisms/TrendingCarousel.jsx:36-40 | the next slide, auto-play paused |
| TrendingCarousel.Carousel.GoToPrevious | src/components/organisms/TrendingCarousel.jsx:30-34 | the previous slide, auto-play paused |
| TrendingCarousel.Carousel.GoToSlide | src/components/organisms/TrendingCarousel.jsx:24-28 | the chosen slide, auto-play paused |
| TrendingCarousel.Carousel.Resume | src/components/organisms/TrendingCarousel.jsx:27 | auto-play resumes on the same slide |
| TrendingCarousel.Carousel.CurrentMovie | src/components/organisms/TrendingCarousel.jsx:52-56 | nothing is shown for an empty list; otherwise the movie at the current index |
| MovieGrid.MovieIdSet | src/components/organisms/MovieGrid.jsx:24 | the set holds exactly the parsed movie ids of the entries |
| MovieGrid.SavedEntryMarksMovie | src/components/organisms/MovieGrid.jsx:24 | an entry saved with a movie's id as text marks that movie |
| MovieGrid.LoadedSet | src/components/organisms/MovieGrid.jsx:21-29 | the id set on success, the empty set on failure |
| MovieGrid.WithMembership | src/components/organisms/MovieGrid.jsx:36-46 | the id is in the new set iff the flag is true; every other id keeps its membership |
| MovieGrid.MembershipRoundTrip | src/components/organisms/MovieGrid.jsx:36-46 | adding then removing an id, or removing then adding, undoes the first change |
| MovieGrid.Cards | src/components/organisms/MovieGrid.jsx:88-101 | one card per movie in order, flagged iff the movie's Id is in the set |
| MovieGrid.Render | src/components/organisms/MovieGrid.jsx:48-103 | loading first, then a non-empty error, then the empty message with its title and description, then the grid of exactly `Cards(movies, watchlistItems)` |
| MovieGrid.Grid.constructor | src/components/organisms/MovieGrid.jsx:18 | the set starts empty |
| MovieGrid.Grid.MoviesEffect | src/components/organisms/MovieGrid.jsx:20-34 | the set is reloaded only for a non-empty movie list |
| MovieGrid.Grid.HandleWatchlistChange | src/components/organisms/MovieGrid.jsx:36-46 | the set becomes the copy with the id added or deleted |
| MovieDetail.RelatedMoviesSpec | src/components/pages/MovieDetail.jsx:38-41 | at most four related movies, never the movie itself, in the genre results' order; fewer only when none was left |
| MovieDetail.PlatformName | src/components/pages/MovieDetail.jsx:92-100 | a name exactly for the seven known platform keys |
| MovieDetail.LinkButtons | src/components/pages/MovieDetail.jsx:102-106 | one button per link entry keeping its platform and url, with the platform's name |
| MovieDetail.StreamingButtons | src/components/pages/MovieDetail.jsx:89-107 | no buttons without links, otherwise one per link |
| MovieDetail.LoadErrorText | src/components/pages/MovieDetail.jsx:43 | the message, or 'Failed to load movie details' when it is empty |
| MovieDetail.Render | src/components/pages/MovieDetail.jsx:109-143 | loading first, then a non-empty error with its message, then nothing without a movie, then the page with its movie, its streaming buttons, the related list and the watchlist flag |
| MovieDetail.DetailPage.constructor | src/components/pages/MovieDetail.jsx:13-20 | no movie, not loading, not in the watchlist |
| MovieDetail.DetailPage.LoadMovie | src/components/pages/MovieDetail.jsx:29-48 | the movie is stored; related movies are fetched for its first genre only when it has genres; each failure sets the error text |
| MovieDetail.DetailPage.ShowRelated | src/components/pages/MovieDetail.jsx:38-41 | the related list or, when that fetch fails, the error text |
| MovieDetail.DetailPage.CheckWatchlistStatus | src/components/pages/MovieDetail.jsx:50-57 | the flag is isInWatchlist's answer, false on any failure |
| MovieDetail.DetailPage.HandleWatchlistToggle | src/components/pages/MovieDetail.jsx:59-80 | in the watchlist: delete the entry found, flag false unless the delete fails, unchanged when none is found; otherwise create one, flag true iff the create succeeds |
| MovieCard.GetRatingColor | src/components/molecules/MovieCard.jsx:46-51 | green from 8.5, accent from 7.5, yellow from 6.5, red below |
| MovieCard.RatingColorMonotone | src/components/molecules/MovieCard.jsx:46-51 | a higher rating never gets a worse colour |
| MovieCard.GenreChips | src/components/molecules/MovieCard.jsx:117-129 | at most the first two genres are shown, and a `+k` chip appears iff there are more than two |
| MovieCard.ChipsAccountForAll | src/components/molecules/MovieCard.jsx:117-129 | shown chips plus k count every genre |
| MovieCard.Card.constructor | src/components/molecules/MovieCard.jsx:9-11 | the initial `watchlisted` is the `isInWatchlist` prop |
| MovieCard.Card.HandleWatchlistToggle | src/components/molecules/MovieCard.jsx:14-40 | removal with an entry found clears the flag and reports (Id, false); adding sets it and reports (Id, true); no entry or a failed write changes nothing and reports nothing |
| MovieCard.CardCreatesOwnMovie | src/components/molecules/MovieCard.jsx:28-30 | the entry a card creates names the card's movie by its number |

## Findings

| source | as written | input that shows it | evidently intended | confidence | as-written member | corrected member |
|---|---|---|---|---|---|---|
| src/components/pages/Search.jsx:22-53 | on mount the query effect's search runs in the first render's closure, whose `searchHistory` is the initial `[]`; a successful search then overwrites the loaded history, in state and in storage, with the query alone | stored history ["a", "b"], URL `?q=c`, the search succeeds: the history becomes ["c"] | the query added in front of the loaded history: ["c", "a", "b"] | not executed | Search.MountSearchDropsStoredHistory | Search.IntendedMountKeepsHistory |

Every search begun from another page arrives through the header's search box with `?q=`, so it mounts this page and meets this path. `Search.SearchPage.Mount` models the page as written; `Search.IntendedMountedHistory` is the intended history.

## Left out

- The record-store SDK, its construction from environment variables, and the network. Each call's outcome is an input value, returned or thrown.
- Query parameters sent to the store (field lists, `where`, `orderBy`). The store's answer is taken as given, so getByMovieId's and isInWatchlist's filtering by `movie_id` is assumed.
- Rendering, animation, CSS classes and toasts. Only which view is shown, the cards, chips and buttons are modelled; the rating-bar percentage in MovieDetail is left out.
- The 5-second interval and 10-second resume timeout of the carousel are the explicit steps `Tick` and `Resume`. The SearchBar's 300 ms debounce is the single `SuggestionEffect` step.
- Async ordering and races between overlapping requests. Each handler runs to completion with its inputs.
- Watchlist.FetchAll: `Promise.all` rejects with whichever fetch fails first in time; the model reports the first failure by position.
- localStorage is the `storedHistory` field. Router state and navigation are the `q` field and returned `Route` values. `encodeURIComponent` is not applied to the search text. `window.open`, console logging and affiliate tracking are left out.
- Sorting by title uses code-point order in place of the locale collation of `localeCompare`.
- Dates are integer timestamps. `new Date().toISOString()` in create is the parameter `now`.
- Sorts are modelled on sequences as values. `Array.prototype.sort` mutates only a fresh local copy in every modelled place, so no aliasing is lost.
- MovieGrid.MovieIdSet: `parseInt` without a radix also reads a "0x" prefix as hexadecimal; the model parses decimal only.
- WatchlistService.Row: `create` sends `movie_id` as the number `parseInt(movieId, 10)`, while every reader compares it as text (the `where` values of isInWatchlist and getByMovieId, and Watchlist's `===` against `movieId.toString()`). The model assumes the store returns `movie_id` as the decimal text of the number `create` sent. A store that hands back the number would make Watchlist's removal find no entry, and the model cannot express that case.
- MovieService.Movie: the movie queries ask the store for the field `streaming_links` and return its records unmapped (movieService.js:21, 38, 78), while MovieDetail and TrendingCarousel read `movie.streamingLinks`. The model assumes the link object arrives under `streamingLinks`. If the store keys it by the requested field name, every movie reaches the page without that key, `getStreamingButtons` returns [] for every movie, and `MovieDetail.StreamingButtons`' one-button-per-link clause never applies. The model gives that case as a `None` link object.
- MovieGrid.MovieIdSet: a movie id that parses to NaN would add NaN to the JavaScript Set. No movie Id equals NaN, so the model leaves it out without changing any `has` answer.
- FilterPanel.Panel.HandleRangeChange: requires a value that parses to an integer. The range sliders only ever report numerals, so the NaN case cannot arise.
- SearchBar.SearchBox.SuggestionEffect: `query.length` counts UTF-16 code units, while the model counts characters.
- JsNumber.IntToString: covers integers only, so the exponent form of `toString` for magnitudes of 10^21 and above is not modelled.
- Ratings are reals compared exactly; floating-point rounding is not modelled.
- The movieService queries other than getAll, getById and getTrending (getByGenre, search, getPopular, getNewReleases) are pass-throughs read by `FetchList`; their query parameters are not modelled.
- Home, Header, MobileMenu, Layout, NotFound, the routes table and the atoms (Button, Input, SkeletonLoader, EmptyState, ErrorState) are presentational or routing code and are not part of this model.
