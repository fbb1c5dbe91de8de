# Anime discovery client and recommendation server: a Dafny model

This project models the logic core of an anime-discovery application in
two parts.

The client is a React component (`frontend-anime/src/App.jsx`). It turns
user intents into view state:
- search by title, browse by genre, change page;
- go back through a history of earlier result views;
- toggle favourites;
- sort the shown list.

The server is a Flask app (`my-flask-backend/app.py`). The model covers its
pure helpers:
- choosing the English title;
- looking a title up in the cached catalogue;
- filtering a similarity ranking down to ten recommendations;
- the genre catalogue;
- validation and pagination of the `/recommend` and `/by_genre` endpoints.

Modules:
- `Wrappers`, `Catalog`: `Option`, and the `Anime`/`Payload` JSON records
  both sides exchange.
- `Strings`: code-point lexicographic order (Python's `sorted`, and the
  model of `localeCompare`) and ASCII lower-casing.
- `Sorting`: a stable insertion sort by a total preorder, proved to be
  sorted, a permutation and stable. It models `Array.prototype.sort` and
  Python's `sorted`.
- `Favorites`: the `toggleFavorite` updater as a function on lists.
- `SortProjector`: `sortedRecommendations`.
- `ViewController`: class `App`. Its fields are the component's state
  variables; its methods are the handlers. Each asynchronous fetch is two
  steps: a Begin step (everything before the `await`) that returns the
  request it would send, and `CompleteFetch`, which takes the outcome of
  that request (success body, error response or thrown error).
- `NavigationScenarios`: properties of handler sequences, proved from the
  handlers' contracts.
- `Pagination`: the 20-per-page Python slicing of `/by_genre`.
- `Backend`: the server helpers. The similarity scores, the live Jikan API
  and the score sort are parameters.

## Behaviour worth knowing

The model follows the code, including where it differs from what a user
of the application would expect.
- A page change runs `executeGenreSearch`, so it pushes a history
  snapshot when results are shown: paging through a genre fills the
  history, and "back" steps through the earlier pages
  (`NavigationScenarios.GenrePaging`).
- When "back" pops the last snapshot, the landing view is shown and the
  popped results are discarded. After searching one title and then
  another, "back" therefore shows the landing view, not the first
  title's list (`NavigationScenarios.TwoSearchesThenBack`).
- Only the empty title is rejected. A title of spaces starts a search.
- The snapshot is pushed before the empty-title check, so a rejected
  search still grows the history (`NavigationScenarios.EmptyTitleAfterResults`).
- `/by_genre` does not reject pages below 1. Page 0 is empty, and a
  negative page is sliced from the end of the list
  (`Pagination.PagesBelowOne`). The client never sends such a page.

## Model

| member | source | states |
|---|---|---|
| `ViewController.App.constructor` | frontend-anime/src/App.jsx:40-56 | the initial state: nothing shown, empty history, default prompt, trending shown, page 1 of 1, no genre |
| `ViewController.App.LoadFavorites` | frontend-anime/src/App.jsx:60-67 | saved favourites, when storage has any, replace the list, and the stored copy equals the list |
| `ViewController.App.SetSortOption` | frontend-anime/src/App.jsx:248 | the sort option is the selected one; nothing else changes (a new search does not reset it) |
| `ViewController.App.SortedRecommendations` | frontend-anime/src/App.jsx:188-200 | the displayed list is a rearrangement of the recommendations, equal to them for any option other than score, az and date |
| `ViewController.App.RememberCurrentView` | frontend-anime/src/App.jsx:127-129 | exactly one snapshot of the current view is appended when something is shown, otherwise the history is unchanged |
| `ViewController.App.BeginTitleFetch` | frontend-anime/src/App.jsx:102-105 | an empty title only sets the prompt and sends nothing; any other title sets loading, clears list and searched item together, clears the genre, hides trending and sends the title |
| `ViewController.App.BeginGenreFetch` | frontend-anime/src/App.jsx:114-117 | an empty genre changes nothing; otherwise loading, list and searched item cleared together, trending hidden, request for that genre and page |
| `ViewController.App.ProcessApiResponse` | frontend-anime/src/App.jsx:87-93 | searched item and list come from the body together; page fields are `current_page \|\| 1` and `total_pages \|\| 1` |
| `ViewController.App.HandleError` | frontend-anime/src/App.jsx:95-100 | the error message is shown and the searched item and list are cleared |
| `ViewController.App.CompleteFetch` | frontend-anime/src/App.jsx:106-111 | after either outcome loading is off; success replaces the view from the body; failure clears it and keeps the page fields; genre and history untouched |
| `ViewController.FailureMessage` | frontend-anime/src/App.jsx:108 | a rejected response's message is its `error` field, or "An error occurred" when that is missing or empty; a thrown error keeps its own message |
| `ViewController.OrOne` | frontend-anime/src/App.jsx:91-92 | `x \|\| 1`: never 0; 1 for a missing value or 0; any other value is kept |
| `ViewController.Snapshot.ShowsResults` | frontend-anime/src/App.jsx:127 | the view shows nothing exactly when its list is empty and it has no searched item |
| `ViewController.App.ExecuteSearch` | frontend-anime/src/App.jsx:126-132 | the snapshot push, then the begin step of a title search; the push happens even for an empty title |
| `ViewController.App.ExecuteGenreSearch` | frontend-anime/src/App.jsx:134-141 | the snapshot push, the search term cleared, the genre recorded, then the begin step of a genre request |
| `ViewController.App.ToggleFavorite` | frontend-anime/src/App.jsx:143-152 | the list becomes the toggled list, the item's membership flips, and the stored copy follows |
| `ViewController.App.HandleBack` | frontend-anime/src/App.jsx:158-178 | no-op on an empty history; otherwise drops the last snapshot and restores its genre and page fields; the landing view if the history is then empty, the snapshot's results and a matching message if not |
| `ViewController.App.HandlePageChange` | frontend-anime/src/App.jsx:182-186 | outside `1..totalPages` or without a genre nothing changes and nothing is sent; otherwise exactly the effect of `executeGenreSearch(currentGenre, page)`, snapshot included |
| `NavigationScenarios.SearchThenBack` | frontend-anime/src/App.jsx:126-178 | a search from a shown view, with any outcome (and none when an empty title sends nothing), then back, gives the history back, restores genre and pages, and restores the results unless the history empties (landing view) |
| `NavigationScenarios.TwoSearchesThenBack` | frontend-anime/src/App.jsx:158-178 | from a fresh start, two searches leave one snapshot, and back then shows the landing view, not the first results |
| `NavigationScenarios.GenrePaging` | frontend-anime/src/App.jsx:182-186 | paging to page 2 of 3 pushes a snapshot; page 4 sends nothing and the page stays 2 |
| `NavigationScenarios.EmptyTitleAfterResults` | frontend-anime/src/App.jsx:126-131 | an empty title while results are shown sends nothing and shows the prompt, but the history still grows to one |
| `Favorites.WithoutId` | frontend-anime/src/App.jsx:147 | the filtered list holds no entry with the id and is no longer than the input |
| `Favorites.WithoutIdShrinks` | frontend-anime/src/App.jsx:147 | the filtered list holds only entries of the input, and is shorter than it when the id was there |
| `Favorites.Toggled` | frontend-anime/src/App.jsx:144-151 | no entry but the item itself is new; a present id makes the list shorter; an absent one appends the item after the unchanged list |
| `Favorites.WithoutIdHas` | frontend-anime/src/App.jsx:147 | after the filter, an id is present exactly when it differs from the removed id and was present before |
| `Favorites.ToggleFlips` | frontend-anime/src/App.jsx:143-152 | toggling flips whether the item's id is a favourite |
| `Favorites.ToggleKeepsOtherIds` | frontend-anime/src/App.jsx:143-152 | every other id keeps its membership |
| `Favorites.ToggleKeepsOthersInOrder` | frontend-anime/src/App.jsx:143-152 | with the toggled id removed, the list before and after is the same: other entries keep their order and number |
| `Favorites.ToggleKeepsUniqueIds` | frontend-anime/src/App.jsx:143-152 | a list without repeated ids keeps that property |
| `Favorites.ToggleTwiceFromAbsent` | frontend-anime/src/App.jsx:143-152 | adding an absent item and toggling it again gives back the same list |
| `Favorites.ToggleTwiceRestoresMembership` | frontend-anime/src/App.jsx:143-152 | two toggles restore every id's membership (not necessarily the position) |
| `Favorites.ToggleParity` | frontend-anime/src/App.jsx:143-152 | after n toggles the item is a favourite iff its prior membership and the parity of n agree |
| `SortProjector.SortedRecommendations` | frontend-anime/src/App.jsx:188-200 | a permutation of the input; unchanged for 'default' and unknown options; non-increasing score (missing = 0) for 'score', non-increasing date (missing = epoch) for 'date', non-decreasing title for 'az' |
| `SortProjector.ComparatorsArePreorders` | frontend-anime/src/App.jsx:190-197 | the three comparators are total and transitive |
| `SortProjector.ScoreSortIsStable` | frontend-anime/src/App.jsx:190 | items with equal scores keep the order the API sent |
| `SortProjector.TitleSortIsStable` | frontend-anime/src/App.jsx:191 | items with equal titles keep the order the API sent |
| `SortProjector.DateSortIsStable` | frontend-anime/src/App.jsx:192-197 | items with equal dates keep the order the API sent |
| `Sorting.Insert` | frontend-anime/src/App.jsx:189-199 | inserting adds exactly the one element |
| `Sorting.Sort` | frontend-anime/src/App.jsx:189-199 | the sort returns a rearrangement of its input |
| `Sorting.SortSorted` | frontend-anime/src/App.jsx:189-199 | with a total preorder, the result is sorted |
| `Sorting.SortStable` | frontend-anime/src/App.jsx:189-199 | elements that tie keep their input order |
| `Backend.GetEnglishTitle` | my-flask-backend/app.py:38-42 | the title of the first entry of type 'English', and None exactly when there is none |
| `Strings.Lower` | my-flask-backend/app.py:78-79 | lower-casing keeps the length and maps each character |
| `Backend.FirstMatch` | my-flask-backend/app.py:79-82 | the first row whose name or English title equals the title ignoring case, or none if no row does |
| `Backend.FindAnimeDetails` | my-flask-backend/app.py:75-94 | None for an empty title; the first case-insensitive match on name or English title; the live answer when no row matches |
| `Backend.WithoutSearched` | my-flask-backend/app.py:134-137 | the filtered ranking is no longer than the ranking and holds no row with the searched id |
| `Backend.WithoutSearchedMembers` | my-flask-backend/app.py:133-137 | a ranked row survives the filter exactly when its id is not the searched one |
| `Backend.WithoutSearchedDescending` | my-flask-backend/app.py:133-137 | the filter keeps a descending ranking descending |
| `Backend.TopRecommendations` | my-flask-backend/app.py:133-139 | at most ten rows, none with the searched id, all from the ranking, descending if the ranking is, and exactly the first ten survivors |
| `Backend.Scored` | my-flask-backend/app.py:130 | one entry per cached row, in cache order, each paired with that row's own similarity score |
| `Backend.Items` | my-flask-backend/app.py:142-144 | the served records of the rows, in order |
| `Backend.RankingIsDescending` | my-flask-backend/app.py:129-131 | the similarity ranking is non-increasing |
| `Backend.GetRecommendations` | my-flask-backend/app.py:118-146 | None for an empty cache or an unknown title; otherwise the looked-up anime and at most ten cached items, none with its id |
| `Backend.Recommend` | my-flask-backend/app.py:159-165 | 400 without a title, 404 exactly when nothing is found, otherwise the anime and its recommendations without page fields |
| `Backend.AllGenres` | my-flask-backend/app.py:170 | the flattened list holds exactly the cached genres |
| `Backend.ListOfSet` | my-flask-backend/app.py:171 | each element of the set once, in some order |
| `Backend.GetAllGenres` | my-flask-backend/app.py:167-176 | [] for an empty cache; otherwise exactly the cached genres plus 'Hentai' and 'Adventure', strictly ascending (sorted, no duplicates) |
| `Backend.AscendingGenresDetermined` | my-flask-backend/app.py:171-176 | two strictly ascending lists with the same genres are equal, so the reply does not depend on the order `list(set(...))` produces |
| `Backend.GenreRows` | my-flask-backend/app.py:227 | every cached row listing the genre is in the result and every result row is a cached row listing it; empty exactly when no row lists it |
| `Backend.GenreRowsCount` | my-flask-backend/app.py:227 | a row listing the genre is kept as many times as it is cached, any other row not at all |
| `Backend.GenreRowsAppend` | my-flask-backend/app.py:227 | the filter of two parts is the filters of the parts, one after the other: rows keep their cache order |
| `Backend.GenreHeader` | my-flask-backend/app.py:246 | the header has no id, score, date or genres, and its title is "Top ", the genre, " Anime", so the genre can be read back |
| `Backend.ByGenre` | my-flask-backend/app.py:184-248 | 400 without a genre, the live reply for live genres, 500 for a cached genre on an empty catalogue, otherwise 404 exactly when no cached row has the genre, else the header, the echoed page, ceil(n/20) pages and that page of the listing, all of the genre |
| `Backend.ByGenreEmptyCatalogueFails` | my-flask-backend/app.py:14 | a cached genre on an empty catalogue gets the server error, not the route's 404 |
| `Backend.ByGenreGuarded` | my-flask-backend/app.py:227-228 | with the empty-catalogue check, a cached genre gets 404 exactly when no row lists it, empty catalogue included, and the route's reply otherwise |
| `Backend.ListingHasGenre` | my-flask-backend/app.py:227-233 | the sorted listing has as many items as the genre has rows, all of that genre |
| `Backend.ByGenrePageSize` | my-flask-backend/app.py:235-248 | with the empty-catalogue check, each page of a cached genre from 1 on is a success with at most 20 items, non-empty exactly up to ceil(n/20) |
| `Backend.ByGenrePagesCoverListing` | my-flask-backend/app.py:235-240 | pages 1 to the page count, in order, concatenate to the genre's sorted listing |
| `Pagination.TotalPages` | my-flask-backend/app.py:236 | the fewest pages of 20 that hold n items |
| `Pagination.SliceBound` | my-flask-backend/app.py:240 | a Python slice bound: a position inside the list stands, a negative one counts back from the end, and either is clipped to the list |
| `Pagination.Slice` | my-flask-backend/app.py:240 | `s[start:stop]`: the items from the clipped start bound up to the clipped stop bound (none when stop is not after start), in order; ordinary slicing when both bounds are inside the list |
| `Pagination.Page` | my-flask-backend/app.py:238-240 | at most 20 items, all from the list; for page >= 1 the items from (page-1)*20 to page*20 clipped to n, non-empty iff page <= total |
| `Pagination.FirstPagesArePrefix` | my-flask-backend/app.py:238-240 | the first k pages together are the first 20k items |
| `Pagination.PagesCoverList` | my-flask-backend/app.py:235-240 | all pages together are the whole list, in order |
| `Pagination.PagesBelowOne` | my-flask-backend/app.py:238-240 | page 0 is empty and page -1 of 50 items is items 10 to 29 (Python's negative slicing) |

## Findings

| source | as written | input that shows it | evidently intended | confidence | as-written member | corrected member |
|---|---|---|---|---|---|---|
| my-flask-backend/app.py:227 | `/by_genre` reads `df['genre_list']` without the `df.empty` check that `/genres` (line 169) and `get_recommendations` (line 119) make; when the start-up fetch brought nothing, `df` is the column-less frame of line 14, the lookup raises `KeyError` and Flask answers 500 | `genre=Action`, `page=1`, empty catalogue | the route's own 404 "No anime found for genre 'Action' in our cache." | medium, not executed | `Backend.ByGenreEmptyCatalogueFails` (on `Backend.ByGenre`) | `Backend.ByGenreGuarded` |

## Left out

- Rendering: the JSX markup, themes, modals, skeletons and the Pagination
  component's buttons, and `tailwind.config.js`. The small handlers
  `handleSearch`, `handleKeyPress`, `handleCardClick` and
  `handleCloseModal` only forward to `executeSearch` or set the detail
  modal.
- Network and storage: `fetch` and `localStorage` become parameters. The
  request is returned by the Begin steps, and its outcome is passed to
  `CompleteFetch`. Saved favourites are passed to `LoadFavorites`; a stored
  string that is not valid JSON (which would throw) is not modelled.
- The start-up loads of the genre and trending lists (App.jsx 69-85): I/O
  whose only effect is to fill two display lists.
- Concurrency: a stale response overtaking a newer one, and React's
  batching of state updates. Each handler is one atomic update.
- A success body whose `searched_anime` is null: the server always sends
  one, so the TypeError this would raise in `processApiResponse` is not
  modelled.
- Floats, dates and locales: scores, similarities and air dates are integer
  keys, and an unparsable date (NaN in the comparator) is not modelled.
  `localeCompare` is code-point order. Python's Unicode `lower()` is ASCII
  lower-casing.
- Server numerics and plumbing: TF-IDF and cosine similarity (the
  similarity of each row is a parameter), the DataFrame construction in
  `build_model_from_cache`, `fetch_top_anime` and the `/trending` endpoint.
- The live Jikan paths: the fallback of `find_anime_details` is the
  parameter `live`, and the live branch of `/by_genre` (with its 500 error)
  is the parameter reply `live`.
- The score and member coercion and sort of `/by_genre` (app.py 231-233):
  the sort is the parameter `rank`, which is required to return a
  rearrangement of its input. The coercion is not modelled: the served
  items keep their cached `score`, where the server sends 0 for a
  missing or non-numeric one. The client's score sort reads a missing
  score as 0 too, so its order is the same.
- Flask glue: routing, query parsing of `page` (`type=int`, default 1),
  `jsonify` and CORS. The body of the 500 reply to an uncaught exception
  (an error page, or a traceback in debug mode) is the constant
  `InternalServerError`.
- Backend.GetRecommendations: its contract states the bound, the exclusion
  of the searched id and that every item is cached. Which ten items they
  are (the ten best-ranked survivors, highest first) is stated by
  `TopRecommendations` and `RankingIsDescending`, not by its own contract.
- ViewController.App.SortedRecommendations: its contract states the
  permutation and the default case only. The orders of 'score', 'date' and
  'az' are stated by `SortProjector.SortedRecommendations`.
