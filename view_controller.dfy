/** The view-state and history controller of the client's `App`
    component (frontend-anime/src/App.jsx, lines 38-200).

    Each React state variable is a field of `App`, and each handler is a
    method that updates those fields. An asynchronous fetch is split in
    two steps: a Begin step (the code that runs before the first
    `await`), which returns the request it would send, and
    `CompleteFetch`, which takes the outcome of that request. Network
    and storage calls are therefore not modelled, only their effect on
    the state. */
module ViewController {
  import opened Wrappers
  import opened Catalog
  import Favorites
  import SortProjector

  const DefaultPrompt: string := "Enter an anime title, select a genre, or browse trending shows!"
  const EmptyTitleMessage: string := "Please enter an anime title."
  const SearchingMessage: string := "Searching..."
  const WelcomeBackMessage: string := "Welcome back!"
  const FallbackErrorMessage: string := "An error occurred"

  function GenreSearchingMessage(genre: string): string {
    "Searching for " + genre + " anime..."
  }

  function ResultsMessage(title: string): string {
    "Showing results for \"" + title + "\":"
  }

  function PreviousResultsMessage(title: string): string {
    "Showing previous results for \"" + title + "\":"
  }

  function ErrorMessage(message: string): string {
    "Error: " + message + ". Please make sure the backend server is running."
  }

  /** One entry of the history stack: the part of the view that "back"
      restores. */
  datatype Snapshot = Snapshot(
    recommendations: seq<Anime>,
    searchedAnime: Option<Anime>,
    currentGenre: Option<string>,
    currentPage: int,
    totalPages: int)
  {
    /** `recommendations.length > 0 || searchedAnime`: something is on
        screen. */
    predicate ShowsResults(): (b: bool)
      ensures !b <==> recommendations == [] && searchedAnime == None
    {
      |recommendations| > 0 || searchedAnime.Some?
    }
  }

  /** The request a Begin step sends. */
  datatype Request =
    | RecommendRequest(title: string)
    | ByGenreRequest(genre: string, page: int)

  /** How a request ends: a parsed success body, a non-2xx response whose
      body may carry an `error` string, or a thrown error (a transport
      failure, or a body that is not JSON) with its message. */
  datatype FetchOutcome =
    | Received(data: Payload)
    | Rejected(errorField: Option<string>)
    | Thrown(message: string)

  /** The message of the error that the `catch` block receives:
      `(await response.json()).error || 'An error occurred'` for a
      rejected response. */
  function FailureMessage(outcome: FetchOutcome): (m: string)
    requires !outcome.Received?
    ensures outcome.Rejected? && outcome.errorField.Some? && outcome.errorField.value != ""
            ==> m == outcome.errorField.value
    ensures outcome.Rejected? && (outcome.errorField.None? || outcome.errorField.value == "")
            ==> m == FallbackErrorMessage
    ensures outcome.Thrown? ==> m == outcome.message
  {
    match outcome
    case Rejected(field) => if field.Some? && field.value != "" then field.value else FallbackErrorMessage
    case Thrown(message) => message
  }

  /** JavaScript's `x || 1` on an optional number: a missing or zero
      value becomes 1, any other value is kept. */
  function OrOne(x: Option<int>): (r: int)
    ensures r != 0
    ensures x.Some? && x.value != 0 ==> r == x.value
    ensures x.None? || x.value == 0 ==> r == 1
  {
    if x.Some? && x.value != 0 then x.value else 1
  }

  /** A JavaScript truthiness test on an optional string: `null` and the
      empty string are false. */
  predicate Truthy(s: Option<string>) {
    s.Some? && s.value != ""
  }

  class App {
    var searchTerm: string
    var searchedAnime: Option<Anime>
    var recommendations: seq<Anime>
    var history: seq<Snapshot>
    var status: string
    var isLoading: bool
    var sortOption: string
    var favorites: seq<Anime>
    /** The favourites as the storage effect last wrote them. */
    ghost var persisted: seq<Anime>
    var showTrending: bool
    var currentPage: int
    var totalPages: int
    var currentGenre: Option<string>

    /** Every stored snapshot showed something, so "back" never returns
        to an empty or loading view; and the stored favourites are the
        current ones. */
    ghost predicate Valid()
      reads this
    {
      && (forall i :: 0 <= i < |history| ==> history[i].ShowsResults())
      && persisted == favorites
    }

    /** The part of the view a snapshot records. */
    function Current(): Snapshot
      reads this
    {
      Snapshot(recommendations, searchedAnime, currentGenre, currentPage, totalPages)
    }

    /** The initial values of the `useState` calls. */
    constructor ()
      ensures Valid()
      ensures searchTerm == "" && searchedAnime == None && recommendations == []
      ensures history == [] && status == DefaultPrompt && !isLoading
      ensures sortOption == "default" && favorites == [] && showTrending
      ensures currentPage == 1 && totalPages == 1 && currentGenre == None
    {
      searchTerm := "";
      searchedAnime := None;
      recommendations := [];
      history := [];
      status := DefaultPrompt;
      isLoading := false;
      sortOption := "default";
      favorites := [];
      persisted := [];
      showTrending := true;
      currentPage := 1;
      totalPages := 1;
      currentGenre := None;
    }

    /** The start-up effect: favourites saved earlier replace the empty
        list when storage holds any; the storage effect then writes them
        back. */
    method LoadFavorites(saved: Option<seq<Anime>>)
      requires Valid()
      modifies this`favorites, this`persisted
      ensures Valid()
      ensures favorites == if saved.Some? then saved.value else old(favorites)
    {
      if saved.Some? {
        favorites := saved.value;
        persisted := favorites;
      }
    }

    /** The sort selector. Nothing else resets the option. */
    method SetSortOption(option: string)
      modifies this`sortOption
      ensures sortOption == option
    {
      sortOption := option;
    }

    /** The displayed list: `sortedRecommendations`. */
    function SortedRecommendations(): (r: seq<Anime>)
      reads this
      ensures multiset(r) == multiset(recommendations)
      ensures sortOption != "score" && sortOption != "az" && sortOption != "date" ==> r == recommendations
    {
      SortProjector.SortedRecommendations(recommendations, sortOption)
    }

    /** The conditional `setHistory(prev => [...prev, {...}])` that both
        search handlers run first. */
    method RememberCurrentView()
      requires Valid()
      modifies this`history
      ensures Valid()
      ensures history == if old(Current()).ShowsResults() then old(history) + [old(Current())] else old(history)
    {
      if |recommendations| > 0 || searchedAnime.Some? {
        history := history + [Current()];
      }
    }

    /** `fetchRecommendations` up to its `await`. An empty title only sets
        a message; any other title, even one of spaces, starts a search. */
    method BeginTitleFetch(title: string) returns (request: Option<Request>)
      requires Valid()
      modifies this`isLoading, this`recommendations, this`searchedAnime, this`currentGenre
      modifies this`showTrending, this`status
      ensures Valid()
      ensures request == if title == "" then None else Some(RecommendRequest(title))
      ensures title == "" ==>
        && status == EmptyTitleMessage && isLoading == old(isLoading)
        && recommendations == old(recommendations) && searchedAnime == old(searchedAnime)
        && currentGenre == old(currentGenre) && showTrending == old(showTrending)
      ensures title != "" ==>
        && isLoading && recommendations == [] && searchedAnime == None
        && currentGenre == None && !showTrending && status == SearchingMessage
    {
      if title == "" {
        status := EmptyTitleMessage;
        return None;
      }
      isLoading := true;
      recommendations := [];
      searchedAnime := None;
      currentGenre := None;
      showTrending := false;
      status := SearchingMessage;
      request := Some(RecommendRequest(title));
    }

    /** `fetchByGenre` up to its `await`. An empty genre does nothing. */
    method BeginGenreFetch(genre: string, page: int) returns (request: Option<Request>)
      requires Valid()
      modifies this`isLoading, this`recommendations, this`searchedAnime, this`showTrending, this`status
      ensures Valid()
      ensures request == if genre == "" then None else Some(ByGenreRequest(genre, page))
      ensures genre == "" ==>
        && status == old(status) && isLoading == old(isLoading)
        && recommendations == old(recommendations) && searchedAnime == old(searchedAnime)
        && showTrending == old(showTrending)
      ensures genre != "" ==>
        && isLoading && recommendations == [] && searchedAnime == None
        && !showTrending && status == GenreSearchingMessage(genre)
    {
      if genre == "" {
        return None;
      }
      isLoading := true;
      recommendations := [];
      searchedAnime := None;
      showTrending := false;
      status := GenreSearchingMessage(genre);
      request := Some(ByGenreRequest(genre, page));
    }

    /** `processApiResponse`: the searched item and its list replace the
        view together; missing page fields become 1. */
    method ProcessApiResponse(data: Payload)
      requires Valid()
      modifies this`searchedAnime, this`recommendations, this`status, this`currentPage, this`totalPages
      ensures Valid()
      ensures searchedAnime == Some(data.searchedAnime) && recommendations == data.recommendations
      ensures status == ResultsMessage(data.searchedAnime.englishTitle)
      ensures currentPage == OrOne(data.currentPage) && totalPages == OrOne(data.totalPages)
    {
      searchedAnime := Some(data.searchedAnime);
      recommendations := data.recommendations;
      status := ResultsMessage(data.searchedAnime.englishTitle);
      currentPage := OrOne(data.currentPage);
      totalPages := OrOne(data.totalPages);
    }

    /** `handleError`: the view is emptied and the message shown. */
    method HandleError(message: string)
      requires Valid()
      modifies this`status, this`searchedAnime, this`recommendations
      ensures Valid()
      ensures status == ErrorMessage(message) && searchedAnime == None && recommendations == []
    {
      status := ErrorMessage(message);
      searchedAnime := None;
      recommendations := [];
    }

    /** The rest of either fetch: the `try`, `catch` and `finally` after
        the `await`. The genre, the history and, on failure, the page
        fields are left as they were. */
    method CompleteFetch(outcome: FetchOutcome)
      requires Valid()
      modifies this`searchedAnime, this`recommendations, this`status, this`currentPage
      modifies this`totalPages, this`isLoading
      ensures Valid()
      ensures !isLoading
      ensures outcome.Received? ==>
        && searchedAnime == Some(outcome.data.searchedAnime)
        && recommendations == outcome.data.recommendations
        && status == ResultsMessage(outcome.data.searchedAnime.englishTitle)
        && currentPage == OrOne(outcome.data.currentPage)
        && totalPages == OrOne(outcome.data.totalPages)
      ensures !outcome.Received? ==>
        && searchedAnime == None && recommendations == []
        && status == ErrorMessage(FailureMessage(outcome))
        && currentPage == old(currentPage) && totalPages == old(totalPages)
    {
      if outcome.Received? {
        ProcessApiResponse(outcome.data);
      } else {
        HandleError(FailureMessage(outcome));
      }
      isLoading := false;
    }

    /** `executeSearch`: remember the view if it shows something, then
        begin the title search. The snapshot is taken even when the
        title is empty and no request is sent. */
    method ExecuteSearch(title: string) returns (request: Option<Request>)
      requires Valid()
      modifies this`history, this`searchTerm, this`isLoading, this`recommendations
      modifies this`searchedAnime, this`currentGenre, this`showTrending, this`status
      ensures Valid()
      ensures history == if old(Current()).ShowsResults() then old(history) + [old(Current())] else old(history)
      ensures searchTerm == title
      ensures request == if title == "" then None else Some(RecommendRequest(title))
      ensures title == "" ==>
        && status == EmptyTitleMessage && isLoading == old(isLoading)
        && recommendations == old(recommendations) && searchedAnime == old(searchedAnime)
        && currentGenre == old(currentGenre) && showTrending == old(showTrending)
      ensures title != "" ==>
        && isLoading && recommendations == [] && searchedAnime == None
        && currentGenre == None && !showTrending && status == SearchingMessage
    {
      RememberCurrentView();
      searchTerm := title;
      request := BeginTitleFetch(title);
    }

    /** `executeGenreSearch`: remember the view if it shows something,
        record the genre, then begin the genre request. */
    method ExecuteGenreSearch(genre: string, page: int) returns (request: Option<Request>)
      requires Valid()
      modifies this`history, this`searchTerm, this`currentGenre, this`isLoading
      modifies this`recommendations, this`searchedAnime, this`showTrending, this`status
      ensures Valid()
      ensures history == if old(Current()).ShowsResults() then old(history) + [old(Current())] else old(history)
      ensures searchTerm == "" && currentGenre == Some(genre)
      ensures request == if genre == "" then None else Some(ByGenreRequest(genre, page))
      ensures genre == "" ==>
        && status == old(status) && isLoading == old(isLoading)
        && recommendations == old(recommendations) && searchedAnime == old(searchedAnime)
        && showTrending == old(showTrending)
      ensures genre != "" ==>
        && isLoading && recommendations == [] && searchedAnime == None
        && !showTrending && status == GenreSearchingMessage(genre)
    {
      RememberCurrentView();
      searchTerm := "";
      currentGenre := Some(genre);
      request := BeginGenreFetch(genre, page);
    }

    /** `toggleFavorite`, followed by the effect that stores the list. */
    method ToggleFavorite(anime: Anime)
      requires Valid()
      modifies this`favorites, this`persisted
      ensures Valid()
      ensures favorites == Favorites.Toggled(old(favorites), anime)
      ensures Favorites.HasId(favorites, anime.malId) <==> !Favorites.HasId(old(favorites), anime.malId)
    {
      Favorites.ToggleFlips(favorites, anime);
      favorites := Favorites.Toggled(favorites, anime);
      persisted := favorites;
    }

    /** `handleBack`: nothing happens on an empty history. Otherwise the
        last snapshot is popped and its genre and page fields restored.
        If that empties the history the landing view is shown instead of
        the snapshot's results; if not, the results come back. */
    method HandleBack()
      requires Valid()
      modifies this`recommendations, this`searchedAnime, this`currentGenre, this`currentPage
      modifies this`totalPages, this`history, this`showTrending, this`status
      ensures Valid()
      ensures |old(history)| == 0 ==>
        && history == old(history) && Current() == old(Current())
        && showTrending == old(showTrending) && status == old(status)
      ensures |old(history)| > 0 ==>
        var last := old(history)[|old(history)| - 1];
        && history == old(history)[..|old(history)| - 1]
        && currentGenre == last.currentGenre
        && currentPage == last.currentPage
        && totalPages == last.totalPages
        && (|history| == 0 ==>
              && recommendations == [] && searchedAnime == None
              && showTrending && status == DefaultPrompt)
        && (|history| > 0 ==>
              && recommendations == last.recommendations
              && searchedAnime == last.searchedAnime
              && showTrending == old(showTrending)
              && status == (if last.searchedAnime.Some?
                            then PreviousResultsMessage(last.searchedAnime.value.englishTitle)
                            else WelcomeBackMessage))
    {
      if |history| == 0 {
        return;
      }
      var newHistory := history[..|history| - 1];
      var last := history[|history| - 1];
      recommendations := last.recommendations;
      searchedAnime := last.searchedAnime;
      currentGenre := last.currentGenre;
      currentPage := last.currentPage;
      totalPages := last.totalPages;
      history := newHistory;
      if |newHistory| == 0 {
        showTrending := true;
        status := DefaultPrompt;
        recommendations := [];
        searchedAnime := None;
      } else {
        status := if last.searchedAnime.Some?
                  then PreviousResultsMessage(last.searchedAnime.value.englishTitle)
                  else WelcomeBackMessage;
      }
    }

    /** `handlePageChange`: a page inside `1..totalPages` of the current
        genre runs `executeGenreSearch` for it, snapshot included; any
        other page, or no genre, changes nothing. */
    method HandlePageChange(newPage: int) returns (request: Option<Request>)
      requires Valid()
      modifies this`history, this`searchTerm, this`currentGenre, this`isLoading
      modifies this`recommendations, this`searchedAnime, this`showTrending, this`status
      ensures Valid()
      ensures !(0 < newPage <= old(totalPages) && Truthy(old(currentGenre))) ==>
        && request == None && history == old(history) && Current() == old(Current())
        && searchTerm == old(searchTerm) && isLoading == old(isLoading)
        && showTrending == old(showTrending) && status == old(status)
      ensures 0 < newPage <= old(totalPages) && Truthy(old(currentGenre)) ==>
        var genre := old(currentGenre).value;
        && request == Some(ByGenreRequest(genre, newPage))
        && history == (if old(Current()).ShowsResults() then old(history) + [old(Current())] else old(history))
        && searchTerm == "" && currentGenre == old(currentGenre)
        && isLoading && recommendations == [] && searchedAnime == None
        && !showTrending && status == GenreSearchingMessage(genre)
        && currentPage == old(currentPage) && totalPages == old(totalPages)
    {
      request := None;
      if newPage > 0 && newPage <= totalPages && Truthy(currentGenre) {
        request := ExecuteGenreSearch(currentGenre.value, newPage);
      }
    }
  }
}
