/** Properties of sequences of handler calls on the client's `App`,
    proved from the handlers' contracts alone. */
module NavigationScenarios {
  import opened Wrappers
  import opened Catalog
  import opened ViewController

  /** A search started while results are shown, whatever its outcome
      (an empty title sends no request and so has none), leaves the
      previous view on top of the history; one "back" then
      restores its genre and page fields, and its results too unless the
      history is then empty, in which case the landing view is shown. */
  method SearchThenBack(app: App, title: string, outcome: FetchOutcome)
    requires app.Valid()
    requires app.Current().ShowsResults()
    modifies app
    ensures app.Valid()
    ensures app.history == old(app.history)
    ensures app.currentGenre == old(app.currentGenre)
    ensures app.currentPage == old(app.currentPage) && app.totalPages == old(app.totalPages)
    ensures |old(app.history)| > 0 ==>
      app.recommendations == old(app.recommendations) && app.searchedAnime == old(app.searchedAnime)
    ensures |old(app.history)| == 0 ==>
      && app.recommendations == [] && app.searchedAnime == None
      && app.showTrending && app.status == DefaultPrompt
  {
    ghost var before := app.Current();
    ghost var stack := app.history;
    var request := app.ExecuteSearch(title);
    assert app.history == stack + [before];
    if request.Some? {
      app.CompleteFetch(outcome);
    }
    assert app.history[|app.history| - 1] == before;
    app.HandleBack();
    assert app.history == stack;
  }

  /** Two successful title searches and one "back" from a fresh start.
      The first search pushes nothing, the second pushes the first
      result; "back" pops it and, the history now being empty, shows the
      landing view rather than the first search's list. */
  method TwoSearchesThenBack(first: Payload, second: Payload)
    returns (historyAfterSearches: nat, shown: seq<Anime>, searched: Option<Anime>,
             trending: bool, historyAfterBack: nat)
    ensures historyAfterSearches == 1
    ensures shown == [] && searched == None && trending && historyAfterBack == 0
  {
    var app := new App();
    var r1 := app.ExecuteSearch("Naruto");
    app.CompleteFetch(Received(first));
    var r2 := app.ExecuteSearch("Bleach");
    app.CompleteFetch(Received(second));
    historyAfterSearches := |app.history|;
    app.HandleBack();
    shown, searched, trending, historyAfterBack :=
      app.recommendations, app.searchedAnime, app.showTrending, |app.history|;
  }

  /** Browsing a genre that has three pages, then paging. Page 2 is
      fetched and the first page is pushed onto the history; page 4 is
      out of range and changes nothing. */
  method GenrePaging(firstPage: Payload, secondPage: Payload)
    returns (historyBeforePaging: nat, historyAfterPaging: nat,
             outOfRange: Option<Request>, pageAfter: int)
    requires firstPage.totalPages == Some(3)
    requires secondPage.totalPages == Some(3) && secondPage.currentPage == Some(2)
    ensures historyBeforePaging == 0 && historyAfterPaging == 1
    ensures outOfRange == None && pageAfter == 2
  {
    var app := new App();
    var r1 := app.ExecuteGenreSearch("Action", 1);
    app.CompleteFetch(Received(firstPage));
    historyBeforePaging := |app.history|;
    var r2 := app.HandlePageChange(2);
    app.CompleteFetch(Received(secondPage));
    historyAfterPaging := |app.history|;
    outOfRange := app.HandlePageChange(4);
    pageAfter := app.currentPage;
  }

  /** An empty title while results are shown sends no request, only sets
      the prompt, yet the view has already been pushed onto the history. */
  method EmptyTitleAfterResults(results: Payload)
    returns (request: Option<Request>, message: string, historyLength: nat)
    ensures request == None && message == EmptyTitleMessage && historyLength == 1
  {
    var app := new App();
    var r1 := app.ExecuteSearch("Naruto");
    app.CompleteFetch(Received(results));
    request := app.ExecuteSearch("");
    message, historyLength := app.status, |app.history|;
  }
}
