/** The request-handling helpers of the Flask server
    (my-flask-backend/app.py). The cached catalogue `df` is a list of
    rows; the similarity scores, the live Jikan API and the score sort
    of `/by_genre` are parameters. */
module Backend {
  import opened Wrappers
  import opened Catalog
  import opened Strings
  import opened Sorting
  import Pagination

  /** One entry of an anime's `titles` list: `{'type': ..., 'title': ...}`. */
  datatype TitleEntry = TitleEntry(kind: string, title: string)

  /** One cached row: `name` is the original title; `item` holds the
      fields the endpoints send back. */
  datatype CacheRow = CacheRow(name: string, item: Anime)

  /** A cached row with its similarity to the searched anime (a float in
      the server, an ordered key here). */
  datatype Ranked = Ranked(row: CacheRow, similarity: int)

  /** An endpoint's answer: a JSON body with status 200, or an error
      message with its HTTP status. */
  datatype Reply = Ok(body: Payload) | Error(code: int, message: string)

  // ---------------------------------------------------------------- titles

  /** `get_english_title`: the title of the first entry of type
      'English', or `None` when there is none. */
  method GetEnglishTitle(titles: seq<TitleEntry>) returns (english: Option<string>)
    ensures english.None? <==> forall i :: 0 <= i < |titles| ==> titles[i].kind != "English"
    ensures english.Some? ==>
      exists i :: 0 <= i < |titles| && titles[i].kind == "English" && titles[i].title == english.value
                  && forall j :: 0 <= j < i ==> titles[j].kind != "English"
  {
    for i := 0 to |titles|
      invariant forall j :: 0 <= j < i ==> titles[j].kind != "English"
    {
      if titles[i].kind == "English" {
        return Some(titles[i].title);
      }
    }
    return None;
  }

  // ---------------------------------------------------------------- lookup

  /** A row answers to `title` when its name or its English title equals
      it, ignoring case. */
  predicate TitleMatches(row: CacheRow, title: string) {
    Lower(row.name) == Lower(title) || Lower(row.item.englishTitle) == Lower(title)
  }

  /** The position of the first row that answers to `title`. */
  function FirstMatch(cache: seq<CacheRow>, title: string): (i: Option<nat>)
    ensures i.Some? ==>
      && i.value < |cache| && TitleMatches(cache[i.value], title)
      && forall j :: 0 <= j < i.value ==> !TitleMatches(cache[j], title)
    ensures i.None? ==> forall j :: 0 <= j < |cache| ==> !TitleMatches(cache[j], title)
  {
    if cache == [] then None
    else if TitleMatches(cache[0], title) then Some(0)
    else
      match FirstMatch(cache[1..], title)
      case None => None
      case Some(k) => Some(k + 1)
  }

  /** `find_anime_details`: nothing for an empty title; otherwise the
      first cached row that answers to the title, and failing that the
      live API's answer `live`. */
  function FindAnimeDetails(cache: seq<CacheRow>, title: string, live: Option<Anime>): (r: Option<Anime>)
    ensures title == "" ==> r == None
    ensures title != "" && (exists i :: 0 <= i < |cache| && TitleMatches(cache[i], title)) ==>
      exists i :: 0 <= i < |cache| && TitleMatches(cache[i], title) && r == Some(cache[i].item)
                  && forall j :: 0 <= j < i ==> !TitleMatches(cache[j], title)
    ensures title != "" && (forall i :: 0 <= i < |cache| ==> !TitleMatches(cache[i], title)) ==>
      r == live
  {
    if title == "" then None
    else
      match FirstMatch(cache, title)
      case Some(i) => Some(cache[i].item)
      case None => live
  }

  // ------------------------------------------------------- recommendations

  /** The ranking order: higher similarity first. */
  function HigherSimilarity(): (Ranked, Ranked) -> bool {
    (a: Ranked, b: Ranked) => a.similarity >= b.similarity
  }

  lemma HigherSimilarityIsPreorder()
    ensures TotalPreorder(HigherSimilarity())
  {
  }

  /** Highest similarity first. */
  predicate Descending(ranked: seq<Ranked>) {
    forall i, j :: 0 <= i < j < |ranked| ==> ranked[i].similarity >= ranked[j].similarity
  }

  /** The ranked rows whose id is not the searched one, in ranked order. */
  function WithoutSearched(ranked: seq<Ranked>, id: Option<int>): (r: seq<Ranked>)
    ensures |r| <= |ranked|
    ensures forall k :: 0 <= k < |r| ==> r[k].row.item.malId != id
  {
    if ranked == [] then []
    else
      var last := ranked[|ranked| - 1];
      WithoutSearched(ranked[..|ranked| - 1], id) + (if last.row.item.malId != id then [last] else [])
  }

  lemma {:induction false} WithoutSearchedMembers(ranked: seq<Ranked>, id: Option<int>, x: Ranked)
    ensures x in WithoutSearched(ranked, id) <==> x in ranked && x.row.item.malId != id
  {
    if ranked != [] {
      var init := ranked[..|ranked| - 1];
      WithoutSearchedMembers(init, id, x);
      assert ranked == init + [ranked[|ranked| - 1]];
    }
  }

  /** Dropping rows keeps a descending ranking descending. */
  lemma {:induction false} WithoutSearchedDescending(ranked: seq<Ranked>, id: Option<int>)
    requires Descending(ranked)
    ensures Descending(WithoutSearched(ranked, id))
  {
    if ranked != [] {
      var init, last := ranked[..|ranked| - 1], ranked[|ranked| - 1];
      var rest := WithoutSearched(init, id);
      assert Descending(init);
      WithoutSearchedDescending(init, id);
      if last.row.item.malId != id {
        var r := rest + [last];
        forall i, j | 0 <= i < j < |r|
          ensures r[i].similarity >= r[j].similarity
        {
          if j == |rest| {
            WithoutSearchedMembers(init, id, r[i]);
            assert r[i] in init;
            var k :| 0 <= k < |init| && init[k] == r[i];
            assert ranked[k] == r[i];
          } else {
            assert r[i] == rest[i] && r[j] == rest[j];
          }
        }
      }
    }
  }

  /** The loop that builds `filtered_scores`, then `filtered_scores[:10]`:
      at most ten ranked rows, none with the searched id, in ranked
      order. */
  method TopRecommendations(ranked: seq<Ranked>, searchedId: Option<int>) returns (top: seq<Ranked>)
    ensures |top| <= 10
    ensures forall k :: 0 <= k < |top| ==> top[k].row.item.malId != searchedId && top[k] in ranked
    ensures Descending(ranked) ==> Descending(top)
    ensures top == if |WithoutSearched(ranked, searchedId)| <= 10 then WithoutSearched(ranked, searchedId)
                   else WithoutSearched(ranked, searchedId)[..10]
  {
    var filtered: seq<Ranked> := [];
    for i := 0 to |ranked|
      invariant filtered == WithoutSearched(ranked[..i], searchedId)
    {
      assert ranked[..i + 1][..i] == ranked[..i];
      if ranked[i].row.item.malId != searchedId {
        filtered := filtered + [ranked[i]];
      }
    }
    assert ranked[..|ranked|] == ranked;
    top := if |filtered| <= 10 then filtered else filtered[..10];
    forall k | 0 <= k < |top|
      ensures top[k].row.item.malId != searchedId && top[k] in ranked
    {
      assert top[k] in filtered;
      WithoutSearchedMembers(ranked, searchedId, top[k]);
    }
    if Descending(ranked) {
      WithoutSearchedDescending(ranked, searchedId);
    }
  }

  /** Every cached row with its similarity score, in cache order:
      `list(enumerate(sim_scores))`. */
  function Scored(cache: seq<CacheRow>, similarity: seq<int>): (r: seq<Ranked>)
    requires |similarity| == |cache|
    ensures |r| == |cache|
    ensures forall i :: 0 <= i < |r| ==> r[i].row == cache[i] && r[i].similarity == similarity[i]
  {
    seq(|cache|, i requires 0 <= i < |cache| => Ranked(cache[i], similarity[i]))
  }

  /** The served fields of some rows. */
  function Items(rows: seq<CacheRow>): (r: seq<Anime>)
    ensures |r| == |rows|
    ensures forall i :: 0 <= i < |rows| ==> r[i] == rows[i].item
  {
    seq(|rows|, i requires 0 <= i < |rows| => rows[i].item)
  }

  /** `get_recommendations`. `similarity[i]` is the similarity of row `i`
      to the searched anime (the TF-IDF step is not modelled). Rows are
      ranked by it with a stable sort, as `sorted(..., reverse=True)`
      does; the searched anime itself is dropped and the first ten kept.
      An empty cache or an unknown title gives `None`. */
  method GetRecommendations(cache: seq<CacheRow>, title: string, live: Option<Anime>, similarity: seq<int>)
    returns (result: Option<(Anime, seq<Anime>)>)
    requires |similarity| == |cache|
    ensures |cache| == 0 ==> result == None
    ensures |cache| > 0 ==> (result.None? <==> FindAnimeDetails(cache, title, live).None?)
    ensures result.Some? ==>
      var (searched, recommendations) := result.value;
      && Some(searched) == FindAnimeDetails(cache, title, live)
      && |recommendations| <= 10
      && forall k :: 0 <= k < |recommendations| ==>
           recommendations[k].malId != searched.malId
           && exists i :: 0 <= i < |cache| && cache[i].item == recommendations[k]
  {
    if |cache| == 0 {
      return None;
    }
    var details := FindAnimeDetails(cache, title, live);
    if details.None? {
      return None;
    }
    var scored := Scored(cache, similarity);
    var ranked := Sort(scored, HigherSimilarity());
    var top := TopRecommendations(ranked, details.value.malId);
    var recommendations := seq(|top|, k requires 0 <= k < |top| => top[k].row.item);
    forall k | 0 <= k < |recommendations|
      ensures exists i :: 0 <= i < |cache| && cache[i].item == recommendations[k]
    {
      assert top[k] in multiset(scored);
      var i :| 0 <= i < |scored| && scored[i] == top[k];
      assert cache[i].item == recommendations[k];
    }
    result := Some((details.value, recommendations));
  }

  /** The ranking `GetRecommendations` filters is descending, so its ten
      recommendations come highest similarity first. */
  lemma RankingIsDescending(cache: seq<CacheRow>, similarity: seq<int>)
    requires |similarity| == |cache|
    ensures Descending(Sort(Scored(cache, similarity), HigherSimilarity()))
  {
    HigherSimilarityIsPreorder();
    SortSorted(Scored(cache, similarity), HigherSimilarity());
  }

  /** `/recommend`: 400 without a title, 404 when nothing is found, and
      otherwise the searched anime with its recommendations. */
  method Recommend(title: Option<string>, cache: seq<CacheRow>, live: Option<Anime>, similarity: seq<int>)
    returns (reply: Reply)
    requires |similarity| == |cache|
    ensures title.None? || title.value == "" ==> reply == Error(400, "Please provide an anime title.")
    ensures title.Some? && title.value != "" ==>
      (reply.Error? <==> |cache| == 0 || FindAnimeDetails(cache, title.value, live).None?)
    ensures reply.Error? && title.Some? && title.value != "" ==>
      reply == Error(404, "Anime title '" + title.value + "' not found.")
    ensures reply.Ok? ==>
      && title.Some?
      && Some(reply.body.searchedAnime) == FindAnimeDetails(cache, title.value, live)
      && |reply.body.recommendations| <= 10
      && reply.body.currentPage == None && reply.body.totalPages == None
      && forall k :: 0 <= k < |reply.body.recommendations| ==>
           reply.body.recommendations[k].malId != reply.body.searchedAnime.malId
  {
    if title.None? || title.value == "" {
      return Error(400, "Please provide an anime title.");
    }
    var result := GetRecommendations(cache, title.value, live, similarity);
    if result.None? {
      return Error(404, "Anime title '" + title.value + "' not found.");
    }
    var (searched, recommendations) := result.value;
    reply := Ok(Payload(searched, recommendations, None, None));
  }

  // ---------------------------------------------------------------- genres

  /** Every genre named by some cached row. */
  ghost function CachedGenres(cache: seq<CacheRow>): set<string> {
    set i, g | 0 <= i < |cache| && g in cache[i].item.genres :: g
  }

  /** The genres of all rows, row after row (the flattening list
      comprehension). */
  function AllGenres(cache: seq<CacheRow>): (r: seq<string>)
    ensures forall g :: g in r <==> g in CachedGenres(cache)
  {
    if cache == [] then []
    else
      var rest := AllGenres(cache[1..]);
      assert forall g :: g in CachedGenres(cache) <==> g in cache[0].item.genres || g in CachedGenres(cache[1..]) by {
        forall g
          ensures g in CachedGenres(cache) <==> g in cache[0].item.genres || g in CachedGenres(cache[1..])
        {
          if g in CachedGenres(cache) {
            var i :| 0 <= i < |cache| && g in cache[i].item.genres;
            if i > 0 {
              assert cache[1..][i - 1] == cache[i];
            }
          }
          if g in CachedGenres(cache[1..]) {
            var i :| 0 <= i < |cache[1..]| && g in cache[1..][i].item.genres;
            assert cache[i + 1] == cache[1..][i];
          }
        }
      }
      cache[0].item.genres + rest
  }

  /** `list(set(...))`: each element once, in an order the model leaves
      open, as Python's set order is. */
  method ListOfSet(s: set<string>) returns (l: seq<string>)
    ensures NoDuplicates(l)
    ensures forall x :: x in l <==> x in s
  {
    l := [];
    var rest := s;
    while rest != {}
      invariant rest <= s
      invariant forall x :: x in l <==> x in s && x !in rest
      invariant NoDuplicates(l)
      decreases |rest|
    {
      var x :| x in rest;
      l := l + [x];
      rest := rest - {x};
    }
  }

  /** The genres served live; `/genres` always lists them. */
  const SpecialGenres: seq<string> := ["Hentai", "Adventure"]

  function GenreOrder(): (string, string) -> bool {
    (a: string, b: string) => LexLe(a, b)
  }

  lemma GenreOrderIsPreorder()
    ensures TotalPreorder(GenreOrder())
  {
    forall a: string, b: string
      ensures GenreOrder()(a, b) || GenreOrder()(b, a)
    {
      LexLeTotal(a, b);
    }
    forall a: string, b: string, c: string | GenreOrder()(a, b) && GenreOrder()(b, c)
      ensures GenreOrder()(a, c)
    {
      LexLeTransitive(a, b, c);
    }
  }

  /** `/genres`: nothing when the cache is empty; otherwise every cached
      genre and the two special genres, each once, in ascending order. */
  method GetAllGenres(cache: seq<CacheRow>) returns (genres: seq<string>)
    ensures |cache| == 0 ==> genres == []
    ensures |cache| > 0 ==>
      forall g :: g in genres <==> g in CachedGenres(cache) || g == "Hentai" || g == "Adventure"
    ensures forall i, j :: 0 <= i < j < |genres| ==> LexLt(genres[i], genres[j])
  {
    if |cache| == 0 {
      return [];
    }
    var all := AllGenres(cache);
    var unique := ListOfSet(set g | g in all);
    for k := 0 to |SpecialGenres|
      invariant NoDuplicates(unique)
      invariant forall g :: g in unique <==> g in CachedGenres(cache) || g in SpecialGenres[..k]
    {
      if SpecialGenres[k] !in unique {
        unique := unique + [SpecialGenres[k]];
      }
      assert SpecialGenres[..k + 1] == SpecialGenres[..k] + [SpecialGenres[k]];
    }
    assert SpecialGenres[..|SpecialGenres|] == ["Hentai", "Adventure"];
    genres := Sort(unique, GenreOrder());
    GenreOrderIsPreorder();
    SortSorted(unique, GenreOrder());
    PermutationKeepsNoDuplicates(unique, genres);
    forall g
      ensures g in genres <==> g in unique
    {
      assert g in genres <==> g in multiset(genres);
      assert g in unique <==> g in multiset(unique);
    }
  }

  /** Two strictly ascending genre lists with the same genres are the
      same list: the reply of `/genres` depends only on the set of genres,
      not on the order `list(set(...))` happens to produce. */
  lemma {:induction false} AscendingGenresDetermined(a: seq<string>, b: seq<string>)
    requires forall i, j :: 0 <= i < j < |a| ==> LexLt(a[i], a[j])
    requires forall i, j :: 0 <= i < j < |b| ==> LexLt(b[i], b[j])
    requires forall g :: g in a <==> g in b
    ensures a == b
  {
    assert a != [] ==> a[0] in b;
    assert b != [] ==> b[0] in a;
    if a != [] && b != [] {
      assert a[0] in b && b[0] in a;
      var i :| 0 <= i < |b| && b[i] == a[0];
      var j :| 0 <= j < |a| && a[j] == b[0];
      assert a[0] == b[0] by {
        if a[0] != b[0] {
          assert LexLt(b[0], b[i]) && LexLt(a[0], a[j]);
          LexLeAntisymmetric(a[0], b[0]);
        }
      }
      forall g
        ensures g in a[1..] <==> g in b[1..]
      {
        if g in a[1..] {
          var k :| 0 <= k < |a[1..]| && a[1..][k] == g;
          assert LexLt(a[0], a[k + 1]);
        }
        if g in b[1..] {
          var k :| 0 <= k < |b[1..]| && b[1..][k] == g;
          assert LexLt(b[0], b[k + 1]);
        }
        assert g in a <==> g == a[0] || g in a[1..] by { assert a == [a[0]] + a[1..]; }
        assert g in b <==> g == b[0] || g in b[1..] by { assert b == [b[0]] + b[1..]; }
      }
      AscendingGenresDetermined(a[1..], b[1..]);
      assert a == [a[0]] + a[1..] && b == [b[0]] + b[1..];
    }
  }

  // -------------------------------------------------------------- by genre

  /** `LIVE_FETCH_GENRES`: genres always fetched from the live API. */
  const LiveFetchGenres: set<string> := {"Hentai", "Adventure"}

  /** The cached rows listing `genre`, in cache order: every row of the
      cache that lists the genre, and only such rows. */
  function GenreRows(cache: seq<CacheRow>, genre: string): (r: seq<CacheRow>)
    ensures forall k :: 0 <= k < |r| ==> genre in r[k].item.genres && r[k] in cache
    ensures forall i :: 0 <= i < |cache| && genre in cache[i].item.genres ==> cache[i] in r
    ensures |r| == 0 <==> forall i :: 0 <= i < |cache| ==> genre !in cache[i].item.genres
  {
    if cache == [] then []
    else
      var rest := GenreRows(cache[1..], genre);
      assert forall i :: 1 <= i < |cache| ==> cache[i] == cache[1..][i - 1];
      assert forall k :: 0 <= k < |rest| ==> rest[k] in cache by {
        forall k | 0 <= k < |rest| ensures rest[k] in cache {
          assert rest[k] in cache[1..];
        }
      }
      if genre in cache[0].item.genres then [cache[0]] + rest else rest
  }

  /** Each row is kept as often as it occurs in the cache if it lists
      the genre, and dropped otherwise. */
  lemma {:induction false} GenreRowsCount(cache: seq<CacheRow>, genre: string, x: CacheRow)
    ensures multiset(GenreRows(cache, genre))[x]
         == if genre in x.item.genres then multiset(cache)[x] else 0
  {
    if cache != [] {
      GenreRowsCount(cache[1..], genre, x);
      assert cache == [cache[0]] + cache[1..];
    }
  }

  /** Filtering a catalogue in two parts is filtering each part: the
      rows keep their cache order. */
  lemma {:induction false} GenreRowsAppend(a: seq<CacheRow>, b: seq<CacheRow>, genre: string)
    ensures GenreRows(a + b, genre) == GenreRows(a, genre) + GenreRows(b, genre)
  {
    if a == [] {
      assert a + b == b;
    } else {
      var ab := a + b;
      assert ab[0] == a[0] && ab[1..] == a[1..] + b;
      GenreRowsAppend(a[1..], b, genre);
    }
  }

  /** The synthetic header item of a genre listing: it has no id, score,
      date or genres, and the genre can be read back from its title. */
  function GenreHeader(genre: string): (h: Anime)
    ensures h.malId.None? && h.score.None? && h.airedFrom.None? && h.genres == []
    ensures |h.englishTitle| == |genre| + 10
    ensures h.englishTitle[..4] == "Top " && h.englishTitle[|genre| + 4..] == " Anime"
    ensures h.englishTitle[4..|genre| + 4] == genre
  {
    Anime(None, "Top " + genre + " Anime", None, None, [])
  }

  /** The genre listing in the order pages are cut from: the rows of
      the genre sorted by `rank` (score, then members, both descending,
      which is not modelled). */
  function GenreListing(cache: seq<CacheRow>, genre: string, rank: seq<CacheRow> -> seq<CacheRow>): seq<Anime> {
    Items(rank(GenreRows(cache, genre)))
  }

  /** The reply Flask gives when a handler raises. */
  const InternalServerError: Reply := Error(500, "Internal Server Error")

  /** The 404 reply for a cached genre without rows. */
  function GenreNotFound(genre: string): Reply {
    Error(404, "No anime found for genre '" + genre + "' in our cache.")
  }

  /** A genre that is present, non-empty and served from the cache. */
  predicate CachedGenre(genre: Option<string>) {
    genre.Some? && genre.value != "" && genre.value !in LiveFetchGenres
  }

  /** `/by_genre` as written. No genre gives 400; a live genre gives the
      live API's reply `live`; a cached genre on an empty catalogue fails
      with 500, because the empty start-up frame has no `genre_list`
      column and the lookup raises; a cached genre without rows gives
      404; otherwise the requested page of the listing, the page number as
      sent and the page count. */
  function ByGenre(genre: Option<string>, page: int, cache: seq<CacheRow>, live: Reply,
                   rank: seq<CacheRow> -> seq<CacheRow>): (reply: Reply)
    requires forall rows :: multiset(rank(rows)) == multiset(rows)
    ensures genre.None? || genre.value == "" ==> reply == Error(400, "Please provide a genre.")
    ensures genre.Some? && genre.value in LiveFetchGenres ==> reply == live
    ensures CachedGenre(genre) && |cache| == 0 ==> reply == InternalServerError
    ensures CachedGenre(genre) && |cache| > 0 ==>
      && ((forall i :: 0 <= i < |cache| ==> genre.value !in cache[i].item.genres) <==> reply.Error?)
      && (reply.Error? ==> reply == GenreNotFound(genre.value))
      && (reply.Ok? ==>
            && reply.body.searchedAnime == GenreHeader(genre.value)
            && reply.body.currentPage == Some(page)
            && reply.body.totalPages == Some(Pagination.TotalPages(|GenreRows(cache, genre.value)|))
            && reply.body.recommendations == Pagination.Page(GenreListing(cache, genre.value, rank), page)
            && forall k :: 0 <= k < |reply.body.recommendations| ==>
                 genre.value in reply.body.recommendations[k].genres)
  {
    if genre.None? || genre.value == "" then Error(400, "Please provide a genre.")
    else if genre.value in LiveFetchGenres then live
    else if |cache| == 0 then InternalServerError
    else
      var g := genre.value;
      var rows := GenreRows(cache, g);
      if |rows| == 0 then GenreNotFound(g)
      else
        var listing := GenreListing(cache, g, rank);
        ListingHasGenre(cache, g, rank);
        Ok(Payload(GenreHeader(g), Pagination.Page(listing, page), Some(page),
                   Some(Pagination.TotalPages(|rows|))))
  }

  /** A cached genre asked of a server whose start-up fetch failed gets a
      server error, not the 404 the route gives for a genre it does not
      hold. */
  lemma ByGenreEmptyCatalogueFails(live: Reply, rank: seq<CacheRow> -> seq<CacheRow>)
    requires forall rows :: multiset(rank(rows)) == multiset(rows)
    ensures ByGenre(Some("Action"), 1, [], live, rank) == InternalServerError
    ensures ByGenre(Some("Action"), 1, [], live, rank) != GenreNotFound("Action")
  {
    assert "Action" !in LiveFetchGenres;
  }

  /** `/by_genre` with the empty-catalogue check the other routes make:
      a cached genre never gives a server error, and gives 404 exactly
      when no cached row lists it, so the empty catalogue included.
      Elsewhere it agrees with the route as written. */
  function ByGenreGuarded(genre: Option<string>, page: int, cache: seq<CacheRow>, live: Reply,
                          rank: seq<CacheRow> -> seq<CacheRow>): (reply: Reply)
    requires forall rows :: multiset(rank(rows)) == multiset(rows)
    ensures !CachedGenre(genre) || |cache| > 0 ==> reply == ByGenre(genre, page, cache, live, rank)
    ensures CachedGenre(genre) ==>
      && ((forall i :: 0 <= i < |cache| ==> genre.value !in cache[i].item.genres) <==> reply.Error?)
      && (reply.Error? ==> reply == GenreNotFound(genre.value))
  {
    if CachedGenre(genre) && |cache| == 0 then GenreNotFound(genre.value)
    else ByGenre(genre, page, cache, live, rank)
  }

  lemma ListingHasGenre(cache: seq<CacheRow>, genre: string, rank: seq<CacheRow> -> seq<CacheRow>)
    requires forall rows :: multiset(rank(rows)) == multiset(rows)
    ensures |GenreListing(cache, genre, rank)| == |GenreRows(cache, genre)|
    ensures forall k :: 0 <= k < |GenreListing(cache, genre, rank)| ==>
      genre in GenreListing(cache, genre, rank)[k].genres
  {
    var rows := GenreRows(cache, genre);
    var sorted := rank(rows);
    assert |multiset(sorted)| == |multiset(rows)|;
    forall k | 0 <= k < |sorted|
      ensures genre in sorted[k].item.genres
    {
      assert sorted[k] in multiset(rows);
    }
  }

  /** Every page of a cached genre from 1 on has at most 20 items and
      is non-empty exactly up to the page count. */
  lemma ByGenrePageSize(genre: string, page: int, cache: seq<CacheRow>, live: Reply,
                        rank: seq<CacheRow> -> seq<CacheRow>)
    requires forall rows :: multiset(rank(rows)) == multiset(rows)
    requires genre != "" && genre !in LiveFetchGenres
    requires |GenreRows(cache, genre)| > 0
    requires page >= 1
    ensures ByGenreGuarded(Some(genre), page, cache, live, rank).Ok?
    ensures |ByGenreGuarded(Some(genre), page, cache, live, rank).body.recommendations| <= Pagination.PerPage
    ensures |ByGenreGuarded(Some(genre), page, cache, live, rank).body.recommendations| > 0
            <==> page <= Pagination.TotalPages(|GenreRows(cache, genre)|)
  {
    ListingHasGenre(cache, genre, rank);
  }

  /** Pages 1 to the page count of a genre, in order, make up its whole
      sorted listing. */
  lemma ByGenrePagesCoverListing(cache: seq<CacheRow>, genre: string, rank: seq<CacheRow> -> seq<CacheRow>)
    requires forall rows :: multiset(rank(rows)) == multiset(rows)
    ensures
      var listing := GenreListing(cache, genre, rank);
      Pagination.FirstPages(listing, Pagination.TotalPages(|GenreRows(cache, genre)|)) == listing
  {
    ListingHasGenre(cache, genre, rank);
    Pagination.PagesCoverList(GenreListing(cache, genre, rank));
  }
}
