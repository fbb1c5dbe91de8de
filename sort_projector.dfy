/** `sortedRecommendations` (frontend-anime/src/App.jsx, lines 188-200):
    a copy of the recommendations, sorted by the chosen option. */
module SortProjector {
  import opened Wrappers
  import opened Catalog
  import opened Strings
  import opened Sorting

  /** `a.score || 0`: a missing score counts as 0. */
  function ScoreKey(a: Anime): int {
    a.score.GetOr(0)
  }

  /** `a.aired_from ? new Date(a.aired_from) : new Date(0)`: a missing
      air date counts as the epoch. */
  function DateKey(a: Anime): int {
    a.airedFrom.GetOr(0)
  }

  /** The comparators, as "may come before" relations: `cmp(a, b) <= 0`. */
  function ScoreFirst(): (Anime, Anime) -> bool {
    (a: Anime, b: Anime) => ScoreKey(a) >= ScoreKey(b)
  }

  function NewestFirst(): (Anime, Anime) -> bool {
    (a: Anime, b: Anime) => DateKey(a) >= DateKey(b)
  }

  function TitleOrder(): (Anime, Anime) -> bool {
    (a: Anime, b: Anime) => LexLe(a.englishTitle, b.englishTitle)
  }

  lemma ComparatorsArePreorders()
    ensures TotalPreorder(ScoreFirst())
    ensures TotalPreorder(NewestFirst())
    ensures TotalPreorder(TitleOrder())
  {
    forall a: Anime, b: Anime
      ensures TitleOrder()(a, b) || TitleOrder()(b, a)
    {
      LexLeTotal(a.englishTitle, b.englishTitle);
    }
    forall a: Anime, b: Anime, c: Anime | TitleOrder()(a, b) && TitleOrder()(b, c)
      ensures TitleOrder()(a, c)
    {
      LexLeTransitive(a.englishTitle, b.englishTitle, c.englishTitle);
    }
  }

  /** The list shown for `option`. 'score' and 'date' put the highest key
      first, 'az' sorts titles ascending, and 'default' or any other
      option keeps the order the API sent. The result is always a
      rearrangement of the input, and the input itself is a value, so it
      is never changed. */
  function SortedRecommendations(recommendations: seq<Anime>, option: string): (r: seq<Anime>)
    ensures multiset(r) == multiset(recommendations)
    ensures option != "score" && option != "az" && option != "date" ==> r == recommendations
    ensures option == "score" ==>
      forall i, j :: 0 <= i < j < |r| ==> ScoreKey(r[i]) >= ScoreKey(r[j])
    ensures option == "date" ==>
      forall i, j :: 0 <= i < j < |r| ==> DateKey(r[i]) >= DateKey(r[j])
    ensures option == "az" ==>
      forall i, j :: 0 <= i < j < |r| ==> LexLe(r[i].englishTitle, r[j].englishTitle)
  {
    ComparatorsArePreorders();
    if option == "score" then
      SortSorted(recommendations, ScoreFirst());
      Sort(recommendations, ScoreFirst())
    else if option == "az" then
      SortSorted(recommendations, TitleOrder());
      Sort(recommendations, TitleOrder())
    else if option == "date" then
      SortSorted(recommendations, NewestFirst());
      Sort(recommendations, NewestFirst())
    else
      recommendations
  }

  /** Items with equal scores keep the order the API sent them in. */
  lemma ScoreSortIsStable(recommendations: seq<Anime>, y: Anime)
    ensures TiedWith(SortedRecommendations(recommendations, "score"), y, ScoreFirst())
         == TiedWith(recommendations, y, ScoreFirst())
  {
    ComparatorsArePreorders();
    SortStable(recommendations, y, ScoreFirst());
  }

  /** Items with equal air dates keep the order the API sent them in. */
  lemma DateSortIsStable(recommendations: seq<Anime>, y: Anime)
    ensures TiedWith(SortedRecommendations(recommendations, "date"), y, NewestFirst())
         == TiedWith(recommendations, y, NewestFirst())
  {
    ComparatorsArePreorders();
    SortStable(recommendations, y, NewestFirst());
  }

  /** Items with equal titles keep the order the API sent them in. */
  lemma TitleSortIsStable(recommendations: seq<Anime>, y: Anime)
    ensures TiedWith(SortedRecommendations(recommendations, "az"), y, TitleOrder())
         == TiedWith(recommendations, y, TitleOrder())
  {
    ComparatorsArePreorders();
    SortStable(recommendations, y, TitleOrder());
  }
}
