/** The records that travel between the recommendation API and the
    client. Both sides agree on these JSON shapes. */
module Catalog {
  import opened Wrappers

  /** One anime as the API returns it. Only the fields that some logic
      reads are kept. `malId` is `None` for the synthetic "Top <genre>
      Anime" header. `score` and `airedFrom` are abstract ordered keys:
      the score is a float and the air date is an ISO date string in the
      JSON, and `airedFrom` stands for that date's epoch time. */
  datatype Anime = Anime(
    malId: Option<int>,
    englishTitle: string,
    score: Option<int>,
    airedFrom: Option<int>,
    genres: seq<string>)

  /** The body of a successful `/recommend` or `/by_genre` response.
      `/recommend` sends no page fields. */
  datatype Payload = Payload(
    searchedAnime: Anime,
    recommendations: seq<Anime>,
    currentPage: Option<int>,
    totalPages: Option<int>)
}
