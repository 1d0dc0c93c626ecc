// The records the bot receives from the movie metadata provider, and the
// outcome of any outbound HTTP request. The requests themselves are not
// modelled: their responses are inputs to the handlers.

module Records {
  import opened JsText

  /** One search hit from `/search/movie` or `/search/tv`, kept as received. */
  datatype Summary = Summary(
    id: int,
    title: Option<string>,            // movies
    name: Option<string>,             // series
    releaseDate: Option<string>,      // movies, "YYYY-MM-DD"
    firstAirDate: Option<string>,     // series, "YYYY-MM-DD"
    posterPath: Option<string>,
    genreIds: seq<int>,               // a missing list reads as empty
    originalLanguage: Option<string>,
    overview: Option<string>,
    voteAverage: Option<real>
  )

  /** The fields of `/tv/{id}` the series caption uses. */
  datatype TvDetails = TvDetails(
    genreNames: seq<string>,          // a missing list reads as empty
    originCountry: seq<string>,       // a missing list reads as empty
    episodeRunTime: seq<int>,
    overview: Option<string>
  )

  /** The outcome of one awaited HTTP request: its data, or a rejection caught by the handler. */
  datatype Fetch<+T> = Fetched(value: T) | FetchFailed
}
