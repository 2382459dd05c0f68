/** The wire records of a search response and the domain record the app shows. */
module Model {
  import opened Wrappers
  import opened KotlinInt

  /** A rating (`Double`): the model only copies it, never computes with it. */
  type Rating(==, !new)

  /** One search hit as the remote service sends it. */
  datatype MovieDto = MovieDto(
    id: int32,
    title: string,
    overview: string,
    posterPath: Option<string>,
    voteAverage: Rating)

  /** The envelope of one page of search hits. */
  datatype MoviesDto = MoviesDto(results: seq<MovieDto>, totalPages: int32)

  /** A movie as the rest of the app sees it. */
  datatype Movie = Movie(
    id: int32,
    title: string,
    overview: string,
    posterUrl: Option<string>,
    rating: Rating)
}
