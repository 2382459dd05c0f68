/** The wire-to-domain mapping of a search hit (`MovieDto.toDomain`). */
module MovieMapper {
  import opened Wrappers
  import opened Model

  /** The image host and size every poster path is appended to. */
  const PosterBaseUrl: string := "https://image.tmdb.org/t/p/w500"

  /** The poster URL of an optional poster path: the base URL followed by the path, or absent with it. */
  function PosterUrlOf(posterPath: Option<string>): (url: Option<string>)
    ensures url.Some? <==> posterPath.Some?
    ensures url.Some? ==> PosterBaseUrl <= url.value && url.value[|PosterBaseUrl|..] == posterPath.value
  {
    match posterPath
    case None => None
    case Some(path) => Some(PosterBaseUrl + path)
  }

  /** The inverse of `PosterUrlOf`: strip the base URL again. */
  function PosterPathOf(url: string): (path: Option<string>)
    ensures path.Some? <==> PosterBaseUrl <= url
    ensures path.Some? ==> PosterBaseUrl + path.value == url
  {
    if PosterBaseUrl <= url then Some(url[|PosterBaseUrl|..]) else None
  }

  /** Stripping the base URL from a derived poster URL gives back the poster path. */
  lemma PosterUrlRoundTrip(posterPath: Option<string>)
    ensures PosterUrlOf(posterPath).Some? ==> PosterPathOf(PosterUrlOf(posterPath).value) == posterPath
  {
  }

  /** Maps one wire record to a domain record. */
  function ToDomain(dto: MovieDto): (movie: Movie)
    ensures movie.id == dto.id && movie.title == dto.title && movie.overview == dto.overview
    ensures movie.rating == dto.voteAverage
    ensures movie.posterUrl.Some? <==> dto.posterPath.Some?
    ensures movie.posterUrl.Some? ==> PosterPathOf(movie.posterUrl.value) == dto.posterPath
  {
    Movie(dto.id, dto.title, dto.overview, PosterUrlOf(dto.posterPath), dto.voteAverage)
  }

  /** Distinct poster paths give distinct poster URLs. */
  lemma PosterUrlInjective(a: MovieDto, b: MovieDto)
    ensures ToDomain(a).posterUrl == ToDomain(b).posterUrl ==> a.posterPath == b.posterPath
  {
  }

  /** The mapper's own example: the "Alien" record. */
  lemma AlienExample(rating: Rating)
    ensures ToDomain(MovieDto(1, "Alien", "Alien overview", Some("/alien.jpg"), rating))
         == Movie(1, "Alien", "Alien overview", Some("https://image.tmdb.org/t/p/w500/alien.jpg"), rating)
  {
    assert PosterBaseUrl + "/alien.jpg" == "https://image.tmdb.org/t/p/w500/alien.jpg";
  }

  /** `results.map { it.toDomain() }`: every hit mapped, in the same order. */
  function MapToDomain(results: seq<MovieDto>): (movies: seq<Movie>)
    ensures |movies| == |results|
    ensures forall i :: 0 <= i < |results| ==> movies[i] == ToDomain(results[i])
  {
    if results == [] then [] else [ToDomain(results[0])] + MapToDomain(results[1..])
  }

  /**
   * Mapping the hits of two pages one after the other gives the two mapped pages
   * one after the other: nothing is merged or dropped, duplicates included.
   */
  lemma MapToDomainAppend(a: seq<MovieDto>, b: seq<MovieDto>)
    ensures MapToDomain(a + b) == MapToDomain(a) + MapToDomain(b)
  {
  }
}
