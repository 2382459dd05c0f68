/**
 * `SearchViewModel`: one mutable query cell, and the choice of paging data
 * that follows the cell's latest value.
 */
module SearchViewModel {
  import opened Text

  /** The pager configuration of the movie repository. */
  datatype PagingConfig = PagingConfig(pageSize: nat, prefetchDistance: nat, enablePlaceholders: bool)

  const MoviesPagingConfig: PagingConfig := PagingConfig(20, 2, false)

  /** A pager whose paging sources are all bound to `query`. */
  datatype Pager = Pager(query: string, config: PagingConfig)

  /** Where the movie list comes from: fixed empty paging data, or a search pager. */
  datatype MoviesSource = EmptyPagingData | Searching(pager: Pager)

  /**
   * `SearchMoviesUseCase(query)`, which forwards to the repository's
   * `searchMoviesPager(query)`: a pager for exactly that query.
   */
  function SearchMoviesPager(query: string): (pager: Pager)
    ensures pager.query == query
    ensures pager.config.pageSize == 20 && pager.config.prefetchDistance == 2
    ensures !pager.config.enablePlaceholders
  {
    Pager(query, MoviesPagingConfig)
  }

  /** The source chosen for a query: empty data for a blank query, otherwise the search for that query. */
  function MoviesFor(query: string): (source: MoviesSource)
    ensures source.EmptyPagingData? <==> IsBlank(query)
    ensures source.Searching? ==> source.pager == SearchMoviesPager(query) && source.pager.query == query
  {
    if IsBlank(query) then EmptyPagingData else Searching(SearchMoviesPager(query))
  }

  /** Clearing the query, or a query of spaces only, brings back the empty data. */
  lemma ClearedQuerySelectsEmpty()
    ensures MoviesFor("") == EmptyPagingData
    ensures MoviesFor(" ") == EmptyPagingData
  {
  }

  /** Two queries lead to the same search exactly when they are the same non-blank query. */
  lemma SearchDeterminedByQuery(q1: string, q2: string)
    ensures MoviesFor(q1).Searching? && MoviesFor(q2).Searching? ==> (MoviesFor(q1) == MoviesFor(q2) <==> q1 == q2)
  {
  }

  class SearchViewModel {
    var currentQuery: string

    /** A new view model starts with the empty query, so with empty data. */
    constructor ()
      ensures currentQuery == ""
      ensures Movies() == EmptyPagingData
    {
      currentQuery := "";
    }

    /** The `movies` flow's current source: a function of the current query alone. */
    function Movies(): (source: MoviesSource)
      reads this
      ensures source.EmptyPagingData? <==> IsBlank(currentQuery)
      ensures source.Searching? ==> source.pager.query == currentQuery
    {
      MoviesFor(currentQuery)
    }

    /** `searchMovies(newQuery)`: replaces the query, whatever it was before. */
    method SearchMovies(newQuery: string)
      modifies this
      ensures currentQuery == newQuery
      ensures Movies() == MoviesFor(newQuery)
    {
      currentQuery := newQuery;
    }
  }
}
