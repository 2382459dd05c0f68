# Movie search paging core, modelled in Dafny

A model of the search-and-paging core of an Android app that searches the TMDB movie
catalogue by keyword and shows the hits as an endlessly scrolling list:

- `PagingSource` — `MoviesPagingSource.load` turns an optional page key and the outcome of
  one call to the search endpoint into a page (movies, previous key, next key), a caught
  error, or an exception that escapes; `getRefreshKey` picks the key to reload from.
- `MovieMapper` — `MovieDto.toDomain`, the wire-to-domain record transform with the poster
  URL prefix, and the element-wise mapping of a page's hits.
- `NetworkPolicy` — the OkHttp policy of `NetworkModule`: the API-key interceptor, the
  logging level, and the retry interceptor (one retry on 429 or 5xx) over an abstract
  `proceed`, modelled as a `Chain` object with a scripted network and an event log.
- `SearchViewModel` — the view model's single mutable query cell and the choice of paging
  data (empty, or a pager for that query) that follows it.
- `SearchScreen` — the view selection of `SearchScreen` from the query and the paging load
  states, the append footer, the clear button, and the `isUserRefreshing` flag.
- `Model`, `KotlinInt`, `Text`, `Wrappers` — the DTO and domain records, Kotlin's 32-bit
  `Int` with its wrap-around, Kotlin's `isBlank`, and nullable values as `Option`.

The search endpoint and `chain.proceed` are inputs: `Load` takes the endpoint as a function
from the call's arguments to an outcome (`Ok`, `IOErr`, `HttpErr`, `OtherErr`), and `Chain`
takes `respond(request, n)`, what the `n`-th `proceed` yields.

## Model

| member | source | states |
|---|---|---|
| KotlinInt.Plus | app/src/main/java/com/example/movielist/data/remote/MoviesPagingSource.kt:50 | `Int` addition: the sum modulo 2^32, and the exact sum when it fits |
| KotlinInt.Minus | app/src/main/java/com/example/movielist/data/remote/MoviesPagingSource.kt:37 | `Int` subtraction: the difference modulo 2^32, and the exact difference when it fits |
| KotlinInt.PlusOneAfterMinusOne | app/src/main/java/com/example/movielist/data/remote/MoviesPagingSource.kt:37-50 | `(p - 1) + 1 == p` for every `Int`, across the wrap-around at `Int.MIN_VALUE` |
| Text.IsWhitespace | app/src/main/java/com/example/movielist/presentation/search/SearchScreen.kt:112 | Kotlin's `isWhitespace`: exactly U+0009..U+000D and U+001C..U+0020 among ASCII, the no-break spaces U+00A0, U+2007, U+202F included, nothing above U+3000 |
| Text.IsBlank | app/src/main/java/com/example/movielist/presentation/search/SearchViewModel.kt:36 | `isBlank`: every character is whitespace, so the empty string is blank |
| Text.BlankIsNotEmpty | app/src/main/java/com/example/movielist/presentation/search/SearchScreen.kt:97-113 | the empty string and a lone space are blank, `"a"` is not: blank and empty differ |
| MovieMapper.PosterUrlOf | app/src/main/java/com/example/movielist/data/mapper/MovieMapper.kt:11 | a poster URL exists iff a poster path does, and it is the base URL followed by that path |
| MovieMapper.PosterPathOf | app/src/main/java/com/example/movielist/data/mapper/MovieMapper.kt:11 | stripping the base URL: defined exactly on URLs starting with it, and base + result gives the URL back |
| MovieMapper.PosterUrlRoundTrip | app/src/main/java/com/example/movielist/data/mapper/MovieMapper.kt:11 | stripping the base from a derived poster URL gives back the poster path |
| MovieMapper.ToDomain | app/src/main/java/com/example/movielist/data/mapper/MovieMapper.kt:6-13 | id, title, overview copied, rating equals voteAverage, poster URL present iff poster path present and strips back to it |
| MovieMapper.PosterUrlInjective | app/src/main/java/com/example/movielist/data/mapper/MovieMapper.kt:11 | equal poster URLs come from equal poster paths |
| MovieMapper.AlienExample | app/src/test/java/com/example/movielist/data/mapper/MovieMapperTest.kt:21-37 | `/alien.jpg` maps to `https://image.tmdb.org/t/p/w500/alien.jpg`, id 1 and title "Alien" kept |
| MovieMapper.MapToDomain | app/src/main/java/com/example/movielist/data/remote/MoviesPagingSource.kt:33 | the page's movies: same length as the hits, and movie i is hit i mapped |
| MovieMapper.MapToDomainAppend | app/src/main/java/com/example/movielist/data/remote/MoviesPagingSource.kt:33-36 | mapping two pages' hits together is mapping each in turn: nothing merged, dropped or de-duplicated |
| PagingSource.PageOf | app/src/main/java/com/example/movielist/data/remote/MoviesPagingSource.kt:30 | a missing key is page 1, a present key is used as is |
| PagingSource.CallFor | app/src/main/java/com/example/movielist/data/remote/MoviesPagingSource.kt:32 | the endpoint is called with the bound query, the key's page, `include_adult=false`, `language=en-US` |
| PagingSource.Load | app/src/main/java/com/example/movielist/data/remote/MoviesPagingSource.kt:29-45 | a page iff the call returned; its data is the hits mapped in order, prevKey absent iff page 1 else page-1, nextKey page+1 iff page < totalPages; IOException and HttpException become errors carrying the cause; any other exception escapes |
| PagingSource.KeyFromClosest | app/src/main/java/com/example/movielist/data/remote/MoviesPagingSource.kt:50 | no page gives no key; else prevKey+1 if present, else nextKey-1 if present, else no key |
| PagingSource.GetRefreshKey | app/src/main/java/com/example/movielist/data/remote/MoviesPagingSource.kt:47-52 | no anchor gives no key; otherwise the key derived from the page closest to the anchor |
| PagingSource.RefreshKeyRoundTrip | app/src/main/java/com/example/movielist/data/remote/MoviesPagingSource.kt:35-52 | a page loaded as p with a previous or next key makes the refresh key p, for every `Int` p |
| PagingSource.LoadThenRefreshKey | app/src/main/java/com/example/movielist/data/remote/MoviesPagingSource.kt:29-52 | the same round trip for whatever page `Load` returns |
| PagingSource.KeysStayInRange | app/src/main/java/com/example/movielist/data/remote/MoviesPagingSource.kt:37-38 | from a key >= 1, prevKey lies in 1..page-1 and nextKey in page+1..totalPages, so keys never wrap |
| PagingSource.SinglePageExample | app/src/test/java/com/example/movielist/data/remote/MoviesPagingSourceTest.kt:67-85 | one hit on a one-page result loaded without a key: a page of one movie with that title and no neighbours |
| PagingSource.MiddlePageExample | app/src/main/java/com/example/movielist/data/remote/MoviesPagingSource.kt:37-38 | page 2 of 5 has prevKey 1 and nextKey 3 |
| PagingSource.NoResultsIsAPage | app/src/main/java/com/example/movielist/data/remote/MoviesPagingSource.kt:35-38 | zero pages of results is an empty page with no neighbours, not an error |
| NetworkPolicy.LoggingLevel | app/src/main/java/com/example/movielist/core/di/NetworkModule.kt:26-29 | BASIC logging iff the build is a debug build, otherwise none |
| NetworkPolicy.WithApiKey | app/src/main/java/com/example/movielist/core/di/NetworkModule.kt:50-58 | `api_key=<key>` appended after the existing query parameters; method, headers and the rest of the URL unchanged |
| NetworkPolicy.IsRetryable | app/src/main/java/com/example/movielist/core/di/NetworkModule.kt:38 | only error codes are retried: every 5xx, and among 4xx exactly 429 |
| NetworkPolicy.RetryInterception | app/src/main/java/com/example/movielist/core/di/NetworkModule.kt:35-44 | one attempt whose result is returned as is, or after a retryable response exactly four steps in order: the attempt, that response closed, a 500 ms sleep, a second attempt with the same request, whose result is returned unchecked; never a third |
| NetworkPolicy.EveryAttemptCarriesApiKey | app/src/main/java/com/example/movielist/core/di/NetworkModule.kt:33-58 | with the key interceptor installed first, both attempts of a retried request carry the key |
| NetworkPolicy.ApiOutcomeOf | app/src/main/java/com/example/movielist/data/remote/api/TmdbApi.kt:22-28 | an I/O failure is an IOException and a non-2xx code an HttpException with that code; a 204 or 205 is never read and its null body is an uncaught exception whatever it holds; any other 2xx body gives its envelope, an IOException when empty or malformed, or an uncaught exception when of the wrong shape |
| NetworkPolicy.NoContentEscapes | app/src/main/java/com/example/movielist/data/remote/MoviesPagingSource.kt:31-44 | a 204 or 205 response makes `load` propagate an exception, even when its body would decode |
| NetworkPolicy.UnreadableBodyIsCaught | app/src/main/java/com/example/movielist/data/remote/MoviesPagingSource.kt:40-41 | an empty or malformed 200 body makes `load` return an IOException error |
| NetworkPolicy.ServerErrorThenSuccess | app/src/main/java/com/example/movielist/core/di/NetworkModule.kt:37-43 | a 500 then a 200: two attempts, and the 200's envelope reaches the caller |
| NetworkPolicy.ServerErrorTwice | app/src/main/java/com/example/movielist/data/remote/MoviesPagingSource.kt:40-44 | a 500 on both attempts makes `load` return an error carrying HTTP 500 |
| NetworkPolicy.TransportFailureNotRetried | app/src/main/java/com/example/movielist/core/di/NetworkModule.kt:37 | an I/O failure on the first attempt is passed on after one attempt |
| NetworkPolicy.Chain.constructor | app/src/main/java/com/example/movielist/core/di/NetworkModule.kt:35-36 | a chain starts with an empty log and no attempts, and its attempt count agrees with its log |
| NetworkPolicy.Chain.Proceed | app/src/main/java/com/example/movielist/core/di/NetworkModule.kt:37 | `chain.proceed` yields the scripted result for this request and attempt number, logs the attempt and counts it, keeping the count equal to the number of `proceed` entries in the log |
| NetworkPolicy.Chain.Close | app/src/main/java/com/example/movielist/core/di/NetworkModule.kt:39 | `response.close()` is logged and is no attempt |
| NetworkPolicy.Chain.Sleep | app/src/main/java/com/example/movielist/core/di/NetworkModule.kt:40 | `Thread.sleep` is logged with its duration and is no attempt |
| NetworkPolicy.RetryIntercept | app/src/main/java/com/example/movielist/core/di/NetworkModule.kt:35-44 | the interceptor's calls on the chain are exactly those of `RetryInterception` for the first two scripted responses, and it returns that result |
| NetworkPolicy.Execute | app/src/main/java/com/example/movielist/core/di/NetworkModule.kt:32-47 | a request goes through the key rewrite and then the retry interceptor, which sends the keyed request |
| SearchViewModel.SearchMoviesPager | app/src/main/java/com/example/movielist/domain/usecase/SearchMoviesUseCase.kt:21-22 | the use case yields a pager for exactly its query, page size 20, prefetch 2, no placeholders |
| SearchViewModel.MoviesFor | app/src/main/java/com/example/movielist/presentation/search/SearchViewModel.kt:34-38 | empty paging data iff the query is blank; otherwise the use case's pager for that same query |
| SearchViewModel.ClearedQuerySelectsEmpty | app/src/main/java/com/example/movielist/presentation/search/SearchViewModel.kt:36 | the empty query and a query of spaces select empty data |
| SearchViewModel.SearchDeterminedByQuery | app/src/main/java/com/example/movielist/presentation/search/SearchViewModel.kt:37 | two non-blank queries select the same search iff they are equal |
| SearchViewModel.SearchViewModel.constructor | app/src/main/java/com/example/movielist/presentation/search/SearchViewModel.kt:31 | the query starts as `""`, so the data starts empty |
| SearchViewModel.SearchViewModel.Movies | app/src/main/java/com/example/movielist/presentation/search/SearchViewModel.kt:34-38 | the current source is empty iff the current query is blank, else a search for the current query |
| SearchViewModel.SearchViewModel.SearchMovies | app/src/main/java/com/example/movielist/presentation/search/SearchViewModel.kt:41-43 | the query becomes exactly the new one and the source follows it, whatever came before |
| SearchScreen.Present | app/src/main/java/com/example/movielist/presentation/search/SearchScreen.kt:147-151 | the list rows: no more than the slots, and a movie is a row iff some slot holds it |
| SearchScreen.PresentAppend | app/src/main/java/com/example/movielist/presentation/search/SearchScreen.kt:147-151 | rows keep slot order: the rows of a + b are the rows of a followed by those of b |
| SearchScreen.PresentAllLoaded | app/src/main/java/com/example/movielist/presentation/search/SearchScreen.kt:147-151 | without empty slots, row i is slot i |
| SearchScreen.AppendFooterFor | app/src/main/java/com/example/movielist/presentation/search/SearchScreen.kt:154-163 | spinner iff append is loading, inline retry iff it failed, nothing iff not loading |
| SearchScreen.SelectView | app/src/main/java/com/example/movielist/presentation/search/SearchScreen.kt:112-165 | each view iff its condition in priority order: blank query; refresh loading; refresh failed (whatever the item count); refresh done with no items; else the list of present items with the append footer |
| SearchScreen.ErrorsAndTheList | app/src/main/java/com/example/movielist/presentation/search/SearchScreen.kt:129-163 | a refresh error hides loaded items; an append error keeps them with an inline retry |
| SearchScreen.ClearButtonVisible | app/src/main/java/com/example/movielist/presentation/search/SearchScreen.kt:97 | the clear button shows iff the query is non-empty |
| SearchScreen.ClearButtonOverEmptySearch | app/src/main/java/com/example/movielist/presentation/search/SearchScreen.kt:97-113 | a query of one space shows the clear button and the empty-search view |
| SearchScreen.OnValueChange | app/src/main/java/com/example/movielist/presentation/search/SearchScreen.kt:92 | typing sets the view model's query to the text |
| SearchScreen.OnClearPressed | app/src/main/java/com/example/movielist/presentation/search/SearchScreen.kt:98 | clearing sets the query to `""`, selecting empty data and the empty-search view |
| SearchScreen.Step | app/src/main/java/com/example/movielist/presentation/search/SearchScreen.kt:71-82 | a pull sets the flag, a non-loading refresh state clears it, a loading one keeps it |
| SearchScreen.FlagAfter | app/src/main/java/com/example/movielist/presentation/search/SearchScreen.kt:66-82 | the flag after a run of events: false with none, set after a final pull, cleared after a final non-loading refresh state |
| SearchScreen.FlagAfterIff | app/src/main/java/com/example/movielist/presentation/search/SearchScreen.kt:66-82 | from `false`, the flag is set iff some pull has not since been followed by a non-loading refresh state |
| SearchScreen.PullRefresh.constructor | app/src/main/java/com/example/movielist/presentation/search/SearchScreen.kt:66 | the flag starts false, with no refresh requested |
| SearchScreen.PullRefresh.OnRefresh | app/src/main/java/com/example/movielist/presentation/search/SearchScreen.kt:71-74 | the `onRefresh` callback (invoked only for a pull made while the flag is clear; `pullRefresh` ignores pulls while it is set) sets the flag and requests exactly one refresh |
| SearchScreen.PullRefresh.OnRefreshStateChanged | app/src/main/java/com/example/movielist/presentation/search/SearchScreen.kt:78-82 | a new refresh state clears the flag unless it is loading, and requests nothing |

## Left out

- Rendering, layout, animation, theming, navigation, the splash delay and dependency injection wiring: presentation and glue with no decision logic.
- The paging library and coroutines (`Pager`, `cachedIn`, `flatMapLatest` cancellation, prefetch triggering, `collectAsLazyPagingItems`): library concurrency whose code is not part of this model; the pager configuration is kept as constants only, and the paging state's `closestPageToPosition` is an input of `GetRefreshKey`.
- JSON decoding, URL building, the 15 s timeouts, the logging output and the real `Thread.sleep`: foreign I/O. The sleep is recorded as an event, and a decoded body is an input of the response, classified only as decoded, unreadable (an `IOException`) or of the wrong shape (uncaught); a 204 or 205 is decided by its status code alone.
- SearchScreen.PullRefresh.OnRefreshStateChanged: stands for one re-run of the effect keyed on `loadState.refresh`, which re-runs only when that key changes by equality; the model does not track the previous key, because its three-valued `LoadState` drops `NotLoading`'s end-of-pagination flag and `Error`'s cause. So a pull made while refresh is not loading, after which no change of the refresh state is observed, leaves the flag set in the app, while the model clears it on every `RefreshStateChanged(NotLoading)` event it is given.
- `Thread.sleep` being interrupted: not modelled.
- The API key and the debug flag are build configuration; they are parameters.
- Ratings (`Double`) are an opaque type that is only copied; floating point is not modelled.
- `Text.IsWhitespace` follows the JVM's `Character.isWhitespace` or `Character.isSpaceChar` over a fixed list of code points, not a Unicode database.
- The retry and error-retry buttons' calls to `movies.retry()` and the pull's call to `movies.refresh()` go into the paging library; the model counts refresh requests and stops there.
