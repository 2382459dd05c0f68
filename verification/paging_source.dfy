/**
 * `MoviesPagingSource`: loads one page of search hits for a fixed query and
 * works out the neighbouring page keys, and picks the key to reload from
 * after a refresh.
 */
module PagingSource {
  import opened Wrappers
  import opened KotlinInt
  import opened Model
  import MovieMapper

  /** The arguments of one call to the search endpoint. */
  datatype SearchCall = SearchCall(query: string, page: int32, includeAdult: bool, language: string)

  /** What the search endpoint does for one call: returns an envelope or throws. */
  datatype ApiOutcome =
    | Ok(response: MoviesDto)
    | IOErr                 // an `IOException`: no usable response
    | HttpErr(code: int)    // an `HttpException`: a non-2xx status
    | OtherErr              // any other exception

  /** The two exceptions `load` catches. */
  datatype LoadError = IOException | HttpException(code: int)

  /** A loaded page: its movies and the keys of the pages before and after it. */
  datatype Page = Page(data: seq<Movie>, prevKey: Option<int32>, nextKey: Option<int32>)

  /** `LoadResult.Page` or `LoadResult.Error`. */
  datatype LoadResult = PageResult(page: Page) | ErrorResult(error: LoadError)

  /** `load` either returns a result or lets an uncaught exception escape. */
  datatype LoadOutcome = Returned(result: LoadResult) | Propagated

  /** The endpoint's default for `language`; `include_adult` defaults to false. */
  const DefaultLanguage: string := "en-US"

  /** `params.key ?: 1`: a missing key means the first page. */
  function PageOf(key: Option<int32>): (page: int32)
    ensures key.None? ==> page == 1
    ensures key.Some? ==> page == key.value
  {
    key.GetOr(1)
  }

  /** The call `load` makes: the bound query, the page of the key, the endpoint's defaults. */
  function CallFor(query: string, key: Option<int32>): (call: SearchCall)
    ensures call.query == query && call.page == PageOf(key)
    ensures !call.includeAdult && call.language == DefaultLanguage
  {
    SearchCall(query, PageOf(key), false, DefaultLanguage)
  }

  /**
   * What a page loaded as `page` from `response` must be: every hit mapped in
   * order, no previous key exactly on page 1 (otherwise `page - 1`), and a
   * next key `page + 1` exactly when `page` is below the page count.
   */
  ghost predicate IsPageFor(p: Page, page: int32, response: MoviesDto) {
    && |p.data| == |response.results|
    && (forall i :: 0 <= i < |p.data| ==> p.data[i] == MovieMapper.ToDomain(response.results[i]))
    && (p.prevKey.None? <==> page == 1)
    && (p.prevKey.Some? ==> p.prevKey.value == Minus(page, 1))
    && (p.nextKey.Some? <==> page < response.totalPages)
    && (p.nextKey.Some? ==> p.nextKey.value as int == page as int + 1)
  }

  /** `load`: one call to the endpoint, turned into a page, a caught error, or an escaping exception. */
  function Load(api: SearchCall -> ApiOutcome, query: string, key: Option<int32>): (r: LoadOutcome)
    ensures r.Propagated? <==> api(CallFor(query, key)).OtherErr?
    ensures (r.Returned? && r.result.PageResult?) <==> api(CallFor(query, key)).Ok?
    ensures api(CallFor(query, key)).Ok? ==>
              IsPageFor(r.result.page, PageOf(key), api(CallFor(query, key)).response)
    ensures api(CallFor(query, key)).IOErr? ==> r == Returned(ErrorResult(IOException))
    ensures api(CallFor(query, key)).HttpErr? ==>
              r == Returned(ErrorResult(HttpException(api(CallFor(query, key)).code)))
  {
    var page := PageOf(key);
    match api(CallFor(query, key))
    case Ok(response) =>
      Returned(PageResult(Page(
        MovieMapper.MapToDomain(response.results),
        if page == 1 then None else Some(Minus(page, 1)),
        if page < response.totalPages then Some(page + 1) else None)))
    case IOErr => Returned(ErrorResult(IOException))
    case HttpErr(code) => Returned(ErrorResult(HttpException(code)))
    case OtherErr => Propagated
  }

  /** `page?.prevKey?.plus(1) ?: page?.nextKey?.minus(1)`. */
  function KeyFromClosest(closest: Option<Page>): (key: Option<int32>)
    ensures closest.None? ==> key.None?
    ensures closest.Some? && closest.value.prevKey.Some? ==>
              key == Some(Plus(closest.value.prevKey.value, 1))
    ensures closest.Some? && closest.value.prevKey.None? && closest.value.nextKey.Some? ==>
              key == Some(Minus(closest.value.nextKey.value, 1))
    ensures closest.Some? && closest.value.prevKey.None? && closest.value.nextKey.None? ==> key.None?
  {
    match closest
    case None => None
    case Some(p) =>
      if p.prevKey.Some? then Some(Plus(p.prevKey.value, 1))
      else if p.nextKey.Some? then Some(Minus(p.nextKey.value, 1))
      else None
  }

  /**
   * `getRefreshKey`: no key without an anchor position; otherwise the key
   * derived from the page the paging state reports as closest to the anchor.
   */
  function GetRefreshKey(anchorPosition: Option<int32>, closestPageToPosition: int32 -> Option<Page>): (key: Option<int32>)
    ensures anchorPosition.None? ==> key.None?
    ensures anchorPosition.Some? ==> key == KeyFromClosest(closestPageToPosition(anchorPosition.value))
  {
    match anchorPosition
    case None => None
    case Some(pos) => KeyFromClosest(closestPageToPosition(pos))
  }

  /**
   * A page loaded as `page` that has a neighbour leads the refresh back to
   * `page` itself, for every `Int` page, wrap-around included.
   */
  lemma RefreshKeyRoundTrip(p: Page, page: int32, response: MoviesDto, anchor: int32)
    requires IsPageFor(p, page, response)
    requires p.prevKey.Some? || p.nextKey.Some?
    ensures GetRefreshKey(Some(anchor), _ => Some(p)) == Some(page)
  {
  }

  /** The round trip above, stated for what `Load` returns. */
  lemma LoadThenRefreshKey(api: SearchCall -> ApiOutcome, query: string, key: Option<int32>, anchor: int32)
    requires Load(api, query, key).Returned? && Load(api, query, key).result.PageResult?
    requires Load(api, query, key).result.page.prevKey.Some? || Load(api, query, key).result.page.nextKey.Some?
    ensures GetRefreshKey(Some(anchor), _ => Some(Load(api, query, key).result.page)) == Some(PageOf(key))
  {
  }

  /**
   * Starting from a positive key, the keys `Load` hands out stay positive and
   * never pass the page count, so paging forward and back never wraps around.
   */
  lemma KeysStayInRange(api: SearchCall -> ApiOutcome, query: string, key: Option<int32>)
    requires PageOf(key) >= 1
    requires Load(api, query, key).Returned? && Load(api, query, key).result.PageResult?
    ensures var p := Load(api, query, key).result.page;
            && (p.prevKey.Some? ==> 1 <= p.prevKey.value < PageOf(key))
            && (p.nextKey.Some? ==> PageOf(key) < p.nextKey.value <= api(CallFor(query, key)).response.totalPages)
  {
  }

  /** A one-page result loaded without a key has neither neighbour. */
  lemma SinglePageExample(api: SearchCall -> ApiOutcome, hit: MovieDto)
    requires api(CallFor("alien", None)) == Ok(MoviesDto([hit], 1))
    ensures Load(api, "alien", None).Returned?
    ensures var r := Load(api, "alien", None).result;
            && r.PageResult? && r.page.prevKey == None && r.page.nextKey == None
            && |r.page.data| == 1 && r.page.data[0].title == hit.title
  {
  }

  /** Page 2 of 5 points back to page 1 and on to page 3. */
  lemma MiddlePageExample(api: SearchCall -> ApiOutcome, query: string, response: MoviesDto)
    requires response.totalPages == 5
    requires api(CallFor(query, Some(2))) == Ok(response)
    ensures Load(api, query, Some(2)).Returned?
    ensures var r := Load(api, query, Some(2)).result;
            r.PageResult? && r.page.prevKey == Some(1) && r.page.nextKey == Some(3)
  {
  }

  /** A page count of zero is an empty last page, not an error. */
  lemma NoResultsIsAPage(api: SearchCall -> ApiOutcome, query: string)
    requires api(CallFor(query, None)) == Ok(MoviesDto([], 0))
    ensures Load(api, query, None) == Returned(PageResult(Page([], None, None)))
  {
  }
}
