/**
 * The decisions of `SearchScreen`: which of its views a query and the paging
 * load states select, the footer under the list, the clear button, and the
 * pull-to-refresh flag.
 */
module SearchScreen {
  import opened Wrappers
  import opened Text
  import opened Model
  import opened SearchViewModel

  /** A paging load state. */
  datatype LoadState = NotLoading | Loading | Error

  /** The load states of the first page (`refresh`) and of later pages (`append`). */
  datatype CombinedLoadStates = CombinedLoadStates(refresh: LoadState, append: LoadState)

  /** What is shown under the list while more pages load. */
  datatype AppendFooter = NoFooter | AppendSpinner | InlineAppendRetry

  /** The screen's views below the search field. */
  datatype SearchView =
    | EmptySearchState
    | LoadingIndicator
    | ErrorWithRetry
    | NoMoviesWithThisName
    | MovieList(movies: seq<Movie>, footer: AppendFooter)

  /** The list's rows: the loaded slots in order, empty slots skipped. */
  function Present(items: seq<Option<Movie>>): (movies: seq<Movie>)
    ensures |movies| <= |items|
    ensures forall m :: m in movies <==> Some(m) in items
  {
    if items == [] then []
    else (if items[0].Some? then [items[0].value] else []) + Present(items[1..])
  }

  /** Rows keep the order of the slots: the rows of two runs of slots are the rows of each, one after the other. */
  lemma {:induction false} PresentAppend(a: seq<Option<Movie>>, b: seq<Option<Movie>>)
    ensures Present(a + b) == Present(a) + Present(b)
  {
    if a == [] {
      assert a + b == b;
    } else {
      assert (a + b)[1..] == a[1..] + b;
      PresentAppend(a[1..], b);
    }
  }

  /** Without empty slots every slot is a row, at the same index. */
  lemma {:induction false} PresentAllLoaded(items: seq<Option<Movie>>)
    requires forall i :: 0 <= i < |items| ==> items[i].Some?
    ensures |Present(items)| == |items|
    ensures forall i :: 0 <= i < |items| ==> Present(items)[i] == items[i].value
  {
    if items != [] {
      PresentAllLoaded(items[1..]);
    }
  }

  /** The footer under the list for an `append` state. */
  function AppendFooterFor(append: LoadState): (footer: AppendFooter)
    ensures footer == AppendSpinner <==> append == Loading
    ensures footer == InlineAppendRetry <==> append == Error
    ensures footer == NoFooter <==> append == NotLoading
  {
    match append
    case Loading => AppendSpinner
    case Error => InlineAppendRetry
    case NotLoading => NoFooter
  }

  /**
   * The view for a query, the load states and the item slots, checked in
   * order: blank query, loading first page, failed first page, no items,
   * and otherwise the list with its footer.
   */
  function SelectView(query: string, loadState: CombinedLoadStates, items: seq<Option<Movie>>): (view: SearchView)
    ensures view == EmptySearchState <==> IsBlank(query)
    ensures view == LoadingIndicator <==> !IsBlank(query) && loadState.refresh == Loading
    ensures view == ErrorWithRetry <==> !IsBlank(query) && loadState.refresh == Error
    ensures view == NoMoviesWithThisName <==> !IsBlank(query) && loadState.refresh == NotLoading && |items| == 0
    ensures view.MovieList? <==> !IsBlank(query) && loadState.refresh == NotLoading && |items| > 0
    ensures view.MovieList? ==> view.movies == Present(items) && view.footer == AppendFooterFor(loadState.append)
  {
    if IsBlank(query) then EmptySearchState
    else match loadState.refresh
      case Loading => LoadingIndicator
      case Error => ErrorWithRetry
      case NotLoading =>
        if |items| == 0 then NoMoviesWithThisName
        else MovieList(Present(items), AppendFooterFor(loadState.append))
  }

  /** A failed first page hides the list whatever was loaded before; an append failure keeps it. */
  lemma ErrorsAndTheList(query: string, append: LoadState, items: seq<Option<Movie>>)
    requires !IsBlank(query) && |items| > 0
    ensures SelectView(query, CombinedLoadStates(Error, append), items) == ErrorWithRetry
    ensures SelectView(query, CombinedLoadStates(NotLoading, Error), items) == MovieList(Present(items), InlineAppendRetry)
  {
  }

  /** The clear button shows for any non-empty query, blank ones included. */
  function ClearButtonVisible(query: string): (visible: bool)
    ensures visible <==> |query| > 0
  {
    query != ""
  }

  /** A query of spaces shows the clear button above the empty-search view. */
  lemma ClearButtonOverEmptySearch()
    ensures ClearButtonVisible(" ")
    ensures forall s, items :: SelectView(" ", s, items) == EmptySearchState
  {
  }

  /** Typing in the search field: the view model's query becomes the text. */
  method OnValueChange(vm: SearchViewModel, text: string)
    modifies vm
    ensures vm.currentQuery == text && vm.Movies() == MoviesFor(text)
  {
    vm.SearchMovies(text);
  }

  /** Pressing the clear button: the query becomes empty, and with it the data and the view. */
  method OnClearPressed(vm: SearchViewModel)
    modifies vm
    ensures vm.currentQuery == "" && vm.Movies() == EmptyPagingData
    ensures forall s, items :: SelectView(vm.currentQuery, s, items) == EmptySearchState
  {
    vm.SearchMovies("");
  }

  /** What the pull-to-refresh flag reacts to. */
  datatype ScreenEvent = PulledToRefresh | RefreshStateChanged(refresh: LoadState)

  /** An event that stops the refresh animation: the first page is no longer loading. */
  predicate StopsRefreshing(e: ScreenEvent) {
    e.RefreshStateChanged? && e.refresh != Loading
  }

  /** One transition of `isUserRefreshing`. */
  function Step(refreshing: bool, e: ScreenEvent): (next: bool)
    ensures e.PulledToRefresh? ==> next
    ensures StopsRefreshing(e) ==> !next
    ensures e == RefreshStateChanged(Loading) ==> next == refreshing
  {
    match e
    case PulledToRefresh => true
    case RefreshStateChanged(refresh) => if refresh != Loading then false else refreshing
  }

  /** The flag after a run of events, starting from `false`. */
  function FlagAfter(events: seq<ScreenEvent>): (refreshing: bool)
    ensures events == [] ==> !refreshing
    ensures events != [] && events[|events| - 1].PulledToRefresh? ==> refreshing
    ensures events != [] && StopsRefreshing(events[|events| - 1]) ==> !refreshing
  {
    if events == [] then false else Step(FlagAfter(events[..|events| - 1]), events[|events| - 1])
  }

  /** The flag is set exactly when some pull has not been followed by a non-loading refresh state. */
  lemma {:induction false} FlagAfterIff(events: seq<ScreenEvent>)
    ensures FlagAfter(events) <==>
      exists i :: 0 <= i < |events| && events[i].PulledToRefresh? &&
        forall j :: i < j < |events| ==> !StopsRefreshing(events[j])
  {
    if events != [] {
      var n := |events| - 1;
      var init := events[..n];
      FlagAfterIff(init);
      if FlagAfter(events) {
        if !events[n].PulledToRefresh? {
          var i :| 0 <= i < |init| && init[i].PulledToRefresh? &&
                   forall j :: i < j < |init| ==> !StopsRefreshing(init[j]);
          assert events[i].PulledToRefresh?;
          assert forall j :: i < j < |events| ==> !StopsRefreshing(events[j]) by {
            forall j | i < j < |events| ensures !StopsRefreshing(events[j]) {
              if j < n { assert events[j] == init[j]; }
            }
          }
        }
      } else {
        forall i | 0 <= i < |events| && events[i].PulledToRefresh?
          ensures exists j :: i < j < |events| && StopsRefreshing(events[j])
        {
          if i == n {
            assert false;
          } else if StopsRefreshing(events[n]) {
            assert i < n < |events|;
          } else {
            assert init[i].PulledToRefresh?;
            var j :| i < j < |init| && StopsRefreshing(init[j]);
            assert events[j] == init[j];
          }
        }
      }
    }
  }

  /** The screen's `isUserRefreshing` state and its calls to `movies.refresh()`. */
  class PullRefresh {
    var isUserRefreshing: bool
    var refreshRequests: nat

    constructor ()
      ensures !isUserRefreshing && refreshRequests == 0
    {
      isUserRefreshing := false;
      refreshRequests := 0;
    }

    /**
     * The `onRefresh` callback: set the flag and ask the paging data to
     * refresh. The pull-refresh modifier invokes it only for a pull made
     * while the flag is clear; pulls while it is set never reach it.
     */
    method OnRefresh()
      modifies this
      ensures isUserRefreshing == Step(old(isUserRefreshing), PulledToRefresh)
      ensures refreshRequests == old(refreshRequests) + 1
    {
      isUserRefreshing := true;
      refreshRequests := refreshRequests + 1;
    }

    /** The effect keyed on `loadState.refresh`: clear the flag once the first page is not loading. */
    method OnRefreshStateChanged(refresh: LoadState)
      modifies this
      ensures isUserRefreshing == Step(old(isUserRefreshing), RefreshStateChanged(refresh))
      ensures refreshRequests == old(refreshRequests)
    {
      if refresh != Loading {
        isUserRefreshing := false;
      }
    }
  }
}
