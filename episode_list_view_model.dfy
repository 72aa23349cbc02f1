/**
 * The episode list view model: the list of episodes the list screen shows,
 * its state tag, and the cursor over the API's pages.
 *
 * `fetchEpisodes(forceRefresh:)` serves a non-empty cached list when it may,
 * and otherwise loads page 1; `loadMoreIfNeeded(currentEpisode:)` appends the
 * next page when the row that appeared is the last one; and
 * `performBackgroundRefresh()` reloads page 1 without touching the state tag.
 * Each operation is one atomic step that receives the outcome of its fetch.
 *
 * The methods of the class are proved against the transition functions
 * `Fetch`, `LoadMore` and `BackgroundRefresh` on `ListWorld`, the view
 * model's fields together with the cache's snapshot and the logs of calls.
 */
module EpisodeList {
  import opened Wrappers
  import opened Episodes
  import opened Api
  import opened ListProtocols

  const NetworkErrorMessage: string := "Network error"
  const DecodingErrorMessage: string := "Decoding error"

  /** The coarse message a failed full fetch shows. */
  function FailureMessage(e: FetchError): string
  {
    match e
    case Transport => NetworkErrorMessage
    case Other => DecodingErrorMessage
  }

  /**
   * Everything an operation can change or be observed to do: the view
   * model's fields, the cache's snapshot, the calls made on the cache, the
   * pages requested from the fetcher and every value assigned to `state`.
   */
  datatype ListWorld = ListWorld(
    episodes: seq<Episode>,
    state: ListState,
    currentPage: int,
    totalPages: int,
    isLoadingMore: bool,
    cached: Option<seq<Episode>>,
    cacheCalls: seq<CacheCall>,
    requestedPages: seq<int>,
    published: seq<ListState>)

  /** A fresh view model: idle, no episodes, on page 1 of 1. */
  function Initial(cached: Option<seq<Episode>>, cacheCalls: seq<CacheCall>): ListWorld
  {
    ListWorld([], Idle, 1, 1, false, cached, cacheCalls, [], [])
  }

  /** A cached list is used only when there is one and it is not empty. */
  predicate ServesFromCache(cached: Option<seq<Episode>>)
  {
    cached.Some? && cached.value != []
  }

  /** `fetchEpisodes(forceRefresh:)`, given what fetching page 1 would produce. */
  function Fetch(w: ListWorld, forceRefresh: bool, page1: FetchOutcome<EpisodeResponse>): (r: ListWorld)
    ensures r.state != Idle && r.state != Loading
    ensures r.published != [] && r.published[|r.published| - 1] == r.state
    ensures r.requestedPages == w.requestedPages || r.requestedPages == w.requestedPages + [1]
    ensures r.isLoadingMore == w.isLoadingMore
  {
    if !forceRefresh && ServesFromCache(w.cached) then
      w.(episodes := w.cached.value, state := Success,
         cacheCalls := w.cacheCalls + [LoadCall], published := w.published + [Success])
    else
      var before :=
        if forceRefresh then w.(cached := None, cacheCalls := w.cacheCalls + [ClearCall])
        else w.(cacheCalls := w.cacheCalls + [LoadCall]);
      var loading := before.(state := Loading, published := before.published + [Loading],
                             requestedPages := before.requestedPages + [1]);
      match page1
      case Fetched(response) =>
        loading.(episodes := response.results, cached := Some(response.results),
                 cacheCalls := loading.cacheCalls + [SaveCall(response.results)],
                 state := Success, published := loading.published + [Success],
                 currentPage := 1, totalPages := response.info.pages)
      case Failed(error) =>
        loading.(episodes := [], state := Failure(FailureMessage(error)),
                 published := loading.published + [Failure(FailureMessage(error))])
  }

  /**
   * The guard of `loadMoreIfNeeded`: no load in flight, pages remain, and the
   * row that appeared is the last one (rows are compared by identity, `id`).
   */
  predicate CanLoadMore(w: ListWorld, current: Episode)
  {
    && !w.isLoadingMore
    && w.currentPage < w.totalPages
    && w.episodes != []
    && w.episodes[|w.episodes| - 1].id == current.id
  }

  /** `loadMoreIfNeeded(currentEpisode:)`, given what fetching the next page would produce. */
  function LoadMore(w: ListWorld, current: Episode, next: FetchOutcome<EpisodeResponse>): (r: ListWorld)
    ensures w.episodes <= r.episodes
    ensures r.state == w.state && r.published == w.published
    ensures r.isLoadingMore == w.isLoadingMore
  {
    if !CanLoadMore(w, current) then w
    else
      var asked := w.(requestedPages := w.requestedPages + [w.currentPage + 1]);
      match next
      case Fetched(response) =>
        var all := w.episodes + response.results;
        asked.(episodes := all, cached := Some(all), cacheCalls := w.cacheCalls + [SaveCall(all)],
               currentPage := w.currentPage + 1, totalPages := response.info.pages)
      case Failed(_) => asked
  }

  /** `performBackgroundRefresh()`, given what fetching page 1 would produce. */
  function BackgroundRefresh(w: ListWorld, page1: FetchOutcome<EpisodeResponse>): (r: ListWorld)
    ensures r.state == w.state && r.published == w.published
    ensures r.requestedPages == w.requestedPages + [1]
    ensures r.isLoadingMore == w.isLoadingMore
  {
    var asked := w.(requestedPages := w.requestedPages + [1]);
    match page1
    case Fetched(response) =>
      asked.(episodes := response.results, cached := Some(response.results),
             cacheCalls := w.cacheCalls + [SaveCall(response.results)],
             currentPage := 1, totalPages := response.info.pages)
    case Failed(_) => asked
  }

  class EpisodeListViewModel {
    var episodes: seq<Episode>
    var state: ListState
    var currentPage: int
    var totalPages: int
    var isLoadingMore: bool
    const cache: EpisodeCache
    ghost var requestedPages: seq<int>
    ghost var published: seq<ListState>

    ghost function World(): ListWorld
      reads this, cache
    {
      ListWorld(episodes, state, currentPage, totalPages, isLoadingMore,
                cache.stored, cache.calls, requestedPages, published)
    }

    constructor(cache: EpisodeCache)
      ensures this.cache == cache
      ensures World() == Initial(cache.stored, cache.calls)
    {
      episodes := [];
      state := Idle;
      currentPage := 1;
      totalPages := 1;
      isLoadingMore := false;
      this.cache := cache;
      requestedPages := [];
      published := [];
    }

    method FetchEpisodes(forceRefresh: bool, page1: FetchOutcome<EpisodeResponse>)
      modifies this, cache
      ensures World() == Fetch(old(World()), forceRefresh, page1)
    {
      if forceRefresh {
        cache.ClearEpisodesCache();
      } else {
        var cachedEpisodes := cache.LoadEpisodes();
        if cachedEpisodes.Some? && cachedEpisodes.value != [] {
          episodes := cachedEpisodes.value;
          state := Success;
          published := published + [state];
          return;
        }
      }
      state := Loading;
      published := published + [state];
      requestedPages := requestedPages + [1];
      match page1 {
        case Fetched(response) =>
          episodes := response.results;
          cache.SaveEpisodes(episodes);
          state := Success;
          published := published + [state];
          currentPage := 1;
          totalPages := response.info.pages;
        case Failed(error) =>
          episodes := [];
          state := Failure(FailureMessage(error));
          published := published + [state];
      }
    }

    method LoadMoreIfNeeded(currentEpisode: Episode, next: FetchOutcome<EpisodeResponse>)
      modifies this, cache
      ensures World() == LoadMore(old(World()), currentEpisode, next)
    {
      if isLoadingMore || currentPage >= totalPages || episodes == []
         || episodes[|episodes| - 1].id != currentEpisode.id {
        return;
      }
      isLoadingMore := true;
      requestedPages := requestedPages + [currentPage + 1];
      match next {
        case Fetched(response) =>
          episodes := episodes + response.results;
          cache.SaveEpisodes(episodes);
          currentPage := currentPage + 1;
          totalPages := response.info.pages;
        case Failed(_) =>
      }
      isLoadingMore := false;
    }

    method PerformBackgroundRefresh(page1: FetchOutcome<EpisodeResponse>) returns (ok: bool)
      modifies this, cache
      ensures ok <==> page1.Fetched?
      ensures World() == BackgroundRefresh(old(World()), page1)
    {
      requestedPages := requestedPages + [1];
      match page1 {
        case Fetched(response) =>
          episodes := response.results;
          cache.SaveEpisodes(episodes);
          currentPage := 1;
          totalPages := response.info.pages;
          ok := true;
        case Failed(_) =>
          ok := false;
      }
    }
  }

  // Properties of the transitions

  /** A non-empty cached list, without a forced refresh, is shown as is; nothing is requested and the cursor stays. */
  lemma FetchServedFromCache(w: ListWorld, page1: FetchOutcome<EpisodeResponse>)
    requires ServesFromCache(w.cached)
    ensures var r := Fetch(w, false, page1);
      && r.episodes == w.cached.value && r.state == Success
      && r.requestedPages == w.requestedPages
      && r.currentPage == w.currentPage && r.totalPages == w.totalPages
      && r.cached == w.cached && r.cacheCalls == w.cacheCalls + [LoadCall]
  {
  }

  /** Without a usable cache, page 1 replaces the episodes, is written to the cache, and the list succeeds. */
  lemma FetchFromNetwork(w: ListWorld, forceRefresh: bool, response: EpisodeResponse)
    requires forceRefresh || !ServesFromCache(w.cached)
    ensures var r := Fetch(w, forceRefresh, Fetched(response));
      && r.episodes == response.results && r.state == Success
      && r.cached == Some(response.results)
      && r.currentPage == 1 && r.totalPages == response.info.pages
      && r.requestedPages == w.requestedPages + [1]
      && r.published == w.published + [Loading, Success]
  {
  }

  /** A transport failure of the full fetch empties the list and shows "Network error". */
  lemma FetchTransportFailure(w: ListWorld, forceRefresh: bool)
    requires forceRefresh || !ServesFromCache(w.cached)
    ensures var r := Fetch(w, forceRefresh, Failed(Transport));
      r.state == Failure("Network error") && r.episodes == [] && r.published == w.published + [Loading, r.state]
  {
  }

  /** Any other failure of the full fetch empties the list and shows "Decoding error". */
  lemma FetchOtherFailure(w: ListWorld, forceRefresh: bool)
    requires forceRefresh || !ServesFromCache(w.cached)
    ensures var r := Fetch(w, forceRefresh, Failed(Other));
      r.state == Failure("Decoding error") && r.episodes == [] && r.published == w.published + [Loading, r.state]
  {
  }

  /** A forced refresh clears the cache first and always asks for page 1, whatever the cache holds. */
  lemma ForceRefreshClearsThenFetches(w: ListWorld, page1: FetchOutcome<EpisodeResponse>)
    ensures var r := Fetch(w, true, page1);
      && |r.cacheCalls| > |w.cacheCalls| && r.cacheCalls[|w.cacheCalls|] == ClearCall
      && r.requestedPages == w.requestedPages + [1]
      && (page1.Fetched? ==> r.episodes == page1.value.results)
      && (page1.Failed? ==> r.cached == None)
  {
  }

  /** The two failure messages are told apart, and no failure of a full fetch keeps stale episodes. */
  lemma FetchFailureMessages(w: ListWorld, forceRefresh: bool, e: FetchError)
    requires forceRefresh || !ServesFromCache(w.cached)
    ensures Fetch(w, forceRefresh, Failed(e)).state == Failure(FailureMessage(e))
    ensures FailureMessage(Transport) != FailureMessage(Other)
  {
    assert NetworkErrorMessage[0] != DecodingErrorMessage[0];
  }

  /** When the last row appears and pages remain, the next page is requested and appended after the existing rows. */
  lemma LoadMoreAppendsNextPage(w: ListWorld, current: Episode, response: EpisodeResponse)
    requires CanLoadMore(w, current)
    ensures var r := LoadMore(w, current, Fetched(response));
      && r.episodes == w.episodes + response.results
      && r.cached == Some(r.episodes)
      && r.currentPage == w.currentPage + 1 && r.currentPage <= w.totalPages
      && r.totalPages == response.info.pages
      && r.requestedPages == w.requestedPages + [w.currentPage + 1]
      && r.state == w.state && !r.isLoadingMore
  {
  }

  /** A failed page load changes nothing that can be seen: rows, state, cursor and cache stay. */
  lemma LoadMoreFailureIsolated(w: ListWorld, current: Episode, e: FetchError)
    ensures var r := LoadMore(w, current, Failed(e));
      && r.episodes == w.episodes && r.state == w.state
      && r.currentPage == w.currentPage && r.totalPages == w.totalPages
      && r.cached == w.cached && r.cacheCalls == w.cacheCalls && r.isLoadingMore == w.isLoadingMore
  {
  }

  /** A row that is not the last, or no remaining page, triggers nothing at all. */
  lemma LoadMoreGuarded(w: ListWorld, current: Episode, next: FetchOutcome<EpisodeResponse>)
    requires w.currentPage >= w.totalPages || w.episodes == [] || w.episodes[|w.episodes| - 1].id != current.id
    ensures LoadMore(w, current, next) == w
  {
  }

  /** A successful background refresh reports true and replaces the rows with page 1, written through to the cache. */
  lemma BackgroundRefreshSucceeds(w: ListWorld, response: EpisodeResponse)
    ensures var r := BackgroundRefresh(w, Fetched(response));
      && r.episodes == response.results && r.cached == Some(response.results)
      && r.cacheCalls == w.cacheCalls + [SaveCall(response.results)]
      && r.currentPage == 1 && r.totalPages == response.info.pages
  {
  }

  /** A failed background refresh leaves rows, cursor and cache exactly as they were. */
  lemma BackgroundRefreshFailsQuietly(w: ListWorld, e: FetchError)
    ensures var r := BackgroundRefresh(w, Failed(e));
      && r.episodes == w.episodes && r.currentPage == w.currentPage && r.totalPages == w.totalPages
      && r.cached == w.cached && r.cacheCalls == w.cacheCalls
  {
  }

  /** Whatever its outcome, a background refresh never touches the state tag. */
  lemma BackgroundRefreshKeepsState(w: ListWorld, page1: FetchOutcome<EpisodeResponse>)
    ensures BackgroundRefresh(w, page1).state == w.state
    ensures BackgroundRefresh(w, page1).published == w.published
  {
  }

  /**
   * What holds between operations: the cursor is on page 1 or later, `loading`
   * is never left behind, and the state tag is the last value published (idle
   * when nothing has been published yet).
   */
  predicate AtRest(w: ListWorld)
  {
    && w.currentPage >= 1
    && !w.isLoadingMore
    && w.state != Loading
    && (w.published == [] ==> w.state == Idle)
    && (w.published != [] ==> w.published[|w.published| - 1] == w.state)
  }

  /** A fresh view model is at rest; every operation keeps it so. */
  lemma OperationsKeepAtRest(w: ListWorld, force: bool, current: Episode, outcome: FetchOutcome<EpisodeResponse>,
                             cached: Option<seq<Episode>>, calls: seq<CacheCall>)
    requires AtRest(w)
    ensures AtRest(Initial(cached, calls))
    ensures AtRest(Fetch(w, force, outcome))
    ensures AtRest(LoadMore(w, current, outcome))
    ensures AtRest(BackgroundRefresh(w, outcome))
  {
  }

  /** The page cursor points at a page the server reported: on page 1 or later, and not past the total. */
  predicate CursorInRange(w: ListWorld)
  {
    1 <= w.currentPage <= w.totalPages
  }

  /**
   * The cursor stays in range as long as every response reports at least
   * the page it answers; the view model itself takes the reported count
   * unchecked.
   */
  lemma OperationsKeepCursorInRange(w: ListWorld, force: bool, current: Episode, outcome: FetchOutcome<EpisodeResponse>,
                                    cached: Option<seq<Episode>>, calls: seq<CacheCall>)
    requires CursorInRange(w)
    ensures CursorInRange(Initial(cached, calls))
    ensures outcome.Failed? || outcome.value.info.pages >= 1 ==>
      CursorInRange(Fetch(w, force, outcome)) && CursorInRange(BackgroundRefresh(w, outcome))
    ensures outcome.Failed? || outcome.value.info.pages >= w.currentPage + 1 ==>
      CursorInRange(LoadMore(w, current, outcome))
  {
  }

  /** A page 1 that reports no pages at all leaves the cursor past the total. */
  lemma ZeroPageCountLeavesCursorPastTotal(w: ListWorld)
    ensures var r := Fetch(w, true, Fetched(EpisodeResponse(PageInfo(0, 0, None, None), [])));
      r.currentPage == 1 && r.totalPages == 0 && !CursorInRange(r)
  {
  }

  /** After page 1 arrives with episodes, fetching again without force serves them from the cache and asks for nothing. */
  lemma RefetchServedFromCache(w: ListWorld, forceRefresh: bool, response: EpisodeResponse,
                               later: FetchOutcome<EpisodeResponse>)
    requires forceRefresh || !ServesFromCache(w.cached)
    requires response.results != []
    ensures var first := Fetch(w, forceRefresh, Fetched(response));
      var second := Fetch(first, false, later);
      && second.episodes == response.results && second.state == Success
      && second.requestedPages == w.requestedPages + [1]
  {
  }

  /** Scrolling to the bottom once per page: each time the current last row appears, the next page is fetched. */
  function ScrollThrough(w: ListWorld, pages: seq<EpisodeResponse>): ListWorld
    decreases |pages|
  {
    if pages == [] || w.episodes == [] then w
    else ScrollThrough(LoadMore(w, w.episodes[|w.episodes| - 1], Fetched(pages[0])), pages[1..])
  }

  /** The episodes of consecutive pages, in page order. */
  function AllResults(pages: seq<EpisodeResponse>): seq<Episode>
  {
    if pages == [] then [] else pages[0].results + AllResults(pages[1..])
  }

  /**
   * Successive page loads that pass the guard advance the cursor one page at a
   * time, request the pages in order, never pass the total, and append every
   * page's episodes in order; the state tag is left alone.
   */
  lemma {:induction false} ScrollThroughPages(w: ListWorld, pages: seq<EpisodeResponse>)
    requires w.episodes != [] && !w.isLoadingMore
    requires w.currentPage + |pages| <= w.totalPages
    requires forall i :: 0 <= i < |pages| ==> pages[i].info.pages == w.totalPages
    ensures var r := ScrollThrough(w, pages);
      && r.episodes == w.episodes + AllResults(pages)
      && r.currentPage == w.currentPage + |pages| && r.currentPage <= r.totalPages
      && r.totalPages == w.totalPages
      && r.requestedPages == w.requestedPages + seq(|pages|, i => w.currentPage + 1 + i)
      && r.state == w.state
      && (pages != [] ==> r.cached == Some(r.episodes))
    decreases |pages|
  {
    if pages == [] {
      assert w.requestedPages + seq(0, i => w.currentPage + 1 + i) == w.requestedPages;
    } else {
      var next := LoadMore(w, w.episodes[|w.episodes| - 1], Fetched(pages[0]));
      assert next.episodes == w.episodes + pages[0].results;
      ScrollThroughPages(next, pages[1..]);
      assert w.episodes + pages[0].results + AllResults(pages[1..]) == w.episodes + AllResults(pages);
      assert next.requestedPages + seq(|pages| - 1, i => next.currentPage + 1 + i)
          == w.requestedPages + seq(|pages|, i => w.currentPage + 1 + i);
    }
  }
}
