/**
 * The mock data and mock collaborators the previews are built from: fixed
 * episodes, characters picked by index modulo the length of fixed name
 * lists, page envelopes, a fetcher that answers with a configured list or a
 * transport error, an in-memory cache, and the named preview scenarios.
 * Simulated delays are timing only and are not modelled.
 */
module PreviewMocks {
  import opened Wrappers
  import opened SwiftText
  import opened Episodes
  import opened Characters
  import opened Api
  import opened ListProtocols
  import EpisodeList
  import EpisodeDetail

  const Created: string := "2017-11-10T12:56:33.798Z"

  /** The three episodes of `createMockEpisodes`. */
  function MockEpisodes(): (es: seq<Episode>)
    ensures |es| == 3
    ensures forall i :: 0 <= i < 3 ==> es[i].id == i + 1 && |es[i].characters| == 2
  {
    [ Episode(1, "Pilot", "December 2, 2013", "S01E01",
              [CharacterURL(1), CharacterURL(2)], BaseURL + "episode/1", Created),
      Episode(2, "Lawnmower Dog", "December 9, 2013", "S01E02",
              [CharacterURL(3), CharacterURL(4)], BaseURL + "episode/2", Created),
      Episode(3, "Anatomy Park", "December 16, 2013", "S01E03",
              [CharacterURL(5), CharacterURL(6)], BaseURL + "episode/3", Created) ]
  }

  const Names: seq<string> := ["Rick Sanchez", "Morty Smith", "Summer Smith", "Beth Smith", "Jerry Smith", "Birdperson"]
  const SpeciesNames: seq<string> := ["Human", "Alien", "Robot", "Humanoid", "Unknown"]
  const Statuses: seq<string> := ["Alive", "Dead", "Unknown"]

  /**
   * Swift's `%` keeps the sign of `id`, so the three list lookups stay in
   * range exactly when `id` is not negative or is a multiple of 30, the
   * least common multiple of the three list lengths.
   */
  lemma {:induction false} MockCharacterIndexable(id: int)
    ensures (Remainder(id, 6) >= 0 && Remainder(id, 3) >= 0 && Remainder(id, 5) >= 0)
            <==> (id >= 0 || id % 30 == 0)
  {
    RemainderAgrees(id, 6);
    RemainderAgrees(id, 3);
    RemainderAgrees(id, 5);
    var q, r := id / 30, id % 30;
    ModUnique(id, 6, 5 * q + r / 6, r % 6);
    ModUnique(id, 3, 10 * q + r / 3, r % 3);
    ModUnique(id, 5, 6 * q + r / 5, r % 5);
    if r % 6 == 0 && r % 5 == 0 {
      assert r in {0, 6, 12, 18, 24};
    }
  }

  /**
   * `createMockCharacter(id:)`.  The lists are indexed with Swift's `%`;
   * every id for which an index would be negative traps, and those are the
   * ids the precondition leaves out.
   */
  function MockCharacter(id: int): (c: Character)
    requires id >= 0 || id % 30 == 0
    ensures c.id == id
    ensures c.name == Names[id % 6] && c.status == Statuses[id % 3] && c.species == SpeciesNames[id % 5]
    ensures c.gender == (if id % 2 == 0 then "Male" else "Female")
    ensures c.url == CharacterURL(id)
  {
    MockCharacterIndexable(id);
    RemainderAgrees(id, 6);
    RemainderAgrees(id, 3);
    RemainderAgrees(id, 5);
    RemainderAgrees(id, 2);
    Character(
      id, Names[Remainder(id, |Names|)], Statuses[Remainder(id, |Statuses|)],
      SpeciesNames[Remainder(id, |SpeciesNames|)],
      "", if Remainder(id, 2) == 0 then "Male" else "Female",
      Origin("Earth", ""), Location("Earth", ""),
      BaseURL + "character/avatar/" + IntToString(id) + ".jpeg",
      [BaseURL + "episode/1"],
      CharacterURL(id),
      "2017-11-04T18:48:46.250Z")
  }

  /** A negative multiple of 30 does not trap: every lookup lands on the first entry. */
  lemma MockCharacterNegativeMultiple()
    ensures MockCharacter(-30).name == "Rick Sanchez" && MockCharacter(-30).status == "Alive"
    ensures MockCharacter(-30).species == "Human" && MockCharacter(-30).gender == "Male"
  {
  }

  /** The link to the next page every mock envelope with a next page carries. */
  const NextPageURL: string := "https://rickandmortyapi.com/api/episode?page=2"

  /** `createMockPageInfo(count:pages:hasNext:)`. */
  function MockPageInfo(count: int := 3, pages: int := 1, hasNext: bool := false): (info: PageInfo)
    ensures info.count == count && info.pages == pages
    ensures info.next.Some? <==> hasNext
    ensures info.prev == None
  {
    PageInfo(count, pages, if hasNext then Some(NextPageURL) else None, None)
  }

  /** `createMockEpisodeResponse(episodes:hasNextPage:)`: the page count is left at its default of 1. */
  function MockEpisodeResponse(episodes: seq<Episode> := MockEpisodes(), hasNextPage: bool := false): (r: EpisodeResponse)
    ensures r.results == episodes
    ensures r.info.count == |episodes| && r.info.pages == 1
    ensures r.info.next.Some? <==> hasNextPage
  {
    EpisodeResponse(MockPageInfo(|episodes|, hasNext := hasNextPage), episodes)
  }

  function EmptyEpisodeList(): (es: seq<Episode>)
    ensures es == []
  {
    []
  }

  function SingleEpisode(): (e: Episode)
    ensures e.id == 1 && |e.characters| == 1
  {
    Episode(1, "Pilot", "December 2, 2013", "S01E01", [CharacterURL(1)], BaseURL + "episode/1", Created)
  }

  /** Element `id` of `createLongEpisodeList`. */
  function LongListEpisode(id: int): Episode
  {
    Episode(
      id, "Episode " + IntToString(id), "December " + IntToString(id + 1) + ", 2013",
      "S01E" + TwoDigits(id), [CharacterURL(id)], BaseURL + "episode/" + IntToString(id), Created)
  }

  /** `createLongEpisodeList`: `(1...20).map`. */
  function LongEpisodeList(): (es: seq<Episode>)
    ensures |es| == 20
  {
    seq(20, i => LongListEpisode(i + 1))
  }

  /** The long list holds episodes 1 to 20 in order, each with its own number in its name and code. */
  lemma LongEpisodeListShape()
    ensures |LongEpisodeList()| == 20
    ensures forall i :: 0 <= i < 20 ==>
      var e := LongEpisodeList()[i];
      && e.id == i + 1
      && e.name == "Episode " + IntToString(i + 1)
      && e.episode == "S01E" + TwoDigits(i + 1)
      && e.characters == [CharacterURL(i + 1)]
  {
  }

  /** The values the factory tests look for in the long list. */
  lemma LongEpisodeListEnds()
    ensures LongEpisodeList()[0].name == "Episode 1"
    ensures LongEpisodeList()[0].episode == "S01E01"
    ensures LongEpisodeList()[19].name == "Episode 20"
    ensures LongEpisodeList()[19].episode == "S01E20"
  {
    assert IntToString(1) == "1";
    assert IntToString(20) == "20";
  }

  /** Ids differ, so every row of the long list has its own identity. */
  lemma LongEpisodeListIdsDistinct()
    ensures forall i, j :: 0 <= i < j < 20 ==> LongEpisodeList()[i].id != LongEpisodeList()[j].id
  {
    LongEpisodeListShape();
  }

  /** The values the factory tests look for among the fixed episodes and characters. */
  lemma MockDataExamples()
    ensures MockEpisodes()[0].name == "Pilot" && MockEpisodes()[0].episode == "S01E01"
    ensures MockEpisodes()[1].name == "Lawnmower Dog" && MockEpisodes()[2].name == "Anatomy Park"
    ensures SingleEpisode().name == "Pilot"
    ensures MockCharacter(1).name == "Morty Smith" && MockCharacter(1).gender == "Female"
    ensures MockCharacter(2).name == "Summer Smith" && MockCharacter(2).gender == "Male"
  {
  }

  /** Character names repeat with period 6: id and id + 6 get the same name and status. */
  lemma MockCharacterPeriodic(id: int)
    requires id >= 0
    ensures MockCharacter(id + 6).name == MockCharacter(id).name
    ensures MockCharacter(id + 6).status == MockCharacter(id).status
    ensures MockCharacter(id + 6).gender == MockCharacter(id).gender
  {
    assert (id + 6) % 6 == id % 6;
    assert (id + 6) % 3 == id % 3;
    assert (id + 6) % 2 == id % 2;
  }

  /** The id can be read back from the mock character's URL, as the episode screen does. */
  lemma MockCharacterURLCarriesID(id: int)
    requires 0 <= id <= Int64Max
    ensures EpisodeDetail.CharacterID(MockCharacter(id).url) == Some(id)
  {
    EpisodeDetail.CharacterIDOfCharacterURL(id);
  }

  /** `PreviewMockFetcher`: the list it answers with and whether it fails instead. */
  datatype PreviewMockFetcher = PreviewMockFetcher(episodesToReturn: seq<Episode> := MockEpisodes(), shouldSimulateError: bool := false)

  /** `fetchEpisodes(page:)`: a transport error, or the configured list with a next page only before page 2. */
  function FetchEpisodes(f: PreviewMockFetcher, page: int): (r: FetchOutcome<EpisodeResponse>)
    ensures r.Failed? <==> f.shouldSimulateError
    ensures r.Failed? ==> r.error == Transport
    ensures r.Fetched? ==> r.value.results == f.episodesToReturn && (r.value.info.next.Some? <==> page < 2)
    ensures r.Fetched? ==> r.value == MockEpisodeResponse(f.episodesToReturn, page < 2) && r.value.info.pages == 1
  {
    if f.shouldSimulateError then Failed(Transport)
    else Fetched(MockEpisodeResponse(f.episodesToReturn, page < 2))
  }

  /** `fetchCharacter(id:)`: a transport error, or the mock character with that id. */
  function FetchCharacter(f: PreviewMockFetcher, id: int): (r: FetchOutcome<Character>)
    requires f.shouldSimulateError || id >= 0 || id % 30 == 0
    ensures r.Failed? <==> f.shouldSimulateError
    ensures r.Fetched? ==> r.value == MockCharacter(id)
    ensures r.Fetched? ==> r.value.id == id && r.value.url == CharacterURL(id)
  {
    if f.shouldSimulateError then Failed(Transport) else Fetched(MockCharacter(id))
  }

  /** What the fetcher tests look for: the default fetcher answers page 1 with the three mock episodes, and character 1 with Morty Smith. */
  lemma PreviewFetcherExamples()
    ensures var r := FetchEpisodes(PreviewMockFetcher(), 1);
      r.Fetched? && |r.value.results| == 3 && r.value.results[0].name == "Pilot"
    ensures var r := FetchEpisodes(PreviewMockFetcher([], true), 1);
      r == Failed(Transport)
    ensures var r := FetchCharacter(PreviewMockFetcher(shouldSimulateError := false), 1);
      r.Fetched? && r.value.id == 1 && r.value.name == "Morty Smith"
  {
  }

  /** `PreviewMockCache`: an in-memory episode cache, optionally slow (the delay is not modelled). */
  class PreviewMockCache {
    var storedEpisodes: Option<seq<Episode>>
    const simulateSlowAccess: bool

    constructor(preloadedEpisodes: Option<seq<Episode>> := None, simulateSlowAccess: bool := false)
      ensures storedEpisodes == preloadedEpisodes && this.simulateSlowAccess == simulateSlowAccess
    {
      storedEpisodes := preloadedEpisodes;
      this.simulateSlowAccess := simulateSlowAccess;
    }

    method SaveEpisodes(episodes: seq<Episode>)
      modifies this
      ensures storedEpisodes == Some(episodes)
    {
      storedEpisodes := Some(episodes);
    }

    method LoadEpisodes() returns (r: Option<seq<Episode>>)
      ensures r == storedEpisodes
    {
      r := storedEpisodes;
    }

    method ClearEpisodesCache()
      modifies this
      ensures storedEpisodes == None
    {
      storedEpisodes := None;
    }
  }

  /** Save, clear and load on one preview cache, in the order the tests use them. */
  method PreviewCacheRoundTrip(episodes: seq<Episode>) returns (afterSave: Option<seq<Episode>>, afterClear: Option<seq<Episode>>)
    ensures afterSave == Some(episodes)
    ensures afterClear == None
  {
    var cache := new PreviewMockCache(Some(MockEpisodes()));
    cache.SaveEpisodes(episodes);
    afterSave := cache.LoadEpisodes();
    cache.ClearEpisodesCache();
    afterClear := cache.LoadEpisodes();
  }

  /** `PreviewScenario`. */
  datatype PreviewScenario = SuccessScenario | LoadingScenario | NetworkError | EmptyList | SlowCache | LongList

  function DisplayName(s: PreviewScenario): string
  {
    match s
    case SuccessScenario => "Success State"
    case LoadingScenario => "Loading State"
    case NetworkError => "Network Error"
    case EmptyList => "Empty List"
    case SlowCache => "Slow Cache"
    case LongList => "Long List"
  }

  /** The episodes a scenario shows. */
  function ScenarioEpisodes(s: PreviewScenario): (es: seq<Episode>)
    ensures |es| == match s
      case SuccessScenario => 3
      case LoadingScenario => 0
      case NetworkError => 0
      case EmptyList => 0
      case SlowCache => 3
      case LongList => 20
  {
    match s
    case SuccessScenario => MockEpisodes()
    case LoadingScenario => []
    case NetworkError => []
    case EmptyList => []
    case SlowCache => MockEpisodes()
    case LongList => LongEpisodeList()
  }

  /** Every scenario has its own display name. */
  lemma DisplayNamesDistinct(a: PreviewScenario, b: PreviewScenario)
    requires a != b
    ensures DisplayName(a) != DisplayName(b)
  {
  }

  /** How `createEpisodeListViewModel` configures the two collaborators. */
  datatype PreviewSetup = PreviewSetup(fetcher: PreviewMockFetcher, preloaded: Option<seq<Episode>>, slowCache: bool)

  function Setup(scenario: PreviewScenario := SuccessScenario, episodes: seq<Episode> := MockEpisodes()): (p: PreviewSetup)
    ensures p.fetcher.episodesToReturn == episodes
    ensures p.fetcher.shouldSimulateError <==> scenario == NetworkError
    ensures p.preloaded.Some? <==> scenario == SuccessScenario
    ensures p.preloaded.Some? ==> p.preloaded.value == episodes
    ensures p.slowCache <==> scenario == SlowCache
  {
    PreviewSetup(
      PreviewMockFetcher(episodes, scenario == NetworkError),
      if scenario == SuccessScenario then Some(episodes) else None,
      scenario == SlowCache)
  }

  /** The first fetch of a freshly built preview view model. */
  function FirstFetch(scenario: PreviewScenario, episodes: seq<Episode>): EpisodeList.ListWorld
  {
    var p := Setup(scenario, episodes);
    EpisodeList.Fetch(EpisodeList.Initial(p.preloaded, []), false, FetchEpisodes(p.fetcher, 1))
  }

  /** The network-error preview ends its first fetch showing the network error and no episodes. */
  lemma NetworkErrorPreviewFails(episodes: seq<Episode>)
    ensures FirstFetch(NetworkError, episodes).state == Failure(EpisodeList.NetworkErrorMessage)
    ensures FirstFetch(NetworkError, episodes).episodes == []
  {
  }

  /** Every other preview ends its first fetch showing exactly the configured episodes. */
  lemma OtherPreviewsShowEpisodes(scenario: PreviewScenario, episodes: seq<Episode>)
    requires scenario != NetworkError
    ensures FirstFetch(scenario, episodes).state == Success
    ensures FirstFetch(scenario, episodes).episodes == episodes
  {
  }

  /** What a user can do on a preview's list screen: pull to refresh (or open it), scroll a row into view, or let the background refresh run. */
  datatype PreviewAction = FetchAction(forceRefresh: bool) | ScrollAction(current: Episode) | RefreshAction

  /** One action against the preview fetcher: page 1 for a fetch or a refresh, the next page for a scroll. */
  function Perform(w: EpisodeList.ListWorld, f: PreviewMockFetcher, a: PreviewAction): EpisodeList.ListWorld
  {
    match a
    case FetchAction(force) => EpisodeList.Fetch(w, force, FetchEpisodes(f, 1))
    case ScrollAction(current) => EpisodeList.LoadMore(w, current, FetchEpisodes(f, w.currentPage + 1))
    case RefreshAction => EpisodeList.BackgroundRefresh(w, FetchEpisodes(f, 1))
  }

  /** The actions performed one after the other. */
  function Run(w: EpisodeList.ListWorld, f: PreviewMockFetcher, actions: seq<PreviewAction>): EpisodeList.ListWorld
    decreases |actions|
  {
    if actions == [] then w else Run(Perform(w, f, actions[0]), f, actions[1..])
  }

  /** The cursor is on the last page there is, and only page 1 was ever requested. */
  predicate OnSinglePage(w: EpisodeList.ListWorld)
  {
    && w.totalPages <= 1 <= w.currentPage
    && forall i :: 0 <= i < |w.requestedPages| ==> w.requestedPages[i] == 1
  }

  /** Every action keeps a preview on its single page, since every envelope reports one page. */
  lemma PerformKeepsSinglePage(w: EpisodeList.ListWorld, f: PreviewMockFetcher, a: PreviewAction)
    requires OnSinglePage(w)
    ensures OnSinglePage(Perform(w, f, a))
  {
  }

  lemma {:induction false} RunKeepsSinglePage(w: EpisodeList.ListWorld, f: PreviewMockFetcher, actions: seq<PreviewAction>)
    requires OnSinglePage(w)
    ensures OnSinglePage(Run(w, f, actions))
    decreases |actions|
  {
    if actions != [] {
      PerformKeepsSinglePage(w, f, actions[0]);
      RunKeepsSinglePage(Perform(w, f, actions[0]), f, actions[1..]);
    }
  }

  /**
   * A preview never pages: the mock envelope announces a next page for page
   * 1 but reports a page count of 1, and the view model follows the count.
   * Whatever the user does, no second page is ever requested and the
   * pagination guard stays closed.
   */
  lemma PreviewsNeverLoadMore(scenario: PreviewScenario, episodes: seq<Episode>, actions: seq<PreviewAction>, current: Episode)
    ensures var p := Setup(scenario, episodes);
      var w := Run(EpisodeList.Initial(p.preloaded, []), p.fetcher, actions);
      && !EpisodeList.CanLoadMore(w, current)
      && forall i :: 0 <= i < |w.requestedPages| ==> w.requestedPages[i] == 1
  {
    var p := Setup(scenario, episodes);
    RunKeepsSinglePage(EpisodeList.Initial(p.preloaded, []), p.fetcher, actions);
  }
}
