# RickAndMortyEpisodes — a verified model of the data layer

RickAndMortyEpisodes is an iOS app that lists the episodes of the Rick and
Morty API, pages through them, caches them on the device, shows the
characters of an episode and loads and exports one character's details.
This project models the logic behind the screens, in Dafny:

- the episode list view model (`EpisodeListViewModel`): its episodes, state
  tag (`idle | loading | success | failure(message)`), page cursor and
  in-flight flag, and its three operations `fetchEpisodes(forceRefresh:)`,
  `loadMoreIfNeeded(currentEpisode:)` and `performBackgroundRefresh()`;
- the collaborators it is built on: the state enum, the fetch outcome and
  the episode cache with save, load and clear (`ListProtocols`);
- the cache service: snapshots of the episode and character lists under
  two keys of an injected key-value store (`Caching`);
- character-id extraction from character URLs (`EpisodeDetail`), on top of a
  model of the Swift text operations it uses: `split(separator:)`, `.last`,
  `Int(String)`, `"\(n)"` and `%02d` (`SwiftText`);
- the character loader state machine and its hand-written equality
  (`CharacterLoader`);
- the character detail projections, export dictionary and export file name
  (`CharacterDetail`);
- the `Episode` record, its wire keys and its keyed JSON mapping (`Episodes`,
  `Json`), the API request URLs and page envelope (`Api`);
- the preview mock factory: mock data, page envelopes, the mock fetcher's
  answer rule, the in-memory mock cache and the preview scenarios
  (`PreviewMocks`).

Every awaited call to a fetcher is an atomic step here: the operation takes
the fetcher's outcome, `Fetched(value)` or `Failed(Transport | Other)`, as a
parameter (`Transport` is a `URLError`, `Other` any other error). The
stateful objects are classes whose methods are proved against pure
transition functions (`ensures World() == Fetch(old(World()), ...)`). The
properties are lemmas about those functions. Ghost logs record what a test
double would observe: calls made on the cache, pages requested, and every
value assigned to a published `state`.

`RickAndMortyEpisodes/ViewModel/EpisodeListViewModel.swift` is an empty
implementation kept for test-driven development. Its `fetchEpisodes()` takes
no argument and there is no `performBackgroundRefresh`. The behaviour
modelled here comes from two places:

- `RickAndMortyEpisodesTests/EpisodeListViewModelTests.swift`: a non-empty
  cache is served unless the refresh is forced (lines 24-35, 88-101), page 1
  replaces the list (37-48), a failure shows "Network error" for a
  `URLError` and "Decoding error" otherwise (50-59, 76-86), the next page is
  appended when the last row appears and the reported page count allows it
  (61-74), and the background refresh returns whether page 1 arrived
  (103-128);
- the call sites `EpisodeListView.swift:21,39,52,57` and
  `BackgroundTaskManager.swift:85`.

The same snapshot mixes revisions. `EpisodeCaching` has no
`clearEpisodesCache`, and `MockEpisodeCache` has neither that method nor the
`clearEpisodesCacheCalled` flag, yet the list test uses both
(`EpisodeListViewModelTests.swift:95-97`) and `PreviewMockCache` implements
the method. `EpisodeFetching` has no `fetchCharacter`, yet every conformer
implements it. The model follows the superset interface.

`Character.swift` is not part of this model. The `Character`, `Origin` and
`Location` records take their fields from the initialiser calls in the
repository.

## Model

| member | source | states |
|---|---|---|
| SwiftText.IntToString | RickAndMortyEpisodes/Networking/APIService.swift:16 | `"\(n)"` of an `Int` is a non-empty decimal rendering with no "/"; read back by `ParseIntToString` |
| SwiftText.ParseInt | RickAndMortyEpisodes/ViewModel/EpisodeDetailViewModel.swift:13 | `Int(String)` yields only 64-bit values; it inverts `IntToString` (`ParseIntToString`) |
| SwiftText.Split | RickAndMortyEpisodes/ViewModel/EpisodeDetailViewModel.swift:12 | every piece of `split(separator:)` is non-empty and holds no separator |
| SwiftText.LastPiece | RickAndMortyEpisodes/ViewModel/EpisodeDetailViewModel.swift:12 | `.last` of the split, when there is one, is non-empty and holds no separator |
| SwiftText.TwoDigits | RickAndMortyEpisodes/Supporting/PreviewMockFactory.swift:115 | `%02d` renders at least two characters |
| SwiftText.Remainder | RickAndMortyEpisodes/Supporting/PreviewMockFactory.swift:57-61 | Swift's `%`: equal to Dafny's remainder for a non-negative dividend, otherwise in (-n, 0] and differing from it by 0 or n |
| SwiftText.RemainderAgrees | RickAndMortyEpisodes/Supporting/PreviewMockFactory.swift:57-61 | the Swift remainder agrees with Dafny's exactly when it is not negative, and the two are zero together |
| SwiftText.ModUnique | RickAndMortyEpisodes/Supporting/PreviewMockFactory.swift:57-61 | a remainder in [0, n) that leaves a multiple of n is the remainder |
| SwiftText.ParseIntToString | RickAndMortyEpisodes/ViewModel/EpisodeDetailViewModel.swift:13 | `Int(String)` reads back the decimal rendering of every 64-bit value |
| SwiftText.IntToStringInjective | RickAndMortyEpisodes/Networking/APIService.swift:16 | decimal interpolation of an `Int` is injective |
| SwiftText.SplitTrailingSeparator | RickAndMortyEpisodes/ViewModel/EpisodeDetailViewModel.swift:12 | `split` omits empty pieces, so a trailing separator adds no piece |
| SwiftText.LastPieceAfterSeparator | RickAndMortyEpisodes/ViewModel/EpisodeDetailViewModel.swift:12 | `.last` of the split is the text after the last separator when that text is non-empty |
| SwiftText.OnlySeparatorsHasNoPiece | RickAndMortyEpisodes/ViewModel/EpisodeDetailViewModel.swift:12 | a text made only of separators, the empty text included, splits into no pieces |
| Json.ToStringsFromStrings | RickAndMortyEpisodes/Model/Episode.swift:8 | a list of strings coded as a JSON array decodes back to the same list |
| Episodes.WireKeyNames | RickAndMortyEpisodes/Model/Episode.swift:12-15 | `airDate` is coded as "air_date"; the other six fields under their own names |
| Episodes.WireKeyInjective | RickAndMortyEpisodes/Model/Episode.swift:12-15 | the seven wire keys are pairwise distinct |
| Episodes.Encode | RickAndMortyEpisodes/Model/Episode.swift:3-15 | an episode encodes as an object whose keys are exactly the seven wire keys |
| Episodes.Decode | RickAndMortyEpisodes/Model/Episode.swift:3-15 | decoding succeeds only on an object that has every wire key |
| Episodes.EncodeKeysExact | RickAndMortyEpisodes/Model/Episode.swift:12-15 | an encoded episode has no key other than the seven wire keys |
| Episodes.DecodeAllElementwise | RickAndMortyEpisodes/Model/Episode.swift:3 | an array decodes to `[Episode]` exactly when every element decodes, in order |
| Episodes.DecodeEncode | RickAndMortyEpisodes/Model/Episode.swift:3-15 | decoding an encoded episode gives the same episode |
| Episodes.EncodeList | RickAndMortyEpisodes/Model/Episode.swift:3 | a list of episodes is coded as an array with one element per episode |
| Episodes.DecodeList | RickAndMortyEpisodes/Model/Episode.swift:3 | a decoded list comes from an array, one episode per element |
| Episodes.DecodeEncodeList | RickAndMortyEpisodes/Model/Episode.swift:3-15 | decoding an encoded episode list gives the same list, in order |
| Api.EpisodesURL | RickAndMortyEpisodes/Networking/APIService.swift:12-16 | the page request is the base URL followed by "episode?page=" and the decimal page |
| Api.CharacterURL | RickAndMortyEpisodes/Networking/APIService.swift:25-26 | the character request is the base URL followed by "character/" and the decimal id |
| Api.DefaultPageURL | RickAndMortyEpisodes/Networking/APIService.swift:15-16 | with no page given, page 1 is requested, at ".../api/episode?page=1" |
| Api.EpisodesURLInjective | RickAndMortyEpisodes/Networking/APIService.swift:16 | distinct pages are requested at distinct URLs |
| Api.CharacterURLInjective | RickAndMortyEpisodes/Networking/APIService.swift:26 | distinct character ids are requested at distinct URLs |
| Api.CharacterURLShape | RickAndMortyEpisodes/Networking/APIService.swift:26 | a character URL ends with "/" followed by the decimal id |
| Caching.KeyValueStore.Set | RickAndMortyEpisodes/Persistence/CacheService.swift:5 | `set(_:forKey:)` replaces the value under the key and nothing else |
| Caching.KeyValueStore.DataFor | RickAndMortyEpisodes/Persistence/CacheService.swift:6 | `data(forKey:)` is the stored value, or nil when the key is absent |
| Caching.CacheService.constructor | RickAndMortyEpisodes/Persistence/CacheService.swift:17-19 | the service keeps the store it is injected with |
| Caching.CacheService.SaveEpisodes | RickAndMortyEpisodes/Persistence/CacheService.swift:25-29 | the encoded list is stored under the episodes key; nothing is stored when encoding fails |
| Caching.CacheService.LoadEpisodes | RickAndMortyEpisodes/Persistence/CacheService.swift:32-35 | the decoded blob under the episodes key; nil when there is none or it does not decode |
| Caching.CacheService.SaveCharacters | RickAndMortyEpisodes/Persistence/CacheService.swift:38-42 | the same as saving episodes, under the characters key |
| Caching.CacheService.LoadCharacters | RickAndMortyEpisodes/Persistence/CacheService.swift:45-48 | the same as loading episodes, under the characters key |
| Caching.Saved | RickAndMortyEpisodes/Persistence/CacheService.swift:26-28 | a save touches no other key; the key is present afterwards iff it was before or encoding succeeded |
| Caching.Loaded | RickAndMortyEpisodes/Persistence/CacheService.swift:33-34 | a load returns something only when a blob is stored under the key |
| Caching.EpisodesCodec | RickAndMortyEpisodes/Persistence/CacheService.swift:26-34 | `JSONEncoder`/`JSONDecoder` on `[Episode]`: the keyed mapping followed by a byte serializer; round-trips by `EpisodesCodecRoundTrips` |
| Caching.SaveThenLoad | RickAndMortyEpisodes/Persistence/CacheService.swift:25-35 | with a round-tripping codec, load after save returns the saved list |
| Caching.LoadMissing | RickAndMortyEpisodes/Persistence/CacheService.swift:33 | nothing stored under the key reads as nil |
| Caching.LoadUndecodable | RickAndMortyEpisodes/Persistence/CacheService.swift:34 | a blob that does not decode reads as nil, not as an error |
| Caching.KeysDistinct | RickAndMortyEpisodes/Persistence/CacheService.swift:21-22 | "cachedEpisodes" and "cachedCharacters" are different keys |
| Caching.SnapshotsIndependent | RickAndMortyEpisodes/Persistence/CacheService.swift:21-48 | saving one snapshot leaves what loading the other returns unchanged |
| Caching.SaveOverwrites | RickAndMortyEpisodes/Persistence/CacheService.swift:26-28 | a save replaces the whole snapshot; the earlier one leaves no trace |
| Caching.SaveEncodeFailure | RickAndMortyEpisodes/Persistence/CacheService.swift:26 | when encoding fails the store is unchanged |
| Caching.EpisodesCodecRoundTrips | RickAndMortyEpisodes/Persistence/CacheService.swift:26-34 | the keyed episode mapping composed with any round-tripping serializer round-trips |
| EpisodeDetail.CharacterID | RickAndMortyEpisodes/ViewModel/EpisodeDetailViewModel.swift:12-14 | an id is produced only from a URL with a last non-empty segment, and is a 64-bit value |
| EpisodeDetail.CharacterIDs | RickAndMortyEpisodes/ViewModel/EpisodeDetailViewModel.swift:11-15 | `compactMap` yields at most one id per URL, each a 64-bit value |
| EpisodeDetail.NewEpisodeDetailViewModel | RickAndMortyEpisodes/ViewModel/EpisodeDetailViewModel.swift:8-16 | the episode is kept unchanged and `characterIDs` is the `compactMap` of its character URLs, so every fact proved about `CharacterIDs` holds of the view model; no URLs gives no ids |
| EpisodeDetail.CharacterIDsAppend | RickAndMortyEpisodes/ViewModel/EpisodeDetailViewModel.swift:11-15 | extraction is per URL and keeps order: the ids of a concatenation are the concatenated ids |
| EpisodeDetail.CharacterIDsFromURLs | RickAndMortyEpisodes/ViewModel/EpisodeDetailViewModel.swift:11-15 | every extracted id is the id of some URL of the episode |
| EpisodeDetail.CharacterIDsAllNumeric | RickAndMortyEpisodes/ViewModel/EpisodeDetailViewModel.swift:11-15 | when every URL has an id, the ids are exactly those, one per URL, in order |
| EpisodeDetail.CharacterIDTrailingSlash | RickAndMortyEpisodes/ViewModel/EpisodeDetailViewModel.swift:12 | a trailing "/" does not change the extracted id |
| EpisodeDetail.CharacterIDOfSlashes | RickAndMortyEpisodes/ViewModel/EpisodeDetailViewModel.swift:12-13 | a URL with no non-empty segment, such as "", yields no id |
| EpisodeDetail.CharacterIDNotNumeric | RickAndMortyEpisodes/ViewModel/EpisodeDetailViewModel.swift:12-13 | a URL whose last segment is not an integer is dropped, not an error |
| EpisodeDetail.CharacterIDOfCharacterURL | RickAndMortyEpisodes/ViewModel/EpisodeDetailViewModel.swift:12-13 | the id is read back from the URL the API client builds for it |
| EpisodeDetail.CharacterIDsElementwise | RickAndMortyEpisodes/ViewModel/EpisodeDetailViewModel.swift:11-15 | when every URL names an id, the extracted ids are exactly those ids, in the URLs' order, none dropped |
| EpisodeDetail.CharacterIDsOfCharacterURLs | RickAndMortyEpisodes/ViewModel/EpisodeDetailViewModel.swift:11-15 | a list of character URLs yields exactly their ids, in order |
| EpisodeDetail.TwoCharacterURLs | RickAndMortyEpisodesTests/EpisodeDetailViewModelTests.swift:13-31 | ".../character/1" and ".../character/42" yield [1, 42], and a view model built for the test's episode holds `characterIDs == [1, 42]` |
| ListProtocols.ListStateEquality | RickAndMortyEpisodes/ViewModel/EpisodeListViewModelProtocols.swift:4-9 | two failures are equal iff their messages are; distinct tags are never equal |
| ListProtocols.EpisodeCache.constructor | RickAndMortyEpisodesTests/TestUtils/MockEpisodeCache.swift:6 | a cache starts with the given snapshot, absent or present |
| ListProtocols.EpisodeCache.SaveEpisodes | RickAndMortyEpisodes/ViewModel/EpisodeListViewModelProtocols.swift:26 | saving replaces the snapshot and is logged |
| ListProtocols.EpisodeCache.LoadEpisodes | RickAndMortyEpisodes/ViewModel/EpisodeListViewModelProtocols.swift:27 | loading returns the snapshot, absent (nil) as distinct from present and empty |
| ListProtocols.EpisodeCache.ClearEpisodesCache | RickAndMortyEpisodes/Supporting/PreviewMockFactory.swift:197-199 | clearing removes the snapshot and is logged |
| EpisodeList.EpisodeListViewModel.constructor | RickAndMortyEpisodes/ViewModel/EpisodeListViewModel.swift:5-13 | a fresh view model is idle with no episodes, on page 1 of 1 |
| EpisodeList.EpisodeListViewModel.FetchEpisodes | RickAndMortyEpisodesTests/EpisodeListViewModelTests.swift:24-101 | the fields, cache and logs after the call are the `Fetch` transition of those before |
| EpisodeList.EpisodeListViewModel.LoadMoreIfNeeded | RickAndMortyEpisodesTests/EpisodeListViewModelTests.swift:61-74 | the fields, cache and logs after the call are the `LoadMore` transition of those before |
| EpisodeList.EpisodeListViewModel.PerformBackgroundRefresh | RickAndMortyEpisodesTests/EpisodeListViewModelTests.swift:103-128 | returns true iff page 1 arrived; the new fields are the `BackgroundRefresh` transition |
| EpisodeList.Fetch | RickAndMortyEpisodesTests/EpisodeListViewModelTests.swift:24-101 | a fetch ends in success or failure, never idle or loading, with that state the last one published, at most page 1 requested, and the in-flight flag untouched |
| EpisodeList.LoadMore | RickAndMortyEpisodesTests/EpisodeListViewModelTests.swift:61-74 | loading more only appends (the old rows are a prefix of the new) and never changes or publishes the state |
| EpisodeList.CanLoadMore | RickAndMortyEpisodes/View/EpisodeListView.swift:39 | the guard: no load in flight, pages remain, and the row that appeared has the last row's id |
| EpisodeList.BackgroundRefresh | RickAndMortyEpisodes/Supporting/BackgroundTaskManager.swift:85 | a background refresh always requests page 1 and never changes or publishes the state |
| EpisodeList.FetchServedFromCache | RickAndMortyEpisodesTests/EpisodeListViewModelTests.swift:24-35 | a non-empty cached list without force is shown as is, with success, and no page is requested |
| EpisodeList.FetchFromNetwork | RickAndMortyEpisodesTests/EpisodeListViewModelTests.swift:37-48 | without a usable cache, page 1 replaces the episodes, is saved, and the list shows loading then success |
| EpisodeList.FetchTransportFailure | RickAndMortyEpisodesTests/EpisodeListViewModelTests.swift:50-59 | a transport failure shows failure("Network error") with no episodes |
| EpisodeList.FetchOtherFailure | RickAndMortyEpisodesTests/EpisodeListViewModelTests.swift:76-86 | any other failure shows failure("Decoding error") with no episodes |
| EpisodeList.FetchFailureMessages | RickAndMortyEpisodesTests/EpisodeListViewModelTests.swift:50-86 | the failure message depends on the kind of error, and the two messages differ |
| EpisodeList.ForceRefreshClearsThenFetches | RickAndMortyEpisodesTests/EpisodeListViewModelTests.swift:88-101 | a forced fetch clears the cache first and requests page 1 even when the cache holds episodes |
| EpisodeList.LoadMoreAppendsNextPage | RickAndMortyEpisodesTests/EpisodeListViewModelTests.swift:61-74 | when the last row appears and pages remain, page currentPage+1 is appended after the existing rows |
| EpisodeList.LoadMoreFailureIsolated | RickAndMortyEpisodes/View/EpisodeListView.swift:39 | a failed page load is swallowed: rows, state, cursor and cache stay |
| EpisodeList.LoadMoreGuarded | RickAndMortyEpisodes/View/EpisodeListView.swift:39 | a row other than the last, or no remaining page, changes nothing |
| EpisodeList.BackgroundRefreshSucceeds | RickAndMortyEpisodesTests/EpisodeListViewModelTests.swift:103-116 | a successful refresh replaces the rows with page 1 and saves them to the cache |
| EpisodeList.BackgroundRefreshFailsQuietly | RickAndMortyEpisodesTests/EpisodeListViewModelTests.swift:118-128 | a failed refresh leaves rows, cursor and cache as they were |
| EpisodeList.BackgroundRefreshKeepsState | RickAndMortyEpisodes/Supporting/BackgroundTaskManager.swift:85 | a background refresh never publishes a state |
| EpisodeList.OperationsKeepAtRest | RickAndMortyEpisodes/ViewModel/EpisodeListViewModelProtocols.swift:4-9 | a fresh model starts idle; every operation ends with the cursor on page 1 or later, nothing in flight, no lingering loading, and the state the last value published |
| EpisodeList.OperationsKeepCursorInRange | RickAndMortyEpisodesTests/EpisodeListViewModelTests.swift:61-74 | the cursor stays within 1..totalPages as long as each response reports at least the page it answers |
| EpisodeList.ZeroPageCountLeavesCursorPastTotal | RickAndMortyEpisodesTests/EpisodeListViewModelTests.swift:37-48 | the reported page count is taken unchecked: a page 1 reporting 0 pages leaves the cursor on page 1 of 0 |
| EpisodeList.RefetchServedFromCache | RickAndMortyEpisodes/View/EpisodeListView.swift:57 | once page 1 has arrived, an unforced fetch serves it from the cache without a request |
| EpisodeList.ScrollThroughPages | RickAndMortyEpisodesTests/EpisodeListViewModelTests.swift:61-74 | scrolling to the bottom once per page (the last-row trigger of RickAndMortyEpisodes/View/EpisodeListView.swift:39) requests pages currentPage+1, +2, ... in order and appends each page's rows in order |
| CharacterLoader.Same | RickAndMortyEpisodes/ViewModel/CharacterDetailLoaderViewModel.swift:12-23 | the hand-written `==`; characterised by `SameCharacterised` |
| CharacterLoader.IsSuccess | RickAndMortyEpisodes/ViewModel/CharacterDetailLoaderViewModel.swift:27-30 | `isSuccess`; true exactly for success, by `SameRespectsIsSuccess` |
| CharacterLoader.Loaded | RickAndMortyEpisodes/ViewModel/CharacterDetailLoaderViewModel.swift:53-58 | success holds exactly the fetched character; any error gives failure with the fixed message |
| CharacterLoader.SameCharacterised | RickAndMortyEpisodes/ViewModel/CharacterDetailLoaderViewModel.swift:12-23 | `==` holds exactly for like tags, with failures also comparing messages |
| CharacterLoader.SameIgnoresCharacter | RickAndMortyEpisodes/ViewModel/CharacterDetailLoaderViewModel.swift:18-19 | any two successes are equal whatever characters they hold |
| CharacterLoader.SameIsEquivalence | RickAndMortyEpisodes/ViewModel/CharacterDetailLoaderViewModel.swift:12-23 | `==` is reflexive, symmetric and transitive |
| CharacterLoader.SameRespectsIsSuccess | RickAndMortyEpisodes/ViewModel/CharacterDetailLoaderViewModel.swift:27-30 | `isSuccess` is true iff the state is a success, and equal states agree on it |
| CharacterLoader.CharacterDetailLoaderViewModel.constructor | RickAndMortyEpisodes/ViewModel/CharacterDetailLoaderViewModel.swift:43-48 | the loader starts idle |
| CharacterLoader.CharacterDetailLoaderViewModel.LoadCharacter | RickAndMortyEpisodes/ViewModel/CharacterDetailLoaderViewModel.swift:51-59 | publishes loading, requests the id, then publishes the outcome's state |
| CharacterLoader.CharacterDetailLoaderViewModel.Reset | RickAndMortyEpisodes/ViewModel/CharacterDetailLoaderViewModel.swift:62-64 | sets idle from any state |
| CharacterDetail.Name | RickAndMortyEpisodes/ViewModel/CharacterDetailViewModel.swift:7 | `name`; passes the character's name through, by `ProjectionsOfCharacter` |
| CharacterDetail.Status | RickAndMortyEpisodes/ViewModel/CharacterDetailViewModel.swift:8 | `status`; passed through, by `ProjectionsOfCharacter` |
| CharacterDetail.Species | RickAndMortyEpisodes/ViewModel/CharacterDetailViewModel.swift:9 | `species`; passed through, by `ProjectionsOfCharacter` |
| CharacterDetail.OriginName | RickAndMortyEpisodes/ViewModel/CharacterDetailViewModel.swift:10 | `originName`; the origin's name, by `ProjectionsOfCharacter` |
| CharacterDetail.EpisodeCount | RickAndMortyEpisodes/ViewModel/CharacterDetailViewModel.swift:11 | `episodeCount`; the number of episode URLs, by `ProjectionsOfCharacter` |
| CharacterDetail.ExportFileName | RickAndMortyEpisodes/ViewModel/CharacterDetailViewModel.swift:26 | the file name starts with "character_" and ends with "_details.json" |
| CharacterDetail.ExportDictionary | RickAndMortyEpisodes/ViewModel/CharacterDetailViewModel.swift:18-24 | the export has exactly the keys name, status, species, origin and episodeCount |
| CharacterDetail.ProjectionsOfCharacter | RickAndMortyEpisodes/ViewModel/CharacterDetailViewModel.swift:7-11 | name, status, species and origin name are passed through; episodeCount is the number of episodes |
| CharacterDetail.ExportMatchesProjections | RickAndMortyEpisodes/ViewModel/CharacterDetailViewModel.swift:18-24 | each export key holds the matching projection |
| CharacterDetail.ExportFileNameInjective | RickAndMortyEpisodes/ViewModel/CharacterDetailViewModel.swift:26 | two characters whose export file names are equal have equal ids, so distinct ids never share a file |
| CharacterDetail.ExportFileNameExample | RickAndMortyEpisodes/ViewModel/CharacterDetailViewModel.swift:26 | character 1 is exported to "character_1_details.json" |
| PreviewMocks.MockEpisodes | RickAndMortyEpisodes/Supporting/PreviewMockFactory.swift:8-47 | three episodes with ids 1, 2, 3, two character URLs each |
| PreviewMocks.MockCharacter | RickAndMortyEpisodes/Supporting/PreviewMockFactory.swift:50-68 | defined for every id that does not trap (non-negative, or a negative multiple of 30); name, status and species are names[id%6], statuses[id%3], species[id%5]; "Male" iff id is even; the URL is the character URL |
| PreviewMocks.MockCharacterIndexable | RickAndMortyEpisodes/Supporting/PreviewMockFactory.swift:57-59 | all three lookups with Swift's `%` are in range exactly when the id is non-negative or a multiple of 30 |
| PreviewMocks.MockCharacterNegativeMultiple | RickAndMortyEpisodes/Supporting/PreviewMockFactory.swift:57-61 | id -30 gives Rick Sanchez, Alive, Human, Male |
| PreviewMocks.MockPageInfo | RickAndMortyEpisodes/Supporting/PreviewMockFactory.swift:72-79 | count and pages as given; a next link iff hasNext; never a previous link |
| PreviewMocks.MockEpisodeResponse | RickAndMortyEpisodes/Supporting/PreviewMockFactory.swift:82-90 | the results are the episodes, the count their number, the pages 1, a next link iff asked |
| PreviewMocks.EmptyEpisodeList | RickAndMortyEpisodes/Supporting/PreviewMockFactory.swift:93-95 | the empty list |
| PreviewMocks.SingleEpisode | RickAndMortyEpisodes/Supporting/PreviewMockFactory.swift:97-107 | episode 1 with one character URL |
| PreviewMocks.LongEpisodeList | RickAndMortyEpisodes/Supporting/PreviewMockFactory.swift:109-121 | `(1...20).map`: twenty episodes |
| PreviewMocks.LongEpisodeListShape | RickAndMortyEpisodes/Supporting/PreviewMockFactory.swift:109-121 | 20 episodes, ids 1 to 20 in order, named "Episode i", coded "S01E" + two-digit i |
| PreviewMocks.LongEpisodeListEnds | RickAndMortyEpisodesTests/PreviewMockFactoryTests.swift:40-50 | the first is "Episode 1" / "S01E01", the last "Episode 20" / "S01E20" |
| PreviewMocks.LongEpisodeListIdsDistinct | RickAndMortyEpisodes/Supporting/PreviewMockFactory.swift:110-111 | no two rows of the long list share an id |
| PreviewMocks.MockDataExamples | RickAndMortyEpisodesTests/PreviewMockFactoryTests.swift:8-68 | the fixed names and codes, and characters 1 and 2 are "Morty Smith"/Female and "Summer Smith"/Male |
| PreviewMocks.MockCharacterPeriodic | RickAndMortyEpisodes/Supporting/PreviewMockFactory.swift:57-61 | ids six apart get the same name, status and gender |
| PreviewMocks.MockCharacterURLCarriesID | RickAndMortyEpisodes/Supporting/PreviewMockFactory.swift:66 | the episode screen reads the mock character's id back from its URL |
| PreviewMocks.FetchEpisodes | RickAndMortyEpisodes/Supporting/PreviewMockFactory.swift:142-154 | a transport error iff errors are simulated; otherwise the mock envelope of the configured list, one page, with a next link iff page < 2 |
| PreviewMocks.FetchCharacter | RickAndMortyEpisodes/Supporting/PreviewMockFactory.swift:156-165 | a transport error iff errors are simulated; otherwise exactly `MockCharacter(id)`, with that id and its character URL, for every id that does not trap |
| PreviewMocks.PreviewFetcherExamples | RickAndMortyEpisodesTests/PreviewMockFactoryTests.swift:123-171 | the default fetcher answers page 1 with three episodes starting with "Pilot", fails with a transport error when told to, and answers character 1 with "Morty Smith" |
| PreviewMocks.PreviewMockCache.constructor | RickAndMortyEpisodes/Supporting/PreviewMockFactory.swift:173-179 | the cache holds the preloaded list, if any |
| PreviewMocks.PreviewMockCache.SaveEpisodes | RickAndMortyEpisodes/Supporting/PreviewMockFactory.swift:181-187 | saving replaces the stored list |
| PreviewMocks.PreviewMockCache.LoadEpisodes | RickAndMortyEpisodes/Supporting/PreviewMockFactory.swift:189-195 | loading returns the stored list and changes nothing |
| PreviewMocks.PreviewMockCache.ClearEpisodesCache | RickAndMortyEpisodes/Supporting/PreviewMockFactory.swift:197-199 | clearing leaves no stored list |
| PreviewMocks.PreviewCacheRoundTrip | RickAndMortyEpisodesTests/PreviewMockFactoryTests.swift:173-221 | load after save returns the saved list, load after clear returns nil |
| PreviewMocks.ScenarioEpisodes | RickAndMortyEpisodes/Supporting/PreviewMockFactory.swift:249-258 | success 3, loading 0, networkError 0, emptyList 0, slowCache 3, longList 20 episodes |
| PreviewMocks.DisplayName | RickAndMortyEpisodes/Supporting/PreviewMockFactory.swift:238-247 | each scenario's display name; all distinct, by `DisplayNamesDistinct` |
| PreviewMocks.DisplayNamesDistinct | RickAndMortyEpisodes/Supporting/PreviewMockFactory.swift:238-247 | every scenario has its own display name |
| PreviewMocks.Setup | RickAndMortyEpisodes/Supporting/PreviewMockFactory.swift:207-224 | the fetcher fails iff the scenario is networkError; the cache is preloaded iff success; slow iff slowCache |
| PreviewMocks.NetworkErrorPreviewFails | RickAndMortyEpisodes/Supporting/PreviewMockFactory.swift:207-224 | the network-error preview's first fetch shows "Network error" and no episodes |
| PreviewMocks.OtherPreviewsShowEpisodes | RickAndMortyEpisodes/Supporting/PreviewMockFactory.swift:207-224 | every other preview's first fetch succeeds with exactly the configured episodes |
| PreviewMocks.PerformKeepsSinglePage | RickAndMortyEpisodes/Supporting/PreviewMockFactory.swift:72-90 | a fetch, scroll or background refresh answered by the preview fetcher keeps the cursor on the one page there is and requests only page 1 |
| PreviewMocks.RunKeepsSinglePage | RickAndMortyEpisodes/Supporting/PreviewMockFactory.swift:72-90 | so does any sequence of them |
| PreviewMocks.PreviewsNeverLoadMore | RickAndMortyEpisodes/Supporting/PreviewMockFactory.swift:82-90 | the mock envelope reports one page, so in every state a preview reaches, whatever the user does, the pagination guard is closed and no page but page 1 is ever requested |

## Left out

- PreviewMocks.MockCharacter: every negative id that is not a multiple of 30 makes one of the list lookups negative, which traps in Swift; the precondition stands for that trap.
- This snapshot of the code has no time-gated refresh; only `performBackgroundRefresh` is modelled.
- Concurrency: `@MainActor`, `async`/`await`, and overlapping fetches. Each operation is one atomic step, so the in-flight guard of `loadMoreIfNeeded` is modelled but never observed set between operations.
- Network I/O (`URLSession.data`) and the `URL(string:)` failure path (`URLError(.badURL)`). The API client is modelled by the URLs it requests; the view models take the fetcher's outcome as a parameter.
- The byte-level JSON encoder and decoder are library code. The cache service is given a codec, and its round-trip promise is a hypothesis (`RoundTrips`). `Episode`'s keyed mapping to JSON values is modelled and proved.
- `Character`'s `Codable` keys: `Character.swift` is not part of this model, so the character codec stays abstract.
- Read-only access from outside (`private(set)`, `{ get }`) is not enforced; the model's fields are public, but only the operations assign them.
- `Task.sleep` / `Thread.sleep` delays of the preview mocks, and localisation: localised messages are opaque constants (the failed-to-load message is its string-table key).
- `createEpisodeListViewModel` is modelled as the collaborator configuration it builds (`PreviewMocks.Setup`) plus the first fetch, not as object wiring.
- `KeyValueStore.set` accepts any value; the model stores only `Data`, the only kind the cache service writes.
- `Episodes.Decode` accepts any JSON integer as an id; Swift's decoder would also reject values outside 64 bits.
- Swift `Int` overflow on `currentPage + 1` is not modelled: page numbers are unbounded.
- EpisodeList.Fetch: the cursor takes the server's page count unchecked, so `currentPage <= totalPages` holds only for responses that report at least the page they answer (`OperationsKeepCursorInRange`, `ZeroPageCountLeavesCursorPastTotal`); paging follows `info.pages` and ignores `info.next`.
- EpisodeList.FetchFromNetwork: the list operations are proved against the ideal in-memory cache of the tests and previews. The `CacheService` the app injects (`RickAndMortyEpisodesApp.swift:14`) stores nothing when encoding fails, returns only what decodes, and has no `clearEpisodesCache`; it agrees with the ideal cache only for successful saves under a round-tripping codec (`Caching.SaveThenLoad`, `Caching.SaveEncodeFailure`). The list model does not cover the case where encoding fails.
- SwiftText.Split: splits on a Dafny `char` (a Unicode scalar), while Swift's `split(separator:)` compares grapheme clusters, so a "/" followed by a combining mark would split here but not in Swift; API URLs do not contain such sequences.
- `exportCharacterDetails`: the pretty-printed serialisation, the temporary directory and the file write are not modelled, only the dictionary and the file name; `imageURL` is `URL(string:)` library behaviour.
- `formattedAirDate` and the date formatting of the detail view are `DateFormatter` library behaviour.
- `BackgroundTaskManager`'s OS scheduling is not modelled; its only logic, forwarding the refresh result, is `PerformBackgroundRefresh`'s return value.
