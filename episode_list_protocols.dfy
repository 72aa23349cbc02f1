/**
 * The contracts the episode list view model is built on: its state tag, the
 * outcome of a call to the episode fetcher, and the episode cache it is
 * injected with.
 *
 * The fetcher is not an object here: every operation that calls it takes the
 * outcome of that call as a parameter.  The cache is an ideal in-memory
 * cache, as the test double and the preview cache are: `saveEpisodes`
 * replaces the snapshot, `loadEpisodes` returns it (absent or present,
 * possibly empty), `clearEpisodesCache` removes it.  A ghost log records the
 * calls, as the test doubles do.  The cache service the app itself injects
 * behaves so only for saves whose encoding succeeds under a round-tripping
 * codec (`Caching.SaveThenLoad`), and it has no clear.
 */
module ListProtocols {
  import opened Wrappers
  import opened Episodes

  /** `EpisodeListViewModelState`; equality is Swift's synthesised one, i.e. Dafny's `==`. */
  datatype ListState = Idle | Loading | Success | Failure(message: string)

  /** How a fetch can fail: a `URLError` (transport) or any other error. */
  datatype FetchError = Transport | Other

  /** What one awaited call to the fetcher produced. */
  datatype FetchOutcome<T> = Fetched(value: T) | Failed(error: FetchError)

  /** One call made on the cache. */
  datatype CacheCall = SaveCall(episodes: seq<Episode>) | LoadCall | ClearCall

  /** The `EpisodeCaching` collaborator. */
  class EpisodeCache {
    var stored: Option<seq<Episode>>
    ghost var calls: seq<CacheCall>

    constructor(preloaded: Option<seq<Episode>>)
      ensures stored == preloaded && calls == []
    {
      stored := preloaded;
      calls := [];
    }

    method SaveEpisodes(episodes: seq<Episode>)
      modifies this
      ensures stored == Some(episodes)
      ensures calls == old(calls) + [SaveCall(episodes)]
    {
      stored := Some(episodes);
      calls := calls + [SaveCall(episodes)];
    }

    method LoadEpisodes() returns (r: Option<seq<Episode>>)
      modifies this`calls
      ensures r == stored
      ensures calls == old(calls) + [LoadCall]
    {
      r := stored;
      calls := calls + [LoadCall];
    }

    method ClearEpisodesCache()
      modifies this
      ensures stored == None
      ensures calls == old(calls) + [ClearCall]
    {
      stored := None;
      calls := calls + [ClearCall];
    }
  }

  /** Two failure states are equal exactly when their messages are; different tags never are. */
  lemma ListStateEquality(a: string, b: string)
    ensures Failure(a) == Failure(b) <==> a == b
    ensures Idle != Loading && Idle != Success && Loading != Success
    ensures Idle != Failure(a) && Loading != Failure(a) && Success != Failure(a)
  {
  }
}
