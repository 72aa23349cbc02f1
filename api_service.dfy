/**
 * The remote API client: the request URLs it builds and the page envelope it
 * decodes.  The request itself (`URLSession.data`) and the JSON decoding are
 * library calls and stay outside the model; only where the client sends a
 * request is modelled.
 */
module Api {
  import opened Wrappers
  import opened SwiftText
  import opened Episodes

  const BaseURL: string := "https://rickandmortyapi.com/api/"

  /** The page requested when the caller gives none. */
  const DefaultPage: int := 1

  /** Pagination metadata of one response. */
  datatype PageInfo = PageInfo(count: int, pages: int, next: Option<string>, prev: Option<string>)

  /** One page of episodes: metadata plus the episodes of that page. */
  datatype EpisodeResponse = EpisodeResponse(info: PageInfo, results: seq<Episode>)

  /** The URL `fetchEpisodes(page:)` requests. */
  function EpisodesURL(page: int := DefaultPage): (u: string)
    ensures |u| > |BaseURL| && u[..|BaseURL|] == BaseURL
    ensures u[|BaseURL|..] == "episode?page=" + IntToString(page)
  {
    var tail := "episode?page=" + IntToString(page);
    assert (BaseURL + tail)[..|BaseURL|] == BaseURL;
    assert (BaseURL + tail)[|BaseURL|..] == tail;
    BaseURL + tail
  }

  /** The URL `fetchCharacter(id:)` requests. */
  function CharacterURL(id: int): (u: string)
    ensures |u| > |BaseURL| && u[..|BaseURL|] == BaseURL
    ensures u[|BaseURL|..] == "character/" + IntToString(id)
  {
    var tail := "character/" + IntToString(id);
    assert (BaseURL + tail)[..|BaseURL|] == BaseURL;
    assert (BaseURL + tail)[|BaseURL|..] == tail;
    BaseURL + tail
  }

  /** The page-1 request is the one made when no page is given. */
  lemma DefaultPageURL()
    ensures EpisodesURL() == EpisodesURL(1) == "https://rickandmortyapi.com/api/episode?page=1"
  {
    assert IntToString(1) == "1";
  }

  /** Distinct pages are requested at distinct URLs. */
  lemma EpisodesURLInjective(p: int, q: int)
    requires EpisodesURL(p) == EpisodesURL(q)
    ensures p == q
  {
    var ta := "episode?page=" + IntToString(p);
    var tb := "episode?page=" + IntToString(q);
    assert ta == EpisodesURL(p)[|BaseURL|..] == tb;
    assert ta[|"episode?page="|..] == IntToString(p);
    assert tb[|"episode?page="|..] == IntToString(q);
    IntToStringInjective(p, q);
  }

  /** Distinct characters are requested at distinct URLs. */
  lemma CharacterURLInjective(a: int, b: int)
    requires CharacterURL(a) == CharacterURL(b)
    ensures a == b
  {
    var ta := "character/" + IntToString(a);
    var tb := "character/" + IntToString(b);
    assert ta == CharacterURL(a)[|BaseURL|..] == tb;
    assert ta[|"character/"|..] == IntToString(a);
    assert tb[|"character/"|..] == IntToString(b);
    IntToStringInjective(a, b);
  }

  /** A character URL ends with a separator followed by the decimal id. */
  lemma CharacterURLShape(id: int)
    ensures CharacterURL(id) == (BaseURL + "character") + ['/'] + IntToString(id)
  {
    assert BaseURL + "character/" == (BaseURL + "character") + ['/'];
  }
}
