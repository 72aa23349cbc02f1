/**
 * The episode detail view model: it keeps the episode and, once, extracts the
 * numeric ids of the characters that appear in it from their URLs.
 */
module EpisodeDetail {
  import opened Wrappers
  import opened SwiftText
  import opened Episodes
  import Api

  /**
   * The id a character URL names: the last non-empty `/`-separated piece,
   * when it reads as an `Int`; `None` otherwise.
   */
  function CharacterID(url: string): (r: Option<int>)
    ensures r.Some? ==> InInt64(r.value)
    ensures r.Some? ==> LastPiece(url, '/').Some?
  {
    match LastPiece(url, '/')
    case None => None
    case Some(piece) => ParseInt(piece)
  }

  /** `compactMap` of `CharacterID` over the URLs: failures dropped, order kept. */
  function CharacterIDs(urls: seq<string>): (ids: seq<int>)
    ensures |ids| <= |urls|
    ensures forall k :: 0 <= k < |ids| ==> InInt64(ids[k])
  {
    if urls == [] then []
    else
      var rest := CharacterIDs(urls[1..]);
      match CharacterID(urls[0])
      case Some(id) => [id] + rest
      case None => rest
  }

  /** The view model's state: the episode it shows and the ids extracted from it. */
  datatype EpisodeDetailViewModel = EpisodeDetailViewModel(episode: Episode, characterIDs: seq<int>)

  /** `init(episode:)`. */
  function NewEpisodeDetailViewModel(episode: Episode): (vm: EpisodeDetailViewModel)
    ensures vm.episode == episode
    ensures vm.characterIDs == CharacterIDs(episode.characters)
    ensures |vm.characterIDs| <= |episode.characters|
    ensures episode.characters == [] ==> vm.characterIDs == []
  {
    EpisodeDetailViewModel(episode, CharacterIDs(episode.characters))
  }

  /** Extraction distributes over concatenation: each URL contributes its own id, in place. */
  lemma {:induction false} CharacterIDsAppend(a: seq<string>, b: seq<string>)
    ensures CharacterIDs(a + b) == CharacterIDs(a) + CharacterIDs(b)
  {
    if a == [] {
      assert a + b == b;
    } else {
      assert (a + b)[1..] == a[1..] + b;
      CharacterIDsAppend(a[1..], b);
    }
  }

  /** Every extracted id comes from one of the URLs. */
  lemma {:induction false} CharacterIDsFromURLs(urls: seq<string>, k: int)
    requires 0 <= k < |CharacterIDs(urls)|
    ensures exists j :: 0 <= j < |urls| && CharacterID(urls[j]) == Some(CharacterIDs(urls)[k])
  {
    var rest := CharacterIDs(urls[1..]);
    match CharacterID(urls[0])
    case Some(id) =>
      if k > 0 {
        CharacterIDsFromURLs(urls[1..], k - 1);
        var j :| 0 <= j < |urls[1..]| && CharacterID(urls[1..][j]) == Some(rest[k - 1]);
        assert CharacterID(urls[j + 1]) == Some(CharacterIDs(urls)[k]);
      } else {
        assert CharacterID(urls[0]) == Some(CharacterIDs(urls)[k]);
      }
    case None =>
      CharacterIDsFromURLs(urls[1..], k);
      var j :| 0 <= j < |urls[1..]| && CharacterID(urls[1..][j]) == Some(rest[k]);
      assert CharacterID(urls[j + 1]) == Some(CharacterIDs(urls)[k]);
  }

  /** When every URL names a character, each yields its id, at its own position. */
  lemma {:induction false} CharacterIDsAllNumeric(urls: seq<string>)
    requires forall j :: 0 <= j < |urls| ==> CharacterID(urls[j]).Some?
    ensures |CharacterIDs(urls)| == |urls|
    ensures forall k :: 0 <= k < |urls| ==> CharacterID(urls[k]) == Some(CharacterIDs(urls)[k])
  {
    if urls != [] {
      CharacterIDsAllNumeric(urls[1..]);
      assert forall k :: 1 <= k < |urls| ==> urls[k] == urls[1..][k - 1];
    }
  }

  /** A trailing `/` does not change the id a URL yields. */
  lemma CharacterIDTrailingSlash(url: string)
    ensures CharacterID(url + "/") == CharacterID(url)
  {
    SplitTrailingSeparator(url, '/');
  }

  /** A URL with no non-empty piece, the empty URL included, yields nothing. */
  lemma CharacterIDOfSlashes(url: string)
    requires forall i :: 0 <= i < |url| ==> url[i] == '/'
    ensures CharacterID(url) == None
  {
    OnlySeparatorsHasNoPiece(url, '/');
  }

  /** Whatever comes before it, a last piece that is not an integer is dropped. */
  lemma CharacterIDNotNumeric(prefix: string, piece: string)
    requires piece != [] && '/' !in piece && ParseInt(piece) == None
    ensures CharacterID(prefix + "/" + piece) == None
    ensures CharacterIDs([prefix + "/" + piece]) == []
  {
    LastPieceAfterSeparator(prefix, '/', piece);
  }

  /** The URL the API client builds for a character yields that character's id. */
  lemma CharacterIDOfCharacterURL(id: int)
    requires InInt64(id)
    ensures CharacterID(Api.CharacterURL(id)) == Some(id)
  {
    Api.CharacterURLShape(id);
    LastPieceAfterSeparator(Api.BaseURL + "character", '/', IntToString(id));
    ParseIntToString(id);
  }

  /** When each URL names an id, the extracted ids are exactly those, in order. */
  lemma {:induction false} CharacterIDsElementwise(urls: seq<string>, ids: seq<int>)
    requires |urls| == |ids|
    requires forall k :: 0 <= k < |urls| ==> CharacterID(urls[k]) == Some(ids[k])
    ensures CharacterIDs(urls) == ids
  {
    if urls != [] {
      CharacterIDsElementwise(urls[1..], ids[1..]);
      assert [ids[0]] + ids[1..] == ids;
    }
  }

  /** Extracting from the character URLs of a list of ids gives the list back. */
  lemma CharacterIDsOfCharacterURLs(ids: seq<int>)
    requires forall k :: 0 <= k < |ids| ==> InInt64(ids[k])
    ensures CharacterIDs(seq(|ids|, k requires 0 <= k < |ids| => Api.CharacterURL(ids[k]))) == ids
  {
    var urls := seq(|ids|, k requires 0 <= k < |ids| => Api.CharacterURL(ids[k]));
    forall k | 0 <= k < |urls|
      ensures CharacterID(urls[k]) == Some(ids[k])
    {
      CharacterIDOfCharacterURL(ids[k]);
    }
    CharacterIDsElementwise(urls, ids);
  }

  /** The unit-test example: a view model built for character URLs 1 and 42 holds the ids [1, 42]. */
  lemma TwoCharacterURLs()
    ensures CharacterIDs(["https://rickandmortyapi.com/api/character/1",
                          "https://rickandmortyapi.com/api/character/42"]) == [1, 42]
    ensures NewEpisodeDetailViewModel(Episode(1, "Pilot", "December 2, 2013", "S01E01",
      ["https://rickandmortyapi.com/api/character/1", "https://rickandmortyapi.com/api/character/42"],
      "", "")).characterIDs == [1, 42]
  {
    assert IntToString(1) == "1";
    assert IntToString(42) == "42";
    assert Api.CharacterURL(1) == "https://rickandmortyapi.com/api/character/1";
    assert Api.CharacterURL(42) == "https://rickandmortyapi.com/api/character/42";
    CharacterIDOfCharacterURL(1);
    CharacterIDOfCharacterURL(42);
    CharacterIDsElementwise([Api.CharacterURL(1), Api.CharacterURL(42)], [1, 42]);
  }
}
