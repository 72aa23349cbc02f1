/**
 * The cache service: snapshots of the episode list and of the character list,
 * each kept as one encoded blob under its own key of an injected key-value
 * store.  A blob that is missing or does not decode reads as no snapshot.
 *
 * `JSONEncoder`/`JSONDecoder` are library code; the service is given them as
 * a `Codec`, and what it promises about loading back what it saved holds for
 * any codec that round-trips (`RoundTrips`).
 */
module Caching {
  import opened Wrappers
  import opened Episodes
  import opened Characters
  import Json

  newtype byte = x: int | 0 <= x < 256

  /** The bytes of one stored value (`Data`). */
  type Data = seq<byte>

  /** An encoder/decoder pair; encoding may fail, as `try? encode` can. */
  datatype Codec<!T> = Codec(encode: T -> Option<Data>, decode: Data -> Option<T>)

  /** Whatever the codec manages to encode, it decodes back to the same value. */
  ghost predicate RoundTrips<T(!new)>(c: Codec<T>)
  {
    forall x :: c.encode(x).Some? ==> c.decode(c.encode(x).value) == Some(x)
  }

  const EpisodesKey: string := "cachedEpisodes"
  const CharactersKey: string := "cachedCharacters"

  /** The store after saving `x` under `key`: overwritten when encoding succeeds, untouched otherwise. */
  function Saved<T>(entries: map<string, Data>, key: string, c: Codec<T>, x: T): (r: map<string, Data>)
    ensures forall k :: k != key ==> (k in r <==> k in entries)
    ensures forall k :: k != key && k in r ==> r[k] == entries[k]
    ensures key in r <==> key in entries || c.encode(x).Some?
  {
    match c.encode(x)
    case Some(d) => entries[key := d]
    case None => entries
  }

  /** What loading from `key` returns: nothing when no blob is stored or it does not decode. */
  function Loaded<T>(entries: map<string, Data>, key: string, c: Codec<T>): (r: Option<T>)
    ensures r.Some? ==> key in entries
  {
    if key in entries then c.decode(entries[key]) else None
  }

  /** The injected `KeyValueStore`: `set` and `data(forKey:)` over an in-memory dictionary. */
  class KeyValueStore {
    var entries: map<string, Data>

    constructor(entries: map<string, Data>)
      ensures this.entries == entries
    {
      this.entries := entries;
    }

    method Set(value: Data, key: string)
      modifies this
      ensures entries == old(entries)[key := value]
    {
      entries := entries[key := value];
    }

    method DataFor(key: string) returns (r: Option<Data>)
      ensures r == if key in entries then Some(entries[key]) else None
    {
      r := if key in entries then Some(entries[key]) else None;
    }
  }

  class CacheService {
    const store: KeyValueStore
    const episodeCodec: Codec<seq<Episode>>
    const characterCodec: Codec<seq<Character>>

    constructor(store: KeyValueStore, episodeCodec: Codec<seq<Episode>>, characterCodec: Codec<seq<Character>>)
      ensures this.store == store && this.episodeCodec == episodeCodec && this.characterCodec == characterCodec
    {
      this.store := store;
      this.episodeCodec := episodeCodec;
      this.characterCodec := characterCodec;
    }

    method SaveEpisodes(episodes: seq<Episode>)
      modifies store
      ensures store.entries == Saved(old(store.entries), EpisodesKey, episodeCodec, episodes)
    {
      var encoded := episodeCodec.encode(episodes);
      if encoded.Some? {
        store.Set(encoded.value, EpisodesKey);
      }
    }

    method LoadEpisodes() returns (r: Option<seq<Episode>>)
      ensures r == Loaded(store.entries, EpisodesKey, episodeCodec)
    {
      var data := store.DataFor(EpisodesKey);
      r := if data.Some? then episodeCodec.decode(data.value) else None;
    }

    method SaveCharacters(characters: seq<Character>)
      modifies store
      ensures store.entries == Saved(old(store.entries), CharactersKey, characterCodec, characters)
    {
      var encoded := characterCodec.encode(characters);
      if encoded.Some? {
        store.Set(encoded.value, CharactersKey);
      }
    }

    method LoadCharacters() returns (r: Option<seq<Character>>)
      ensures r == Loaded(store.entries, CharactersKey, characterCodec)
    {
      var data := store.DataFor(CharactersKey);
      r := if data.Some? then characterCodec.decode(data.value) else None;
    }
  }

  /** Saving and then loading under the same key gives back what was saved. */
  lemma SaveThenLoad<T(!new)>(entries: map<string, Data>, key: string, c: Codec<T>, x: T)
    requires RoundTrips(c) && c.encode(x).Some?
    ensures Loaded(Saved(entries, key, c, x), key, c) == Some(x)
  {
  }

  /** With nothing stored under the key, loading gives nothing. */
  lemma LoadMissing<T>(entries: map<string, Data>, key: string, c: Codec<T>)
    requires key !in entries
    ensures Loaded(entries, key, c) == None
  {
  }

  /** A blob that does not decode reads as no snapshot, not as an error. */
  lemma LoadUndecodable<T>(entries: map<string, Data>, key: string, c: Codec<T>)
    requires key in entries && c.decode(entries[key]) == None
    ensures Loaded(entries, key, c) == None
  {
  }

  /** The two snapshots live under different keys. */
  lemma KeysDistinct()
    ensures EpisodesKey != CharactersKey
  {
    assert EpisodesKey[6] != CharactersKey[6];
  }

  /** Saving episodes leaves the character snapshot as it was, and the other way round. */
  lemma SnapshotsIndependent(entries: map<string, Data>, ec: Codec<seq<Episode>>, cc: Codec<seq<Character>>,
                             es: seq<Episode>, cs: seq<Character>)
    ensures Loaded(Saved(entries, EpisodesKey, ec, es), CharactersKey, cc) == Loaded(entries, CharactersKey, cc)
    ensures Loaded(Saved(entries, CharactersKey, cc, cs), EpisodesKey, ec) == Loaded(entries, EpisodesKey, ec)
  {
    KeysDistinct();
  }

  /** A save replaces the whole snapshot: the earlier one leaves no trace. */
  lemma SaveOverwrites<T>(entries: map<string, Data>, key: string, c: Codec<T>, x: T, y: T)
    requires c.encode(y).Some?
    ensures Saved(Saved(entries, key, c, x), key, c, y) == Saved(entries, key, c, y)
  {
  }

  /** When encoding fails the store is not touched. */
  lemma SaveEncodeFailure<T>(entries: map<string, Data>, key: string, c: Codec<T>, x: T)
    requires c.encode(x) == None
    ensures Saved(entries, key, c, x) == entries
  {
  }

  /**
   * The episodes codec the service uses in production: the keyed-container
   * mapping of `Episode` followed by a serializer of JSON values to bytes.
   */
  function EpisodesCodec(serializer: Codec<Json.Json>): Codec<seq<Episode>>
  {
    Codec(
      (es: seq<Episode>) => serializer.encode(EncodeList(es)),
      (d: Data) => match serializer.decode(d) case Some(j) => DecodeList(j) case None => None)
  }

  /** Given a serializer that round-trips, the episodes codec round-trips. */
  lemma EpisodesCodecRoundTrips(serializer: Codec<Json.Json>)
    requires RoundTrips(serializer)
    ensures RoundTrips(EpisodesCodec(serializer))
  {
    var c := EpisodesCodec(serializer);
    forall es: seq<Episode> | c.encode(es).Some?
      ensures c.decode(c.encode(es).value) == Some(es)
    {
      DecodeEncodeList(es);
    }
  }
}
