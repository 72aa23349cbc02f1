/**
 * The `Episode` record and its `Codable` conformance: every property is
 * written under a wire key, its own name except `airDate`, which travels as
 * "air_date".
 */
module Episodes {
  import opened Wrappers
  import opened Json

  /** One episode as the API delivers it; `Identifiable` through `id`. */
  datatype Episode = Episode(
    id: int,
    name: string,
    airDate: string,
    episode: string,
    characters: seq<string>,
    url: string,
    created: string)

  /** The cases of `Episode.CodingKeys`. */
  datatype CodingKey = Id | Name | AirDate | EpisodeCode | Characters | Url | Created

  /** The raw value of each coding key: the name used on the wire. */
  function WireKey(k: CodingKey): string
  {
    match k
    case Id => "id"
    case Name => "name"
    case AirDate => "air_date"
    case EpisodeCode => "episode"
    case Characters => "characters"
    case Url => "url"
    case Created => "created"
  }

  /** `airDate` travels as "air_date"; the other six properties under their own names. */
  lemma WireKeyNames()
    ensures WireKey(AirDate) == "air_date"
    ensures WireKey(Id) == "id" && WireKey(Name) == "name" && WireKey(EpisodeCode) == "episode"
    ensures WireKey(Characters) == "characters" && WireKey(Url) == "url" && WireKey(Created) == "created"
  {
  }

  /** No two coding keys share a wire name, so no property overwrites another. */
  lemma WireKeyInjective(a: CodingKey, b: CodingKey)
    requires WireKey(a) == WireKey(b)
    ensures a == b
  {
  }

  /** The keyed container an episode encodes into. */
  function Encode(e: Episode): (j: Json)
    ensures j.JObject?
    ensures forall k :: WireKey(k) in j.members
  {
    JObject(map[
      WireKey(Id) := JNumber(e.id),
      WireKey(Name) := JString(e.name),
      WireKey(AirDate) := JString(e.airDate),
      WireKey(EpisodeCode) := JString(e.episode),
      WireKey(Characters) := FromStrings(e.characters),
      WireKey(Url) := JString(e.url),
      WireKey(Created) := JString(e.created)])
  }

  /** An encoded episode carries the seven wire keys and no other key. */
  lemma EncodeKeysExact(e: Episode)
    ensures forall key :: key in Encode(e).members ==> exists k :: WireKey(k) == key
  {
  }

  /** The member under one coding key, if present. */
  function Member(m: map<string, Json>, k: CodingKey): Option<Json>
  {
    if WireKey(k) in m then Some(m[WireKey(k)]) else None
  }

  function StringMember(m: map<string, Json>, k: CodingKey): Option<string>
  {
    match Member(m, k)
    case Some(JString(s)) => Some(s)
    case _ => None
  }

  /**
   * Decoding an episode: every key must be present with the right kind of
   * value (none is optional); keys the record does not know are ignored.
   */
  function Decode(j: Json): (r: Option<Episode>)
    ensures r.Some? ==> j.JObject? && forall k :: WireKey(k) in j.members
  {
    match j
    case JObject(m) =>
      (match (Member(m, Id), StringMember(m, Name), StringMember(m, AirDate), StringMember(m, EpisodeCode),
             Member(m, Characters), StringMember(m, Url), StringMember(m, Created))
      case (Some(JNumber(id)), Some(name), Some(airDate), Some(code), Some(JArray(items)), Some(url), Some(created)) =>
        (match ToStrings(items)
         case Some(characters) => Some(Episode(id, name, airDate, code, characters, url, created))
         case None => None)
      case _ => None)
    case _ => None
  }

  /** Decoding what an episode encodes to gives the episode back. */
  lemma DecodeEncode(e: Episode)
    ensures Decode(Encode(e)) == Some(e)
  {
    var m := Encode(e).members;
    ToStringsFromStrings(e.characters);
    assert Member(m, Id) == Some(JNumber(e.id));
    assert StringMember(m, Name) == Some(e.name);
    assert StringMember(m, AirDate) == Some(e.airDate);
    assert StringMember(m, EpisodeCode) == Some(e.episode);
    assert Member(m, Characters) == Some(FromStrings(e.characters));
    assert StringMember(m, Url) == Some(e.url);
    assert StringMember(m, Created) == Some(e.created);
  }

  /** `[Episode]` encodes as an unkeyed container of keyed containers. */
  function EncodeList(es: seq<Episode>): (j: Json)
    ensures j.JArray? && |j.items| == |es|
  {
    JArray(seq(|es|, i requires 0 <= i < |es| => Encode(es[i])))
  }

  /** Decoding `[Episode]`: one bad element fails the whole list. */
  function DecodeList(j: Json): (r: Option<seq<Episode>>)
    ensures r.Some? ==> j.JArray? && |r.value| == |j.items|
  {
    match j
    case JArray(items) => DecodeAll(items)
    case _ => None
  }

  function DecodeAll(items: seq<Json>): (r: Option<seq<Episode>>)
    ensures r.Some? ==> |r.value| == |items|
  {
    if items == [] then Some([])
    else match (Decode(items[0]), DecodeAll(items[1..]))
      case (Some(e), Some(rest)) => Some([e] + rest)
      case _ => None
  }

  /** A list decodes to the episodes its elements decode to, one by one. */
  lemma {:induction false} DecodeAllElementwise(items: seq<Json>, es: seq<Episode>)
    requires |items| == |es|
    requires forall i :: 0 <= i < |items| ==> Decode(items[i]) == Some(es[i])
    ensures DecodeAll(items) == Some(es)
  {
    if items != [] {
      DecodeAllElementwise(items[1..], es[1..]);
      assert [es[0]] + es[1..] == es;
    }
  }

  lemma DecodeAllEncoded(es: seq<Episode>)
    ensures DecodeAll(EncodeList(es).items) == Some(es)
  {
    var items := EncodeList(es).items;
    forall i | 0 <= i < |items|
      ensures Decode(items[i]) == Some(es[i])
    {
      DecodeEncode(es[i]);
    }
    DecodeAllElementwise(items, es);
  }

  /** Decoding an encoded list of episodes gives the list back, in order. */
  lemma DecodeEncodeList(es: seq<Episode>)
    ensures DecodeList(EncodeList(es)) == Some(es)
  {
    DecodeAllEncoded(es);
  }
}
