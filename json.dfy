/**
 * JSON values as Swift's `Codable` machinery sees them: the keyed and
 * unkeyed containers a type encodes itself into.  Turning such a value into
 * bytes is the job of `JSONEncoder`/`JSONDecoder` and is not part of this
 * module (see `Caching.Codec`).
 */
module Json {
  import opened Wrappers

  datatype Json =
    | JNull
    | JBool(b: bool)
    | JNumber(n: int)
    | JString(s: string)
    | JArray(items: seq<Json>)
    | JObject(members: map<string, Json>)

  /** An unkeyed container of strings, as `[String]` encodes. */
  function FromStrings(ss: seq<string>): (j: Json)
    ensures j.JArray? && |j.items| == |ss|
    ensures forall i :: 0 <= i < |ss| ==> j.items[i] == JString(ss[i])
  {
    JArray(seq(|ss|, i requires 0 <= i < |ss| => JString(ss[i])))
  }

  /** Decoding `[String]`: every element must be a string. */
  function ToStrings(items: seq<Json>): (r: Option<seq<string>>)
    ensures r.Some? ==> |r.value| == |items|
    ensures r.Some? ==> forall i :: 0 <= i < |items| ==> items[i] == JString(r.value[i])
  {
    if items == [] then Some([])
    else if !items[0].JString? then None
    else match ToStrings(items[1..])
      case None => None
      case Some(rest) => Some([items[0].s] + rest)
  }

  lemma {:induction false} ToStringsFromStrings(ss: seq<string>)
    ensures ToStrings(FromStrings(ss).items) == Some(ss)
  {
    if ss != [] {
      ToStringsFromStrings(ss[1..]);
      assert FromStrings(ss).items[1..] == FromStrings(ss[1..]).items;
      assert [ss[0]] + ss[1..] == ss;
    }
  }
}
