/** The `URLSearchParams` object the query string is built with: an ordered list of
    name-value pairs, serialized by the application/x-www-form-urlencoded serializer
    (section 5.2 of the WHATWG URL Standard) as `name=value` entries joined by `&`.
    The percent-encoding of each name and value is left uninterpreted: it is the
    `Encoder` parameter. */
module FormUrlEncoded {
  import opened Text

  /** A percent-encoding of one string (or, as a decoder, its inverse). */
  type Encoder = string -> string

  /** One serialized entry, `name=value`. */
  function Entry(name: string, value: string, encode: Encoder): string {
    encode(name) + "=" + encode(value)
  }

  function Entries(list: seq<(string, string)>, encode: Encoder): seq<string> {
    seq(|list|, i requires 0 <= i < |list| => Entry(list[i].0, list[i].1, encode))
  }

  /** The serialization of a list of pairs (`URLSearchParams.prototype.toString`). */
  function Serialize(list: seq<(string, string)>, encode: Encoder): (s: string)
    ensures s == "" <==> list == []
  {
    var parts := Entries(list, encode);
    assert |parts| >= 1 ==> '=' in parts[0];
    Join(parts, '&')
  }

  /** A `URLSearchParams` object, mutated by `append`. */
  class SearchParams {
    var list: seq<(string, string)>

    constructor()
      ensures list == []
    {
      list := [];
    }

    /** `append(name, value)`: adds a pair at the end, keeping any earlier pair of that name. */
    method Append(name: string, value: string)
      modifies this
      ensures list == old(list) + [(name, value)]
    {
      list := list + [(name, value)];
    }

    function ToString(encode: Encoder): string
      reads this
    {
      Serialize(list, encode)
    }
  }

  /** An encoding the serialization can be read back through: `decode` inverts it, and
      it never writes the two structural characters (the form-urlencoded percent-encode
      set contains both). */
  ghost predicate Invertible(encode: Encoder, decode: Encoder) {
    forall s :: decode(encode(s)) == s && '&' !in encode(s) && '=' !in encode(s)
  }

  /** One entry read back: the name before the first `=`, the value after it. */
  function ParseEntry(entry: string, decode: Encoder): (string, string) {
    var kv := Split(entry, '=');
    (decode(kv[0]), decode(Join(kv[1..], '=')))
  }

  /** A serialized list read back. */
  function Parse(s: string, decode: Encoder): seq<(string, string)> {
    if s == "" then []
    else
      var parts := Split(s, '&');
      seq(|parts|, i requires 0 <= i < |parts| => ParseEntry(parts[i], decode))
  }

  /** Reading a serialization back gives the same pairs, in the same order. */
  lemma ParseSerialize(list: seq<(string, string)>, encode: Encoder, decode: Encoder)
    requires Invertible(encode, decode)
    ensures Parse(Serialize(list, encode), decode) == list
  {
    if list != [] {
      var parts := Entries(list, encode);
      forall i | 0 <= i < |parts|
        ensures '&' !in parts[i]
        ensures parts[i] == Join([encode(list[i].0), encode(list[i].1)], '=')
      {
        assert parts[i] == encode(list[i].0) + "=" + encode(list[i].1);
      }
      SplitJoin(parts, '&');
      var parsed := Parse(Serialize(list, encode), decode);
      assert |parsed| == |list|;
      forall i | 0 <= i < |list|
        ensures parsed[i] == list[i]
      {
        var name, value := encode(list[i].0), encode(list[i].1);
        SplitJoin([name, value], '=');
        assert [name, value][1..] == [value];
      }
    }
  }
}
