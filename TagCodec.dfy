/** The serialised form of a tag and of a tag list. The app uses `JSONEncoder` /
    `JSONDecoder`; this model uses a length-prefixed encoding over integers, which plays
    the same part: decoding what was encoded gives it back, and malformed data is
    rejected. */
module TagCodec {
  import opened Wrappers
  import opened Model

  /** Foundation's `Data`. */
  type Data = seq<int>

  // ---------------------------------------------------------------------------
  // Strings

  function EncodeString(s: string): (d: Data)
    ensures |d| == 1 + |s| && d[0] == |s|
  {
    [|s|] + seq(|s|, i requires 0 <= i < |s| => s[i] as int)
  }

  /** The code points that are Unicode scalar values, i.e. valid `char`s. */
  predicate IsScalar(n: int) {
    0 <= n < 0xD800 || 0xE000 <= n < 0x11_0000
  }

  function DecodeChars(d: Data): (r: Option<string>)
    ensures r.Some? <==> forall i :: 0 <= i < |d| ==> IsScalar(d[i])
    ensures r.Some? ==> |r.value| == |d| && forall i :: 0 <= i < |d| ==> r.value[i] as int == d[i]
  {
    if d == [] then Some([])
    else if !IsScalar(d[0]) then None
    else match DecodeChars(d[1..])
      case None => None
      case Some(t) => Some([d[0] as char] + t)
  }

  /** A length-prefixed string at the front of `d`, and what follows it. */
  function DecodeString(d: Data): Option<(string, Data)> {
    if d == [] || d[0] < 0 || |d| - 1 < d[0] then None
    else match DecodeChars(d[1..1 + d[0]])
      case None => None
      case Some(s) => Some((s, d[1 + d[0]..]))
  }

  lemma DecodeEncodeString(s: string, rest: Data)
    ensures DecodeString(EncodeString(s) + rest) == Some((s, rest))
  {
    var d := EncodeString(s) + rest;
    assert d[1..1 + |s|] == EncodeString(s)[1..];
    var c := DecodeChars(d[1..1 + |s|]);
    assert c.Some?;
    assert c.value == s;
    assert d[1 + |s|..] == rest;
  }

  // ---------------------------------------------------------------------------
  // Tag

  function EncodeTagFields(t: Tag): Data {
    [t.id] + EncodeString(t.name) + EncodeString(t.color) + EncodeString(t.icon)
  }

  /** A tag at the front of `d`, and what follows it. */
  function DecodeTagFields(d: Data): Option<(Tag, Data)> {
    if d == [] || d[0] < 0 then None
    else match DecodeString(d[1..])
      case None => None
      case Some((name, d1)) =>
        match DecodeString(d1)
        case None => None
        case Some((color, d2)) =>
          match DecodeString(d2)
          case None => None
          case Some((icon, d3)) => Some((Tag(d[0], name, color, icon), d3))
  }

  lemma DecodeEncodeTagFields(t: Tag, rest: Data)
    ensures DecodeTagFields(EncodeTagFields(t) + rest) == Some((t, rest))
  {
    var n, c, i := EncodeString(t.name), EncodeString(t.color), EncodeString(t.icon);
    var d := EncodeTagFields(t) + rest;
    assert d == [t.id] + (n + (c + (i + rest)));
    assert d[1..] == n + (c + (i + rest));
    DecodeEncodeString(t.name, c + (i + rest));
    DecodeEncodeString(t.color, i + rest);
    DecodeEncodeString(t.icon, rest);
  }

  /** `JSONEncoder().encode(tag)`. */
  function EncodeTag(t: Tag): Data {
    EncodeTagFields(t)
  }

  /** `JSONDecoder().decode(Tag.self, from:)`: fails unless the whole of `d` is one tag. */
  function DecodeTag(d: Data): Option<Tag> {
    match DecodeTagFields(d)
    case Some((t, rest)) => if rest == [] then Some(t) else None
    case None => None
  }

  /** Decoding an encoded tag gives the tag back. */
  lemma DecodeEncodeTag(t: Tag)
    ensures DecodeTag(EncodeTag(t)) == Some(t)
  {
    DecodeEncodeTagFields(t, []);
    assert EncodeTagFields(t) + [] == EncodeTagFields(t);
  }

  /** Different tags have different encodings. */
  lemma EncodeTagInjective(a: Tag, b: Tag)
    requires EncodeTag(a) == EncodeTag(b)
    ensures a == b
  {
    DecodeEncodeTag(a);
    DecodeEncodeTag(b);
  }

  // ---------------------------------------------------------------------------
  // [Tag]

  function EncodeTagItems(ts: seq<Tag>): Data {
    if ts == [] then [] else EncodeTagFields(ts[0]) + EncodeTagItems(ts[1..])
  }

  /** `n` tags at the front of `d`, and what follows them. */
  function DecodeTagItems(n: nat, d: Data): Option<(seq<Tag>, Data)> {
    if n == 0 then Some(([], d))
    else match DecodeTagFields(d)
      case None => None
      case Some((t, d1)) =>
        match DecodeTagItems(n - 1, d1)
        case None => None
        case Some((ts, d2)) => Some(([t] + ts, d2))
  }

  lemma {:induction false} DecodeEncodeTagItems(ts: seq<Tag>, rest: Data)
    ensures DecodeTagItems(|ts|, EncodeTagItems(ts) + rest) == Some((ts, rest))
  {
    if ts != [] {
      var tail := EncodeTagItems(ts[1..]) + rest;
      assert EncodeTagItems(ts) + rest == EncodeTagFields(ts[0]) + tail;
      DecodeEncodeTagFields(ts[0], tail);
      DecodeEncodeTagItems(ts[1..], rest);
      assert [ts[0]] + ts[1..] == ts;
    } else {
      assert EncodeTagItems(ts) + rest == rest;
    }
  }

  /** `JSONEncoder().encode(tags)`: a count, then the tags. */
  function EncodeTags(ts: seq<Tag>): Data {
    [|ts|] + EncodeTagItems(ts)
  }

  /** `JSONDecoder().decode([Tag].self, from:)`: fails unless the whole of `d` is a
      well-formed tag list. */
  function DecodeTags(d: Data): Option<seq<Tag>> {
    if d == [] || d[0] < 0 then None
    else match DecodeTagItems(d[0], d[1..])
      case Some((ts, rest)) => if rest == [] then Some(ts) else None
      case None => None
  }

  /** Decoding an encoded tag list gives the list back. */
  lemma DecodeEncodeTags(ts: seq<Tag>)
    ensures DecodeTags(EncodeTags(ts)) == Some(ts)
  {
    DecodeEncodeTagItems(ts, []);
    assert EncodeTags(ts)[1..] == EncodeTagItems(ts) + [];
  }
}
