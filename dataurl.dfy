/**
 * `data:` URLs of RFC 2397 in their base64 form, `data:<mediatype>;base64,<data>`:
 * the builder the image constructor uses, and a parser that is its inverse.
 */
module DataUrl {
  import opened Wrappers
  import Base64

  const Scheme := "data:"
  const Base64Marker := ";base64"

  /** `data:<mediaType>;base64,<payload>`. */
  function Build(mediaType: string, payload: string): string
  {
    Scheme + mediaType + Base64Marker + "," + payload
  }

  /** The position of the last `c` in `s`, if any. */
  function LastIndexOf(s: string, c: char): (r: Option<nat>)
    ensures r.Some? ==> r.value < |s| && s[r.value] == c && forall j | r.value < j < |s| :: s[j] != c
    ensures r.None? ==> forall j | 0 <= j < |s| :: s[j] != c
  {
    if |s| == 0 then None
    else if s[|s| - 1] == c then Some(|s| - 1)
    else LastIndexOf(s[..|s| - 1], c)
  }

  /** The media type of the part of a URL before its comma: `data:<mediaType>;base64`. */
  function MediaTypeOf(head: string): Option<string>
  {
    if |head| < |Scheme| + |Base64Marker| || head[..|Scheme|] != Scheme
       || head[|head| - |Base64Marker|..] != Base64Marker
    then None
    else Some(head[|Scheme|..|head| - |Base64Marker|])
  }

  lemma MediaTypeOfIff(head: string, mediaType: string)
    ensures MediaTypeOf(head) == Some(mediaType) <==> head == Scheme + mediaType + Base64Marker
  {
    if MediaTypeOf(head) == Some(mediaType) {
      assert head == head[..|Scheme|] + head[|Scheme|..|head| - |Base64Marker|] + head[|head| - |Base64Marker|..];
    }
  }

  /**
   * Splits a base64 `data:` URL into its media type and decoded data. The data part
   * follows the last comma, since base64 text has no comma in it.
   */
  function Parse(u: string): Option<(string, seq<Base64.byte>)>
  {
    match LastIndexOf(u, ',')
    case None => None
    case Some(i) =>
      match MediaTypeOf(u[..i])
      case None => None
      case Some(mediaType) =>
        match Base64.Decode(u[i + 1..])
        case None => None
        case Some(d) => Some((mediaType, d))
  }

  /** Base64 text has no comma, so the comma of `Build` is the last one of the URL. */
  lemma LastCommaOfBuild(mediaType: string, d: seq<Base64.byte>)
    ensures LastIndexOf(Build(mediaType, Base64.Encode(d)), ',') == Some(|Scheme + mediaType + Base64Marker|)
  {
    var enc := Base64.Encode(d);
    var u, k := Build(mediaType, enc), |Scheme + mediaType + Base64Marker|;
    Base64.EncodeShape(d);
    assert u[k] == ',';
    forall j | k < j < |u|
      ensures u[j] != ','
    {
      assert u[j] == enc[j - k - 1];
    }
  }

  lemma {:induction false} ParseBuild(mediaType: string, d: seq<Base64.byte>)
    ensures Parse(Build(mediaType, Base64.Encode(d))) == Some((mediaType, d))
  {
    var enc := Base64.Encode(d);
    var u := Build(mediaType, enc);
    var head := Scheme + mediaType + Base64Marker;
    LastCommaOfBuild(mediaType, d);
    assert u[..|head|] == head && u[|head| + 1..] == enc;
    MediaTypeOfIff(head, mediaType);
    Base64.DecodeEncode(d);
  }

  lemma BuildParse(u: string, mediaType: string, d: seq<Base64.byte>)
    requires Parse(u) == Some((mediaType, d))
    ensures u == Build(mediaType, Base64.Encode(d))
  {
    assert LastIndexOf(u, ',').Some?;
    var i := LastIndexOf(u, ',').value;
    var head, payload := u[..i], u[i + 1..];
    assert MediaTypeOf(head) == Some(mediaType) && Base64.Decode(payload) == Some(d);
    MediaTypeOfIff(head, mediaType);
    JoinAtComma(u, i, mediaType);
    Base64.EncodeDecode(payload, d);
  }

  /** A URL whose part before the comma at `i` is `data:<mediaType>;base64` is built from them. */
  lemma JoinAtComma(u: string, i: nat, mediaType: string)
    requires i < |u| && u[i] == ',' && u[..i] == Scheme + mediaType + Base64Marker
    ensures u == Build(mediaType, u[i + 1..])
  {
    assert u == u[..i] + [u[i]] + u[i + 1..];
  }

  /** A base64 `data:` URL parses to a media type and data exactly when it is built from them. */
  lemma ParseIffBuild(u: string, mediaType: string, d: seq<Base64.byte>)
    ensures Parse(u) == Some((mediaType, d)) <==> u == Build(mediaType, Base64.Encode(d))
  {
    if Parse(u) == Some((mediaType, d)) {
      BuildParse(u, mediaType, d);
    }
    if u == Build(mediaType, Base64.Encode(d)) {
      ParseBuild(mediaType, d);
    }
  }
}
