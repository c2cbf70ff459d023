/**
 * Base64 as `btoa` writes it over a string of byte-valued characters: the alphabet of Table 1
 * in section 4 of RFC 4648, three bytes to four characters, and "=" padding of a final group of
 * one or two bytes. Also the "data:" URL of RFC 2397 that the upload screen builds from it.
 */
module Base64 {
  import opened Wrappers
  import opened Text
  import opened Seqs
  import opened Arith

  type Byte = x: int | 0 <= x < 256

  /** The character of a six-bit value. */
  function EncodeChar(v: int): (c: char)
    requires 0 <= v < 64
  {
    if v < 26 then ('A' as int + v) as char
    else if v < 52 then ('a' as int + (v - 26)) as char
    else if v < 62 then ('0' as int + (v - 52)) as char
    else if v == 62 then '+'
    else '/'
  }

  /** The six-bit value of an alphabet character; `None` for any other character, "=" included. */
  function DecodeChar(c: char): Option<int>
  {
    if 'A' <= c <= 'Z' then Some(c as int - 'A' as int)
    else if 'a' <= c <= 'z' then Some(c as int - 'a' as int + 26)
    else if '0' <= c <= '9' then Some(c as int - '0' as int + 52)
    else if c == '+' then Some(62)
    else if c == '/' then Some(63)
    else None
  }

  predicate InAlphabet(c: char) { DecodeChar(c).Some? }

  lemma CharRoundTrip(v: int)
    requires 0 <= v < 64
    ensures DecodeChar(EncodeChar(v)) == Some(v)
    ensures EncodeChar(v) != '='
  {
  }

  /** Three bytes as four characters. */
  function EncodeGroup(b0: Byte, b1: Byte, b2: Byte): string
  {
    [EncodeChar(b0 / 4), EncodeChar((b0 % 4) * 16 + b1 / 16), EncodeChar((b1 % 16) * 4 + b2 / 64), EncodeChar(b2 % 64)]
  }

  /** A final single byte: two characters and two padding characters. */
  function EncodeOne(b0: Byte): string
  {
    [EncodeChar(b0 / 4), EncodeChar((b0 % 4) * 16), '=', '=']
  }

  /** A final pair of bytes: three characters and one padding character. */
  function EncodeTwo(b0: Byte, b1: Byte): string
  {
    [EncodeChar(b0 / 4), EncodeChar((b0 % 4) * 16 + b1 / 16), EncodeChar((b1 % 16) * 4), '=']
  }

  function Encode(b: seq<Byte>): (r: string)
    ensures |r| == 4 * ((|b| + 2) / 3)
    decreases |b|
  {
    if |b| == 0 then ""
    else if |b| == 1 then EncodeOne(b[0])
    else if |b| == 2 then EncodeTwo(b[0], b[1])
    else
      LengthStep(|b|);
      EncodeGroup(b[0], b[1], b[2]) + Encode(b[3..])
  }

  /** Three more bytes make one more group of four characters. */
  lemma LengthStep(n: int)
    requires n >= 3
    ensures 4 * ((n + 2) / 3) == 4 + 4 * ((n - 3 + 2) / 3)
  {
    DivModUnique(n + 2, 3, (n - 1) / 3 + 1, (n - 1) % 3);
  }

  /** Four characters as up to three bytes: "xx==" ends in one byte, "xxx=" in two. */
  function DecodeGroup(q: string): Option<seq<Byte>>
    requires |q| == 4
  {
    var d0, d1, d2, d3 := DecodeChar(q[0]), DecodeChar(q[1]), DecodeChar(q[2]), DecodeChar(q[3]);
    if d0.None? || d1.None? then None
    else
      var v0, v1 := d0.value, d1.value;
      var x0 := v0 * 4 + v1 / 16;
      if q[2] == '=' && q[3] == '=' then Some([x0 as Byte])
      else if d2.None? then None
      else
        var v2 := d2.value;
        var x1 := (v1 % 16) * 16 + v2 / 4;
        if q[3] == '=' then Some([x0 as Byte, x1 as Byte])
        else if d3.None? then None
        else Some([x0 as Byte, x1 as Byte, ((v2 % 4) * 64 + d3.value) as Byte])
  }

  function Decode(s: string): Option<seq<Byte>>
    decreases |s|
  {
    if |s| == 0 then Some([])
    else if |s| < 4 then None
    else match DecodeGroup(s[..4])
      case None => None
      case Some(bytes) =>
        if |bytes| < 3 then (if |s| == 4 then Some(bytes) else None)
        else match Decode(s[4..])
          case None => None
          case Some(rest) => Some(bytes + rest)
  }

  /** A multiple of `k` plus a remainder below `k` divides back into its two parts. */
  lemma Pack(a: int, c: int, k: int)
    requires k > 0 && 0 <= c < k
    ensures (a * k + c) / k == a && (a * k + c) % k == c
  {
    DivModUnique(a * k + c, k, a, c);
  }

  lemma GroupRoundTrip(b0: Byte, b1: Byte, b2: Byte)
    ensures DecodeGroup(EncodeGroup(b0, b1, b2)) == Some([b0, b1, b2])
  {
    var v0, v1, v2, v3 := b0 / 4, (b0 % 4) * 16 + b1 / 16, (b1 % 16) * 4 + b2 / 64, b2 % 64;
    var q := EncodeGroup(b0, b1, b2);
    CharRoundTrip(v0);
    CharRoundTrip(v1);
    CharRoundTrip(v2);
    CharRoundTrip(v3);
    assert DecodeChar(q[0]) == Some(v0) && DecodeChar(q[1]) == Some(v1);
    assert DecodeChar(q[2]) == Some(v2) && DecodeChar(q[3]) == Some(v3);
    assert q[2] != '=' && q[3] != '=';
    Pack(b0 % 4, b1 / 16, 16);
    Pack(b1 % 16, b2 / 64, 4);
    assert v0 * 4 + v1 / 16 == b0;
    assert (v1 % 16) * 16 + v2 / 4 == b1;
    assert (v2 % 4) * 64 + v3 == b2;
  }

  lemma OneRoundTrip(b0: Byte)
    ensures DecodeGroup(EncodeOne(b0)) == Some([b0])
  {
    CharRoundTrip(b0 / 4);
    CharRoundTrip((b0 % 4) * 16);
  }

  lemma TwoRoundTrip(b0: Byte, b1: Byte)
    ensures DecodeGroup(EncodeTwo(b0, b1)) == Some([b0, b1])
  {
    CharRoundTrip(b0 / 4);
    CharRoundTrip((b0 % 4) * 16 + b1 / 16);
    CharRoundTrip((b1 % 16) * 4);
  }

  /** A last group decodes on its own. */
  lemma DecodeLast(q: string, bytes: seq<Byte>)
    requires |q| == 4 && DecodeGroup(q) == Some(bytes)
    ensures Decode(q) == Some(bytes)
  {
    assert q[..4] == q;
    assert q[4..] == [];
    assert bytes + [] == bytes;
  }

  /** A full group in front of an encoding decodes in front of its bytes. */
  lemma DecodeFront(g: string, rest: string, bytes: seq<Byte>, restBytes: seq<Byte>)
    requires |g| == 4 && DecodeGroup(g) == Some(bytes) && |bytes| == 3 && Decode(rest) == Some(restBytes)
    ensures Decode(g + rest) == Some(bytes + restBytes)
  {
    var s := g + rest;
    assert s[..4] == g;
    assert s[4..] == rest;
  }

  /** A final single byte decodes back. */
  lemma OneByteRoundTrip(b: seq<Byte>)
    requires |b| == 1
    ensures Decode(Encode(b)) == Some(b)
  {
    var e := EncodeOne(b[0]);
    assert Encode(b) == e;
    OneRoundTrip(b[0]);
    DecodeLast(e, [b[0]]);
    assert [b[0]] == b;
  }

  /** A final pair of bytes decodes back. */
  lemma TwoBytesRoundTrip(b: seq<Byte>)
    requires |b| == 2
    ensures Decode(Encode(b)) == Some(b)
  {
    var e := EncodeTwo(b[0], b[1]);
    assert Encode(b) == e;
    TwoRoundTrip(b[0], b[1]);
    DecodeLast(e, [b[0], b[1]]);
    assert [b[0], b[1]] == b;
  }

  /** A full group in front of a round-tripping rest round-trips. */
  lemma GroupStep(b: seq<Byte>, rest: string)
    requires |b| > 2 && rest == Encode(b[3..]) && Decode(rest) == Some(b[3..])
    ensures Decode(Encode(b)) == Some(b)
  {
    var g := EncodeGroup(b[0], b[1], b[2]);
    var head := [b[0], b[1], b[2]];
    assert Encode(b) == g + rest;
    GroupRoundTrip(b[0], b[1], b[2]);
    DecodeFront(g, rest, head, b[3..]);
    assert head + b[3..] == b;
  }

  /** Decoding gives back the bytes that were encoded. */
  lemma {:induction false} EncodeRoundTrip(b: seq<Byte>)
    ensures Decode(Encode(b)) == Some(b)
    decreases |b|
  {
    if |b| == 1 {
      OneByteRoundTrip(b);
    } else if |b| == 2 {
      TwoBytesRoundTrip(b);
    } else if |b| > 2 {
      EncodeRoundTrip(b[3..]);
      GroupStep(b, Encode(b[3..]));
    }
  }

  /** Every character of an encoding is in the alphabet or is padding, and padding comes only at
      the end. */
  lemma {:induction false} EncodeAlphabet(b: seq<Byte>)
    ensures forall i :: 0 <= i < |Encode(b)| ==> InAlphabet(Encode(b)[i]) || Encode(b)[i] == '='
    ensures forall i :: 0 <= i < |Encode(b)| - 2 ==> Encode(b)[i] != '='
    decreases |b|
  {
    if |b| == 0 {
    } else if |b| == 1 {
      CharRoundTrip(b[0] / 4);
      CharRoundTrip((b[0] % 4) * 16);
    } else if |b| == 2 {
      CharRoundTrip(b[0] / 4);
      CharRoundTrip((b[0] % 4) * 16 + b[1] / 16);
      CharRoundTrip((b[1] % 16) * 4);
    } else {
      var g := EncodeGroup(b[0], b[1], b[2]);
      CharRoundTrip(b[0] / 4);
      CharRoundTrip((b[0] % 4) * 16 + b[1] / 16);
      CharRoundTrip((b[1] % 16) * 4 + b[2] / 64);
      CharRoundTrip(b[2] % 64);
      EncodeAlphabet(b[3..]);
      var s := Encode(b);
      assert s == g + Encode(b[3..]);
      forall i | 0 <= i < |s|
        ensures (InAlphabet(s[i]) || s[i] == '=') && (i < |s| - 2 ==> s[i] != '=')
      {
        if i >= 4 {
          assert s[i] == Encode(b[3..])[i - 4];
        }
      }
    }
  }

  // ---------------------------------------------------------------- data URLs

  /** `data:<mime>;base64,<data>`. */
  function DataUrl(bytes: seq<Byte>, mimeType: string): string
  {
    "data:" + mimeType + ";base64," + Encode(bytes)
  }

  function IsSemicolon(c: char): bool { c == ';' }

  /** The media type and the bytes of a base64 data URL whose media type carries no parameter. */
  function ParseDataUrl(url: string): Option<(string, seq<Byte>)>
  {
    if !StartsWith(url, "data:") then None
    else
      var rest := url[5..];
      match FindIndex(rest, IsSemicolon)
      case None => None
      case Some(k) =>
        var tail := rest[k..];
        if !StartsWith(tail, ";base64,") then None
        else match Decode(tail[8..])
          case None => None
          case Some(bytes) => Some((rest[..k], bytes))
  }

  /** A data URL gives back its media type and its bytes. */
  lemma DataUrlRoundTrip(bytes: seq<Byte>, mimeType: string)
    requires ';' !in mimeType
    ensures ParseDataUrl(DataUrl(bytes, mimeType)) == Some((mimeType, bytes))
  {
    var url := DataUrl(bytes, mimeType);
    var rest := mimeType + ";base64," + Encode(bytes);
    assert url[..5] == "data:";
    assert url[5..] == rest;
    var k := |mimeType|;
    assert rest[k] == ';';
    assert forall j :: 0 <= j < k ==> rest[j] == mimeType[j];
    assert FindIndex(rest, IsSemicolon) == Some(k);
    assert rest[..k] == mimeType;
    assert rest[k..][..8] == ";base64,";
    assert rest[k..][8..] == Encode(bytes);
    EncodeRoundTrip(bytes);
  }
}
