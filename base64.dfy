/**
 * The Base64 alphabet and encoding of section 4 of RFC 4648, with '='
 * padding and no line breaks, as used for attachment contents; and the
 * decoding that reverses it.
 */
module Base64 {
  import opened Common

  newtype byte = x: int | 0 <= x < 256

  /** The character of a 6-bit value: A-Z, a-z, 0-9, '+', '/'. */
  function EncodeChar(v: nat): (c: char)
    requires v < 64
  {
    if v < 26 then ('A' as int + v) as char
    else if v < 52 then ('a' as int + (v - 26)) as char
    else if v < 62 then ('0' as int + (v - 52)) as char
    else if v == 62 then '+'
    else '/'
  }

  /** The 6-bit value of an alphabet character; None for any other character. */
  function DecodeChar(c: char): (r: Option<nat>)
    ensures r.Some? ==> r.value < 64 && EncodeChar(r.value) == c
  {
    if 'A' <= c <= 'Z' then Some(c as int - 'A' as int)
    else if 'a' <= c <= 'z' then Some(c as int - 'a' as int + 26)
    else if '0' <= c <= '9' then Some(c as int - '0' as int + 52)
    else if c == '+' then Some(62)
    else if c == '/' then Some(63)
    else None
  }

  lemma DecodeEncodeChar(v: nat)
    requires v < 64
    ensures DecodeChar(EncodeChar(v)) == Some(v)
  {
  }

  /** The four 6-bit values of three bytes, most significant bits first. */
  function Sextets(b0: byte, b1: byte, b2: byte): (v: seq<nat>)
    ensures |v| == 4 && v[0] < 64 && v[1] < 64 && v[2] < 64 && v[3] < 64
  {
    var x0, x1, x2 := b0 as int, b1 as int, b2 as int;
    [x0 / 4, (x0 % 4) * 16 + x1 / 16, (x1 % 16) * 4 + x2 / 64, x2 % 64]
  }

  /** One group of three bytes as four characters. */
  function EncodeGroup(b0: byte, b1: byte, b2: byte): (s: string)
    ensures |s| == 4
  {
    var v := Sextets(b0, b1, b2);
    [EncodeChar(v[0]), EncodeChar(v[1]), EncodeChar(v[2]), EncodeChar(v[3])]
  }

  /** Base64.encodeBytes: four characters per three bytes, the last group padded with '='. */
  function Encode(data: seq<byte>): (s: string)
    ensures |s| == (|data| + 2) / 3 * 4
    decreases |data|
  {
    if |data| == 0 then ""
    else if |data| == 1 then EncodeGroup(data[0], 0, 0)[..2] + "=="
    else if |data| == 2 then EncodeGroup(data[0], data[1], 0)[..3] + "="
    else EncodeGroup(data[0], data[1], data[2]) + Encode(data[3..])
  }

  /** The three bytes of four 6-bit values. */
  function DecodeGroup(v0: nat, v1: nat, v2: nat, v3: nat): (r: seq<byte>)
    requires v0 < 64 && v1 < 64 && v2 < 64 && v3 < 64
    ensures |r| == 3
  {
    [(v0 * 4 + v1 / 16) as byte, ((v1 % 16) * 16 + v2 / 4) as byte, ((v2 % 4) * 64 + v3) as byte]
  }

  /**
   * Base64Helper.safeDecode: the bytes of a padded Base64 text, or None
   * (null) when the text is not one.
   */
  function Decode(s: string): (r: Option<seq<byte>>)
    decreases |s|
  {
    if |s| == 0 then Some([])
    else if |s| < 4 then None
    else
      var c0, c1 := DecodeChar(s[0]), DecodeChar(s[1]);
      if c0.None? || c1.None? then None
      else if |s| == 4 && s[2] == '=' && s[3] == '=' then
        Some(DecodeGroup(c0.value, c1.value, 0, 0)[..1])
      else if |s| == 4 && s[3] == '=' then
        var c2 := DecodeChar(s[2]);
        if c2.None? then None else Some(DecodeGroup(c0.value, c1.value, c2.value, 0)[..2])
      else
        var c2, c3 := DecodeChar(s[2]), DecodeChar(s[3]);
        if c2.None? || c3.None? then None
        else match Decode(s[4..])
          case None => None
          case Some(rest) => Some(DecodeGroup(c0.value, c1.value, c2.value, c3.value) + rest)
  }

  /** The sextets of a group reassemble its three bytes. */
  lemma GroupRoundTrip(b0: byte, b1: byte, b2: byte)
    ensures var v := Sextets(b0, b1, b2); DecodeGroup(v[0], v[1], v[2], v[3]) == [b0, b1, b2]
  {
    var x0, x1, x2 := b0 as int, b1 as int, b2 as int;
    var v1 := (x0 % 4) * 16 + x1 / 16;
    var v2 := (x1 % 16) * 4 + x2 / 64;
    assert v1 / 16 == x0 % 4 && v1 % 16 == x1 / 16;
    assert v2 / 4 == x1 % 16 && v2 % 4 == x2 / 64;
  }

  lemma SextetChars(b0: byte, b1: byte, b2: byte)
    ensures var v, s := Sextets(b0, b1, b2), EncodeGroup(b0, b1, b2);
            DecodeChar(s[0]) == Some(v[0]) && DecodeChar(s[1]) == Some(v[1])
            && DecodeChar(s[2]) == Some(v[2]) && DecodeChar(s[3]) == Some(v[3])
            && s[2] != '=' && s[3] != '='
  {
    var v := Sextets(b0, b1, b2);
    DecodeEncodeChar(v[0]);
    DecodeEncodeChar(v[1]);
    DecodeEncodeChar(v[2]);
    DecodeEncodeChar(v[3]);
  }

  /** A full group in front of any decodable text is decoded to its three bytes. */
  lemma DecodeFullGroup(b0: byte, b1: byte, b2: byte, t: string)
    requires Decode(t).Some?
    ensures Decode(EncodeGroup(b0, b1, b2) + t) == Some([b0, b1, b2] + Decode(t).value)
  {
    var s := EncodeGroup(b0, b1, b2) + t;
    SextetChars(b0, b1, b2);
    GroupRoundTrip(b0, b1, b2);
    assert s[4..] == t;
  }

  lemma DecodeOneByte(b0: byte)
    ensures Decode(Encode([b0])) == Some([b0])
  {
    SextetChars(b0, 0, 0);
    GroupRoundTrip(b0, 0, 0);
    var g, s := EncodeGroup(b0, 0, 0), Encode([b0]);
    var v := Sextets(b0, 0, 0);
    assert s[0] == g[0] && s[1] == g[1] && s[2] == '=' && s[3] == '=' && |s| == 4;
    assert DecodeGroup(v[0], v[1], 0, 0)[0] == DecodeGroup(v[0], v[1], v[2], v[3])[0];
    assert DecodeGroup(v[0], v[1], 0, 0)[..1] == [b0];
    assert Decode(s) == Some(DecodeGroup(v[0], v[1], 0, 0)[..1]);
  }

  lemma DecodeTwoBytes(b0: byte, b1: byte)
    ensures Decode(Encode([b0, b1])) == Some([b0, b1])
  {
    SextetChars(b0, b1, 0);
    GroupRoundTrip(b0, b1, 0);
    var g, s := EncodeGroup(b0, b1, 0), Encode([b0, b1]);
    var v := Sextets(b0, b1, 0);
    assert s[0] == g[0] && s[1] == g[1] && s[2] == g[2] && s[3] == '=' && |s| == 4;
    assert DecodeGroup(v[0], v[1], v[2], 0)[..2] == DecodeGroup(v[0], v[1], v[2], v[3])[..2];
    assert DecodeGroup(v[0], v[1], v[2], 0)[..2] == [b0, b1];
    assert Decode(s) == Some(DecodeGroup(v[0], v[1], v[2], 0)[..2]);
  }

  lemma ThreeInFront(data: seq<byte>)
    requires |data| > 2
    ensures [data[0], data[1], data[2]] + data[3..] == data
  {
    assert data[..3] == [data[0], data[1], data[2]];
    assert data[..3] + data[3..] == data;
  }

  /** A full group in front of bytes that round-trip round-trips as well. */
  lemma DecodeEncodeStep(b0: byte, b1: byte, b2: byte, rest: seq<byte>)
    requires Decode(Encode(rest)) == Some(rest)
    ensures Decode(Encode([b0, b1, b2] + rest)) == Some([b0, b1, b2] + rest)
  {
    EncodeInFront(b0, b1, b2, rest);
    DecodeFullGroup(b0, b1, b2, Encode(rest));
  }

  /** Decoding the encoding gives the original bytes back. */
  lemma {:induction false} DecodeEncode(data: seq<byte>)
    ensures Decode(Encode(data)) == Some(data)
    decreases |data|
  {
    if |data| == 1 {
      DecodeOneByte(data[0]);
      assert [data[0]] == data;
    } else if |data| == 2 {
      DecodeTwoBytes(data[0], data[1]);
      assert [data[0], data[1]] == data;
    } else if |data| > 2 {
      DecodeEncode(data[3..]);
      DecodeEncodeStep(data[0], data[1], data[2], data[3..]);
      ThreeInFront(data);
    }
  }

  /** The bytes of a text made of 8-bit characters (ISO-8859-1). */
  function Latin1(t: string): (r: seq<byte>)
    requires forall i :: 0 <= i < |t| ==> t[i] as int < 256
    ensures |r| == |t|
    ensures forall i :: 0 <= i < |t| ==> r[i] as int == t[i] as int
  {
    seq(|t|, i requires 0 <= i < |t| => t[i] as int as byte)
  }

  lemma EncodeInFront(b0: byte, b1: byte, b2: byte, rest: seq<byte>)
    ensures Encode([b0, b1, b2] + rest) == EncodeGroup(b0, b1, b2) + Encode(rest)
  {
    assert ([b0, b1, b2] + rest)[3..] == rest;
  }

  lemma HalloWeltBytes()
    ensures Latin1("Hallo Welt!") == [72, 97, 108] + ([108, 111, 32] + ([87, 101, 108] + [116, 33]))
  {
  }

  lemma HalloWeltGroups()
    ensures EncodeGroup(72, 97, 108) == "SGFs" && EncodeGroup(108, 111, 32) == "bG8g"
    ensures EncodeGroup(87, 101, 108) == "V2Vs" && Encode([116, 33]) == "dCE="
  {
    assert Sextets(72, 97, 108) == [18, 6, 5, 44];
    assert Sextets(108, 111, 32) == [27, 6, 60, 32];
    assert Sextets(87, 101, 108) == [21, 54, 21, 44];
    assert Sextets(116, 33, 0) == [29, 2, 4, 0];
    assert EncodeGroup(116, 33, 0) == "dCEA";
  }

  /** The attachment test's vector: the content "Hallo Welt!" encodes as "SGFsbG8gV2VsdCE=". */
  lemma HalloWeltVector()
    ensures Encode(Latin1("Hallo Welt!")) == "SGFsbG8gV2VsdCE="
  {
    HalloWeltBytes();
    HalloWeltGroups();
    EncodeInFront(87, 101, 108, [116, 33]);
    EncodeInFront(108, 111, 32, [87, 101, 108] + [116, 33]);
    EncodeInFront(72, 97, 108, [108, 111, 32] + ([87, 101, 108] + [116, 33]));
  }
}
