/** Standard base64 with padding (section 4 of RFC 4648), the encoding the S3 workflow
    uses for its single `b64` parameter. */
module Base64 {
  import opened Wrappers

  type Byte = x: int | 0 <= x < 256
  type Sextet = x: int | 0 <= x < 64

  const Pad: char := '='

  /** The character that encodes a 6-bit value (Table 1 of RFC 4648). */
  function CharOf(v: Sextet): (c: char)
    ensures c != Pad
  {
    if v < 26 then 'A' + v as char
    else if v < 52 then 'a' + (v - 26) as char
    else if v < 62 then '0' + (v - 52) as char
    else if v == 62 then '+'
    else '/'
  }

  /** The 6-bit value a character encodes; None outside the alphabet (the pad included). */
  function SextetOf(c: char): (r: Option<Sextet>)
    ensures r.Some? ==> CharOf(r.value) == c
    ensures c == Pad ==> r.None?
  {
    if 'A' <= c <= 'Z' then Some((c - 'A') as int)
    else if 'a' <= c <= 'z' then Some((c - 'a') as int + 26)
    else if '0' <= c <= '9' then Some((c - '0') as int + 52)
    else if c == '+' then Some(62)
    else if c == '/' then Some(63)
    else None
  }

  lemma SextetOfCharOf(v: Sextet)
    ensures SextetOf(CharOf(v)) == Some(v)
  {
  }

  /** Three bytes as four characters. */
  function EncodeTriple(a: Byte, b: Byte, c: Byte): seq<char> {
    [CharOf(a / 4), CharOf((a % 4) * 16 + b / 16), CharOf((b % 16) * 4 + c / 64), CharOf(c % 64)]
  }

  /** The encoding: whole groups of three bytes, then one or two trailing bytes padded
      with '=' to a group of four characters. */
  function Encode(bs: seq<Byte>): (r: seq<char>)
    ensures |r| % 4 == 0 && (|bs| == 0 <==> |r| == 0)
    decreases |bs|
  {
    if |bs| == 0 then []
    else if |bs| == 1 then [CharOf(bs[0] / 4), CharOf((bs[0] % 4) * 16), Pad, Pad]
    else if |bs| == 2 then [CharOf(bs[0] / 4), CharOf((bs[0] % 4) * 16 + bs[1] / 16), CharOf((bs[1] % 16) * 4), Pad]
    else EncodeTriple(bs[0], bs[1], bs[2]) + Encode(bs[3..])
  }

  /** Four characters for every started group of three bytes. */
  lemma {:induction false} EncodeLength(bs: seq<Byte>)
    ensures |Encode(bs)| == (|bs| + 2) / 3 * 4
    decreases |bs|
  {
    if |bs| > 2 {
      EncodeLength(bs[3..]);
      assert (|bs| + 2) / 3 == (|bs[3..]| + 2) / 3 + 1;
    }
  }

  /** Decodes one group of four characters; `last` allows padding. */
  function DecodeGroup(g: seq<char>, last: bool): Option<seq<Byte>>
    requires |g| == 4
  {
    var s0, s1, s2, s3 := SextetOf(g[0]), SextetOf(g[1]), SextetOf(g[2]), SextetOf(g[3]);
    if s0.None? || s1.None? then None
    else
      var a: Byte := s0.value * 4 + s1.value / 16;
      if s2.Some? && s3.Some? then
        var b: Byte := (s1.value % 16) * 16 + s2.value / 4;
        var c: Byte := (s2.value % 4) * 64 + s3.value;
        Some([a, b, c])
      else if last && s2.Some? && g[3] == Pad then
        Some([a, (s1.value % 16) * 16 + s2.value / 4])
      else if last && g[2] == Pad && g[3] == Pad then
        Some([a])
      else None
  }

  /** Decoding: a multiple of four characters, padding only in the final group. */
  function Decode(s: seq<char>): Option<seq<Byte>>
    decreases |s|
  {
    if |s| == 0 then Some([])
    else if |s| < 4 then None
    else
      match DecodeGroup(s[..4], |s| == 4)
      case None => None
      case Some(head) =>
        match Decode(s[4..])
        case None => None
        case Some(tail) => Some(head + tail)
  }

  /** A value packed above `lo` comes back out by division and remainder. */
  lemma Unpack(hi: int, lo: int, k: int)
    requires k in {4, 16, 64} && 0 <= lo < k
    ensures (hi * k + lo) / k == hi && (hi * k + lo) % k == lo
  {
  }

  lemma TripleRoundTrip(a: Byte, b: Byte, c: Byte, last: bool)
    ensures DecodeGroup(EncodeTriple(a, b, c), last) == Some([a, b, c])
  {
    var s0, s1, s2, s3 := a / 4, (a % 4) * 16 + b / 16, (b % 16) * 4 + c / 64, c % 64;
    SextetOfCharOf(s0);
    SextetOfCharOf(s1);
    SextetOfCharOf(s2);
    SextetOfCharOf(s3);
    Unpack(a % 4, b / 16, 16);
    Unpack(b % 16, c / 64, 4);
    assert s0 * 4 + s1 / 16 == a;
    assert (s1 % 16) * 16 + s2 / 4 == b;
    assert (s2 % 4) * 64 + s3 == c;
  }

  lemma PairRoundTrip(a: Byte, b: Byte)
    ensures DecodeGroup([CharOf(a / 4), CharOf((a % 4) * 16 + b / 16), CharOf((b % 16) * 4), Pad], true) == Some([a, b])
  {
    var s0, s1, s2 := a / 4, (a % 4) * 16 + b / 16, (b % 16) * 4;
    SextetOfCharOf(s0);
    SextetOfCharOf(s1);
    SextetOfCharOf(s2);
    Unpack(a % 4, b / 16, 16);
    Unpack(b % 16, 0, 4);
    assert s0 * 4 + s1 / 16 == a;
    assert (s1 % 16) * 16 + s2 / 4 == b;
  }

  lemma SingleRoundTrip(a: Byte)
    ensures DecodeGroup([CharOf(a / 4), CharOf((a % 4) * 16), Pad, Pad], true) == Some([a])
  {
    SextetOfCharOf(a / 4);
    SextetOfCharOf((a % 4) * 16);
    Unpack(a % 4, 0, 16);
    assert (a / 4) * 4 + ((a % 4) * 16) / 16 == a;
  }

  /** Decoding inverts encoding, so the encoding loses nothing. */
  lemma {:induction false} DecodeEncode(bs: seq<Byte>)
    ensures Decode(Encode(bs)) == Some(bs)
    decreases |bs|
  {
    if |bs| == 1 {
      assert bs == [bs[0]];
      SingleDecodes(bs[0]);
    } else if |bs| == 2 {
      assert bs == [bs[0], bs[1]];
      PairDecodes(bs[0], bs[1]);
    } else if |bs| > 2 {
      var rest := bs[3..];
      assert bs == [bs[0], bs[1], bs[2]] + rest;
      DecodeEncode(rest);
      DecodeGroups(bs[0], bs[1], bs[2], rest);
    }
  }

  lemma SingleDecodes(a: Byte)
    ensures Decode(Encode([a])) == Some([a])
  {
    SingleRoundTrip(a);
    var e := Encode([a]);
    assert e == [CharOf(a / 4), CharOf((a % 4) * 16), Pad, Pad];
    assert e[..4] == e && e[4..] == [];
    assert Decode(e[4..]) == Some([]);
    assert [a] + [] == [a];
  }

  lemma PairDecodes(a: Byte, b: Byte)
    ensures Decode(Encode([a, b])) == Some([a, b])
  {
    PairRoundTrip(a, b);
    var e := Encode([a, b]);
    assert e == [CharOf(a / 4), CharOf((a % 4) * 16 + b / 16), CharOf((b % 16) * 4), Pad];
    assert e[..4] == e && e[4..] == [];
    assert Decode(e[4..]) == Some([]);
    assert [a, b] + [] == [a, b];
  }

  /** One step of the round trip: a whole group in front of an encoding that decodes. */
  lemma DecodeGroups(a: Byte, b: Byte, c: Byte, rest: seq<Byte>)
    requires Decode(Encode(rest)) == Some(rest)
    ensures Decode(Encode([a, b, c] + rest)) == Some([a, b, c] + rest)
  {
    var bs := [a, b, c] + rest;
    assert bs[3..] == rest;
    var g, tail := EncodeTriple(a, b, c), Encode(rest);
    var e := Encode(bs);
    assert e == g + tail;
    assert e[..4] == g && e[4..] == tail;
    TripleRoundTrip(a, b, c, |e| == 4);
  }

  /** Different byte strings have different encodings. */
  lemma EncodeInjective(x: seq<Byte>, y: seq<Byte>)
    requires Encode(x) == Encode(y)
    ensures x == y
  {
    DecodeEncode(x);
    DecodeEncode(y);
  }
}
