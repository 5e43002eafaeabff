/** Base 64 encoding with the standard alphabet and `=` padding, as in
    section 4 of RFC 4648: `Buffer.toString("base64")`, which server.ts uses
    to hand a buffered multipart body to the handler. A decoder is given so
    that the encoding can be shown to lose nothing. */
module Base64 {
  import opened Common

  /** A 6-bit group. */
  type sextet = x: int | 0 <= x < 64

  const Pad: char := '='

  /** The value of an alphabet character, or None for any other character. */
  function SextetOf(c: char): (r: Option<sextet>)
    ensures c == Pad ==> r.None?
  {
    if 'A' <= c <= 'Z' then Some(c as int - 'A' as int)
    else if 'a' <= c <= 'z' then Some(c as int - 'a' as int + 26)
    else if '0' <= c <= '9' then Some(c as int - '0' as int + 52)
    else if c == '+' then Some(62)
    else if c == '/' then Some(63)
    else None
  }

  /** The alphabet character for a 6-bit group: `A`-`Z`, `a`-`z`, `0`-`9`,
      `+`, `/`; reading it back gives the group. */
  function CharOf(i: sextet): (c: char)
    ensures SextetOf(c) == Some(i)
    ensures c != Pad
  {
    if i < 26 then ('A' as int + i) as char
    else if i < 52 then ('a' as int + (i - 26)) as char
    else if i < 62 then ('0' as int + (i - 52)) as char
    else if i == 62 then '+'
    else '/'
  }

  /** Three bytes as four characters. */
  function EncodeGroup(b0: byte, b1: byte, b2: byte): (s: string)
    ensures |s| == 4
  {
    [CharOf(b0 / 4), CharOf((b0 % 4) * 16 + b1 / 16), CharOf((b1 % 16) * 4 + b2 / 64), CharOf(b2 % 64)]
  }

  /** The encoding of `data`: four characters for every started group of
      three bytes, a final group of one or two bytes padded with `=`. */
  function Encode(data: seq<byte>): string
    decreases |data|
  {
    if |data| == 0 then ""
    else if |data| == 1 then
      [CharOf(data[0] / 4), CharOf((data[0] % 4) * 16), Pad, Pad]
    else if |data| == 2 then
      [CharOf(data[0] / 4), CharOf((data[0] % 4) * 16 + data[1] / 16), CharOf((data[1] % 16) * 4), Pad]
    else EncodeGroup(data[0], data[1], data[2]) + Encode(data[3..])
  }

  /** Four characters for every started group of three bytes. */
  lemma {:induction false} EncodedLength(data: seq<byte>)
    ensures |Encode(data)| == 4 * ((|data| + 2) / 3)
    decreases |data|
  {
    if |data| >= 3 {
      EncodedLength(data[3..]);
      assert (|data| + 2) / 3 == (|data[3..]| + 2) / 3 + 1;
    }
  }

  /** Reads four characters at a time back into bytes; None for a string
      that is not made of such groups. */
  function Decode(s: string): (r: Option<seq<byte>>)
    decreases |s|
  {
    if |s| == 0 then Some([])
    else if |s| < 4 then None
    else
      var c0, c1, c2, c3 := SextetOf(s[0]), SextetOf(s[1]), SextetOf(s[2]), SextetOf(s[3]);
      if c0.None? || c1.None? then None
      else if |s| == 4 && s[2] == Pad && s[3] == Pad then
        Some([c0.value * 4 + c1.value / 16])
      else if c2.None? then None
      else if |s| == 4 && s[3] == Pad then
        Some([c0.value * 4 + c1.value / 16, (c1.value % 16) * 16 + c2.value / 4])
      else if c3.None? then None
      else
        match Decode(s[4..])
        case None => None
        case Some(rest) => Some(Bytes3(c0.value, c1.value, c2.value, c3.value) + rest)
  }

  /** The three bytes four 6-bit groups carry. */
  function Bytes3(i0: sextet, i1: sextet, i2: sextet, i3: sextet): (r: seq<byte>)
    ensures |r| == 3
  {
    [i0 * 4 + i1 / 16, (i1 % 16) * 16 + i2 / 4, (i2 % 4) * 64 + i3]
  }

  /** The bit arithmetic of one group: the three bytes are recovered from
      their four 6-bit groups. */
  lemma GroupBits(b0: byte, b1: byte, b2: byte)
    ensures (b0 / 4) * 4 + ((b0 % 4) * 16 + b1 / 16) / 16 == b0
    ensures (((b0 % 4) * 16 + b1 / 16) % 16) * 16 + ((b1 % 16) * 4 + b2 / 64) / 4 == b1
    ensures (((b1 % 16) * 4 + b2 / 64) % 4) * 64 + b2 % 64 == b2
  {
  }

  /** A group ending in `==` decodes to one byte. */
  lemma DecodeOnePadded(i0: sextet, i1: sextet)
    ensures Decode([CharOf(i0), CharOf(i1), Pad, Pad]) == Some([i0 * 4 + i1 / 16])
  {
  }

  /** A group ending in `=` decodes to two bytes. */
  lemma DecodeTwoPadded(i0: sextet, i1: sextet, i2: sextet)
    ensures Decode([CharOf(i0), CharOf(i1), CharOf(i2), Pad])
            == Some([i0 * 4 + i1 / 16, (i1 % 16) * 16 + i2 / 4])
  {
    var s := [CharOf(i0), CharOf(i1), CharOf(i2), Pad];
    assert s[2] != Pad;
  }

  /** Four alphabet characters in front of more text decode to three bytes
      followed by whatever the rest decodes to. */
  lemma DecodeFullGroup(i0: sextet, i1: sextet, i2: sextet, i3: sextet, rest: string)
    requires Decode(rest).Some?
    ensures Decode([CharOf(i0), CharOf(i1), CharOf(i2), CharOf(i3)] + rest)
            == Some(Bytes3(i0, i1, i2, i3) + Decode(rest).value)
  {
    var s := [CharOf(i0), CharOf(i1), CharOf(i2), CharOf(i3)] + rest;
    assert s[0] == CharOf(i0) && s[1] == CharOf(i1) && s[2] == CharOf(i2) && s[3] == CharOf(i3);
    assert SextetOf(s[0]) == Some(i0) && SextetOf(s[1]) == Some(i1);
    assert SextetOf(s[2]) == Some(i2) && SextetOf(s[3]) == Some(i3);
    assert s[4..] == rest;
  }

  /** One byte survives its padded group. */
  lemma DecodeEncodeOne(b0: byte)
    ensures Decode(Encode([b0])) == Some([b0])
  {
    GroupBits(b0, 0, 0);
    DecodeOnePadded(b0 / 4, (b0 % 4) * 16);
  }

  /** Two bytes survive their padded group. */
  lemma DecodeEncodeTwo(b0: byte, b1: byte)
    ensures Decode(Encode([b0, b1])) == Some([b0, b1])
  {
    GroupBits(b0, b1, 0);
    DecodeTwoPadded(b0 / 4, (b0 % 4) * 16 + b1 / 16, (b1 % 16) * 4);
  }

  /** Three bytes survive their group in front of any decodable text. */
  lemma DecodeGroupThen(b0: byte, b1: byte, b2: byte, rest: string)
    requires Decode(rest).Some?
    ensures Decode(EncodeGroup(b0, b1, b2) + rest) == Some([b0, b1, b2] + Decode(rest).value)
  {
    var i0: sextet, i1: sextet, i2: sextet, i3: sextet := b0 / 4, (b0 % 4) * 16 + b1 / 16, (b1 % 16) * 4 + b2 / 64, b2 % 64;
    assert EncodeGroup(b0, b1, b2) == [CharOf(i0), CharOf(i1), CharOf(i2), CharOf(i3)];
    DecodeFullGroup(i0, i1, i2, i3, rest);
    GroupBits(b0, b1, b2);
    assert Bytes3(i0, i1, i2, i3) == [b0, b1, b2];
  }

  /** A full first group in front of a tail that round-trips makes the
      whole input round-trip. */
  lemma DecodeEncodeStep(data: seq<byte>)
    requires |data| >= 3
    requires Decode(Encode(data[3..])) == Some(data[3..])
    ensures Decode(Encode(data)) == Some(data)
  {
    var tail := Encode(data[3..]);
    assert Encode(data) == EncodeGroup(data[0], data[1], data[2]) + tail;
    DecodeGroupThen(data[0], data[1], data[2], tail);
    assert [data[0], data[1], data[2]] + data[3..] == data;
  }

  /** Decoding an encoding gives back the bytes. */
  lemma {:induction false} DecodeEncode(data: seq<byte>)
    ensures Decode(Encode(data)) == Some(data)
    decreases |data|
  {
    if |data| == 1 {
      assert data == [data[0]];
      DecodeEncodeOne(data[0]);
    } else if |data| == 2 {
      assert data == [data[0], data[1]];
      DecodeEncodeTwo(data[0], data[1]);
    } else if |data| >= 3 {
      DecodeEncode(data[3..]);
      DecodeEncodeStep(data);
    }
  }

  /** The encoding is one-to-one: different bodies give different strings. */
  lemma EncodeInjective(a: seq<byte>, b: seq<byte>)
    requires Encode(a) == Encode(b)
    ensures a == b
  {
    DecodeEncode(a);
    DecodeEncode(b);
  }

  /** The two bytes 0x01 0x02 encode as `AQI=`. */
  lemma TwoBytesExample()
    ensures Encode([1, 2]) == "AQI="
  {
  }
}
