/**
 * Base 64 encoding with the standard alphabet and "=" padding (section 4 of
 * RFC 4648), which `Buffer.toString("base64")` produces for a downloaded PDF,
 * and a strict decoder that undoes it.
 */
module Base64 {
  import opened Wrappers

  type byte = x: int | 0 <= x < 256

  type sextet = x: int | 0 <= x < 64

  /** The 64-character alphabet of section 4 of RFC 4648. */
  function Letter(i: sextet): (c: char)
  {
    if i < 26 then ('A' as int + i) as char
    else if i < 52 then ('a' as int + i - 26) as char
    else if i < 62 then ('0' as int + i - 52) as char
    else if i == 62 then '+'
    else '/'
  }

  /** The value of an alphabet character; `None` for anything else, including "=". */
  function Value(c: char): (r: Option<sextet>)
    ensures r.Some? ==> Letter(r.value) == c
  {
    if 'A' <= c <= 'Z' then Some(c as int - 'A' as int)
    else if 'a' <= c <= 'z' then Some(c as int - 'a' as int + 26)
    else if '0' <= c <= '9' then Some(c as int - '0' as int + 52)
    else if c == '+' then Some(62)
    else if c == '/' then Some(63)
    else None
  }

  lemma ValueLetter(i: sextet)
    ensures Value(Letter(i)) == Some(i)
  {
  }

  predicate IsLetter(c: char)
  {
    Value(c).Some?
  }

  /** Three bytes as four characters. */
  function EncodeTriple(b0: byte, b1: byte, b2: byte): (r: string)
    ensures |r| == 4
  {
    [Letter(b0 / 4), Letter((b0 % 4) * 16 + b1 / 16), Letter((b1 % 16) * 4 + b2 / 64), Letter(b2 % 64)]
  }

  function Encode(data: seq<byte>): (r: string)
    ensures |r| == 4 * ((|data| + 2) / 3)
    decreases |data|
  {
    if |data| == 0 then ""
    else if |data| == 1 then [Letter(data[0] / 4), Letter((data[0] % 4) * 16)] + "=="
    else if |data| == 2 then
      [Letter(data[0] / 4), Letter((data[0] % 4) * 16 + data[1] / 16), Letter((data[1] % 16) * 4)] + "="
    else EncodeTriple(data[0], data[1], data[2]) + Encode(data[3..])
  }

  /** Four sextets back to three bytes. */
  function DecodeQuad(a: sextet, b: sextet, c: sextet, d: sextet): (r: seq<byte>)
    ensures |r| == 3
  {
    [a * 4 + b / 16, (b % 16) * 16 + c / 4, (c % 4) * 64 + d]
  }

  /**
   * Strict decoding: the length is a multiple of four, only the last group may
   * carry padding, and the bits that padding leaves over are zero, so that
   * every accepted text is the encoding of exactly one byte sequence.
   */
  function Decode(s: string): (r: Option<seq<byte>>)
    decreases |s|
  {
    if |s| == 0 then Some([])
    else if |s| < 4 then None
    else
      var va, vb, vc, vd := Value(s[0]), Value(s[1]), Value(s[2]), Value(s[3]);
      if va.None? || vb.None? then None
      else if |s| == 4 && s[2] == '=' && s[3] == '=' then
        if vb.value % 16 == 0 then Some([va.value * 4 + vb.value / 16]) else None
      else if |s| == 4 && vc.Some? && s[3] == '=' then
        if vc.value % 4 == 0 then Some(DecodeQuad(va.value, vb.value, vc.value, 0)[..2]) else None
      else if vc.None? || vd.None? then None
      else
        match Decode(s[4..])
        case None => None
        case Some(rest) => Some(DecodeQuad(va.value, vb.value, vc.value, vd.value) + rest)
  }

  lemma TripleRoundTrip(b0: byte, b1: byte, b2: byte)
    ensures DecodeQuad(b0 / 4, (b0 % 4) * 16 + b1 / 16, (b1 % 16) * 4 + b2 / 64, b2 % 64) == [b0, b1, b2]
  {
    assert ((b0 % 4) * 16 + b1 / 16) / 16 == b0 % 4;
    assert ((b0 % 4) * 16 + b1 / 16) % 16 == b1 / 16;
    assert ((b1 % 16) * 4 + b2 / 64) / 4 == b1 % 16;
    assert ((b1 % 16) * 4 + b2 / 64) % 4 == b2 / 64;
  }

  lemma RoundTripOne(b0: byte)
    ensures Decode(Encode([b0])) == Some([b0])
  {
    assert ((b0 % 4) * 16) / 16 == b0 % 4;
    ValueLetter(b0 / 4);
    ValueLetter((b0 % 4) * 16);
  }

  lemma RoundTripTwo(b0: byte, b1: byte)
    ensures Decode(Encode([b0, b1])) == Some([b0, b1])
  {
    var s := Encode([b0, b1]);
    assert ((b0 % 4) * 16 + b1 / 16) / 16 == b0 % 4;
    assert ((b0 % 4) * 16 + b1 / 16) % 16 == b1 / 16;
    assert ((b1 % 16) * 4) / 4 == b1 % 16;
    assert ((b1 % 16) * 4) % 4 == 0;
    ValueLetter(b0 / 4);
    ValueLetter((b0 % 4) * 16 + b1 / 16);
    ValueLetter((b1 % 16) * 4);
    assert s[2] == Letter((b1 % 16) * 4) && s[2] != '=';
    assert s[3] == '=';
    assert DecodeQuad(b0 / 4, (b0 % 4) * 16 + b1 / 16, (b1 % 16) * 4, 0)[..2] == [b0, b1];
  }

  /** A full group decodes to its three bytes, followed by the decoding of the rest. */
  lemma RoundTripTriple(b0: byte, b1: byte, b2: byte, tail: string)
    ensures Decode(EncodeTriple(b0, b1, b2) + tail) ==
      match Decode(tail)
      case None => None
      case Some(rest) => Some([b0, b1, b2] + rest)
  {
    var s := EncodeTriple(b0, b1, b2) + tail;
    assert s[4..] == tail;
    ValueLetter(b0 / 4);
    ValueLetter((b0 % 4) * 16 + b1 / 16);
    ValueLetter((b1 % 16) * 4 + b2 / 64);
    ValueLetter(b2 % 64);
    TripleRoundTrip(b0, b1, b2);
    assert s[2] != '=' && s[3] != '=';
  }

  /** Decoding an encoding gives back the original bytes. */
  lemma {:induction false} DecodeEncode(data: seq<byte>)
    ensures Decode(Encode(data)) == Some(data)
    decreases |data|
  {
    if |data| == 1 {
      assert data == [data[0]];
      RoundTripOne(data[0]);
    } else if |data| == 2 {
      assert data == [data[0], data[1]];
      RoundTripTwo(data[0], data[1]);
    } else if |data| >= 3 {
      assert data[..3] == [data[0], data[1], data[2]];
      assert data == data[..3] + data[3..];
      DecodeEncode(data[3..]);
      RoundTripTriple(data[0], data[1], data[2], Encode(data[3..]));
    }
  }

  /** Every character of an encoding is an alphabet letter or padding. */
  lemma {:induction false} EncodeAlphabet(data: seq<byte>)
    ensures forall i :: 0 <= i < |Encode(data)| ==> IsLetter(Encode(data)[i]) || Encode(data)[i] == '='
    decreases |data|
  {
    if |data| >= 3 {
      var b0, b1, b2 := data[0], data[1], data[2];
      ValueLetter(b0 / 4);
      ValueLetter((b0 % 4) * 16 + b1 / 16);
      ValueLetter((b1 % 16) * 4 + b2 / 64);
      ValueLetter(b2 % 64);
      EncodeAlphabet(data[3..]);
      var s := Encode(data);
      assert s == EncodeTriple(b0, b1, b2) + Encode(data[3..]);
      forall i | 0 <= i < |s|
        ensures IsLetter(s[i]) || s[i] == '='
      {
        if i >= 4 {
          assert s[i] == Encode(data[3..])[i - 4];
        }
      }
    } else if |data| == 2 {
      ValueLetter(data[0] / 4);
      ValueLetter((data[0] % 4) * 16 + data[1] / 16);
      ValueLetter((data[1] % 16) * 4);
    } else if |data| == 1 {
      ValueLetter(data[0] / 4);
      ValueLetter((data[0] % 4) * 16);
    }
  }
}
