/**
  UTF-8, as `str.encode('utf-8')` writes it and `bytes.decode('utf-8')`
  reads it back: one to four bytes per character, and a decoder that
  refuses stray continuation bytes, truncated sequences, overlong forms,
  surrogates and values above U+10FFFF.
*/
module Utf8 {
  import opened Wrappers

  newtype byte = x: int | 0 <= x < 256

  /** A byte of the form 10xxxxxx. */
  predicate IsContinuation(b: byte) { 0x80 <= b < 0xC0 }

  /** The bytes of one character. */
  function EncodeChar(c: char): (bs: seq<byte>)
    ensures 1 <= |bs| <= 4
    ensures !IsContinuation(bs[0])
    ensures forall i | 1 <= i < |bs| :: IsContinuation(bs[i])
  {
    var n := c as int;
    if n < 0x80 then [n as byte]
    else if n < 0x800 then [(0xC0 + n / 64) as byte, (0x80 + n % 64) as byte]
    else if n < 0x10000 then
      [(0xE0 + n / 4096) as byte, (0x80 + n / 64 % 64) as byte, (0x80 + n % 64) as byte]
    else
      [(0xF0 + n / 0x40000) as byte, (0x80 + n / 4096 % 64) as byte,
       (0x80 + n / 64 % 64) as byte, (0x80 + n % 64) as byte]
  }

  function Encode(s: string): seq<byte>
  {
    if |s| == 0 then [] else EncodeChar(s[0]) + Encode(s[1..])
  }

  /** The low six bits of a continuation byte. */
  function Low(b: byte): int { b as int - 0x80 }

  /** A code point that is a Unicode scalar value, so a Dafny `char`. */
  predicate IsScalar(n: int) { 0 <= n < 0xD800 || 0xE000 <= n < 0x11_0000 }

  /**
    The character at the front of `bs` and the number of bytes it takes,
    or None when the front of `bs` is not a well-formed UTF-8 sequence.
  */
  function DecodeChar(bs: seq<byte>): (r: Option<(char, nat)>)
    requires |bs| > 0
    ensures r.Some? ==> 1 <= r.value.1 <= |bs| && r.value.1 <= 4
  {
    var b0 := bs[0] as int;
    if b0 < 0x80 then Some((b0 as char, 1))
    else if b0 < 0xC2 then None
    else if b0 < 0xE0 then
      if |bs| < 2 || !IsContinuation(bs[1]) then None
      else Some((((b0 - 0xC0) * 64 + Low(bs[1])) as char, 2))
    else if b0 < 0xF0 then
      if |bs| < 3 || !IsContinuation(bs[1]) || !IsContinuation(bs[2]) then None
      else
        var n := (b0 - 0xE0) * 4096 + Low(bs[1]) * 64 + Low(bs[2]);
        if n < 0x800 || !IsScalar(n) then None else Some((n as char, 3))
    else if b0 < 0xF5 then
      if |bs| < 4 || !IsContinuation(bs[1]) || !IsContinuation(bs[2]) || !IsContinuation(bs[3]) then None
      else
        var n := (b0 - 0xF0) * 0x40000 + Low(bs[1]) * 4096 + Low(bs[2]) * 64 + Low(bs[3]);
        if n < 0x10000 || !IsScalar(n) then None else Some((n as char, 4))
    else None
  }

  /** `bytes.decode('utf-8')`: the whole input, or a failure. */
  function Decode(bs: seq<byte>): (r: Result<string, string>)
    ensures |bs| > 0 && IsContinuation(bs[0]) ==> r.Failure?
    ensures r.Success? ==> |r.value| <= |bs|
    decreases |bs|
  {
    if |bs| == 0 then Success("")
    else match DecodeChar(bs)
      case None => Failure("invalid utf-8")
      case Some((c, k)) =>
        match Decode(bs[k..])
        case Failure(e) => Failure(e)
        case Success(s) => Success([c] + s)
  }

  // ---------------------------------------------------------------------
  // Round trip

  lemma {:induction false} OneByteRoundTrip(c: char, rest: seq<byte>)
    requires c as int < 0x80
    ensures DecodeChar(EncodeChar(c) + rest) == Some((c, 1))
  {
  }

  lemma {:induction false} TwoByteRoundTrip(c: char, rest: seq<byte>)
    requires 0x80 <= c as int < 0x800
    ensures DecodeChar(EncodeChar(c) + rest) == Some((c, 2))
  {
    var n := c as int;
    var bs := EncodeChar(c) + rest;
    assert bs[0] as int == 0xC0 + n / 64 && bs[1] as int == 0x80 + n % 64;
    assert (n / 64) * 64 + n % 64 == n;
  }

  lemma {:induction false} ThreeByteRoundTrip(c: char, rest: seq<byte>)
    requires 0x800 <= c as int < 0x10000
    ensures DecodeChar(EncodeChar(c) + rest) == Some((c, 3))
  {
    var n := c as int;
    var bs := EncodeChar(c) + rest;
    assert bs[0] as int == 0xE0 + n / 4096;
    assert bs[1] as int == 0x80 + n / 64 % 64 && bs[2] as int == 0x80 + n % 64;
    assert (n / 4096) * 4096 + (n / 64 % 64) * 64 + n % 64 == n;
  }

  lemma {:induction false} FourByteRoundTrip(c: char, rest: seq<byte>)
    requires 0x10000 <= c as int
    ensures DecodeChar(EncodeChar(c) + rest) == Some((c, 4))
  {
    var n := c as int;
    var bs := EncodeChar(c) + rest;
    var a, b := n / 64, n / 4096;
    assert n == a * 64 + n % 64;
    assert b == a / 64 && a == b * 64 + a % 64;
    assert n / 0x40000 == b / 64 && b == (b / 64) * 64 + b % 64;
    assert bs[0] as int == 0xF0 + b / 64;
    assert bs[1] as int == 0x80 + b % 64;
    assert bs[2] as int == 0x80 + a % 64 && bs[3] as int == 0x80 + n % 64;
  }

  /** The decoder reads back exactly the bytes of one encoded character. */
  lemma {:induction false} CharRoundTrip(c: char, rest: seq<byte>)
    ensures DecodeChar(EncodeChar(c) + rest) == Some((c, |EncodeChar(c)|))
  {
    var n := c as int;
    if n < 0x80 { OneByteRoundTrip(c, rest); }
    else if n < 0x800 { TwoByteRoundTrip(c, rest); }
    else if n < 0x10000 { ThreeByteRoundTrip(c, rest); }
    else { FourByteRoundTrip(c, rest); }
  }

  lemma {:induction false} DropPrefix(a: seq<byte>, b: seq<byte>)
    ensures (a + b)[|a|..] == b
  {
  }

  /** Decoding an encoded string gives the string back. */
  lemma {:induction false} RoundTrip(s: string)
    ensures Decode(Encode(s)) == Success(s)
    decreases |s|
  {
    if |s| > 0 {
      var head := EncodeChar(s[0]);
      var tail := Encode(s[1..]);
      CharRoundTrip(s[0], tail);
      DropPrefix(head, tail);
      RoundTrip(s[1..]);
      assert [s[0]] + s[1..] == s;
    }
  }

  /** A character below 0x80 is the one byte of its own code. */
  lemma {:induction false} AsciiEncoding(s: string)
    requires forall i | 0 <= i < |s| :: s[i] as int < 0x80
    ensures |Encode(s)| == |s|
    ensures forall i | 0 <= i < |s| :: Encode(s)[i] as int == s[i] as int
    decreases |s|
  {
    if |s| > 0 {
      AsciiEncoding(s[1..]);
    }
  }
}
