/**
 * Lower-case hexadecimal text of a byte string, as Node's
 * `Buffer.prototype.toString('hex')` produces it: two digits per byte, high
 * nibble first, digits `0-9a-f`. Decode is its partner, accepting exactly the
 * strings Encode can produce.
 */
module Hex {
  import opened Wrappers

  newtype byte = x: int | 0 <= x < 256

  predicate IsHexDigit(c: char) {
    '0' <= c <= '9' || 'a' <= c <= 'f'
  }

  predicate IsHex(h: string) {
    forall i :: 0 <= i < |h| ==> IsHexDigit(h[i])
  }

  /** The digit for a nibble value 0..15. */
  function Digit(n: nat): (c: char)
    requires n < 16
    ensures IsHexDigit(c)
  {
    if n < 10 then ('0' as int + n) as char else ('a' as int + n - 10) as char
  }

  /** The nibble a digit stands for, or None for any other character. */
  function DigitValue(c: char): (r: Option<nat>)
    ensures r.Some? <==> IsHexDigit(c)
    ensures r.Some? ==> r.value < 16 && Digit(r.value) == c
  {
    if '0' <= c <= '9' then Some(c as int - '0' as int)
    else if 'a' <= c <= 'f' then Some(c as int - 'a' as int + 10)
    else None
  }

  function Encode(bs: seq<byte>): (h: string)
    ensures |h| == 2 * |bs|
    ensures IsHex(h)
  {
    if bs == [] then []
    else [Digit(bs[0] as int / 16), Digit(bs[0] as int % 16)] + Encode(bs[1..])
  }

  function Decode(h: string): (r: Option<seq<byte>>)
    decreases |h|
  {
    if h == [] then Some([])
    else if |h| == 1 then None
    else
      match (DigitValue(h[0]), DigitValue(h[1]), Decode(h[2..]))
      case (Some(hi), Some(lo), Some(rest)) => Some([(hi * 16 + lo) as byte] + rest)
      case _ => None
  }

  lemma DigitRoundTrip(n: nat)
    requires n < 16
    ensures DigitValue(Digit(n)) == Some(n)
  {
  }

  /** Decoding undoes encoding. */
  lemma {:induction false} DecodeEncode(bs: seq<byte>)
    ensures Decode(Encode(bs)) == Some(bs)
  {
    if bs != [] {
      var b := bs[0] as int;
      var h := Encode(bs);
      DigitRoundTrip(b / 16);
      DigitRoundTrip(b % 16);
      assert h[2..] == Encode(bs[1..]);
      DecodeEncode(bs[1..]);
      assert ((b / 16) * 16 + b % 16) as byte == bs[0];
      assert [bs[0]] + bs[1..] == bs;
    }
  }

  /** Encoding undoes decoding: every string Decode accepts is canonical. */
  lemma {:induction false} EncodeDecode(h: string)
    ensures Decode(h).Some? ==> Encode(Decode(h).value) == h
    decreases |h|
  {
    if |h| >= 2 && Decode(h).Some? {
      var hi, lo := DigitValue(h[0]).value, DigitValue(h[1]).value;
      var rest := Decode(h[2..]).value;
      EncodeDecode(h[2..]);
      var b := (hi * 16 + lo) as byte;
      assert Decode(h).value == [b] + rest;
      assert b as int / 16 == hi && b as int % 16 == lo;
      assert Encode([b] + rest) == [Digit(hi), Digit(lo)] + Encode(rest);
      assert h == [h[0], h[1]] + h[2..];
    }
  }

  /** Distinct byte strings have distinct hex texts. */
  lemma EncodeInjective(a: seq<byte>, b: seq<byte>)
    ensures Encode(a) == Encode(b) <==> a == b
  {
    DecodeEncode(a);
    DecodeEncode(b);
  }
}
