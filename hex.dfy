/**
 * The reset token of `POST /forgot`: `crypto.randomBytes(20)` rendered with
 * `buf.toString('hex')`, two lower-case hexadecimal digits per byte.
 */
module Hex {

  newtype byte = x: int | 0 <= x < 256

  const Digits := "0123456789abcdef"

  /** One of the characters of `Digits`. */
  predicate IsDigit(c: char)
  {
    '0' <= c <= '9' || 'a' <= c <= 'f'
  }

  predicate IsHexString(s: string)
  {
    forall i :: 0 <= i < |s| ==> IsDigit(s[i])
  }

  function Encode(b: seq<byte>): (r: string)
    ensures |r| == 2 * |b|
    ensures IsHexString(r)
  {
    if b == [] then []
    else [High(b[0]), Low(b[0])] + Encode(b[1..])
  }

  /** The digit of the upper four bits of a byte. */
  function High(x: byte): (c: char)
    ensures IsDigit(c)
  {
    Digits[x as int / 16]
  }

  /** The digit of the lower four bits of a byte. */
  function Low(x: byte): (c: char)
    ensures IsDigit(c)
  {
    Digits[x as int % 16]
  }

  /** The value of a hexadecimal digit. */
  function DigitValue(c: char): (v: nat)
    ensures v < 16
    ensures IsDigit(c) ==> Digits[v] == c
  {
    if '0' <= c <= '9' then c as int - '0' as int
    else if 'a' <= c <= 'f' then c as int - 'a' as int + 10
    else 0
  }

  /** The byte written as two digits. */
  function Pair(c0: char, c1: char): byte
  {
    (DigitValue(c0) * 16 + DigitValue(c1)) as byte
  }

  /** The inverse of `Encode` on its outputs, one byte per pair of digits;
      only the round-trip lemma below uses it. */
  function Decode(s: string): seq<byte>
  {
    if |s| < 2 then [] else [Pair(s[0], s[1])] + Decode(s[2..])
  }

  lemma DigitOfValue(v: nat)
    requires v < 16
    ensures DigitValue(Digits[v]) == v
  {
  }

  /** The two digits of a byte give the byte back. */
  lemma ByteDigits(x: byte)
    ensures Pair(High(x), Low(x)) == x
  {
    DigitOfValue(x as int / 16);
    DigitOfValue(x as int % 16);
  }

  /** Decoding takes the first two digits off the front. */
  lemma {:induction false} DecodeFront(c0: char, c1: char, rest: string)
    ensures Decode([c0, c1] + rest) == [Pair(c0, c1)] + Decode(rest)
  {
    var s := [c0, c1] + rest;
    assert s[2..] == rest;
  }

  /** Encoding loses nothing: distinct random buffers give distinct tokens. */
  lemma {:induction false} DecodeEncode(b: seq<byte>)
    ensures Decode(Encode(b)) == b
  {
    if b != [] {
      var x, rest := b[0], Encode(b[1..]);
      assert Encode(b) == [High(x), Low(x)] + rest;
      DecodeFront(High(x), Low(x), rest);
      ByteDigits(x);
      DecodeEncode(b[1..]);
      assert b == [x] + b[1..];
    }
  }

  lemma EncodeInjective(a: seq<byte>, b: seq<byte>)
    requires Encode(a) == Encode(b)
    ensures a == b
  {
    DecodeEncode(a);
    DecodeEncode(b);
  }
}
