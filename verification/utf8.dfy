/** UTF-8 as defined in section 3 of RFC 3629: the bytes Python's
    `bytearray(text, "utf-8")` produces for a text of Unicode scalar values,
    and how many there are.  A Dafny `char` is a Unicode scalar value, so the
    lone surrogates on which Python's encoder raises cannot occur. */
module Utf8 {

  newtype byte = x: int | 0 <= x < 0x100

  /** Number of bytes RFC 3629 spends on the scalar value `c`. */
  function Utf8Len(c: char): (n: nat)
    ensures 1 <= n <= 4
    ensures n == 1 <==> c as int < 0x80
  {
    if c as int < 0x80 then 1
    else if c as int < 0x800 then 2
    else if c as int < 0x1_0000 then 3
    else 4
  }

  /** The sequence length a lead byte announces (0 for a byte that cannot lead). */
  function LeadLength(b: byte): nat
  {
    if b < 0x80 then 1
    else if 0xC2 <= b < 0xE0 then 2
    else if 0xE0 <= b < 0xF0 then 3
    else if 0xF0 <= b < 0xF5 then 4
    else 0
  }

  predicate IsContinuation(b: byte)
  {
    0x80 <= b < 0xC0
  }

  /** The encoding of one scalar value: a lead byte announcing the length,
      followed by continuation bytes carrying six bits each. */
  function EncodeChar(c: char): (b: seq<byte>)
    ensures |b| == Utf8Len(c)
    ensures LeadLength(b[0]) == |b|
    ensures forall i :: 1 <= i < |b| ==> IsContinuation(b[i])
  {
    var v := c as int;
    if v < 0x80 then
      [v as byte]
    else if v < 0x800 then
      [(0xC0 + v / 0x40) as byte, (0x80 + v % 0x40) as byte]
    else if v < 0x1_0000 then
      [(0xE0 + v / 0x1000) as byte, (0x80 + v / 0x40 % 0x40) as byte, (0x80 + v % 0x40) as byte]
    else
      [(0xF0 + v / 0x4_0000) as byte, (0x80 + v / 0x1000 % 0x40) as byte,
       (0x80 + v / 0x40 % 0x40) as byte, (0x80 + v % 0x40) as byte]
  }

  /** The scalar value carried by one well-formed byte sequence. */
  function DecodeChar(b: seq<byte>): int
    requires 1 <= |b| <= 4
  {
    if |b| == 1 then b[0] as int
    else if |b| == 2 then (b[0] as int - 0xC0) * 0x40 + (b[1] as int - 0x80)
    else if |b| == 3 then
      (b[0] as int - 0xE0) * 0x1000 + (b[1] as int - 0x80) * 0x40 + (b[2] as int - 0x80)
    else
      (b[0] as int - 0xF0) * 0x4_0000 + (b[1] as int - 0x80) * 0x1000
        + (b[2] as int - 0x80) * 0x40 + (b[3] as int - 0x80)
  }

  /** Decoding an encoded scalar value gives it back. */
  lemma DecodeEncodeChar(c: char)
    ensures DecodeChar(EncodeChar(c)) == c as int
  {
    var v := c as int;
    if v >= 0x1_0000 {
      var hi, mid, lo := v / 0x1000, v / 0x40 % 0x40, v % 0x40;
      assert v / 0x40 == hi * 0x40 + mid;
      assert v == (v / 0x40) * 0x40 + lo;
      assert hi == v / 0x4_0000 * 0x40 + hi % 0x40;
    } else if v >= 0x800 {
      assert v / 0x40 == v / 0x1000 * 0x40 + v / 0x40 % 0x40;
    }
  }

  /** `bytearray(s, "utf-8")`: the encodings of the characters, in order.  It
      has one to four bytes per character, and its first byte announces the
      length of the first character's encoding. */
  function Encode(s: string): (b: seq<byte>)
    ensures |s| <= |b| <= 4 * |s|
    ensures s != [] ==> |b| > 0 && LeadLength(b[0]) == Utf8Len(s[0])
  {
    if s == [] then [] else EncodeChar(s[0]) + Encode(s[1..])
  }

  /** `len(bytearray(s, "utf-8"))`: at least one and at most four bytes per character. */
  function ByteLen(s: string): (n: nat)
    ensures |s| <= n <= 4 * |s|
    ensures n == |s| <==> forall i :: 0 <= i < |s| ==> s[i] as int < 0x80
  {
    if s == [] then 0 else Utf8Len(s[0]) + ByteLen(s[1..])
  }

  /** The byte count is the length of the encoding. */
  lemma {:induction false} EncodeLength(s: string)
    ensures |Encode(s)| == ByteLen(s)
  {
    if s != [] {
      EncodeLength(s[1..]);
    }
  }

  /** Byte counts add up over concatenation. */
  lemma {:induction false} ByteLenConcat(a: string, b: string)
    ensures ByteLen(a + b) == ByteLen(a) + ByteLen(b)
  {
    if a != [] {
      assert (a + b)[1..] == a[1..] + b;
      ByteLenConcat(a[1..], b);
    } else {
      assert a + b == b;
    }
  }

  /** Encoding a concatenation concatenates the encodings: the bytes of a text
      are the bytes of its pieces, in order. */
  lemma {:induction false} EncodeConcat(a: string, b: string)
    ensures Encode(a + b) == Encode(a) + Encode(b)
  {
    if a != [] {
      assert (a + b)[1..] == a[1..] + b;
      EncodeConcat(a[1..], b);
    } else {
      assert a + b == b;
    }
  }
}
