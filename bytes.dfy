/** Bytes, UTF-8 encoding of text and `struct.pack("<L", x)` (little-endian u32). */
module Bytes {

  newtype byte = x: int | 0 <= x < 256

  const TWO_TO_32: int := 0x1_0000_0000

  predicate IsU32(x: int) {
    0 <= x < TWO_TO_32
  }

  /** `struct.pack("<L", x)`: four bytes, least significant first. */
  function PackU32(x: int): (b: seq<byte>)
    requires IsU32(x)
    ensures |b| == 4
  {
    [(x % 256) as byte, (x / 256 % 256) as byte, (x / 65536 % 256) as byte, (x / 16777216) as byte]
  }

  /** `struct.unpack_from("<L", b, at)[0]`. */
  function ReadU32(b: seq<byte>, at: nat): int
    requires at + 4 <= |b|
  {
    b[at] as int + 256 * (b[at + 1] as int) + 65536 * (b[at + 2] as int) + 16777216 * (b[at + 3] as int)
  }

  lemma ReadPackU32(x: int)
    requires IsU32(x)
    ensures ReadU32(PackU32(x), 0) == x
  {
    var b := PackU32(x);
    assert b[0] as int == x % 256;
    assert b[1] as int == x / 256 % 256;
    assert b[2] as int == x / 65536 % 256;
    assert b[3] as int == x / 16777216;
    assert x / 256 == 256 * (x / 65536) + x / 256 % 256;
    assert x / 65536 == 256 * (x / 16777216) + x / 65536 % 256;
  }

  /** Reading a packed word back at any position of a larger byte string. */
  lemma ReadPackedAt(prefix: seq<byte>, x: int, suffix: seq<byte>)
    requires IsU32(x)
    ensures ReadU32(prefix + PackU32(x) + suffix, |prefix|) == x
  {
    var b := prefix + PackU32(x) + suffix;
    assert b[|prefix|..|prefix| + 4] == PackU32(x);
    ReadPackU32(x);
  }

  /** The UTF-8 encoding of one Unicode scalar value. */
  function EncodeChar(c: char): (b: seq<byte>)
    ensures 1 <= |b| <= 4
  {
    var n := c as int;
    if n < 0x80 then [n as byte]
    else if n < 0x800 then [(0xC0 + n / 64) as byte, (0x80 + n % 64) as byte]
    else if n < 0x10000 then
      [(0xE0 + n / 4096) as byte, (0x80 + n / 64 % 64) as byte, (0x80 + n % 64) as byte]
    else
      [(0xF0 + n / 262144) as byte, (0x80 + n / 4096 % 64) as byte,
       (0x80 + n / 64 % 64) as byte, (0x80 + n % 64) as byte]
  }

  /** `s.encode("utf-8")`. */
  function Utf8(s: string): seq<byte>
    decreases |s|
  {
    if s == [] then [] else EncodeChar(s[0]) + Utf8(s[1..])
  }

  lemma {:induction false} Utf8Append(a: string, b: string)
    ensures Utf8(a + b) == Utf8(a) + Utf8(b)
    decreases |a|
  {
    if a == [] {
      assert a + b == b;
    } else {
      assert (a + b)[1..] == a[1..] + b;
      Utf8Append(a[1..], b);
    }
  }

  /** The code point a well-formed UTF-8 sequence of one character stands for. */
  function DecodeChar(b: seq<byte>): int
    requires 1 <= |b| <= 4
  {
    if |b| == 1 then b[0] as int
    else if |b| == 2 then (b[0] as int - 0xC0) * 64 + (b[1] as int - 0x80)
    else if |b| == 3 then (b[0] as int - 0xE0) * 4096 + (b[1] as int - 0x80) * 64 + (b[2] as int - 0x80)
    else (b[0] as int - 0xF0) * 262144 + (b[1] as int - 0x80) * 4096 + (b[2] as int - 0x80) * 64 + (b[3] as int - 0x80)
  }

  /** Decoding the encoding of a character gives its code point back. */
  lemma DecodeEncodeChar(c: char)
    ensures DecodeChar(EncodeChar(c)) == c as int
  {
    var n := c as int;
    if 0x800 <= n < 0x10000 {
      assert n == n / 4096 * 4096 + n / 64 % 64 * 64 + n % 64;
    } else if n >= 0x10000 {
      assert n / 64 == n / 4096 * 64 + n / 64 % 64;
      assert n / 4096 == n / 262144 * 64 + n / 4096 % 64;
      assert n == n / 262144 * 262144 + n / 4096 % 64 * 4096 + n / 64 % 64 * 64 + n % 64;
    }
  }
}
