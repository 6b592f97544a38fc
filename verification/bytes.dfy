/** Machine integers of the formatter and the little-endian byte order in
    which the boot sector stores its 32-bit fields. */
module Bytes {

  type byte = b: int | 0 <= b < 0x100
  type uint32 = x: int | 0 <= x < 0x1_0000_0000
  type uint64 = x: int | 0 <= x < 0x1_0000_0000_0000_0000

  const Two32: int := 0x1_0000_0000

  /** Reduction into the range of `uint32_t`, as C's unsigned 32-bit
      subtraction and addition wrap; stated for the operands of one such
      operation on two `uint32_t` values. */
  function Wrap32(x: int): (r: uint32)
    requires -Two32 < x < 2 * Two32
    ensures r == x % Two32
  {
    if x < 0 then x + Two32 else if x < Two32 then x else x - Two32
  }

  /** Division of unsigned operands: the quotient rounded down. */
  function UDiv(a: nat, d: nat): nat
    requires d > 0
  {
    a / d
  }

  /** Byte `k` (0 = least significant) of `x`: `(x >> 8k) & 0xFF`. */
  function ByteOf(x: uint32, k: nat): (r: byte)
    decreases k
  {
    if k == 0 then x % 0x100 else ByteOf(x / 0x100, k - 1)
  }

  /** The four bytes of `x` in little-endian order: byte `k` is
      `(x >> 8k) & 0xFF`, the least significant first. */
  function Le32(x: uint32): (r: seq<byte>)
    ensures |r| == 4
    ensures r[0] == x % 0x100 && r[1] == (x / 0x100) % 0x100
    ensures r[2] == (x / 0x1_0000) % 0x100 && r[3] == x / 0x100_0000
  {
    var q1 := x / 0x100;
    var q2 := q1 / 0x100;
    var q3 := q2 / 0x100;
    assert q2 == x / 0x1_0000 && q3 == x / 0x100_0000 < 0x100;
    [ByteOf(x, 0), ByteOf(x, 1), ByteOf(x, 2), ByteOf(x, 3)]
  }

  /** The value of four bytes read in little-endian order. */
  function DecodeLe32(b: seq<byte>): (r: uint32)
    requires |b| == 4
  {
    b[0] as int + 0x100 * (b[1] as int + 0x100 * (b[2] as int + 0x100 * b[3] as int))
  }

  /** The value of the two bytes at `at`, read in little-endian order. */
  function Le16(b: seq<byte>, at: nat): nat
    requires at + 2 <= |b|
  {
    b[at] as nat + 0x100 * b[at + 1] as nat
  }

  /** Decoding the encoded bytes gives the value back. */
  lemma DecodeEncode(x: uint32)
    ensures DecodeLe32(Le32(x)) == x
  {
    var r := Le32(x);
    var q1 := x / 0x100;
    var q2 := q1 / 0x100;
    assert x == r[0] as int + 0x100 * q1;
    assert q2 == x / 0x1_0000;
    assert q1 == r[1] as int + 0x100 * q2;
    assert q2 / 0x100 == x / 0x100_0000;
    assert q2 == r[2] as int + 0x100 * r[3] as int;
  }

  /** Splitting off the low byte of `x = lo + 256 * hi`. */
  lemma SplitByte(x: int, lo: int, hi: int)
    requires 0 <= lo < 0x100 && 0 <= hi && x == lo + 0x100 * hi
    ensures x % 0x100 == lo && x / 0x100 == hi
  {
  }

  /** Encoding the decoded value gives the bytes back: the encoding is a
      bijection between `uint32` and four-byte sequences. */
  lemma EncodeDecode(b: seq<byte>)
    requires |b| == 4
    ensures Le32(DecodeLe32(b)) == b
  {
    var x := DecodeLe32(b);
    var q2 := b[2] as int + 0x100 * b[3] as int;
    var q1 := b[1] as int + 0x100 * q2;
    SplitByte(x, b[0], q1);
    SplitByte(q1, b[1], q2);
    SplitByte(q2, b[2], b[3]);
    assert x / 0x1_0000 == q1 / 0x100;
    assert x / 0x100_0000 == q2 / 0x100;
    var r := Le32(x);
    assert r[0] == b[0] && r[1] == b[1] && r[2] == b[2] && r[3] == b[3];
  }
}
