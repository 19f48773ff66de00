/**
 * Fixed-width integers of the firmware and the byte splits it performs through
 * C unions (`batt_s`, `latLong_s`) and casts. Every truncation or wrap-around of
 * the C code is written out here, since Dafny integers are unbounded.
 */
module Bytes {

  type uint8 = b: int | 0 <= b < 0x100
  type uint16 = v: int | 0 <= v < 0x1_0000
  type uint32 = v: int | 0 <= v < 0x1_0000_0000
  type int16 = v: int | -0x8000 <= v < 0x8000
  type int32 = v: int | -0x8000_0000 <= v < 0x8000_0000

  /** C99 division on signed operands: the quotient is truncated toward zero. */
  function TruncDiv(a: int, d: int): int
    requires d > 0
  {
    if a >= 0 then a / d else -((-a) / d)
  }

  /**
   * The truncated quotient times the divisor lies between zero and the
   * dividend, less than one divisor away from it.
   */
  lemma TruncDivBounds(a: int, d: int)
    requires d > 0
    ensures a >= 0 ==> 0 <= TruncDiv(a, d) && 0 <= a - TruncDiv(a, d) * d < d
    ensures a < 0 ==> TruncDiv(a, d) <= 0 && -d < a - TruncDiv(a, d) * d <= 0
  {
    var n := if a >= 0 then a else -a;
    var q, r := n / d, n % d;
    assert n == q * d + r && 0 <= r < d;
  }

  /** Conversion of any integer to `uint32_t` (reduction modulo 2^32). */
  function ToU32(v: int): uint32 { v % 0x1_0000_0000 }

  /** Conversion of any integer to `uint8_t` (reduction modulo 2^8). */
  function ToU8(v: int): uint8 { v % 0x100 }

  /** `(uint8_t)(v >> 8)` for a 16-bit value given as its unsigned bit pattern. */
  function HighByte(v: uint16): uint8 { v / 0x100 }

  /** `(uint8_t)v`. */
  function LowByte(v: uint16): uint8 { v % 0x100 }

  /** Big-endian reassembly of two bytes. */
  function Join16(hi: uint8, lo: uint8): (v: uint16)
  {
    hi * 0x100 + lo
  }

  lemma SplitJoin16(v: uint16)
    ensures Join16(HighByte(v), LowByte(v)) == v
    ensures HighByte(Join16(HighByte(v), LowByte(v))) == HighByte(v)
  {
  }

  /**
   * Byte `k` of the little-endian `uint8_t val8[4]` view of a `uint32_t`
   * (`latLong_s`): `val8[0]` is the least significant byte.
   */
  function U32Byte(v: uint32, k: nat): (b: uint8)
    requires k < 4
  {
    if k == 0 then v % 0x100
    else if k == 1 then (v / 0x100) % 0x100
    else if k == 2 then (v / 0x100 / 0x100) % 0x100
    else v / 0x100 / 0x100 / 0x100
  }

  /** The four bytes of the union, weighted back, give the 32-bit value again. */
  lemma U32BytesReassemble(v: uint32)
    ensures U32Byte(v, 3) * 0x100_0000 + U32Byte(v, 2) * 0x1_0000
            + U32Byte(v, 1) * 0x100 + U32Byte(v, 0) == v
  {
    var q1 := v / 0x100;
    var q2 := q1 / 0x100;
    assert v == q1 * 0x100 + U32Byte(v, 0);
    assert q1 == q2 * 0x100 + U32Byte(v, 1);
    assert q2 == U32Byte(v, 3) * 0x100 + U32Byte(v, 2);
  }

  /** The low 24 bits of a 32-bit value, as a number. */
  lemma Low24Value(v: uint32)
    ensures U32Byte(v, 2) * 0x1_0000 + U32Byte(v, 1) * 0x100 + U32Byte(v, 0) == v % 0x100_0000
  {
    U32BytesReassemble(v);
    var low := U32Byte(v, 2) * 0x1_0000 + U32Byte(v, 1) * 0x100 + U32Byte(v, 0);
    assert v == U32Byte(v, 3) * 0x100_0000 + low && 0 <= low < 0x100_0000;
  }

  /**
   * The three bytes `val8[2], val8[1], val8[0]` that the GNSS encoder copies,
   * in that order: the low 24 bits of `v`, most significant first.
   */
  function Low24BigEndian(v: uint32): (s: seq<uint8>)
    ensures |s| == 3
  {
    [U32Byte(v, 2), U32Byte(v, 1), U32Byte(v, 0)]
  }

  /** Unsigned big-endian value of a byte sequence. */
  function BigEndian(s: seq<uint8>): nat
  {
    if s == [] then 0 else BigEndian(s[..|s| - 1]) * 0x100 + s[|s| - 1]
  }

  /** Two's complement reading of a 24-bit pattern. */
  function SignExtend24(v: int): (r: int)
    requires 0 <= v < 0x100_0000
    ensures -0x80_0000 <= r < 0x80_0000
    ensures (r - v) % 0x100_0000 == 0
  {
    if v >= 0x80_0000 then v - 0x100_0000 else v
  }

  /** Two's complement reading of a 16-bit pattern. */
  function SignExtend16(v: int): (r: int)
    requires 0 <= v < 0x1_0000
    ensures -0x8000 <= r < 0x8000
    ensures (r - v) % 0x1_0000 == 0
  {
    if v >= 0x8000 then v - 0x1_0000 else v
  }

  /**
   * Storing a signed value in 32 bits and keeping its low 24 bits, then
   * reading those back as signed 24-bit, returns the value when it fits.
   */
  lemma {:induction false} Low24RoundTrip(v: int)
    requires -0x80_0000 <= v < 0x80_0000
    ensures BigEndian(Low24BigEndian(ToU32(v))) < 0x100_0000
    ensures SignExtend24(BigEndian(Low24BigEndian(ToU32(v)))) == v
  {
    var u := ToU32(v);
    var s := Low24BigEndian(u);
    assert s[..2][..1] == [s[0]];
    assert s[..2] == [s[0], s[1]];
    assert BigEndian([s[0]]) == s[0] by {
      assert [s[0]][..0] == [];
    }
    assert BigEndian(s) == ((s[0] as int) * 0x100 + s[1]) * 0x100 + s[2];
    Low24Value(u);
    ModOfMod(v);
  }

  /** Reducing modulo 2^32 first does not change the residue modulo 2^24. */
  lemma ModOfMod(v: int)
    ensures (v % 0x1_0000_0000) % 0x100_0000 == v % 0x100_0000
  {
    var k := (v / 0x1_0000_0000) * 0x100;
    var r := v % 0x1_0000_0000;
    assert v == 0x100_0000 * k + r;
    var r1, rq := r % 0x100_0000, r / 0x100_0000;
    assert r == 0x100_0000 * rq + r1;
    ModUnique(v, k + rq, r1);
  }

  /** A residue modulo 2^24 is the one remainder in [0, 2^24) of any decomposition. */
  lemma ModUnique(v: int, a: int, b: int)
    requires v == 0x100_0000 * a + b && 0 <= b < 0x100_0000
    ensures v % 0x100_0000 == b
  {
    var q := v / 0x100_0000;
    assert v == 0x100_0000 * q + v % 0x100_0000;
  }
}
