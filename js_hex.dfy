/**
 * The number handling shared by the two network-side payload decoders
 * (Datacake-decode.js and Chirpstack-decode.js hold identical copies):
 * `bin2HexStr`, JavaScript's `parseInt(str, 16)`, the ToInt32 conversion
 * behind the shift operators, and `parseShort`, `parseTriple` and
 * `parseQuadruple`.
 *
 * JavaScript numbers are modelled as integers and NaN as `None`: every number
 * these functions meet is an integer far below 2^53.
 */
module JsHex {
  import opened Wrappers
  import opened Bytes

  const HEX_DIGITS := "0123456789abcdef"

  // ---------------------------------------------------------------------
  // bin2HexStr
  // ---------------------------------------------------------------------

  /** `n.toString(16)` for a non-negative integer: lowercase digits, no leading zeros. */
  function ToHex(n: nat): (s: string)
    ensures 1 <= |s|
    ensures n < 0x10 ==> |s| == 1
    ensures 0x10 <= n < 0x100 ==> |s| == 2
  {
    if n < 0x10 then [HEX_DIGITS[n]] else ToHex(n / 0x10) + [HEX_DIGITS[n % 0x10]]
  }

  /** The two characters `bin2HexStr` emits for one array element. */
  function ByteHex(b: int): (s: string)
    ensures |s| == 2
  {
    var tmp := ToHex(b % 0x100);
    if |tmp| == 1 then "0" + tmp else tmp
  }

  /** The result of `bin2HexStr`: each element's two characters, in order. */
  function HexStr(bytes: seq<int>): (s: string)
    ensures |s| == 2 * |bytes|
  {
    if bytes == [] then "" else HexStr(bytes[..|bytes| - 1]) + ByteHex(bytes[|bytes| - 1])
  }

  /**
   * `bin2HexStr(bytesArr)`: the accumulator loop. `bytesArr[i] & 0xff` of an
   * integer is its residue modulo 256.
   */
  method Bin2HexStr(bytesArr: seq<int>) returns (str: string)
    ensures str == HexStr(bytesArr)
  {
    str := "";
    for i := 0 to |bytesArr|
      invariant str == HexStr(bytesArr[..i])
    {
      var tmp := ToHex(bytesArr[i] % 0x100);
      if |tmp| == 1 {
        tmp := "0" + tmp;
      }
      assert bytesArr[..i + 1][..i] == bytesArr[..i];
      str := str + tmp;
    }
    assert bytesArr[..|bytesArr|] == bytesArr;
  }

  /** A byte's characters are its high and its low hex digit, zero-padded. */
  lemma ByteHexDigits(b: int)
    ensures ByteHex(b) == [HEX_DIGITS[b % 0x100 / 0x10], HEX_DIGITS[b % 0x100 % 0x10]]
  {
    var n := b % 0x100;
    if n < 0x10 {
      assert ToHex(n) == [HEX_DIGITS[n]];
    } else {
      assert ToHex(n / 0x10) == [HEX_DIGITS[n / 0x10]];
    }
  }

  /** Element `i` of the array sits at characters `2i` and `2i+1`. */
  lemma {:induction false} HexStrAt(bytes: seq<int>, i: nat)
    requires i < |bytes|
    ensures HexStr(bytes)[2 * i..2 * i + 2] == ByteHex(bytes[i])
    decreases |bytes|
  {
    var init := bytes[..|bytes| - 1];
    if i < |bytes| - 1 {
      HexStrAt(init, i);
      assert HexStr(bytes) == HexStr(init) + ByteHex(bytes[|bytes| - 1]);
      assert HexStr(bytes)[2 * i..2 * i + 2] == HexStr(init)[2 * i..2 * i + 2];
    }
  }

  // ---------------------------------------------------------------------
  // parseInt(str, 16)
  // ---------------------------------------------------------------------

  /** The value of a hexadecimal digit of either case. */
  function DigitValue(c: char): Option<nat>
  {
    if '0' <= c <= '9' then Some(c as int - '0' as int)
    else if 'a' <= c <= 'f' then Some(c as int - 'a' as int + 10)
    else if 'A' <= c <= 'F' then Some(c as int - 'A' as int + 10)
    else None
  }

  predicate IsHexDigits(s: string)
  {
    forall i :: 0 <= i < |s| ==> DigitValue(s[i]).Some?
  }

  /** The longest prefix of `s` made of hexadecimal digits. */
  function HexPrefix(s: string): (z: string)
    ensures z <= s && IsHexDigits(z)
    ensures |z| == |s| || DigitValue(s[|z|]).None?
  {
    if s == [] || DigitValue(s[0]).None? then [] else [s[0]] + HexPrefix(s[1..])
  }

  /** The value of a string of hexadecimal digits, most significant first. */
  function HexValue(z: string): nat
    requires IsHexDigits(z)
  {
    if z == [] then 0 else HexValue(z[..|z| - 1]) * 0x10 + DigitValue(z[|z| - 1]).value
  }

  /**
   * `parseInt(s, 16)`: an optional sign, an optional `0x`/`0X` prefix, then
   * the longest run of hexadecimal digits; NaN (None) when that run is empty.
   */
  function ParseInt(s: string): Option<int>
  {
    var (neg, t) := Sign(s);
    var z := HexPrefix(StripPrefix(t));
    var v: int := if z == [] then 0 else HexValue(z);
    if z == [] then None else Some(if neg then -v else v)
  }

  /** Whether `s` starts with '-', and `s` without its sign. */
  function Sign(s: string): (bool, string)
  {
    if s != [] && s[0] == '-' then (true, s[1..])
    else if s != [] && s[0] == '+' then (false, s[1..])
    else (false, s)
  }

  /** `t` without a leading `0x` or `0X`. */
  function StripPrefix(t: string): string
  {
    if |t| >= 2 && t[0] == '0' && (t[1] == 'x' || t[1] == 'X') then t[2..] else t
  }

  /** A non-empty run of hexadecimal digits is parsed whole. */
  lemma ParseHexDigits(s: string)
    requires s != [] && IsHexDigits(s)
    ensures ParseInt(s) == Some(HexValue(s))
  {
    HexPrefixOfDigits(s);
    assert DigitValue(s[0]).Some?;
    assert Sign(s) == (false, s);
    if |s| >= 2 {
      assert DigitValue(s[1]).Some?;
    }
    assert StripPrefix(s) == s;
  }

  lemma {:induction false} HexPrefixOfDigits(s: string)
    requires IsHexDigits(s)
    ensures HexPrefix(s) == s
    decreases |s|
  {
    if s != [] {
      assert DigitValue(s[0]).Some?;
      HexPrefixOfDigits(s[1..]);
    }
  }

  /** `bin2HexStr` can be read back: parsing element `i`'s two characters gives the byte. */
  lemma ByteHexParses(bytes: seq<int>, i: nat)
    requires i < |bytes|
    ensures ParseInt(HexStr(bytes)[2 * i..2 * i + 2]) == Some(bytes[i] % 0x100)
  {
    HexStrAt(bytes, i);
    var b := bytes[i] % 0x100;
    TwoDigits(b / 0x10, b % 0x10);
    ByteHexDigits(bytes[i]);
  }

  /** Two hex digits, as `bin2HexStr` writes them, parse to their value. */
  lemma TwoDigits(hi: nat, lo: nat)
    requires hi < 0x10 && lo < 0x10
    ensures ParseInt([HEX_DIGITS[hi], HEX_DIGITS[lo]]) == Some(hi * 0x10 + lo)
  {
    var s := [HEX_DIGITS[hi], HEX_DIGITS[lo]];
    assert DigitValue(HEX_DIGITS[hi]) == Some(hi);
    assert DigitValue(HEX_DIGITS[lo]) == Some(lo);
    assert s[..1] == [s[0]] && s[..1][..0] == [];
    assert HexValue(s[..1]) == hi;
    ParseHexDigits(s);
  }

  // ---------------------------------------------------------------------
  // ToInt32 and the shift operators
  // ---------------------------------------------------------------------

  /** ToInt32 of an integer: its residue modulo 2^32, read as two's complement. */
  function ToInt32(x: int): (r: int32)
  {
    var m := x % 0x1_0000_0000;
    if m >= 0x8000_0000 then m - 0x1_0000_0000 else m
  }

  /** ToInt32 of a number that may be NaN: NaN converts to 0. */
  function NumberToInt32(n: Option<int>): int32
  {
    match n
    case None => 0
    case Some(x) => ToInt32(x)
  }

  function Pow2(k: nat): (p: nat)
    ensures p >= 1
  {
    if k == 0 then 1 else 2 * Pow2(k - 1)
  }

  lemma Pow2Values()
    ensures Pow2(0) == 1 && Pow2(8) == 0x100 && Pow2(16) == 0x1_0000
  {
    assert Pow2(2) == 4;
    assert Pow2(4) == 0x10;
    assert Pow2(6) == 0x40;
    assert Pow2(8) == 0x100;
    assert Pow2(10) == 0x400;
    assert Pow2(12) == 0x1000;
    assert Pow2(14) == 0x4000;
  }

  /** `x << k`: only the low five bits of the count are used. */
  function ShiftLeft(x: int32, k: nat): int32
  {
    ToInt32(x * Pow2(k % 32))
  }

  /** `x >> k`: arithmetic shift, rounding towards minus infinity. */
  function ShiftRight(x: int32, k: nat): int32
  {
    x / Pow2(k % 32)
  }

  /** `parseShort(str, 16)`: `(n << 16) >> 16`. */
  function ParseShort(s: string): int32
  {
    ShiftRight(ShiftLeft(NumberToInt32(ParseInt(s)), 16), 16)
  }

  /** `parseTriple(str, 16)`: `(n << 8) >> 8`. */
  function ParseTriple(s: string): int32
  {
    ShiftRight(ShiftLeft(NumberToInt32(ParseInt(s)), 8), 8)
  }

  /** `parseQuadruple(str, 16)`: `(n << 32) >> 32`. */
  function ParseQuadruple(s: string): int32
  {
    ShiftRight(ShiftLeft(NumberToInt32(ParseInt(s)), 32), 32)
  }

  /** The number `parseInt` gives, with NaN as 0 (what ToInt32 makes of it). */
  function ParsedOrZero(s: string): int
  {
    match ParseInt(s)
    case None => 0
    case Some(n) => n
  }

  lemma Mod16Unique(x: int, a: int, b: int)
    requires x == 0x1_0000 * a + b && 0 <= b < 0x1_0000
    ensures x % 0x1_0000 == b
  {
    var q := x / 0x1_0000;
    assert x == 0x1_0000 * q + x % 0x1_0000;
  }

  lemma Mod32Unique(x: int, a: int, b: int)
    requires x == 0x1_0000_0000 * a + b && 0 <= b < 0x1_0000_0000
    ensures x % 0x1_0000_0000 == b
  {
    var q := x / 0x1_0000_0000;
    assert x == 0x1_0000_0000 * q + x % 0x1_0000_0000;
  }

  /** ToInt32 keeps the residue modulo 2^16 and modulo 2^24. */
  lemma ToInt32Residues(n: int)
    ensures ToInt32(n) % 0x1_0000 == n % 0x1_0000
    ensures ToInt32(n) % 0x100_0000 == n % 0x100_0000
  {
    var t: int := ToInt32(n);
    var c := if n % 0x1_0000_0000 >= 0x8000_0000 then 1 else 0;
    var h := n / 0x1_0000_0000;
    assert t == n % 0x1_0000_0000 - c * 0x1_0000_0000;
    assert n == 0x1_0000_0000 * h + n % 0x1_0000_0000;
    assert n == 0x1_0000 * (n / 0x1_0000) + n % 0x1_0000;
    Mod16Unique(t, n / 0x1_0000 - 0x1_0000 * h - 0x1_0000 * c, n % 0x1_0000);
    assert n == 0x100_0000 * (n / 0x100_0000) + n % 0x100_0000;
    ModUnique(t, n / 0x100_0000 - 0x100 * h - 0x100 * c, n % 0x100_0000);
  }

  /** `(t << 16) >> 16` sign-extends the low 16 bits of `t`. */
  lemma ShortShift(t: int32)
    ensures ShiftRight(ShiftLeft(t, 16), 16) == SignExtend16(t % 0x1_0000)
  {
    var v := t % 0x1_0000;
    var q := t / 0x1_0000;
    assert t == 0x1_0000 * q + v;
    Pow2Values();
    assert t * 0x1_0000 == 0x1_0000_0000 * q + v * 0x1_0000;
    Mod32Unique(t * 0x1_0000, q, v * 0x1_0000);
    var w := ShiftLeft(t, 16);
    if v >= 0x8000 {
      assert w == 0x1_0000 * (v - 0x1_0000);
    } else {
      assert w == 0x1_0000 * v;
    }
  }

  /** `(t << 8) >> 8` sign-extends the low 24 bits of `t`. */
  lemma TripleShift(t: int32)
    ensures ShiftRight(ShiftLeft(t, 8), 8) == SignExtend24(t % 0x100_0000)
  {
    var v := t % 0x100_0000;
    var q := t / 0x100_0000;
    assert t == 0x100_0000 * q + v;
    Pow2Values();
    assert t * 0x100 == 0x1_0000_0000 * q + v * 0x100;
    Mod32Unique(t * 0x100, q, v * 0x100);
    var w := ShiftLeft(t, 8);
    if v >= 0x80_0000 {
      assert w == 0x100 * (v - 0x100_0000);
    } else {
      assert w == 0x100 * v;
    }
  }

  /** `(t << 32) >> 32` leaves `t` unchanged: both counts are taken modulo 32. */
  lemma QuadrupleShift(t: int32)
    ensures ShiftRight(ShiftLeft(t, 32), 32) == t
  {
    Pow2Values();
    if t < 0 {
      Mod32Unique(t, -1, t + 0x1_0000_0000);
    }
  }

  /**
   * `parseShort` reads the low 16 bits of the parsed number as two's
   * complement, so its result lies in [-32768, 32767]; NaN gives 0.
   */
  lemma ParseShortValue(s: string)
    ensures ParseShort(s) == SignExtend16(ParsedOrZero(s) % 0x1_0000)
  {
    var t := NumberToInt32(ParseInt(s));
    assert t == ToInt32(ParsedOrZero(s));
    ToInt32Residues(ParsedOrZero(s));
    ShortShift(t);
  }

  /** `parseTriple` reads the low 24 bits as two's complement; NaN gives 0. */
  lemma ParseTripleValue(s: string)
    ensures ParseTriple(s) == SignExtend24(ParsedOrZero(s) % 0x100_0000)
  {
    var t := NumberToInt32(ParseInt(s));
    assert t == ToInt32(ParsedOrZero(s));
    ToInt32Residues(ParsedOrZero(s));
    TripleShift(t);
  }

  /**
   * A shift by 32 is a shift by 0, so `parseQuadruple` is ToInt32 of the
   * parsed number; NaN gives 0.
   */
  lemma ParseQuadrupleValue(s: string)
    ensures ParseQuadruple(s) == ToInt32(ParsedOrZero(s))
  {
    var t := NumberToInt32(ParseInt(s));
    assert t == ToInt32(ParsedOrZero(s));
    QuadrupleShift(t);
  }
}
