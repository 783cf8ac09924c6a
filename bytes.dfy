/** Byte-level helpers shared by every codec of the project: the `byte` type,
    little-endian packing of 16- and 32-bit integers as Python's `struct`
    module does it ("<h", "<H", "<i"), and the lower- and upper-case hex and
    decimal renderings Python uses when it formats bytes and integers. */
module Bytes {

  type byte = x: int | 0 <= x < 256

  const INT32_MIN: int := -0x8000_0000
  const INT32_MAX: int := 0x7FFF_FFFF

  /** The range `struct.pack("i", v)` accepts. */
  predicate IsInt32(v: int) {
    INT32_MIN <= v <= INT32_MAX
  }

  predicate IsByte(v: int) {
    0 <= v < 256
  }

  /** Little-endian two's-complement encoding of a signed 32-bit value ("<i"). */
  function LE32(v: int): (r: seq<byte>)
    requires IsInt32(v)
    ensures |r| == 4
  {
    var u := if v < 0 then v + 0x1_0000_0000 else v;
    [u % 256, (u / 0x100) % 256, (u / 0x1_0000) % 256, u / 0x100_0000]
  }

  /** Little-endian two's-complement encoding of a signed 16-bit value ("<h"). */
  function LE16(v: int): (r: seq<byte>)
    requires -0x8000 <= v < 0x8000
    ensures |r| == 2
  {
    var u := if v < 0 then v + 0x1_0000 else v;
    [u % 256, u / 0x100]
  }

  function Unsigned16(b: seq<byte>): (r: nat)
    requires |b| == 2
    ensures r < 0x1_0000
  {
    var b0: int, b1: int := b[0], b[1];
    b0 + 0x100 * b1
  }

  function Unsigned32(b: seq<byte>): (r: nat)
    requires |b| == 4
    ensures r < 0x1_0000_0000
  {
    var b0: int, b1: int, b2: int, b3: int := b[0], b[1], b[2], b[3];
    b0 + 0x100 * b1 + 0x1_0000 * b2 + 0x100_0000 * b3
  }

  /** `struct.unpack("<h", b)`: the top bit of the second byte is the sign. */
  function Signed16(b: seq<byte>): (r: int)
    requires |b| == 2
    ensures -0x8000 <= r < 0x8000
    ensures r == Unsigned16(b) || r == Unsigned16(b) - 0x1_0000
    ensures r < 0 <==> b[1] >= 0x80
  {
    var u := Unsigned16(b);
    if u < 0x8000 then u else u - 0x1_0000
  }

  /** `struct.unpack("<i", b)`: the top bit of the last byte is the sign. */
  function Signed32(b: seq<byte>): (r: int)
    requires |b| == 4
    ensures IsInt32(r)
    ensures r == Unsigned32(b) || r == Unsigned32(b) - 0x1_0000_0000
    ensures r < 0 <==> b[3] >= 0x80
  {
    var u := Unsigned32(b);
    if u < 0x8000_0000 then u else u - 0x1_0000_0000
  }

  lemma DigitsOf32(u: nat)
    requires u < 0x1_0000_0000
    ensures u % 256 + 0x100 * ((u / 0x100) % 256) + 0x1_0000 * ((u / 0x1_0000) % 256)
            + 0x100_0000 * (u / 0x100_0000) == u
  {
    var q1 := u / 0x100;
    var q2 := q1 / 0x100;
    var q3 := q2 / 0x100;
    assert u == u % 256 + 0x100 * q1;
    assert q1 == q1 % 256 + 0x100 * q2;
    assert q2 == q2 % 256 + 0x100 * q3;
    assert q2 == u / 0x1_0000;
    assert q3 == u / 0x100_0000;
  }

  /** Decoding what "<i" packed gives the value back, for every int32. */
  lemma {:induction false} Signed32OfLE32(v: int)
    requires IsInt32(v)
    ensures Signed32(LE32(v)) == v
  {
    var u := if v < 0 then v + 0x1_0000_0000 else v;
    DigitsOf32(u);
    assert Unsigned32(LE32(v)) == u;
  }

  /** Packing what "<i" unpacked gives the four bytes back: LE32 and Signed32
      are inverse bijections between int32 and 4-byte sequences. */
  lemma SplitLowByte(lo: int, hi: nat)
    requires 0 <= lo < 256
    ensures (lo + 256 * hi) % 256 == lo && (lo + 256 * hi) / 256 == hi
  {
  }

  /** Packing what "<i" unpacked gives the four bytes back: LE32 and Signed32
      are inverse bijections between int32 and 4-byte sequences. */
  lemma {:induction false} LE32OfSigned32(b: seq<byte>)
    requires |b| == 4
    ensures LE32(Signed32(b)) == b
  {
    var b0: int, b1: int, b2: int, b3: int := b[0], b[1], b[2], b[3];
    var u := Unsigned32(b);
    var h1 := b1 + 256 * (b2 + 256 * b3);
    var h2 := b2 + 256 * b3;
    assert u == b0 + 256 * h1;
    SplitLowByte(b0, h1);
    SplitLowByte(b1, h2);
    SplitLowByte(b2, b3);
    assert u / 0x100 == h1;
    assert u / 0x1_0000 == (u / 0x100) / 0x100;
    assert u / 0x100_0000 == (u / 0x1_0000) / 0x100;
    assert (if Signed32(b) < 0 then Signed32(b) + 0x1_0000_0000 else Signed32(b)) == u;
  }

  lemma {:induction false} Signed16OfLE16(v: int)
    requires -0x8000 <= v < 0x8000
    ensures Signed16(LE16(v)) == v
  {
    var u := if v < 0 then v + 0x1_0000 else v;
    assert u == u % 256 + 0x100 * (u / 0x100);
  }

  const HEX_LOWER: string := "0123456789abcdef"
  const HEX_UPPER: string := "0123456789ABCDEF"

  /** Python's `bytes.hex()`: two lower-case digits per byte. */
  function Hex(bs: seq<byte>): (r: string)
    ensures |r| == 2 * |bs|
  {
    if bs == [] then "" else [HEX_LOWER[bs[0] / 16], HEX_LOWER[bs[0] % 16]] + Hex(bs[1..])
  }

  lemma {:induction false} HexAppend(a: seq<byte>, b: seq<byte>)
    ensures Hex(a + b) == Hex(a) + Hex(b)
  {
    if a == [] {
      assert a + b == b;
    } else {
      assert (a + b)[0] == a[0];
      assert (a + b)[1..] == a[1..] + b;
      HexAppend(a[1..], b);
    }
  }

  /** Python's `f"{b:02X}"` for a byte. */
  function HexUpper2(b: byte): (r: string)
    ensures |r| == 2
  {
    [HEX_UPPER[b / 16], HEX_UPPER[b % 16]]
  }

  function NatToDecimal(n: nat): (r: string)
    ensures |r| >= 1 && r[0] != '-'
    decreases n
  {
    if n < 10 then ["0123456789"[n]] else NatToDecimal(n / 10) + ["0123456789"[n % 10]]
  }

  predicate IsDigit(c: char) { '0' <= c <= '9' }

  predicate AllDigits(s: string) { forall i :: 0 <= i < |s| ==> IsDigit(s[i]) }

  /** The number a string of decimal digits denotes, most significant first. */
  function DecimalValue(s: string): nat
    requires AllDigits(s)
  {
    if s == [] then 0 else DecimalValue(s[..|s| - 1]) * 10 + (s[|s| - 1] as int - '0' as int)
  }

  lemma DigitChar(d: nat)
    requires d < 10
    ensures IsDigit("0123456789"[d]) && "0123456789"[d] as int - '0' as int == d
  {
  }

  /** `NatToDecimal` spells `n` in decimal: digits only, no leading zero,
      and the digits denote `n`. */
  lemma {:induction false} NatToDecimalValue(n: nat)
    ensures AllDigits(NatToDecimal(n))
    ensures DecimalValue(NatToDecimal(n)) == n
    ensures |NatToDecimal(n)| > 1 ==> NatToDecimal(n)[0] != '0'
    ensures n > 0 ==> NatToDecimal(n)[0] != '0'
    decreases n
  {
    var r := NatToDecimal(n);
    if n < 10 {
      DigitChar(n);
      assert r == ["0123456789"[n]];
      assert r[..0] == [];
    } else {
      var q := NatToDecimal(n / 10);
      NatToDecimalValue(n / 10);
      DigitChar(n % 10);
      assert r == q + ["0123456789"[n % 10]];
      assert r[..|r| - 1] == q;
      assert r[0] == q[0];
      assert DecimalValue(r) == (n / 10) * 10 + n % 10;
    }
  }

  /** Python's `str(n)` / `f"{n}"` for an int. */
  function IntToDecimal(n: int): (r: string)
    ensures |r| >= 1
    ensures (r[0] == '-') <==> n < 0
  {
    if n < 0 then "-" + NatToDecimal(-n) else NatToDecimal(n)
  }

  /** `IntToDecimal` is an optional minus sign followed by the decimal
      digits of the magnitude. */
  lemma IntToDecimalValue(n: int)
    ensures n < 0 ==>
              IntToDecimal(n)[0] == '-' && AllDigits(IntToDecimal(n)[1..]) &&
              DecimalValue(IntToDecimal(n)[1..]) == -n
    ensures n >= 0 ==> AllDigits(IntToDecimal(n)) && DecimalValue(IntToDecimal(n)) == n
  {
    if n < 0 {
      var d := NatToDecimal(-n);
      NatToDecimalValue(-n);
      assert IntToDecimal(n) == "-" + d;
      assert ("-" + d)[1..] == d;
    } else {
      NatToDecimalValue(n);
      assert IntToDecimal(n) == NatToDecimal(n);
    }
  }
}
