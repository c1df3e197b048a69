/** Byte-level encodings used by the WAV writer: unsigned little-endian
    integers of a fixed width, the stores of the typed-array views that
    write them, and the ASCII encoding of the four-letter RIFF tags. */
module Bytes {

  /** One octet of an ArrayBuffer. */
  type Byte = b: int | 0 <= b < 256

  const Two16: nat := 0x1_0000
  const Two32: nat := 0x1_0000_0000

  /** The widths, in bytes, of a Uint16Array and a Uint32Array element. */
  const Width16: nat := 2
  const Width32: nat := 4

  /** 256^n: the number of values an n-byte unsigned field can hold. */
  function Pow256(n: nat): (p: nat)
    ensures p > 0
  {
    if n == 0 then 1 else 256 * Pow256(n - 1)
  }

  /** The value a little-endian byte sequence denotes (least significant byte first). */
  function FromLittleEndian(s: seq<Byte>): (v: nat)
    ensures v < Pow256(|s|)
  {
    if s == [] then 0 else s[0] + 256 * FromLittleEndian(s[1..])
  }

  /** The n-byte little-endian encoding of v. */
  function LittleEndian(v: nat, n: nat): (s: seq<Byte>)
    requires v < Pow256(n)
    ensures |s| == n
    ensures FromLittleEndian(s) == v
  {
    if n == 0 then [] else [v % 256] + LittleEndian(v / 256, n - 1)
  }

  /** Encoding the value of a byte sequence gives back that sequence, so
      LittleEndian and FromLittleEndian are inverse bijections between
      n-byte sequences and the numbers below 256^n. */
  lemma {:induction false} LittleEndianOfValue(s: seq<Byte>)
    ensures LittleEndian(FromLittleEndian(s), |s|) == s
  {
    if s != [] {
      var v := FromLittleEndian(s);
      var rest := FromLittleEndian(s[1..]);
      assert v == s[0] + 256 * rest;
      assert v % 256 == s[0] && v / 256 == rest;
      LittleEndianOfValue(s[1..]);
      assert s == [s[0]] + s[1..];
    }
  }

  /** Two byte sequences of one length with the same value are equal. */
  lemma FromLittleEndianInjective(s: seq<Byte>, t: seq<Byte>)
    requires |s| == |t| && FromLittleEndian(s) == FromLittleEndian(t)
    ensures s == t
  {
    LittleEndianOfValue(s);
    LittleEndianOfValue(t);
  }

  /** What `new Uint32Array(buffer, offset, 1)[0] = v` stores for a
      non-negative integer v on a little-endian host: ToUint32 reduces v
      modulo 2^32, and the four bytes hold the result least significant
      byte first. */
  function Uint32(v: nat): (s: seq<Byte>)
    ensures |s| == 4
    ensures FromLittleEndian(s) == v % Two32
  {
    assert Pow256(Width32) == Two32 by { assert Pow256(4) == Two32; }
    LittleEndian(v % Two32, Width32)
  }

  /** What `new Uint16Array(buffer, offset, 1)[0] = v` stores: v modulo
      2^16 (ToUint16), least significant byte first. */
  function Uint16(v: nat): (s: seq<Byte>)
    ensures |s| == 2
    ensures FromLittleEndian(s) == v % Two16
  {
    assert Pow256(Width16) == Two16 by { assert Pow256(2) == Two16; }
    LittleEndian(v % Two16, Width16)
  }

  /** The four bytes of Uint32(v), written out one by one. */
  lemma Uint32Bytes(v: nat)
    ensures var w := v % Two32;
            Uint32(v) == [w % 256, w / 0x100 % 256, w / 0x1_0000 % 256, w / 0x100_0000]
  {
    var w := v % Two32;
    assert w / 0x100 / 0x100 == w / 0x1_0000;
    assert w / 0x1_0000 / 0x100 == w / 0x100_0000;
    assert w / 0x100_0000 < 256;
    assert LittleEndian(w / 0x100_0000, 1) == [w / 0x100_0000];
    assert LittleEndian(w / 0x1_0000, 2) == [w / 0x1_0000 % 256, w / 0x100_0000];
    assert LittleEndian(w / 0x100, 3) == [w / 0x100 % 256, w / 0x1_0000 % 256, w / 0x100_0000];
  }

  /** The two bytes of Uint16(v), written out one by one. */
  lemma Uint16Bytes(v: nat)
    ensures var w := v % Two16;
            Uint16(v) == [w % 256, w / 0x100]
  {
    var w := v % Two16;
    assert w / 0x100 < 256;
    assert LittleEndian(w / 0x100, 1) == [w / 0x100];
  }

  /** A string whose every character is a 7-bit ASCII code. */
  predicate IsAscii(str: string) {
    forall i :: 0 <= i < |str| ==> str[i] as int < 128
  }

  /** Models str2ab: TextEncoder's UTF-8 encoding, which gives an ASCII
      string one byte per character, holding that character's code. */
  function Str2ab(str: string): (s: seq<Byte>)
    requires IsAscii(str)
    ensures |s| == |str|
    ensures forall i :: 0 <= i < |s| ==> s[i] == str[i] as int
  {
    if str == [] then [] else [str[0] as int] + Str2ab(str[1..])
  }
}
