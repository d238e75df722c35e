/** What several components share: bytes and 16-bit samples, the smaller of two counts, optional values and
    little-endian words. */
module Basics {
  type Byte = b: int | 0 <= b < 256
  type Sample = s: int | -32768 <= s <= 32767

  datatype Option<T> = None | Some(value: T)

  function Min(a: nat, b: nat): nat { if a < b then a else b }

  // ---------------------------------------------------------------- little-endian words

  function Le16(v: nat): (bytes: seq<Byte>)
    ensures |bytes| == 2
  {
    [v % 0x100, v / 0x100 % 0x100]
  }

  function Le32(v: nat): (bytes: seq<Byte>)
    ensures |bytes| == 4
  {
    Le16(v) + Le16(v / 0x1_0000)
  }

  function U16(p: seq<Byte>): (v: nat)
    requires |p| >= 2
    ensures v < 0x1_0000
  {
    p[0] as int + 0x100 * p[1] as int
  }

  function U32(p: seq<Byte>): (v: nat)
    requires |p| >= 4
    ensures v < 0x1_0000_0000
  {
    U16(p) + 0x1_0000 * U16(p[2..])
  }

  lemma FirstWord(p: seq<Byte>)
    requires |p| >= 2
    ensures U16(p) == U16(p[..2])
  {
  }

  /** Reading a word back gives its low bits. */
  lemma Word16(v: nat)
    ensures U16(Le16(v)) == v % 0x1_0000
  {
    LowDigits(v, 0x100);
  }

  lemma Word32(v: nat)
    ensures U32(Le32(v)) == v % 0x1_0000_0000
  {
    hide U16, Le16;
    Word16(v);
    Word16(v / 0x1_0000);
    LowDigits(v, 0x1_0000);
    assert Le32(v)[2..] == Le16(v / 0x1_0000);
    assert Le32(v)[..2] == Le16(v);
    FirstWord(Le32(v));
  }

  /** Four bytes are told by their word. */
  lemma SameBytes(p: seq<Byte>, q: seq<Byte>)
    requires |p| == |q| == 4 && U32(p) == U32(q)
    ensures p == q
  {
    assert U16(p) == U16(q) && U16(p[2..]) == U16(q[2..]);
    SamePair(p[0], p[1], q[0], q[1]);
    SamePair(p[2], p[3], q[2], q[3]);
  }

  lemma SamePair(a: Byte, b: Byte, c: Byte, d: Byte)
    requires a as int + 0x100 * b as int == c as int + 0x100 * d as int
    ensures a == c && b == d
  {
  }

  lemma LowDigits(v: nat, base: nat)
    requires base == 0x100 || base == 0x1_0000
    ensures v % base + base * (v / base % base) == v % (base * base)
  {
    if base == 0x100 { LowBytes(v); } else { LowWords(v); }
  }

  lemma LowBytes(v: nat)
    ensures v % 0x100 + 0x100 * (v / 0x100 % 0x100) == v % 0x1_0000
  {
    var q, high, low := v / 0x100, v / 0x100 / 0x100, v % 0x100 + 0x100 * (v / 0x100 % 0x100);
    assert v == 0x100 * q + v % 0x100 && q == 0x100 * high + q % 0x100;
    assert v == 0x1_0000 * high + low && 0 <= low < 0x1_0000;
  }

  lemma LowWords(v: nat)
    ensures v % 0x1_0000 + 0x1_0000 * (v / 0x1_0000 % 0x1_0000) == v % 0x1_0000_0000
  {
    var q, high, low := v / 0x1_0000, v / 0x1_0000 / 0x1_0000, v % 0x1_0000 + 0x1_0000 * (v / 0x1_0000 % 0x1_0000);
    assert v == 0x1_0000 * q + v % 0x1_0000 && q == 0x1_0000 * high + q % 0x1_0000;
    assert v == 0x1_0000_0000 * high + low && 0 <= low < 0x1_0000_0000;
  }

  // ---------------------------------------------------------------- samples

  function SampleAt(pcm: seq<Byte>, i: nat): Sample
    requires 2 * i + 1 < |pcm|
  {
    var word := pcm[2 * i] as int + 0x100 * pcm[2 * i + 1] as int;
    if word < 0x8000 then word else word - 0x1_0000
  }

  /** The whole samples of a buffer; an odd last byte is none. */
  function SamplesOf(pcm: seq<Byte>): seq<Sample> {
    seq(|pcm| / 2, i requires 0 <= i < |pcm| / 2 => SampleAt(pcm, i))
  }
}
