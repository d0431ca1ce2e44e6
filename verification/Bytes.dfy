/**
 * Bytes and the little-endian integer encodings that Node's `Buffer.writeUInt16LE`,
 * `writeUInt32LE` and `writeInt16LE` produce, with the matching readers as partners.
 */
module Bytes {
  type byte = b: int | 0 <= b < 256

  /** The bytes of an ASCII tag written with `Buffer.write`. */
  function Ascii(s: string): (r: seq<byte>)
    requires forall i :: 0 <= i < |s| ==> s[i] as int < 128
    ensures |r| == |s|
    ensures forall i :: 0 <= i < |s| ==> r[i] == s[i] as int
  {
    if s == [] then [] else [s[0] as int] + Ascii(s[1..])
  }

  function Zeros(n: nat): (r: seq<byte>)
    ensures |r| == n && forall i :: 0 <= i < n ==> r[i] == 0
  {
    seq(n, _ => 0)
  }

  /** `writeUInt16LE(v)`: two bytes, least significant first. */
  function U16LE(v: int): (r: seq<byte>)
    requires 0 <= v < 0x1_0000
    ensures |r| == 2
  {
    [v % 256, v / 256]
  }

  /** `writeUInt32LE(v)`: four bytes, least significant first. */
  function U32LE(v: int): (r: seq<byte>)
    requires 0 <= v < 0x1_0000_0000
    ensures |r| == 4
  {
    [v % 256, (v / 256) % 256, (v / 0x1_0000) % 256, v / 0x100_0000]
  }

  /** `writeInt16LE(v)`: the two's-complement 16-bit pattern of `v`, least significant first. */
  function I16LE(v: int): (r: seq<byte>)
    requires -0x8000 <= v < 0x8000
    ensures |r| == 2
  {
    U16LE(if v < 0 then v + 0x1_0000 else v)
  }

  function ReadU16LE(s: seq<byte>, at: nat): int
    requires at + 2 <= |s|
  {
    s[at] as int + 256 * (s[at + 1] as int)
  }

  function ReadU32LE(s: seq<byte>, at: nat): int
    requires at + 4 <= |s|
  {
    s[at] as int + 256 * (s[at + 1] as int) + 0x1_0000 * (s[at + 2] as int) + 0x100_0000 * (s[at + 3] as int)
  }

  function ReadI16LE(s: seq<byte>, at: nat): int
    requires at + 2 <= |s|
  {
    var u := ReadU16LE(s, at);
    if u < 0x8000 then u else u - 0x1_0000
  }

  lemma U16RoundTrip(v: int)
    requires 0 <= v < 0x1_0000
    ensures ReadU16LE(U16LE(v), 0) == v
  {
  }

  lemma U32RoundTrip(v: int)
    requires 0 <= v < 0x1_0000_0000
    ensures ReadU32LE(U32LE(v), 0) == v
  {
    var q1 := v / 256;
    var q2 := q1 / 256;
    assert v / 0x1_0000 == q2;
    assert v / 0x100_0000 == q2 / 256;
    assert v == q1 * 256 + v % 256;
    assert q1 == q2 * 256 + q1 % 256;
    assert q2 == (q2 / 256) * 256 + q2 % 256;
  }

  lemma I16RoundTrip(v: int)
    requires -0x8000 <= v < 0x8000
    ensures ReadI16LE(I16LE(v), 0) == v
  {
    U16RoundTrip(if v < 0 then v + 0x1_0000 else v);
  }

  /** Reading at an offset inside a concatenation reads the part that holds the offset. */
  lemma ReadU32At(pre: seq<byte>, v: int, post: seq<byte>)
    requires 0 <= v < 0x1_0000_0000
    ensures ReadU32LE(pre + U32LE(v) + post, |pre|) == v
  {
    var s := pre + U32LE(v) + post;
    assert s[|pre|..|pre| + 4] == U32LE(v);
    U32RoundTrip(v);
  }

  lemma ReadU16At(pre: seq<byte>, v: int, post: seq<byte>)
    requires 0 <= v < 0x1_0000
    ensures ReadU16LE(pre + U16LE(v) + post, |pre|) == v
  {
    var s := pre + U16LE(v) + post;
    assert s[|pre|..|pre| + 2] == U16LE(v);
    U16RoundTrip(v);
  }

  /** A slice of the part after a prefix, read through the concatenation. */
  lemma SliceAfter(h: seq<byte>, d: seq<byte>, lo: nat, hi: nat)
    requires lo <= hi <= |d|
    ensures (h + d)[|h| + lo..|h| + hi] == d[lo..hi]
  {
    assert forall k :: lo <= k < hi ==> (h + d)[|h| + k] == d[k];
  }

  /**
   * `buf.write(tag, at)`, `buf.writeUInt32LE(v, at)`, `src.copy(buf, at)` and friends:
   * the bytes land at `at` and nothing else in the buffer changes.
   */
  method WriteAt(buf: array<byte>, at: nat, bytes: seq<byte>)
    requires at + |bytes| <= buf.Length
    modifies buf
    ensures buf[..at + |bytes|] == old(buf[..at]) + bytes
    ensures buf[at + |bytes|..] == old(buf[at + |bytes|..])
  {
    var j := 0;
    while j < |bytes|
      invariant 0 <= j <= |bytes|
      invariant buf[..at + j] == old(buf[..at]) + bytes[..j]
      invariant buf[at + j..] == old(buf[at + j..])
    {
      buf[at + j] := bytes[j];
      assert buf[..at + j + 1] == buf[..at + j] + [bytes[j]];
      assert bytes[..j + 1] == bytes[..j] + [bytes[j]];
      j := j + 1;
    }
  }
}
