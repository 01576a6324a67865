/** Octets and the little-endian integers of the wire format. */
module Bytes {

  type byte = x: int | 0 <= x < 0x100

  function Zeros(n: nat): (z: seq<byte>)
    ensures |z| == n
    ensures forall i :: 0 <= i < n ==> z[i] == 0
  {
    seq(n, i => 0)
  }

  /** The two octets of a 16-bit integer, least significant first. */
  function Octets16(v: int): (s: seq<byte>)
    requires 0 <= v < 0x1_0000
    ensures |s| == 2
  {
    [v % 256, v / 256]
  }

  /** The 16-bit integer stored at position i, least significant octet first. */
  function Int16(s: seq<byte>, i: nat): (v: int)
    requires i + 2 <= |s|
    ensures 0 <= v < 0x1_0000
    ensures Octets16(v) == s[i..i + 2]
  {
    var low: int, high: int := s[i], s[i + 1];
    low + 0x100 * high
  }

  /** The four octets of a 32-bit integer, least significant first. */
  function Octets32(v: int): (s: seq<byte>)
    requires 0 <= v < 0x1_0000_0000
    ensures |s| == 4
  {
    Octets16(v % 0x1_0000) + Octets16(v / 0x1_0000)
  }

  /** The 32-bit integer stored at the front. */
  function Int32(s: seq<byte>): (v: int)
    requires 4 <= |s|
    ensures 0 <= v < 0x1_0000_0000
  {
    var low, high := Int16(s, 0), Int16(s, 2);
    low + 0x1_0000 * high
  }

  lemma Int32OfOctets32(v: int, s: seq<byte>)
    requires 0 <= v < 0x1_0000_0000
    requires Octets32(v) <= s
    ensures Int32(s) == v
  {
    assert s[0] == Octets32(v)[0] && s[1] == Octets32(v)[1] && s[2] == Octets32(v)[2] && s[3] == Octets32(v)[3];
  }
}
