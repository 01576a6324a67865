/** Datagrams: serialising a packet and checking a received one (src/communication/com.c). */
module Framing {
  import opened Bytes
  import Fletcher

  datatype Packet = Packet(flags: byte, nr: byte, data: seq<byte>)

  datatype Received = RecvOk(packet: Packet) | RecvError | RecvFaulty | RecvTimeout

  const FLAG_NONE: byte := 0x00
  const FLAG_ACK: byte := 0x01
  const FLAG_REJ: byte := 0x02
  const FLAG_RR: byte := 0x04
  const FLAG_QTY: byte := 0x08

  /** The largest payload whose datagram length still fits the 16-bit size variable of convert_send. */
  const MAX_DATA := 65527

  // -- The wire image ------------------------------------------------------------

  function HeaderTail(size: int, flags: byte, nr: byte, checksum2: int): (h: seq<byte>)
    requires 0 <= size < 0x1_0000 && 0 <= checksum2 < 0x1_0000
    ensures |h| == 6
  {
    Octets16(size) + [flags, nr] + Octets16(checksum2)
  }

  /** Checksum 1, size, flags, packet number, checksum 2, data. */
  function Wire(p: Packet): (w: seq<byte>)
    requires |p.data| < 0x1_0000
    ensures |w| == 8 + |p.data|
  {
    var tail := HeaderTail(|p.data|, p.flags, p.nr, Fletcher.Checksum(p.data));
    Octets16(Fletcher.Checksum(tail)) + tail + p.data
  }

  /** Uninitialised memory into which a datagram was copied: what it does not reach stays as it was. */
  function Filled(datagram: seq<byte>, n: nat, stale: nat -> byte): (s: seq<byte>)
    ensures |s| == n
  {
    seq(n, i requires 0 <= i => if i < |datagram| then datagram[i] else stale(i))
  }

  /** The two-stage check: the header first, then the data that the header announces. */
  function Parse(datagram: seq<byte>, head: nat -> byte, body: nat -> byte): Received {
    var h := Filled(datagram, 8, head);
    var size, checksum2 := Int16(h, 2), Int16(h, 6);
    if Int16(h, 0) != Fletcher.Checksum(HeaderTail(size, h[4], h[5], checksum2)) then RecvFaulty else
    var data := Filled(datagram, 8 + size, body)[8..];
    if checksum2 != Fletcher.Checksum(data) then RecvFaulty else
    RecvOk(Packet(h[4], h[5], data))
  }

  // -- The procedures ------------------------------------------------------------

  method MakeChecksum1(size: int, flags: byte, nr: byte, checksum2: int) returns (checksum: int)
    requires 0 <= size < 0x1_0000 && 0 <= checksum2 < 0x1_0000
    ensures checksum == Fletcher.Checksum(HeaderTail(size, flags, nr, checksum2))
  {
    hide Fletcher.IsChecksum;
    var buf := HeaderTail(size, flags, nr, checksum2);
    var c := Fletcher.Generate16(buf);
    checksum := c as int;
  }

  method Put16(buf: array<byte>, at: nat, v: int)
    requires at + 2 <= buf.Length && 0 <= v < 0x1_0000
    modifies buf
    ensures buf[..] == old(buf[..])[at := v % 256][at + 1 := v / 256]
  {
    buf[at] := v % 256;
    buf[at + 1] := v / 256;
  }

  method ConvertSend(p: Packet) returns (buf: array<byte>)
    requires |p.data| <= MAX_DATA
    ensures fresh(buf)
    ensures buf[..] == Wire(p)
  {
    hide Fletcher.IsChecksum;
    buf := new byte[8 + |p.data|];
    var c2 := Fletcher.Generate16(p.data);
    var checksum2 := c2 as int;
    var checksum1 := MakeChecksum1(|p.data|, p.flags, p.nr, checksum2);
    Put16(buf, 0, checksum1);
    Put16(buf, 2, |p.data|);
    Put16(buf, 4, p.nr * 0x100 + p.flags);
    Put16(buf, 6, checksum2);
    var i := 0;
    while i < |p.data|
      invariant 0 <= i <= |p.data|
      invariant buf[..8] == Octets16(checksum1) + HeaderTail(|p.data|, p.flags, p.nr, checksum2)
      invariant forall k :: 0 <= k < i ==> buf[8 + k] == p.data[k]
    {
      buf[8 + i] := p.data[i];
      i := i + 1;
    }
    assert buf[8..] == p.data;
    assert buf[..] == buf[..8] + buf[8..];
  }

  method ComReceive(datagram: seq<byte>, head: nat -> byte, body: nat -> byte) returns (r: Received)
    ensures r == Parse(datagram, head, body)
  {
    hide Fletcher.IsChecksum;
    var h := Filled(datagram, 8, head);
    var checksum1, size, checksum2 := Int16(h, 0), Int16(h, 2), Int16(h, 6);
    var test := MakeChecksum1(size, h[4], h[5], checksum2);
    if checksum1 != test {
      return RecvFaulty;
    }
    var data := Filled(datagram, 8 + size, body)[8..];
    var c2 := Fletcher.Generate16(data);
    if checksum2 != c2 as int {
      return RecvFaulty;
    }
    r := RecvOk(Packet(h[4], h[5], data));
  }

  // -- The wire image, octet by octet --------------------------------------------

  /** Every octet of the image: three 16-bit fields with the low octet first, the flags, the number, the data. */
  lemma WireIs(p: Packet, i: nat)
    requires |p.data| < 0x1_0000
    ensures var w := Wire(p);
            && |w| == 8 + |p.data|
            && Value(w[0], w[1]) == Fletcher.Checksum(w[2..8])
            && Value(w[2], w[3]) == |p.data|
            && w[4] == p.flags && w[5] == p.nr
            && Value(w[6], w[7]) == Fletcher.Checksum(p.data)
            && (i < |p.data| ==> w[8 + i] == p.data[i])
  {
    hide Fletcher.Checksum;
    var tail := HeaderTail(|p.data|, p.flags, p.nr, Fletcher.Checksum(p.data));
    assert Wire(p)[2..8] == tail;
    TwoOctets(Fletcher.Checksum(tail));
    TwoOctets(|p.data|);
    TwoOctets(Fletcher.Checksum(p.data));
  }

  function Value(low: int, high: int): int {
    low + 256 * high
  }

  lemma TwoOctets(v: int)
    requires 0 <= v < 0x1_0000
    ensures Value(Octets16(v)[0], Octets16(v)[1]) == v
  {
  }

  /** What the checks see of a datagram: its octets, and where it is too short what memory held there. */
  function Seen(d: seq<byte>, n: nat, head: nat -> byte, body: nat -> byte): (s: seq<byte>)
    ensures |s| == 8 + n
    ensures forall i :: 0 <= i < 8 + n && i < |d| ==> s[i] == d[i]
  {
    Filled(d, 8, head) + Filled(d, 8 + n, body)[8..]
  }

  // -- Round trip ----------------------------------------------------------------

  /** The fields read from a datagram that starts with a wire image. */
  lemma Fields(p: Packet, d: seq<byte>, head: nat -> byte)
    requires |p.data| < 0x1_0000 && |d| >= 8
    ensures var h := Filled(d, 8, head);
            && h == d[..8]
            && (Wire(p)[..8] == d[..8] ==>
                && Int16(h, 2) == |p.data| && h[4] == p.flags && h[5] == p.nr
                && Int16(h, 6) == Fletcher.Checksum(p.data)
                && Int16(h, 0) == Fletcher.Checksum(HeaderTail(|p.data|, p.flags, p.nr, Int16(h, 6))))
  {
    var h := Filled(d, 8, head);
    assert h == d[..8];
    if Wire(p)[..8] == d[..8] {
      var tail := HeaderTail(|p.data|, p.flags, p.nr, Fletcher.Checksum(p.data));
      assert h == Octets16(Fletcher.Checksum(tail)) + tail;
    }
  }

  /**
   * A datagram long enough for its payload is accepted as p exactly when it starts with p's
   * wire image. In particular what was serialised is read back unchanged.
   */
  lemma AcceptsExactlyWireImages(p: Packet, d: seq<byte>, head: nat -> byte, body: nat -> byte)
    requires |p.data| < 0x1_0000 && |d| >= 8 + |p.data|
    ensures Parse(d, head, body) == RecvOk(p) <==> Wire(p) <= d
  {
    Fields(p, d, head);
    var h := Filled(d, 8, head);
    var n := 8 + |p.data|;
    assert Filled(d, n, body) == d[..n];
    if Wire(p) <= d {
      assert d[..8] == Wire(p)[..8];
      assert d[..n][8..] == Wire(p)[8..] == p.data;
    }
    if Parse(d, head, body) == RecvOk(p) {
      assert Int16(h, 2) == |p.data|;
      assert h == h[0..2] + h[2..4] + [h[4], h[5]] + h[6..8];
      assert h == Wire(p)[..8];
      assert Wire(p) == Wire(p)[..8] + p.data;
      assert d[..n] == d[..8] + d[..n][8..];
    }
  }

  lemma RoundTrip(p: Packet, head: nat -> byte, body: nat -> byte)
    requires |p.data| <= MAX_DATA
    ensures Parse(Wire(p), head, body) == RecvOk(p)
  {
    AcceptsExactlyWireImages(p, Wire(p), head, body);
  }

  /**
   * Any datagram, however short, is accepted as p exactly when what the checks see of it is the wire
   * image of p; every other one is faulty.
   */
  lemma AcceptsIff(p: Packet, d: seq<byte>, head: nat -> byte, body: nat -> byte)
    requires |p.data| < 0x1_0000
    ensures Parse(d, head, body) == RecvOk(p) <==> Seen(d, |p.data|, head, body) == Wire(p)
    ensures Parse(d, head, body).RecvOk? || Parse(d, head, body).RecvFaulty?
  {
    hide Fletcher.Checksum;
    var n := |p.data|;
    var s := Seen(d, n, head, body);
    AcceptsExactlyWireImages(p, s, head, body);
    assert Filled(s, 8, head) == Filled(d, 8, head);
    assert Filled(s, 8 + n, body) == s;
  }

  lemma SeenBehind(d: seq<byte>, n: nat, head: nat -> byte, body: nat -> byte, i: nat)
    requires |d| <= i < 8 + n
    ensures Seen(d, n, head, body)[i] == if i < 8 then head(i) else body(i)
  {
  }

  // -- Error detection -----------------------------------------------------------

  predicate Swaps(a: byte, b: byte) {
    (a == 0x00 && b == 0xff) || (a == 0xff && b == 0x00)
  }

  /** What one changed octet of the header tail does to the stored header checksum. */
  lemma HeaderChange(p: Packet, i: nat, v: byte, head: nat -> byte, body: nat -> byte)
    requires |p.data| < 0x1_0000 && 2 <= i < 8 && v != Wire(p)[i]
    ensures var d := Wire(p)[i := v];
            var h := Filled(d, 8, head);
            (Int16(h, 0) == Fletcher.Checksum(HeaderTail(Int16(h, 2), h[4], h[5], Int16(h, 6)))
             <==> Swaps(Wire(p)[i], v))
  {
    var w := Wire(p);
    var d := w[i := v];
    var h := Filled(d, 8, head);
    assert h == d[..8];
    var tail := HeaderTail(|p.data|, p.flags, p.nr, Fletcher.Checksum(p.data));
    assert tail == w[2..8];
    var tail' := HeaderTail(Int16(h, 2), h[4], h[5], Int16(h, 6));
    assert tail' == h[2..8] == tail[i - 2 := v];
    Fletcher.OneOctetUndetected(tail, i - 2, v);
    assert h[0..2] == Octets16(Fletcher.Checksum(tail));
  }

  /** The header of a datagram fails its own check. */
  predicate HeaderFails(datagram: seq<byte>)
    requires |datagram| >= 8
  {
    Int16(datagram, 0) != Fletcher.Checksum(datagram[2..8])
  }

  lemma HeaderIntact(p: Packet)
    requires |p.data| < 0x1_0000
    ensures !HeaderFails(Wire(p))
  {
    hide Fletcher.Checksum;
    var tail := HeaderTail(|p.data|, p.flags, p.nr, Fletcher.Checksum(p.data));
    assert Wire(p)[2..8] == tail;
    assert Wire(p)[0..2] == Octets16(Fletcher.Checksum(tail));
  }

  /** One changed octet, short of a swap, makes the header fail exactly when it is one of the header. */
  lemma HeaderDamaged(p: Packet, i: nat, v: byte)
    requires |p.data| < 0x1_0000 && i < 8 + |p.data| && v != Wire(p)[i] && !Swaps(Wire(p)[i], v)
    ensures HeaderFails(Wire(p)[i := v]) <==> i < 8
  {
    hide Fletcher.Checksum;
    HeaderIntact(p);
    var w := Wire(p);
    var d := w[i := v];
    if i >= 8 {
      assert d[0..2] == w[0..2] && d[2..8] == w[2..8];
    } else if i >= 2 {
      assert d[0..2] == w[0..2] && d[2..8] == w[2..8][i - 2 := v];
      Fletcher.OneOctetUndetected(w[2..8], i - 2, v);
    } else {
      assert d[2..8] == w[2..8];
    }
  }

  /**
   * One changed octet. Outside the swap of 0x00 and 0xff it is always caught; in either checksum
   * field it is always caught; and in the flags, the packet number or the data a swap goes through.
   * SizeSwapped says what a swap in the size does.
   */
  lemma OneOctetChanged(p: Packet, i: nat, v: byte, head: nat -> byte, body: nat -> byte)
    requires |p.data| < 0x1_0000 && i < 8 + |p.data| && v != Wire(p)[i]
    ensures var r := Parse(Wire(p)[i := v], head, body);
            && (!Swaps(Wire(p)[i], v) || i in {0, 1, 6, 7} ==> r == RecvFaulty)
            && (Swaps(Wire(p)[i], v) && i == 4 ==> r == RecvOk(p.(flags := v)))
            && (Swaps(Wire(p)[i], v) && i == 5 ==> r == RecvOk(p.(nr := v)))
            && (Swaps(Wire(p)[i], v) && i >= 8 ==> r == RecvOk(p.(data := p.data[i - 8 := v])))
  {
    var w := Wire(p);
    var d := w[i := v];
    var h := Filled(d, 8, head);
    assert h == d[..8];
    Fields(p, w, head);
    var n := 8 + |p.data|;
    assert Filled(d, n, body) == d;
    if i >= 8 {
      assert d[8..] == p.data[i - 8 := v];
      assert h == w[..8];
      Fletcher.OneOctetUndetected(p.data, i - 8, v);
    } else if i >= 2 {
      HeaderChange(p, i, v, head, body);
      assert d[8..] == p.data;
    }
  }

  /**
   * A swap of 0x00 and 0xff in the size. The header passes, and the data is cut off or goes on into
   * whatever the memory held; the packet is accepted with that data exactly when its checksum
   * happens to be the old one.
   */
  lemma SizeSwapped(p: Packet, i: nat, v: byte, head: nat -> byte, body: nat -> byte)
    requires |p.data| < 0x1_0000 && 2 <= i < 4 && Swaps(Wire(p)[i], v)
    ensures var d := Wire(p)[i := v];
            var size := Int16(d, 2);
            var data := Filled(d, 8 + size, body)[8..];
            && (size - |p.data| in if i == 2 then {255, -255} else {0xff00, -0xff00})
            && (if size <= |p.data| then data == p.data[..size] else p.data <= data)
            && Parse(d, head, body)
            == if Fletcher.Checksum(data) == Fletcher.Checksum(p.data) then RecvOk(Packet(p.flags, p.nr, data))
               else RecvFaulty
  {
    hide Fletcher.Checksum;
    var w := Wire(p);
    var d := w[i := v];
    var h := Filled(d, 8, head);
    assert h == d[..8];
    Fields(p, w, head);
    HeaderChange(p, i, v, head, body);
    SwappedSize(p, i, v);
    assert h[4] == w[..8][4] && h[5] == w[..8][5] && h[6..8] == w[..8][6..8];
    assert h[2..4] == d[2..4];
    assert d[8..] == p.data;
    FilledData(d, p.data, Int16(d, 2), body);
  }

  lemma SwappedSize(p: Packet, i: nat, v: byte)
    requires |p.data| < 0x1_0000 && 2 <= i < 4 && Swaps(Wire(p)[i], v)
    ensures Int16(Wire(p)[i := v], 2) - |p.data| in if i == 2 then {255, -255} else {0xff00, -0xff00}
  {
    hide Fletcher.Checksum;
    assert Wire(p)[2..4] == Octets16(|p.data|);
    assert Wire(p)[2] == Octets16(|p.data|)[0] && Wire(p)[3] == Octets16(|p.data|)[1];
  }

  /** What is read from a datagram with some data behind the header, when another size is announced. */
  lemma FilledData(d: seq<byte>, data: seq<byte>, size: nat, body: nat -> byte)
    requires |d| >= 8 && d[8..] == data
    ensures var got := Filled(d, 8 + size, body)[8..];
            if size <= |data| then got == data[..size] else data <= got
  {
    var got := Filled(d, 8 + size, body)[8..];
    assert forall k :: 0 <= k < size && k < |data| ==> got[k] == d[8..][k] == data[k];
  }

  /** Any damage confined to the second checksum field is caught. */
  lemma Checksum2Changed(p: Packet, c: int, head: nat -> byte, body: nat -> byte)
    requires |p.data| < 0x1_0000 && 0 <= c < 0x1_0000 && c != Fletcher.Checksum(p.data)
    ensures Parse(Wire(p)[6 := c % 256][7 := c / 256], head, body) == RecvFaulty
  {
    var d := Wire(p)[6 := c % 256][7 := c / 256];
    var h := Filled(d, 8, head);
    assert h == d[..8];
    Fields(p, Wire(p), head);
    assert h[2..4] == Wire(p)[..8][2..4];
    assert Filled(d, 8 + |p.data|, body)[8..] == p.data;
  }

  function FlipBit(b: byte, k: nat): (f: byte)
    requires k < 8
  {
    var weight := [1, 2, 4, 8, 16, 32, 64, 128][k];
    if b / weight % 2 == 0 then b + weight else b - weight
  }

  /** A flipped bit moves the octet by less than 255. */
  lemma FlipBitMoves(b: byte, k: nat)
    requires k < 8
    ensures FlipBit(b, k) != b && !Swaps(b, FlipBit(b, k))
  {
    var weight := [1, 2, 4, 8, 16, 32, 64, 128][k];
    assert 1 <= weight <= 128;
    assert FlipBit(b, k) as int == b as int + weight || FlipBit(b, k) as int == b as int - weight;
  }

  /** Every single flipped bit, in any field, is caught. */
  lemma OneBitFlipped(p: Packet, i: nat, k: nat, head: nat -> byte, body: nat -> byte)
    requires |p.data| < 0x1_0000 && i < 8 + |p.data| && k < 8
    ensures Parse(Wire(p)[i := FlipBit(Wire(p)[i], k)], head, body) == RecvFaulty
  {
    FlipBitMoves(Wire(p)[i], k);
    OneOctetChanged(p, i, FlipBit(Wire(p)[i], k), head, body);
  }
}
