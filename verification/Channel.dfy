/** One burst over the network: packets are lost, damaged or delivered once, in any order. */
module Channel {
  import opened Bytes
  import opened Framing
  import opened Stream
  import opened Reassembly
  import opened StreamContent
  import Codec

  /** A datagram that arrives: the index of the packet it was made from, and the bit that was flipped. */
  datatype Arrival = Intact(index: nat) | Damaged(index: nat, octet: nat, bit: nat)

  /** The arrivals of one burst, and the memory that each of them is received into. */
  datatype Delivery = Delivery(arrivals: seq<Arrival>, head: nat -> nat -> byte, body: nat -> nat -> byte)

  ghost predicate Possible(packets: seq<Packet>, arrivals: seq<Arrival>) {
    && (forall p :: p in packets ==> |p.data| <= MAX_DATA)
    && (forall k :: 0 <= k < |arrivals| ==>
          && arrivals[k].index < |packets|
          && (arrivals[k].Damaged? ==>
                arrivals[k].octet < 8 + |packets[arrivals[k].index].data| && arrivals[k].bit < 8))
    && (forall k, l :: 0 <= k < l < |arrivals| ==> arrivals[k].index != arrivals[l].index)
  }

  function Datagram(packets: seq<Packet>, a: Arrival): seq<byte>
    requires a.index < |packets| && |packets[a.index].data| <= MAX_DATA
    requires a.Damaged? ==> a.octet < 8 + |packets[a.index].data| && a.bit < 8
  {
    var wire := Wire(packets[a.index]);
    match a
    case Intact(_) => wire
    case Damaged(_, octet, bit) => wire[octet := FlipBit(wire[octet], bit)]
  }

  /** What the checks of com_receive make of the arrivals. */
  function Checked(packets: seq<Packet>, d: Delivery): (got: seq<Received>)
    requires Possible(packets, d.arrivals)
    ensures |got| == |d.arrivals|
  {
    seq(|d.arrivals|, k requires 0 <= k < |d.arrivals| =>
      assert packets[d.arrivals[k].index] in packets;
      Parse(Datagram(packets, d.arrivals[k]), d.head(k), d.body(k)))
  }

  /** Intact packets come through unchanged, damaged ones are recognised, whatever memory held before. */
  lemma CheckedIs(packets: seq<Packet>, d: Delivery, k: nat)
    requires Possible(packets, d.arrivals) && k < |d.arrivals|
    ensures Checked(packets, d)[k]
         == if d.arrivals[k].Intact? then RecvOk(packets[d.arrivals[k].index]) else RecvFaulty
  {
    hide Parse, Wire, FlipBit;
    var a := d.arrivals[k];
    assert packets[a.index] in packets;
    match a
    case Intact(i) => RoundTrip(packets[i], d.head(k), d.body(k));
    case Damaged(i, octet, bit) => OneBitFlipped(packets[i], octet, bit, d.head(k), d.body(k));
  }

  /** Looking for an EOS before a round consumes a first datagram whose header check fails. */
  function AfterPeek(d: Delivery): Delivery {
    if d.arrivals != [] && d.arrivals[0].Damaged? && d.arrivals[0].octet < 8
    then Delivery(d.arrivals[1..], k => d.head(k + 1), k => d.body(k + 1))
    else d
  }

  /** The first datagram is consumed exactly when its header fails, and then without being counted. */
  lemma PeekConsumes(packets: seq<Packet>, d: Delivery)
    requires Possible(packets, d.arrivals) && d.arrivals != []
    ensures |Datagram(packets, d.arrivals[0])| >= 8
    ensures AfterPeek(d).arrivals
         == if HeaderFails(Datagram(packets, d.arrivals[0])) then d.arrivals[1..] else d.arrivals
  {
    hide Wire, FlipBit, HeaderFails;
    var a := d.arrivals[0];
    var p := packets[a.index];
    assert p in packets;
    match a
    case Intact(_) => HeaderIntact(p);
    case Damaged(_, octet, bit) =>
      FlipBitMoves(Wire(p)[octet], bit);
      HeaderDamaged(p, octet, FlipBit(Wire(p)[octet], bit));
  }

  lemma AfterPeekPossible(packets: seq<Packet>, d: Delivery)
    requires Possible(packets, d.arrivals)
    ensures Possible(packets, AfterPeek(d).arrivals)
    ensures forall i :: Intact(i) in d.arrivals ==> Intact(i) in AfterPeek(d).arrivals
  {
    assert d.arrivals != [] ==> d.arrivals == [d.arrivals[0]] + d.arrivals[1..];
  }

  // -- Bursts cut from one stretch of music ------------------------------------------------

  /** A packet's place in the batch after its data was copied there. */
  function Pad(x: seq<byte>): (p: seq<byte>)
    requires |x| <= PACKET_SIZE
    ensures |p| == PACKET_SIZE
  {
    x + Zeros(PACKET_SIZE - |x|)
  }

  /**
   * The sound that packet j of a batch starting at base is to leave with the client: what the level
   * preserves of a whole packet, and of the rest at the end of the music.
   */
  function Target(song: Song, quality: int, base: int, j: nat): (t: seq<byte>)
    ensures |t| == PACKET_SIZE
  {
    var at := base + PACKET_SIZE * j;
    var x := Sound(song, at, Chunk(song, at));
    Codec.PreservedIs(quality, x);
    if at + PACKET_SIZE <= song.payload then Codec.Heard(quality, x) else Pad(Codec.Preserved(quality, x))
  }

  /** The packets carry the listed numbers of the batch starting at base. */
  ghost predicate Carry(song: Song, quality: int, base: int, nrs: seq<byte>, packets: seq<Packet>) {
    && |packets| == |nrs|
    && forall i :: 0 <= i < |nrs| ==>
         var at := base + PACKET_SIZE * nrs[i];
         packets[i] == Packet(FLAG_NONE, nrs[i], Codec.Encode(quality, Sound(song, at, Chunk(song, at))))
  }

  ghost predicate Wanted(raw: Raw, nrs: seq<byte>) {
    && (forall i :: 0 <= i < |nrs| ==> nrs[i] < |raw.recv| && !raw.recv[nrs[i]])
    && (forall i, j :: 0 <= i < j < |nrs| ==> nrs[i] != nrs[j])
    && |nrs| <= |raw.recv| - raw.size
  }

  /** Every packet marked holds its sound, every other place nothing. */
  ghost predicate Sounds(raw: Raw, song: Song, quality: int, base: int) {
    forall j :: 0 <= j < |raw.recv| ==>
      && PACKET_SIZE * j + PACKET_SIZE <= |raw.data|
      && Slot(raw, j) == if raw.recv[j] then Target(song, quality, base, j) else Zeros(PACKET_SIZE)
  }

  /** What a round keeps: no packet counted twice, and every packet counted right. */
  ghost predicate Faithful(raw: Raw, amount: nat, song: Song, quality: int, base: int) {
    Shaped(raw, amount) && Count(raw.recv) == raw.size && Sounds(raw, song, quality, base)
  }

  /** A packet decoded into an empty place leaves its target there. */
  lemma CarriedDecodes(song: Song, quality: int, base: int, nrs: seq<byte>, packets: seq<Packet>, i: nat)
    requires Carry(song, quality, base, nrs, packets) && i < |nrs|
    ensures |Codec.Decode(quality, packets[i].data)| <= PACKET_SIZE
    ensures Put(Zeros(PACKET_SIZE), 0, Codec.Decode(quality, packets[i].data)) == Target(song, quality, base, nrs[i])
    ensures |packets[i].data| <= PACKET_SIZE
  {
    hide Codec.Decode, Codec.Encode, Codec.Heard, Codec.Preserved, Sound;
    var at := base + PACKET_SIZE * nrs[i];
    var x := Sound(song, at, Chunk(song, at));
    Codec.DecodeFits(quality, x);
    Codec.PreservedIs(quality, x);
    PutPads(Codec.Decode(quality, packets[i].data));
    if at + PACKET_SIZE <= song.payload {
      Codec.CodecRoundTrip(quality, x);
    }
  }

  lemma PutPads(x: seq<byte>)
    requires |x| <= PACKET_SIZE
    ensures Put(Zeros(PACKET_SIZE), 0, x) == Pad(x)
    ensures |x| == PACKET_SIZE ==> Pad(x) == x
  {
  }

  /** The target before the end of the music, across it, and behind it. */
  lemma TargetIs(song: Song, quality: int, base: int, j: nat)
    ensures var at := base + PACKET_SIZE * j;
            && (at + PACKET_SIZE <= song.payload ==>
                  Target(song, quality, base, j) == Codec.Heard(quality, Sound(song, at, PACKET_SIZE)))
            && (at < song.payload < at + PACKET_SIZE ==>
                  var rest := Codec.Preserved(quality, Sound(song, at, song.payload - at));
                  |rest| <= song.payload - at && Target(song, quality, base, j) == Pad(rest))
            && (at >= song.payload ==> Target(song, quality, base, j) == Zeros(PACKET_SIZE))
  {
    hide Target, Codec.Heard, Codec.Preserved, Sound, Pad, Zeros;
    var at := base + PACKET_SIZE * j;
    if at + PACKET_SIZE <= song.payload {
      TargetBefore(song, quality, base, j, at);
    } else if at < song.payload {
      TargetAcross(song, quality, base, j, at);
    } else {
      TargetBehind(song, quality, base, j, at);
    }
  }

  lemma TargetBefore(song: Song, quality: int, base: int, j: nat, at: int)
    requires at == base + PACKET_SIZE * j && at + PACKET_SIZE <= song.payload
    ensures Target(song, quality, base, j) == Codec.Heard(quality, Sound(song, at, PACKET_SIZE))
  {
    hide Codec.Heard, Codec.Preserved, Sound;
  }

  lemma TargetAcross(song: Song, quality: int, base: int, j: nat, at: int)
    requires at == base + PACKET_SIZE * j && at < song.payload < at + PACKET_SIZE
    ensures var rest := Codec.Preserved(quality, Sound(song, at, song.payload - at));
            |rest| <= song.payload - at && Target(song, quality, base, j) == Pad(rest)
  {
    hide Codec.Heard, Codec.Preserved, Sound, Pad;
    Codec.PreservedIs(quality, Sound(song, at, song.payload - at));
    assert Chunk(song, at) == song.payload - at;
  }

  lemma TargetBehind(song: Song, quality: int, base: int, j: nat, at: int)
    requires at == base + PACKET_SIZE * j && at >= song.payload
    ensures Target(song, quality, base, j) == Zeros(PACKET_SIZE)
  {
    hide Codec.Heard, Codec.Preserved, Sound, Pad, Zeros;
    Codec.PreservedIs(quality, Sound(song, at, 0));
    PadIs(Codec.Preserved(quality, Sound(song, at, 0)));
  }

  lemma PadIs(x: seq<byte>)
    requires |x| <= PACKET_SIZE
    ensures Pad(x) == x + Zeros(PACKET_SIZE - |x|)
    ensures |x| == 0 ==> Pad(x) == Zeros(PACKET_SIZE)
  {
  }

  /** Where a level loses nothing, the target is the music itself, and silence after its end. */
  lemma LosslessTarget(song: Song, quality: int, base: int, j: nat)
    requires quality >= 3
    ensures Target(song, quality, base, j) == Stretch(song, base + PACKET_SIZE * j, PACKET_SIZE)
  {
    hide Sound, Zeros;
    assert Zeros(0) == [];
  }

  /** The arrivals of a burst of wanted packets meet all that a round of receiving asks for. */
  lemma BurstIsOnce(
    raw: Raw, amount: nat, song: Song, quality: int, base: int, nrs: seq<byte>, packets: seq<Packet>, d: Delivery)
    requires Shaped(raw, amount) && Wanted(raw, nrs) && Carry(song, quality, base, nrs, packets)
    requires Possible(packets, d.arrivals)
    ensures var got := Checked(packets, d);
            AllFit(got, quality, amount) && Once(got, raw.recv, amount) && |got| <= amount - raw.size
  {
    hide Codec.Decode, Codec.Encode, Target, Sound, Checked;
    var got := Checked(packets, d);
    forall k | 0 <= k < |got|
      ensures Fits(got[k], quality, amount) && !got[k].RecvTimeout?
      ensures Accepted(got[k], amount) ==> got[k].packet.nr < amount && !raw.recv[got[k].packet.nr]
    {
      CheckedIs(packets, d, k);
      CarriedDecodes(song, quality, base, nrs, packets, d.arrivals[k].index);
    }
    forall k, l | 0 <= k < l < |got| && Accepted(got[k], amount) && Accepted(got[l], amount)
      ensures got[k].packet.nr != got[l].packet.nr
    {
      CheckedIs(packets, d, k);
      CheckedIs(packets, d, l);
      assert d.arrivals[k].index != d.arrivals[l].index;
    }
    FewerThanSent(d.arrivals, |packets|);
  }

  /** Distinct indices below n are at most n. */
  lemma FewerThanSent(arrivals: seq<Arrival>, n: nat)
    requires forall k :: 0 <= k < |arrivals| ==> arrivals[k].index < n
    requires forall k, l :: 0 <= k < l < |arrivals| ==> arrivals[k].index != arrivals[l].index
    ensures |arrivals| <= n
    decreases n
  {
    if arrivals != [] {
      assert arrivals[0].index < n;
      if i :| 0 <= i < |arrivals| && arrivals[i].index == n - 1 {
        var rest := arrivals[..i] + arrivals[i + 1..];
        forall k | 0 <= k < |rest|
          ensures rest[k].index < n - 1
        {
          var k' := if k < i then k else k + 1;
          assert rest[k] == arrivals[k'];
        }
        FewerThanSent(rest, n - 1);
      } else {
        FewerThanSent(arrivals, n - 1);
      }
    }
  }
}
