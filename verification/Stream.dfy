/**
 * The server's side of one client's stream: what send_batch and send_faulty send and how they
 * move the stream position (src/server/server/send/send.c).
 */
module Stream {
  import opened Bytes
  import opened Framing
  import Codec

  const PACKET_SIZE := 256

  const TWO32 := 0x1_0000_0000
  const TWO64 := 0x1_0000_0000_0000_0000

  /** Packets per batch, by quality level; no batch for an unknown level. */
  function BatchPackets(quality: int): (n: nat)
    ensures n <= 255
    ensures 1 <= quality <= 5 <==> n > 0
  {
    match quality
    case 1 => 40
    case 2 => 60
    case 3 => 100
    case 4 => 200
    case 5 => 255
    case _ => 0
  }

  /** The mapped music: octets by their distance from the first sample, payload of which are samples. */
  datatype Song = Song(memory: int -> byte, payload: nat)

  datatype Stage = Initial | Intermediate | Final

  datatype ClientState = ClientState(
    stage: Stage, inUse: bool, batchNr: nat, quality: int, bytesSent: nat, perBatch: nat, chunkSize: nat, musicPtr: int)
  {
    /** The size of one batch in octets. */
    function BatchBytes(): int {
      perBatch * chunkSize
    }
  }

  /** Arithmetic of size_t. */
  function SizeT(x: int): nat {
    x % TWO64
  }

  lemma SizeTSmall(x: int)
    requires 0 <= x < TWO64
    ensures SizeT(x) == x
  {
  }

  /** One packet sent: its number, and the stretch of music it was cut from. */
  datatype Piece = Piece(nr: byte, at: int, size: nat)

  function Sound(song: Song, at: int, size: nat): (s: seq<byte>)
    ensures |s| == size
  {
    seq<byte>(size, i requires 0 <= i => song.memory(at + i))
  }

  /** The packet that carries a piece; its size field has sixteen bits. */
  function PacketOf(song: Song, quality: int, piece: Piece): Packet {
    Packet(FLAG_NONE, piece.nr, Codec.Encode(quality, Sound(song, piece.at, piece.size % 0x1_0000)))
  }

  function PacketsOf(song: Song, quality: int, pieces: seq<Piece>): (ps: seq<Packet>)
    ensures |ps| == |pieces|
  {
    seq(|pieces|, i requires 0 <= i < |pieces| => PacketOf(song, quality, pieces[i]))
  }

  // -- One packet -------------------------------------------------------------------

  /** Octets to send: a chunk, or in the final stage what the byte counter says is left. */
  function SendSize(song: Song, st: ClientState): nat {
    if st.stage == Final && st.bytesSent + st.chunkSize > song.payload
    then SizeT(song.payload - st.bytesSent)
    else st.chunkSize
  }

  function PieceOf(song: Song, st: ClientState, nr: byte): Piece {
    Piece(nr, st.musicPtr + nr * st.chunkSize, SendSize(song, st))
  }

  /** The state after one packet; only a first sending counts. */
  function Counted(song: Song, st: ClientState, resend: bool): ClientState {
    if resend then st else st.(bytesSent := SizeT(st.bytesSent + SendSize(song, st)))
  }

  // -- A burst ----------------------------------------------------------------------

  function AfterBurst(song: Song, st: ClientState, n: nat, resend: bool): ClientState {
    if n == 0 then st else Counted(song, AfterBurst(song, st, n - 1, resend), resend)
  }

  function Burst(song: Song, st: ClientState, nrs: seq<byte>, resend: bool): (ps: seq<Piece>)
    ensures |ps| == |nrs|
  {
    if nrs == [] then [] else
    var n := |nrs| - 1;
    Burst(song, st, nrs[..n], resend) + [PieceOf(song, AfterBurst(song, st, n, resend), nrs[n])]
  }

  // -- A batch ----------------------------------------------------------------------

  function Moved(st: ClientState, delta: int): ClientState {
    st.(musicPtr := st.musicPtr + delta)
  }

  /** The state after a batch: pointer and batch counter advance, and the end may come in sight. */
  function AfterBatch(song: Song, st: ClientState): ClientState {
    var s := AfterBurst(song, st, st.perBatch, false);
    var t := Moved(s, st.BatchBytes()).(batchNr := (s.batchNr + 1) % TWO32);
    if t.bytesSent + st.BatchBytes() >= song.payload then t.(stage := Final) else t
  }

  // -- A resend -----------------------------------------------------------------------

  /** A REJ is taken for a request of the next batch when it names the batch after the server's. */
  predicate NamesNext(st: ClientState, batchNr: nat) {
    (batchNr - 1) % TWO32 == st.batchNr
  }

  /** The state while the listed packets are sent. */
  function Rewound(st: ClientState, batchNr: nat): ClientState {
    if NamesNext(st, batchNr) then st.(batchNr := batchNr) else Moved(st, -st.BatchBytes())
  }

  function ResendPieces(song: Song, st: ClientState, batchNr: nat, nrs: seq<byte>): (ps: seq<Piece>)
    ensures |ps| == |nrs|
  {
    Burst(song, Rewound(st, batchNr), nrs, !NamesNext(st, batchNr))
  }

  function AfterResend(song: Song, st: ClientState, batchNr: nat, nrs: seq<byte>): ClientState {
    Moved(AfterBurst(song, Rewound(st, batchNr), |nrs|, !NamesNext(st, batchNr)), st.BatchBytes())
  }

  // -- What bursts do -------------------------------------------------------------------

  /** A burst moves nothing but the byte counter, and a resend not even that. */
  lemma {:induction false} BurstKeeps(song: Song, st: ClientState, n: nat, resend: bool)
    ensures var s := AfterBurst(song, st, n, resend);
            s == st.(bytesSent := s.bytesSent) && (resend ==> s == st)
  {
    if n > 0 {
      BurstKeeps(song, st, n - 1, resend);
    }
  }

  lemma {:induction false} BurstAt(song: Song, st: ClientState, nrs: seq<byte>, resend: bool, i: nat)
    requires i < |nrs|
    ensures Burst(song, st, nrs, resend)[i] == PieceOf(song, AfterBurst(song, st, i, resend), nrs[i])
  {
    var n := |nrs| - 1;
    if i < n {
      BurstAt(song, st, nrs[..n], resend, i);
    }
  }

  /** The byte counter after n packets sent for the first time: in the final stage it stops at the end. */
  function CountAfter(song: Song, st: ClientState, n: nat): int {
    var sum := st.bytesSent + n * PACKET_SIZE;
    if st.stage == Final && sum > song.payload then song.payload else sum
  }

  lemma {:induction false} BurstCounts(song: Song, st: ClientState, n: nat)
    requires st.chunkSize == PACKET_SIZE && st.bytesSent + n * PACKET_SIZE < TWO64
    requires st.stage == Final ==> st.bytesSent <= song.payload < TWO64
    ensures AfterBurst(song, st, n, false) == st.(bytesSent := CountAfter(song, st, n))
  {
    hide SizeT;
    if n > 0 {
      BurstCounts(song, st, n - 1);
      var s := AfterBurst(song, st, n - 1, false);
      if s.stage == Final {
        SizeTSmall(song.payload - s.bytesSent);
      }
      SizeTSmall(s.bytesSent + SendSize(song, s));
    }
  }

  /** A packet is sent whole unless the final stage has less than a packet left to count. */
  predicate SendsWhole(song: Song, st: ClientState) {
    st.stage != Final || st.bytesSent + st.chunkSize <= song.payload
  }

  /**
   * Packets sent again are cut from the places of their numbers, and they are whole exactly when
   * the byte counter, which already stands after them, still leaves room for a packet.
   */
  lemma ResentPieces(song: Song, st: ClientState, nrs: seq<byte>, i: nat)
    requires i < |nrs| && st.chunkSize > 0 && st.bytesSent <= song.payload < TWO64
    ensures var p := Burst(song, st, nrs, true)[i];
            && p.nr == nrs[i] && p.at == st.musicPtr + nrs[i] * st.chunkSize
            && (p.size == st.chunkSize <==> SendsWhole(song, st))
            && (!SendsWhole(song, st) ==> p.size == song.payload - st.bytesSent)
  {
    hide SizeT, Burst, AfterBurst;
    BurstAt(song, st, nrs, true, i);
    BurstKeeps(song, st, i, true);
    SizeTSmall(song.payload - st.bytesSent);
  }

  // -- Conservation -----------------------------------------------------------------------

  /** A REJ for a batch already sent leaves no trace, although the pointer is rewound in between. */
  lemma ResendLeavesNoTrace(song: Song, st: ClientState, batchNr: nat, nrs: seq<byte>)
    requires !NamesNext(st, batchNr)
    ensures AfterResend(song, st, batchNr, nrs) == st
  {
    BurstKeeps(song, Rewound(st, batchNr), |nrs|, true);
  }

  /**
   * A REJ naming the next batch and listing all of it does in the intermediate stage what an RR
   * does, except that it does not look for the end of the stream.
   */
  lemma ResendOfNextIsBatch(song: Song, st: ClientState, batchNr: nat, order: seq<byte>)
    requires st.stage == Intermediate && batchNr < TWO32 && NamesNext(st, batchNr) && |order| == st.perBatch
    ensures ResendPieces(song, st, batchNr, order) == Burst(song, st, order, false)
    ensures AfterResend(song, st, batchNr, order) == AfterBatch(song, st).(stage := Intermediate)
  {
    hide SizeT, Burst, AfterBurst;
    BurstIgnoresBatchNr(song, st, batchNr, order);
    BurstKeeps(song, st, |order|, false);
    NextNr(st, batchNr);
  }

  lemma NextNr(st: ClientState, batchNr: nat)
    requires batchNr < TWO32
    ensures NamesNext(st, batchNr) <==> st.batchNr < TWO32 && batchNr == (st.batchNr + 1) % TWO32
  {
  }

  lemma {:induction false} BurstIgnoresBatchNr(song: Song, st: ClientState, nr: nat, nrs: seq<byte>)
    ensures AfterBurst(song, st.(batchNr := nr), |nrs|, false) == AfterBurst(song, st, |nrs|, false).(batchNr := nr)
    ensures Burst(song, st.(batchNr := nr), nrs, false) == Burst(song, st, nrs, false)
  {
    hide SizeT;
    if nrs != [] {
      BurstIgnoresBatchNr(song, st, nr, nrs[..|nrs| - 1]);
    }
  }
}
