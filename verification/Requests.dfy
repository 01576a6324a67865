/** What the server makes of a request, by stage (src/server/server/receive/receive.c). */
module Requests {
  import opened Bytes
  import opened Framing
  import opened Stream

  datatype Task = SendBatch | SendFaulty(arg: seq<byte>) | SendEos | SendAck | Unset

  datatype Reply = Ack | Eos | Packets(packets: seq<Packet>)

  predicate IsAck(flags: byte) { flags % 2 == 1 }
  predicate IsRej(flags: byte) { flags / 2 % 2 == 1 }
  predicate IsRR(flags: byte) { flags / 4 % 2 == 1 }
  predicate IsQty(flags: byte) { flags / 8 % 2 == 1 }

  /** A slot just taken for a new address. */
  function Connected(chunkSize: nat): ClientState {
    ClientState(Initial, true, 0, 0, 0, 0, chunkSize, 0)
  }

  /** The request carries the argument that its flag announces. */
  predicate Readable(req: Packet) {
    && (IsAck(req.flags) || IsQty(req.flags) ==> |req.data| >= 1)
    && (IsRej(req.flags) ==> |req.data| >= 4)
  }

  function WithQuality(st: ClientState, quality: byte): ClientState {
    st.(quality := quality, perBatch := BatchPackets(quality))
  }

  /**
   * The new state, and what is to be sent. Unset marks the requests for which the source leaves the
   * latter, or its argument, uninitialised; a REJ before the first RR is one of them.
   */
  function Process(song: Song, st: ClientState, req: Packet): (ClientState, Task)
    requires Readable(req)
  {
    match st.stage
    case Initial =>
      if IsAck(req.flags) then (WithQuality(st, req.data[0]).(chunkSize := PACKET_SIZE), SendAck)
      else if IsRR(req.flags) then (st.(stage := Intermediate), SendBatch)
      else if IsRej(req.flags) then (st.(stage := Intermediate), Unset)
      else (st, Unset)
    case Intermediate =>
      if !st.inUse then (st, SendEos)
      else if IsRR(req.flags) then (st, SendBatch)
      else if IsRej(req.flags) then (st, SendFaulty(req.data))
      else if IsQty(req.flags) then (WithQuality(st, req.data[0]), SendAck)
      else (st, Unset)
    case Final =>
      if !st.inUse || IsRR(req.flags) then
        if st.bytesSent < song.payload then (st, SendBatch) else (st.(inUse := false), SendEos)
      else if IsRej(req.flags) then (st, SendFaulty(req.data))
      else if IsQty(req.flags) then (WithQuality(st, req.data[0]), SendAck)
      else (st, Unset)
  }

  /** Sending it; order is the sending order of a batch. */
  function Perform(song: Song, st: ClientState, task: Task, order: seq<byte>): (ClientState, Reply)
    requires task != Unset
    requires task.SendFaulty? ==> |task.arg| >= 4
  {
    match task
    case SendAck => (st, Ack)
    case SendEos => (st, Eos)
    case SendBatch =>
      (AfterBatch(song, st), Packets(PacketsOf(song, st.quality, Burst(song, st, order, false))))
    case SendFaulty(arg) =>
      (AfterResend(song, st, Int32(arg), arg[4..]),
       Packets(PacketsOf(song, st.quality, ResendPieces(song, st, Int32(arg), arg[4..]))))
  }

  /** The requests the server answers in a defined way. */
  predicate Defined(song: Song, st: ClientState, req: Packet) {
    Readable(req) && Process(song, st, req).1 != Unset
  }

  function Serve(song: Song, st: ClientState, req: Packet, order: seq<byte>): (ClientState, Reply)
    requires Defined(song, st, req)
  {
    var (s, task) := Process(song, st, req);
    Perform(song, s, task, order)
  }

  // -- The client's requests (src/client/client/send/send.c) -------------------------------

  function InitialAck(quality: byte): Packet {
    Packet(FLAG_ACK, 0, [quality])
  }

  function RR(batchNr: nat): Packet
    requires batchNr < TWO32
  {
    Packet(FLAG_RR, 0, Octets32(batchNr))
  }

  function Rej(batchNr: nat, nrs: seq<byte>): Packet
    requires batchNr < TWO32
  {
    Packet(FLAG_REJ, 0, Octets32(batchNr) + nrs)
  }

  function Qty(quality: byte): Packet {
    Packet(FLAG_QTY, 0, [quality])
  }

  /** The requests as octets: the flag of each, and the batch number with its low octet first. */
  lemma RequestsAre(nr: nat, nrs: seq<byte>, quality: byte)
    requires nr < TWO32
    ensures RR(nr).flags == 0x04 && |RR(nr).data| == 4 && Number32(RR(nr).data) == nr
    ensures Rej(nr, nrs).flags == 0x02 && |Rej(nr, nrs).data| == 4 + |nrs|
    ensures Number32(Rej(nr, nrs).data) == nr && Rej(nr, nrs).data[4..] == nrs
    ensures Qty(quality) == Packet(0x08, 0, [quality]) && InitialAck(quality) == Packet(0x01, 0, [quality])
  {
    var s := Octets32(nr);
    assert s[0] == nr % 0x1_0000 % 256 && s[1] == nr % 0x1_0000 / 256;
    assert s[2] == nr / 0x1_0000 % 256 && s[3] == nr / 0x1_0000 / 256;
    assert Number32(s) == nr;
    assert Rej(nr, nrs).data[..4] == s;
  }

  function Number32(s: seq<byte>): int
    requires |s| >= 4
  {
    var a: int, b: int, c: int, d: int := s[0], s[1], s[2], s[3];
    a + 0x100 * b + 0x1_0000 * c + 0x100_0000 * d
  }

  /**
   * What a request is taken for, by the bits of its flags: an RR before a REJ before a QTY, and
   * before the first RR only an ACK and an RR mean anything.
   */
  lemma TakenFor(song: Song, st: ClientState, req: Packet)
    requires Readable(req)
    ensures var ack, rej, rr, qty := req.flags % 2 == 1, req.flags / 2 % 2 == 1, req.flags / 4 % 2 == 1,
                                     req.flags / 8 % 2 == 1;
            var (s, task) := Process(song, st, req);
            && (st.stage == Initial ==>
                  && (ack ==> task == SendAck && s.quality == req.data[0] && s.stage == Initial)
                  && (!ack && rr ==> task == SendBatch && s.stage == Intermediate)
                  && (!ack && !rr ==> task == Unset))
            && (st.stage != Initial && st.inUse ==>
                  && (rr ==> task == if st.stage == Final && st.bytesSent >= song.payload then SendEos else SendBatch)
                  && (!rr && rej ==> task == SendFaulty(req.data) && s == st)
                  && (!rr && !rej && qty ==> task == SendAck && s.quality == req.data[0] && s.stage == st.stage)
                  && (!rr && !rej && !qty ==> task == Unset && s == st))
            && (st.stage == Intermediate && !st.inUse ==> task == SendEos)
            && (st.stage == Final && !st.inUse ==>
                  task == if st.bytesSent >= song.payload then SendEos else SendBatch)
            && (st.inUse && !s.inUse <==> st.inUse && st.stage != Initial && task == SendEos)
            && s.batchNr == st.batchNr && s.bytesSent == st.bytesSent && s.musicPtr == st.musicPtr
  {
    hide BatchPackets;
  }

  /** What each client request does at a connected server. */
  lemma ServeRR(song: Song, st: ClientState, batchNr: nat, order: seq<byte>)
    requires batchNr < TWO32
    ensures var s := if st.stage == Initial then st.(stage := Intermediate) else st;
            st.inUse && (st.stage != Final || st.bytesSent < song.payload) ==>
              && Defined(song, st, RR(batchNr))
              && Serve(song, st, RR(batchNr), order)
              == (AfterBatch(song, s), Packets(PacketsOf(song, s.quality, Burst(song, s, order, false))))
  {
    hide AfterBatch, Burst, PacketsOf;
  }

  lemma ServeRej(song: Song, st: ClientState, batchNr: nat, nrs: seq<byte>, order: seq<byte>)
    requires batchNr < TWO32 && st.inUse && st.stage != Initial
    ensures Defined(song, st, Rej(batchNr, nrs))
    ensures Serve(song, st, Rej(batchNr, nrs), order)
         == (AfterResend(song, st, batchNr, nrs),
             Packets(PacketsOf(song, st.quality, ResendPieces(song, st, batchNr, nrs))))
  {
    hide AfterResend, ResendPieces, PacketsOf;
    var data := Rej(batchNr, nrs).data;
    Int32OfOctets32(batchNr, data);
    assert data[4..] == nrs;
  }

  lemma ServeQty(song: Song, st: ClientState, quality: byte, order: seq<byte>)
    requires st.inUse && st.stage != Initial
    ensures Defined(song, st, Qty(quality))
    ensures Serve(song, st, Qty(quality), order) == (WithQuality(st, quality), Ack)
  {
  }
}
