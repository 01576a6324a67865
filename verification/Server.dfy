/** The server's record of one client, changed in place as in send.c and receive.c. */
module Server {
  import opened Bytes
  import opened Framing
  import opened Stream
  import opened Requests
  import Shuffle
  import StreamContent

  /** The order in which the packets of a batch go out: the natural one, or what the draws make of it. */
  ghost function OrderOf(n: nat, randomize: bool, draws: seq<Shuffle.Draw>): (order: seq<int>)
    requires n <= 255 && |draws| == n
    ensures Shuffle.IsOrder(order, n)
  {
    StreamContent.IdentityIsOrder(n);
    if randomize then Shuffle.Shuffled(StreamContent.Identity(n), draws, n) else StreamContent.Identity(n)
  }

  function FirstDraws(draws: nat -> Shuffle.Draw, n: nat): (d: seq<Shuffle.Draw>)
    ensures |d| == n
  {
    seq(n, i requires 0 <= i => draws(i))
  }

  class ClientInfo {
    var stage: Stage
    var inUse: bool
    var batchNr: nat
    var quality: int
    var bytesSent: nat
    var perBatch: nat
    var chunkSize: nat
    var musicPtr: int

    function State(): ClientState
      reads this
    {
      ClientState(stage, inUse, batchNr, quality, bytesSent, perBatch, chunkSize, musicPtr)
    }

    /** Takes a slot; the chunk size of an earlier client stays until the initial ACK. */
    method Init()
      modifies this
      ensures State() == Connected(old(chunkSize))
    {
      stage, inUse, batchNr, quality := Initial, true, 0, 0;
      bytesSent, perBatch, musicPtr := 0, 0, 0;
    }

    // -- Sending (send.c) -------------------------------------------------------------

    method PrepareMusicPacket(bytesToSend: nat, packetNr: byte, resend: bool) returns (piece: Piece)
      modifies `bytesSent
      ensures piece == Piece(packetNr, musicPtr + packetNr * chunkSize, bytesToSend)
      ensures bytesSent == if resend then old(bytesSent) else SizeT(old(bytesSent) + bytesToSend)
    {
      piece := Piece(packetNr, musicPtr + packetNr * chunkSize, bytesToSend);
      if !resend {
        bytesSent := SizeT(bytesSent + bytesToSend);
      }
    }

    method PrepareIntermediate(song: Song, packetNr: byte, resend: bool) returns (piece: Piece)
      requires stage == Intermediate
      modifies `bytesSent
      ensures piece == PieceOf(song, old(State()), packetNr)
      ensures State() == Counted(song, old(State()), resend)
    {
      piece := PrepareMusicPacket(chunkSize, packetNr, resend);
    }

    method PrepareFinal(song: Song, packetNr: byte, resend: bool) returns (piece: Piece)
      requires stage == Final
      modifies `bytesSent
      ensures piece == PieceOf(song, old(State()), packetNr)
      ensures State() == Counted(song, old(State()), resend)
    {
      var bytesToSend := chunkSize;
      if bytesSent + chunkSize > song.payload {
        bytesToSend := SizeT(song.payload - bytesSent);
      }
      piece := PrepareMusicPacket(bytesToSend, packetNr, resend);
    }

    /** Sends the listed packets; false, as the source's EINVAL, before the first request for music. */
    method SendPackets(song: Song, nrs: seq<byte>, resend: bool) returns (ok: bool, sent: seq<Packet>)
      modifies `bytesSent
      ensures ok == (stage != Initial || nrs == [])
      ensures ok ==> State() == AfterBurst(song, old(State()), |nrs|, resend)
      ensures ok ==> sent == PacketsOf(song, quality, Burst(song, old(State()), nrs, resend))
      ensures !ok ==> State() == old(State()) && sent == []
    {
      hide PacketOf, PieceOf, Counted, SizeT;
      ghost var before := State();
      ok, sent := true, [];
      var i := 0;
      while i < |nrs|
        invariant 0 <= i <= |nrs|
        invariant i > 0 ==> stage != Initial
        invariant State() == AfterBurst(song, before, i, resend)
        invariant sent == PacketsOf(song, quality, Burst(song, before, nrs[..i], resend))
        invariant stage == before.stage && quality == before.quality
      {
        var piece;
        if stage == Intermediate {
          piece := PrepareIntermediate(song, nrs[i], resend);
        } else if stage == Final {
          piece := PrepareFinal(song, nrs[i], resend);
        } else {
          return false, [];
        }
        NextPacket(song, before, nrs, resend, i);
        sent := sent + [PacketOf(song, quality, piece)];
        i := i + 1;
      }
      assert nrs[..|nrs|] == nrs;
    }

    /** The packet numbers of a batch, in the order that the simulation chose if it acts. */
    method SendingOrder(randomize: bool, draws: seq<Shuffle.Draw>) returns (order: seq<byte>)
      requires perBatch <= 255 && |draws| == perBatch
      ensures Shuffle.IsOrder(order, perBatch) && Shuffle.IsOrder(StreamContent.Identity(perBatch), perBatch)
      ensures forall nr :: 0 <= nr < perBatch ==> nr in order
      ensures !randomize ==> order == StreamContent.Identity(perBatch)
      ensures randomize ==> order == Shuffle.Shuffled(StreamContent.Identity(perBatch), draws, perBatch)
    {
      var nums := new int[perBatch];
      var i := 0;
      while i < perBatch
        invariant 0 <= i <= perBatch
        invariant forall k :: 0 <= k < i ==> nums[k] == k
      {
        nums[i] := i;
        i := i + 1;
      }
      assert nums[..] == StreamContent.Identity(perBatch);
      if randomize {
        Shuffle.RandomizePacketOrder(nums, draws);
      }
      assert forall k :: 0 <= k < perBatch ==> 0 <= nums[..][k] < perBatch;
      order := nums[..];
      forall nr | 0 <= nr < perBatch
        ensures nr in order
      {
        Shuffle.OrderCovers(order, nr);
      }
    }

    /** A whole batch; draws are the random numbers of the simulation. */
    method SendBatch(song: Song, randomize: bool, draws: seq<Shuffle.Draw>)
      returns (ok: bool, sent: seq<Packet>, ghost order: seq<byte>)
      requires stage != Initial && perBatch <= 255 && |draws| == perBatch
      modifies this
      ensures ok && Shuffle.IsOrder(order, old(perBatch)) && order == OrderOf(old(perBatch), randomize, draws)
      ensures !randomize ==> order == StreamContent.Identity(old(perBatch))
      ensures State() == AfterBatch(song, old(State()))
      ensures sent == PacketsOf(song, old(quality), Burst(song, old(State()), order, false))
    {
      hide PacketsOf, Burst, AfterBurst, Shuffle.IsOrder, StreamContent.Identity;
      var nrs := SendingOrder(randomize, draws);
      order := nrs;
      OrderLength(nrs, perBatch);
      BurstKeeps(song, State(), perBatch, false);
      ok, sent := SendPackets(song, nrs, false);
      musicPtr := musicPtr + perBatch * chunkSize;
      batchNr := (batchNr + 1) % TWO32;
      if bytesSent + perBatch * chunkSize >= song.payload {
        stage := Final;
      }
    }

    method SetMusicToBatch(nr: nat) returns (isPreviousBatch: bool)
      modifies `musicPtr, `batchNr
      ensures State() == Rewound(old(State()), nr)
      ensures isPreviousBatch == !NamesNext(old(State()), nr)
    {
      isPreviousBatch := true;
      var batchSize := perBatch * chunkSize;
      if (nr - 1) % TWO32 == batchNr {
        isPreviousBatch := false;
        musicPtr := musicPtr + batchSize;
        batchNr := nr;
      }
      musicPtr := musicPtr - batchSize;
    }

    method RestoreMusicToBatch()
      modifies `musicPtr
      ensures State() == Moved(old(State()), old(State()).BatchBytes())
    {
      musicPtr := musicPtr + perBatch * chunkSize;
    }

    /** Packets listed in a REJ: four octets of batch number, then packet numbers. */
    method SendFaulty(song: Song, arg: seq<byte>) returns (ok: bool, sent: seq<Packet>)
      requires stage != Initial && |arg| >= 4
      modifies this
      ensures ok
      ensures State() == AfterResend(song, old(State()), Int32(arg), arg[4..])
      ensures sent == PacketsOf(song, old(quality), ResendPieces(song, old(State()), Int32(arg), arg[4..]))
    {
      hide PacketsOf, Burst, AfterBurst, NamesNext;
      var nr := Int32(arg);
      ghost var before := State();
      var isPreviousBatch := SetMusicToBatch(nr);
      BurstKeeps(song, State(), |arg| - 4, isPreviousBatch);
      ok, sent := SendPackets(song, arg[4..], isPreviousBatch);
      RestoreMusicToBatch();
    }

    // -- Receiving (receive.c) ----------------------------------------------------------

    method ProcessInitial(song: Song, req: Packet) returns (task: Task)
      requires Readable(req) && stage == Initial
      modifies this
      ensures (State(), task) == Process(song, old(State()), req)
    {
      task := Unset;
      if IsAck(req.flags) {
        quality := req.data[0];
        perBatch := BatchPackets(quality);
        chunkSize := PACKET_SIZE;
        stage := Initial;
        task := SendAck;
      } else if IsRR(req.flags) {
        stage := Intermediate;
        task := Task.SendBatch;
      } else if IsRej(req.flags) {
        stage := Intermediate;
      }
    }

    method ProcessIntermediate(song: Song, req: Packet) returns (task: Task)
      requires Readable(req) && stage == Intermediate
      modifies this
      ensures (State(), task) == Process(song, old(State()), req)
    {
      task := Unset;
      if !inUse {
        task := SendEos;
      } else if IsRR(req.flags) {
        task := Task.SendBatch;
      } else if IsRej(req.flags) {
        task := Task.SendFaulty(req.data);
      } else if IsQty(req.flags) {
        task := SendAck;
        quality := req.data[0];
        perBatch := BatchPackets(quality);
      }
    }

    method ProcessFinal(song: Song, req: Packet) returns (task: Task)
      requires Readable(req) && stage == Final
      modifies this
      ensures (State(), task) == Process(song, old(State()), req)
    {
      task := Unset;
      if !inUse || IsRR(req.flags) {
        if bytesSent < song.payload {
          task := Task.SendBatch;
        } else {
          task := SendEos;
          inUse := false;
        }
      } else if IsRej(req.flags) {
        task := Task.SendFaulty(req.data);
      } else if IsQty(req.flags) {
        task := SendAck;
        quality := req.data[0];
        perBatch := BatchPackets(quality);
      }
    }

    /** A request from receipt to reply. */
    method Answer(song: Song, req: Packet, randomize: bool, draws: nat -> Shuffle.Draw)
      returns (reply: Reply, ghost order: seq<byte>)
      requires Defined(song, State(), req) && perBatch <= 255
      modifies this
      ensures (State(), reply) == Serve(song, old(State()), req, order)
      ensures Process(song, old(State()), req).1 == Task.SendBatch ==>
                && Shuffle.IsOrder(order, old(perBatch))
                && (!randomize ==> order == StreamContent.Identity(old(perBatch)))
                && order == OrderOf(old(perBatch), randomize, FirstDraws(draws, old(perBatch)))
    {
      hide AfterBatch, AfterResend, Burst, ResendPieces, PacketsOf;
      var task;
      order := [];
      match stage {
        case Initial => task := ProcessInitial(song, req);
        case Intermediate => task := ProcessIntermediate(song, req);
        case Final => task := ProcessFinal(song, req);
      }
      match task {
        case SendAck => reply := Ack;
        case SendEos => reply := Eos;
        case SendBatch =>
          var ok, sent;
          ok, sent, order := SendBatch(song, randomize, FirstDraws(draws, perBatch));
          reply := Packets(sent);
        case SendFaulty(arg) =>
          var ok, sent := SendFaulty(song, arg);
          reply := Packets(sent);
      }
    }
  }

  lemma OrderLength(order: seq<byte>, n: nat)
    requires Shuffle.IsOrder(order, n)
    ensures |order| == n
  {
  }

  lemma NextPacket(song: Song, st: ClientState, nrs: seq<byte>, resend: bool, i: nat)
    requires i < |nrs|
    ensures PacketsOf(song, st.quality, Burst(song, st, nrs[..i + 1], resend))
         == PacketsOf(song, st.quality, Burst(song, st, nrs[..i], resend))
            + [PacketOf(song, st.quality, PieceOf(song, AfterBurst(song, st, i, resend), nrs[i]))]
  {
    hide PacketOf, PieceOf, AfterBurst;
    assert nrs[..i + 1][..i] == nrs[..i];
  }
}
