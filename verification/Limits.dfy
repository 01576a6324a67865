/** Concrete inputs on which the code does not do what its documentation promises. */
module Limits {
  import opened Bytes
  import opened Framing
  import opened Stream
  import opened Requests
  import opened StreamRuns
  import opened StreamContent
  import opened StreamReads
  import Quality
  import Sampling
  import Shuffle

  /**
   * A level raised with less than a batch of the new size left: the next batch counts and sends
   * more than there is. StreamRuns.Guarded is the test that such a request lacks. A client with the
   * smallest buffer, which twelve batches of level 1 fill, gets there without any loss.
   */
  lemma RaisedTooLate(song: Song)
    requires song.payload == 186000
    ensures Quality.Steered(Quality.Initially(1), Quality.Quiet(17), 12).current == 2
    ensures var before := Batches(song, Fresh(1), 17);
            var s := WithQuality(before, 2);
            && Ready(song, s) && Positioned(song, s) && s.stage == Intermediate
            && !Guarded(song, before, AskQuality(2))
            && AfterBatch(song, s).bytesSent == 189440 > song.payload
  {
    hide AfterBatch, Batches, Quality.Steered;
    Quality.QuietRises(1, 12, 17);
    BatchesCount(song, 1, 17);
    BatchClosed(song, WithQuality(Batches(song, Fresh(1), 17), 2));
  }

  /**
   * A level raised from 3 to 5 after one batch, which the controller never does but the server
   * accepts, and an RR lost: what is sent again begins before the first sample.
   */
  lemma ReplayBeforeStart(song: Song)
    requires 200000 <= song.payload < TWO32
    ensures var events := [AskBatch(0, Identity(100)), AskQuality(5)];
            var s := Run(song, Fresh(3), events);
            var again := AskAgain(1, Identity(255));
            && Legal(song, Fresh(3), events) && Allowed(song, s, again) && !Covered(song, s, again)
            && ResendPieces(song, s, 1, Identity(255))[0] == Piece(0, -39680, 256)
  {
    hide AfterBatch, Run, Identity;
    IdentityIsOrder(100);
    var one, two := [AskBatch(0, Identity(100))], [AskBatch(0, Identity(100)), AskQuality(5)];
    NoEvent(song, Fresh(3));
    OneEvent(song, Fresh(3), [], AskBatch(0, Identity(100)), one);
    BatchClosed(song, Fresh(3).(stage := Intermediate));
    OneEvent(song, Fresh(3), one, AskQuality(5), two);
    var s := Run(song, Fresh(3), two);
    ResentAt(song, s, 1, Identity(255), 0);
    assert !InsidePlace(s, Identity(255)[0]);
  }

  /** A song of two whole batches of level 1, and the RR after them lost: a batch of empty packets. */
  lemma LastRequestLost(song: Song, i: nat)
    requires song.payload == 20480 && i < 40
    ensures var s := Batches(song, Fresh(1), 2);
            && Ready(song, s) && s.bytesSent == song.payload && s.batchNr == 2
            && ResendPieces(song, s, 2, Identity(40))[i].size == 0
  {
    hide AfterBatch, Identity;
    assert Batches(song, Fresh(1), 0) == Fresh(1);
    BatchClosed(song, Fresh(1).(stage := Intermediate));
    BatchClosed(song, Batches(song, Fresh(1), 1));
    ResentAt(song, Batches(song, Fresh(1), 2), 2, Identity(40), i);
  }

  /**
   * Two RRs lost, one after the other, and both made up for by a REJ for everything. The first is
   * sent the batch it has; the second is sent the next one, but the server then does not look for
   * the end, and the following RR counts and sends more than there is.
   */
  lemma RecoveredTooFar(song: Song)
    requires song.payload == 25000
    ensures var all := Identity(40);
            var replayed := Run(song, Fresh(1), [AskBatch(0, all), AskAgain(1, all)]);
            var s := Run(song, Fresh(1), [AskBatch(0, all), AskAgain(1, all), AskAgain(2, all)]);
            && Legal(song, Fresh(1), [AskBatch(0, all), AskAgain(1, all)])
            && Formed(replayed, AskAgain(2, all)) && !Guarded(song, replayed, AskAgain(2, all))
            && Ready(song, s) && Positioned(song, s) && s.stage == Intermediate && s.bytesSent == 20480
            && AfterBatch(song, s).bytesSent == 30720 > song.payload
  {
    hide AfterBatch, AfterResend, Run, Identity;
    var all := Identity(40);
    IdentityIsOrder(40);
    var one, two, three := [AskBatch(0, all)], [AskBatch(0, all), AskAgain(1, all)],
                           [AskBatch(0, all), AskAgain(1, all), AskAgain(2, all)];
    NoEvent(song, Fresh(1));
    OneEvent(song, Fresh(1), [], AskBatch(0, all), one);
    BatchClosed(song, Fresh(1).(stage := Intermediate));
    var s := Run(song, Fresh(1), one);
    OneEvent(song, Fresh(1), one, AskAgain(1, all), two);
    ResendLeavesNoTrace(song, s, 1, all);
    OneEvent(song, Fresh(1), two, AskAgain(2, all), three);
    NextClosed(song, s, 2, all);
    BatchClosed(song, Run(song, Fresh(1), three));
  }

  lemma NoEvent(song: Song, st: ClientState)
    ensures Run(song, st, []) == st && Legal(song, st, [])
  {
  }

  lemma OneEvent(song: Song, st: ClientState, before: seq<Event>, ev: Event, events: seq<Event>)
    requires events == before + [ev]
    ensures Run(song, st, events) == After(song, Run(song, st, before), ev)
    ensures Legal(song, st, events) <==>
              Legal(song, st, before) && Run(song, st, before).inUse && Allowed(song, Run(song, st, before), ev)
  {
    hide After, Allowed;
    assert events[..|before|] == before;
  }

  /** A short song at level 1: one whole batch, and 300 octets for the last. */
  lemma ShortSong(song: Song)
    requires song.payload == 10540
    ensures var st := Batches(song, Fresh(1), 1);
            Ready(song, st) && st.stage == Final && st.bytesSent == 10240 && st.perBatch == 40 && st.batchNr == 1
    ensures var st := Batches(song, Fresh(1), 2);
            Ready(song, st) && st.stage == Final && st.bytesSent == 10540 && st.perBatch == 40 && st.batchNr == 2
            && st.musicPtr == 20480
  {
    hide AfterBatch;
    var t := Fresh(1).(stage := Intermediate);
    assert Batches(song, Fresh(1), 0) == Fresh(1);
    BatchClosed(song, t);
    BatchClosed(song, Batches(song, Fresh(1), 1));
  }

  /** Two packets exchanged in the last batch: the one sent first is whole, although it is the short one. */
  lemma LastBatchExchanged(song: Song)
    requires song.payload == 10540
    ensures var st := Batches(song, Fresh(1), 1);
            var order := Identity(40)[0 := 1][1 := 0];
            && Ready(song, st) && st.stage == Final && st.bytesSent == 10240
            && Shuffle.IsOrder(order, st.perBatch) && !LastBatchExact(song, st, order)
  {
    hide Burst, Batches;
    ShortSong(song);
    IdentityIsOrder(40);
    var order := Identity(40)[0 := 1][1 := 0];
    assert order == Shuffle.Exchanged(Identity(40), 0, 1);
    Shuffle.ExchangedIsOrder(Identity(40), 0, 1);
    LastBatchExactIff(song, Batches(song, Fresh(1), 1), order);
    assert order[0] == 1 && !FullFirst(300, order);
  }

  /**
   * A packet of that batch sent again is empty, since everything has been counted: right for the
   * padding, and wrong for the first two packets.
   */
  lemma LastBatchResentEmpty(song: Song, nrs: seq<byte>, i: nat)
    requires song.payload == 10540 && i < |nrs|
    ensures var st := Batches(song, Fresh(1), 2);
            var p := ResendPieces(song, st, 1, nrs)[i];
            && Ready(song, st) && !NamesNext(st, 1)
            && p.size == 0 && (p.size == Chunk(song, p.at) <==> nrs[i] >= 2)
  {
    hide Burst, Batches;
    ShortSong(song);
    ResentAt(song, Batches(song, Fresh(1), 2), 1, nrs, i);
  }

  /** Twelve octets at quality 1: three frames come in, two stay, and the computed size is seven. */
  lemma ShortPacketDoesNotFit()
    ensures !Sampling.Fits(12, 8)
  {
    Sampling.FitsAtEight(12);
  }

  /** A swap of 0x00 and 0xff in the flags turns a packet of music into one with every flag set. */
  lemma FlagsSwapped(data: seq<byte>, nr: byte, head: nat -> byte, body: nat -> byte)
    requires |data| <= MAX_DATA
    ensures Parse(Wire(Packet(FLAG_NONE, nr, data))[4 := 0xff], head, body) == RecvOk(Packet(0xff, nr, data))
  {
    hide Parse;
    OneOctetChanged(Packet(FLAG_NONE, nr, data), 4, 0xff, head, body);
  }
}
