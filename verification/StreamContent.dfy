/** Which music the server's packets carry: over a whole run, in the last batch, and when resent. */
module StreamContent {
  import opened Bytes
  import opened Stream
  import opened Requests
  import opened StreamRuns
  import Shuffle

  // -- A batch in its natural order -----------------------------------------------------

  function Identity(n: nat): (order: seq<byte>)
    requires n <= 0x100
    ensures |order| == n
    ensures forall i :: 0 <= i < n ==> order[i] == i
  {
    seq<byte>(n, i requires 0 <= i < n => i)
  }

  lemma IdentityIsOrder(n: nat)
    requires n <= 0x100
    ensures Shuffle.IsOrder(Identity(n), n)
  {
  }

  /** The music in some pieces, one after the other. */
  function Music(song: Song, pieces: seq<Piece>): seq<byte> {
    if pieces == [] then [] else
    var n := |pieces| - 1;
    Music(song, pieces[..n]) + Sound(song, pieces[n].at, pieces[n].size)
  }

  lemma SoundJoins(song: Song, at: int, m: nat, n: nat)
    ensures Sound(song, at, m) + Sound(song, at + m, n) == Sound(song, at, m + n)
  {
  }

  lemma {:induction false} MusicJoins(song: Song, a: seq<Piece>, b: seq<Piece>)
    ensures Music(song, a + b) == Music(song, a) + Music(song, b)
  {
    hide Sound;
    if b == [] {
      assert a + b == a;
    } else {
      var n := |b| - 1;
      assert (a + b)[..|a + b| - 1] == a + b[..n];
      MusicJoins(song, a, b[..n]);
    }
  }

  /** In natural order a batch carries exactly the stretch that it counts. */
  lemma {:induction false} NaturalBurst(song: Song, st: ClientState, n: nat)
    requires n <= 0x100 && st.chunkSize == PACKET_SIZE && st.musicPtr == st.bytesSent < TWO32
    requires st.stage == Final ==> st.bytesSent <= song.payload < TWO32
    ensures Music(song, Burst(song, st, Identity(n), false))
         == Sound(song, st.musicPtr, CountAfter(song, st, n) - st.bytesSent)
  {
    hide Sound, AfterBurst, SizeT, Burst;
    if n == 0 {
      NoMusic(song, st);
    } else {
      NaturalBurst(song, st, n - 1);
      LastPiece(song, st, n);
      BurstCounts(song, st, n - 1);
      var s := AfterBurst(song, st, n - 1, false);
      if s.stage == Final {
        SizeTSmall(song.payload - s.bytesSent);
      }
      SoundJoins(song, st.musicPtr, CountAfter(song, st, n - 1) - st.bytesSent, SendSize(song, s));
      NoSound(song, s.musicPtr + (n - 1) * s.chunkSize, st.musicPtr + CountAfter(song, st, n - 1) - st.bytesSent);
    }
  }

  lemma NoMusic(song: Song, st: ClientState)
    ensures Music(song, Burst(song, st, Identity(0), false)) == Sound(song, st.musicPtr, 0)
  {
  }

  lemma NoSound(song: Song, a: int, b: int)
    ensures Sound(song, a, 0) == Sound(song, b, 0)
  {
  }

  lemma LastPiece(song: Song, st: ClientState, n: nat)
    requires 0 < n <= 0x100
    ensures Music(song, Burst(song, st, Identity(n), false))
         == Music(song, Burst(song, st, Identity(n - 1), false))
            + Sound(song, st.musicPtr + (n - 1) * st.chunkSize, SendSize(song, AfterBurst(song, st, n - 1, false)))
  {
    hide Sound, SendSize, Burst, AfterBurst, Identity;
    BurstKeeps(song, st, n - 1, false);
    LastOfBurst(song, st, n);
  }

  lemma LastOfBurst(song: Song, st: ClientState, n: nat)
    requires 0 < n <= 0x100
    ensures Burst(song, st, Identity(n), false)
         == Burst(song, st, Identity(n - 1), false) + [PieceOf(song, AfterBurst(song, st, n - 1, false), n - 1)]
  {
    hide PieceOf, AfterBurst;
    assert Identity(n)[..n - 1] == Identity(n - 1);
  }

  // -- A whole run -------------------------------------------------------------------------

  /** The pieces that a step sends for the first time. */
  function FirstSent(song: Song, st: ClientState, ev: Event): seq<Piece> {
    if ev.AskBatch? && !AtEnd(song, st, ev)
    then Burst(song, if st.stage == Initial then st.(stage := Intermediate) else st, ev.order, false)
    else []
  }

  function AllSent(song: Song, st: ClientState, events: seq<Event>): seq<Piece> {
    if events == [] then [] else
    var before := events[..|events| - 1];
    AllSent(song, st, before) + FirstSent(song, Run(song, st, before), events[|events| - 1])
  }

  /** Batches in natural order, quality changes, no resends. */
  ghost predicate Natural(events: seq<Event>) {
    forall i :: 0 <= i < |events| ==>
      && !events[i].AskAgain?
      && (events[i].AskBatch? ==>
            var order := events[i].order;
            |order| <= 0x100 && order == Identity(|order|))
  }

  lemma NaturalStep(song: Song, st: ClientState, ev: Event)
    requires Ready(song, st) && Positioned(song, st) && Room(song, st) && Formed(st, ev) && Natural([ev])
    ensures After(song, st, ev).bytesSent >= st.bytesSent
    ensures Music(song, FirstSent(song, st, ev))
         == Sound(song, st.bytesSent, After(song, st, ev).bytesSent - st.bytesSent)
  {
    hide AfterBatch, Burst, Sound, BatchPackets;
    StepKeeps(song, st, ev);
    assert [ev][0] == ev;
    if ev.AskBatch? && !AtEnd(song, st, ev) {
      var s := if st.stage == Initial then st.(stage := Intermediate) else st;
      BatchBytesIs(song, s);
      BatchClosed(song, s);
      NaturalBurst(song, s, st.perBatch);
    } else {
      NoSound(song, st.bytesSent, st.bytesSent);
      assert Sound(song, st.bytesSent, 0) == [];
    }
  }

  /**
   * In natural order and without resends, the packets of a run carry exactly the music counted,
   * once and in order, through every quality change; at the end of the stream that is all of it.
   */
  lemma {:induction false} RunCarriesMusic(song: Song, st: ClientState, events: seq<Event>)
    requires Ready(song, st) && Positioned(song, st) && Room(song, st)
    requires Legal(song, st, events) && Natural(events)
    ensures var s := Run(song, st, events);
            && s.bytesSent >= st.bytesSent
            && Music(song, AllSent(song, st, events)) == Sound(song, st.bytesSent, s.bytesSent - st.bytesSent)
            && (!s.inUse ==> s.bytesSent == song.payload)
  {
    hide After, FirstSent, Formed, Guarded, Sound, Positioned, Room, Music, Natural, Ready;
    RunKeeps(song, st, events);
    if events == [] {
      NoEvents(song, st);
    } else {
      var n := |events| - 1;
      var before, ev := events[..n], events[n];
      NaturalParts(events);
      RunCarriesMusic(song, st, before);
      RunKeeps(song, st, before);
      var s := Run(song, st, before);
      NaturalStep(song, s, ev);
      MusicJoins(song, AllSent(song, st, before), FirstSent(song, s, ev));
      SoundJoins(song, st.bytesSent, s.bytesSent - st.bytesSent, After(song, s, ev).bytesSent - s.bytesSent);
    }
  }

  lemma NoEvents(song: Song, st: ClientState)
    requires Ready(song, st)
    ensures Music(song, AllSent(song, st, [])) == Sound(song, st.bytesSent, 0) && st.inUse
  {
  }

  lemma NaturalParts(events: seq<Event>)
    requires Natural(events) && events != []
    ensures Natural(events[..|events| - 1]) && Natural([events[|events| - 1]])
  {
  }

  // -- The last batch in any order -----------------------------------------------------------

  /** How much of the music left belongs into the packet with number i. */
  function Share(left: nat, i: nat): (n: nat)
    ensures n <= PACKET_SIZE
  {
    if left <= PACKET_SIZE * i then 0
    else if left - PACKET_SIZE * i < PACKET_SIZE then left - PACKET_SIZE * i
    else PACKET_SIZE
  }

  /** In the final stage sizes go by the position in the sending order, not by the number. */
  lemma FinalSizes(song: Song, st: ClientState, order: seq<byte>, i: nat)
    requires st.chunkSize == PACKET_SIZE && st.stage == Final && st.bytesSent <= song.payload < TWO32
    requires i < |order| <= 0x100
    ensures var p := Burst(song, st, order, false)[i];
            && p.nr == order[i] && p.at == st.musicPtr + PACKET_SIZE * order[i]
            && p.size == Share(song.payload - st.bytesSent, i)
  {
    hide SizeT, AfterBurst, Burst;
    BurstAt(song, st, order, false, i);
    BurstCounts(song, st, i);
    SizeTSmall(song.payload - AfterBurst(song, st, i, false).bytesSent);
  }

  /** Every packet of the last batch carries its own share. */
  ghost predicate LastBatchExact(song: Song, st: ClientState, order: seq<byte>)
    requires st.bytesSent <= song.payload
  {
    forall i :: 0 <= i < |order| ==>
      Burst(song, st, order, false)[i].size == Share(song.payload - st.bytesSent, order[i])
  }

  /** The order sends the numbers of the full packets first, and then the number of the partial one. */
  predicate FullFirst(left: nat, order: seq<byte>) {
    var full := left / PACKET_SIZE;
    && (forall i :: 0 <= i < |order| && i < full ==> order[i] < full)
    && (left % PACKET_SIZE != 0 && full < |order| ==> order[full] == full)
  }

  /** The last batch is right exactly in the orders that keep full, partial and empty packets apart. */
  lemma LastBatchExactIff(song: Song, st: ClientState, order: seq<byte>)
    requires st.chunkSize == PACKET_SIZE && st.stage == Final && st.bytesSent <= song.payload < TWO32
    requires Shuffle.IsOrder(order, |order|) && |order| <= 0x100
    ensures LastBatchExact(song, st, order) <==> FullFirst(song.payload - st.bytesSent, order)
  {
    hide Burst, Share, FullFirst;
    var left := song.payload - st.bytesSent;
    forall i | 0 <= i < |order|
      ensures Burst(song, st, order, false)[i].size == Share(left, i)
    {
      FinalSizes(song, st, order, i);
    }
    SharesMatchIff(left, order);
  }

  lemma SharesMatchIff(left: nat, order: seq<byte>)
    requires Shuffle.IsOrder(order, |order|)
    ensures (forall i :: 0 <= i < |order| ==> Share(left, i) == Share(left, order[i])) <==> FullFirst(left, order)
  {
    var full, part := left / PACKET_SIZE, left % PACKET_SIZE;
    assert left == PACKET_SIZE * full + part;
    forall i: nat
      ensures Share(left, i) == if i < full then PACKET_SIZE else if i == full then part else 0
    {
      ShareIs(left, full, part, i);
    }
    hide Share;
    if FullFirst(left, order) {
      forall i | 0 <= i < |order|
        ensures Share(left, i) == Share(left, order[i])
      {
        if i >= full {
          Shuffle.FrontFillsBelow(order, full, i);
        }
      }
    }
  }

  lemma ShareIs(left: nat, full: nat, part: nat, i: nat)
    requires left == PACKET_SIZE * full + part && part < PACKET_SIZE
    ensures Share(left, i) == if i < full then PACKET_SIZE else if i == full then part else 0
  {
  }

  // -- The music with its end ------------------------------------------------------------------

  /** How much of a stretch of the music comes before its end. */
  function Left(song: Song, at: int, n: nat): (m: nat)
    ensures m <= n
  {
    if at + n <= song.payload then n
    else if at < song.payload then song.payload - at
    else 0
  }

  /** How much the packet cut at some place is to carry. */
  function Chunk(song: Song, at: int): (n: nat)
    ensures n <= PACKET_SIZE
  {
    Left(song, at, PACKET_SIZE)
  }

  /** The music from some place on, and silence after its end. */
  function Stretch(song: Song, at: int, n: nat): (s: seq<byte>)
    ensures |s| == n
  {
    Sound(song, at, Left(song, at, n)) + Zeros(n - Left(song, at, n))
  }

  lemma StretchJoins(song: Song, at: int, m: nat, n: nat)
    ensures Stretch(song, at, m) + Stretch(song, at + m, n) == Stretch(song, at, m + n)
  {
    hide Sound, Zeros;
    var a, b := Left(song, at, m), Left(song, at + m, n);
    if a == m {
      SoundJoins(song, at, m, b);
    } else {
      assert b == 0;
      NoSound(song, at + m, at);
      assert Sound(song, at + m, 0) == [];
    }
    ZerosJoin(m - a, n - b);
  }

  lemma ZerosJoin(m: nat, n: nat)
    ensures Zeros(m) + Zeros(n) == Zeros(m + n)
  {
  }

  /** By the counter or by the pointer, the same is left for a packet. */
  lemma ShareIsChunk(song: Song, st: ClientState, i: nat)
    requires Positioned(song, st)
    ensures Share(song.payload - st.bytesSent, i) == Chunk(song, st.musicPtr + PACKET_SIZE * i)
  {
  }

  /** Natural order keeps full, partial and empty packets apart, and so does any order of full ones. */
  lemma FullFirstHolds(left: nat, order: seq<byte>)
    requires Shuffle.IsOrder(order, |order|)
    ensures (forall i :: 0 <= i < |order| ==> order[i] == i) ==> FullFirst(left, order)
    ensures PACKET_SIZE * |order| <= left ==> FullFirst(left, order)
  {
    assert PACKET_SIZE * |order| <= left ==> left / PACKET_SIZE >= |order|;
  }

  // -- A request that was lost ------------------------------------------------------------

  /**
   * What a REJ serves: the packets at the pointer when it names the batch after the server's, and
   * those of the batch before the pointer otherwise.
   */
  lemma ResendServes(song: Song, st: ClientState, batchNr: nat, nrs: seq<byte>, i: nat)
    requires i < |nrs| && st.BatchBytes() > 0
    ensures var p := ResendPieces(song, st, batchNr, nrs)[i];
            && (p.at == st.musicPtr + nrs[i] * st.chunkSize <==> NamesNext(st, batchNr))
            && (!NamesNext(st, batchNr) ==> p.at == st.musicPtr - st.BatchBytes() + nrs[i] * st.chunkSize)
  {
    hide AfterBurst, Burst, NamesNext;
    var s, resend := Rewound(st, batchNr), !NamesNext(st, batchNr);
    BurstAt(song, s, nrs, resend, i);
    BurstKeeps(song, s, i, resend);
  }

  /**
   * The packets listed can be sent again as parts of the batch that starts at base: the counter
   * leaves room for a whole packet, or everything is counted and they are padding behind the end.
   */
  predicate Again(song: Song, st: ClientState, base: int, nrs: seq<byte>) {
    || SendsWhole(song, st)
    || (st.bytesSent == song.payload && forall i :: 0 <= i < |nrs| ==> base + PACKET_SIZE * nrs[i] >= song.payload)
  }

  /** Every packet sent again for a batch already sent carries its own share exactly in that case. */
  lemma AgainIff(song: Song, st: ClientState, batchNr: nat, nrs: seq<byte>)
    requires Ready(song, st) && Positioned(song, st) && !NamesNext(st, batchNr)
    requires nrs != [] && forall i :: 0 <= i < |nrs| ==> nrs[i] < st.perBatch
    ensures var base := st.musicPtr - st.BatchBytes();
            (forall i :: 0 <= i < |nrs| ==>
               ResendPieces(song, st, batchNr, nrs)[i].size == Chunk(song, base + PACKET_SIZE * nrs[i]))
            <==> Again(song, st, base, nrs)
  {
    hide ResendPieces, NamesNext, BatchPackets;
    BatchBytesIs(song, st);
    var base := st.musicPtr - st.BatchBytes();
    forall i | 0 <= i < |nrs|
      ensures ResendPieces(song, st, batchNr, nrs)[i]
           == Piece(nrs[i], base + PACKET_SIZE * nrs[i],
                    if SendsWhole(song, st) then PACKET_SIZE else song.payload - st.bytesSent)
    {
      ResentAt(song, st, batchNr, nrs, i);
    }
    if SendsWhole(song, st) {
    } else if forall i :: 0 <= i < |nrs| ==>
                ResendPieces(song, st, batchNr, nrs)[i].size == Chunk(song, base + PACKET_SIZE * nrs[i])
    {
      assert ResendPieces(song, st, batchNr, nrs)[0].size == song.payload - st.bytesSent;
    }
  }

  /** A packet sent again in full. */
  lemma ResentAt(song: Song, st: ClientState, batchNr: nat, nrs: seq<byte>, i: nat)
    requires Ready(song, st) && st.bytesSent <= song.payload && !NamesNext(st, batchNr) && i < |nrs|
    ensures ResendPieces(song, st, batchNr, nrs)[i]
         == Piece(nrs[i], st.musicPtr - st.BatchBytes() + PACKET_SIZE * nrs[i],
                  if SendsWhole(song, st) then PACKET_SIZE else song.payload - st.bytesSent)
  {
    hide Burst, NamesNext, BatchPackets;
    ResentPieces(song, Rewound(st, batchNr), nrs, i);
  }

  /**
   * A client whose RR was lost asks for everything with its own batch counter. One ahead of the
   * server's, that brings the next batch. With equal counters it brings, of each packet of one
   * batch of the current size before the pointer, the whole while the counter leaves room for a
   * packet, then only as many octets as are left, and nothing once everything is counted: a batch
   * of silence.
   */
  lemma LostRequestYields(song: Song, st: ClientState, nr: nat, i: nat)
    requires Ready(song, st) && Positioned(song, st) && Room(song, st) && st.stage != Initial
    requires nr == st.batchNr || (nr < TWO32 && NamesNext(st, nr))
    requires i < st.perBatch
    ensures var p := ResendPieces(song, st, nr, Identity(st.perBatch))[i];
            var next, before := st.musicPtr + PACKET_SIZE * i, st.musicPtr - st.BatchBytes() + PACKET_SIZE * i;
            && p.nr == i
            && (nr != st.batchNr ==> p.at == next && p.size == Chunk(song, next))
            && (nr == st.batchNr ==>
                  && p.at == before
                  && p.size == if SendsWhole(song, st) then PACKET_SIZE else song.payload - st.bytesSent)
            && (nr == st.batchNr ==> (p.size == 0 <==> st.bytesSent == song.payload))
            && (nr == st.batchNr ==> (p.size == PACKET_SIZE <==> SendsWhole(song, st)))
  {
    hide Burst, AfterBurst, NamesNext, BatchPackets, SizeT, Identity;
    BatchBytesIs(song, st);
    var all := Identity(st.perBatch);
    OwnCounter(st, nr);
    if nr == st.batchNr {
      ResentAt(song, st, nr, all, i);
    } else {
      BurstIgnoresBatchNr(song, st, nr, all);
      ShareIsChunk(song, st, i);
      if st.stage == Final {
        FinalSizes(song, st, all, i);
      } else {
        BurstAt(song, st, all, false, i);
        BurstKeeps(song, st, i, false);
      }
    }
  }

  lemma OwnCounter(st: ClientState, nr: nat)
    requires st.batchNr < TWO32
    ensures nr == st.batchNr ==> !NamesNext(st, nr)
  {
  }
}
