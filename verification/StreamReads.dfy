/** Which octets the server reads: over a whole run, exactly when all of them are samples. */
module StreamReads {
  import opened Bytes
  import opened Stream
  import opened StreamRuns
  import opened StreamContent
  import Shuffle

  /** All pieces that a step sends. */
  function SentBy(song: Song, st: ClientState, ev: Event): seq<Piece> {
    match ev
    case AskBatch(_, _) => FirstSent(song, st, ev)
    case AskAgain(nr, nrs) => ResendPieces(song, st, nr, nrs)
    case AskQuality(_) => []
  }

  /** The piece is cut from the samples, or empty. */
  predicate Inside(song: Song, p: Piece) {
    p.size == 0 || 0 <= p.at <= p.at + p.size <= song.payload
  }

  ghost predicate AllInside(song: Song, pieces: seq<Piece>) {
    forall i :: 0 <= i < |pieces| ==> Inside(song, pieces[i])
  }

  /** The packets that a REJ lists belong to a batch of the current size. */
  predicate Listed(st: ClientState, ev: Event) {
    ev.AskAgain? ==> forall i :: 0 <= i < |ev.nrs| ==> ev.nrs[i] < st.perBatch
  }

  /** In the final stage the order of a batch matters. */
  predicate Fitting(song: Song, st: ClientState, order: seq<byte>) {
    st.stage == Final && st.bytesSent <= song.payload ==> FullFirst(song.payload - st.bytesSent, order)
  }

  /**
   * What keeps a step within the samples: a fitting order for a batch, and for packets sent again
   * that the batch before the pointer has not begun before the first sample, unless all are empty.
   */
  ghost predicate Covered(song: Song, st: ClientState, ev: Event) {
    match ev
    case AskBatch(_, order) => Fitting(song, st, order)
    case AskAgain(nr, nrs) =>
      if NamesNext(st, nr) then Fitting(song, st, nrs)
      else st.bytesSent == song.payload || forall i :: 0 <= i < |nrs| ==> InsidePlace(st, nrs[i])
    case AskQuality(_) => true
  }

  predicate InsidePlace(st: ClientState, nr: byte) {
    st.BatchBytes() <= st.musicPtr + PACKET_SIZE * nr
  }

  /** A batch in some order stays within the samples exactly when the order is fitting. */
  lemma BatchReads(song: Song, st: ClientState, order: seq<byte>)
    requires Ready(song, st) && st.stage != Initial && Positioned(song, st) && Room(song, st)
    requires Shuffle.IsOrder(order, st.perBatch)
    ensures AllInside(song, Burst(song, st, order, false)) <==> Fitting(song, st, order)
  {
    hide Burst, AfterBurst, SizeT, BatchPackets, FullFirst, Share;
    BatchBytesIs(song, st);
    var pieces := Burst(song, st, order, false);
    if st.stage == Final {
      var left := song.payload - st.bytesSent;
      forall i | 0 <= i < |order|
        ensures Inside(song, pieces[i]) <==> Share(left, i) <= Share(left, order[i])
      {
        FinalSizes(song, st, order, i);
        ShareInside(song, st, order[i], Share(left, i));
      }
      SharesFitIff(left, order);
    } else {
      forall i | 0 <= i < |order|
        ensures Inside(song, pieces[i])
      {
        BurstAt(song, st, order, false, i);
        BurstKeeps(song, st, i, false);
      }
    }
  }

  lemma ShareInside(song: Song, st: ClientState, nr: byte, size: nat)
    requires Positioned(song, st) && size <= PACKET_SIZE
    ensures Inside(song, Piece(nr, st.musicPtr + PACKET_SIZE * nr, size))
       <==> size <= Share(song.payload - st.bytesSent, nr)
  {
  }

  /** No packet gets more than its share exactly in the orders in which each gets its own. */
  lemma SharesFitIff(left: nat, order: seq<byte>)
    requires Shuffle.IsOrder(order, |order|)
    ensures (forall i :: 0 <= i < |order| ==> Share(left, i) <= Share(left, order[i])) <==> FullFirst(left, order)
  {
    var full, part := left / PACKET_SIZE, left % PACKET_SIZE;
    SharesMatchIff(left, order);
    if forall i :: 0 <= i < |order| ==> Share(left, i) <= Share(left, order[i]) {
      forall i: nat
        ensures Share(left, i) == if i < full then PACKET_SIZE else if i == full then part else 0
      {
        ShareIs(left, full, part, i);
      }
      hide Share;
      if part != 0 && full < |order| {
        Shuffle.FrontFillsBelow(order, full, full);
      }
    }
  }

  /** Packets sent again lie within the samples exactly when they are empty or not before the first. */
  lemma ResendReads(song: Song, st: ClientState, nr: nat, nrs: seq<byte>)
    requires Ready(song, st) && Positioned(song, st) && Room(song, st) && !NamesNext(st, nr)
    requires forall i :: 0 <= i < |nrs| ==> nrs[i] < st.perBatch
    ensures AllInside(song, ResendPieces(song, st, nr, nrs))
       <==> st.bytesSent == song.payload || forall i :: 0 <= i < |nrs| ==> InsidePlace(st, nrs[i])
  {
    hide ResendPieces, NamesNext, BatchPackets;
    BatchBytesIs(song, st);
    var pieces := ResendPieces(song, st, nr, nrs);
    forall i | 0 <= i < |nrs|
      ensures Inside(song, pieces[i]) <==> st.bytesSent == song.payload || InsidePlace(st, nrs[i])
    {
      ResentAt(song, st, nr, nrs, i);
    }
  }

  /** A step reads nothing but samples exactly when it is covered. */
  lemma StepReads(song: Song, st: ClientState, ev: Event)
    requires Ready(song, st) && Positioned(song, st) && Room(song, st) && Formed(st, ev) && Listed(st, ev)
    ensures AllInside(song, SentBy(song, st, ev)) <==> Covered(song, st, ev)
  {
    hide Burst, NamesNext, BatchPackets, FullFirst, Inside, InsidePlace;
    match ev
    case AskBatch(_, order) =>
      if AtEnd(song, st, ev) {
        NothingLeft(order);
      } else {
        BatchReads(song, if st.stage == Initial then st.(stage := Intermediate) else st, order);
      }
    case AskAgain(nr, nrs) =>
      if NamesNext(st, nr) {
        BurstIgnoresBatchNr(song, st, nr, nrs);
        BatchReads(song, st, nrs);
      } else {
        ResendReads(song, st, nr, nrs);
      }
    case AskQuality(_) =>
  }

  lemma NothingLeft(order: seq<byte>)
    ensures FullFirst(0, order)
  {
  }

  // -- Runs -----------------------------------------------------------------------------------

  /** Every piece that a run sends lies within the samples. */
  ghost predicate RunInside(song: Song, st: ClientState, events: seq<Event>) {
    events != [] ==>
      var before, ev := events[..|events| - 1], events[|events| - 1];
      RunInside(song, st, before) && AllInside(song, SentBy(song, Run(song, st, before), ev))
  }

  ghost predicate RunListed(song: Song, st: ClientState, events: seq<Event>) {
    events != [] ==>
      var before, ev := events[..|events| - 1], events[|events| - 1];
      RunListed(song, st, before) && Listed(Run(song, st, before), ev)
  }

  ghost predicate RunCovered(song: Song, st: ClientState, events: seq<Event>) {
    events != [] ==>
      var before, ev := events[..|events| - 1], events[|events| - 1];
      RunCovered(song, st, before) && Covered(song, Run(song, st, before), ev)
  }

  /** A run reads nothing but samples exactly when each of its steps is covered. */
  lemma {:induction false} RunReads(song: Song, st: ClientState, events: seq<Event>)
    requires Ready(song, st) && Positioned(song, st) && Room(song, st)
    requires Legal(song, st, events) && RunListed(song, st, events)
    ensures RunInside(song, st, events) <==> RunCovered(song, st, events)
  {
    hide Run, SentBy, Covered, Listed, Formed, Guarded, AllInside, Ready, Positioned, Room;
    if events != [] {
      var before, ev := events[..|events| - 1], events[|events| - 1];
      RunReads(song, st, before);
      RunKeeps(song, st, before);
      StepReads(song, Run(song, st, before), ev);
    }
  }

  /**
   * The batch that a lost RR repeats lies within the music already sent exactly when it is not
   * longer than that.
   */
  lemma ReplayReads(song: Song, st: ClientState, nr: nat)
    requires Ready(song, st) && Positioned(song, st) && Room(song, st) && !NamesNext(st, nr)
    requires st.bytesSent < song.payload
    ensures AllInside(song, ResendPieces(song, st, nr, Identity(st.perBatch))) <==> st.BatchBytes() <= st.musicPtr
  {
    hide ResendPieces, NamesNext, BatchPackets, Inside;
    BatchBytesIs(song, st);
    ResendReads(song, st, nr, Identity(st.perBatch));
    assert InsidePlace(st, Identity(st.perBatch)[0]) <==> st.BatchBytes() <= st.musicPtr;
  }
}
