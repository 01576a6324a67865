/** What every run of the server keeps: position, byte accounting, the end of the stream. */
module StreamRuns {
  import opened Arith
  import opened Bytes
  import opened Framing
  import opened Stream
  import opened Requests
  import Shuffle

  /** A client past its initial ACK, at a known quality. */
  ghost predicate Ready(song: Song, st: ClientState) {
    && st.inUse && 1 <= st.quality <= 5 && st.perBatch == BatchPackets(st.quality)
    && st.chunkSize == PACKET_SIZE && st.batchNr < TWO32
    && song.payload < TWO32
  }

  /** The pointer stands where the byte counter says, and passes it only once everything has been counted. */
  ghost predicate Positioned(song: Song, st: ClientState) {
    && st.bytesSent <= song.payload
    && (st.musicPtr == st.bytesSent || (st.stage == Final && st.bytesSent == song.payload <= st.musicPtr))
  }

  /** Outside the final stage a whole batch is still there. */
  predicate Room(song: Song, st: ClientState) {
    st.stage == Final || st.bytesSent + st.BatchBytes() <= song.payload
  }

  lemma BatchBytesIs(song: Song, st: ClientState)
    requires Ready(song, st)
    ensures st.BatchBytes() == PACKET_SIZE * st.perBatch && 10240 <= st.BatchBytes() <= 65280
    ensures 0 < st.perBatch <= 255
  {
  }

  // -- One batch ---------------------------------------------------------------------

  /** The state after a batch, in closed form. */
  lemma BatchClosed(song: Song, st: ClientState)
    requires Ready(song, st) && st.stage != Initial
    requires st.stage == Final ==> st.bytesSent <= song.payload
    requires st.bytesSent <= TWO32
    ensures var count := CountAfter(song, st, st.perBatch);
            AfterBatch(song, st) == st.(
              bytesSent := count, musicPtr := st.musicPtr + st.BatchBytes(), batchNr := (st.batchNr + 1) % TWO32,
              stage := if count + st.BatchBytes() >= song.payload then Final else st.stage)
  {
    hide AfterBurst, BatchPackets;
    BatchBytesIs(song, st);
    BurstCounts(song, st, st.perBatch);
  }

  /** A batch keeps the stream within the payload exactly when there was room for it. */
  lemma BatchStaysWithin(song: Song, st: ClientState)
    requires Ready(song, st) && st.stage != Initial && Positioned(song, st)
    ensures AfterBatch(song, st).bytesSent <= song.payload <==> Room(song, st)
    ensures Room(song, st) ==> Positioned(song, AfterBatch(song, st))
    ensures Room(song, st) && st.bytesSent < song.payload ==> AfterBatch(song, st).bytesSent > st.bytesSent
    ensures Room(song, AfterBatch(song, st))
  {
    hide AfterBatch, BatchPackets;
    BatchBytesIs(song, st);
    BatchClosed(song, st);
  }

  // -- Runs ---------------------------------------------------------------------------

  datatype Event =
    | AskBatch(batchNr: nat, order: seq<byte>)
    | AskAgain(batchNr: nat, nrs: seq<byte>)
    | AskQuality(quality: byte)

  predicate WellNumbered(ev: Event) {
    ev.AskQuality? || ev.batchNr < TWO32
  }

  function Message(ev: Event): Packet
    requires WellNumbered(ev)
  {
    match ev
    case AskBatch(nr, _) => RR(nr)
    case AskAgain(nr, nrs) => Rej(nr, nrs)
    case AskQuality(quality) => Qty(quality)
  }

  /**
   * What the protocol lets happen next: the first request after the connection is an RR, and a REJ
   * that the server takes for a request of the next batch lists all of it.
   */
  ghost predicate Formed(st: ClientState, ev: Event) {
    && WellNumbered(ev)
    && match ev
       case AskBatch(_, order) => Shuffle.IsOrder(order, st.perBatch)
       case AskAgain(nr, nrs) => st.stage != Initial && (NamesNext(st, nr) ==> Shuffle.IsOrder(nrs, st.perBatch))
       case AskQuality(quality) => st.stage != Initial && 1 <= quality <= 5
  }

  /**
   * What the server does not look at: outside the final stage a new level needs room for one of its
   * batches, and a REJ taken for a request of the next batch room for that batch and one more.
   */
  predicate Guarded(song: Song, st: ClientState, ev: Event) {
    st.stage == Final ||
    match ev
    case AskBatch(_, _) => true
    case AskAgain(nr, _) => NamesNext(st, nr) ==> st.bytesSent + 2 * st.BatchBytes() <= song.payload
    case AskQuality(quality) => st.bytesSent + PACKET_SIZE * BatchPackets(quality) <= song.payload
  }

  ghost predicate Allowed(song: Song, st: ClientState, ev: Event) {
    Formed(st, ev) && Guarded(song, st, ev)
  }

  /** The end of the stream: an RR once everything has been counted. */
  predicate AtEnd(song: Song, st: ClientState, ev: Event) {
    ev.AskBatch? && st.stage == Final && st.bytesSent >= song.payload
  }

  function After(song: Song, st: ClientState, ev: Event): ClientState {
    match ev
    case AskBatch(_, _) =>
      if AtEnd(song, st, ev) then st.(inUse := false)
      else AfterBatch(song, if st.stage == Initial then st.(stage := Intermediate) else st)
    case AskAgain(nr, nrs) => AfterResend(song, st, nr, nrs)
    case AskQuality(quality) => WithQuality(st, quality)
  }

  /** After is what serving the client's message does, and the reply is EOS exactly at the end. */
  lemma AfterIsServe(song: Song, st: ClientState, ev: Event, order: seq<byte>)
    requires Ready(song, st) && Formed(st, ev)
    ensures Defined(song, st, Message(ev))
    ensures Serve(song, st, Message(ev), order).0 == After(song, st, ev)
    ensures Serve(song, st, Message(ev), order).1 == Eos <==> AtEnd(song, st, ev)
  {
    hide AfterBatch, AfterResend, ResendPieces, Burst, PacketsOf, BatchPackets;
    match ev
    case AskBatch(nr, _) => ServeRR(song, st, nr, order);
    case AskAgain(nr, nrs) => ServeRej(song, st, nr, nrs, order);
    case AskQuality(quality) => ServeQty(song, st, quality, order);
  }

  /** The octets a step moves the pointer by. */
  function Advance(song: Song, st: ClientState, ev: Event): int {
    if (ev.AskBatch? && !AtEnd(song, st, ev)) || (ev.AskAgain? && NamesNext(st, ev.batchNr))
    then st.BatchBytes() else 0
  }

  /**
   * A step keeps the accounts, and only the end of the stream frees the slot. Afterwards there is
   * room for the next batch exactly when the step was guarded.
   */
  lemma StepKeeps(song: Song, st: ClientState, ev: Event)
    requires Ready(song, st) && Positioned(song, st) && Room(song, st) && Formed(st, ev)
    ensures var s := After(song, st, ev);
            && Positioned(song, s)
            && (Room(song, s) <==> Guarded(song, st, ev))
            && s.musicPtr == st.musicPtr + Advance(song, st, ev)
            && st.bytesSent <= s.bytesSent
            && (s.inUse <==> !AtEnd(song, st, ev))
            && (AtEnd(song, st, ev) <==> ev.AskBatch? && st.bytesSent == song.payload)
            && (if s.inUse then Ready(song, s) else s.bytesSent == song.payload)
            && (ev.AskBatch? && s.inUse ==> st.bytesSent < s.bytesSent)
  {
    hide AfterBatch, AfterResend, BatchPackets, NamesNext;
    BatchBytesIs(song, st);
    match ev
    case AskBatch(_, _) =>
      var s := if st.stage == Initial then st.(stage := Intermediate) else st;
      BatchClosed(song, s);
      BatchStaysWithin(song, s);
    case AskAgain(nr, nrs) =>
      if NamesNext(st, nr) {
        NextClosed(song, st, nr, nrs);
      } else {
        ResendLeavesNoTrace(song, st, nr, nrs);
      }
    case AskQuality(_) =>
  }

  /** A REJ that is taken for the next batch: the accounts of a batch without the look at the end. */
  lemma NextClosed(song: Song, st: ClientState, nr: nat, nrs: seq<byte>)
    requires Ready(song, st) && st.stage != Initial && Positioned(song, st)
    requires nr < TWO32 && NamesNext(st, nr) && |nrs| == st.perBatch
    ensures AfterResend(song, st, nr, nrs) == st.(
              bytesSent := CountAfter(song, st, st.perBatch), musicPtr := st.musicPtr + st.BatchBytes(), batchNr := nr)
  {
    hide AfterBurst, BatchPackets;
    BatchBytesIs(song, st);
    BurstCounts(song, st.(batchNr := nr), st.perBatch);
  }

  function Run(song: Song, st: ClientState, events: seq<Event>): ClientState {
    if events == [] then st else After(song, Run(song, st, events[..|events| - 1]), events[|events| - 1])
  }

  ghost predicate Legal(song: Song, st: ClientState, events: seq<Event>) {
    events != [] ==>
      var before := events[..|events| - 1];
      && Legal(song, st, before) && Run(song, st, before).inUse
      && Allowed(song, Run(song, st, before), events[|events| - 1])
  }

  /** The batches sent in a run, in octets. */
  function Advanced(song: Song, st: ClientState, events: seq<Event>): int {
    if events == [] then 0 else
    var before := events[..|events| - 1];
    Advanced(song, st, before) + Advance(song, Run(song, st, before), events[|events| - 1])
  }

  /**
   * Over every mix of batches, resends and quality changes, once the first batch fits: never more is
   * counted than there is, outside the final stage a whole batch is still there, the pointer has
   * moved by the sum of the batches sent and equals the byte counter until everything has been
   * counted, and the slot is freed only then.
   */
  lemma {:induction false} RunKeeps(song: Song, st: ClientState, events: seq<Event>)
    requires Ready(song, st) && Positioned(song, st) && Room(song, st) && Legal(song, st, events)
    ensures var s := Run(song, st, events);
            && Positioned(song, s) && Room(song, s)
            && s.musicPtr == st.musicPtr + Advanced(song, st, events)
            && st.bytesSent <= s.bytesSent
            && (s.inUse ==> Ready(song, s))
            && (!s.inUse ==> s.bytesSent == song.payload)
  {
    hide After, Advance, Formed, Guarded, Positioned, Room;
    if events != [] {
      var before := events[..|events| - 1];
      RunKeeps(song, st, before);
      StepKeeps(song, Run(song, st, before), events[|events| - 1]);
    }
  }

  // -- How many batches there are ------------------------------------------------------

  /** The state after k batches at an unchanging quality, whatever the sending orders. */
  function Batches(song: Song, st: ClientState, k: nat): ClientState {
    if k == 0 then st else
    var s := Batches(song, st, k - 1);
    AfterBatch(song, if s.stage == Initial then s.(stage := Intermediate) else s)
  }

  function Fresh(quality: int): ClientState {
    ClientState(Initial, true, 0, quality, 0, BatchPackets(quality), PACKET_SIZE, 0)
  }

  /** The initial ACK, at a slot just taken, leaves the state that every stream starts from. */
  lemma ConnectionIsFresh(song: Song, quality: byte, chunkSize: nat, order: seq<byte>)
    requires 1 <= quality <= 5 && song.payload < TWO32
    ensures Defined(song, Connected(chunkSize), InitialAck(quality))
    ensures Serve(song, Connected(chunkSize), InitialAck(quality), order) == (Fresh(quality), Ack)
    ensures Ready(song, Fresh(quality)) && Positioned(song, Fresh(quality))
    ensures Room(song, Fresh(quality)) <==> PACKET_SIZE * BatchPackets(quality) <= song.payload
  {
    hide AfterBatch, AfterResend, ResendPieces, Burst;
  }

  /** The number of batches that hold the payload, the last one possibly short. */
  function BatchCount(song: Song, size: int): int
    requires size > 0
  {
    (song.payload + size - 1) / size
  }

  /** While the payload lasts, k batches count k batch sizes; the last one counts the rest. */
  lemma {:induction false} BatchesCount(song: Song, quality: int, k: nat)
    requires 1 <= quality <= 5 && song.payload < TWO32
    requires var size := PACKET_SIZE * BatchPackets(quality);
             size <= song.payload && (k > 0 ==> (k - 1) * size < song.payload)
    ensures var size := PACKET_SIZE * BatchPackets(quality);
            var s := Batches(song, Fresh(quality), k);
            && Ready(song, s) && s.quality == quality && Positioned(song, s)
            && s.bytesSent == (if k * size <= song.payload then k * size else song.payload)
            && (k == 0 <==> s.stage == Initial)
            && (k > 0 ==> (s.stage == Final <==> s.bytesSent + size >= song.payload))
  {
    hide AfterBatch, BatchPackets;
    if k > 0 {
      var size := PACKET_SIZE * BatchPackets(quality);
      KnownSize(quality);
      assert (k - 1) * size == k * size - size;
      assert k > 1 ==> (k - 2) * size == (k - 1) * size - size;
      BatchesCount(song, quality, k - 1);
      var s := Batches(song, Fresh(quality), k - 1);
      var t := if s.stage == Initial then s.(stage := Intermediate) else s;
      BatchClosed(song, t);
    }
  }

  lemma KnownSize(quality: int)
    requires 1 <= quality <= 5
    ensures PACKET_SIZE * BatchPackets(quality) == [10240, 15360, 25600, 51200, 65280][quality - 1]
    ensures 10240 <= PACKET_SIZE * BatchPackets(quality) <= 65280
  {
  }

  /**
   * At an unchanging quality the stream takes exactly as many batches as hold the payload, every
   * request before is answered with packets, and the next one with EOS and a free slot.
   */
  lemma StreamEnds(song: Song, quality: int, k: nat, ev: Event)
    requires 1 <= quality <= 5 && song.payload < TWO32 && ev.AskBatch?
    requires PACKET_SIZE * BatchPackets(quality) <= song.payload
    requires k <= BatchCount(song, PACKET_SIZE * BatchPackets(quality))
    ensures var s := Batches(song, Fresh(quality), k);
            var n := BatchCount(song, PACKET_SIZE * BatchPackets(quality));
            && (AtEnd(song, s, ev) <==> k == n)
            && (s.bytesSent == song.payload <==> k == n)
            && (k < n ==> After(song, s, ev) == Batches(song, Fresh(quality), k + 1))
            && (k == n ==> !After(song, s, ev).inUse)
  {
    hide AfterBatch, BatchPackets;
    var size := PACKET_SIZE * BatchPackets(quality);
    KnownSize(quality);
    CeilFacts(song.payload, size, k);
    BatchesCount(song, quality, k);
  }

  lemma CeilFacts(payload: nat, size: nat, k: nat)
    requires size > 0 && k <= (payload + size - 1) / size
    ensures k > 0 ==> (k - 1) * size < payload
    ensures k * size >= payload <==> k == (payload + size - 1) / size
  {
    var n := (payload + size - 1) / size;
    var r := (payload + size - 1) % size;
    assert payload + size - 1 == n * size + r;
    MulOrder(size, k, n - 1);
    MulOrder(size, n, k);
  }
}
