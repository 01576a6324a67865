/** One batch from the server's music to the client's memory (receive.c:105-126 against send.c:43-140). */
module Transfer {
  import opened Bytes
  import opened Framing
  import opened Stream
  import opened Requests
  import opened StreamRuns
  import opened Reassembly
  import opened Channel
  import opened StreamContent
  import Codec
  import Shuffle

  // -- One round at the client ----------------------------------------------------------

  function ClientRound(raw: Raw, quality: int, amount: nat, packets: seq<Packet>, d: Delivery): Raw
    requires Shaped(raw, amount)
    requires Possible(packets, AfterPeek(d).arrivals)
    requires AllFit(Checked(packets, AfterPeek(d)), quality, amount)
  {
    Collected(raw, quality, amount, amount - raw.size, Checked(packets, AfterPeek(d))).0
  }

  /** A round whose packets carry the right sounds leaves only right sounds in the batch. */
  lemma RoundKeepsFaith(
    raw: Raw, amount: nat, song: Song, quality: int, base: int, nrs: seq<byte>, packets: seq<Packet>, d: Delivery)
    requires Faithful(raw, amount, song, quality, base) && Wanted(raw, nrs)
    requires Carry(song, quality, base, nrs, packets) && Possible(packets, d.arrivals)
    ensures Possible(packets, AfterPeek(d).arrivals)
    ensures AllFit(Checked(packets, AfterPeek(d)), quality, amount)
    ensures var r := ClientRound(raw, quality, amount, packets, d);
            && Faithful(r, amount, song, quality, base) && r.size >= raw.size
            && ((exists i :: Intact(i) in d.arrivals) ==> r.size > raw.size)
  {
    hide Collected, Checked, Target, Put, Slot, Carry, Once, AllFit, Wanted, Codec.Decode;
    AfterPeekPossible(packets, d);
    var e := AfterPeek(d);
    var got := Checked(packets, e);
    var left := amount - raw.size;
    BurstIsOnce(raw, amount, song, quality, base, nrs, packets, e);
    var r := ClientRound(raw, quality, amount, packets, d);
    RoundAccounts(raw, quality, amount, left, got);
    RoundCounts(raw, quality, amount, left, got);
    forall j | 0 <= j < amount
      ensures Slot(r, j) == if r.recv[j] then Target(song, quality, base, j) else Zeros(PACKET_SIZE)
    {
      PlaceIsRight(raw, amount, song, quality, base, nrs, packets, e, j);
    }
    if i :| Intact(i) in d.arrivals {
      IntactIsStored(raw, amount, song, quality, base, nrs, packets, e, i);
    }
  }

  lemma IntactIsStored(
    raw: Raw, amount: nat, song: Song, quality: int, base: int, nrs: seq<byte>, packets: seq<Packet>, d: Delivery,
    i: nat)
    requires Shaped(raw, amount) && Wanted(raw, nrs) && Carry(song, quality, base, nrs, packets)
    requires Possible(packets, d.arrivals) && Intact(i) in d.arrivals
    requires AllFit(Checked(packets, d), quality, amount)
    ensures Collected(raw, quality, amount, amount - raw.size, Checked(packets, d)).1.stored > 0
  {
    hide Checked, Collected, AllFit;
    var k :| 0 <= k < |d.arrivals| && d.arrivals[k] == Intact(i);
    CheckedIs(packets, d, k);
    BurstIsOnce(raw, amount, song, quality, base, nrs, packets, d);
    AcceptedIsStored(raw, quality, amount, amount - raw.size, Checked(packets, d), k);
  }

  lemma PlaceIsRight(
    raw: Raw, amount: nat, song: Song, quality: int, base: int, nrs: seq<byte>, packets: seq<Packet>, d: Delivery,
    j: nat)
    requires Faithful(raw, amount, song, quality, base) && Wanted(raw, nrs) && j < amount
    requires Carry(song, quality, base, nrs, packets) && Possible(packets, d.arrivals)
    requires AllFit(Checked(packets, d), quality, amount)
    ensures var r := Collected(raw, quality, amount, amount - raw.size, Checked(packets, d)).0;
            Slot(r, j) == if r.recv[j] then Target(song, quality, base, j) else Zeros(PACKET_SIZE)
  {
    hide Collected, Checked, Target, Put, Slot, Once, AllFit, Codec.Decode, Codec.Encode, Zeros;
    var got := Checked(packets, d);
    BurstIsOnce(raw, amount, song, quality, base, nrs, packets, d);
    RoundAt(raw, quality, amount, amount - raw.size, got, j);
    if Delivers(got, amount, j) {
      var k :| 0 <= k < |got| && Accepted(got[k], amount) && got[k].packet.nr == j;
      CheckedIs(packets, d, k);
      var i := d.arrivals[k].index;
      CarriedDecodes(song, quality, base, nrs, packets, i);
      assert !raw.recv[j] by {
        DeliveredWasMissing(got, raw.recv, amount, k);
      }
    }
  }

  lemma DeliveredWasMissing(arrivals: seq<Received>, recv: seq<bool>, amount: nat, k: nat)
    requires Once(arrivals, recv, amount) && k < |arrivals| && Accepted(arrivals[k], amount)
    requires arrivals[k].packet.nr < |recv|
    ensures !recv[arrivals[k].packet.nr]
  {
  }

  /** An accepted arrival is stored before the round ends. */
  lemma {:induction false} AcceptedIsStored(
    raw: Raw, quality: int, amount: nat, left: nat, arrivals: seq<Received>, k: nat)
    requires Shaped(raw, amount) && AllFit(arrivals, quality, amount) && raw.size + left <= amount
    requires (forall l :: 0 <= l < |arrivals| ==> !arrivals[l].RecvTimeout?) && |arrivals| <= left
    requires k < |arrivals| && Accepted(arrivals[k], amount)
    ensures Collected(raw, quality, amount, left, arrivals).1.stored > 0
    decreases k
  {
    hide Put, Codec.Decode;
    if k > 0 {
      var next := raw;
      if Accepted(arrivals[0], amount) {
        assert Fits(arrivals[0], quality, amount);
        next := Stored(raw, quality, arrivals[0].packet);
      }
      AcceptedIsStored(next, quality, amount, left - 1, arrivals[1..], k - 1);
    }
  }

  // -- What the server's bursts carry ---------------------------------------------------------

  /** More than a batch is left, so that every packet of the batch is whole, also when sent again. */
  predicate Plenty(song: Song, st: ClientState) {
    st.bytesSent + st.BatchBytes() + PACKET_SIZE <= song.payload
  }

  /**
   * Within the payload, a packet of a batch just sent comes whole when sent again exactly when more
   * than the batch was left.
   */
  lemma PlentyIff(song: Song, st: ClientState)
    requires Ready(song, st) && st.stage != Initial && Positioned(song, st) && Room(song, st)
    requires st.stage == Final ==> st.bytesSent + st.BatchBytes() <= song.payload
    ensures SendsWhole(song, AfterBatch(song, st)) <==> Plenty(song, st)
  {
    hide AfterBatch, BatchPackets;
    BatchBytesIs(song, st);
    BatchClosed(song, st);
  }

  lemma CarriesPieces(song: Song, quality: int, base: int, nrs: seq<byte>, pieces: seq<Piece>)
    requires |pieces| == |nrs|
    requires forall i :: 0 <= i < |nrs| ==>
               var at := base + PACKET_SIZE * nrs[i];
               && pieces[i].nr == nrs[i] && pieces[i].size == Chunk(song, at)
               && (pieces[i].at == at || pieces[i].size == 0)
    ensures Carry(song, quality, base, nrs, PacketsOf(song, quality, pieces))
  {
    hide Codec.Encode, Sound;
    forall i | 0 <= i < |nrs|
      ensures var at := base + PACKET_SIZE * nrs[i];
              Sound(song, pieces[i].at, pieces[i].size) == Sound(song, at, Chunk(song, at))
    {
      NoSound(song, pieces[i].at, base + PACKET_SIZE * nrs[i]);
    }
  }

  /** A first sending carries the batch at the pointer, the last one in the orders that suit it. */
  lemma BatchCarries(song: Song, st: ClientState, order: seq<byte>)
    requires Ready(song, st) && st.stage != Initial && Positioned(song, st) && Room(song, st)
    requires Shuffle.IsOrder(order, st.perBatch)
    requires st.stage == Final ==> FullFirst(song.payload - st.bytesSent, order)
    ensures Carry(song, st.quality, st.musicPtr, order, PacketsOf(song, st.quality, Burst(song, st, order, false)))
  {
    hide Burst, AfterBurst, PacketsOf, Carry, SizeT, BatchPackets, FullFirst;
    BatchBytesIs(song, st);
    if st.stage == Final {
      LastBatchExactIff(song, st, order);
    }
    forall i | 0 <= i < |order|
      ensures var at := st.musicPtr + PACKET_SIZE * order[i];
              Burst(song, st, order, false)[i] == Piece(order[i], at, Chunk(song, at))
    {
      ShareIsChunk(song, st, order[i]);
      if st.stage == Final {
        FinalSizes(song, st, order, i);
      } else {
        BurstAt(song, st, order, false, i);
        BurstCounts(song, st, i);
      }
    }
    CarriesPieces(song, st.quality, st.musicPtr, order, Burst(song, st, order, false));
  }

  /** A resend carries packets of the batch before the pointer, or silence once everything is counted. */
  lemma ResendCarries(song: Song, st: ClientState, nr: nat, base: int, nrs: seq<byte>)
    requires Ready(song, st) && Positioned(song, st) && !NamesNext(st, nr)
    requires base == st.musicPtr - st.BatchBytes() || !SendsWhole(song, st)
    requires Again(song, st, base, nrs) && forall i :: 0 <= i < |nrs| ==> nrs[i] < st.perBatch
    ensures Carry(song, st.quality, base, nrs, PacketsOf(song, st.quality, ResendPieces(song, st, nr, nrs)))
  {
    hide ResendPieces, PacketsOf, Carry, NamesNext, BatchPackets;
    BatchBytesIs(song, st);
    forall i | 0 <= i < |nrs|
      ensures var p, at := ResendPieces(song, st, nr, nrs)[i], base + PACKET_SIZE * nrs[i];
              p.nr == nrs[i] && p.size == Chunk(song, at) && (p.at == at || p.size == 0)
    {
      ResentAt(song, st, nr, nrs, i);
    }
    CarriesPieces(song, st.quality, base, nrs, ResendPieces(song, st, nr, nrs));
  }

  // -- The exchange ---------------------------------------------------------------------------

  /** One request and what follows it: whether it reaches the server, and what comes back. */
  datatype Round = Round(served: bool, order: seq<byte>, delivery: Delivery)

  datatype Link = Link(server: ClientState, raw: Raw)

  /** The request arrives, and so does one packet of the answer. */
  ghost predicate Good(round: Round) {
    round.served && exists i :: Intact(i) in round.delivery.arrivals
  }

  function Sent(song: Song, st: ClientState, req: Packet, round: Round): (ClientState, seq<Packet>) {
    if round.served && Defined(song, st, req) then
      var (s, reply) := Serve(song, st, req, round.order);
      (s, if reply.Packets? then reply.packets else [])
    else (st, [])
  }

  ghost function AfterRound(song: Song, link: Link, quality: int, amount: nat, req: Packet, round: Round): Link {
    var (s, packets) := Sent(song, link.server, req, round);
    var e := AfterPeek(round.delivery);
    Link(s,
         if Shaped(link.raw, amount) && Possible(packets, e.arrivals) && AllFit(Checked(packets, e), quality, amount)
         then ClientRound(link.raw, quality, amount, packets, round.delivery) else link.raw)
  }

  /** What a REJ lists; a batch of the client always has the shape for it. */
  function Listed(raw: Raw): seq<byte> {
    if |raw.recv| > 0x100 || raw.size > |raw.recv| then [] else Requested(raw)
  }

  /** The client's request in the n-th round: the RR first, then a REJ for what is missing. */
  ghost function Request(raw: Raw, nr: nat, n: nat): Packet
    requires nr < TWO32
  {
    if n == 0 then RR(nr) else Rej(nr, Listed(raw))
  }

  /** The state after some rounds; a complete batch asks for nothing more. */
  ghost function Exchange(song: Song, st: ClientState, nr: nat, rounds: seq<Round>): Link
    requires nr < TWO32
  {
    if rounds == [] then Link(st, Empty(st.perBatch)) else
    var n := |rounds| - 1;
    var link := Exchange(song, st, nr, rounds[..n]);
    if n > 0 && link.raw.size == st.perBatch then link else
    AfterRound(song, link, st.quality, st.perBatch, Request(link.raw, nr, n), rounds[n])
  }

  /** What one round adds to the client's counters. */
  ghost function RoundTally(song: Song, link: Link, quality: int, amount: nat, req: Packet, round: Round): Tally {
    var packets := Sent(song, link.server, req, round).1;
    var e := AfterPeek(round.delivery);
    if Shaped(link.raw, amount) && Possible(packets, e.arrivals) && AllFit(Checked(packets, e), quality, amount)
    then Collected(link.raw, quality, amount, amount - link.raw.size, Checked(packets, e)).1 else NOTHING
  }

  /** What all rounds add. */
  ghost function ExchangeTally(song: Song, st: ClientState, nr: nat, rounds: seq<Round>): Tally
    requires nr < TWO32
  {
    if rounds == [] then NOTHING else
    var n := |rounds| - 1;
    var link, tally := Exchange(song, st, nr, rounds[..n]), ExchangeTally(song, st, nr, rounds[..n]);
    if n > 0 && link.raw.size == st.perBatch then tally else
    tally.Plus(RoundTally(song, link, st.quality, st.perBatch, Request(link.raw, nr, n), rounds[n]))
  }

  /** The network loses, damages and reorders, but delivers no packet of a burst twice. */
  ghost predicate Fair(song: Song, st: ClientState, nr: nat, rounds: seq<Round>)
    requires nr < TWO32
  {
    rounds != [] ==>
      var n := |rounds| - 1;
      var link := Exchange(song, st, nr, rounds[..n]);
      && Fair(song, st, nr, rounds[..n])
      && (n == 0 && rounds[n].served ==> Shuffle.IsOrder(rounds[n].order, st.perBatch))
      && Possible(Sent(song, link.server, Request(link.raw, nr, n), rounds[n]).1, rounds[n].delivery.arrivals)
  }

  /** The server sends the batch at its pointer, and not, once more, the batch before it. */
  predicate Advances(st: ClientState, nr: nat, rrServed: bool) {
    rrServed || NamesNext(st, nr)
  }

  /**
   * Where the batch comes from that the client assembles: from the pointer, or from one batch before
   * it. When nothing is left, what lies at the pointer is silence, and so is what is sent again.
   */
  function Base(song: Song, st: ClientState, nr: nat, rrServed: bool): int {
    if Advances(st, nr, rrServed) || st.bytesSent == song.payload then st.musicPtr else st.musicPtr - st.BatchBytes()
  }

  /**
   * What the server's answers need: the RR of the last batch a suitable order, and a REJ for packets
   * already sent that those can be sent again. Both are exact, as StreamContent.LastBatchExactIff
   * and StreamContent.AgainIff say.
   */
  ghost predicate Suited(song: Song, st: ClientState, nr: nat, rounds: seq<Round>)
    requires nr < TWO32
  {
    rounds != [] ==>
      var n := |rounds| - 1;
      var link := Exchange(song, st, nr, rounds[..n]);
      && Suited(song, st, nr, rounds[..n])
      && (rounds[n].served ==>
            if n == 0 then
              st.stage == Final ==>
                st.bytesSent < song.payload && FullFirst(song.payload - st.bytesSent, rounds[n].order)
            else
              || link.raw.size == st.perBatch || NamesNext(link.server, nr)
              || Again(song, link.server, Base(song, st, nr, rounds[0].served), Listed(link.raw)))
  }

  /** The server once the batch at base has been sent. */
  ghost predicate Serving(song: Song, st: ClientState, nr: nat, rrServed: bool, s: ClientState) {
    && Ready(song, s) && s.stage != Initial && s.quality == st.quality && s.perBatch == st.perBatch
    && Positioned(song, s)
    && s.musicPtr == st.musicPtr + (if Advances(st, nr, rrServed) then st.BatchBytes() else 0)
    && (Room(song, s) <==> rrServed || Guarded(song, st, AskAgain(nr, [])))
    && s.batchNr == (if rrServed then (st.batchNr + 1) % TWO32 else if NamesNext(st, nr) then nr else st.batchNr)
    && (!Advances(st, nr, rrServed) ==> s == st)
    && !NamesNext(s, nr)
  }

  /** Nothing has been sent yet, and the next REJ will be taken for a request of the next batch. */
  ghost predicate Waiting(st: ClientState, nr: nat, rrServed: bool, link: Link) {
    !rrServed && NamesNext(st, nr) && link == Link(st, Empty(st.perBatch))
  }

  ghost predicate Underway(song: Song, st: ClientState, nr: nat, rrServed: bool, link: Link) {
    || Waiting(st, nr, rrServed, link)
    || (Serving(song, st, nr, rrServed, link.server)
        && Faithful(link.raw, st.perBatch, song, st.quality, Base(song, st, nr, rrServed)))
  }

  /** The client's counter equals the server's, or is one ahead. */
  predicate InStep(st: ClientState, nr: nat) {
    nr == st.batchNr || NamesNext(st, nr)
  }

  /** Where every batch starts: the accounts in order, room for the batch, and the counters together. */
  ghost predicate Prepared(song: Song, st: ClientState, nr: nat) {
    Ready(song, st) && Positioned(song, st) && Room(song, st) && nr < TWO32 && InStep(st, nr)
  }

  // -- What every round keeps -----------------------------------------------------------------

  lemma {:induction false} NoneCounted(n: nat)
    ensures Count(seq(n, i => false)) == 0
  {
    if n > 0 {
      NoneCounted(n - 1);
      assert seq(n, i => false)[..n - 1] == seq(n - 1, i => false);
    }
  }

  lemma EmptyIsFaithful(amount: nat, song: Song, quality: int, base: int)
    ensures Faithful(Empty(amount), amount, song, quality, base)
  {
    hide Target;
    NoneCounted(amount);
    forall j | 0 <= j < amount
      ensures Slot(Empty(amount), j) == Zeros(PACKET_SIZE)
    {
    }
  }

  lemma WantedIsRequested(raw: Raw, amount: nat)
    requires Shaped(raw, amount) && amount <= 255 && Count(raw.recv) == raw.size
    ensures Wanted(raw, Requested(raw)) && |Requested(raw)| == amount - raw.size
  {
    hide Requested;
    RequestedIs(raw);
    var m := Requested(raw);
    assert forall k :: 0 <= k < |m| ==> m[k] in m;
  }

  /** A round whose packets carry wanted sounds, seen from both ends. */
  lemma LinkRound(
    song: Song, link: Link, quality: int, amount: nat, req: Packet, round: Round, base: int, nrs: seq<byte>)
    requires Faithful(link.raw, amount, song, quality, base) && Wanted(link.raw, nrs)
    requires Carry(song, quality, base, nrs, Sent(song, link.server, req, round).1)
    requires Possible(Sent(song, link.server, req, round).1, round.delivery.arrivals)
    ensures var l := AfterRound(song, link, quality, amount, req, round);
            && l.server == Sent(song, link.server, req, round).0
            && Faithful(l.raw, amount, song, quality, base) && l.raw.size >= link.raw.size
            && ((exists i :: Intact(i) in round.delivery.arrivals) ==> l.raw.size > link.raw.size)
  {
    hide Sent, Carry, Wanted, Possible, AllFit, ClientRound, Checked, AfterPeek, Count, Sounds;
    RoundKeepsFaith(link.raw, amount, song, quality, base, nrs, Sent(song, link.server, req, round).1, round.delivery);
  }

  /** A round in which nothing reaches the server brings nothing. */
  lemma SilentRound(song: Song, link: Link, quality: int, amount: nat, req: Packet, round: Round, base: int)
    requires Faithful(link.raw, amount, song, quality, base) && !round.served
    requires Possible(Sent(song, link.server, req, round).1, round.delivery.arrivals)
    ensures AfterRound(song, link, quality, amount, req, round) == link
  {
    hide Collected, Checked, Count, Sounds, Possible, AllFit;
    var d := round.delivery;
    NoArrivals(d.arrivals);
    assert AfterPeek(d) == d;
    if Possible([], d.arrivals) && AllFit(Checked([], d), quality, amount) {
      NothingArrives(link.raw, quality, amount, Checked([], d));
    }
  }

  lemma NoArrivals(arrivals: seq<Arrival>)
    requires Possible([], arrivals)
    ensures arrivals == []
  {
    FewerThanSent(arrivals, 0);
  }

  lemma NothingArrives(raw: Raw, quality: int, amount: nat, got: seq<Received>)
    requires Shaped(raw, amount) && got == []
    ensures Collected(raw, quality, amount, amount - raw.size, got).0 == raw
  {
  }

  lemma CountersStep(b: nat, nr: nat)
    requires b < TWO32 && nr < TWO32 && (nr == b || (nr - 1) % TWO32 == b)
    ensures (nr - 1) % TWO32 != (b + 1) % TWO32 && (nr - 1) % TWO32 != nr
    ensures (nr == b) != ((nr - 1) % TWO32 == b)
    ensures nr == b ==> (nr + 1) % TWO32 == (b + 1) % TWO32 && ((nr + 1) % TWO32 - 1) % TWO32 == b
    ensures (nr - 1) % TWO32 == b ==> nr == (b + 1) % TWO32
    ensures ((nr + 1) % TWO32 - 1) % TWO32 == nr
  {
  }

  /** The RR reaches the server. */
  lemma BatchServed(song: Song, st: ClientState, nr: nat, round: Round)
    requires Prepared(song, st, nr) && round.served && Shuffle.IsOrder(round.order, st.perBatch)
    requires st.stage == Final ==> st.bytesSent < song.payload && FullFirst(song.payload - st.bytesSent, round.order)
    ensures var (s, packets) := Sent(song, st, RR(nr), round);
            && Serving(song, st, nr, true, s)
            && Carry(song, st.quality, st.musicPtr, round.order, packets)
  {
    hide AfterBatch, Burst, PacketsOf, Carry, BatchPackets, FullFirst;
    var t := if st.stage == Initial then st.(stage := Intermediate) else st;
    BatchBytesIs(song, st);
    ServeRR(song, st, nr, round.order);
    BatchClosed(song, t);
    BatchStaysWithin(song, t);
    BatchCarries(song, t, round.order);
    CountersStep(st.batchNr, nr);
  }

  /** A REJ taken for the request of the next batch reaches the server. */
  lemma NextServed(song: Song, st: ClientState, nr: nat, round: Round, nrs: seq<byte>)
    requires Prepared(song, st, nr) && st.stage != Initial && NamesNext(st, nr) && round.served
    requires Shuffle.IsOrder(nrs, st.perBatch) && FullFirst(song.payload - st.bytesSent, nrs)
    ensures var (s, packets) := Sent(song, st, Rej(nr, nrs), round);
            && Serving(song, st, nr, false, s)
            && Carry(song, st.quality, st.musicPtr, nrs, packets)
  {
    hide AfterResend, Burst, PacketsOf, Carry, BatchPackets, FullFirst;
    BatchBytesIs(song, st);
    ServeRej(song, st, nr, nrs, round.order);
    NextClosed(song, st, nr, nrs);
    BurstIgnoresBatchNr(song, st, nr, nrs);
    BatchCarries(song, st, nrs);
    CountersStep(st.batchNr, nr);
  }

  /** The REJ of a client that has nothing lists everything in natural order. */
  lemma EverythingRequested(amount: nat, left: nat)
    requires 0 < amount <= 255
    ensures Shuffle.IsOrder(Requested(Empty(amount)), amount) && FullFirst(left, Requested(Empty(amount)))
  {
    hide Requested, FullFirst;
    NoneCounted(amount);
    RequestedIs(Empty(amount));
    var m := Requested(Empty(amount));
    assert forall k :: 0 <= k < |m| ==> m[k] in m;
    forall k | 0 <= k < amount
      ensures m[k] == k
    {
      Ascending(m, k);
    }
    FullFirstHolds(left, m);
  }

  /** The first REJ to arrive when the counters are one apart brings the next batch. */
  lemma EverythingServed(song: Song, st: ClientState, nr: nat, round: Round)
    requires Prepared(song, st, nr) && st.stage != Initial && NamesNext(st, nr) && round.served
    requires 0 < st.perBatch <= 255
    ensures var (s, packets) := Sent(song, st, Rej(nr, Requested(Empty(st.perBatch))), round);
            && Serving(song, st, nr, false, s)
            && Carry(song, st.quality, st.musicPtr, Requested(Empty(st.perBatch)), packets)
  {
    hide Sent, Serving, Carry, BatchPackets, FullFirst, NamesNext, Requested, Shuffle.IsOrder;
    EverythingRequested(st.perBatch, song.payload - st.bytesSent);
    NextServed(song, st, nr, round, Requested(Empty(st.perBatch)));
  }

  /** A strictly ascending list of all places below its length counts up. */
  lemma {:induction false} Ascending(m: seq<byte>, k: nat)
    requires forall i, j :: 0 <= i < j < |m| ==> m[i] < m[j]
    requires forall i :: 0 <= i < |m| ==> m[i] < |m|
    requires k < |m|
    ensures m[k] == k
  {
    AtLeast(m, k);
    AtMost(m, k);
  }

  lemma {:induction false} AtLeast(m: seq<byte>, k: nat)
    requires forall i, j :: 0 <= i < j < |m| ==> m[i] < m[j]
    requires k < |m|
    ensures m[k] >= k
  {
    if k > 0 {
      AtLeast(m, k - 1);
    }
  }

  lemma {:induction false} AtMost(m: seq<byte>, k: nat)
    requires forall i, j :: 0 <= i < j < |m| ==> m[i] < m[j]
    requires forall i :: 0 <= i < |m| ==> m[i] < |m|
    requires k < |m|
    ensures m[k] <= k
    decreases |m| - k
  {
    if k + 1 < |m| {
      AtMost(m, k + 1);
    }
  }

  /** A REJ for a batch already sent reaches the server. */
  lemma AgainServed(song: Song, st: ClientState, nr: nat, round: Round, base: int, nrs: seq<byte>)
    requires Ready(song, st) && st.stage != Initial && nr < TWO32 && !NamesNext(st, nr)
    requires Positioned(song, st) && round.served
    requires base == st.musicPtr - st.BatchBytes() || !SendsWhole(song, st)
    requires Again(song, st, base, nrs) && forall i :: 0 <= i < |nrs| ==> nrs[i] < st.perBatch
    ensures var (s, packets) := Sent(song, st, Rej(nr, nrs), round);
            s == st && Carry(song, st.quality, base, nrs, packets)
  {
    hide AfterResend, ResendPieces, PacketsOf, Carry, BatchPackets, NamesNext, Again, SendsWhole;
    ServeRej(song, st, nr, nrs, round.order);
    ResendLeavesNoTrace(song, st, nr, nrs);
    ResendCarries(song, st, nr, base, nrs);
  }

  lemma FirstRound(song: Song, st: ClientState, nr: nat, round: Round)
    requires Prepared(song, st, nr) && (round.served || st.stage != Initial)
    requires round.served ==> Shuffle.IsOrder(round.order, st.perBatch)
    requires round.served && st.stage == Final ==>
               st.bytesSent < song.payload && FullFirst(song.payload - st.bytesSent, round.order)
    requires Possible(Sent(song, st, RR(nr), round).1, round.delivery.arrivals)
    ensures var l := AfterRound(song, Link(st, Empty(st.perBatch)), st.quality, st.perBatch, RR(nr), round);
            && Underway(song, st, nr, round.served, l)
            && (Good(round) ==> l.raw.size > 0)
  {
    hide Sent, AfterRound, Faithful, Carry, Possible, BatchPackets, FullFirst;
    var amount, base := st.perBatch, Base(song, st, nr, round.served);
    var link := Link(st, Empty(amount));
    EmptyIsFaithful(amount, song, st.quality, base);
    if round.served {
      BatchServed(song, st, nr, round);
      OrderIsWanted(amount, round.order);
      LinkRound(song, link, st.quality, amount, RR(nr), round, base, round.order);
    } else {
      SilentRound(song, link, st.quality, amount, RR(nr), round, base);
      NothingServed(song, st, nr);
    }
  }

  /** As long as nothing is served the server stands still; with equal counters it has the batch before. */
  lemma NothingServed(song: Song, st: ClientState, nr: nat)
    requires Prepared(song, st, nr) && st.stage != Initial
    ensures NamesNext(st, nr) || Serving(song, st, nr, false, st)
  {
    hide BatchPackets;
    BatchBytesIs(song, st);
    CountersStep(st.batchNr, nr);
  }

  lemma OrderIsWanted(amount: nat, order: seq<byte>)
    requires Shuffle.IsOrder(order, amount)
    ensures Wanted(Empty(amount), order)
  {
  }

  lemma LaterRound(song: Song, st: ClientState, nr: nat, rrServed: bool, link: Link, round: Round)
    requires Prepared(song, st, nr) && (rrServed || st.stage != Initial)
    requires Underway(song, st, nr, rrServed, link)
    requires Shaped(link.raw, st.perBatch) && 0 < st.perBatch <= 255
    requires round.served ==>
               || NamesNext(link.server, nr)
               || Again(song, link.server, Base(song, st, nr, rrServed), Requested(link.raw))
    requires Possible(Sent(song, link.server, Rej(nr, Requested(link.raw)), round).1, round.delivery.arrivals)
    ensures var l := AfterRound(song, link, st.quality, st.perBatch, Rej(nr, Requested(link.raw)), round);
            && Underway(song, st, nr, rrServed, l)
            && l.raw.size >= link.raw.size
            && (Good(round) ==> l.raw.size > link.raw.size)
  {
    hide Sent, AfterRound, Faithful, Carry, Possible, BatchPackets, Requested, Serving, Wanted, FullFirst, Again;
    hide NamesNext, Ready, Positioned, Room;
    var amount, base := st.perBatch, Base(song, st, nr, rrServed);
    var req := Rej(nr, Requested(link.raw));
    if Waiting(st, nr, rrServed, link) {
      EmptyIsFaithful(amount, song, st.quality, base);
    }
    assert Faithful(link.raw, amount, song, st.quality, base);
    FaithfulWants(link.raw, amount, song, st.quality, base);
    if !round.served {
      SilentRound(song, link, st.quality, amount, req, round, base);
    } else {
      if Waiting(st, nr, rrServed, link) {
        EverythingServed(song, st, nr, round);
      } else {
        ServingAgain(song, st, nr, rrServed, link, round);
      }
      LinkRound(song, link, st.quality, amount, req, round, base, Requested(link.raw));
    }
  }

  lemma FaithfulWants(raw: Raw, amount: nat, song: Song, quality: int, base: int)
    requires Faithful(raw, amount, song, quality, base) && amount <= 255
    ensures Wanted(raw, Requested(raw)) && |Requested(raw)| == amount - raw.size
  {
    hide Wanted, Requested;
    WantedIsRequested(raw, amount);
  }

  lemma ServingAgain(song: Song, st: ClientState, nr: nat, rrServed: bool, link: Link, round: Round)
    requires Prepared(song, st, nr) && Serving(song, st, nr, rrServed, link.server) && round.served
    requires Shaped(link.raw, st.perBatch) && st.perBatch <= 255 && Wanted(link.raw, Requested(link.raw))
    requires NamesNext(link.server, nr) || Again(song, link.server, Base(song, st, nr, rrServed), Requested(link.raw))
    ensures var (s, packets) := Sent(song, link.server, Rej(nr, Requested(link.raw)), round);
            s == link.server && Carry(song, st.quality, Base(song, st, nr, rrServed), Requested(link.raw), packets)
  {
    hide Sent, Carry, BatchPackets, NamesNext, Requested, Guarded, Again;
    BatchBytesIs(song, st);
    BatchBytesIs(song, link.server);
    AgainServed(song, link.server, nr, round, Base(song, st, nr, rrServed), Requested(link.raw));
  }

  /** The rounds that bring a packet, as far as the batch has packets. */
  ghost function Progress(rounds: seq<Round>, amount: nat): (n: nat)
    ensures n <= amount
  {
    if rounds == [] then 0 else
    var n := Progress(rounds[..|rounds| - 1], amount);
    if Good(rounds[|rounds| - 1]) && n < amount then n + 1 else n
  }

  // -- The theorem ------------------------------------------------------------------------------

  /** Every exchange, after every round. */
  lemma {:induction false} ExchangeKeeps(song: Song, st: ClientState, nr: nat, rounds: seq<Round>)
    requires Prepared(song, st, nr) && rounds != [] && (rounds[0].served || st.stage != Initial)
    requires Fair(song, st, nr, rounds) && Suited(song, st, nr, rounds)
    ensures Underway(song, st, nr, rounds[0].served, Exchange(song, st, nr, rounds))
    ensures Shaped(Exchange(song, st, nr, rounds).raw, st.perBatch)
    ensures Exchange(song, st, nr, rounds).raw.size >= Progress(rounds, st.perBatch)
  {
    hide AfterRound, Sent, Ready, Positioned, Room, InStep, Possible, Requested, FullFirst, Again, NamesNext, Good;
    var n := |rounds| - 1;
    if n == 0 {
      assert rounds[..0] == [];
      FirstRound(song, st, nr, rounds[0]);
    } else {
      ExchangeKeeps(song, st, nr, rounds[..n]);
      var link := Exchange(song, st, nr, rounds[..n]);
      BatchBytesIs(song, st);
      if link.raw.size != st.perBatch {
        LaterRound(song, st, nr, rounds[0].served, link, rounds[n]);
      }
    }
  }

  /** A batch of the music as a quality level preserves it. */
  ghost predicate Assembled(raw: Raw, song: Song, quality: int, base: int, amount: nat) {
    Shaped(raw, amount) && forall j :: 0 <= j < amount ==> Slot(raw, j) == Target(song, quality, base, j)
  }

  /**
   * Whatever is lost, damaged or reordered on either way: when the client has every packet, its
   * buffer holds, packet by packet, what the quality level preserves of one batch of music, up to
   * its end. The server stands right after that batch, and the two counters are again equal or one
   * apart. The batch is the one at the server's pointer, unless the RR was lost while the counters
   * were equal: then it is one batch of the current size before the pointer.
   */
  lemma BatchTransfer(song: Song, st: ClientState, nr: nat, rounds: seq<Round>)
    requires Prepared(song, st, nr) && rounds != [] && (rounds[0].served || st.stage != Initial)
    requires Fair(song, st, nr, rounds) && Suited(song, st, nr, rounds)
    requires Exchange(song, st, nr, rounds).raw.size == st.perBatch
    ensures var l := Exchange(song, st, nr, rounds);
            var standing := !rounds[0].served && nr == st.batchNr;
            var base := if standing && st.bytesSent < song.payload then st.musicPtr - st.BatchBytes() else st.musicPtr;
            && Assembled(l.raw, song, st.quality, base, st.perBatch)
            && l.server.musicPtr == st.musicPtr + (if standing then 0 else st.BatchBytes())
            && Positioned(song, l.server)
            && Ready(song, l.server) && l.server.stage != Initial && l.server.quality == st.quality
            && (Room(song, l.server) <==> rounds[0].served || Guarded(song, st, AskAgain(nr, [])))
            && InStep(l.server, (nr + 1) % TWO32)
            && (NamesNext(l.server, (nr + 1) % TWO32) <==> NamesNext(st, nr) || !rounds[0].served)
  {
    hide Exchange, Fair, Suited, Serving, Faithful, Assembled, BatchPackets;
    hide NamesNext, Ready, Positioned, Room, Guarded;
    ExchangeKeeps(song, st, nr, rounds);
    BatchBytesIs(song, st);
    var l := Exchange(song, st, nr, rounds);
    StartingCounters(song, st, nr, rounds[0].served);
    ServingMeans(song, st, nr, rounds[0].served, l.server);
    FaithfulComplete(l.raw, st.perBatch, song, st.quality, Base(song, st, nr, rounds[0].served));
  }

  lemma StartingCounters(song: Song, st: ClientState, nr: nat, rrServed: bool)
    requires Prepared(song, st, nr)
    ensures nr == st.batchNr <==> !NamesNext(st, nr)
    ensures Base(song, st, nr, rrServed)
         == if !rrServed && nr == st.batchNr && st.bytesSent < song.payload then st.musicPtr - st.BatchBytes()
            else st.musicPtr
  {
    hide Ready, Room;
    assert st.batchNr < TWO32 by {
      ReadyCounter(song, st);
    }
    CountersStep(st.batchNr, nr);
  }

  lemma ReadyCounter(song: Song, st: ClientState)
    requires Ready(song, st)
    ensures st.batchNr < TWO32
  {
  }

  /** The server that has sent the batch, and the client's counter after it. */
  lemma ServingMeans(song: Song, st: ClientState, nr: nat, rrServed: bool, s: ClientState)
    requires Prepared(song, st, nr) && Serving(song, st, nr, rrServed, s)
    ensures s.musicPtr == st.musicPtr + (if rrServed || NamesNext(st, nr) then st.BatchBytes() else 0)
    ensures Positioned(song, s)
    ensures Ready(song, s) && s.stage != Initial && s.quality == st.quality
    ensures Room(song, s) <==> rrServed || Guarded(song, st, AskAgain(nr, []))
    ensures InStep(s, (nr + 1) % TWO32)
    ensures NamesNext(s, (nr + 1) % TWO32) <==> NamesNext(st, nr) || !rrServed
  {
    hide BatchPackets, Positioned, Room, Guarded;
    CountersStep(st.batchNr, nr);
  }

  lemma FaithfulComplete(raw: Raw, amount: nat, song: Song, quality: int, base: int)
    requires Faithful(raw, amount, song, quality, base) && raw.size == amount
    ensures Assembled(raw, song, quality, base, amount)
  {
    hide Target, Slot;
    forall j | 0 <= j < amount
      ensures Slot(raw, j) == Target(song, quality, base, j)
    {
      CountFull(raw.recv, j);
    }
  }

  /** An assembled packet in full: before the end of the music, across it, and behind it. */
  lemma AssembledIs(raw: Raw, song: Song, quality: int, base: int, amount: nat, j: nat)
    requires Assembled(raw, song, quality, base, amount) && j < amount
    ensures var at := base + PACKET_SIZE * j;
            && (at + PACKET_SIZE <= song.payload ==> Slot(raw, j) == Codec.Heard(quality, Sound(song, at, PACKET_SIZE)))
            && (at < song.payload < at + PACKET_SIZE ==>
                  var rest := Codec.Preserved(quality, Sound(song, at, song.payload - at));
                  |rest| <= song.payload - at && Slot(raw, j) == Pad(rest))
            && (at >= song.payload ==> Slot(raw, j) == Zeros(PACKET_SIZE))
  {
    hide Codec.Heard, Codec.Preserved, Sound, Slot, Zeros, Target;
    TargetIs(song, quality, base, j);
  }

  /** With more than a batch left no loss and no order does any harm. */
  lemma {:induction false} PlentySuits(song: Song, st: ClientState, nr: nat, rounds: seq<Round>)
    requires Prepared(song, st, nr) && Plenty(song, st)
    requires Fair(song, st, nr, rounds) && (rounds != [] ==> rounds[0].served || st.stage != Initial)
    ensures Suited(song, st, nr, rounds)
  {
    hide Exchange, Sent, Possible, BatchPackets, FullFirst, NamesNext, Faithful;
    if rounds != [] {
      var n := |rounds| - 1;
      PlentySuits(song, st, nr, rounds[..n]);
      BatchBytesIs(song, st);
      if n == 0 {
        if rounds[n].served {
          FullFirstHolds(song.payload - st.bytesSent, rounds[n].order);
        }
      } else {
        ExchangeKeeps(song, st, nr, rounds[..n]);
      }
    }
  }

  /**
   * As many rounds that bring a packet as the batch has packets complete it, whatever the others
   * lose.
   */
  lemma GoodRoundsComplete(song: Song, st: ClientState, nr: nat, rounds: seq<Round>)
    requires Prepared(song, st, nr) && rounds != [] && (rounds[0].served || st.stage != Initial)
    requires Fair(song, st, nr, rounds) && Suited(song, st, nr, rounds)
    requires |set i | 0 <= i < |rounds| && Good(rounds[i])| >= st.perBatch
    ensures Exchange(song, st, nr, rounds).raw.size == st.perBatch
  {
    hide Exchange, Fair, Suited, Good, Prepared;
    ExchangeKeeps(song, st, nr, rounds);
    ProgressCounts(rounds, st.perBatch);
  }

  lemma {:induction false} ProgressCounts(rounds: seq<Round>, amount: nat)
    ensures var good := |set i | 0 <= i < |rounds| && Good(rounds[i])|;
            Progress(rounds, amount) == if good <= amount then good else amount
  {
    hide Good;
    var all := set i | 0 <= i < |rounds| && Good(rounds[i]);
    if rounds == [] {
      assert all == {};
    } else {
      var n := |rounds| - 1;
      ProgressCounts(rounds[..n], amount);
      var before := set i | 0 <= i < n && Good(rounds[..n][i]);
      assert before == set i | 0 <= i < n && Good(rounds[i]);
      assert all == if Good(rounds[n]) then before + {n} else before;
    }
  }

  /** At quality 3 to 5 the assembled buffer is the music itself, and silence after its end. */
  lemma LosslessBatch(raw: Raw, song: Song, quality: int, base: int, amount: nat)
    requires quality >= 3 && Assembled(raw, song, quality, base, amount)
    ensures raw.data == Stretch(song, base, PACKET_SIZE * amount)
  {
    hide Stretch, Target;
    var music := Stretch(song, base, PACKET_SIZE * amount);
    forall j | 0 <= j < amount
      ensures raw.data[PACKET_SIZE * j..PACKET_SIZE * j + PACKET_SIZE]
           == music[PACKET_SIZE * j..PACKET_SIZE * j + PACKET_SIZE]
    {
      assert Slot(raw, j) == Target(song, quality, base, j);
      LosslessTarget(song, quality, base, j);
      StretchCut(song, base, amount, j);
    }
    SlotsDetermine(raw.data, music, amount);
  }

  lemma StretchCut(song: Song, base: int, amount: nat, j: nat)
    requires j < amount
    ensures Stretch(song, base, PACKET_SIZE * amount)[PACKET_SIZE * j..PACKET_SIZE * j + PACKET_SIZE]
         == Stretch(song, base + PACKET_SIZE * j, PACKET_SIZE)
  {
    hide Stretch;
    var rest := PACKET_SIZE * amount - PACKET_SIZE * j - PACKET_SIZE;
    StretchJoins(song, base, PACKET_SIZE * j, PACKET_SIZE);
    StretchJoins(song, base, PACKET_SIZE * j + PACKET_SIZE, rest);
  }

  /** When nothing goes wrong, one round completes the batch, and nothing is counted as lost. */
  lemma PerfectRound(song: Song, st: ClientState, nr: nat, round: Round)
    requires Prepared(song, st, nr) && round.served
    requires Fair(song, st, nr, [round]) && Suited(song, st, nr, [round])
    requires forall a :: a in round.delivery.arrivals ==> a.Intact?
    requires |round.delivery.arrivals| == st.perBatch
    ensures Exchange(song, st, nr, [round]).raw.size == st.perBatch
    ensures ExchangeTally(song, st, nr, [round]) == Tally(st.perBatch, 0, 0, 0)
  {
    hide Sent, BatchPackets, Collected, AllFit, Once, Checked, Codec.Encode, Sound, Carry, FullFirst, Serving, Possible;
    var amount := st.perBatch;
    var raw, d := Empty(amount), round.delivery;
    assert [round][..0] == [];
    BatchServed(song, st, nr, round);
    OrderIsWanted(amount, round.order);
    var packets := Sent(song, st, RR(nr), round).1;
    assert amount > 0 ==> d.arrivals[0] in d.arrivals;
    assert AfterPeek(d) == d;
    BurstIsOnce(raw, amount, song, st.quality, st.musicPtr, round.order, packets, d);
    CarryAccepted(song, st.quality, st.musicPtr, round.order, packets, amount);
    AllArrive(raw, st.quality, amount, packets, d);
  }

  lemma CarryAccepted(
    song: Song, quality: int, base: int, order: seq<byte>, packets: seq<Packet>, amount: nat)
    requires Carry(song, quality, base, order, packets) && Shuffle.IsOrder(order, amount)
    ensures |packets| == amount && forall k :: 0 <= k < |packets| ==> Accepts(packets[k], amount)
  {
    hide Codec.Encode, Sound;
  }

  lemma AllArrive(raw: Raw, quality: int, amount: nat, packets: seq<Packet>, d: Delivery)
    requires Shaped(raw, amount) && raw.size == 0 && Possible(packets, d.arrivals)
    requires AllFit(Checked(packets, d), quality, amount)
    requires forall k :: 0 <= k < |d.arrivals| ==> d.arrivals[k].Intact?
    requires |d.arrivals| == amount && forall k :: 0 <= k < |packets| ==> Accepts(packets[k], amount)
    ensures var (r, tally) := Collected(raw, quality, amount, amount, Checked(packets, d));
            r.size == amount && tally == Tally(amount, 0, 0, 0)
  {
    hide Collected, AllFit, Checked;
    var got := Checked(packets, d);
    forall k | 0 <= k < |got|
      ensures Accepted(got[k], amount)
    {
      CheckedIs(packets, d, k);
    }
    AllStored(raw, quality, amount, amount, got);
    RoundAccounts(raw, quality, amount, amount, got);
  }

  lemma {:induction false} AllStored(raw: Raw, quality: int, amount: nat, left: nat, arrivals: seq<Received>)
    requires Shaped(raw, amount) && AllFit(arrivals, quality, amount) && raw.size + left <= amount
    requires |arrivals| == left && forall k :: 0 <= k < left ==> Accepted(arrivals[k], amount)
    ensures Collected(raw, quality, amount, left, arrivals).1.stored == left
    decreases left
  {
    hide Put, Codec.Decode;
    if left > 0 {
      assert Fits(arrivals[0], quality, amount);
      AllStored(Stored(raw, quality, arrivals[0].packet), quality, amount, left - 1, arrivals[1..]);
    }
  }
}
