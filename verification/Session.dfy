/** A whole stream: batch after batch, at changing quality, with requests lost on the way. */
module Session {
  import opened Bytes
  import opened Framing
  import opened Stream
  import opened Requests
  import opened StreamRuns
  import opened Reassembly
  import opened StreamContent
  import opened Channel
  import opened Transfer
  import Codec
  import Shuffle

  /** The quality agreed on for one batch, and the exchange that transfers it. */
  datatype Leg = Leg(quality: byte, rounds: seq<Round>)

  predicate RequestLost(leg: Leg)
    requires leg.rounds != []
  {
    !leg.rounds[0].served
  }

  /** The client counts its batches from the number at which both ends started. */
  function Counter(st: ClientState, legs: nat): (nr: nat)
    ensures nr < TWO32
  {
    (st.batchNr + legs) % TWO32
  }

  ghost function LegLink(song: Song, s: ClientState, nr: nat, leg: Leg): Link
    requires nr < TWO32
  {
    Exchange(song, WithQuality(s, leg.quality), nr, leg.rounds)
  }

  ghost function ServerAfter(song: Song, st: ClientState, legs: seq<Leg>): ClientState {
    if legs == [] then st else
    var n := |legs| - 1;
    LegLink(song, ServerAfter(song, st, legs[..n]), Counter(st, n), legs[n]).server
  }

  /** What the client has assembled in the last leg. */
  ghost function ClientAfter(song: Song, st: ClientState, legs: seq<Leg>): Raw
    requires legs != []
  {
    var n := |legs| - 1;
    LegLink(song, ServerAfter(song, st, legs[..n]), Counter(st, n), legs[n]).raw
  }

  /**
   * Each leg runs at a level that both ends agreed on, over a network and in sending orders that
   * suit it, until its batch is complete; a changed level and a lost RR are guarded as in
   * StreamRuns, and the first RR of all arrives.
   */
  ghost predicate LegRuns(song: Song, s: ClientState, nr: nat, leg: Leg)
    requires nr < TWO32
  {
    var t := WithQuality(s, leg.quality);
    && 1 <= leg.quality <= 5 && leg.rounds != []
    && (s.stage == Initial ==> leg.quality == s.quality && !RequestLost(leg))
    && (leg.quality != s.quality ==> Guarded(song, s, AskQuality(leg.quality)))
    && (RequestLost(leg) ==> Guarded(song, t, AskAgain(nr, [])))
    && Fair(song, t, nr, leg.rounds) && Suited(song, t, nr, leg.rounds)
    && LegLink(song, s, nr, leg).raw.size == t.perBatch
  }

  ghost predicate Runs(song: Song, st: ClientState, legs: seq<Leg>) {
    legs != [] ==>
      var n := |legs| - 1;
      Runs(song, st, legs[..n]) && LegRuns(song, ServerAfter(song, st, legs[..n]), Counter(st, n), legs[n])
  }

  predicate NoneLost(legs: seq<Leg>) {
    forall k :: 0 <= k < |legs| ==> legs[k].rounds != [] && !RequestLost(legs[k])
  }

  /** The last leg is the first one whose RR was lost. */
  predicate FirstLoss(legs: seq<Leg>) {
    legs != [] && NoneLost(legs[..|legs| - 1]) && !NoneLost(legs)
  }

  function LegBytes(leg: Leg): nat {
    PACKET_SIZE * BatchPackets(leg.quality)
  }

  /** How far the music has come: every leg brings a batch, except the first with a lost RR. */
  function Position(from: int, legs: seq<Leg>): (p: int)
    ensures p >= from
  {
    if legs == [] then from else
    var n := |legs| - 1;
    Position(from, legs[..n]) + if FirstLoss(legs) then 0 else LegBytes(legs[n])
  }

  /**
   * Where the batch comes from that is repeated when the first RR is lost at a place: from one batch
   * before it, but at the end of the music there is only silence.
   */
  function ReplayFrom(song: Song, at: int, size: nat): int {
    if at < song.payload then at - size else at
  }

  /** The music from one place to another, with a batch repeated at a place in between. */
  function WithReplay(song: Song, from: int, at: int, size: nat, end: int): seq<byte>
    requires from <= at <= end
  {
    Stretch(song, from, at - from) + Stretch(song, ReplayFrom(song, at, size), size) + Stretch(song, at, end - at)
  }

  lemma ReplayNow(song: Song, from: int, at: int, size: nat)
    requires from <= at
    ensures Stretch(song, from, at - from) + Stretch(song, ReplayFrom(song, at, size), size)
         == WithReplay(song, from, at, size, at)
  {
    hide Stretch;
  }

  lemma ReplayGrows(song: Song, from: int, at: int, size: nat, end: int, n: nat)
    requires from <= at <= end
    ensures WithReplay(song, from, at, size, end) + Stretch(song, end, n) == WithReplay(song, from, at, size, end + n)
  {
    hide Stretch;
    StretchJoins(song, at, end - at, n);
    Regroup(Stretch(song, from, at - from) + Stretch(song, ReplayFrom(song, at, size), size),
            Stretch(song, at, end - at), Stretch(song, end, n));
  }

  lemma Regroup(a: seq<byte>, b: seq<byte>, c: seq<byte>)
    ensures a + b + c == a + (b + c)
  {
  }

  lemma NoReplay(song: Song, from: int, end: int)
    requires from <= end
    ensures WithReplay(song, from, end, 0, end) == Stretch(song, from, end - from)
  {
    hide Stretch;
  }

  /** Where the batch of the last leg comes from. */
  function LegBase(song: Song, from: int, legs: seq<Leg>): int
    requires legs != []
  {
    var n := |legs| - 1;
    var at := Position(from, legs[..n]);
    if FirstLoss(legs) then ReplayFrom(song, at, LegBytes(legs[n])) else at
  }

  lemma CounterStep(st: ClientState, n: nat)
    ensures (Counter(st, n) + 1) % TWO32 == Counter(st, n + 1)
  {
  }

  /**
   * Every run, up to the end of the music: each batch the client assembles is the next stretch,
   * except that the first lost RR makes it assemble one batch before the pointer once more, or a
   * batch of silence when nothing is left; no later loss does any harm.
   */
  lemma {:induction false} SessionKeeps(song: Song, st: ClientState, legs: seq<Leg>)
    requires Ready(song, st) && Positioned(song, st) && Room(song, st) && Runs(song, st, legs)
    ensures var s := ServerAfter(song, st, legs);
            && Ready(song, s) && Positioned(song, s) && Room(song, s)
            && (legs != [] ==> s.stage != Initial)
            && s.musicPtr == Position(st.musicPtr, legs)
            && InStep(s, Counter(st, |legs|))
            && (NamesNext(s, Counter(st, |legs|)) <==> !NoneLost(legs))
            && (legs != [] ==>
                  Assembled(ClientAfter(song, st, legs), song, legs[|legs| - 1].quality,
                            LegBase(song, st.musicPtr, legs), BatchPackets(legs[|legs| - 1].quality)))
  {
    hide LegLink, LegRuns, BatchPackets, Assembled, NoneLost, Ready, Positioned, Room, InStep, Counter;
    if legs == [] {
      CountersEqual(song, st);
    } else {
      var n := |legs| - 1;
      var before := legs[..n];
      SessionKeeps(song, st, before);
      var s := ServerAfter(song, st, before);
      LegHasRounds(song, s, Counter(st, n), legs[n]);
      LegKeeps(song, s, Counter(st, n), legs[n]);
      CounterStep(st, n);
      OneAhead(song, s, Counter(st, n));
      LossSoFar(legs);
      LeftIff(song, s);
    }
  }

  lemma LeftIff(song: Song, s: ClientState)
    requires Positioned(song, s)
    ensures s.bytesSent < song.payload <==> s.musicPtr < song.payload
  {
  }

  lemma OneAhead(song: Song, s: ClientState, nr: nat)
    requires Ready(song, s) && nr < TWO32 && InStep(s, nr)
    ensures nr == s.batchNr <==> !NamesNext(s, nr)
  {
    CountersStep(s.batchNr, nr);
  }

  lemma LegHasRounds(song: Song, s: ClientState, nr: nat, leg: Leg)
    requires nr < TWO32 && LegRuns(song, s, nr, leg)
    ensures leg.rounds != []
  {
    hide LegLink, Fair, Suited, Guarded;
  }

  lemma LossSoFar(legs: seq<Leg>)
    requires legs != [] && legs[|legs| - 1].rounds != []
    ensures NoneLost(legs) <==> NoneLost(legs[..|legs| - 1]) && !RequestLost(legs[|legs| - 1])
  {
  }

  lemma CountersEqual(song: Song, st: ClientState)
    requires Ready(song, st)
    ensures Counter(st, 0) == st.batchNr && InStep(st, st.batchNr) && !NamesNext(st, st.batchNr) && NoneLost([])
  {
  }

  lemma LegKeeps(song: Song, s: ClientState, nr: nat, leg: Leg)
    requires Ready(song, s) && Positioned(song, s) && Room(song, s)
    requires nr < TWO32 && InStep(s, nr) && LegRuns(song, s, nr, leg)
    ensures var l := LegLink(song, s, nr, leg);
            var standing := RequestLost(leg) && nr == s.batchNr;
            var base := if standing && s.bytesSent < song.payload then s.musicPtr - LegBytes(leg) else s.musicPtr;
            && Assembled(l.raw, song, leg.quality, base, BatchPackets(leg.quality))
            && l.server.musicPtr == s.musicPtr + (if standing then 0 else LegBytes(leg))
            && Ready(song, l.server) && Positioned(song, l.server) && Room(song, l.server)
            && l.server.stage != Initial
            && InStep(l.server, (nr + 1) % TWO32)
            && (NamesNext(l.server, (nr + 1) % TWO32) <==> NamesNext(s, nr) || RequestLost(leg))
  {
    hide Exchange, Fair, Suited, Assembled, BatchPackets;
    var t := WithQuality(s, leg.quality);
    BatchBytesIs(song, t);
    BatchTransfer(song, t, nr, leg.rounds);
  }

  // -- What the listener hears -------------------------------------------------------------

  /** The buffers assembled in all legs, one after the other. */
  ghost function Listened(song: Song, st: ClientState, legs: seq<Leg>): seq<byte> {
    if legs == [] then [] else
    Listened(song, st, legs[..|legs| - 1]) + ClientAfter(song, st, legs).data
  }

  ghost predicate Lossless(legs: seq<Leg>) {
    forall k :: 0 <= k < |legs| ==> legs[k].quality >= 3
  }

  /** With every RR served, at quality 3 to 5, it is the music, bit by bit, and silence after its end. */
  lemma {:induction false} ListenedIsMusic(song: Song, st: ClientState, legs: seq<Leg>)
    requires Ready(song, st) && Positioned(song, st) && Room(song, st) && Runs(song, st, legs)
    requires Lossless(legs) && NoneLost(legs)
    ensures Listened(song, st, legs) == Stretch(song, st.musicPtr, Position(st.musicPtr, legs) - st.musicPtr)
  {
    hide Runs, ServerAfter, ClientAfter, Stretch, BatchPackets, Ready, Positioned, Room;
    if legs == [] {
    } else {
      var n := |legs| - 1;
      RunsBefore(song, st, legs);
      ListenedIsMusic(song, st, legs[..n]);
      LastLeg(song, st, legs);
      var p := Position(st.musicPtr, legs[..n]);
      StretchJoins(song, st.musicPtr, p - st.musicPtr, LegBytes(legs[n]));
    }
  }

  /**
   * When RRs were lost, the first time in leg k, one stretch is put in between: one batch of the
   * size of that leg, from before the place that had been reached.
   */
  lemma {:induction false} ListenedRepeatsOnce(song: Song, st: ClientState, legs: seq<Leg>, k: nat)
    requires Ready(song, st) && Positioned(song, st) && Room(song, st) && Runs(song, st, legs)
    requires Lossless(legs) && k < |legs| && FirstLoss(legs[..k + 1])
    ensures Position(st.musicPtr, legs[..k]) <= Position(st.musicPtr, legs)
    ensures Listened(song, st, legs)
         == WithReplay(song, st.musicPtr, Position(st.musicPtr, legs[..k]), LegBytes(legs[k]),
                       Position(st.musicPtr, legs))
  {
    hide Runs, ServerAfter, ClientAfter, Stretch, BatchPackets, Ready, Positioned, Room, RequestLost, WithReplay;
    hide NoneLost;
    var n := |legs| - 1;
    RunsBefore(song, st, legs);
    LastLeg(song, st, legs);
    assert legs[..k + 1][..k] == legs[..k];
    if k == n {
      assert legs[..k + 1] == legs;
      ListenedIsMusic(song, st, legs[..n]);
      ReplayNow(song, st.musicPtr, Position(st.musicPtr, legs[..k]), LegBytes(legs[k]));
    } else {
      assert legs[..n][..k + 1] == legs[..k + 1] && legs[..n][..k] == legs[..k];
      ListenedRepeatsOnce(song, st, legs[..n], k);
      LostBefore(legs, k);
      ReplayGrows(song, st.musicPtr, Position(st.musicPtr, legs[..k]), LegBytes(legs[k]),
                  Position(st.musicPtr, legs[..n]), LegBytes(legs[n]));
    }
  }

  /** What the last leg adds. */
  lemma LastLeg(song: Song, st: ClientState, legs: seq<Leg>)
    requires Ready(song, st) && Positioned(song, st) && Room(song, st) && Runs(song, st, legs)
    requires Lossless(legs) && legs != []
    ensures ClientAfter(song, st, legs).data
         == Stretch(song, LegBase(song, st.musicPtr, legs), LegBytes(legs[|legs| - 1]))
  {
    hide Runs, ServerAfter, ClientAfter, Stretch, BatchPackets, Assembled, Position;
    var n := |legs| - 1;
    SessionKeeps(song, st, legs);
    LosslessBatch(ClientAfter(song, st, legs), song, legs[n].quality, LegBase(song, st.musicPtr, legs),
                  BatchPackets(legs[n].quality));
  }

  /** Only one leg of a run is the first with a lost RR. */
  lemma LostBefore(legs: seq<Leg>, k: nat)
    requires k + 1 < |legs| && FirstLoss(legs[..k + 1])
    ensures !FirstLoss(legs)
  {
    var before := legs[..|legs| - 1];
    assert before[..k + 1] == legs[..k + 1];
    if NoneLost(before) {
      NoneLostBefore(before, k + 1);
    }
  }

  lemma NoneLostBefore(legs: seq<Leg>, k: nat)
    requires NoneLost(legs) && k <= |legs|
    ensures NoneLost(legs[..k])
  {
  }

  lemma {:induction false} FirstLossOf(legs: seq<Leg>) returns (k: nat)
    ensures k <= |legs| && NoneLost(legs[..k]) && (k < |legs| ==> FirstLoss(legs[..k + 1]))
  {
    if NoneLost(legs) {
      k := |legs|;
      assert legs[..k] == legs;
    } else {
      var n := |legs| - 1;
      k := FirstLossOf(legs[..n]);
      assert legs[..n][..k] == legs[..k] && legs[..n + 1] == legs;
      if k < n {
        assert legs[..n][..k + 1] == legs[..k + 1];
      }
    }
  }

  /** Every run at quality 3 to 5, with or without lost RRs; at EOS the end has been reached. */
  lemma WhatIsHeard(song: Song, st: ClientState, legs: seq<Leg>) returns (k: nat)
    requires Ready(song, st) && Positioned(song, st) && Room(song, st) && Runs(song, st, legs) && Lossless(legs)
    ensures k <= |legs| && NoneLost(legs[..k]) && (k < |legs| ==> FirstLoss(legs[..k + 1]))
    ensures Position(st.musicPtr, legs[..k]) <= Position(st.musicPtr, legs)
    ensures Listened(song, st, legs)
         == WithReplay(song, st.musicPtr, Position(st.musicPtr, legs[..k]), if k < |legs| then LegBytes(legs[k]) else 0,
                       Position(st.musicPtr, legs))
    ensures Ends(song, ServerAfter(song, st, legs), Counter(st, |legs|)) ==> Position(st.musicPtr, legs) >= song.payload
  {
    hide Runs, Listened, Stretch, BatchPackets, Ready, Room, Position, FirstLoss, NoneLost, Lossless, ServerAfter, Ends;
    hide WithReplay, Counter, InStep, NamesNext;
    SessionKeeps(song, st, legs);
    EndsIff(song, ServerAfter(song, st, legs), Counter(st, |legs|));
    k := FirstLossOf(legs);
    assert k == |legs| ==> legs[..k] == legs;
    if k == |legs| {
      ListenedIsMusic(song, st, legs);
      NoReplay(song, st.musicPtr, Position(st.musicPtr, legs));
    } else {
      ListenedRepeatsOnce(song, st, legs, k);
    }
  }

  // -- The end ---------------------------------------------------------------------------------

  /** The server answers the next RR with EOS. */
  predicate Ends(song: Song, s: ClientState, nr: nat)
    requires nr < TWO32
  {
    Process(song, s, RR(nr)).1 == SendEos
  }

  lemma EndsIff(song: Song, s: ClientState, nr: nat)
    requires Ready(song, s) && Positioned(song, s) && Room(song, s) && nr < TWO32
    ensures Ends(song, s, nr) <==> s.bytesSent == song.payload
  {
    hide BatchPackets;
    BatchBytesIs(song, s);
  }

  /**
   * A song played to its end: with every RR served and at quality 3 to 5 the client has assembled
   * all samples, once and in order, and less than a batch of silence behind them.
   */
  lemma WholeSong(song: Song, quality: int, legs: seq<Leg>)
    requires 1 <= quality <= 5 && PACKET_SIZE * BatchPackets(quality) <= song.payload < TWO32
    requires Runs(song, Fresh(quality), legs) && Lossless(legs) && NoneLost(legs)
    requires Ends(song, ServerAfter(song, Fresh(quality), legs), Counter(Fresh(quality), |legs|))
    ensures legs != [] && song.payload <= Position(0, legs) < song.payload + LegBytes(legs[|legs| - 1])
    ensures Listened(song, Fresh(quality), legs)
         == Sound(song, 0, song.payload) + Zeros(Position(0, legs) - song.payload)
    ensures forall i: nat :: i < |Listened(song, Fresh(quality), legs)| ==>
              Listened(song, Fresh(quality), legs)[i] == if i < song.payload then song.memory(i) else 0
  {
    hide Runs, ServerAfter, Listened, Sound, Zeros, BatchPackets, Position, Lossless, NoneLost;
    var st := Fresh(quality);
    FreshIsReady(song, quality);
    SessionKeeps(song, st, legs);
    ListenedIsMusic(song, st, legs);
    EndsIff(song, ServerAfter(song, st, legs), Counter(st, |legs|));
    NotBeforeTheEnd(song, st, legs);
    WholeStretch(song, Position(0, legs));
    SamplesAre(song, Position(0, legs) - song.payload);
  }

  /** Octet by octet the sound of the song is what its memory holds from the first sample on. */
  lemma SamplesAre(song: Song, n: nat)
    ensures var s := Sound(song, 0, song.payload) + Zeros(n);
            forall i: nat :: i < |s| ==> s[i] == if i < song.payload then song.memory(i) else 0
  {
  }

  lemma FreshIsReady(song: Song, quality: int)
    requires 1 <= quality <= 5 && PACKET_SIZE * BatchPackets(quality) <= song.payload < TWO32
    ensures Ready(song, Fresh(quality)) && Positioned(song, Fresh(quality)) && Room(song, Fresh(quality))
    ensures Fresh(quality).musicPtr == 0 && Fresh(quality).bytesSent == 0 < song.payload
  {
    hide BatchPackets;
    KnownSize(quality);
  }

  lemma WholeStretch(song: Song, n: nat)
    requires n >= song.payload
    ensures Stretch(song, 0, n) == Sound(song, 0, song.payload) + Zeros(n - song.payload)
  {
  }

  /** A batch is asked for only while some of the music is left. */
  lemma NotBeforeTheEnd(song: Song, st: ClientState, legs: seq<Leg>)
    requires Ready(song, st) && Positioned(song, st) && Room(song, st) && Runs(song, st, legs)
    requires NoneLost(legs) && st.bytesSent < song.payload
    ensures ServerAfter(song, st, legs).bytesSent == song.payload ==>
              legs != [] && song.payload <= Position(st.musicPtr, legs) < song.payload + LegBytes(legs[|legs| - 1])
  {
    hide LegLink, Fair, BatchPackets, Assembled;
    if legs != [] {
      var n := |legs| - 1;
      SessionKeeps(song, st, legs);
      SessionKeeps(song, st, legs[..n]);
      var s := ServerAfter(song, st, legs[..n]);
      assert LegRuns(song, s, Counter(st, n), legs[n]);
      ServedMeansLeft(song, s, Counter(st, n), legs[n]);
    }
  }

  lemma ServedMeansLeft(song: Song, s: ClientState, nr: nat, leg: Leg)
    requires Ready(song, s) && Positioned(song, s) && Room(song, s) && nr < TWO32
    requires LegRuns(song, s, nr, leg) && !RequestLost(leg)
    ensures s.musicPtr == s.bytesSent < song.payload
  {
    hide Fair, BatchPackets, FullFirst, SendsWhole, LegLink;
    BatchBytesIs(song, s);
    FirstSuited(song, WithQuality(s, leg.quality), nr, leg.rounds);
  }

  lemma {:induction false} FirstSuited(song: Song, st: ClientState, nr: nat, rounds: seq<Round>)
    requires nr < TWO32 && rounds != [] && Suited(song, st, nr, rounds) && rounds[0].served
    ensures st.stage == Final ==> st.bytesSent < song.payload
  {
    hide Exchange, FullFirst, SendsWhole;
    if |rounds| > 1 {
      FirstSuited(song, st, nr, rounds[..|rounds| - 1]);
    }
  }

  // -- A run that gets there ------------------------------------------------------------------

  /** A round in which everything arrives, in the order sent. */
  function Undisturbed(order: seq<byte>): Round {
    Round(true, order, Delivery(InOrder(|order|), k => i => 0, k => i => 0))
  }

  function InOrder(n: nat): (a: seq<Arrival>)
    ensures |a| == n
    ensures forall i :: 0 <= i < n ==> a[i] == Intact(i)
  {
    seq(n, i requires 0 <= i => Intact(i))
  }

  lemma UndisturbedArrives(song: Song, quality: int, base: int, order: seq<byte>, packets: seq<Packet>)
    requires Carry(song, quality, base, order, packets)
    ensures Possible(packets, InOrder(|order|))
  {
    hide Codec.Encode, Codec.Decode, Target, Carry, Zeros, Put;
    CarryLength(song, quality, base, order, packets);
    forall p | p in packets
      ensures |p.data| <= MAX_DATA
    {
      var i :| 0 <= i < |packets| && packets[i] == p;
      CarriedDecodes(song, quality, base, order, packets, i);
    }
  }

  lemma CarryLength(song: Song, quality: int, base: int, order: seq<byte>, packets: seq<Packet>)
    requires Carry(song, quality, base, order, packets)
    ensures |packets| == |order|
  {
  }

  /** What the rounds of a leg add to the client's counters. */
  ghost function LegTally(song: Song, s: ClientState, nr: nat, leg: Leg): Tally
    requires nr < TWO32
  {
    ExchangeTally(song, WithQuality(s, leg.quality), nr, leg.rounds)
  }

  /** A level that an undisturbed leg may run at: the present one, or another that is guarded. */
  predicate MayRunAt(song: Song, s: ClientState, quality: byte) {
    1 <= quality <= 5 &&
    (quality == s.quality || (s.stage != Initial && Guarded(song, s, AskQuality(quality))))
  }

  /** While music is left, an undisturbed leg in natural order runs and does what a batch does. */
  lemma UndisturbedLeg(song: Song, s: ClientState, nr: nat, quality: byte) returns (leg: Leg)
    requires Ready(song, s) && Positioned(song, s) && Room(song, s) && nr < TWO32 && InStep(s, nr)
    requires s.bytesSent < song.payload && MayRunAt(song, s, quality)
    ensures leg.quality == quality && LegRuns(song, s, nr, leg) && leg.rounds != [] && !RequestLost(leg)
    ensures var t := WithQuality(s, quality);
            LegLink(song, s, nr, leg).server
            == AfterBatch(song, if t.stage == Initial then t.(stage := Intermediate) else t)
    ensures LegTally(song, s, nr, leg) == Tally(BatchPackets(quality), 0, 0, 0)
    ensures LegLink(song, s, nr, leg).server.bytesSent > s.bytesSent
  {
    hide AfterBatch, Burst, PacketsOf, Carry, BatchPackets, FullFirst, InOrder, Serving, AfterRound, Possible;
    var t := WithQuality(s, quality);
    BatchBytesIs(song, t);
    var order := Identity(t.perBatch);
    var round := Undisturbed(order);
    leg := Leg(quality, [round]);
    IdentityIsOrder(t.perBatch);
    FullFirstHolds(song.payload - t.bytesSent, order);
    BatchServed(song, t, nr, round);
    var packets := Sent(song, t, RR(nr), round).1;
    UndisturbedArrives(song, t.quality, t.musicPtr, order, packets);
    OneRound(song, t, nr, round);
    PerfectRound(song, t, nr, round);
    ServeRR(song, t, nr, order);
    BatchStaysWithin(song, if t.stage == Initial then t.(stage := Intermediate) else t);
  }

  lemma OneRound(song: Song, st: ClientState, nr: nat, round: Round)
    requires Ready(song, st) && nr < TWO32 && round.served && Shuffle.IsOrder(round.order, st.perBatch)
    requires st.stage == Final ==> st.bytesSent < song.payload && FullFirst(song.payload - st.bytesSent, round.order)
    requires Possible(Sent(song, st, RR(nr), round).1, round.delivery.arrivals)
    ensures Fair(song, st, nr, [round]) && Suited(song, st, nr, [round])
    ensures Exchange(song, st, nr, [round]).server == Sent(song, st, RR(nr), round).0
  {
    hide Sent, Possible, FullFirst, ClientRound, Checked, AllFit;
    assert [round][..0] == [];
  }

  /** Undisturbed, a song takes as many legs as it has batches. */
  lemma {:induction false} UndisturbedRun(song: Song, quality: byte, n: nat) returns (legs: seq<Leg>)
    requires 1 <= quality <= 5 && PACKET_SIZE * BatchPackets(quality) <= song.payload < TWO32
    requires n <= BatchCount(song, PACKET_SIZE * BatchPackets(quality))
    ensures |legs| == n && (forall k :: 0 <= k < n ==> legs[k].quality == quality)
    ensures Runs(song, Fresh(quality), legs) && NoneLost(legs)
    ensures ServerAfter(song, Fresh(quality), legs) == Batches(song, Fresh(quality), n)
  {
    hide Runs, LegRuns, LegLink, ServerAfter, AfterBatch, BatchPackets, Ready, Positioned, Room, InStep, NoneLost;
    hide BatchCount, Counter;
    var st := Fresh(quality);
    if n == 0 {
      legs := [];
      NothingYet(song, st);
    } else {
      var before := UndisturbedRun(song, quality, n - 1);
      var s := ServerAfter(song, st, before);
      FreshIsReady(song, quality);
      SessionKeeps(song, st, before);
      BatchIsLeft(song, quality, n - 1);
      var leg := UndisturbedLeg(song, s, Counter(st, n - 1), quality);
      legs := before + [leg];
      OneMoreLeg(song, st, before, leg);
      SameLevel(song, s);
    }
  }

  /** Setting the level that the server has changes nothing. */
  lemma SameLevel(song: Song, s: ClientState)
    requires Ready(song, s)
    ensures 1 <= s.quality <= 5 && WithQuality(s, s.quality) == s
  {
  }

  lemma NothingYet(song: Song, st: ClientState)
    ensures Runs(song, st, []) && ServerAfter(song, st, []) == st && NoneLost([])
  {
  }

  lemma BatchIsLeft(song: Song, quality: int, k: nat)
    requires 1 <= quality <= 5 && PACKET_SIZE * BatchPackets(quality) <= song.payload < TWO32
    requires k < BatchCount(song, PACKET_SIZE * BatchPackets(quality))
    ensures var s := Batches(song, Fresh(quality), k);
            s.quality == quality && s.bytesSent < song.payload
  {
    hide Batches, BatchPackets;
    var size := PACKET_SIZE * BatchPackets(quality);
    KnownSize(quality);
    CeilFacts(song.payload, size, k);
    BatchesCount(song, quality, k);
  }

  lemma OneMoreLeg(song: Song, st: ClientState, before: seq<Leg>, leg: Leg)
    requires Runs(song, st, before) && NoneLost(before) && leg.rounds != [] && !RequestLost(leg)
    requires LegRuns(song, ServerAfter(song, st, before), Counter(st, |before|), leg)
    ensures Runs(song, st, before + [leg]) && NoneLost(before + [leg])
    ensures ServerAfter(song, st, before + [leg])
         == LegLink(song, ServerAfter(song, st, before), Counter(st, |before|), leg).server
  {
    hide LegRuns, LegLink, Counter;
    assert (before + [leg])[..|before|] == before;
  }

  /** Every song that fills a first batch can be played to its end, in as many batches as hold it. */
  lemma SongCanBePlayed(song: Song, quality: byte) returns (legs: seq<Leg>)
    requires 1 <= quality <= 5 && PACKET_SIZE * BatchPackets(quality) <= song.payload < TWO32
    ensures Runs(song, Fresh(quality), legs) && NoneLost(legs)
    ensures forall k :: 0 <= k < |legs| ==> legs[k].quality == quality
    ensures Ends(song, ServerAfter(song, Fresh(quality), legs), Counter(Fresh(quality), |legs|))
    ensures |legs| == BatchCount(song, PACKET_SIZE * BatchPackets(quality))
  {
    hide Runs, ServerAfter, BatchPackets, Ends, BatchCount, Ready, Positioned, Room, NoneLost;
    KnownSize(quality);
    var n := BatchCount(song, PACKET_SIZE * BatchPackets(quality));
    BatchCountIs(song, PACKET_SIZE * BatchPackets(quality));
    legs := UndisturbedRun(song, quality, n);
    FreshIsReady(song, quality);
    SessionKeeps(song, Fresh(quality), legs);
    StreamEnds(song, quality, n, AskBatch(0, []));
    EndsIff(song, ServerAfter(song, Fresh(quality), legs), Counter(Fresh(quality), n));
  }

  lemma BatchCountIs(song: Song, size: int)
    requires size > 0
    ensures BatchCount(song, size) >= 0
  {
  }

  lemma RunsBefore(song: Song, st: ClientState, legs: seq<Leg>)
    requires Runs(song, st, legs) && legs != []
    ensures Runs(song, st, legs[..|legs| - 1])
  {
    hide LegRuns, ServerAfter;
  }
}
