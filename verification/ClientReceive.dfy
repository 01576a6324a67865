/** receive_batch: request, rounds of receiving, requests for what is missing (receive.c:94-126). */
module ClientReceive {
  import opened Bytes
  import opened Framing
  import opened Stream
  import opened Requests
  import opened Reassembly
  import opened Channel
  import Transfer
  import Quality

  /** What the client meets in one turn of its loop: an EOS waiting, or a burst. */
  datatype Turn = EosWaiting | Burst(arrivals: seq<Received>)

  datatype Status = Complete | EosSeen | StillWaiting

  function Bursts(turns: seq<Turn>): (b: seq<seq<Received>>)
    requires forall k :: 0 <= k < |turns| ==> turns[k].Burst?
    ensures |b| == |turns|
    ensures forall k :: 0 <= k < |turns| ==> b[k] == turns[k].arrivals
  {
    seq(|turns|, k requires 0 <= k < |turns| => turns[k].arrivals)
  }

  /** The k-th request of a batch goes out before the k-th burst. */
  ghost predicate Asked(requests: seq<Packet>, nr: nat, quality: int, amount: nat, bursts: seq<seq<Received>>)
    requires nr < TWO32 && BurstsFit(bursts, quality, amount)
  {
    |requests| <= |bursts| + 1 &&
    forall k :: 0 <= k < |requests| ==>
      requests[k] == Transfer.Request(Reassembled(quality, amount, bursts[..k]), nr, k)
  }

  /** Where the loop stands after some bursts: what is assembled, and what has been asked for. */
  ghost predicate Progress(turns: seq<Turn>, nr: nat, quality: int, amount: nat, raw: Raw, requests: seq<Packet>)
    requires nr < TWO32
  {
    && (forall k :: 0 <= k < |turns| ==> turns[k].Burst?)
    && BurstsFit(Bursts(turns), quality, amount)
    && raw == Reassembled(quality, amount, Bursts(turns))
    && Asked(requests, nr, quality, amount, Bursts(turns))
  }

  /** What the turns so far have added to the counters. */
  ghost function Losses(turns: seq<Turn>, quality: int, amount: nat): Tally
    requires forall k :: 0 <= k < |turns| ==> turns[k].Burst? && AllFit(turns[k].arrivals, quality, amount)
  {
    Tallied(quality, amount, Bursts(turns))
  }

  class Client {
    const quality: Quality.Controller
    var batchNr: nat
    var eosReceived: bool

    constructor (quality: Quality.Controller)
      ensures this.quality == quality && batchNr == 0 && !eosReceived
    {
      this.quality := quality;
      batchNr, eosReceived := 0, false;
    }

    /**
     * The turns may end before the batch is complete: the loop of the source then goes on waiting.
     */
    method ReceiveBatch(turns: seq<Turn>)
      returns (status: Status, raw: RawBatch, requests: seq<Packet>, ghost used: nat)
      requires 1 <= quality.current <= 5 && batchNr < TWO32
      requires forall k :: 0 <= k < |turns| && turns[k].Burst? ==>
                 AllFit(turns[k].arrivals, quality.current, BatchPackets(quality.current))
      modifies this, quality
      ensures raw.Valid() && used <= |turns| && quality.current == old(quality.current)
      ensures var amount := BatchPackets(quality.current);
              && Progress(turns[..used], old(batchNr), quality.current, amount, raw.State(), requests)
              && |requests| == used + (if status == Complete then 0 else 1)
              && (status == Complete <==> used > 0 && raw.sizeNrs == amount)
              && quality.ok == old(quality.ok) + (if status == Complete then amount else 0)
              && (forall k :: 0 <= k < used ==> turns[k].Burst?)
              && quality.lost == old(quality.lost) + Losses(turns[..used], quality.current, amount).lost
              && quality.faulty == old(quality.faulty) + Losses(turns[..used], quality.current, amount).faulty
      ensures status == EosSeen ==> used < |turns| && turns[used].EosWaiting?
      ensures status == StillWaiting ==> used == |turns|
      ensures eosReceived == (status == EosSeen || old(eosReceived))
      ensures batchNr == if status == Complete then (old(batchNr) + 1) % TWO32 else old(batchNr)
    {
      hide BatchPackets, Collected, Requested, Transfer.Request, Fits, Progress, Losses;
      ghost var level := quality.current;
      var amount := BatchPackets(quality.current);
      requests := [RR(batchNr)];
      raw := new RawBatch(amount);
      used := 0;
      var missing := true;
      var i := 0;
      Start(turns, batchNr, level, amount);
      NothingLost(turns, level, amount);
      while missing
        invariant quality.current == level && batchNr == old(batchNr) && eosReceived == old(eosReceived)
        invariant quality.ok == old(quality.ok)
        invariant used == i <= |turns| && |requests| == i + (if missing then 1 else 0)
        invariant raw.Valid() && raw.recvNrs.Length == amount && fresh(raw) && fresh(raw.dataPtr) && fresh(raw.recvNrs)
        invariant Progress(turns[..i], batchNr, level, amount, raw.State(), requests)
        invariant forall k :: 0 <= k < i ==> turns[k].Burst?
        invariant quality.lost == old(quality.lost) + Losses(turns[..i], level, amount).lost
        invariant quality.faulty == old(quality.faulty) + Losses(turns[..i], level, amount).faulty
        invariant !missing <==> i > 0 && raw.sizeNrs == amount
        decreases |turns| - i, missing
      {
        if i == |turns| {
          return StillWaiting, raw, requests, used;
        }
        if turns[i].EosWaiting? {
          eosReceived := true;
          return EosSeen, raw, requests, used;
        }
        NextBurst(turns, i, batchNr, level, amount, raw.State(), requests);
        NextLosses(turns, i, batchNr, level, amount, raw.State(), requests);
        ghost var _ := raw.Receive(quality, turns[i].arrivals);
        i, used := i + 1, i + 1;
        missing := raw.sizeNrs != amount;
        if missing {
          var nrs := raw.GetMissingNrs();
          NextRequest(turns[..i], batchNr, level, amount, raw.State(), requests);
          requests := requests + [Rej(batchNr, nrs)];
        }
      }
      quality.ok := quality.ok + amount;
      batchNr := (batchNr + 1) % TWO32;
      status := Complete;
    }
  }

  lemma Start(turns: seq<Turn>, nr: nat, quality: int, amount: nat)
    requires nr < TWO32
    ensures Progress(turns[..0], nr, quality, amount, Empty(amount), [RR(nr)])
  {
    hide Collected;
  }

  /** One more burst: its share of the batch, and the requests so far are still the right ones. */
  lemma NextBurst(turns: seq<Turn>, i: nat, nr: nat, quality: int, amount: nat, raw: Raw, requests: seq<Packet>)
    requires nr < TWO32 && i < |turns| && turns[i].Burst? && AllFit(turns[i].arrivals, quality, amount)
    requires Progress(turns[..i], nr, quality, amount, raw, requests) && (i == 0 || raw.size != amount)
    ensures |raw.recv| == amount && |raw.data| == PACKET_SIZE * amount && raw.size <= amount
    ensures Progress(turns[..i + 1], nr, quality, amount,
                     Collected(raw, quality, amount, amount - raw.size, turns[i].arrivals).0, requests)
  {
    hide Collected, Transfer.Request, AllFit, Requested;
    assert forall k :: 0 <= k < i ==> turns[..i + 1][k] == turns[..i][k];
    var before, now := Bursts(turns[..i]), Bursts(turns[..i + 1]);
    assert now[..i] == before;
    forall k | 0 <= k < |requests|
      ensures now[..k] == before[..k]
    {
    }
  }

  lemma NothingLost(turns: seq<Turn>, quality: int, amount: nat)
    ensures Losses(turns[..0], quality, amount) == NOTHING
  {
  }

  /** One more burst, and its share of the counters. */
  lemma NextLosses(turns: seq<Turn>, i: nat, nr: nat, quality: int, amount: nat, raw: Raw, requests: seq<Packet>)
    requires nr < TWO32 && i < |turns| && turns[i].Burst? && AllFit(turns[i].arrivals, quality, amount)
    requires forall k :: 0 <= k < i ==> turns[k].Burst? && AllFit(turns[k].arrivals, quality, amount)
    requires Progress(turns[..i], nr, quality, amount, raw, requests) && (i == 0 || raw.size != amount)
    ensures |raw.recv| == amount && |raw.data| == PACKET_SIZE * amount && raw.size <= amount
    ensures Losses(turns[..i + 1], quality, amount)
         == Losses(turns[..i], quality, amount).Plus(
              Collected(raw, quality, amount, amount - raw.size, turns[i].arrivals).1)
  {
    hide Collected, Transfer.Request, AllFit, Requested, Asked;
    assert Bursts(turns[..i + 1])[..i] == Bursts(turns[..i]);
  }

  /** The next request lists what is missing now. */
  lemma NextRequest(turns: seq<Turn>, nr: nat, quality: int, amount: nat, raw: Raw, requests: seq<Packet>)
    requires nr < TWO32 && turns != [] && |requests| == |turns| && amount <= 255
    requires Progress(turns, nr, quality, amount, raw, requests)
    ensures raw.size <= |raw.recv| <= 255
    ensures Progress(turns, nr, quality, amount, raw, requests + [Rej(nr, Requested(raw))])
  {
    hide Collected, AllFit, Requested;
    var bursts := Bursts(turns);
    assert bursts[..|bursts|] == bursts;
  }

  // -- The client's half of an exchange --------------------------------------------------------

  /** What the client meets in the rounds of an exchange. */
  ghost function Met(song: Song, st: ClientState, nr: nat, rounds: seq<Transfer.Round>): (b: seq<seq<Received>>)
    requires nr < TWO32 && Transfer.Fair(song, st, nr, rounds)
    ensures |b| == |rounds|
  {
    if rounds == [] then [] else
    var n := |rounds| - 1;
    var link := Transfer.Exchange(song, st, nr, rounds[..n]);
    var packets := Transfer.Sent(song, link.server, Transfer.Request(link.raw, nr, n), rounds[n]).1;
    AfterPeekPossible(packets, rounds[n].delivery);
    Met(song, st, nr, rounds[..n]) + [Checked(packets, AfterPeek(rounds[n].delivery))]
  }

  /** The client's side of an exchange is what receive_batch computes from the bursts it meets. */
  lemma {:induction false} ExchangeIsReassembly(song: Song, st: ClientState, nr: nat, rounds: seq<Transfer.Round>)
    requires nr < TWO32 && Transfer.Fair(song, st, nr, rounds)
    requires BurstsFit(Met(song, st, nr, rounds), st.quality, st.perBatch)
    ensures Transfer.Exchange(song, st, nr, rounds).raw
         == Reassembled(st.quality, st.perBatch, Met(song, st, nr, rounds))
    ensures Transfer.ExchangeTally(song, st, nr, rounds)
         == Tallied(st.quality, st.perBatch, Met(song, st, nr, rounds))
  {
    hide Collected, Checked, AllFit, Transfer.Sent, Possible, Transfer.Request;
    if rounds != [] {
      var n := |rounds| - 1;
      var met := Met(song, st, nr, rounds);
      assert met[..n] == Met(song, st, nr, rounds[..n]);
      assert AllFit(met[n], st.quality, st.perBatch);
      ExchangeIsReassembly(song, st, nr, rounds[..n]);
      var link := Transfer.Exchange(song, st, nr, rounds[..n]);
      var packets := Transfer.Sent(song, link.server, Transfer.Request(link.raw, nr, n), rounds[n]).1;
      AfterPeekPossible(packets, rounds[n].delivery);
      assert met[n] == Checked(packets, AfterPeek(rounds[n].delivery));
    }
  }
}
