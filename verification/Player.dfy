/** The client's main loop over its buffer (src/client/main.c, src/client/client/client.c). */
module Player {
  import opened RingBuffer
  import Quality
  import Stream

  /** How one receive_batch ends, with the packets of the batch and the losses counted on the way. */
  datatype Received<T> = Batch(packet: nat -> T, lost: nat, faulty: nat) | Eos(lost: nat, faulty: nat)

  /** One request: the batch size, the state of the buffer when it goes out and when it is answered. */
  datatype Request = Request(amount: nat, free: nat, used: nat, usedAfter: nat)

  /** The first n packets of a batch. */
  function First<T>(packet: nat -> T, n: nat): (s: seq<T>)
    ensures |s| == n
    ensures forall i :: 0 <= i < n ==> s[i] == packet(i)
  {
    seq(n, i requires 0 <= i < n => packet(i))
  }

  /** The packets accepted so far, in order. */
  function Accepted<T>(script: seq<Received<T>>, log: seq<Request>): (a: seq<T>)
    requires |log| <= |script|
  {
    if log == [] then [] else
    var k := |log| - 1;
    Accepted(script, log[..k]) + if script[k].Batch? then First(script[k].packet, log[k].amount) else []
  }

  /** A capacity for which the source promises that nothing runs dry. */
  const MIN_CAPACITY := 510

  /** A request while the buffer is filled: there is room for the batch. */
  predicate HasRoom(r: Request) {
    r.amount <= 255 && r.amount <= r.free
  }

  /** A request while playing: exactly one batch of room, and music for the time it takes. */
  predicate IsSafe(r: Request) {
    r.amount <= 255 && r.free == r.amount && r.used >= 255
  }

  /**
   * The first requests of a run fill the buffer; each later one is safe, and when a batch answers
   * it the buffer is full.
   */
  ghost predicate Orderly<T>(script: seq<Received<T>>, log: seq<Request>, filled: nat, max: nat) {
    && 0 < filled <= |log| <= |script|
    && (forall k :: 0 <= k < filled ==> HasRoom(log[k]))
    && (forall k :: filled <= k < |log| ==> IsSafe(log[k]) && (script[k].Batch? ==> log[k].usedAfter == max))
  }

  lemma OneMoreRequest<T>(script: seq<Received<T>>, log: seq<Request>, filled: nat, max: nat, entry: Request)
    requires Orderly(script, log, filled, max) && |log| < |script|
    requires IsSafe(entry) && (script[|log|].Batch? ==> entry.usedAfter == max)
    ensures Orderly(script, log + [entry], filled, max)
  {
  }

  lemma NoRequests<T>(q: Quality.Stats, script: seq<Received<T>>, filled: nat)
    ensures Steers(q, script, [], filled) && LevelAt(q, script, filled, 0) == q
  {
  }

  lemma OnlyFilled<T>(script: seq<Received<T>>, log: seq<Request>, max: nat)
    requires 0 < |log| <= |script| && forall k :: 0 <= k < |log| ==> HasRoom(log[k])
    ensures Orderly(script, log, |log|, max)
  {
  }

  /** The losses on the way of each reception. */
  function LossesOf<T>(script: seq<Received<T>>): (l: seq<Quality.Losses>)
    ensures |l| == |script|
  {
    seq(|script|, k requires 0 <= k < |script| => Quality.Losses(script[k].lost, script[k].faulty))
  }

  /** The controller before reception k, when the first ones fill the buffer. */
  function LevelAt<T>(q: Quality.Stats, script: seq<Received<T>>, filled: nat, k: nat): Quality.Stats
    requires k <= |script|
  {
    Quality.Steered(q, LossesOf(script[..k]), filled)
  }

  /** Every request is for a batch of the level that the controller has reached. */
  ghost predicate Steers<T>(q: Quality.Stats, script: seq<Received<T>>, log: seq<Request>, filled: nat) {
    && |log| <= |script|
    && forall k :: 0 <= k < |log| ==> log[k].amount == Stream.BatchPackets(LevelAt(q, script, filled, k).current)
  }

  lemma LevelStart<T>(q: Quality.Stats, script: seq<Received<T>>, filled: nat)
    ensures LevelAt(q, script, filled, 0) == q
  {
  }

  lemma LevelNext<T>(q: Quality.Stats, script: seq<Received<T>>, filled: nat, k: nat)
    requires k < |script|
    ensures LevelAt(q, script, filled, k + 1)
         == Quality.SteeredNext(
              LevelAt(q, script, filled, k), Quality.Losses(script[k].lost, script[k].faulty), k >= filled)
  {
    hide Quality.SteeredNext;
    assert LossesOf(script[..k + 1])[..k] == LossesOf(script[..k]);
  }

  /** While the buffer is filled it does not matter how long that will take. */
  lemma {:induction false} LevelFilling<T>(q: Quality.Stats, script: seq<Received<T>>, f: nat, g: nat, k: nat)
    requires k <= |script| && k <= f && k <= g
    ensures LevelAt(q, script, f, k) == LevelAt(q, script, g, k)
  {
    hide LevelAt, Quality.SteeredNext;
    if k == 0 {
      LevelStart(q, script, f);
      LevelStart(q, script, g);
    } else {
      LevelFilling(q, script, f, g, k - 1);
      LevelNext(q, script, f, k - 1);
      LevelNext(q, script, g, k - 1);
    }
  }

  lemma SteersNext<T>(q: Quality.Stats, script: seq<Received<T>>, log: seq<Request>, filled: nat, entry: Request)
    requires Steers(q, script, log, filled) && |log| < |script|
    requires entry.amount == Stream.BatchPackets(LevelAt(q, script, filled, |log|).current)
    ensures Steers(q, script, log + [entry], filled)
  {
    hide LevelAt, Stream.BatchPackets;
  }

  lemma SteersFilled<T>(q: Quality.Stats, script: seq<Received<T>>, log: seq<Request>, f: nat, g: nat)
    requires Steers(q, script, log, f) && |log| <= f && |log| <= g
    ensures Steers(q, script, log, g)
  {
    hide LevelAt, Stream.BatchPackets;
    forall k | 0 <= k < |log|
      ensures LevelAt(q, script, f, k) == LevelAt(q, script, g, k)
    {
      LevelFilling(q, script, f, g, k);
    }
  }

  class Client<T(0)> {
    const buffer: Buffer<T>
    const quality: Quality.Controller
    var eosReceived: bool
    ghost var played: seq<T>

    ghost predicate Valid()
      reads this, buffer, buffer.data, quality
    {
      buffer.Valid() && buffer.max >= MIN_CAPACITY && 1 <= quality.current <= 5
    }

    /** Everything accepted so far, played or not. */
    ghost function Music(): seq<T>
      requires buffer.Valid()
      reads this, buffer, buffer.data
    {
      played + buffer.Contents()
    }

    constructor (capacity: nat, initialQuality: int)
      requires capacity >= MIN_CAPACITY && 1 <= initialQuality <= 5
      ensures Valid() && fresh(buffer) && fresh(buffer.data) && fresh(quality)
      ensures !eosReceived && Music() == [] && buffer.Contents() == []
    {
      buffer := new Buffer<T>(capacity);
      quality := new Quality.Controller(initialQuality);
      eosReceived := false;
      played := [];
    }

    /** Amount of packets in a batch at the current level. */
    function Amount(): (n: nat)
      requires 1 <= quality.current <= 5
      reads this, quality
      ensures 0 < n <= 255
    {
      Stream.BatchPackets(quality.current)
    }

    /** Plays one packet. The buffer is never found empty here. */
    method Play()
      requires Valid() && buffer.Contents() != []
      modifies `played, buffer`start, buffer`used
      ensures Valid() && Music() == old(Music())
      ensures buffer.used == old(buffer.used) - 1
    {
      var data := buffer.Get();
      played := played + [data.value];
    }

    /** receive_batch, given how it ends. */
    method ReceiveBatch(r: Received<T>) returns (ghost entry: Request)
      requires Valid() && Amount() <= buffer.FreeSize()
      modifies `eosReceived, buffer, buffer.data, quality`lost, quality`faulty, quality`ok
      ensures Valid() && buffer.data == old(buffer.data) && buffer.max == old(buffer.max)
      ensures eosReceived == (r.Eos? || old(eosReceived))
      ensures buffer.Contents() == old(buffer.Contents()) + if r.Batch? then First(r.packet, Amount()) else []
      ensures quality.State() == Quality.After(
                old(quality.State()), Quality.Record(r.lost, r.faulty, if r.Batch? then Amount() else 0))
      ensures entry == Request(Amount(), old(buffer.FreeSize()), old(buffer.used), buffer.used)
    {
      hide Stream.BatchPackets, Window, First;
      ghost var before := buffer.Contents();
      ghost var used := buffer.used;
      var amount := Amount();
      entry := Request(amount, buffer.FreeSize(), buffer.used, buffer.used);
      quality.lost := quality.lost + r.lost;
      quality.faulty := quality.faulty + r.faulty;
      if r.Eos? {
        eosReceived := true;
        return;
      }
      quality.ok := quality.ok + amount;
      ghost var stats := quality.State();
      var i := 0;
      while i < amount
        invariant 0 <= i <= amount
        invariant Valid() && buffer.data == old(buffer.data) && buffer.max == old(buffer.max)
        invariant buffer.used == used + i && used + amount <= buffer.max && eosReceived == old(eosReceived)
        invariant buffer.Contents() == before + First(r.packet, i) && quality.State() == stats
      {
        NextPacket(before, r.packet, i);
        var ok := buffer.Add(r.packet(i), true);
        i := i + 1;
      }
      entry := entry.(usedAfter := buffer.used);
    }

    /** client_adjust_quality: the controller may move the level by one. */
    method AdjustQuality()
      requires Valid()
      modifies quality
      ensures Valid()
      ensures quality.State() == Quality.Adjusted(old(quality.State()))
    {
      var _ := quality.Adjust();
    }

    /** Fills the buffer as far as batches fit; the script says how the receptions end. */
    method FillInitialBuffer(script: seq<Received<T>>) returns (ghost log: seq<Request>, at: nat)
      requires Valid() && !eosReceived && Music() == [] && buffer.Contents() == [] && script != []
      modifies this, buffer, buffer.data, quality
      ensures Valid() && buffer.data == old(buffer.data)
      ensures 0 < at == |log| <= |script| && Music() == Accepted(script, log)
      ensures forall k :: 0 <= k < at ==> HasRoom(log[k])
      ensures eosReceived <==> script[at - 1].Eos?
      ensures at < |script| ==> eosReceived || buffer.FreeSize() < Amount()
      ensures Steers(old(quality.State()), script, log, at)
      ensures !eosReceived ==> quality.State() == LevelAt(old(quality.State()), script, at, at)
    {
      hide Stream.BatchPackets, Window, First, LevelAt, Steers;
      ghost var start, all := quality.State(), |script|;
      log, at := [], 0;
      var more := true;
      NoRequests(start, script, all);
      while more
        invariant Valid() && buffer.data == old(buffer.data)
        invariant at == |log| <= |script| && Music() == Accepted(script, log)
        invariant forall k :: 0 <= k < at ==> HasRoom(log[k])
        invariant more ==> at < |script| && !eosReceived && Amount() <= buffer.FreeSize()
        invariant !more ==> at > 0 && (eosReceived <==> script[at - 1].Eos?)
        invariant !more && at < |script| ==> eosReceived || buffer.FreeSize() < Amount()
        invariant Steers(start, script, log, all)
        invariant !eosReceived ==> quality.State() == LevelAt(start, script, all, at)
        decreases |script| - at, more
      {
          LevelNext(start, script, all, at);
        ghost var entry := ReceiveBatch(script[at]);
        Extend(script, log, entry);
        SteersNext(start, script, log, all, entry);
        log := log + [entry];
        at := at + 1;
        more := !eosReceived && Amount() <= buffer.FreeSize() && at < |script|;
      }
      SteersFilled(start, script, log, all, at);
      LevelFilling(start, script, all, at, at);
    }

    /**
     * The whole run, for every way the receptions may end and every change of quality: what was
     * played and what is buffered is always what was accepted, in order, so nothing is overwritten
     * or lost; after the fill every request goes out with exactly one batch of room and at least
     * 255 packets to play, and every batch leaves the buffer full; every request is for a batch of the
   * level that the controller has reached by then; after EOS all of it is played.
     */
    method Run(script: seq<Received<T>>) returns (ghost log: seq<Request>, ghost filled: nat)
      requires Valid() && !eosReceived && Music() == [] && buffer.Contents() == [] && script != []
      modifies this, buffer, buffer.data, quality
      ensures Valid()
      ensures Orderly(script, log, filled, buffer.max)
      ensures Music() == Accepted(script, log)
      ensures eosReceived <==> script[|log| - 1].Eos?
      ensures eosReceived ==> buffer.Contents() == [] && played == Accepted(script, log)
      ensures !eosReceived ==> |log| == |script|
      ensures Steers(old(quality.State()), script, log, filled)
    {
      hide Stream.BatchPackets, Window, First, LevelAt, Steers;
      hide Accepted, Orderly, IsSafe, HasRoom, Quality.Adjusted, Quality.After;
      ghost var max, start := buffer.max, quality.State();
      var at;
      log, at := FillInitialBuffer(script);
      filled := at;
      OnlyFilled(script, log, max);
      while !eosReceived && at < |script|
        invariant Valid() && buffer.data == old(buffer.data) && buffer.max == max
        invariant 0 < filled <= at == |log| <= |script| && Music() == Accepted(script, log)
        invariant Orderly(script, log, filled, max)
        invariant eosReceived <==> script[at - 1].Eos?
        invariant at > filled && !eosReceived ==> buffer.used == max
        invariant at == filled && at < |script| && !eosReceived ==> buffer.FreeSize() < Amount()
        invariant Steers(start, script, log, filled)
        invariant !eosReceived ==> quality.State() == LevelAt(start, script, filled, at)
      {
        LevelNext(start, script, filled, at);
        ghost var entry := PlayAndReceive(script[at]);
        Extend(script, log, entry);
        OneMoreRequest(script, log, filled, max, entry);
        SteersNext(start, script, log, filled, entry);
        log := log + [entry];
        at := at + 1;
        AdjustQuality();
      }
      if eosReceived {
        PlayRest();
      }
    }

    /** One turn of the loop of run, up to the adjustment. */
    method PlayAndReceive(r: Received<T>) returns (ghost entry: Request)
      requires Valid() && !eosReceived && buffer.FreeSize() < Amount()
      modifies `eosReceived, `played, buffer, buffer.data, quality`lost, quality`faulty, quality`ok
      ensures Valid() && buffer.data == old(buffer.data) && buffer.max == old(buffer.max)
      ensures eosReceived <==> r.Eos?
      ensures Music() == old(Music()) + if r.Batch? then First(r.packet, entry.amount) else []
      ensures IsSafe(entry) && (r.Batch? ==> entry.usedAfter == buffer.used == buffer.max)
      ensures entry.amount == Stream.BatchPackets(old(quality.current))
      ensures quality.State() == Quality.After(
                old(quality.State()), Quality.Record(r.lost, r.faulty, if r.Batch? then entry.amount else 0))
    {
      hide Stream.BatchPackets, Window, First;
      PlayUntilRoom();
      entry := ReceiveBatch(r);
    }

    /** The inner loop of run: plays until one batch fits, and stops as soon as it does. */
    method PlayUntilRoom()
      requires Valid() && buffer.FreeSize() < Amount()
      modifies `played, buffer`start, buffer`used
      ensures Valid() && Music() == old(Music())
      ensures buffer.FreeSize() == Amount() && buffer.used >= 255
    {
      hide Stream.BatchPackets, Window, First;
      while buffer.FreeSize() < Amount()
        invariant Valid() && Music() == old(Music()) && buffer.FreeSize() <= Amount()
        decreases buffer.used
      {
        Play();
      }
    }

    method PlayRest()
      requires Valid()
      modifies `played, buffer`start, buffer`used
      ensures Valid() && Music() == old(Music()) && buffer.Contents() == []
    {
      hide Stream.BatchPackets, Window, First;
      buffer.EmptyIff();
      while !buffer.Empty()
        invariant Valid() && Music() == old(Music())
        invariant buffer.Empty() <==> buffer.Contents() == []
        decreases buffer.used
      {
        Play();
        buffer.EmptyIff();
      }
    }
  }

  lemma NextPacket<T>(before: seq<T>, packet: nat -> T, i: nat)
    ensures (before + First(packet, i)) + [packet(i)] == before + First(packet, i + 1)
  {
    assert First(packet, i) + [packet(i)] == First(packet, i + 1);
  }

  lemma Extend<T>(script: seq<Received<T>>, log: seq<Request>, entry: Request)
    requires |log| < |script|
    ensures Accepted(script, log + [entry])
         == Accepted(script, log) + if script[|log|].Batch? then First(script[|log|].packet, entry.amount) else []
  {
    assert (log + [entry])[..|log|] == log;
  }
}
