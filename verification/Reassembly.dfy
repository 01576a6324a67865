/** The client's assembly of one batch (src/client/client/receive/receive.c). */
module Reassembly {
  import opened Bytes
  import opened Framing
  import opened Stream
  import Codec
  import Quality

  // -- The assembled data as a value ---------------------------------------------------

  datatype Raw = Raw(data: seq<byte>, recv: seq<bool>, size: nat)

  ghost predicate Shaped(raw: Raw, amount: nat) {
    |raw.data| == PACKET_SIZE * amount && |raw.recv| == amount && raw.size <= amount
  }

  function Slot(raw: Raw, j: nat): (s: seq<byte>)
    requires PACKET_SIZE * j + PACKET_SIZE <= |raw.data|
    ensures |s| == PACKET_SIZE
  {
    raw.data[PACKET_SIZE * j..PACKET_SIZE * j + PACKET_SIZE]
  }

  function Empty(amount: nat): (raw: Raw)
    ensures Shaped(raw, amount)
  {
    Raw(Zeros(PACKET_SIZE * amount), seq(amount, i => false), 0)
  }

  /** How many packets are marked as received. */
  function Count(recv: seq<bool>): (c: nat)
    ensures c <= |recv|
  {
    if recv == [] then 0 else Count(recv[..|recv| - 1]) + if recv[|recv| - 1] then 1 else 0
  }

  /** The packets taken for music: no flag, and a number not above the batch size. */
  predicate Accepts(p: Packet, amount: nat) {
    p.flags == FLAG_NONE && p.nr <= amount
  }

  predicate Accepted(r: Received, amount: nat) {
    r.RecvOk? && Accepts(r.packet, amount)
  }

  /**
   * The data fits its place. A number equal to the batch size, which the source lets through, and
   * data longer than a packet would be written outside of it.
   */
  predicate Fits(r: Received, quality: int, amount: nat) {
    Accepted(r, amount) ==> r.packet.nr < amount && |Codec.Decode(quality, r.packet.data)| <= PACKET_SIZE
  }

  function Put(data: seq<byte>, at: nat, x: seq<byte>): (d: seq<byte>)
    requires at + |x| <= |data|
    ensures |d| == |data|
  {
    data[..at] + x + data[at + |x|..]
  }

  /** The batch after one more packet. */
  function Stored(raw: Raw, quality: int, p: Packet): (r: Raw)
    requires p.nr < |raw.recv| && |raw.data| == PACKET_SIZE * |raw.recv|
    requires |Codec.Decode(quality, p.data)| <= PACKET_SIZE
    ensures |r.data| == |raw.data| && |r.recv| == |raw.recv|
  {
    Raw(Put(raw.data, PACKET_SIZE * p.nr, Codec.Decode(quality, p.data)), raw.recv[p.nr := true], raw.size + 1)
  }

  // -- One round of receiving -----------------------------------------------------------

  datatype Tally = Tally(stored: nat, faulty: nat, lost: nat, discarded: nat) {
    function Plus(t: Tally): Tally {
      Tally(stored + t.stored, faulty + t.faulty, lost + t.lost, discarded + t.discarded)
    }
  }

  const NOTHING := Tally(0, 0, 0, 0)

  ghost predicate AllFit(arrivals: seq<Received>, quality: int, amount: nat) {
    forall k :: 0 <= k < |arrivals| ==> Fits(arrivals[k], quality, amount)
  }

  /** At most left receipts; a timeout, or no more arrivals, ends the round and counts the rest as lost. */
  function Collected(raw: Raw, quality: int, amount: nat, left: nat, arrivals: seq<Received>): (r: (Raw, Tally))
    requires |raw.recv| == amount && |raw.data| == PACKET_SIZE * amount && AllFit(arrivals, quality, amount)
    ensures |r.0.recv| == amount && |r.0.data| == PACKET_SIZE * amount
    decreases left
  {
    if left == 0 then (raw, NOTHING)
    else if arrivals == [] || arrivals[0].RecvTimeout? then (raw, NOTHING.(lost := left))
    else
      var rest := arrivals[1..];
      if arrivals[0].RecvFaulty? then
        var r := Collected(raw, quality, amount, left - 1, rest);
        (r.0, r.1.Plus(NOTHING.(faulty := 1)))
      else if !Accepted(arrivals[0], amount) then
        var r := Collected(raw, quality, amount, left - 1, rest);
        (r.0, r.1.Plus(NOTHING.(discarded := 1)))
      else
        assert Fits(arrivals[0], quality, amount);
        var r := Collected(Stored(raw, quality, arrivals[0].packet), quality, amount, left - 1, rest);
        (r.0, r.1.Plus(NOTHING.(stored := 1)))
  }

  lemma {:induction false} CountUpdate(recv: seq<bool>, i: nat)
    requires i < |recv|
    ensures Count(recv[i := true]) == Count(recv) + if recv[i] then 0 else 1
  {
    var n := |recv| - 1;
    if i < n {
      CountUpdate(recv[..n], i);
      assert recv[i := true][..n] == recv[..n][i := true];
    } else {
      assert recv[i := true][..n] == recv[..n];
    }
  }

  /**
   * Every receipt of a round is stored, faulty, lost or discarded; the size grows by the stored
   * ones, stays within the batch, and never falls behind the marks.
   */
  lemma {:induction false} RoundAccounts(raw: Raw, quality: int, amount: nat, left: nat, arrivals: seq<Received>)
    requires Shaped(raw, amount) && AllFit(arrivals, quality, amount) && raw.size + left <= amount
    ensures var (r, t) := Collected(raw, quality, amount, left, arrivals);
            && t.stored + t.faulty + t.lost + t.discarded == left
            && r.size == raw.size + t.stored <= amount
            && (Count(raw.recv) <= raw.size ==> Count(r.recv) <= r.size)
    decreases left
  {
    hide Put;
    if left > 0 && arrivals != [] && !arrivals[0].RecvTimeout? {
      var next := raw;
      if Accepted(arrivals[0], amount) {
        assert Fits(arrivals[0], quality, amount);
        next := Stored(raw, quality, arrivals[0].packet);
        CountUpdate(raw.recv, arrivals[0].packet.nr);
      }
      RoundAccounts(next, quality, amount, left - 1, arrivals[1..]);
    }
  }

  // -- A round without its loop ---------------------------------------------------------------

  /** What the data of every acceptable packet must meet, with the source's test written out. */
  ghost predicate InPlace(r: Received, quality: int, amount: nat) {
    r.RecvOk? && r.packet.flags == 0x00 && r.packet.nr <= amount ==>
      r.packet.nr < amount && |Codec.Decode(quality, r.packet.data)| <= PACKET_SIZE
  }

  lemma InPlaceFits(arrivals: seq<Received>, quality: int, amount: nat)
    requires forall k :: 0 <= k < |arrivals| ==> InPlace(arrivals[k], quality, amount)
    ensures AllFit(arrivals, quality, amount)
  {
    hide Codec.Decode;
  }

  /** The receipts before a round ends: as many as are asked for, up to a timeout or the last arrival. */
  function Receipts(left: nat, arrivals: seq<Received>): (m: nat)
    ensures m <= left && m <= |arrivals|
    ensures forall k :: 0 <= k < m ==> !arrivals[k].RecvTimeout?
    ensures m < left && m < |arrivals| ==> arrivals[m].RecvTimeout?
  {
    if left == 0 || arrivals == [] || arrivals[0].RecvTimeout? then 0 else 1 + Receipts(left - 1, arrivals[1..])
  }

  /** What a receipt is: music is a packet without any flag and numbered up to the batch size. */
  datatype Kind = IsMusic | IsDamaged | IsOther

  function KindOf(r: Received, amount: nat): Kind {
    match r
    case RecvOk(p) => if p.flags == 0x00 && p.nr <= amount then IsMusic else IsOther
    case RecvFaulty => IsDamaged
    case _ => IsOther
  }

  /** How many of the first m arrivals are of a kind. */
  function Number(arrivals: seq<Received>, m: nat, kind: Kind, amount: nat): nat
    requires m <= |arrivals|
  {
    if m == 0 then 0 else
    (if KindOf(arrivals[0], amount) == kind then 1 else 0) + Number(arrivals[1..], m - 1, kind, amount)
  }

  /**
   * The four counters by the receipts themselves: music is stored, what is damaged is faulty, what
   * did not come is lost; a packet with a flag or a higher number, like an error of the socket, is
   * discarded.
   */
  lemma {:induction false} RoundCounters(raw: Raw, quality: int, amount: nat, left: nat, arrivals: seq<Received>)
    requires |raw.recv| == amount && |raw.data| == PACKET_SIZE * amount
    requires forall k :: 0 <= k < |arrivals| ==> InPlace(arrivals[k], quality, amount)
    ensures AllFit(arrivals, quality, amount)
    ensures var t, m := Collected(raw, quality, amount, left, arrivals).1, Receipts(left, arrivals);
            && t.lost == left - m
            && t.faulty == Number(arrivals, m, IsDamaged, amount)
            && t.stored == Number(arrivals, m, IsMusic, amount)
            && t.discarded == Number(arrivals, m, IsOther, amount)
    decreases left
  {
    hide Codec.Decode, InPlace, Collected, AfterReceipt, AllFit, Fits, KindOf;
    InPlaceFits(arrivals, quality, amount);
    if Receipts(left, arrivals) == 0 {
      NoneCollected(raw, quality, amount, left, arrivals);
    } else {
      FirstCollected(raw, quality, amount, left, arrivals);
      RoundCounters(AfterReceipt(raw, quality, amount, arrivals[0]), quality, amount, left - 1, arrivals[1..]);
    }
  }

  function OneOf(kind: Kind): Tally {
    match kind
    case IsMusic => NOTHING.(stored := 1)
    case IsDamaged => NOTHING.(faulty := 1)
    case IsOther => NOTHING.(discarded := 1)
  }

  /** Arrival k is music for place j. */
  predicate Brings(arrivals: seq<Received>, k: nat, j: nat) {
    k < |arrivals| && arrivals[k].RecvOk? && arrivals[k].packet.flags == 0x00 && arrivals[k].packet.nr == j
  }

  /** The batch after one receipt. */
  function AfterReceipt(raw: Raw, quality: int, amount: nat, r: Received): (next: Raw)
    requires |raw.recv| == amount && |raw.data| == PACKET_SIZE * amount && Fits(r, quality, amount)
    ensures |next.recv| == amount && |next.data| == PACKET_SIZE * amount
  {
    if Accepted(r, amount) then Stored(raw, quality, r.packet) else raw
  }

  lemma FirstCollected(raw: Raw, quality: int, amount: nat, left: nat, arrivals: seq<Received>)
    requires |raw.recv| == amount && |raw.data| == PACKET_SIZE * amount && AllFit(arrivals, quality, amount)
    requires Receipts(left, arrivals) > 0
    ensures Fits(arrivals[0], quality, amount)
    ensures Collected(raw, quality, amount, left, arrivals).0
         == Collected(AfterReceipt(raw, quality, amount, arrivals[0]), quality, amount, left - 1, arrivals[1..]).0
    ensures Collected(raw, quality, amount, left, arrivals).1
         == Collected(AfterReceipt(raw, quality, amount, arrivals[0]), quality, amount, left - 1, arrivals[1..]).1.Plus(
              OneOf(KindOf(arrivals[0], amount)))
  {
    hide Stored, Codec.Decode;
  }

  lemma NoneCollected(raw: Raw, quality: int, amount: nat, left: nat, arrivals: seq<Received>)
    requires |raw.recv| == amount && |raw.data| == PACKET_SIZE * amount && AllFit(arrivals, quality, amount)
    requires Receipts(left, arrivals) == 0
    ensures Collected(raw, quality, amount, left, arrivals) == (raw, NOTHING.(lost := left))
  {
    hide Stored, Codec.Decode;
  }

  /** What one receipt does to place j. */
  lemma ReceiptAt(raw: Raw, quality: int, amount: nat, arrivals: seq<Received>, j: nat)
    requires |raw.recv| == amount && |raw.data| == PACKET_SIZE * amount && j < amount && arrivals != []
    requires InPlace(arrivals[0], quality, amount) && Fits(arrivals[0], quality, amount)
    ensures var next := AfterReceipt(raw, quality, amount, arrivals[0]);
            && (next.recv[j] <==> raw.recv[j] || Brings(arrivals, 0, j))
            && (if Brings(arrivals, 0, j) then
                  var x := Codec.Decode(quality, arrivals[0].packet.data);
                  |x| <= PACKET_SIZE && Slot(next, j)[..|x|] == x
                else Slot(next, j) == Slot(raw, j))
  {
    hide Codec.Decode, Slot, Put;
    if Accepted(arrivals[0], amount) {
      var p := arrivals[0].packet;
      StoredAt(raw, quality, amount, p, j);
      PutBegins(Slot(raw, j), Codec.Decode(quality, p.data));
    }
  }

  lemma PutBegins(s: seq<byte>, x: seq<byte>)
    requires |x| <= |s|
    ensures Put(s, 0, x)[..|x|] == x
  {
  }

  /** The arrivals that bring a place, one further on. */
  lemma BringsNext(arrivals: seq<Received>, k: nat, j: nat)
    requires arrivals != []
    ensures Brings(arrivals[1..], k, j) <==> Brings(arrivals, k + 1, j)
  {
  }

  /**
   * Marks by the receipts themselves, duplicates included: a place is marked exactly when it was
   * before or music with its number came, and without such music it holds what it held.
   */
  lemma {:induction false} RoundMarks(
    raw: Raw, quality: int, amount: nat, left: nat, arrivals: seq<Received>, j: nat)
    requires |raw.recv| == amount && |raw.data| == PACKET_SIZE * amount && j < amount
    requires forall k :: 0 <= k < |arrivals| ==> InPlace(arrivals[k], quality, amount)
    ensures AllFit(arrivals, quality, amount)
    ensures var r, m := Collected(raw, quality, amount, left, arrivals).0, Receipts(left, arrivals);
            && (r.recv[j] <==> raw.recv[j] || exists k: nat :: k < m && Brings(arrivals, k, j))
            && ((forall k: nat :: k < m ==> !Brings(arrivals, k, j)) ==> Slot(r, j) == Slot(raw, j))
    decreases left
  {
    hide Codec.Decode, Slot, InPlace, Brings, Collected, AfterReceipt, AllFit, Fits;
    InPlaceFits(arrivals, quality, amount);
    if Receipts(left, arrivals) == 0 {
      NoneCollected(raw, quality, amount, left, arrivals);
    } else {
      FirstCollected(raw, quality, amount, left, arrivals);
      ReceiptAt(raw, quality, amount, arrivals, j);
      RoundMarks(AfterReceipt(raw, quality, amount, arrivals[0]), quality, amount, left - 1, arrivals[1..], j);
      forall k: nat
        ensures Brings(arrivals[1..], k, j) <==> Brings(arrivals, k + 1, j)
      {
        BringsNext(arrivals, k, j);
      }
      assert forall k: nat :: 0 < k ==> (Brings(arrivals, k, j) <==> Brings(arrivals[1..], k - 1, j));
    }
  }

  /**
   * Data by the receipts themselves: a place begins with the music that came for it last.
   */
  lemma {:induction false} RoundData(
    raw: Raw, quality: int, amount: nat, left: nat, arrivals: seq<Received>, j: nat, k: nat)
    requires |raw.recv| == amount && |raw.data| == PACKET_SIZE * amount && j < amount
    requires forall l :: 0 <= l < |arrivals| ==> InPlace(arrivals[l], quality, amount)
    requires k < Receipts(left, arrivals) && Brings(arrivals, k, j)
    requires forall l: nat :: k < l < Receipts(left, arrivals) ==> !Brings(arrivals, l, j)
    ensures AllFit(arrivals, quality, amount)
    ensures var x := Codec.Decode(quality, arrivals[k].packet.data);
            |x| <= PACKET_SIZE && Slot(Collected(raw, quality, amount, left, arrivals).0, j)[..|x|] == x
    decreases left
  {
    hide Codec.Decode, Slot, InPlace, Brings, Collected, AfterReceipt, AllFit, Fits;
    InPlaceFits(arrivals, quality, amount);
    FirstCollected(raw, quality, amount, left, arrivals);
    var next := AfterReceipt(raw, quality, amount, arrivals[0]);
    forall l: nat
      ensures Brings(arrivals[1..], l, j) <==> Brings(arrivals, l + 1, j)
    {
      BringsNext(arrivals, l, j);
    }
    if k == 0 {
      ReceiptAt(raw, quality, amount, arrivals, j);
      RoundMarks(next, quality, amount, left - 1, arrivals[1..], j);
    } else {
      RoundData(next, quality, amount, left - 1, arrivals[1..], j, k - 1);
    }
  }

  // -- Bursts delivered at most once ------------------------------------------------------

  /** Packet j is among the arrivals. */
  ghost predicate Delivers(arrivals: seq<Received>, amount: nat, j: int) {
    exists k :: 0 <= k < |arrivals| && Accepted(arrivals[k], amount) && arrivals[k].packet.nr == j
  }

  /** No packet arrives twice, none that was received before, and the socket runs dry only at the end. */
  ghost predicate Once(arrivals: seq<Received>, recv: seq<bool>, amount: nat) {
    && (forall k :: 0 <= k < |arrivals| ==> !arrivals[k].RecvTimeout?)
    && (forall k :: 0 <= k < |arrivals| && Accepted(arrivals[k], amount) && arrivals[k].packet.nr < |recv| ==>
          !recv[arrivals[k].packet.nr])
    && (forall k, l :: 0 <= k < l < |arrivals| && Accepted(arrivals[k], amount) && Accepted(arrivals[l], amount) ==>
          arrivals[k].packet.nr != arrivals[l].packet.nr)
  }

  /** The data at packet j's place after one more packet. */
  lemma StoredAt(raw: Raw, quality: int, amount: nat, p: Packet, j: nat)
    requires |raw.recv| == amount && |raw.data| == PACKET_SIZE * amount && j < amount && p.nr < amount
    requires |Codec.Decode(quality, p.data)| <= PACKET_SIZE
    ensures Slot(Stored(raw, quality, p), j)
         == if p.nr == j then Put(Slot(raw, j), 0, Codec.Decode(quality, p.data)) else Slot(raw, j)
  {
    hide Codec.Decode;
    var x := Codec.Decode(quality, p.data);
    PutElsewhere(raw.data, p.nr, x, j);
  }

  lemma PutElsewhere(data: seq<byte>, nr: nat, x: seq<byte>, j: nat)
    requires |x| <= PACKET_SIZE
    requires PACKET_SIZE * nr + PACKET_SIZE <= |data| && PACKET_SIZE * j + PACKET_SIZE <= |data|
    ensures Put(data, PACKET_SIZE * nr, x)[PACKET_SIZE * j..PACKET_SIZE * j + PACKET_SIZE]
         == var before := data[PACKET_SIZE * j..PACKET_SIZE * j + PACKET_SIZE];
            if nr == j then Put(before, 0, x) else before
  {
    hide Put;
    var at, from := PACKET_SIZE * nr, PACKET_SIZE * j;
    var before := data[from..from + PACKET_SIZE];
    var got := Put(data, at, x)[from..from + PACKET_SIZE];
    var after := if nr == j then Put(before, 0, x) else before;
    forall i | 0 <= i < PACKET_SIZE
      ensures got[i] == after[i]
    {
      PutAt(data, at, x, from + i);
      PutAt(before, 0, x, i);
    }
  }

  lemma PutAt(data: seq<byte>, at: nat, x: seq<byte>, i: nat)
    requires at + |x| <= |data| && i < |data|
    ensures Put(data, at, x)[i] == if at <= i < at + |x| then x[i - at] else data[i]
  {
  }

  /** A round without duplicates: what each place holds and which marks are set depends on no order. */
  lemma {:induction false} RoundAt(raw: Raw, quality: int, amount: nat, left: nat, arrivals: seq<Received>, j: nat)
    requires Shaped(raw, amount) && AllFit(arrivals, quality, amount) && Once(arrivals, raw.recv, amount)
    requires |arrivals| <= left && raw.size + left <= amount && j < amount
    ensures var r := Collected(raw, quality, amount, left, arrivals).0;
            && (!Delivers(arrivals, amount, j) ==> r.recv[j] == raw.recv[j] && Slot(r, j) == Slot(raw, j))
            && (forall k :: 0 <= k < |arrivals| && Accepted(arrivals[k], amount) && arrivals[k].packet.nr == j ==>
                  r.recv[j] && Slot(r, j) == Put(Slot(raw, j), 0, Codec.Decode(quality, arrivals[k].packet.data)))
    decreases left
  {
    hide Put, Codec.Decode, Slot;
    if left > 0 && arrivals != [] {
      var rest := arrivals[1..];
      var next := raw;
      if Accepted(arrivals[0], amount) {
        var p := arrivals[0].packet;
        assert Fits(arrivals[0], quality, amount);
        next := Stored(raw, quality, p);
        StoredAt(raw, quality, amount, p, j);
      }
      RoundAt(next, quality, amount, left - 1, rest, j);
      if Delivers(rest, amount, j) {
        var k :| 0 <= k < |rest| && Accepted(rest[k], amount) && rest[k].packet.nr == j;
        assert arrivals[k + 1] == rest[k];
      }
    }
  }

  /** Without duplicates the size and the marks grow together. */
  lemma {:induction false} RoundCounts(raw: Raw, quality: int, amount: nat, left: nat, arrivals: seq<Received>)
    requires Shaped(raw, amount) && AllFit(arrivals, quality, amount) && Once(arrivals, raw.recv, amount)
    requires |arrivals| <= left && raw.size + left <= amount
    ensures var r := Collected(raw, quality, amount, left, arrivals).0;
            r.size - Count(r.recv) == raw.size - Count(raw.recv)
    decreases left
  {
    hide Put, Codec.Decode;
    if left > 0 && arrivals != [] {
      var next := raw;
      if Accepted(arrivals[0], amount) {
        assert Fits(arrivals[0], quality, amount);
        next := Stored(raw, quality, arrivals[0].packet);
        CountUpdate(raw.recv, arrivals[0].packet.nr);
      }
      RoundCounts(next, quality, amount, left - 1, arrivals[1..]);
    }
  }

  lemma SlotsDetermine(d: seq<byte>, e: seq<byte>, amount: nat)
    requires |d| == |e| == PACKET_SIZE * amount
    requires forall j :: 0 <= j < amount ==>
               d[PACKET_SIZE * j..PACKET_SIZE * j + PACKET_SIZE] == e[PACKET_SIZE * j..PACKET_SIZE * j + PACKET_SIZE]
    ensures d == e
  {
    forall i | 0 <= i < |d|
      ensures d[i] == e[i]
    {
      var j := i / PACKET_SIZE;
      var r := i - PACKET_SIZE * j;
      assert d[PACKET_SIZE * j..PACKET_SIZE * j + PACKET_SIZE][r] == d[i];
      assert e[PACKET_SIZE * j..PACKET_SIZE * j + PACKET_SIZE][r] == e[i];
    }
  }

  /** Two bursts with the same datagrams, in whatever orders, assemble to the same batch. */
  lemma OrderDoesNotMatter(
    raw: Raw, quality: int, amount: nat, left: nat, a: seq<Received>, b: seq<Received>)
    requires Shaped(raw, amount) && raw.size + left <= amount
    requires AllFit(a, quality, amount) && Once(a, raw.recv, amount) && |a| <= left
    requires AllFit(b, quality, amount) && Once(b, raw.recv, amount) && |b| <= left
    requires forall r :: r in a <==> r in b
    ensures Collected(raw, quality, amount, left, a).0 == Collected(raw, quality, amount, left, b).0
  {
    hide Collected, Put, Codec.Decode, Slot, Once, AllFit;
    var ra, rb := Collected(raw, quality, amount, left, a).0, Collected(raw, quality, amount, left, b).0;
    forall j | 0 <= j < amount
      ensures ra.recv[j] == rb.recv[j] && Slot(ra, j) == Slot(rb, j)
    {
      RoundsAgreeAt(raw, quality, amount, left, a, b, j);
    }
    SlotsAgree(ra, rb, amount);
    RoundCounts(raw, quality, amount, left, a);
    RoundCounts(raw, quality, amount, left, b);
  }

  lemma RoundsAgreeAt(
    raw: Raw, quality: int, amount: nat, left: nat, a: seq<Received>, b: seq<Received>, j: nat)
    requires Shaped(raw, amount) && raw.size + left <= amount && j < amount
    requires AllFit(a, quality, amount) && Once(a, raw.recv, amount) && |a| <= left
    requires AllFit(b, quality, amount) && Once(b, raw.recv, amount) && |b| <= left
    requires forall r :: r in a <==> r in b
    ensures var ra := Collected(raw, quality, amount, left, a).0;
            var rb := Collected(raw, quality, amount, left, b).0;
            ra.recv[j] == rb.recv[j] && Slot(ra, j) == Slot(rb, j)
  {
    hide Collected, Put, Codec.Decode, Slot;
    RoundAt(raw, quality, amount, left, a, j);
    RoundAt(raw, quality, amount, left, b, j);
    SameDeliveries(a, b, amount, j);
  }

  lemma SlotsAgree(r: Raw, s: Raw, amount: nat)
    requires |r.data| == |s.data| == PACKET_SIZE * amount && |r.recv| == |s.recv| == amount
    requires forall j :: 0 <= j < amount ==> r.recv[j] == s.recv[j] && Slot(r, j) == Slot(s, j)
    ensures r.data == s.data && r.recv == s.recv
  {
    forall j | 0 <= j < amount
      ensures r.data[PACKET_SIZE * j..PACKET_SIZE * j + PACKET_SIZE]
           == s.data[PACKET_SIZE * j..PACKET_SIZE * j + PACKET_SIZE]
    {
      assert Slot(r, j) == Slot(s, j);
    }
    SlotsDetermine(r.data, s.data, amount);
  }

  lemma SameDeliveries(a: seq<Received>, b: seq<Received>, amount: nat, j: nat)
    requires forall r :: r in a <==> r in b
    ensures Delivers(a, amount, j) <==> Delivers(b, amount, j)
    ensures Delivers(a, amount, j) ==>
              exists k, l :: 0 <= k < |a| && 0 <= l < |b| && a[k] == b[l]
                             && Accepted(a[k], amount) && a[k].packet.nr == j
  {
    if Delivers(a, amount, j) {
      var k :| 0 <= k < |a| && Accepted(a[k], amount) && a[k].packet.nr == j;
      assert a[k] in b;
      var l :| 0 <= l < |b| && b[l] == a[k];
    }
    if Delivers(b, amount, j) {
      var l :| 0 <= l < |b| && Accepted(b[l], amount) && b[l].packet.nr == j;
      assert b[l] in a;
    }
  }

  // -- Duplicates ---------------------------------------------------------------------------

  lemma {:induction false} CountFull(recv: seq<bool>, j: nat)
    requires Count(recv) == |recv| && j < |recv|
    ensures recv[j]
  {
    var n := |recv| - 1;
    if j < n {
      CountFull(recv[..n], j);
    }
  }

  lemma {:induction false} FullCount(recv: seq<bool>)
    requires forall j :: 0 <= j < |recv| ==> recv[j]
    ensures Count(recv) == |recv|
  {
    if recv != [] {
      FullCount(recv[..|recv| - 1]);
    }
  }

  /** One accepted arrival, and then the others: nothing twice exactly when that packet was missing. */
  lemma OnceStep(recv: seq<bool>, arrivals: seq<Received>, amount: nat)
    requires |recv| == amount && arrivals != [] && !arrivals[0].RecvTimeout?
    requires Accepted(arrivals[0], amount) ==> arrivals[0].packet.nr < amount
    ensures var rest := arrivals[1..];
            Once(arrivals, recv, amount) <==>
              if Accepted(arrivals[0], amount)
              then !recv[arrivals[0].packet.nr] && Once(rest, recv[arrivals[0].packet.nr := true], amount)
              else Once(rest, recv, amount)
  {
    var rest := arrivals[1..];
    assert arrivals == [arrivals[0]] + rest;
    assert forall k :: 0 <= k < |rest| ==> rest[k] == arrivals[k + 1];
    assert forall k :: 1 <= k < |arrivals| ==> arrivals[k] == rest[k - 1];
  }

  /** The size runs ahead of the marks exactly when something arrives twice. */
  lemma {:induction false} DuplicatesShow(raw: Raw, quality: int, amount: nat, left: nat, arrivals: seq<Received>)
    requires Shaped(raw, amount) && AllFit(arrivals, quality, amount)
    requires forall k :: 0 <= k < |arrivals| ==> !arrivals[k].RecvTimeout?
    requires |arrivals| <= left && raw.size + left <= amount
    ensures var r := Collected(raw, quality, amount, left, arrivals).0;
            && r.size - Count(r.recv) >= raw.size - Count(raw.recv)
            && (r.size - Count(r.recv) == raw.size - Count(raw.recv) <==> Once(arrivals, raw.recv, amount))
    decreases left
  {
    hide Put, Codec.Decode, Once;
    if left > 0 && arrivals != [] {
      assert Fits(arrivals[0], quality, amount);
      OnceStep(raw.recv, arrivals, amount);
      var next := raw;
      if Accepted(arrivals[0], amount) {
        next := Stored(raw, quality, arrivals[0].packet);
        CountUpdate(raw.recv, arrivals[0].packet.nr);
      }
      DuplicatesShow(next, quality, amount, left - 1, arrivals[1..]);
    } else {
      NothingTwice(raw.recv, amount);
      assert arrivals == [];
    }
  }

  lemma NothingTwice(recv: seq<bool>, amount: nat)
    ensures Once([], recv, amount)
  {
  }

  /** A batch that counts as complete really has every packet exactly when nothing arrived twice. */
  lemma CompleteIff(raw: Raw, quality: int, amount: nat, left: nat, arrivals: seq<Received>)
    requires Shaped(raw, amount) && AllFit(arrivals, quality, amount) && Count(raw.recv) == raw.size
    requires forall k :: 0 <= k < |arrivals| ==> !arrivals[k].RecvTimeout?
    requires |arrivals| <= left && raw.size + left <= amount
    requires Collected(raw, quality, amount, left, arrivals).0.size == amount
    ensures var r := Collected(raw, quality, amount, left, arrivals).0;
            (forall j :: 0 <= j < amount ==> r.recv[j]) <==> Once(arrivals, raw.recv, amount)
  {
    hide Collected, Once, AllFit;
    DuplicatesShow(raw, quality, amount, left, arrivals);
    var r := Collected(raw, quality, amount, left, arrivals).0;
    if forall j :: 0 <= j < amount ==> r.recv[j] {
      FullCount(r.recv);
    }
    if Count(r.recv) == amount {
      forall j | 0 <= j < amount
        ensures r.recv[j]
      {
        CountFull(r.recv, j);
      }
    }
  }

  // -- The list of missing packets ----------------------------------------------------------

  /** The numbers below n not marked, in ascending order. */
  function Missing(recv: seq<bool>, n: nat): (m: seq<byte>)
    requires n <= |recv| <= 0x100
  {
    if n == 0 then [] else Missing(recv, n - 1) + if recv[n - 1] then [] else [n - 1]
  }

  /** Strictly ascending, exactly the numbers not marked, as many as the marks leave. */
  lemma {:induction false} MissingIs(recv: seq<bool>, n: nat)
    requires n <= |recv| <= 0x100
    ensures var m := Missing(recv, n);
            && |m| == n - Count(recv[..n])
            && (forall k, l :: 0 <= k < l < |m| ==> m[k] < m[l])
            && (forall j: byte :: j in m <==> j < n && !recv[j])
  {
    if n > 0 {
      hide Missing;
      MissingIs(recv, n - 1);
      MissingStep(recv, n - 1);
      assert recv[..n][..n - 1] == recv[..n - 1];
      var m := Missing(recv, n - 1);
      assert forall k :: 0 <= k < |m| ==> m[k] in m;
    }
  }

  lemma {:induction false} MissingPrefix(recv: seq<bool>, i: nat, n: nat)
    requires i <= n <= |recv| <= 0x100
    ensures Missing(recv, i) <= Missing(recv, n)
  {
    if i < n {
      MissingPrefix(recv, i, n - 1);
    }
  }

  /** The list that goes into a REJ: as many of the missing numbers as the size leaves room for. */
  function Requested(raw: Raw): (m: seq<byte>)
    requires |raw.recv| <= 0x100 && raw.size <= |raw.recv|
  {
    var all := Missing(raw.recv, |raw.recv|);
    if |all| <= |raw.recv| - raw.size then all else all[..|raw.recv| - raw.size]
  }

  /**
   * The request is strictly ascending, names only missing packets and has the length that the size
   * predicts; without duplicates it is the whole complement.
   */
  lemma RequestedIs(raw: Raw)
    requires |raw.recv| <= 0x100 && raw.size <= |raw.recv| && Count(raw.recv) <= raw.size
    ensures var m := Requested(raw);
            && |m| == |raw.recv| - raw.size
            && (forall k, l :: 0 <= k < l < |m| ==> m[k] < m[l])
            && (forall j: byte :: j in m ==> j < |raw.recv| && !raw.recv[j])
            && (Count(raw.recv) == raw.size ==> forall j: byte :: j < |raw.recv| && !raw.recv[j] ==> j in m)
  {
    var n := |raw.recv|;
    MissingIs(raw.recv, n);
    assert raw.recv[..n] == raw.recv;
    var m := Requested(raw);
    assert forall k :: 0 <= k < |m| ==> m[k] in Missing(raw.recv, n);
  }

  // -- The procedures --------------------------------------------------------------------------

  class RawBatch {
    var dataPtr: array<byte>
    var recvNrs: array<bool>
    var sizeNrs: nat

    ghost predicate Valid()
      reads this
    {
      recvNrs.Length <= 255 && dataPtr.Length == PACKET_SIZE * recvNrs.Length && sizeNrs <= recvNrs.Length
    }

    function State(): Raw
      reads this, dataPtr, recvNrs
    {
      Raw(dataPtr[..], recvNrs[..], sizeNrs)
    }

    constructor (expected: nat)
      requires expected <= 255
      ensures Valid() && fresh(dataPtr) && fresh(recvNrs)
      ensures State() == Empty(expected)
    {
      dataPtr := new byte[expected * PACKET_SIZE](_ => 0);
      recvNrs := new bool[expected](_ => false);
      sizeNrs := 0;
    }

    method GetMissingNrs() returns (missing: seq<byte>)
      requires Valid()
      ensures missing == Requested(State())
    {
      hide Missing;
      var expected := recvNrs.Length;
      MissingNone(recvNrs[..]);
      missing := [];
      var i := 0;
      while i < expected
        invariant 0 <= i <= expected
        invariant missing == Missing(recvNrs[..], i) && |missing| <= expected - sizeNrs
      {
        MissingPrefix(recvNrs[..], i, expected);
        if |missing| == expected - sizeNrs {
          break;
        }
        MissingStep(recvNrs[..], i);
        if !recvNrs[i] {
          missing := missing + [i];
        }
        i := i + 1;
      }
    }

    method Store(quality: int, p: Packet)
      requires Valid() && sizeNrs < recvNrs.Length && p.nr < recvNrs.Length
      requires |Codec.Decode(quality, p.data)| <= PACKET_SIZE
      modifies `sizeNrs, dataPtr, recvNrs
      ensures Valid() && State() == Stored(old(State()), quality, p) && sizeNrs == old(sizeNrs) + 1
    {
      hide Put, Codec.Decode;
      var x := Codec.Decode(quality, p.data);
      PutNothing(dataPtr[..], p.nr * PACKET_SIZE, x);
      var at := p.nr * PACKET_SIZE;
      recvNrs[p.nr] := true;
      sizeNrs := sizeNrs + 1;
      ghost var before := dataPtr[..];
      var i := 0;
      while i < |x|
        invariant 0 <= i <= |x|
        invariant dataPtr[..] == Put(before, at, x[..i])
        invariant sizeNrs == old(sizeNrs) + 1 && recvNrs[..] == old(recvNrs[..])[p.nr := true]
      {
        PutNext(before, at, x, i);
        dataPtr[at + i] := x[i];
        i := i + 1;
      }
      assert x[..|x|] == x;
    }

    /** One round; the arrivals are what the socket yields until it stays silent. */
    method Receive(c: Quality.Controller, arrivals: seq<Received>) returns (ghost tally: Tally)
      requires Valid() && BatchPackets(c.current) == recvNrs.Length && AllFit(arrivals, c.current, recvNrs.Length)
      modifies `sizeNrs, dataPtr, recvNrs, c`lost, c`faulty
      ensures Valid()
      ensures (State(), tally)
           == Collected(old(State()), c.current, recvNrs.Length, recvNrs.Length - old(sizeNrs), arrivals)
      ensures c.lost == old(c.lost) + tally.lost && c.faulty == old(c.faulty) + tally.faulty
    {
      hide Stored, BatchPackets, Codec.Decode, Collected;
      var amount := recvNrs.Length;
      var limit := amount - sizeNrs;
      tally := NOTHING;
      ghost var whole := Collected(State(), c.current, amount, limit, arrivals);
      assert arrivals[0..] == arrivals;
      var i := 0;
      while i < limit
        invariant 0 <= i <= limit && i <= |arrivals|
        invariant Valid() && sizeNrs == old(sizeNrs) + tally.stored && tally.stored <= i
        invariant c.lost == old(c.lost) && c.faulty == old(c.faulty) + tally.faulty && tally.lost == 0
        invariant var rest := Collected(State(), c.current, amount, limit - i, arrivals[i..]);
                  whole == (rest.0, rest.1.Plus(tally))
      {
        var flag := if i < |arrivals| then arrivals[i] else RecvTimeout;
        CollectedStep(State(), c.current, amount, limit - i, arrivals, i);
        if flag.RecvTimeout? {
          c.lost := c.lost + (limit - i);
          tally := tally.Plus(NOTHING.(lost := limit - i));
          return;
        } else if flag.RecvFaulty? {
          c.faulty := c.faulty + 1;
          tally := tally.Plus(NOTHING.(faulty := 1));
        } else if flag.RecvError? {
          tally := tally.Plus(NOTHING.(discarded := 1));
        } else if flag.packet.flags != FLAG_NONE || flag.packet.nr > amount {
          tally := tally.Plus(NOTHING.(discarded := 1));
        } else {
          assert Fits(flag, c.current, amount);
          Store(c.current, flag.packet);
          tally := tally.Plus(NOTHING.(stored := 1));
        }
        i := i + 1;
      }
      CollectedNone(State(), c.current, amount, arrivals[i..]);
    }
  }

  lemma CollectedNone(raw: Raw, quality: int, amount: nat, arrivals: seq<Received>)
    requires |raw.recv| == amount && |raw.data| == PACKET_SIZE * amount && AllFit(arrivals, quality, amount)
    ensures Collected(raw, quality, amount, 0, arrivals) == (raw, NOTHING)
  {
  }

  /** One receipt of a round, from position i of the arrivals on. */
  lemma CollectedStep(raw: Raw, quality: int, amount: nat, left: nat, arrivals: seq<Received>, i: nat)
    requires |raw.recv| == amount && |raw.data| == PACKET_SIZE * amount && AllFit(arrivals, quality, amount)
    requires 0 < left && i <= |arrivals|
    ensures var whole := Collected(raw, quality, amount, left, arrivals[i..]);
            if i == |arrivals| || arrivals[i].RecvTimeout? then
              whole == (raw, NOTHING.(lost := left))
            else if arrivals[i].RecvFaulty? then
              var r := Collected(raw, quality, amount, left - 1, arrivals[i + 1..]);
              whole == (r.0, r.1.Plus(NOTHING.(faulty := 1)))
            else if !Accepted(arrivals[i], amount) then
              var r := Collected(raw, quality, amount, left - 1, arrivals[i + 1..]);
              whole == (r.0, r.1.Plus(NOTHING.(discarded := 1)))
            else
              Fits(arrivals[i], quality, amount) &&
              var next := Stored(raw, quality, arrivals[i].packet);
              var r := Collected(next, quality, amount, left - 1, arrivals[i + 1..]);
              whole == (r.0, r.1.Plus(NOTHING.(stored := 1)))
  {
    hide Stored;
    assert i < |arrivals| ==> arrivals[i..][0] == arrivals[i] && arrivals[i..][1..] == arrivals[i + 1..];
  }

  lemma PutNothing(data: seq<byte>, at: nat, x: seq<byte>)
    requires at + |x| <= |data|
    ensures Put(data, at, x[..0]) == data
  {
  }

  lemma PutNext(data: seq<byte>, at: nat, x: seq<byte>, i: nat)
    requires at + |x| <= |data| && i < |x|
    ensures Put(data, at, x[..i])[at + i := x[i]] == Put(data, at, x[..i + 1])
  {
  }

  lemma MissingNone(recv: seq<bool>)
    requires |recv| <= 0x100
    ensures Missing(recv, 0) == []
  {
  }

  lemma MissingStep(recv: seq<bool>, i: nat)
    requires i < |recv| <= 0x100
    ensures Missing(recv, i + 1) == Missing(recv, i) + if recv[i] then [] else [i]
  {
  }

  // -- Rounds ------------------------------------------------------------------------------------

  ghost predicate BurstsFit(bursts: seq<seq<Received>>, quality: int, amount: nat) {
    forall k :: 0 <= k < |bursts| ==> AllFit(bursts[k], quality, amount)
  }

  /** The batch after some bursts; what comes after the last missing packet is not looked at. */
  ghost function Reassembled(quality: int, amount: nat, bursts: seq<seq<Received>>): (raw: Raw)
    requires BurstsFit(bursts, quality, amount)
    ensures Shaped(raw, amount)
  {
    if bursts == [] then Empty(amount) else
    var n := |bursts| - 1;
    var raw := Reassembled(quality, amount, bursts[..n]);
    if n > 0 && raw.size == amount then raw else
    RoundAccounts(raw, quality, amount, amount - raw.size, bursts[n]);
    Collected(raw, quality, amount, amount - raw.size, bursts[n]).0
  }

  /** What the bursts add to the client's counters. */
  ghost function Tallied(quality: int, amount: nat, bursts: seq<seq<Received>>): Tally
    requires BurstsFit(bursts, quality, amount)
  {
    if bursts == [] then NOTHING else
    var n := |bursts| - 1;
    var raw, tally := Reassembled(quality, amount, bursts[..n]), Tallied(quality, amount, bursts[..n]);
    if n > 0 && raw.size == amount then tally else
    tally.Plus(Collected(raw, quality, amount, amount - raw.size, bursts[n]).1)
  }
}
