/** The server's table of client slots (src/server/server/receive/client_search.c). */
module Slots {
  import opened Bytes
  import opened Framing
  import Stream
  import Requests

  datatype Address = Address(family: int, port: int, ip: int)

  datatype Slot = Slot(inUse: bool, address: Address)

  datatype Search = Match(index: nat) | MatchUnused(index: nat) | NoMatch

  /** No two slots in use belong to the same address. */
  ghost predicate Distinct(slots: seq<Slot>) {
    forall i, j :: 0 <= i < j < |slots| && slots[i].inUse && slots[j].inUse ==> slots[i].address != slots[j].address
  }

  predicate Holds(slot: Slot, address: Address) {
    slot.inUse && slot.address == address
  }

  /** i is the first free slot. */
  ghost predicate FirstFree(slots: seq<Slot>, i: int) {
    0 <= i < |slots| && !slots[i].inUse && forall k :: 0 <= k < i ==> slots[k].inUse
  }

  /** The results the search may have, stated without its loops. */
  ghost predicate Finds(slots: seq<Slot>, address: Address, r: Search) {
    match r
    case Match(i) => i < |slots| && Holds(slots[i], address)
    case MatchUnused(i) =>
      && FirstFree(slots, i) && slots[i].address != address
      && (forall k :: 0 <= k < |slots| ==> !Holds(slots[k], address))
    case NoMatch =>
      && (forall k :: 0 <= k < |slots| ==> !Holds(slots[k], address))
      && (forall k :: FirstFree(slots, k) ==> slots[k].address == address)
  }

  /**
   * A known address is found in its slot. A new one gets the first free slot, unless that is the
   * one it had before: then it is turned away, as when there is no free slot.
   */
  method SearchClient(clients: array<Slot>, address: Address) returns (r: Search)
    ensures Finds(clients[..], address, r)
  {
    var i := 0;
    while i < clients.Length
      invariant 0 <= i <= clients.Length
      invariant forall k :: 0 <= k < i ==> !Holds(clients[k], address)
    {
      if clients[i].inUse && clients[i].address == address {
        return Match(i);
      }
      i := i + 1;
    }
    i := 0;
    while i < clients.Length
      invariant 0 <= i <= clients.Length
      invariant forall k :: 0 <= k < i ==> clients[k].inUse
    {
      if !clients[i].inUse && clients[i].address == address {
        return NoMatch;
      } else if !clients[i].inUse && clients[i].address != address {
        return MatchUnused(i);
      }
      i := i + 1;
    }
    r := NoMatch;
  }

  /** What a datagram from an address leaves in the table, given what the search found. */
  function Registered(slots: seq<Slot>, r: Search, address: Address): (s: seq<Slot>)
    requires r.MatchUnused? ==> r.index < |slots|
    ensures |s| == |slots|
  {
    if r.MatchUnused? then slots[r.index := Slot(true, address)] else slots
  }

  /** EOS or a timeout: the slot keeps its address. */
  function Freed(slots: seq<Slot>, i: nat): (s: seq<Slot>)
    requires i < |slots|
    ensures |s| == |slots|
  {
    slots[i := slots[i].(inUse := false)]
  }

  datatype Event = Datagram(address: Address) | Release(index: nat)

  /** One event: a datagram is looked up and may take a slot, a release frees one. */
  ghost predicate Next(s: seq<Slot>, ev: Event, t: seq<Slot>) {
    match ev
    case Datagram(address) => exists r :: Finds(s, address, r) && t == Registered(s, r, address)
    case Release(i) => i < |s| && t == Freed(s, i)
  }

  method Receive(clients: array<Slot>, address: Address) returns (r: Search)
    modifies clients
    ensures Finds(old(clients[..]), address, r)
    ensures clients[..] == Registered(old(clients[..]), r, address)
    ensures Next(old(clients[..]), Datagram(address), clients[..])
    ensures if r == NoMatch then clients[..] == old(clients[..])
            else r.index < clients.Length && clients[r.index].inUse && clients[r.index].address == address
    ensures forall k :: 0 <= k < clients.Length && !(r != NoMatch && k == r.index) ==> clients[k] == old(clients[k])
  {
    r := SearchClient(clients, address);
    if r.MatchUnused? {
      clients[r.index] := Slot(true, address);
    }
  }

  /**
   * An address that is not turned away has a slot from then on, where every further datagram finds
   * it, and no other slot has changed.
   */
  lemma TakesSlot(slots: seq<Slot>, address: Address, r: Search, again: Search)
    requires Distinct(slots) && Finds(slots, address, r) && r != NoMatch
    requires Finds(Registered(slots, r, address), address, again)
    ensures again == Match(r.index)
    ensures var t := Registered(slots, r, address);
            && t[r.index].inUse && t[r.index].address == address
            && forall k :: 0 <= k < |slots| && k != r.index ==> t[k] == slots[k]
  {
    var t := Registered(slots, r, address);
    assert Holds(t[r.index], address);
  }

  /** A slot released is free and keeps its address, and no other slot changes. */
  lemma ReleasedIs(slots: seq<Slot>, i: nat, k: nat)
    requires i < |slots| && k < |slots|
    ensures !Freed(slots, i)[i].inUse && Freed(slots, i)[i].address == slots[i].address
    ensures k != i ==> Freed(slots, i)[k] == slots[k]
  {
  }

  ghost predicate Trace(tables: seq<seq<Slot>>, events: seq<Event>) {
    && |tables| == |events| + 1
    && forall i :: 0 <= i < |events| ==> Next(tables[i], events[i], tables[i + 1])
  }

  /** In every table of every run the slots in use have pairwise distinct addresses. */
  lemma {:induction false} TraceKeepsDistinct(tables: seq<seq<Slot>>, events: seq<Event>, k: nat)
    requires Trace(tables, events) && Distinct(tables[0]) && k < |tables|
    ensures Distinct(tables[k])
  {
    if k > 0 {
      TraceKeepsDistinct(tables, events, k - 1);
      assert Next(tables[k - 1], events[k - 1], tables[k]);
    }
  }

  /**
   * An address without a slot is turned away exactly when every slot is taken or the first free
   * one is the slot it had before; a full server is not the only reason.
   */
  lemma TurnedAwayIff(slots: seq<Slot>, address: Address, r: Search)
    requires Finds(slots, address, r) && forall k :: 0 <= k < |slots| ==> !Holds(slots[k], address)
    ensures r == NoMatch <==>
            (forall k :: 0 <= k < |slots| ==> slots[k].inUse)
            || exists k :: FirstFree(slots, k) && slots[k].address == address
  {
    if r == NoMatch && !(forall k :: 0 <= k < |slots| ==> slots[k].inUse) {
      var i := LeastFree(slots, 0);
      assert FirstFree(slots, i);
    }
  }

  lemma LeastFree(slots: seq<Slot>, from: nat) returns (i: nat)
    requires from <= |slots| && forall k :: 0 <= k < from ==> slots[k].inUse
    requires exists k :: 0 <= k < |slots| && !slots[k].inUse
    ensures FirstFree(slots, i)
    decreases |slots| - from
  {
    if !slots[from].inUse {
      i := from;
    } else {
      i := LeastFree(slots, from + 1);
    }
  }

  /** A client whose stream just ended cannot come back while its old slot is the first free one. */
  lemma LeavingAndReturning(slots: seq<Slot>, i: nat, r: Search)
    requires Distinct(slots) && i < |slots| && slots[i].inUse
    requires forall k :: 0 <= k < i ==> slots[k].inUse
    requires Finds(Freed(slots, i), slots[i].address, r)
    ensures r == NoMatch
  {
    assert FirstFree(Freed(slots, i), i);
  }

  // -- A client without a slot -------------------------------------------------------------

  /**
   * What the server makes of a datagram (receive.c:110-136): an address turned away is sent an EOS,
   * a slot just taken starts anew, and a known client goes on.
   */
  function Handled(song: Stream.Song, slot: Stream.ClientState, r: Search, req: Packet): Requests.Task
    requires Requests.Readable(req)
  {
    match r
    case NoMatch => Requests.SendEos
    case MatchUnused(_) => Requests.Process(song, Requests.Connected(slot.chunkSize), req).1
    case Match(_) => Requests.Process(song, slot, req).1
  }

  /**
   * After a lost EOS: the REJ of a client that no longer has a slot is answered with another EOS
   * exactly when every slot is taken or the first free one is its old slot. Otherwise it takes that
   * slot as a new client, and what it is sent is undefined.
   */
  lemma LostEosAnswered(
    song: Stream.Song, slots: seq<Slot>, address: Address, r: Search, slot: Stream.ClientState, nr: nat, nrs: seq<byte>)
    requires Finds(slots, address, r) && forall k :: 0 <= k < |slots| ==> !Holds(slots[k], address)
    requires nr < Stream.TWO32
    ensures var task := Handled(song, slot, r, Requests.Rej(nr, nrs));
            && (task == Requests.SendEos <==>
                  (forall k :: 0 <= k < |slots| ==> slots[k].inUse)
                  || exists k :: FirstFree(slots, k) && slots[k].address == address)
            && (task == Requests.SendEos || task == Requests.Unset)
  {
    hide FirstFree, Finds;
    TurnedAwayIff(slots, address, r);
    NoSlotHeld(slots, address, r);
  }

  lemma NoSlotHeld(slots: seq<Slot>, address: Address, r: Search)
    requires Finds(slots, address, r) && forall k :: 0 <= k < |slots| ==> !Holds(slots[k], address)
    ensures !r.Match?
  {
  }

  /**
   * A new client that is not turned away: its ACK is taken for one, and its RR, which finds the slot
   * that the ACK has taken, for a request of the first batch.
   */
  lemma NewClientServed(
    song: Stream.Song, slots: seq<Slot>, address: Address, r: Search, again: Search, slot: Stream.ClientState,
    quality: byte, nr: nat)
    requires Distinct(slots) && Finds(slots, address, r) && r.MatchUnused? && nr < Stream.TWO32
    requires Finds(Registered(slots, r, address), address, again)
    ensures Handled(song, slot, r, Requests.InitialAck(quality)) == Requests.SendAck
    ensures var st := Requests.Process(song, Requests.Connected(slot.chunkSize), Requests.InitialAck(quality)).0;
            again == Match(r.index) && Handled(song, st, again, Requests.RR(nr)) == Requests.SendBatch
  {
    hide Finds, Distinct;
    TakesSlot(slots, address, r, again);
  }
}
