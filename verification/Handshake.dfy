/** Agreeing on a new quality: client_adjust_quality against the server's answer to QTY. */
module Handshake {

  /** How the client left its loop, if it did. */
  datatype Exit = Inside | ByAck | ByEos

  /** The wire between client and server during one agreement on the level wanted. */
  datatype Link = Link(
    wanted: int, server: int, requests: multiset<int>, acks: nat, waiting: bool, exit: Exit)

  /** Before the client's loop looks for an EOS for the first time, or has timed out since. */
  predicate AtTop(s: Link) {
    s.exit == Inside && !s.waiting
  }

  datatype Event =
    | SendQty                   // the client sees no EOS, sends its level and waits for an ACK
    | LoseQty(quality: int)     // a request is lost
    | Serve(quality: int)       // the server takes a request, adopts its level and sends an ACK
    | LoseAck                   // an ACK is lost
    | TimeOut                   // the client waits in vain
    | TakeAck                   // the client receives an ACK and leaves the loop
    | SeeEos                    // the client sees an EOS waiting and leaves the loop

  predicate Enabled(s: Link, ev: Event) {
    s.exit == Inside &&
    match ev
    case LoseQty(q) => q in s.requests
    case Serve(q) => q in s.requests
    case LoseAck => s.acks > 0
    case TimeOut => s.waiting
    case TakeAck => s.waiting && s.acks > 0
    case _ => !s.waiting
  }

  function After(s: Link, ev: Event): Link
    requires Enabled(s, ev)
  {
    match ev
    case SendQty => s.(requests := s.requests + multiset{s.wanted}, waiting := true)
    case LoseQty(q) => s.(requests := s.requests - multiset{q})
    case Serve(q) => s.(server := q, requests := s.requests - multiset{q}, acks := s.acks + 1)
    case LoseAck => s.(acks := s.acks - 1)
    case TimeOut => s.(waiting := false)
    case TakeAck => s.(acks := s.acks - 1, exit := ByAck)
    case SeeEos => s.(exit := ByEos)
  }

  ghost predicate Possible(s: Link, events: seq<Event>)
    decreases |events|
  {
    events == [] || (Enabled(s, events[0]) && Possible(After(s, events[0]), events[1..]))
  }

  function Outcome(s: Link, events: seq<Event>): Link
    decreases |events|
  {
    if events == [] then s
    else if !Enabled(s, events[0]) then s
    else Outcome(After(s, events[0]), events[1..])
  }

  /** No ACK of an earlier agreement under way unless it tells the truth, no request for another level. */
  ghost predicate Clean(s: Link) {
    && (s.acks > 0 ==> s.server == s.wanted)
    && forall q :: q in s.requests ==> q == s.wanted
  }

  ghost predicate Agreed(s: Link) {
    s.exit == ByAck ==> s.server == s.wanted
  }

  ghost predicate AgreedAtEos(s: Link) {
    s.exit == ByEos ==> s.server == s.wanted
  }

  lemma {:induction false} CleanAgrees(s: Link, events: seq<Event>)
    requires Possible(s, events) && Clean(s) && Agreed(s)
    ensures Agreed(Outcome(s, events))
    decreases |events|
  {
    if events != [] {
      CleanAgrees(After(s, events[0]), events[1..]);
    }
  }

  /** One ACK too many, or one request of another level, and the client may leave too early. */
  lemma UncleanDisagrees(s: Link) returns (events: seq<Event>)
    requires AtTop(s) && !Clean(s)
    ensures Possible(s, events) && Outcome(s, events).exit == ByAck && Outcome(s, events).server != s.wanted
  {
    var t := After(s, SendQty);
    if s.acks > 0 && s.server != s.wanted {
      OneEvent(t, TakeAck);
      FirstEvent(s, SendQty, [TakeAck]);
      events := [SendQty] + [TakeAck];
    } else {
      var q :| q in s.requests && q != s.wanted;
      var u := After(t, Serve(q));
      OneEvent(u, TakeAck);
      FirstEvent(t, Serve(q), [TakeAck]);
      FirstEvent(s, SendQty, [Serve(q)] + [TakeAck]);
      events := [SendQty] + ([Serve(q)] + [TakeAck]);
    }
  }

  lemma FirstEvent(s: Link, ev: Event, events: seq<Event>)
    requires Enabled(s, ev) && Possible(After(s, ev), events)
    ensures Possible(s, [ev] + events) && Outcome(s, [ev] + events) == Outcome(After(s, ev), events)
  {
    assert ([ev] + events)[1..] == events;
  }

  lemma OneEvent(s: Link, ev: Event)
    requires Enabled(s, ev)
    ensures Possible(s, [ev]) && Outcome(s, [ev]) == After(s, ev)
  {
    assert [ev][1..] == [];
    assert Possible(After(s, ev), []);
  }

  /**
   * Whatever is lost, client and server agree when an ACK makes the client leave the loop, exactly
   * when the wire was clean at the start.
   */
  lemma AgreementIff(s: Link)
    requires AtTop(s)
    ensures (forall events :: Possible(s, events) ==> Agreed(Outcome(s, events))) <==> Clean(s)
  {
    if Clean(s) {
      forall events | Possible(s, events)
        ensures Agreed(Outcome(s, events))
      {
        CleanAgrees(s, events);
      }
    } else {
      var events := UncleanDisagrees(s);
      var end := Outcome(s, events);
      WantedStays(s, events);
      assert !Agreed(end);
    }
  }

  lemma {:induction false} WantedStays(s: Link, events: seq<Event>)
    ensures Outcome(s, events).wanted == s.wanted
    decreases |events|
  {
    if events != [] && Enabled(s, events[0]) {
      WantedStays(After(s, events[0]), events[1..]);
    }
  }

  /**
   * An EOS makes the client leave the loop with its new level, whether or not the server has
   * adopted it: on a clean wire both are sure to agree only if they did at the start.
   */
  lemma EosAgreesIff(s: Link)
    requires AtTop(s) && Clean(s)
    ensures (forall events :: Possible(s, events) ==> AgreedAtEos(Outcome(s, events))) <==> s.server == s.wanted
  {
    if s.server == s.wanted {
      forall events | Possible(s, events)
        ensures AgreedAtEos(Outcome(s, events))
      {
        AgreedStays(s, events);
        WantedStays(s, events);
      }
    } else {
      var events := EosFirst(s);
      var end := Outcome(s, events);
      assert !AgreedAtEos(end);
    }
  }

  lemma EosFirst(s: Link) returns (events: seq<Event>)
    requires AtTop(s)
    ensures Possible(s, events) && Outcome(s, events) == s.(exit := ByEos)
  {
    events := [SeeEos];
    OneEvent(s, SeeEos);
  }

  lemma {:induction false} AgreedStays(s: Link, events: seq<Event>)
    requires Clean(s) && s.server == s.wanted
    ensures Outcome(s, events).server == s.wanted
    decreases |events|
  {
    if events != [] && Enabled(s, events[0]) {
      AgreedStays(After(s, events[0]), events[1..]);
    }
  }
}
