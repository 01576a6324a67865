/** A stream whose levels are those of the client's quality controller. */
module Steering {
  import opened Bytes
  import opened Stream
  import opened StreamRuns
  import opened StreamContent
  import opened Reassembly
  import opened Requests
  import opened Transfer
  import opened Session
  import Quality

  /** The packets lost and faulty on the way of each leg. */
  ghost function LegLosses(song: Song, st: ClientState, legs: seq<Leg>): (l: seq<Quality.Losses>)
    ensures |l| == |legs|
  {
    if legs == [] then [] else
    var n := |legs| - 1;
    var tally := LegTally(song, ServerAfter(song, st, legs[..n]), Counter(st, n), legs[n]);
    LegLosses(song, st, legs[..n]) + [Quality.Losses(tally.lost, tally.faulty)]
  }

  /** The controller of the client after some legs, the first of which filled its buffer. */
  ghost function Controller(song: Song, st: ClientState, legs: seq<Leg>, filled: nat): Quality.Stats {
    Quality.Steered(Quality.Initially(st.quality), LegLosses(song, st, legs), filled)
  }

  /** Every leg runs at the level of the controller. */
  ghost predicate Steered(song: Song, st: ClientState, legs: seq<Leg>, filled: nat) {
    legs != [] ==>
      var n := |legs| - 1;
      Steered(song, st, legs[..n], filled) && legs[n].quality == Controller(song, st, legs[..n], filled).current
  }

  lemma SteeredBefore(song: Song, st: ClientState, legs: seq<Leg>, filled: nat)
    requires legs != [] && Steered(song, st, legs, filled)
    ensures var n := |legs| - 1;
            && Steered(song, st, legs[..n], filled)
            && legs[n].quality == Controller(song, st, legs[..n], filled).current
  {
    hide Controller;
  }

  /** With every RR served the pointer has moved by what the controller has counted. */
  lemma {:induction false} PointerIs(song: Song, st: ClientState, legs: seq<Leg>, filled: nat)
    requires Steered(song, st, legs, filled) && NoneLost(legs)
    ensures Position(st.musicPtr, legs) - st.musicPtr
         == PACKET_SIZE * Quality.PacketsSent(Quality.Initially(st.quality), LegLosses(song, st, legs), filled)
  {
    hide BatchPackets, LegTally, ServerAfter, Counter, Quality.Steered;
    if legs != [] {
      var n := |legs| - 1;
      SteeredBefore(song, st, legs, filled);
      NoneLostBefore(legs, n);
      PointerIs(song, st, legs[..n], filled);
      assert LegLosses(song, st, legs)[..n] == LegLosses(song, st, legs[..n]);
    }
  }

  /**
   * In a stream that its client steers, the batch repeated by the first lost RR never begins before
   * the first sample: it is the end of what has been heard.
   */
  lemma ReplayWasHeard(song: Song, quality: int, legs: seq<Leg>, filled: nat, k: nat)
    requires 1 <= quality <= 5 && PACKET_SIZE * BatchPackets(quality) <= song.payload < TWO32
    requires k < |legs| && FirstLoss(legs[..k + 1])
    requires Runs(song, Fresh(quality), legs[..k + 1]) && Steered(song, Fresh(quality), legs[..k + 1], filled)
    ensures LegBytes(legs[k]) <= Position(0, legs[..k])
    ensures Position(0, legs[..k]) < song.payload ==>
              var p, size := Position(0, legs[..k]), LegBytes(legs[k]);
              Stretch(song, 0, p) == Stretch(song, 0, p - size) + Stretch(song, ReplayFrom(song, p, size), size)
  {
    hide BatchPackets, Stretch, Runs, Steered, Quality.Steered, Quality.PacketsSent, LegLosses, LegRuns, Position;
    var st := Fresh(quality);
    var now := legs[..k + 1];
    assert now[..k] == legs[..k];
    SteeredBefore(song, st, now, filled);
    FirstIsServed(song, st, now);
    PointerIs(song, st, legs[..k], filled);
    Quality.SteeredKeeps(quality, LegLosses(song, st, legs[..k]), filled);
    var p, size := Position(0, legs[..k]), LegBytes(legs[k]);
    if p < song.payload {
      StretchJoins(song, 0, p - size, size);
    }
  }

  /** The RR that is lost first is not the first of all. */
  lemma FirstIsServed(song: Song, st: ClientState, legs: seq<Leg>)
    requires Runs(song, st, legs) && legs != [] && st.stage == Initial && FirstLoss(legs)
    ensures |legs| > 1 && NoneLost(legs[..|legs| - 1])
  {
    hide Fair, Suited, LegLink, Guarded;
  }

  // -- A run that steers itself -----------------------------------------------------------------

  /** The controller wants a level for which there is no room. */
  ghost predicate Stuck(song: Song, st: ClientState, legs: seq<Leg>, filled: nat) {
    var s, level := ServerAfter(song, st, legs), Controller(song, st, legs, filled).current;
    s.stage == Intermediate && level != s.quality && s.bytesSent + PACKET_SIZE * BatchPackets(level) > song.payload
  }

  /**
   * An undisturbed client that follows its controller plays every song to its end, unless the
   * controller raises the level with less than one of its batches left.
   */
  lemma SteeredToTheEnd(song: Song, quality: byte, filled: nat) returns (legs: seq<Leg>)
    requires 1 <= quality <= 5 && PACKET_SIZE * BatchPackets(quality) <= song.payload < TWO32
    ensures Runs(song, Fresh(quality), legs) && NoneLost(legs) && Steered(song, Fresh(quality), legs, filled)
    ensures LegLosses(song, Fresh(quality), legs) == Quality.Quiet(|legs|)
    ensures || Ends(song, ServerAfter(song, Fresh(quality), legs), Counter(Fresh(quality), |legs|))
            || Stuck(song, Fresh(quality), legs, filled)
  {
    hide BatchPackets;
    NothingYet(song, Fresh(quality));
    legs := SteeredOn(song, quality, filled, []);
  }

  lemma {:induction false} SteeredOn(song: Song, quality: byte, filled: nat, before: seq<Leg>)
    returns (legs: seq<Leg>)
    requires 1 <= quality <= 5 && PACKET_SIZE * BatchPackets(quality) <= song.payload < TWO32
    requires Runs(song, Fresh(quality), before) && NoneLost(before) && Steered(song, Fresh(quality), before, filled)
    requires LegLosses(song, Fresh(quality), before) == Quality.Quiet(|before|)
    ensures Runs(song, Fresh(quality), legs) && NoneLost(legs) && Steered(song, Fresh(quality), legs, filled)
    ensures LegLosses(song, Fresh(quality), legs) == Quality.Quiet(|legs|)
    ensures || Ends(song, ServerAfter(song, Fresh(quality), legs), Counter(Fresh(quality), |legs|))
            || Stuck(song, Fresh(quality), legs, filled)
    decreases song.payload - ServerAfter(song, Fresh(quality), before).bytesSent
  {
    hide Runs, NoneLost, Steered, LegLosses, ServerAfter, Counter, Ends, BatchPackets, Controller, Position, InStep;
    hide LegRuns, LegLink, LegTally, AfterBatch;
    var st := Fresh(quality);
    var s, nr := ServerAfter(song, st, before), Counter(st, |before|);
    FreshIsReady(song, quality);
    SessionKeeps(song, st, before);
    EndsIff(song, s, nr);
    if s.bytesSent == song.payload {
      return before;
    }
    ControllerLevel(song, st, before, filled);
    var level := Controller(song, st, before, filled).current;
    if Stuck(song, st, before, filled) {
      return before;
    }
    StartsAtItsLevel(song, quality, before, filled);
    var leg := UndisturbedLeg(song, s, nr, level);
    OneMoreLeg(song, st, before, leg);
    OneMoreSteered(song, st, before, leg, filled);
    legs := SteeredOn(song, quality, filled, before + [leg]);
  }

  lemma ControllerLevel(song: Song, st: ClientState, legs: seq<Leg>, filled: nat)
    requires 1 <= st.quality <= 5
    ensures 1 <= Controller(song, st, legs, filled).current <= 5
  {
    hide LegLosses, Quality.Steered, Quality.PacketsSent, BatchPackets;
    Quality.SteeredKeeps(st.quality, LegLosses(song, st, legs), filled);
  }

  lemma StartsAtItsLevel(song: Song, quality: int, legs: seq<Leg>, filled: nat)
    ensures legs == [] ==>
              var st := Fresh(quality);
              Controller(song, st, legs, filled).current == ServerAfter(song, st, legs).quality
  {
  }

  lemma OneMoreSteered(song: Song, st: ClientState, before: seq<Leg>, leg: Leg, filled: nat)
    requires Steered(song, st, before, filled) && leg.quality == Controller(song, st, before, filled).current
    requires LegLosses(song, st, before) == Quality.Quiet(|before|)
    requires var tally := LegTally(song, ServerAfter(song, st, before), Counter(st, |before|), leg);
             tally.lost == 0 && tally.faulty == 0
    ensures Steered(song, st, before + [leg], filled)
    ensures LegLosses(song, st, before + [leg]) == Quality.Quiet(|before| + 1)
  {
    hide LegTally, ServerAfter, Counter, Controller;
    assert (before + [leg])[..|before|] == before;
  }
}
