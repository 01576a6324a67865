/** From the server's samples to what is played: the stream of Session through the buffer of Player. */
module Listening {
  import opened Bytes
  import opened Stream
  import opened StreamRuns
  import opened Reassembly
  import opened Session
  import opened StreamContent
  import opened Steering
  import Player
  import Transfer
  import Quality

  /** The octets of some packets. */
  function Flatten(packets: seq<seq<byte>>): seq<byte> {
    if packets == [] then [] else Flatten(packets[..|packets| - 1]) + packets[|packets| - 1]
  }

  lemma {:induction false} FlattenConcat(a: seq<seq<byte>>, b: seq<seq<byte>>)
    ensures Flatten(a + b) == Flatten(a) + Flatten(b)
  {
    if b == [] {
      assert a + b == a;
    } else {
      var n := |b| - 1;
      assert (a + b)[..|a + b| - 1] == a + b[..n];
      FlattenConcat(a, b[..n]);
    }
  }

  /** The packets are the places of the batch, one after the other, and so have its data. */
  lemma {:induction false} FlattenPlaces(packet: nat -> seq<byte>, raw: Raw, n: nat)
    requires PACKET_SIZE * n <= |raw.data|
    requires forall j: nat :: j < n ==> packet(j) == Slot(raw, j)
    ensures Flatten(Player.First(packet, n)) == raw.data[..PACKET_SIZE * n]
  {
    if n > 0 {
      FlattenPlaces(packet, raw, n - 1);
      assert Player.First(packet, n)[..n - 1] == Player.First(packet, n - 1);
      assert raw.data[..PACKET_SIZE * n] == raw.data[..PACKET_SIZE * (n - 1)] + Slot(raw, n - 1);
    }
  }

  /**
   * The receptions of the player are the batches of a stream, as many packets as the level of each
   * leg says, cut from what that leg assembled, and with the losses of its rounds; after the last of
   * them there may be the EOS with which the server answers at the end.
   */
  ghost predicate Feeds(
    song: Song, st: ClientState, legs: seq<Leg>, script: seq<Player.Received<seq<byte>>>, log: seq<Player.Request>)
  {
    && |legs| <= |log| <= |script|
    && (forall k :: 0 <= k < |legs| ==>
          var raw := ClientAfter(song, st, legs[..k + 1]);
          && script[k].Batch? && log[k].amount == BatchPackets(legs[k].quality)
          && Shaped(raw, log[k].amount)
          && forall j: nat :: j < log[k].amount ==> script[k].packet(j) == Slot(raw, j))
    && Player.LossesOf(script[..|legs|]) == LegLosses(song, st, legs)
    && (|legs| < |log| ==>
          && |log| == |legs| + 1 && script[|legs|] == Player.Eos(0, 0)
          && Ends(song, ServerAfter(song, st, legs), Counter(st, |legs|)))
  }

  /** What the player accepts is what the stream assembled. */
  lemma {:induction false} AcceptedIsListened(
    song: Song, st: ClientState, legs: seq<Leg>, script: seq<Player.Received<seq<byte>>>, log: seq<Player.Request>)
    requires Feeds(song, st, legs, script, log)
    ensures Flatten(Player.Accepted(script, log)) == Listened(song, st, legs)
    decreases |log|
  {
    hide ClientAfter, ServerAfter, Ends, BatchPackets, Slot, Player.First, Feeds;
    FeedsParts(song, st, legs, script, log);
    if |legs| < |log| {
      AcceptedIsListened(song, st, legs, script, log[..|legs|]);
      assert Player.Accepted(script, log) == Player.Accepted(script, log[..|legs|]);
    } else if legs != [] {
      var n := |legs| - 1;
      AcceptedIsListened(song, st, legs[..n], script, log[..n]);
      FlattenConcat(Player.Accepted(script, log[..n]), Player.First(script[n].packet, log[n].amount));
    }
  }

  /** All legs but the last feed all receptions but the last, and the last leg the last reception. */
  lemma FeedsParts(
    song: Song, st: ClientState, legs: seq<Leg>, script: seq<Player.Received<seq<byte>>>, log: seq<Player.Request>)
    requires Feeds(song, st, legs, script, log)
    ensures |legs| <= |log| <= |script|
    ensures |legs| < |log| ==>
              |log| == |legs| + 1 && script[|legs|].Eos? && Feeds(song, st, legs, script, log[..|legs|])
    ensures |legs| == |log| && legs != [] ==>
              var n := |legs| - 1;
              && Feeds(song, st, legs[..n], script, log[..n]) && script[n].Batch?
              && Flatten(Player.First(script[n].packet, log[n].amount)) == ClientAfter(song, st, legs).data
  {
    hide ClientAfter, ServerAfter, Ends, BatchPackets, Slot, Player.First, LegTally;
    if |legs| == |log| && legs != [] {
      var n := |legs| - 1;
      var before := legs[..n];
      assert script[..n + 1][..n] == script[..n];
      assert LegLosses(song, st, legs)[..n] == LegLosses(song, st, before);
      assert Player.LossesOf(script[..n + 1])[..n] == Player.LossesOf(script[..n]);
      assert forall k :: 0 <= k < n ==> before[k] == legs[k] && before[..k + 1] == legs[..k + 1];
      assert legs[..n + 1] == legs;
      var raw := ClientAfter(song, st, legs);
      FlattenPlaces(script[n].packet, raw, log[n].amount);
      assert raw.data[..|raw.data|] == raw.data;
    }
  }

  /**
   * With every RR served and at quality 3 to 5, the packets accepted, of which the player plays or
   * still buffers every one in order, are the samples from the start on, and silence after the end.
   */
  lemma AcceptedIsMusic(
    song: Song, st: ClientState, legs: seq<Leg>, script: seq<Player.Received<seq<byte>>>, log: seq<Player.Request>)
    requires Ready(song, st) && Positioned(song, st) && Room(song, st)
    requires Runs(song, st, legs) && Lossless(legs) && NoneLost(legs)
    requires Feeds(song, st, legs, script, log)
    ensures Flatten(Player.Accepted(script, log))
         == Stretch(song, st.musicPtr, Position(st.musicPtr, legs) - st.musicPtr)
  {
    hide Feeds, Runs, Listened, Stretch, Positioned, Room, Ready;
    AcceptedIsListened(song, st, legs, script, log);
    ListenedIsMusic(song, st, legs);
  }

  /** The levels of a stream that feeds a player are those of the player's controller. */
  lemma {:induction false} FedIsSteered(
    song: Song, quality: int, legs: seq<Leg>, script: seq<Player.Received<seq<byte>>>, log: seq<Player.Request>,
    filled: nat)
    requires 1 <= quality <= 5 && Runs(song, Fresh(quality), legs)
    requires Feeds(song, Fresh(quality), legs, script, log)
    requires Player.Steers(Quality.Initially(quality), script, log, filled)
    ensures Steered(song, Fresh(quality), legs, filled)
  {
    hide Feeds, Runs, LegRuns, BatchPackets, Player.LossesOf, LegLosses, Quality.Steered, ServerAfter, Controller;
    var st := Fresh(quality);
    FeedsParts(song, st, legs, script, log);
    if |legs| < |log| {
      FedIsSteered(song, quality, legs, script, log[..|legs|], filled);
    } else if legs != [] {
      var n := |legs| - 1;
      RunsBefore(song, st, legs);
      FedIsSteered(song, quality, legs[..n], script, log[..n], filled);
      LastLevel(song, quality, legs, script, log, filled);
    }
  }

  lemma LastLevel(
    song: Song, quality: int, legs: seq<Leg>, script: seq<Player.Received<seq<byte>>>, log: seq<Player.Request>,
    filled: nat)
    requires 1 <= quality <= 5 && Runs(song, Fresh(quality), legs) && legs != [] && |legs| == |log|
    requires Feeds(song, Fresh(quality), legs, script, log)
    requires Player.Steers(Quality.Initially(quality), script, log, filled)
    ensures legs[|legs| - 1].quality == Controller(song, Fresh(quality), legs[..|legs| - 1], filled).current
  {
    hide ClientAfter, ServerAfter, Ends, BatchPackets, Slot, Quality.Steered, LegTally, Shaped;
    var n := |legs| - 1;
    var st := Fresh(quality);
    FeedsParts(song, st, legs, script, log);
    ControllerLevel(song, st, legs[..n], filled);
    KnownLevel(song, ServerAfter(song, st, legs[..n]), Counter(st, n), legs[n]);
    LevelBySize(legs[n].quality, Controller(song, st, legs[..n], filled).current);
  }

  lemma KnownLevel(song: Song, s: ClientState, nr: nat, leg: Leg)
    requires nr < TWO32 && LegRuns(song, s, nr, leg)
    ensures 1 <= leg.quality <= 5
  {
    hide LegLink, Transfer.Fair, Transfer.Suited, Guarded;
  }

  lemma LevelBySize(a: int, b: int)
    requires 1 <= a <= 5 && 1 <= b <= 5 && BatchPackets(a) == BatchPackets(b)
    ensures a == b
  {
  }

  /**
   * What is heard of a stream from the start when the first RR is lost in leg k: the music, with the
   * last batch heard by then once more in between, or silence once nothing is left.
   */
  ghost predicate HeardAs(song: Song, legs: seq<Leg>, k: nat, heard: seq<byte>) {
    && k <= |legs| && NoneLost(legs[..k]) && (k < |legs| ==> FirstLoss(legs[..k + 1]))
    && var p, end := Position(0, legs[..k]), Position(0, legs);
       var size := if k < |legs| then LegBytes(legs[k]) else 0;
       && size <= p <= end
       && heard == WithReplay(song, 0, p, size, end)
  }

  lemma SteeredIsHeard(song: Song, quality: int, legs: seq<Leg>, filled: nat) returns (k: nat)
    requires 1 <= quality <= 5 && PACKET_SIZE * BatchPackets(quality) <= song.payload < TWO32
    requires Runs(song, Fresh(quality), legs) && Steered(song, Fresh(quality), legs, filled) && Lossless(legs)
    ensures HeardAs(song, legs, k, Listened(song, Fresh(quality), legs))
    ensures Ends(song, ServerAfter(song, Fresh(quality), legs), Counter(Fresh(quality), |legs|)) ==>
              Position(0, legs) >= song.payload
  {
    hide Runs, Steered, Listened, WithReplay, Stretch, BatchPackets, Position, FirstLoss, NoneLost, Lossless;
    hide ServerAfter, Ends, Counter, Ready, Room, Positioned;
    FreshIsReady(song, quality);
    k := WhatIsHeard(song, Fresh(quality), legs);
    if k < |legs| {
      PartsRun(song, Fresh(quality), legs, filled, k + 1);
      ReplayWasHeard(song, quality, legs, filled, k);
    }
  }

  lemma {:induction false} PartsRun(song: Song, st: ClientState, legs: seq<Leg>, filled: nat, k: nat)
    requires Runs(song, st, legs) && Steered(song, st, legs, filled) && k <= |legs|
    ensures Runs(song, st, legs[..k]) && Steered(song, st, legs[..k], filled)
  {
    hide LegRuns, ServerAfter, Controller, Counter;
    if k == |legs| {
      assert legs[..k] == legs;
    } else {
      var n := |legs| - 1;
      PartsRun(song, st, legs[..n], filled, k);
      assert legs[..n][..k] == legs[..k];
    }
  }

  /**
   * From the samples to the loudspeaker: a player that runs on a stream, up to its EOS. What it has
   * played and still buffers is what the stream assembled, at the levels of its own controller. At
   * quality 3 to 5 that is the music, in which a lost RR repeats nothing but the last batch heard;
   * with every RR served, what was played in the end is the whole song and a little silence.
   */
  method PlaySong(
    song: Song, quality: int, ghost legs: seq<Leg>, client: Player.Client<seq<byte>>,
    script: seq<Player.Received<seq<byte>>>)
    returns (ghost log: seq<Player.Request>, ghost filled: nat, ghost k: nat)
    requires client.Valid() && !client.eosReceived && client.Music() == [] && client.buffer.Contents() == []
    requires client.quality.State() == Quality.Initially(quality) && script != []
    requires 1 <= quality <= 5 && PACKET_SIZE * BatchPackets(quality) <= song.payload < TWO32
    requires Runs(song, Fresh(quality), legs)
    modifies client, client.buffer, client.buffer.data, client.quality
    ensures client.Valid()
    ensures Feeds(song, Fresh(quality), legs, script, log) ==>
              && Flatten(client.Music()) == Listened(song, Fresh(quality), legs)
              && Steered(song, Fresh(quality), legs, filled)
              && (Lossless(legs) ==> HeardAs(song, legs, k, Flatten(client.Music())))
              && (client.eosReceived ==>
                    && client.buffer.Contents() == []
                    && (Lossless(legs) ==> Position(0, legs) >= song.payload)
                    && (Lossless(legs) && NoneLost(legs) ==>
                          Flatten(client.played)
                          == Sound(song, 0, song.payload) + Zeros(Position(0, legs) - song.payload)))
  {
    hide Feeds, Runs, Listened, Lossless, NoneLost, Position, Flatten, Sound, Zeros, BatchPackets, ServerAfter;
    hide Player.HasRoom, Player.IsSafe, Player.Steers, Steered, HeardAs, Ends;
    k := 0;
    log, filled := client.Run(script);
    if Feeds(song, Fresh(quality), legs, script, log) {
      AcceptedIsListened(song, Fresh(quality), legs, script, log);
      FedIsSteered(song, quality, legs, script, log, filled);
      if client.eosReceived {
        EosEnds(song, Fresh(quality), legs, script, log);
      }
      if Lossless(legs) {
        k := SteeredIsHeard(song, quality, legs, filled);
        if client.eosReceived && NoneLost(legs) {
          WholeSong(song, quality, legs);
        }
      }
    }
  }

  /** When the last reception was EOS, the stream has ended. */
  lemma EosEnds(
    song: Song, st: ClientState, legs: seq<Leg>, script: seq<Player.Received<seq<byte>>>, log: seq<Player.Request>)
    requires Feeds(song, st, legs, script, log) && 0 < |log| <= |script| && script[|log| - 1].Eos?
    ensures Ends(song, ServerAfter(song, st, legs), Counter(st, |legs|))
  {
    hide ClientAfter, ServerAfter, Ends, BatchPackets, Slot;
  }
}
