/** The quality controller (src/communication/quality/quality.c). */
module Quality {
  import Stream

  datatype Stats = Stats(lost: nat, faulty: nat, ok: nat, current: int, lastMeasure: nat)

  /** At least sixteen good packets for every bad one, and one more. */
  predicate ShouldIncrease(q: Stats) {
    q.ok > 16 * (q.lost + q.faulty)
  }

  predicate ShouldDecrease(q: Stats) {
    q.ok < 8 * (q.lost + q.faulty)
  }

  function Initially(quality: int): Stats {
    Stats(0, 0, 0, quality, 0)
  }

  /** The state after one adjustment. */
  function Adjusted(q: Stats): Stats {
    if q.lastMeasure + 1 != 5 then q.(lastMeasure := q.lastMeasure + 1)
    else if q.current < 5 && ShouldIncrease(q) then Initially(q.current + 1)
    else if q.current > 1 && ShouldDecrease(q) then Initially(q.current - 1)
    else Initially(q.current)
  }

  class Controller {
    var lost: nat
    var faulty: nat
    var ok: nat
    var current: int
    var lastMeasure: nat

    function State(): Stats
      reads this
    {
      Stats(lost, faulty, ok, current, lastMeasure)
    }

    constructor (quality: int)
      ensures State() == Initially(quality)
    {
      current := quality;
      lost, faulty, ok, lastMeasure := 0, 0, 0, 0;
    }

    method ResetStats()
      modifies this
      ensures State() == Initially(old(current))
    {
      lost, faulty, ok, lastMeasure := 0, 0, 0, 0;
    }

    method Adjust() returns (changed: bool)
      modifies this
      ensures State() == Adjusted(old(State()))
      ensures changed <==> current != old(current)
    {
      lastMeasure := lastMeasure + 1;
      if lastMeasure != 5 {
        return false;
      }
      changed := false;
      if current < 5 && ShouldIncrease(State()) {
        current := current + 1;
        ResetStats();
        changed := true;
      } else if current > 1 && ShouldDecrease(State()) {
        current := current - 1;
        ResetStats();
        changed := true;
      } else {
        ResetStats();
      }
    }
  }

  // -- Runs ---------------------------------------------------------------------------

  /** Between adjustments receiving adds to the counters. */
  datatype Step = Record(lost: nat, faulty: nat, ok: nat) | Adjust

  function After(q: Stats, step: Step): Stats {
    match step
    case Record(l, f, o) => q.(lost := q.lost + l, faulty := q.faulty + f, ok := q.ok + o)
    case Adjust => Adjusted(q)
  }

  function Run(q: Stats, steps: seq<Step>): Stats {
    if steps == [] then q else After(Run(q, steps[..|steps| - 1]), steps[|steps| - 1])
  }

  function Adjustments(steps: seq<Step>): nat {
    if steps == [] then 0 else
    Adjustments(steps[..|steps| - 1]) + if steps[|steps| - 1].Adjust? then 1 else 0
  }

  /** How often the level changed. */
  function Changes(q: Stats, steps: seq<Step>): nat {
    if steps == [] then 0 else
    var before := Run(q, steps[..|steps| - 1]);
    Changes(q, steps[..|steps| - 1]) + if After(before, steps[|steps| - 1]).current != before.current then 1 else 0
  }

  /**
   * Over every run the level stays between 1 and 5, moves one step at a time, and changes at most
   * once in five adjustments, whatever is recorded between them.
   */
  lemma {:induction false} RunKeeps(quality: int, steps: seq<Step>)
    requires 1 <= quality <= 5
    ensures var q := Run(Initially(quality), steps);
            && 1 <= q.current <= 5
            && q.lastMeasure == Adjustments(steps) % 5
            && Changes(Initially(quality), steps) <= Adjustments(steps) / 5
            && quality - Changes(Initially(quality), steps) <= q.current <= quality + Changes(Initially(quality), steps)
  {
    if steps != [] {
      RunKeeps(quality, steps[..|steps| - 1]);
    }
  }

  /**
   * Every adjustment but the fifth only counts; the fifth starts a new measurement and moves the
   * level up when fewer than one receipt in seventeen was bad, down when more than one in nine was.
   */
  lemma AdjustedMoves(q: Stats)
    requires 1 <= q.current <= 5 && q.lastMeasure < 5
    ensures var bad, all := q.lost + q.faulty, q.lost + q.faulty + q.ok;
            var r := Adjusted(q);
            && (q.lastMeasure < 4 ==> r == q.(lastMeasure := q.lastMeasure + 1))
            && (q.lastMeasure == 4 ==> r == Initially(r.current))
            && (r.current == q.current + 1 <==> q.lastMeasure == 4 && q.current < 5 && 17 * bad < all)
            && (r.current == q.current - 1 <==> q.lastMeasure == 4 && q.current > 1 && 9 * bad > all)
            && q.current - 1 <= r.current <= q.current + 1
  {
    assert q.ok > 16 * (q.lost + q.faulty) <==> 17 * (q.lost + q.faulty) < q.lost + q.faulty + q.ok;
  }

  // -- What is measured ------------------------------------------------------------------

  /** Every record is that of a finished batch, which counts all its packets as good in the end. */
  ghost predicate Batchwise(quality: int, steps: seq<Step>) {
    steps != [] ==>
      var before, step := steps[..|steps| - 1], steps[|steps| - 1];
      && Batchwise(quality, before)
      && (step.Record? ==> step.ok == Stream.BatchPackets(Run(Initially(quality), before).current))
  }

  /** Batches, and the packets lost or faulty on their way, after one more step. */
  function MeasuredNext(m: (nat, nat), step: Step, fifth: bool): (nat, nat) {
    match step
    case Record(lost, faulty, _) => (m.0 + 1, m.1 + lost + faulty)
    case Adjust => if fifth then (0, 0) else m
  }

  /** The batches since the last fifth adjustment, and the packets lost or faulty on their way. */
  function Measured(steps: seq<Step>): (nat, nat) {
    if steps == [] then (0, 0) else
    MeasuredNext(Measured(steps[..|steps| - 1]), steps[|steps| - 1], Adjustments(steps) % 5 == 0)
  }

  /**
   * Over every run, the level goes up exactly when a fifth adjustment finds fewer than 6.25% bad
   * packets, and down when it finds more than 12.5%, of the packets in the batches measured: all of
   * them had the level's size.
   */
  lemma SharesDecide(quality: int, steps: seq<Step>)
    requires 1 <= quality <= 5 && Batchwise(quality, steps)
    ensures var q := Run(Initially(quality), steps);
            var packets, bad := Measured(steps).0 * Stream.BatchPackets(q.current), Measured(steps).1;
            var r, fifth := Adjusted(q), Adjustments(steps + [Adjust]) % 5 == 0;
            && q.ok == packets && q.lost + q.faulty == bad
            && (r.current == q.current + 1 <==> fifth && q.current < 5 && 16 * bad < packets)
            && (r.current == q.current - 1 <==> fifth && q.current > 1 && 8 * bad > packets)
  {
    hide Stream.BatchPackets, Adjusted, Run, Adjustments, Measured;
    Measures(quality, steps);
    Fifth(quality, steps);
    AdjustedMoves(Run(Initially(quality), steps));
  }

  lemma {:induction false} Measures(quality: int, steps: seq<Step>)
    requires 1 <= quality <= 5 && Batchwise(quality, steps)
    ensures Matches(Run(Initially(quality), steps), Measured(steps))
  {
    hide Stream.BatchPackets, MeasuredNext, Matches, After;
    if steps == [] {
      NothingMeasured(quality);
    } else {
      var before := steps[..|steps| - 1];
      Measures(quality, before);
      Fifth(quality, before);
      assert steps[|steps| - 1].Adjust? ==> before + [Adjust] == steps;
      MatchesNext(Run(Initially(quality), before), Measured(before), steps[|steps| - 1], Adjustments(steps) % 5 == 0);
    }
  }

  /** The counters of the controller are those of the batches measured. */
  ghost predicate Matches(q: Stats, m: (nat, nat)) {
    q.ok == m.0 * Stream.BatchPackets(q.current) && q.lost + q.faulty == m.1
  }

  lemma NothingMeasured(quality: int)
    ensures Matches(Initially(quality), (0, 0))
  {
  }

  /** The next adjustment of a run is a fifth one exactly when four have been counted. */
  lemma Fifth(quality: int, steps: seq<Step>)
    requires 1 <= quality <= 5
    ensures Adjustments(steps + [Adjust]) % 5 == 0 <==> Run(Initially(quality), steps).lastMeasure + 1 == 5
    ensures Run(Initially(quality), steps).lastMeasure < 5 && 1 <= Run(Initially(quality), steps).current <= 5
  {
    hide Run, Changes;
    RunKeeps(quality, steps);
    assert (steps + [Adjust])[..|steps|] == steps;
    NextMultiple(Adjustments(steps));
  }

  lemma NextMultiple(n: nat)
    ensures (n + 1) % 5 == 0 <==> n % 5 + 1 == 5
  {
  }

  lemma MatchesNext(q: Stats, m: (nat, nat), step: Step, fifth: bool)
    requires Matches(q, m) && (step.Record? ==> step.ok == Stream.BatchPackets(q.current))
    requires step.Adjust? ==> (fifth <==> q.lastMeasure + 1 == 5)
    ensures Matches(After(q, step), MeasuredNext(m, step, fifth))
  {
    hide Stream.BatchPackets;
    var size := Stream.BatchPackets(q.current);
    assert (m.0 + 1) * size == m.0 * size + size;
  }

  // -- How a stream is steered ------------------------------------------------------------

  /** The packets lost and faulty on the way of one batch. */
  datatype Losses = Losses(lost: nat, faulty: nat)

  /** One finished batch; the first ones fill the buffer, each later one is followed by an adjustment. */
  function SteeredNext(q: Stats, l: Losses, adjusts: bool): Stats {
    var r := After(q, Record(l.lost, l.faulty, Stream.BatchPackets(q.current)));
    if adjusts then Adjusted(r) else r
  }

  /** The controller after some batches. */
  function Steered(q: Stats, losses: seq<Losses>, filled: nat): Stats {
    if losses == [] then q else
    var n := |losses| - 1;
    SteeredNext(Steered(q, losses[..n], filled), losses[n], n >= filled)
  }

  /** The packets of those batches. */
  function PacketsSent(q: Stats, losses: seq<Losses>, filled: nat): nat {
    if losses == [] then 0 else
    var n := |losses| - 1;
    PacketsSent(q, losses[..n], filled) + Stream.BatchPackets(Steered(q, losses[..n], filled).current)
  }

  /** Enough packets have been sent for as many batches of the level as were counted, and for one. */
  ghost predicate Behind(q: Stats, sent: nat, started: bool) {
    && 1 <= q.current <= 5 && q.lastMeasure < 5
    && q.lastMeasure * Stream.BatchPackets(q.current) <= sent
    && (started ==> Stream.BatchPackets(q.current) <= sent)
  }

  /** The levels differ so little that five batches of one make up for one of the next. */
  lemma FiveMakeUp(quality: int)
    requires 1 <= quality < 5
    ensures Stream.BatchPackets(quality + 1) <= 5 * Stream.BatchPackets(quality)
  {
  }

  lemma LowerIsSmaller(quality: int)
    requires 1 < quality <= 5
    ensures Stream.BatchPackets(quality - 1) <= Stream.BatchPackets(quality)
  {
  }

  lemma BehindNext(q: Stats, l: Losses, adjusts: bool, sent: nat, started: bool)
    requires Behind(q, sent, started)
    ensures Behind(SteeredNext(q, l, adjusts), sent + Stream.BatchPackets(q.current), true)
  {
    hide Stream.BatchPackets;
    var size := Stream.BatchPackets(q.current);
    assert (q.lastMeasure + 1) * size == q.lastMeasure * size + size;
    if q.current < 5 {
      FiveMakeUp(q.current);
    }
    if q.current > 1 {
      LowerIsSmaller(q.current);
    }
  }

  /**
   * However a stream is steered, before every batch but the first at least as much has been sent as
   * a batch of the present level holds.
   */
  lemma {:induction false} SteeredKeeps(quality: int, losses: seq<Losses>, filled: nat)
    requires 1 <= quality <= 5
    ensures Behind(Steered(Initially(quality), losses, filled), PacketsSent(Initially(quality), losses, filled),
                   losses != [])
  {
    hide Behind, SteeredNext, Stream.BatchPackets;
    if losses == [] {
      BehindStart(quality);
    } else {
      var n := |losses| - 1;
      var before := losses[..n];
      SteeredKeeps(quality, before, filled);
      BehindNext(Steered(Initially(quality), before, filled), losses[n], n >= filled,
                 PacketsSent(Initially(quality), before, filled), before != []);
    }
  }

  lemma BehindStart(quality: int)
    requires 1 <= quality <= 5
    ensures Behind(Initially(quality), 0, false)
  {
  }

  /** Batches on whose way nothing was lost. */
  function Quiet(n: nat): (l: seq<Losses>)
    ensures |l| == n
    ensures forall k :: 0 <= k < n ==> l[k] == Losses(0, 0)
  {
    seq(n, i => Losses(0, 0))
  }

  /** Without losses the fifth adjustment raises the level, and none before it moves it. */
  lemma {:induction false} QuietRises(quality: int, filled: nat, n: nat)
    requires 1 <= quality < 5 && n <= filled + 5
    ensures var q := Steered(Initially(quality), Quiet(n), filled);
            q == if n == filled + 5 then Initially(quality + 1)
                 else Stats(0, 0, n * Stream.BatchPackets(quality), quality, if n < filled then 0 else n - filled)
  {
    hide Stream.BatchPackets;
    if n > 0 {
      QuietRises(quality, filled, n - 1);
      assert Quiet(n)[..n - 1] == Quiet(n - 1);
      var size := Stream.BatchPackets(quality);
      assert (n - 1) * size + size == n * size;
      Positive(n, size);
    }
  }

  lemma Positive(n: nat, size: nat)
    requires n > 0 && size > 0
    ensures n * size > 0
  {
  }
}
