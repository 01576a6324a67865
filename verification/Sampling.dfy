/** Dropping and restoring whole frames: downsample and resample of src/compression/compress.c. */
module Sampling {
  import opened Bytes
  import opened Arith

  // -- Counting the frames that stay ------------------------------------------------

  /** Every n-th frame goes, starting with the first. */
  predicate Drops(i: nat, n: nat)
    requires n > 1
  {
    i % n == 0
  }

  /** How many of the first f frames stay when every n-th, starting with the first, goes. */
  function Kept(f: nat, n: nat): (k: nat)
    requires n > 1
    ensures k <= f
  {
    if f == 0 then 0 else Kept(f - 1, n) + (if Drops(f - 1, n) then 0 else 1)
  }

  /** ceil(f / n) grows exactly when f is a multiple of n. */
  lemma CeilStep(f: nat, n: nat)
    requires n > 1
    ensures (f + n) / n == (f + n - 1) / n + (if f % n == 0 then 1 else 0)
  {
    var q, r := f / n, f % n;
    assert f == n * q + r;
    DivideBy(f + n, n, q + 1, r);
    if r == 0 {
      DivideBy(f + n - 1, n, q, n - 1);
    } else {
      DivideBy(f + n - 1, n, q + 1, r - 1);
    }
  }

  lemma {:induction false} KeptClosed(f: nat, n: nat)
    requires n > 1
    ensures Kept(f, n) == f - (f + n - 1) / n
  {
    if f == 0 {
      DivideBy(n - 1, n, 0, n - 1);
    } else {
      KeptClosed(f - 1, n);
      CeilStep(f - 1, n);
    }
  }

  lemma {:induction false} KeptMonotone(e: nat, f: nat, n: nat)
    requires n > 1 && e <= f
    ensures Kept(e, n) <= Kept(f, n)
    ensures e < f && !Drops(e, n) ==> Kept(e, n) < Kept(f, n)
    decreases f - e
  {
    hide Drops;
    if e < f {
      KeptMonotone(e + 1, f, n);
    }
  }

  /** In m whole groups of n frames exactly n-1 of each stay. */
  lemma KeptWhole(m: nat, n: nat)
    requires n > 1
    ensures m * n >= 0 && Kept(m * n, n) == m * (n - 1)
  {
    hide Kept;
    KeptClosed(m * n, n);
    DivideBy(m * n + n - 1, n, m, n - 1);
    assert m * n - m == m * (n - 1);
  }

  /** Never more than the fraction (n-1)/n stays. */
  lemma KeptFraction(f: nat, n: nat)
    requires n > 1
    ensures n * Kept(f, n) <= (n - 1) * f
  {
    KeptClosed(f, n);
    CeilTimes(f, n);
    Spare(f, n, (f + n - 1) / n);
  }

  lemma CeilTimes(f: nat, n: nat)
    requires n > 1
    ensures n * ((f + n - 1) / n) >= f
  {
    assert f + n - 1 == n * ((f + n - 1) / n) + (f + n - 1) % n;
  }

  lemma Spare(f: int, n: int, c: int)
    requires n * c >= f
    ensures n * (f - c) <= (n - 1) * f
  {
  }

  // -- What the two transformations compute ------------------------------------------

  /** The k-th frame. */
  function Frame(x: seq<byte>, k: nat): (f: seq<byte>)
    requires 4 * k + 4 <= |x|
    ensures |f| == 4
  {
    x[4 * k..4 * k + 4]
  }

  /** The first f frames of x without every n-th. */
  function Thinned(x: seq<byte>, n: nat, f: nat): (t: seq<byte>)
    requires n > 1 && 4 * f <= |x|
    ensures |t| == 4 * Kept(f, n)
  {
    if f == 0 then [] else
    Thinned(x, n, f - 1) + (if Drops(f - 1, n) then [] else Frame(x, f - 1))
  }

  /** The first f frames of the restored signal: zeros at every n-th, the frames of y between. */
  function Spread(y: seq<byte>, n: nat, f: nat): (s: seq<byte>)
    requires n > 1 && 4 * Kept(f, n) <= |y|
    ensures |s| == 4 * f
  {
    if f == 0 then [] else
    Spread(y, n, f - 1)
    + (if Drops(f - 1, n) then Zeros(4) else Frame(y, Kept(f - 1, n)))
  }

  /** The signal with every n-th frame silenced, starting with the first. */
  function Silenced(x: seq<byte>, n: nat): (s: seq<byte>)
    requires n > 1
    ensures |s| == |x|
  {
    seq(|x|, i requires 0 <= i < |x| => if Drops(i / 4, n) then 0 else x[i])
  }

  /** The size computed for the thinned data. */
  function ThinSize(size: nat, n: nat): (s: nat)
    requires n > 1
  {
    ProductOfNats(size / n, n - 1);
    size / n * (n - 1)
  }

  /** The size computed for the restored data. */
  function SpreadSize(size: nat, n: nat): (s: nat)
    requires n > 1
  {
    ProductOfNats(size / (n - 1), n);
    size / (n - 1) * n
  }

  /** The frames written by downsample fit the size it allocates. */
  predicate Fits(size: nat, n: nat)
    requires n > 1
  {
    4 * Kept(size / 4, n) <= ThinSize(size, n)
  }

  /** The packet data after downsample: the kept frames, then zeros up to the computed size. */
  function Downsampled(x: seq<byte>, n: nat): (t: seq<byte>)
    requires n > 1
    ensures |t| == ThinSize(|x|, n)
  {
    (Thinned(x, n, |x| / 4) + Zeros(ThinSize(|x|, n)))[..ThinSize(|x|, n)]
  }

  /** The packet data after resample. */
  function Resampled(y: seq<byte>, n: nat): (s: seq<byte>)
    requires n > 1
    ensures |s| == SpreadSize(|y|, n)
  {
    ReadsFit(|y|, n);
    var size := SpreadSize(|y|, n);
    Spread(y, n, size / 4) + Zeros(size % 4)
  }

  /** resample never reads past its input, whatever the size. */
  lemma ReadsFit(size: nat, n: nat)
    requires n > 1
    ensures 4 * Kept(SpreadSize(size, n) / 4, n) <= size
  {
    var m := size / (n - 1);
    var f := m * n / 4;
    KeptFraction(f, n);
    assert 4 * f <= m * n;
    Shrink(m, n, f, Kept(f, n));
    Quotient(size, n - 1);
  }

  lemma Shrink(m: nat, n: nat, f: nat, k: nat)
    requires n > 1 && 4 * f <= m * n && n * k <= (n - 1) * f
    ensures 4 * k <= (n - 1) * m
  {
    MulOrder(n - 1, 4 * f, m * n);
    assert n * (4 * k) <= (n - 1) * (4 * f);
    assert (n - 1) * (m * n) == n * ((n - 1) * m);
    CancelFactor(n, 4 * k, (n - 1) * m);
  }

  // -- One frame more -------------------------------------------------------------------

  lemma ThinnedStart(x: seq<byte>, n: nat)
    requires n > 1
    ensures Kept(0, n) == 0 && Thinned(x, n, 0) == []
  {
  }

  lemma ThinnedDrop(x: seq<byte>, n: nat, i: nat)
    requires n > 1 && 4 * i + 4 <= |x| && Drops(i, n)
    ensures Kept(i + 1, n) == Kept(i, n) && Thinned(x, n, i + 1) == Thinned(x, n, i)
  {
    hide Drops;
  }

  lemma ThinnedKeep(x: seq<byte>, n: nat, i: nat)
    requires n > 1 && 4 * i + 4 <= |x| && !Drops(i, n)
    ensures Kept(i + 1, n) == Kept(i, n) + 1 && Thinned(x, n, i + 1) == Thinned(x, n, i) + Frame(x, i)
  {
    hide Drops, Frame;
  }

  lemma SpreadStart(y: seq<byte>, n: nat)
    requires n > 1
    ensures Kept(0, n) == 0 && Spread(y, n, 0) == []
  {
  }

  lemma SpreadDrop(y: seq<byte>, n: nat, i: nat)
    requires n > 1 && 4 * Kept(i + 1, n) <= |y| && Drops(i, n)
    ensures Kept(i + 1, n) == Kept(i, n) && Spread(y, n, i + 1) == Spread(y, n, i) + Zeros(4)
  {
    hide Drops, Zeros;
  }

  lemma SpreadKeep(y: seq<byte>, n: nat, i: nat)
    requires n > 1 && 4 * Kept(i + 1, n) <= |y| && !Drops(i, n)
    ensures Kept(i + 1, n) == Kept(i, n) + 1 && Spread(y, n, i + 1) == Spread(y, n, i) + Frame(y, Kept(i, n))
  {
    hide Drops, Frame;
  }

  // -- Round trips --------------------------------------------------------------------

  lemma {:induction false} ThinnedPrefix(x: seq<byte>, n: nat, e: nat, f: nat)
    requires n > 1 && e <= f && 4 * f <= |x|
    ensures Thinned(x, n, e) <= Thinned(x, n, f)
    decreases f
  {
    hide Drops, Frame;
    if e < f {
      ThinnedPrefix(x, n, e, f - 1);
    }
  }

  lemma {:induction false} SpreadPrefix(y: seq<byte>, n: nat, e: nat, f: nat)
    requires n > 1 && e <= f && 4 * Kept(f, n) <= |y|
    ensures 4 * Kept(e, n) <= |y| && Spread(y, n, e) <= Spread(y, n, f)
    decreases f
  {
    hide Drops, Frame, Zeros;
    if e < f {
      SpreadPrefix(y, n, e, f - 1);
    }
  }

  lemma PrefixFrame(a: seq<byte>, b: seq<byte>, k: nat)
    requires a <= b && 4 * k + 4 <= |a|
    ensures Frame(a, k) == Frame(b, k)
  {
  }

  lemma AppendedFrame(a: seq<byte>, frame: seq<byte>, k: nat)
    requires |a| == 4 * k && |frame| == 4
    ensures Frame(a + frame, k) == frame
  {
  }

  lemma SilencedFrame(x: seq<byte>, n: nat, f: nat)
    requires n > 1 && 4 * f + 4 <= |x|
    ensures Silenced(x, n)[..4 * (f + 1)] == Silenced(x, n)[..4 * f] + if Drops(f, n) then Zeros(4) else Frame(x, f)
  {
    hide Drops;
    var frame := if Drops(f, n) then Zeros(4) else Frame(x, f);
    assert Silenced(x, n)[4 * f..4 * (f + 1)] == frame;
  }

  lemma {:induction false} SpreadThinned(x: seq<byte>, n: nat, f: nat, all: nat)
    requires n > 1 && f <= all && 4 * all <= |x|
    ensures Kept(f, n) <= Kept(all, n)
    ensures Spread(Thinned(x, n, all), n, f) == Silenced(x, n)[..4 * f]
  {
    hide Drops, Silenced, Zeros, Frame, Spread, Thinned, Kept;
    var t := Thinned(x, n, all);
    KeptMonotone(f, all, n);
    if f == 0 {
      SpreadStart(t, n);
    } else {
      SpreadThinned(x, n, f - 1, all);
      SilencedFrame(x, n, f - 1);
      if Drops(f - 1, n) {
        SpreadDrop(t, n, f - 1);
      } else {
        SpreadKeep(t, n, f - 1);
        ThinnedKeep(x, n, f - 1);
        AppendedFrame(Thinned(x, n, f - 1), Frame(x, f - 1), Kept(f - 1, n));
        ThinnedPrefix(x, n, f, all);
        PrefixFrame(Thinned(x, n, f), t, Kept(f - 1, n));
      }
    }
  }

  lemma {:induction false} ThinnedSpread(y: seq<byte>, n: nat, f: nat, all: nat)
    requires n > 1 && f <= all && 4 * Kept(all, n) <= |y|
    ensures Kept(f, n) <= Kept(all, n)
    ensures Thinned(Spread(y, n, all), n, f) == y[..4 * Kept(f, n)]
  {
    hide Drops, Zeros, Frame, Spread, Thinned, Kept;
    var s := Spread(y, n, all);
    KeptMonotone(f, all, n);
    if f == 0 {
      ThinnedStart(s, n);
    } else {
      ThinnedSpread(y, n, f - 1, all);
      if Drops(f - 1, n) {
        ThinnedDrop(s, n, f - 1);
      } else {
        ThinnedKeep(s, n, f - 1);
        SpreadKeep(y, n, f - 1);
        AppendedFrame(Spread(y, n, f - 1), Frame(y, Kept(f - 1, n)), f - 1);
        SpreadPrefix(y, n, f, all);
        PrefixFrame(Spread(y, n, f), s, f - 1);
        NextPrefix(y, Kept(f - 1, n));
      }
    }
  }

  lemma NextPrefix(y: seq<byte>, k: nat)
    requires 4 * k + 4 <= |y|
    ensures y[..4 * (k + 1)] == y[..4 * k] + Frame(y, k)
  {
  }

  lemma WholeSizes(size: nat, n: nat, m: nat)
    requires n > 1 && size == 4 * (m * n)
    ensures ThinSize(size, n) == 4 * (m * (n - 1)) == 4 * Kept(size / 4, n)
  {
    KeptWhole(m, n);
    assert 4 * (m * n) == n * (4 * m);
    DivideBy(size, n, 4 * m, 0);
    assert 4 * m * (n - 1) == 4 * (m * (n - 1));
  }

  lemma WholeSizesBack(size: nat, n: nat, m: nat)
    requires n > 1 && size == 4 * (m * (n - 1))
    ensures SpreadSize(size, n) == 4 * (m * n)
  {
    assert 4 * (m * (n - 1)) == (n - 1) * (4 * m);
    DivideBy(size, n - 1, 4 * m, 0);
    assert 4 * m * n == 4 * (m * n);
  }

  /** Restoring a thinned signal of whole groups silences exactly the dropped frames. */
  lemma ResampleDownsample(x: seq<byte>, n: nat, m: nat)
    requires n > 1 && |x| == 4 * (m * n)
    ensures Fits(|x|, n)
    ensures Resampled(Downsampled(x, n), n) == Silenced(x, n)
  {
    WholeSizes(|x|, n, m);
    var t := Thinned(x, n, m * n);
    assert |x| / 4 == m * n;
    assert Downsampled(x, n) == t;
    WholeSizesBack(|t|, n, m);
    SpreadThinned(x, n, m * n, m * n);
    assert Silenced(x, n)[..|x|] == Silenced(x, n);
  }

  /** Thinning a restored signal gives it back. */
  lemma DownsampleResample(y: seq<byte>, n: nat, m: nat)
    requires n > 1 && |y| == 4 * (m * (n - 1))
    ensures Downsampled(Resampled(y, n), n) == y
  {
    WholeSizesBack(|y|, n, m);
    var s := Resampled(y, n);
    WholeSizes(|s|, n, m);
    KeptWhole(m, n);
    assert |s| / 4 == m * n;
    assert s == Spread(y, n, m * n);
    ThinnedSpread(y, n, m * n, m * n);
    assert y[..|y|] == y;
  }

  /**
   * At the only rate in use, the write loop stays inside the allocated data exactly for these
   * sizes; twelve octets, for one, do not fit.
   */
  lemma FitsAtEight(size: nat)
    ensures Fits(size, 8) <==> size % 8 < 4 || size % 32 < 8
  {
    hide Kept;
    KeptClosed(size / 4, 8);
    var f := size / 4;
    assert size == 4 * f + size % 4;
    var a, g := f / 8, f % 8;
    assert f == 8 * a + g;
    EighthsFit(size, a, g / 2, g % 2, size % 4);
  }

  lemma EighthsFit(size: nat, a: nat, b: nat, c: nat, d: nat)
    requires size == 32 * a + 8 * b + 4 * c + d && b < 4 && c < 2 && d < 4
    ensures 4 * (size / 4 - (size / 4 + 7) / 8) <= size / 8 * 7 <==> size % 8 < 4 || size % 32 < 8
  {
    var g := 2 * b + c;
    assert size / 4 == 8 * a + g && size / 8 == 4 * a + b;
    assert (size / 4 + 7) / 8 == a + if g == 0 then 0 else 1;
    assert size % 8 == 4 * c + d && size % 32 == 8 * b + 4 * c + d;
  }

  // -- Frame by frame, for every size -----------------------------------------------------

  lemma QuotientOf(n: nat, q: nat, r: nat)
    requires 0 <= r < n
    ensures n * q + r >= 0 && (n * q + r) / n == q && (n * q + r) % n == r
  {
    DivideBy(n * q + r, n, q, r);
  }

  /** Between the dropped frames as many stay as there are frames, less one for each group begun. */
  lemma KeptBetween(i: nat, n: nat)
    requires n > 1 && i % n != 0
    ensures Kept(i, n) == i - i / n - 1
  {
    hide Kept;
    KeptClosed(i, n);
    var q, r := i / n, i % n;
    assert i == n * q + r;
    DivideBy(i + n - 1, n, q + 1, r - 1);
  }

  /** Where the frame that is kept as the k-th comes from. */
  lemma KeptFrom(k: nat, n: nat)
    requires n > 1
    ensures var i := k + k / (n - 1) + 1;
            i % n != 0 && Kept(i, n) == k
  {
    hide Kept;
    var q, r := k / (n - 1), k % (n - 1);
    assert k == (n - 1) * q + r;
    assert k + q + 1 == n * q + (r + 1);
    QuotientOf(n, q, r + 1);
    KeptBetween(k + q + 1, n);
  }

  lemma SpreadAt(y: seq<byte>, n: nat, f: nat, i: nat)
    requires n > 1 && i < f && 4 * Kept(f, n) <= |y|
    ensures i % n == 0 ==> Frame(Spread(y, n, f), i) == Zeros(4)
    ensures i % n != 0 ==>
              var j := i - i / n - 1;
              0 <= j && 4 * j + 4 <= |y| && Frame(Spread(y, n, f), i) == Frame(y, j)
  {
    hide Kept, Spread, Frame, Zeros;
    KeptMonotone(i + 1, f, n);
    SpreadPrefix(y, n, i + 1, f);
    PrefixFrame(Spread(y, n, i + 1), Spread(y, n, f), i);
    if i % n == 0 {
      SpreadDrop(y, n, i);
      AppendedFrame(Spread(y, n, i), Zeros(4), i);
    } else {
      KeptBetween(i, n);
      SpreadKeep(y, n, i);
      AppendedFrame(Spread(y, n, i), Frame(y, Kept(i, n)), i);
    }
  }

  /** A frame in octets, and what is silent. */
  lemma SilentFrame(x: seq<byte>, i: nat)
    requires 4 * i + 4 <= |x| && Frame(x, i) == Zeros(4)
    ensures x[4 * i..4 * i + 4] == [0, 0, 0, 0]
  {
  }

  lemma SameFrame(x: seq<byte>, i: nat, y: seq<byte>, j: nat)
    requires 4 * i + 4 <= |x| && 4 * j + 4 <= |y| && Frame(x, i) == Frame(y, j)
    ensures x[4 * i..4 * i + 4] == y[4 * j..4 * j + 4]
  {
  }

  lemma RestIsSilent(a: seq<byte>, k: nat, i: nat)
    requires |a| <= i < |a| + k
    ensures (a + Zeros(k))[i] == 0
  {
  }

  /** A frame of the restored signal: silent at every n-th place, and between the frames of the data. */
  lemma SpreadFrame(y: seq<byte>, n: nat, f: nat, k: nat, r: seq<byte>, i: nat)
    requires n > 1 && 4 * Kept(f, n) <= |y| && r == Spread(y, n, f) + Zeros(k) && i < f
    ensures i % n == 0 ==> r[4 * i..4 * i + 4] == [0, 0, 0, 0]
    ensures i % n != 0 ==>
              var j := i - i / n - 1;
              0 <= j && 4 * j + 4 <= |y| && r[4 * i..4 * i + 4] == y[4 * j..4 * j + 4]
  {
    hide Kept, Spread, Frame, Zeros;
    SpreadAt(y, n, f, i);
    PrefixFrame(Spread(y, n, f), r, i);
    if i % n == 0 {
      SilentFrame(r, i);
    } else {
      SameFrame(r, i, y, i - i / n - 1);
    }
  }

  /** How long the restored signal is, for every size and every n > 1. */
  lemma ResampledSize(y: seq<byte>, n: nat)
    requires n > 1
    ensures |Resampled(y, n)| == |y| / (n - 1) * n
  {
    hide Resampled;
  }

  /**
   * Resampling in full, for every size and every n > 1: every n-th frame is silent, starting with
   * the first, and the others are those of the data, in order.
   */
  lemma ResampledIs(y: seq<byte>, n: nat, i: nat)
    requires n > 1 && 4 * i + 4 <= |Resampled(y, n)|
    ensures i % n == 0 ==> Resampled(y, n)[4 * i..4 * i + 4] == [0, 0, 0, 0]
    ensures i % n != 0 ==>
              var j := i - i / n - 1;
              0 <= j && 4 * j + 4 <= |y| && Resampled(y, n)[4 * i..4 * i + 4] == y[4 * j..4 * j + 4]
  {
    hide Kept, Spread, Resampled, Zeros, Frame;
    var f, k := ResampledParts(y, n);
    SpreadFrame(y, n, f, k, Resampled(y, n), i);
  }

  /** A rest of less than a frame is silent. */
  lemma ResampledRest(y: seq<byte>, n: nat, t: nat)
    requires n > 1 && t < |Resampled(y, n)| < t / 4 * 4 + 4
    ensures Resampled(y, n)[t] == 0
  {
    hide Kept, Spread, Resampled, Zeros, Frame;
    var f, k := ResampledParts(y, n);
    RestIsSilent(Spread(y, n, f), k, t);
  }

  lemma ResampledParts(y: seq<byte>, n: nat) returns (f: nat, k: nat)
    requires n > 1
    ensures 4 * Kept(f, n) <= |y| && k < 4 && Resampled(y, n) == Spread(y, n, f) + Zeros(k)
  {
    hide Kept, Spread, Zeros, SpreadSize;
    ReadsFit(|y|, n);
    f, k := SpreadSize(|y|, n) / 4, SpreadSize(|y|, n) % 4;
  }

  lemma ThinnedAt(x: seq<byte>, n: nat, f: nat, i: nat)
    requires n > 1 && 4 * f <= |x| && i < f && !Drops(i, n)
    ensures 4 * Kept(i, n) + 4 <= 4 * Kept(f, n)
    ensures Frame(Thinned(x, n, f), Kept(i, n)) == Frame(x, i)
  {
    hide Kept, Thinned, Frame, Drops;
    ThinnedKeep(x, n, i);
    AppendedFrame(Thinned(x, n, i), Frame(x, i), Kept(i, n));
    ThinnedPrefix(x, n, i + 1, f);
    KeptMonotone(i + 1, f, n);
    PrefixFrame(Thinned(x, n, i + 1), Thinned(x, n, f), Kept(i, n));
  }

  /**
   * Downsampling in full: how long it gets; the k-th frame is the one after k others and one dropped
   * for every n-1 of them, and silent when there is none.
   */
  lemma DownsampledIs(x: seq<byte>, n: nat, k: nat)
    requires n > 1
    ensures |Downsampled(x, n)| == |x| / n * (n - 1)
    ensures 4 * k + 4 <= |Downsampled(x, n)| ==>
              var i: nat := k + k / (n - 1) + 1;
              Downsampled(x, n)[4 * k..4 * k + 4] == if 4 * i + 4 <= |x| then x[4 * i..4 * i + 4] else [0, 0, 0, 0]
  {
    hide Kept, Thinned, ThinSize;
    var i, f, size := k + k / (n - 1) + 1, |x| / 4, ThinSize(|x|, n);
    ThinSizeIs(|x|, n);
    KeptFrom(k, n);
    var all := Thinned(x, n, f) + Zeros(size);
    if 4 * k + 4 <= size {
      if i < f {
        ThinnedAt(x, n, f, i);
        PrefixFrame(Thinned(x, n, f), all, k);
      } else {
        KeptMonotone(f, i, n);
        assert 4 * Kept(f, n) <= 4 * k;
      }
      assert Downsampled(x, n)[4 * k..4 * k + 4] == all[4 * k..4 * k + 4];
    }
  }

  lemma ThinSizeIs(size: nat, n: nat)
    requires n > 1
    ensures ThinSize(size, n) == size / n * (n - 1)
  {
  }

  lemma NeverGrows(size: nat, n: nat)
    requires n > 1
    ensures ThinSize(size, n) <= size
  {
    MulOrder(size / n, n - 1, n);
    Quotient(size, n);
  }

  // -- The procedures -----------------------------------------------------------------

  /** Copies one frame; both positions count frames, as the source's 32-bit pointers do. */
  method CopyFrame(data: seq<byte>, from: nat, out: array<byte>, to: nat)
    requires 4 * from + 4 <= |data| && 4 * to + 4 <= out.Length
    modifies out
    ensures out[..] == old(out[..4 * to]) + Frame(data, from) + old(out[4 * to + 4..])
  {
    out[4 * to] := data[4 * from];
    out[4 * to + 1] := data[4 * from + 1];
    out[4 * to + 2] := data[4 * from + 2];
    out[4 * to + 3] := data[4 * from + 3];
  }

  // Writing the next frame into a buffer that is zero from there on.
  lemma NextFrame(done: seq<byte>, frame: seq<byte>, rest: nat)
    requires |frame| == 4 && rest >= 4
    ensures var buf := done + Zeros(rest);
            buf[..|done|] + frame + buf[|done| + 4..] == (done + frame) + Zeros(rest - 4)
  {
  }

  lemma SkipFrame(done: seq<byte>, rest: nat)
    requires rest >= 4
    ensures done + Zeros(rest) == (done + Zeros(4)) + Zeros(rest - 4)
  {
  }

  method Downsample(data: seq<byte>, n: nat) returns (compressed: array<byte>)
    requires n > 1 && |data| < 0x1_0000
    requires Fits(|data|, n)
    ensures compressed[..] == Downsampled(data, n)
  {
    hide Drops, Zeros, Fits, ThinSize, Downsampled, Kept, Thinned, Frame;
    DownsampledShape(data, n);
    var newsize := ThinSize(|data|, n);
    compressed := new byte[newsize](_ => 0);
    var to, from := 0, 0;
    var frames := |data| / 4;
    var i := 0;
    ThinnedStart(data, n);
    assert compressed[..] == [] + Zeros(newsize);
    while i < frames
      invariant 0 <= i <= frames
      invariant from == i && to == Kept(i, n) && 4 * to <= newsize
      invariant compressed[..] == Thinned(data, n, i) + Zeros(newsize - 4 * to)
    {
      KeptMonotone(i + 1, frames, n);
      if Drops(i, n) {
        ThinnedDrop(data, n, i);
        from := from + 1;
      } else {
        ThinnedKeep(data, n, i);
        NextFrame(Thinned(data, n, i), Frame(data, from), newsize - 4 * to);
        CopyFrame(data, from, compressed, to);
        to, from := to + 1, from + 1;
      }
      i := i + 1;
    }
  }

  lemma DownsampledShape(x: seq<byte>, n: nat)
    requires n > 1 && Fits(|x|, n)
    ensures 4 * Kept(|x| / 4, n) <= ThinSize(|x|, n)
    ensures Downsampled(x, n) == Thinned(x, n, |x| / 4) + Zeros(ThinSize(|x|, n) - 4 * Kept(|x| / 4, n))
  {
    hide ThinSize, Kept, Thinned;
  }

  method Resample(data: seq<byte>, n: nat) returns (decompressed: array<byte>)
    requires n > 1 && |data| < 0x1_0000 && SpreadSize(|data|, n) < 0x1_0000
    ensures decompressed[..] == Resampled(data, n)
  {
    hide Drops, Zeros, SpreadSize, Kept, Spread, Frame;
    ReadsFit(|data|, n);
    var newsize := SpreadSize(|data|, n);
    decompressed := new byte[newsize](_ => 0);
    var to, from := 0, 0;
    var frames := newsize / 4;
    var i := 0;
    SpreadStart(data, n);
    assert decompressed[..] == [] + Zeros(newsize);
    while i < frames
      invariant 0 <= i <= frames
      invariant to == i && from == Kept(i, n) && 4 * from <= |data|
      invariant decompressed[..] == Spread(data, n, i) + Zeros(newsize - 4 * to)
    {
      KeptMonotone(i + 1, frames, n);
      if Drops(i, n) {
        SpreadDrop(data, n, i);
        SkipFrame(Spread(data, n, i), newsize - 4 * to);
        to := to + 1;
      } else {
        SpreadKeep(data, n, i);
        NextFrame(Spread(data, n, i), Frame(data, from), newsize - 4 * to);
        CopyFrame(data, from, decompressed, to);
        to, from := to + 1, from + 1;
      }
      i := i + 1;
    }
  }
}
