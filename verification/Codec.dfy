/** The lossy codec as the quality levels compose it (send.c:72-75, receive.c:80-83). */
module Codec {
  import opened Bytes
  import Packing
  import Sampling

  // -- Packet data seen as 16-bit words -------------------------------------------

  /** The eight bits of an octet, from its numeric value, and back. */
  function Bits(b: byte): bv8 {
    if b == 0 then 0 else (Bits(b / 2) << 1) | (if b % 2 == 1 then 1 else 0)
  }

  function Number(b: bv8): byte { b as int }

  lemma NumberOfDouble(b: bv8, low: bv8)
    requires Number(b) < 0x80 && low <= 1
    ensures Number((b << 1) | low) == 2 * Number(b) + (if low == 1 then 1 else 0)
  {
  }

  lemma {:induction false} NumberBits(b: byte)
    ensures Number(Bits(b)) == b
  {
    hide Number;
    NumberOfZero();
    if b > 0 {
      NumberBits(b / 2);
      NumberOfDouble(Bits(b / 2), if b % 2 == 1 then 1 else 0);
    }
  }

  lemma NumberOfZero()
    ensures Number(0) == 0
  {
  }

  lemma NumberInjective(a: bv8, b: bv8)
    requires Number(a) == Number(b)
    ensures a == b
  {
    assert Number(a) as bv8 == a && Number(b) as bv8 == b;
  }

  lemma BitsNumber(b: bv8)
    ensures Bits(Number(b)) == b
  {
    hide Number, Bits;
    NumberBits(Number(b));
    NumberInjective(Bits(Number(b)), b);
  }

  function Word(low: bv8, high: bv8): Packing.word {
    (high as bv16 << 8) | low as bv16
  }

  function Low(w: Packing.word): bv8 { (w & 0xFF) as bv8 }

  function High(w: Packing.word): bv8 { (w >> 8) as bv8 }

  lemma WordParts(low: bv8, high: bv8)
    ensures Low(Word(low, high)) == low && High(Word(low, high)) == high
    ensures Low(Word(low, high) & 0xFFFC) == low & 0xFC && High(Word(low, high) & 0xFFFC) == high
  {
  }

  lemma WordOfParts(w: Packing.word)
    ensures Word(Low(w), High(w)) == w
  {
  }

  /** The words of some data; a last odd octet belongs to none. */
  function Words(x: seq<byte>): (ws: seq<Packing.word>)
    ensures |ws| == |x| / 2
  {
    seq(|x| / 2, i requires 0 <= i < |x| / 2 => Word(Bits(x[2 * i]), Bits(x[2 * i + 1])))
  }

  function Octets(ws: seq<Packing.word>): (x: seq<byte>)
    ensures |x| == 2 * |ws|
  {
    seq(2 * |ws|, i requires 0 <= i < 2 * |ws| =>
      if i % 2 == 0 then Number(Low(ws[i / 2])) else Number(High(ws[i / 2])))
  }

  /** The two octets of the k-th word, and the word of the k-th two octets. */
  lemma OctetsAt(ws: seq<Packing.word>, k: nat)
    requires k < |ws|
    ensures Octets(ws)[2 * k] == Number(Low(ws[k]))
    ensures Octets(ws)[2 * k + 1] == Number(High(ws[k]))
  {
    hide Low, High, Number;
    assert (2 * k) / 2 == k && (2 * k + 1) / 2 == k;
  }

  lemma WordsOctets(ws: seq<Packing.word>)
    ensures Words(Octets(ws)) == ws
  {
    hide Octets, Word, Low, High, Bits, Number;
    forall k | 0 <= k < |ws|
      ensures Words(Octets(ws))[k] == ws[k]
    {
      OctetsAt(ws, k);
      BitsNumber(Low(ws[k]));
      BitsNumber(High(ws[k]));
      WordOfParts(ws[k]);
    }
  }

  lemma OctetsWords(x: seq<byte>)
    requires |x| % 2 == 0
    ensures Octets(Words(x)) == x
  {
    hide Octets, Word, Low, High, Bits, Number;
    forall k | 0 <= k < |x| / 2
      ensures Octets(Words(x))[2 * k] == x[2 * k] && Octets(Words(x))[2 * k + 1] == x[2 * k + 1]
    {
      OctetsAt(Words(x), k);
      WordParts(Bits(x[2 * k]), Bits(x[2 * k + 1]));
      NumberBits(x[2 * k]);
      NumberBits(x[2 * k + 1]);
    }
    ByPairs(Octets(Words(x)), x);
  }

  lemma ByPairs(x: seq<byte>, y: seq<byte>)
    requires |x| == |y| && |x| % 2 == 0
    requires forall k :: 0 <= k < |x| / 2 ==> x[2 * k] == y[2 * k] && x[2 * k + 1] == y[2 * k + 1]
    ensures x == y
  {
    forall i | 0 <= i < |x|
      ensures x[i] == y[i]
    {
      var k := i / 2;
      assert i == 2 * k || i == 2 * k + 1;
    }
  }

  // -- Dropping two bits of every word -------------------------------------------

  /** The octet without its two low bits. */
  function Trim(b: byte): byte {
    Number(Bits(b) & 0xFC)
  }

  lemma TrimFacts(b: byte)
    ensures Trim(Trim(b)) == Trim(b) && Trim(0) == 0
  {
    BitsNumber(Bits(b) & 0xFC);
    NumberOfZero();
  }

  /** Every word without its two low bits: low octets are trimmed, high ones stay. */
  function Trimmed(x: seq<byte>): (t: seq<byte>)
    ensures |t| == |x|
  {
    seq(|x|, i requires 0 <= i < |x| => if i % 2 == 0 then Trim(x[i]) else x[i])
  }

  lemma TrimmedAt(x: seq<byte>, k: nat)
    requires 2 * k + 1 < |x|
    ensures Trimmed(x)[2 * k] == Trim(x[2 * k])
    ensures Trimmed(x)[2 * k + 1] == x[2 * k + 1]
  {
    hide Trim;
  }

  lemma OctetsMasked(x: seq<byte>)
    requires |x| % 2 == 0
    ensures Octets(Packing.Masked(Words(x))) == Trimmed(x)
  {
    hide Octets, Word, Low, High, Bits, Number, Trim, Trimmed, Packing.Masked;
    var m := Packing.Masked(Words(x));
    forall k | 0 <= k < |x| / 2
      ensures Octets(m)[2 * k] == Trimmed(x)[2 * k] && Octets(m)[2 * k + 1] == Trimmed(x)[2 * k + 1]
    {
      OctetsAt(m, k);
      TrimmedAt(x, k);
      WordParts(Bits(x[2 * k]), Bits(x[2 * k + 1]));
      NumberBits(x[2 * k + 1]);
      TrimIs(x[2 * k]);
      assert m[k] == Words(x)[k] & 0xFFFC;
    }
    ByPairs(Octets(m), Trimmed(x));
  }

  lemma TrimIs(b: byte)
    ensures Trim(b) == Number(Bits(b) & 0xFC)
  {
  }

  function Compressed(x: seq<byte>): (y: seq<byte>) {
    Octets(Packing.Compress(Words(x)))
  }

  function Decompressed(y: seq<byte>): (x: seq<byte>) {
    Octets(Packing.Decompress(Words(y)))
  }

  lemma CompressedSizes(x: seq<byte>)
    ensures |Compressed(x)| == |x| / 16 * 14
    ensures |Decompressed(x)| == |x| / 14 * 16
  {
    hide Octets, Words, Packing.Compress, Packing.Decompress;
    assert |x| / 2 / 8 == |x| / 16 && |x| / 2 / 7 == |x| / 14;
  }

  /** Unpacking packed data gives the whole 16-octet groups back with two bits of every word cleared. */
  lemma DecompressCompress(x: seq<byte>)
    ensures Decompressed(Compressed(x)) == Trimmed(x[..|x| / 16 * 16])
  {
    hide Octets, Words, Trimmed, Packing.Compress, Packing.Decompress, Packing.Masked;
    var n := |x| / 16 * 16;
    WholeGroups(|x|);
    WordsOctets(Packing.Compress(Words(x)));
    Packing.DecompressCompress(Words(x));
    WordsTake(x, n);
    OctetsMasked(x[..n]);
  }

  lemma WholeGroups(size: nat)
    ensures var n := size / 16 * 16;
            n <= size && n % 2 == 0 && size / 2 / 8 * 8 == n / 2
  {
  }

  lemma WordsTake(x: seq<byte>, n: nat)
    requires n <= |x| && n % 2 == 0
    ensures Words(x)[..n / 2] == Words(x[..n])
  {
    hide Word, Bits;
  }

  /** Packing unpacked data gives it back. */
  lemma CompressDecompress(y: seq<byte>)
    requires |y| % 14 == 0
    ensures Compressed(Decompressed(y)) == y
  {
    hide Octets, Words, Packing.Compress, Packing.Decompress;
    assert |y| / 2 % 7 == 0;
    WordsOctets(Packing.Decompress(Words(y)));
    Packing.CompressDecompress(Words(y));
    OctetsWords(y);
  }

  // -- The quality levels ---------------------------------------------------------

  /** The rate of downsampling: one frame in eight goes. */
  const RATE := 8

  predicate SuggestsDownsampling(quality: int) { quality == 1 }

  predicate SuggestsCompression(quality: int) { quality <= 2 }

  /** What the server puts into a packet. */
  function Encode(quality: int, x: seq<byte>): (y: seq<byte>) {
    var thinned := if SuggestsDownsampling(quality) then Sampling.Downsampled(x, RATE) else x;
    if SuggestsCompression(quality) then Compressed(thinned) else thinned
  }

  /** What the client stores of a packet. */
  function Decode(quality: int, y: seq<byte>): (x: seq<byte>) {
    var unpacked := if SuggestsCompression(quality) then Decompressed(y) else y;
    if SuggestsDownsampling(quality) then Sampling.Resampled(unpacked, RATE) else unpacked
  }

  /** The sound a quality level preserves. */
  function Heard(quality: int, x: seq<byte>): (h: seq<byte>)
    ensures |h| == |x|
  {
    var silenced := if SuggestsDownsampling(quality) then Sampling.Silenced(x, RATE) else x;
    if SuggestsCompression(quality) then Trimmed(silenced) else silenced
  }

  lemma TrimmedConcat(a: seq<byte>, b: seq<byte>, h: nat)
    requires |a| == 2 * h
    ensures Trimmed(a + b) == Trimmed(a) + Trimmed(b)
  {
    hide Trim;
  }

  /** Trimming commutes with putting the silent frames back. */
  lemma {:induction false} SpreadTrimmed(y: seq<byte>, n: nat, f: nat)
    requires n > 1 && 4 * Sampling.Kept(f, n) <= |y|
    ensures Sampling.Spread(Trimmed(y), n, f) == Trimmed(Sampling.Spread(y, n, f))
  {
    hide Trim, Trimmed, Zeros, Sampling.Drops, Sampling.Kept, Sampling.Spread;
    if f == 0 {
      Sampling.SpreadStart(y, n);
      Sampling.SpreadStart(Trimmed(y), n);
    } else {
      Sampling.KeptMonotone(f - 1, f, n);
      SpreadTrimmed(y, n, f - 1);
      if Sampling.Drops(f - 1, n) {
        Sampling.SpreadDrop(y, n, f - 1);
        Sampling.SpreadDrop(Trimmed(y), n, f - 1);
        TrimmedZeros(4);
        TrimmedConcat(Sampling.Spread(y, n, f - 1), Zeros(4), 2 * (f - 1));
      } else {
        Sampling.SpreadKeep(y, n, f - 1);
        Sampling.SpreadKeep(Trimmed(y), n, f - 1);
        TrimmedSlice(y, Sampling.Kept(f - 1, n));
        TrimmedConcat(Sampling.Spread(y, n, f - 1), Sampling.Frame(y, Sampling.Kept(f - 1, n)), 2 * (f - 1));
      }
    }
  }

  lemma TrimmedZeros(n: nat)
    ensures Trimmed(Zeros(n)) == Zeros(n)
  {
    hide Trim;
    TrimFacts(0);
  }

  lemma TrimmedSlice(y: seq<byte>, k: nat)
    requires 4 * k + 4 <= |y|
    ensures Sampling.Frame(Trimmed(y), k) == Trimmed(Sampling.Frame(y, k))
  {
    hide Trim;
    forall i | 0 <= i < 4
      ensures Sampling.Frame(Trimmed(y), k)[i] == Trimmed(Sampling.Frame(y, k))[i]
    {
      SameParity(k, i);
    }
  }

  lemma SameParity(k: nat, i: nat)
    ensures (4 * k + i) % 2 == i % 2
  {
    assert 4 * k + i == 2 * (2 * k) + i;
  }

  /**
   * Every quality level restores the length of the data; level 1 silences every eighth frame,
   * levels 1 and 2 clear two bits of every word, levels 3 to 5 lose nothing.
   */
  lemma CodecRoundTrip(quality: int, x: seq<byte>)
    requires |x| % 128 == 0
    ensures Decode(quality, Encode(quality, x)) == Heard(quality, x)
  {
    if SuggestsDownsampling(quality) {
      LevelOne(x);
    } else if SuggestsCompression(quality) {
      CompressWhole(x);
    }
  }

  /** Data without what packing drops: an incomplete group at its end, and two bits of every word. */
  function Packable(x: seq<byte>): (p: seq<byte>)
    ensures |p| <= |x|
  {
    Trimmed(x[..|x| / 16 * 16])
  }

  /**
   * What a level preserves of any number of octets, as at the end of the music: nothing is lost at
   * levels 3 to 5, an incomplete group and two bits of every word at level 2, and at level 1 the
   * same from the thinned signal.
   */
  function Preserved(quality: int, x: seq<byte>): (p: seq<byte>) {
    if SuggestsDownsampling(quality) then Sampling.Resampled(Packable(Sampling.Downsampled(x, RATE)), RATE)
    else if SuggestsCompression(quality) then Packable(x)
    else x
  }

  lemma PreservedIs(quality: int, x: seq<byte>)
    ensures Decode(quality, Encode(quality, x)) == Preserved(quality, x)
    ensures |Preserved(quality, x)| <= |x|
  {
    hide Compressed, Decompressed, Sampling.Downsampled, Sampling.Resampled, Trimmed;
    DecodeFits(quality, x);
    DecompressCompress(x);
    DecompressCompress(Sampling.Downsampled(x, RATE));
  }

  lemma CompressWhole(x: seq<byte>)
    requires |x| % 16 == 0
    ensures Decompressed(Compressed(x)) == Trimmed(x)
  {
    hide Trimmed, Compressed, Decompressed;
    DecompressCompress(x);
    assert x[..|x| / 16 * 16] == x;
  }

  lemma LevelOne(x: seq<byte>)
    requires |x| % 128 == 0
    ensures Sampling.Resampled(Decompressed(Compressed(Sampling.Downsampled(x, RATE))), RATE)
         == Trimmed(Sampling.Silenced(x, RATE))
  {
    hide Trimmed, Compressed, Decompressed, Sampling.Downsampled, Sampling.Resampled, Sampling.Silenced;
    hide Sampling.ThinSize, Sampling.SpreadSize, Sampling.Fits;
    LevelOneThinned(x);
    var t := Sampling.Downsampled(x, RATE);
    CompressWhole(t);
    ResampleTrimmed(t, RATE);
  }

  lemma LevelOneThinned(x: seq<byte>)
    requires |x| % 128 == 0
    ensures |Sampling.Downsampled(x, RATE)| % 16 == 0
    ensures Sampling.Resampled(Sampling.Downsampled(x, RATE), RATE) == Sampling.Silenced(x, RATE)
  {
    hide Sampling.Downsampled, Sampling.Resampled, Sampling.Silenced, Sampling.Fits, Sampling.Kept;
    var k := |x| / 128;
    assert |x| == 4 * (4 * k * RATE);
    Sampling.ResampleDownsample(x, RATE, 4 * k);
    assert Sampling.ThinSize(|x|, RATE) == 112 * k;
    MultipleOf16(|Sampling.Downsampled(x, RATE)|, k);
  }

  lemma MultipleOf16(size: nat, k: nat)
    requires size == 112 * k
    ensures size % 16 == 0
  {
    assert size == 16 * (7 * k);
  }

  lemma ResampleTrimmed(y: seq<byte>, n: nat)
    requires n > 1
    ensures Sampling.Resampled(Trimmed(y), n) == Trimmed(Sampling.Resampled(y, n))
  {
    hide Trim, Trimmed, Sampling.Kept, Sampling.Spread, Sampling.SpreadSize;
    Sampling.ReadsFit(|y|, n);
    var size := Sampling.SpreadSize(|y|, n);
    SpreadTrimmed(y, n, size / 4);
    TrimmedZeros(size % 4);
    TrimmedConcat(Sampling.Spread(y, n, size / 4), Zeros(size % 4), 2 * (size / 4));
  }

  // -- The levels one by one ----------------------------------------------------------

  lemma Halved(b: byte)
    ensures Bits(b) == (Bits(b / 2) << 1) | (if b % 2 == 1 then 1 else 0)
  {
    assert Bits(0) == 0;
  }

  lemma TwoLowBits(b: bv8, high: bv8, low: bv8)
    requires high <= 1 && low <= 1
    ensures (((((b << 1) | high) << 1) | low) & 0xFC) == ((b << 1) << 1)
  {
  }

  function FourBelow(b: byte): (r: byte)
    ensures r % 4 == 0 && r <= b <= r + 3
  {
    b / 4 * 4
  }

  /** Without its two low bits an octet is the multiple of four below it. */
  lemma TrimIsNumber(b: byte)
    ensures Trim(b) == FourBelow(b)
  {
    hide Number, Bits;
    var q := b / 4;
    Halved(b);
    Halved(b / 2);
    assert b / 2 / 2 == q;
    TwoLowBits(Bits(q), if b / 2 % 2 == 1 then 1 else 0, if b % 2 == 1 then 1 else 0);
    NumberBits(q);
    NumberOfDouble(Bits(q), 0);
    NumberOfDouble(Bits(q) << 1, 0);
    assert Bits(q) << 1 == (Bits(q) << 1) | 0;
    assert (Bits(q) << 1) << 1 == ((Bits(q) << 1) << 1) | 0;
  }

  lemma TrimmedIs(x: seq<byte>, t: nat)
    requires t < |x|
    ensures Trimmed(x)[t] == if t % 2 == 0 then FourBelow(x[t]) else x[t]
  {
    hide Trim;
    TrimIsNumber(x[t]);
  }

  /** Levels 3 to 5 change nothing. */
  lemma LevelsThreeToFive(quality: int, x: seq<byte>)
    requires 3 <= quality <= 5
    ensures Encode(quality, x) == x && Decode(quality, x) == x
  {
  }

  /** Level 2 sends fourteen octets for sixteen, and clears two bits of every low octet. */
  lemma LevelTwo(x: seq<byte>, t: nat)
    ensures |Encode(2, x)| == |x| / 16 * 14 && |Decode(2, Encode(2, x))| == |x| / 16 * 16
    ensures |Decode(2, Encode(2, x))| <= |x|
    ensures t < |Decode(2, Encode(2, x))| ==>
              Decode(2, Encode(2, x))[t] == if t % 2 == 0 then FourBelow(x[t]) else x[t]
  {
    hide Compressed, Decompressed, Trimmed, FourBelow;
    CompressedSizes(x);
    DecompressCompress(x);
    DecodeFits(2, x);
    var n := |x| / 16 * 16;
    if t < n {
      TrimmedIs(x[..n], t);
    }
  }

  /**
   * Level 1 thins by one frame in eight and packs the rest: how much is sent, how much comes out,
   * and each octet of it. Frames 0, 8, 16 and so on are silent, and so is a frame that was not there
   * in full; of the others two bits of every low octet are cleared.
   */
  lemma LevelOneIs(x: seq<byte>, t: nat)
    ensures |Encode(1, x)| == |x| / 8 * 7 / 16 * 14
    ensures |Decode(1, Encode(1, x))| == |x| / 8 * 7 / 16 * 16 / 7 * 8
    ensures |Decode(1, Encode(1, x))| <= |x|
    ensures t < |Decode(1, Encode(1, x))| ==>
              Decode(1, Encode(1, x))[t]
              == if t / 4 % 8 == 0 || t / 4 * 4 + 4 > |x| then 0
                 else if t % 2 == 0 then FourBelow(x[t]) else x[t]
  {
    hide Encode, Decode, Trimmed, Sampling.Downsampled, Sampling.Resampled, FourBelow;
    LevelOneSizes(x);
    var d := Sampling.Downsampled(x, 8);
    var n := |d| / 16 * 16;
    var p := Trimmed(d[..n]);
    var i, b := t / 4, t % 4;
    var y := Sampling.Resampled(p, 8);
    Sampling.ResampledSize(p, 8);
    assert t == 4 * i + b;
    if t < |y| {
      WholeFrames(|p| / 7, t);
      Sampling.ResampledIs(p, 8, i);
      FrameOctet(y, i, b);
      if i % 8 != 0 {
        var j := i - i / 8 - 1;
        BackAgain(i);
        Sampling.DownsampledIs(x, 8, j);
        FrameOctet(p, j, b);
        TrimmedFrame(x, d, n, i, j, b);
      }
    }
  }

  /**
   * Packets of whole groups, by level: how much is sent for them, and every octet that comes out.
   */
  lemma WholePacket(x: seq<byte>, t: nat)
    requires |x| % 128 == 0 && t < |x|
    ensures |Encode(1, x)| == |x| / 128 * 98 && |Decode(1, Encode(1, x))| == |x|
    ensures Decode(1, Encode(1, x))[t]
         == if t / 4 % 8 == 0 then 0 else if t % 2 == 0 then FourBelow(x[t]) else x[t]
    ensures |Encode(2, x)| == |x| / 8 * 7 && |Decode(2, Encode(2, x))| == |x|
    ensures Decode(2, Encode(2, x))[t] == if t % 2 == 0 then FourBelow(x[t]) else x[t]
    ensures forall q :: 3 <= q <= 5 ==> Encode(q, x) == Decode(q, x) == x
  {
    hide Encode, Decode, FourBelow;
    LevelOneIs(x, t);
    LevelTwo(x, t);
    forall q | 3 <= q <= 5
      ensures Encode(q, x) == Decode(q, x) == x
    {
      LevelsThreeToFive(q, x);
    }
    WholeGroupSizes(|x|, |x| / 128);
    WholeFrames(16 * (|x| / 128), t);
  }

  lemma WholeGroupSizes(size: nat, k: nat)
    requires size == 128 * k
    ensures size / 8 * 7 == 112 * k && size / 16 * 16 == size && size / 16 * 14 == 112 * k
    ensures size / 8 * 7 / 16 * 14 == 98 * k && size / 8 * 7 / 16 * 16 / 7 * 8 == size
  {
    Multiples(size, k);
    Multiples112(112 * k, k);
  }

  lemma Multiples(size: nat, k: nat)
    requires size == 128 * k
    ensures size / 8 == 16 * k && size / 16 == 8 * k
  {
  }

  lemma Multiples112(size: nat, k: nat)
    requires size == 112 * k
    ensures size / 16 == 7 * k && size / 7 == 16 * k
  {
  }

  lemma LevelOneSizes(x: seq<byte>)
    ensures |Encode(1, x)| == |x| / 8 * 7 / 16 * 14
    ensures |Decode(1, Encode(1, x))| == |x| / 8 * 7 / 16 * 16 / 7 * 8
    ensures |Decode(1, Encode(1, x))| <= |x|
    ensures var d := Sampling.Downsampled(x, 8);
            && |d| == |x| / 8 * 7
            && Decode(1, Encode(1, x)) == Sampling.Resampled(Trimmed(d[..|d| / 16 * 16]), 8)
  {
    hide Compressed, Decompressed, Trimmed, Sampling.Downsampled, Sampling.Resampled;
    DecodeFits(1, x);
    var d := Sampling.Downsampled(x, 8);
    Sampling.DownsampledIs(x, 8, 0);
    CompressedSizes(d);
    DecompressCompress(d);
    Sampling.ResampledSize(Trimmed(d[..|d| / 16 * 16]), 8);
  }

  /** Octet b of a thinned frame after trimming, from the frame it was. */
  lemma TrimmedFrame(x: seq<byte>, d: seq<byte>, n: nat, i: nat, j: nat, b: nat)
    requires b < 4 && 4 * j + 4 <= n <= |d|
    requires d[4 * j..4 * j + 4] == if 4 * i + 4 <= |x| then x[4 * i..4 * i + 4] else [0, 0, 0, 0]
    ensures Trimmed(d[..n])[4 * j + b]
         == if 4 * i + 4 > |x| then 0
            else if (4 * i + b) % 2 == 0 then FourBelow(x[4 * i + b]) else x[4 * i + b]
  {
    hide Trimmed;
    TrimmedIs(d[..n], 4 * j + b);
    SameParity(j, b);
    SameParity(i, b);
    assert d[4 * j..4 * j + 4][b] == d[..n][4 * j + b];
    assert 4 * i + 4 <= |x| ==> x[4 * i..4 * i + 4][b] == x[4 * i + b];
  }

  lemma FrameOctet(x: seq<byte>, i: nat, b: nat)
    requires b < 4 && 4 * i + 4 <= |x|
    ensures x[4 * i..4 * i + 4][b] == x[4 * i + b]
  {
  }

  lemma WholeFrames(n: nat, t: nat)
    requires t < n * 8
    ensures t / 4 * 4 + 4 <= n * 8
  {
  }

  /** A frame that is kept finds back to its place. */
  lemma BackAgain(i: nat)
    requires i % 8 != 0
    ensures var j := i - i / 8 - 1;
            j >= 0 && j + j / 7 + 1 == i
  {
  }

  /** A second pass through the codec changes nothing. */
  lemma HeardTwice(quality: int, x: seq<byte>)
    ensures Heard(quality, Heard(quality, x)) == Heard(quality, x)
  {
    hide Trim, Sampling.Drops;
    TrimFacts(0);
    forall i | 0 <= i < |x|
      ensures Trim(Trim(x[i])) == Trim(x[i])
    {
      TrimFacts(x[i]);
    }
  }

  /** What is decoded never exceeds what was encoded, so a packet fills at most its own place. */
  lemma DecodeFits(quality: int, x: seq<byte>)
    ensures |Encode(quality, x)| <= |x|
    ensures |Decode(quality, Encode(quality, x))| <= |x|
  {
    hide Compressed, Decompressed, Sampling.Downsampled, Sampling.Resampled;
    CompressedSizes(x);
    var t := Sampling.Downsampled(x, RATE);
    CompressedSizes(t);
    CompressedSizes(Compressed(x));
    CompressedSizes(Compressed(t));
  }

  // -- The procedures ----------------------------------------------------------------

  /** What the server does to a chunk before it is sent, by quality. */
  method EncodeData(quality: int, data: seq<byte>) returns (encoded: seq<byte>)
    requires |data| < 0x1_0000
    requires SuggestsDownsampling(quality) ==> Sampling.Fits(|data|, RATE)
    ensures encoded == Encode(quality, data)
  {
    hide Sampling.Downsampled, Sampling.Fits, Sampling.ThinSize, Words, Octets, Packing.Compress;
    encoded := data;
    if SuggestsDownsampling(quality) {
      Sampling.NeverGrows(|data|, RATE);
      var thinned := Sampling.Downsample(encoded, RATE);
      encoded := thinned[..];
    }
    if SuggestsCompression(quality) {
      var packed, _ := Packing.CompressData(Words(encoded), |encoded|);
      encoded := Octets(packed[..]);
    }
  }

  /** What the client does to the data of a music packet before it is stored, by quality. */
  method DecodeData(quality: int, data: seq<byte>) returns (decoded: seq<byte>)
    requires |data| < 0x1_0000
    requires SuggestsCompression(quality) ==> |data| / 14 * 16 < 0x1_0000
    requires SuggestsDownsampling(quality) ==> Sampling.SpreadSize(|data| / 14 * 16, RATE) < 0x1_0000
    ensures decoded == Decode(quality, data)
  {
    hide Sampling.Resampled, Sampling.SpreadSize, Words, Octets, Packing.Decompress;
    decoded := data;
    if SuggestsCompression(quality) {
      var unpacked, _ := Packing.DecompressData(Words(decoded), |decoded|);
      decoded := Octets(unpacked[..]);
    }
    if SuggestsDownsampling(quality) {
      var restored := Sampling.Resample(decoded, RATE);
      decoded := restored[..];
    }
  }
}
