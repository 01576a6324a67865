/** The 16-bit Fletcher checksum of src/communication/checksums/checksum.c. */
module Fletcher {
  import opened Bytes

  // The accumulators of the source. Every assignment to one carries the proof
  // obligation that it stays within 16 bits.
  newtype uint16 = x: int | 0 <= x < 0x1_0000

  // -- What the checksum means: the plain sum and the sum of the running sums --

  function Sum(data: seq<byte>): nat {
    if data == [] then 0 else Sum(data[..|data| - 1]) + data[|data| - 1]
  }

  function DoubleSum(data: seq<byte>): nat {
    if data == [] then 0 else DoubleSum(data[..|data| - 1]) + Sum(data)
  }

  /** The representative modulo 255 that the ones-complement additions settle on. */
  function Canonical(x: nat): (r: nat)
    ensures 1 <= r <= 255
    ensures r % 255 == x % 255
  {
    if x % 255 == 0 then 255 else x % 255
  }

  function Checksum(data: seq<byte>): (c: int)
    ensures 0 <= c < 0x1_0000
    ensures 1 <= c % 256 && 1 <= c / 256
  {
    Canonical(DoubleSum(data)) * 256 + Canonical(Sum(data))
  }

  lemma SumStep(data: seq<byte>, i: nat)
    requires i < |data|
    ensures Sum(data[..i + 1]) == Sum(data[..i]) + data[i]
    ensures DoubleSum(data[..i + 1]) == DoubleSum(data[..i]) + Sum(data[..i + 1])
  {
    assert data[..i + 1][..i] == data[..i];
  }

  // -- The same sums in closed form, from the front -------------------------------

  function Plain(data: seq<byte>): nat {
    if data == [] then 0 else data[0] + Plain(data[1..])
  }

  /** Every octet weighted by its distance from the end: the first by the length, the last by one. */
  function Weighted(data: seq<byte>): nat {
    if data == [] then 0 else |data| * data[0] + Weighted(data[1..])
  }

  lemma {:induction false} SumsAppend(data: seq<byte>, b: byte)
    ensures Plain(data + [b]) == Plain(data) + b
    ensures Weighted(data + [b]) == Weighted(data) + Plain(data) + b
  {
    if data == [] {
      assert data + [b] == [b] && [b][1..] == [];
    } else {
      assert (data + [b])[1..] == data[1..] + [b];
      SumsAppend(data[1..], b);
      assert (|data| + 1) * data[0] == |data| * data[0] + data[0];
    }
  }

  lemma {:induction false} SumsAre(data: seq<byte>)
    ensures Sum(data) == Plain(data) && DoubleSum(data) == Weighted(data)
  {
    if data != [] {
      var n := |data| - 1;
      SumsAre(data[..n]);
      SumsAppend(data[..n], data[n]);
      assert data[..n] + [data[n]] == data;
    }
  }

  /** The plain sum modulo 255 in the low octet, the weighted one in the high octet, with 255 for zero. */
  ghost predicate IsChecksum(c: int, data: seq<byte>) {
    var low, high := c % 256, c / 256;
    && 1 <= low <= 255 && low % 255 == Plain(data) % 255
    && 1 <= high <= 255 && high % 255 == Weighted(data) % 255
  }

  lemma ChecksumIs(data: seq<byte>)
    ensures IsChecksum(Checksum(data), data)
  {
    hide Sum, DoubleSum, Plain, Weighted;
    SumsAre(data);
    HighLow(Canonical(DoubleSum(data)), Canonical(Sum(data)));
  }

  lemma HighLow(high: int, low: int)
    requires 0 <= low < 256
    ensures (high * 256 + low) % 256 == low && (high * 256 + low) / 256 == high
  {
  }

  // -- The blocked loop ---------------------------------------------------------

  /** One end-around carry: keeps the residue and the sign, and shrinks the value. */
  function Fold(s: uint16): (r: uint16)
    ensures r as int == s as int % 256 + s as int / 256
    ensures r as int % 255 == s as int % 255
    ensures s > 0 ==> r > 0
    ensures s <= 5375 ==> r <= 275
    ensures s <= 59537 ==> r <= 487
  {
    s % 256 + s / 256
  }

  /** Largest value of the first accumulator after k octets of a block. */
  function Limit1(k: nat): nat {
    275 + 255 * k
  }

  /** Largest value of the second accumulator after k octets of a block. */
  function Limit2(k: nat): nat {
    if k == 0 then 487 else Limit2(k - 1) + Limit1(k)
  }

  lemma {:induction false} LimitsFit(k: nat)
    requires k <= 20
    ensures Limit1(k) <= 5375 && Limit2(k) <= Limit2(20) == 59537
    decreases 20 - k
  {
    if k < 20 {
      LimitsFit(k + 1);
    } else {
      assert Limit2(5) == 5687 && Limit2(10) == 17262 && Limit2(15) == 35212;
    }
  }

  lemma AddCongruent(a: int, b: int, c: int, d: int)
    requires a % 255 == b % 255 && c % 255 == d % 255
    ensures (a + c) % 255 == (b + d) % 255
  {
  }

  /** What both loops keep: the accumulators are positive and congruent to the true sums. */
  ghost predicate Tracks(sum1: uint16, sum2: uint16, done: seq<byte>) {
    && 0 < sum1 && sum1 as int % 255 == Sum(done) % 255
    && 0 < sum2 && sum2 as int % 255 == DoubleSum(done) % 255
  }

  lemma TracksStep(sum1: uint16, sum2: uint16, data: seq<byte>, i: nat)
    requires i < |data|
    requires Tracks(sum1, sum2, data[..i])
    requires sum1 as int + data[i] < 0x1_0000 && sum2 as int + sum1 as int + data[i] < 0x1_0000
    ensures Tracks(sum1 + data[i] as uint16, sum2 + (sum1 + data[i] as uint16), data[..i + 1])
  {
    SumStep(data, i);
    AddCongruent(sum1 as int, Sum(data[..i]), data[i], data[i]);
    AddCongruent(sum2 as int, DoubleSum(data[..i]), sum1 as int + data[i], Sum(data[..i + 1]));
  }

  /**
   * The blocked sum: twenty octets between two reductions, 16-bit accumulators.
   */
  method Generate16(data: seq<byte>) returns (checksum: uint16)
    requires |data| < 0x1_0000
    ensures checksum as int == Checksum(data)
    ensures IsChecksum(checksum as int, data)
  {
    hide IsChecksum;
    var size := |data| as uint16;
    var pointer := 0;
    var sum1: uint16, sum2: uint16 := 0xff, 0xff;
    while size != 0
      invariant pointer + size as int == |data|
      invariant sum1 <= 275 && sum2 <= 487
      invariant Tracks(sum1, sum2, data[..pointer])
    {
      var tlen: uint16 := if size > 20 then 20 else size;
      size := size - tlen;
      ghost var k := 0;
      while tlen != 0
        invariant k + tlen as int <= 20
        invariant pointer + tlen as int + size as int == |data|
        invariant sum1 as int <= Limit1(k) && sum2 as int <= Limit2(k)
        invariant Tracks(sum1, sum2, data[..pointer])
      {
        LimitsFit(k + 1);
        TracksStep(sum1, sum2, data, pointer);
        sum1 := sum1 + data[pointer] as uint16;
        sum2 := sum2 + sum1;
        pointer, tlen, k := pointer + 1, tlen - 1, k + 1;
      }
      LimitsFit(k);
      sum1 := Fold(sum1);
      sum2 := Fold(sum2);
    }
    assert data[..pointer] == data;
    FoldIsCanonical(sum1, Sum(data));
    FoldIsCanonical(sum2, DoubleSum(data));
    sum1 := Fold(sum1);
    sum2 := Fold(sum2);
    checksum := sum2 * 256 + sum1;
    ChecksumIs(data);
  }

  lemma FoldIsCanonical(s: uint16, x: nat)
    requires 0 < s <= 487 && s as int % 255 == x % 255
    ensures Fold(s) as int == Canonical(x)
  {
  }

  // -- What the checksum detects ------------------------------------------------

  lemma {:induction false} SumUpdate(data: seq<byte>, i: nat, v: byte)
    requires i < |data|
    ensures Sum(data[i := v]) == Sum(data) + v - data[i]
    ensures DoubleSum(data[i := v]) == DoubleSum(data) + (|data| - i) * (v - data[i])
  {
    hide Sum, DoubleSum;
    var n := |data| - 1;
    LastOf(data);
    LastOf(data[i := v]);
    var delta: int := v - data[i];
    if i < n {
      assert data[i := v][..n] == data[..n][i := v];
      SumUpdate(data[..n], i, v);
      OnceMore(n - i, delta);
    } else {
      assert data[i := v][..n] == data[..n];
    }
  }

  lemma LastOf(data: seq<byte>)
    requires data != []
    ensures var n := |data| - 1;
            && Sum(data) == Sum(data[..n]) + data[n]
            && DoubleSum(data) == DoubleSum(data[..n]) + Sum(data)
  {
  }

  lemma OnceMore(k: int, delta: int)
    ensures (k + 1) * delta == k * delta + delta
  {
  }

  lemma ChecksumsAgree(a: seq<byte>, b: seq<byte>)
    ensures Checksum(a) == Checksum(b) <==>
            Sum(a) % 255 == Sum(b) % 255 && DoubleSum(a) % 255 == DoubleSum(b) % 255
  {
    hide Sum, DoubleSum;
    var c1, c2, d1, d2 := Canonical(Sum(a)), Canonical(DoubleSum(a)), Canonical(Sum(b)), Canonical(DoubleSum(b));
    if c2 * 256 + c1 == d2 * 256 + d1 {
      assert c1 == d1 && c2 == d2;
    }
  }

  /** Replacing one octet goes unnoticed exactly when it trades 0x00 for 0xff or changes nothing. */
  lemma OneOctetUndetected(data: seq<byte>, i: nat, v: byte)
    requires i < |data|
    ensures Checksum(data[i := v]) == Checksum(data)
       <==> v == data[i] || (v == 0 && data[i] == 255) || (v == 255 && data[i] == 0)
  {
    hide Sum, DoubleSum, Checksum;
    SumUpdate(data, i, v);
    ChecksumsAgree(data[i := v], data);
    var before: int, after: int := data[i], v;
    Residues(Sum(data), DoubleSum(data), after - before, |data| - i);
  }

  lemma Residues(s1: int, s2: int, delta: int, k: int)
    requires -255 <= delta <= 255
    ensures (s1 + delta) % 255 == s1 % 255 && (s2 + k * delta) % 255 == s2 % 255
       <==> delta == 0 || delta == 255 || delta == -255
  {
    if delta == 255 {
      assert k * delta == 255 * k;
    } else if delta == -255 {
      assert k * delta == 255 * -k;
    }
  }

  /** Two octets in each other's place go unnoticed exactly when 255 divides distance times difference. */
  lemma ExchangeUndetected(data: seq<byte>, i: nat, j: nat)
    requires i < j < |data|
    ensures Checksum(data[i := data[j]][j := data[i]]) == Checksum(data)
       <==> ((j - i) * (data[j] as int - data[i] as int)) % 255 == 0
  {
    hide Sum, DoubleSum, Checksum;
    var once := data[i := data[j]];
    var twice := once[j := data[i]];
    var delta := data[j] as int - data[i] as int;
    SumUpdate(data, i, data[j]);
    SumUpdate(once, j, data[i]);
    Distribute(|data|, i, j, delta);
    ChecksumsAgree(twice, data);
    Difference(DoubleSum(twice), DoubleSum(data), (j - i) * delta);
  }

  lemma Distribute(n: int, i: int, j: int, delta: int)
    ensures (n - i) * delta + (n - j) * (-delta) == (j - i) * delta
  {
  }

  lemma Difference(x: int, y: int, d: int)
    requires x == y + d
    ensures x % 255 == y % 255 <==> d % 255 == 0
  {
  }
}
