/** The 128-to-112-bit packing of src/compression/compress.c, on 16-bit words. */
module Packing {

  type word = bv16

  // -- One group -----------------------------------------------------------------

  /** Eight words with their two low bits dropped, written one after the other. */
  function Stream14(w: seq<word>): bv112
    requires |w| == 8
  {
    ((w[0] >> 2) as bv112 << 98) | ((w[1] >> 2) as bv112 << 84) | ((w[2] >> 2) as bv112 << 70)
    | ((w[3] >> 2) as bv112 << 56) | ((w[4] >> 2) as bv112 << 42) | ((w[5] >> 2) as bv112 << 28)
    | ((w[6] >> 2) as bv112 << 14) | (w[7] >> 2) as bv112
  }

  /** Seven whole words, written one after the other. */
  function Stream16(v: seq<word>): bv112
    requires |v| == 7
  {
    (v[0] as bv112 << 96) | (v[1] as bv112 << 80) | (v[2] as bv112 << 64) | (v[3] as bv112 << 48)
    | (v[4] as bv112 << 32) | (v[5] as bv112 << 16) | v[6] as bv112
  }

  // The word written from two neighbouring words when packing and when unpacking.
  function Pack0(a: word, b: word): word { (a & 0xFFFC) | ((b & 0xC000) >> 14) }
  function Pack1(a: word, b: word): word { ((a & 0x3FFC) << 2) | ((b & 0xF000) >> 12) }
  function Pack2(a: word, b: word): word { ((a & 0x0FFC) << 4) | ((b & 0xFC00) >> 10) }
  function Pack3(a: word, b: word): word { ((a & 0x03FC) << 6) | ((b & 0xFF00) >> 8) }
  function Pack4(a: word, b: word): word { ((a & 0x00FC) << 8) | ((b & 0xFFC0) >> 6) }
  function Pack5(a: word, b: word): word { ((a & 0x003C) << 10) | ((b & 0xFFF0) >> 4) }
  function Pack6(a: word, b: word): word { ((a & 0x000C) << 12) | ((b & 0xFFFC) >> 2) }

  function Unpack0(b: word): word { b & 0xFFFC }
  function Unpack1(a: word, b: word): word { ((a & 0x0003) << 14) | ((b & 0xFFF0) >> 2) }
  function Unpack2(a: word, b: word): word { ((a & 0x000F) << 12) | ((b & 0xFFC0) >> 4) }
  function Unpack3(a: word, b: word): word { ((a & 0x003F) << 10) | ((b & 0xFF00) >> 6) }
  function Unpack4(a: word, b: word): word { ((a & 0x00FF) << 8) | ((b & 0xFC00) >> 8) }
  function Unpack5(a: word, b: word): word { ((a & 0x03FF) << 6) | ((b & 0xF000) >> 10) }
  function Unpack6(a: word, b: word): word { ((a & 0x0FFF) << 4) | ((b & 0xC000) >> 12) }
  function Unpack7(a: word): word { a << 2 }

  function Pack(w: seq<word>): (v: seq<word>)
    requires |w| == 8
    ensures |v| == 7
  {
    [Pack0(w[0], w[1]), Pack1(w[1], w[2]), Pack2(w[2], w[3]), Pack3(w[3], w[4]),
     Pack4(w[4], w[5]), Pack5(w[5], w[6]), Pack6(w[6], w[7])]
  }

  function Unpack(v: seq<word>): (w: seq<word>)
    requires |v| == 7
    ensures |w| == 8
  {
    [Unpack0(v[0]), Unpack1(v[0], v[1]), Unpack2(v[1], v[2]), Unpack3(v[2], v[3]),
     Unpack4(v[3], v[4]), Unpack5(v[4], v[5]), Unpack6(v[5], v[6]), Unpack7(v[6])]
  }

  /** A word without its two low bits. */
  function Mask(w: word): word { w & 0xFFFC }

  function Masked(ws: seq<word>): (m: seq<word>)
    ensures |m| == |ws|
    ensures forall i :: 0 <= i < |ws| ==> m[i] == Mask(ws[i])
  {
    seq(|ws|, i requires 0 <= i < |ws| => Mask(ws[i]))
  }

  lemma MaskedConcat(a: seq<word>, b: seq<word>)
    ensures Masked(a + b) == Masked(a) + Masked(b)
  {
  }

  /** Packing keeps the fourteen high bits of every word, in order, and nothing else. */
  lemma PackKeepsStream(w: seq<word>)
    requires |w| == 8
    ensures Stream16(Pack(w)) == Stream14(w)
  {
  }

  /** Unpacking spreads the bits over eight words, in order, with two zero bits under each fourteen. */
  lemma UnpackKeepsStream(v: seq<word>)
    requires |v| == 7
    ensures Stream14(Unpack(v)) == Stream16(v)
    ensures forall i :: 0 <= i < 8 ==> Unpack(v)[i] & 3 == 0
  {
  }

  lemma UnpackPack(w: seq<word>)
    requires |w| == 8
    ensures Unpack(Pack(w)) == Masked(w)
  {
    hide Pack0, Pack1, Pack2, Pack3, Pack4, Pack5, Pack6;
    hide Unpack0, Unpack1, Unpack2, Unpack3, Unpack4, Unpack5, Unpack6, Unpack7, Mask;
    UnpackPackLow(w[0], w[1], w[2], w[3], w[4]);
    UnpackPackHigh(w[3], w[4], w[5], w[6], w[7]);
  }

  lemma UnpackPackLow(a: word, b: word, c: word, d: word, e: word)
    ensures Unpack0(Pack0(a, b)) == Mask(a)
    ensures Unpack1(Pack0(a, b), Pack1(b, c)) == Mask(b)
    ensures Unpack2(Pack1(b, c), Pack2(c, d)) == Mask(c)
    ensures Unpack3(Pack2(c, d), Pack3(d, e)) == Mask(d)
  {
  }

  lemma UnpackPackHigh(d: word, e: word, f: word, g: word, h: word)
    ensures Unpack4(Pack3(d, e), Pack4(e, f)) == Mask(e)
    ensures Unpack5(Pack4(e, f), Pack5(f, g)) == Mask(f)
    ensures Unpack6(Pack5(f, g), Pack6(g, h)) == Mask(g)
    ensures Unpack7(Pack6(g, h)) == Mask(h)
  {
  }

  lemma PackUnpack(v: seq<word>)
    requires |v| == 7
    ensures Pack(Unpack(v)) == v
  {
    hide Pack0, Pack1, Pack2, Pack3, Pack4, Pack5, Pack6;
    hide Unpack0, Unpack1, Unpack2, Unpack3, Unpack4, Unpack5, Unpack6, Unpack7;
    PackUnpackLow(v[0], v[1], v[2], v[3]);
    PackUnpackHigh(v[2], v[3], v[4], v[5], v[6]);
  }

  lemma PackUnpackLow(a: word, b: word, c: word, d: word)
    ensures Pack0(Unpack0(a), Unpack1(a, b)) == a
    ensures Pack1(Unpack1(a, b), Unpack2(b, c)) == b
    ensures Pack2(Unpack2(b, c), Unpack3(c, d)) == c
  {
  }

  lemma PackUnpackHigh(c: word, d: word, e: word, f: word, g: word)
    ensures Pack3(Unpack3(c, d), Unpack4(d, e)) == d
    ensures Pack4(Unpack4(d, e), Unpack5(e, f)) == e
    ensures Pack5(Unpack5(e, f), Unpack6(f, g)) == f
    ensures Pack6(Unpack6(f, g), Unpack7(g)) == g
  {
  }

  // -- Whole buffers -------------------------------------------------------------

  function Compress(ws: seq<word>): (vs: seq<word>)
    ensures |vs| == |ws| / 8 * 7
  {
    if |ws| < 8 then [] else Pack(ws[..8]) + Compress(ws[8..])
  }

  function Decompress(vs: seq<word>): (ws: seq<word>)
    ensures |ws| == |vs| / 7 * 8
  {
    if |vs| < 7 then [] else Unpack(vs[..7]) + Decompress(vs[7..])
  }

  /** Unpacking what was packed yields the whole groups with two bits of every word cleared. */
  lemma {:induction false} DecompressCompress(ws: seq<word>)
    ensures Decompress(Compress(ws)) == Masked(ws[..|ws| / 8 * 8])
  {
    hide Pack, Unpack;
    if |ws| >= 8 {
      var v := Compress(ws);
      assert v[..7] == Pack(ws[..8]) && v[7..] == Compress(ws[8..]);
      UnpackPack(ws[..8]);
      DecompressCompress(ws[8..]);
      var n := |ws| / 8 * 8;
      assert ws[..n] == ws[..8] + ws[8..][..n - 8];
      MaskedConcat(ws[..8], ws[8..][..n - 8]);
    }
  }

  /** Packing what was unpacked loses nothing: the packed form has no redundant bits. */
  lemma {:induction false} CompressDecompress(vs: seq<word>)
    requires |vs| % 7 == 0
    ensures Compress(Decompress(vs)) == vs
  {
    if |vs| >= 7 {
      var w := Decompress(vs);
      assert w[..8] == Unpack(vs[..7]) && w[8..] == Decompress(vs[7..]);
      PackUnpack(vs[..7]);
      CompressDecompress(vs[7..]);
    }
  }

  lemma Behind(a: seq<word>, b: seq<word>, i: nat, n: nat)
    requires i + n <= |b|
    ensures (a + b)[|a| + i..|a| + i + n] == b[i..i + n]
  {
  }

  /** Group by group: the k-th seven words are the k-th eight, packed. */
  lemma {:induction false} CompressAt(ws: seq<word>, k: nat)
    requires 8 * k + 8 <= |ws|
    ensures |Compress(ws)| == |ws| / 8 * 7 >= 7 * k + 7
    ensures Compress(ws)[7 * k..7 * k + 7] == Pack(ws[8 * k..8 * k + 8])
  {
    hide Pack;
    if k == 0 {
      assert ws[0..8] == ws[..8];
    } else {
      CompressAt(ws[8..], k - 1);
      Behind(ws[..8], ws[8..], 8 * (k - 1), 8);
      assert ws[..8] + ws[8..] == ws;
      Behind(Pack(ws[..8]), Compress(ws[8..]), 7 * (k - 1), 7);
    }
  }

  /** Group by group: the k-th eight words are the k-th seven, unpacked. */
  lemma {:induction false} DecompressAt(vs: seq<word>, k: nat)
    requires 7 * k + 7 <= |vs|
    ensures |Decompress(vs)| == |vs| / 7 * 8 >= 8 * k + 8
    ensures Decompress(vs)[8 * k..8 * k + 8] == Unpack(vs[7 * k..7 * k + 7])
  {
    hide Unpack;
    if k == 0 {
      assert vs[0..7] == vs[..7];
    } else {
      DecompressAt(vs[7..], k - 1);
      Behind(vs[..7], vs[7..], 7 * (k - 1), 7);
      assert vs[..7] + vs[7..] == vs;
      Behind(Unpack(vs[..7]), Decompress(vs[7..]), 8 * (k - 1), 8);
    }
  }

  lemma {:induction false} CompressAppend(ws: seq<word>, g: seq<word>)
    requires |ws| % 8 == 0 && |g| == 8
    ensures Compress(ws + g) == Compress(ws) + Pack(g)
  {
    if |ws| >= 8 {
      CompressAppend(ws[8..], g);
      assert (ws + g)[..8] == ws[..8] && (ws + g)[8..] == ws[8..] + g;
    } else {
      assert ws + g == g && g[..8] == g;
    }
  }

  lemma {:induction false} DecompressAppend(vs: seq<word>, g: seq<word>)
    requires |vs| % 7 == 0 && |g| == 7
    ensures Decompress(vs + g) == Decompress(vs) + Unpack(g)
  {
    if |vs| >= 7 {
      DecompressAppend(vs[7..], g);
      assert (vs + g)[..7] == vs[..7] && (vs + g)[7..] == vs[7..] + g;
    } else {
      assert vs + g == g && g[..7] == g;
    }
  }

  // -- The procedures ------------------------------------------------------------

  lemma PackAt(data: seq<word>, at: nat)
    requires at + 8 <= |data|
    ensures var v := Pack(data[at..at + 8]);
            && v[0] == Pack0(data[at], data[at + 1]) && v[1] == Pack1(data[at + 1], data[at + 2])
            && v[2] == Pack2(data[at + 2], data[at + 3]) && v[3] == Pack3(data[at + 3], data[at + 4])
            && v[4] == Pack4(data[at + 4], data[at + 5]) && v[5] == Pack5(data[at + 5], data[at + 6])
            && v[6] == Pack6(data[at + 6], data[at + 7])
  {
    hide Pack0, Pack1, Pack2, Pack3, Pack4, Pack5, Pack6;
  }

  lemma UnpackAt(data: seq<word>, at: nat)
    requires at + 7 <= |data|
    ensures var w := Unpack(data[at..at + 7]);
            && w[0] == Unpack0(data[at]) && w[1] == Unpack1(data[at], data[at + 1])
            && w[2] == Unpack2(data[at + 1], data[at + 2]) && w[3] == Unpack3(data[at + 2], data[at + 3])
            && w[4] == Unpack4(data[at + 3], data[at + 4]) && w[5] == Unpack5(data[at + 4], data[at + 5])
            && w[6] == Unpack6(data[at + 5], data[at + 6]) && w[7] == Unpack7(data[at + 6])
  {
    hide Unpack0, Unpack1, Unpack2, Unpack3, Unpack4, Unpack5, Unpack6, Unpack7;
  }

  lemma SevenWords(s: seq<word>, to: nat, v: seq<word>)
    requires to + 7 <= |s| && |v| == 7
    requires s[to] == v[0] && s[to + 1] == v[1] && s[to + 2] == v[2] && s[to + 3] == v[3]
    requires s[to + 4] == v[4] && s[to + 5] == v[5] && s[to + 6] == v[6]
    ensures s[to..to + 7] == v
  {
  }

  lemma EightWords(s: seq<word>, to: nat, w: seq<word>)
    requires to + 8 <= |s| && |w| == 8
    requires s[to] == w[0] && s[to + 1] == w[1] && s[to + 2] == w[2] && s[to + 3] == w[3]
    requires s[to + 4] == w[4] && s[to + 5] == w[5] && s[to + 6] == w[6] && s[to + 7] == w[7]
    ensures s[to..to + 8] == w
  {
  }

  /** Packs the group at position at of data into seven words at position to of out. */
  method Pack128Bit(data: seq<word>, at: nat, out: array<word>, to: nat)
    requires at + 8 <= |data| && to + 7 <= out.Length
    modifies out
    ensures out[..to] == old(out[..to]) && out[to + 7..] == old(out[to + 7..])
    ensures out[to..to + 7] == Pack(data[at..at + 8])
  {
    hide Pack, Pack0, Pack1, Pack2, Pack3, Pack4, Pack5, Pack6;
    PackAt(data, at);
    var p, q := at, to;
    out[q] := Pack0(data[p], data[p + 1]);
    p, q := p + 1, q + 1;
    out[q] := Pack1(data[p], data[p + 1]);
    p, q := p + 1, q + 1;
    out[q] := Pack2(data[p], data[p + 1]);
    p, q := p + 1, q + 1;
    out[q] := Pack3(data[p], data[p + 1]);
    p, q := p + 1, q + 1;
    out[q] := Pack4(data[p], data[p + 1]);
    p, q := p + 1, q + 1;
    out[q] := Pack5(data[p], data[p + 1]);
    p, q := p + 1, q + 1;
    out[q] := Pack6(data[p], data[p + 1]);
    SevenWords(out[..], to, Pack(data[at..at + 8]));
  }

  /** Unpacks the group at position at of data into eight words at position to of out. */
  method Unpack128Bit(data: seq<word>, at: nat, out: array<word>, to: nat)
    requires at + 7 <= |data| && to + 8 <= out.Length
    modifies out
    ensures out[..to] == old(out[..to]) && out[to + 8..] == old(out[to + 8..])
    ensures out[to..to + 8] == Unpack(data[at..at + 7])
  {
    hide Unpack, Unpack0, Unpack1, Unpack2, Unpack3, Unpack4, Unpack5, Unpack6, Unpack7;
    UnpackAt(data, at);
    var p, q := at, to;
    out[q] := Unpack0(data[p]);
    p, q := p + 1, q + 1;
    out[q] := Unpack1(data[p - 1], data[p]);
    p, q := p + 1, q + 1;
    out[q] := Unpack2(data[p - 1], data[p]);
    p, q := p + 1, q + 1;
    out[q] := Unpack3(data[p - 1], data[p]);
    p, q := p + 1, q + 1;
    out[q] := Unpack4(data[p - 1], data[p]);
    p, q := p + 1, q + 1;
    out[q] := Unpack5(data[p - 1], data[p]);
    p, q := p + 1, q + 1;
    out[q] := Unpack6(data[p - 1], data[p]);
    q := q + 1;
    out[q] := Unpack7(data[p]);
    EightWords(out[..], to, Unpack(data[at..at + 7]));
  }

  /** Replaces a packet's data of size octets, seen as words, by its packed form. */
  method CompressData(data: seq<word>, size: nat) returns (newData: array<word>, newSize: nat)
    requires size < 0x1_0000 && |data| == size / 2
    ensures newSize == size / 16 * 14 && newData.Length == newSize / 2
    ensures newData[..] == Compress(data)
  {
    hide Pack, Compress;
    NothingToPack(data[..0]);
    var pairs := size / 16;
    newSize := pairs * 14;
    newData := new word[newSize / 2](_ => 0);
    var i := 0;
    while i < pairs
      invariant 0 <= i <= pairs
      invariant newData.Length == 7 * pairs && 8 * pairs <= |data|
      invariant newData[..7 * i] == Compress(data[..8 * i])
    {
      Pack128Bit(data, 8 * i, newData, 7 * i);
      CompressAppend(data[..8 * i], data[8 * i..8 * i + 8]);
      assert data[..8 * (i + 1)] == data[..8 * i] + data[8 * i..8 * i + 8];
      assert newData[..7 * (i + 1)] == newData[..7 * i] + newData[7 * i..7 * i + 7];
      i := i + 1;
    }
    CompressTail(data, 8 * pairs);
    assert newData[..] == newData[..7 * pairs];
  }

  /** Replaces a packet's data of size octets, seen as words, by its unpacked form. */
  method DecompressData(data: seq<word>, size: nat) returns (newData: array<word>, newSize: nat)
    requires size < 0x1_0000 && |data| == size / 2
    requires size / 14 * 16 < 0x1_0000
    ensures newSize == size / 14 * 16 && newData.Length == newSize / 2
    ensures newData[..] == Decompress(data)
  {
    hide Unpack, Decompress;
    NothingToUnpack(data[..0]);
    var pairs := size / 14;
    newSize := pairs * 16;
    newData := new word[newSize / 2](_ => 0);
    var i := 0;
    while i < pairs
      invariant 0 <= i <= pairs
      invariant newData.Length == 8 * pairs && 7 * pairs <= |data|
      invariant newData[..8 * i] == Decompress(data[..7 * i])
    {
      Unpack128Bit(data, 7 * i, newData, 8 * i);
      DecompressAppend(data[..7 * i], data[7 * i..7 * i + 7]);
      assert data[..7 * (i + 1)] == data[..7 * i] + data[7 * i..7 * i + 7];
      assert newData[..8 * (i + 1)] == newData[..8 * i] + newData[8 * i..8 * i + 8];
      i := i + 1;
    }
    DecompressTail(data, 7 * pairs);
    assert newData[..] == newData[..8 * pairs];
  }

  lemma NothingToPack(ws: seq<word>)
    requires ws == []
    ensures Compress(ws) == []
  {
  }

  lemma NothingToUnpack(vs: seq<word>)
    requires vs == []
    ensures Decompress(vs) == []
  {
  }

  // An incomplete last group is dropped.
  lemma {:induction false} CompressTail(ws: seq<word>, n: nat)
    requires n <= |ws| < n + 8 && n % 8 == 0
    ensures Compress(ws[..n]) == Compress(ws)
  {
    hide Pack;
    if n > 0 {
      CompressTail(ws[8..], n - 8);
      assert ws[..n][..8] == ws[..8] && ws[..n][8..] == ws[8..][..n - 8];
    }
  }

  lemma {:induction false} DecompressTail(vs: seq<word>, n: nat)
    requires n <= |vs| < n + 7 && n % 7 == 0
    ensures Decompress(vs[..n]) == Decompress(vs)
  {
    hide Unpack;
    if n > 0 {
      DecompressTail(vs[7..], n - 7);
      assert vs[..n][..7] == vs[..7] && vs[..n][7..] == vs[7..][..n - 7];
    }
  }
}
