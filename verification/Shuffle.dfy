/** The random packet order of src/communication/simulation/simulation.c. */
module Shuffle {

  /** Every number below n exactly once. */
  ghost predicate IsOrder(s: seq<int>, n: nat) {
    && |s| == n
    && (forall i :: 0 <= i < n ==> 0 <= s[i] < n)
    && (forall i, j :: 0 <= i < j < n ==> s[i] != s[j])
  }

  /** What the random generator decides at one position: whether to swap, and a raw draw. */
  datatype Draw = Draw(swap: bool, other: nat)

  function Exchanged(s: seq<int>, a: int, b: int): (t: seq<int>)
    requires 0 <= a < |s| && 0 <= b < |s|
    ensures |t| == |s|
  {
    s[a := s[b]][b := s[a]]
  }

  lemma ExchangedIsOrder(s: seq<int>, a: int, b: int)
    requires IsOrder(s, |s|) && 0 <= a < |s| && 0 <= b < |s|
    ensures IsOrder(Exchanged(s, a, b), |s|)
  {
  }

  method Swap(a: array<int>, i: int, j: int)
    requires 0 <= i < a.Length && 0 <= j < a.Length
    modifies a
    ensures a[..] == Exchanged(old(a[..]), i, j)
  {
    var c := a[i];
    a[i] := a[j];
    a[j] := c;
  }

  /** The order after the first k draws; the positions exchanged are named by array elements. */
  ghost function Shuffled(s: seq<int>, draws: seq<Draw>, k: nat): (t: seq<int>)
    requires IsOrder(s, |s|) && k <= |s| && |draws| == |s|
    ensures IsOrder(t, |s|)
  {
    if k == 0 then s else
    var t := Shuffled(s, draws, k - 1);
    if !draws[k - 1].swap then t else
    var a, b := t[k - 1], t[draws[k - 1].other % |s|];
    ExchangedIsOrder(t, a, b);
    Exchanged(t, a, b)
  }

  /** Stays a permutation through every draw, which keeps both swapped positions in bounds. */
  method RandomizePacketOrder(nrs: array<int>, draws: seq<Draw>)
    requires |draws| == nrs.Length && IsOrder(nrs[..], nrs.Length)
    modifies nrs
    ensures IsOrder(nrs[..], nrs.Length)
    ensures nrs[..] == Shuffled(old(nrs[..]), draws, nrs.Length)
  {
    var i := 0;
    while i < nrs.Length
      invariant 0 <= i <= nrs.Length
      invariant nrs[..] == Shuffled(old(nrs[..]), draws, i)
    {
      if draws[i].swap {
        assert nrs[..][i] == nrs[i];
        var a, b := nrs[i], nrs[draws[i].other % nrs.Length];
        Swap(nrs, a, b);
      }
      i := i + 1;
    }
  }

  /** Without a draw that swaps the order stays as it is. */
  lemma {:induction false} Unshuffled(s: seq<int>, draws: seq<Draw>, k: nat)
    requires IsOrder(s, |s|) && |draws| == |s| && k <= |s|
    requires forall i :: 0 <= i < k ==> !draws[i].swap
    ensures Shuffled(s, draws, k) == s
  {
    if k > 0 {
      Unshuffled(s, draws, k - 1);
    }
  }

  /**
   * A draw that swaps exchanges the two packets found at the places named by the entry at its own
   * place and by the entry at the place drawn, whatever was shuffled before, and moves no other.
   */
  lemma SwapMoves(s: seq<int>, draws: seq<Draw>, k: nat, i: nat)
    requires IsOrder(s, |s|) && |draws| == |s| && k < |s| && draws[k].swap && i < |s|
    ensures var t, u := Shuffled(s, draws, k), Shuffled(s, draws, k + 1);
            var a, b := t[k], t[draws[k].other % |s|];
            && 0 <= a < |s| && 0 <= b < |s| && u[a] == t[b] && u[b] == t[a]
            && (i != a && i != b ==> u[i] == t[i])
  {
  }

  // -- A permutation that keeps the first n numbers in front ----------------------------

  ghost function Front(s: seq<int>, n: nat): set<int>
    requires n <= |s|
  {
    set x | x in s[..n]
  }

  function Below(n: nat): (b: set<int>)
    ensures forall i :: i in b <==> 0 <= i < n
  {
    if n == 0 then {} else Below(n - 1) + {n - 1}
  }

  lemma {:induction false} FrontSize(s: seq<int>, n: nat)
    requires n <= |s| && forall i, j :: 0 <= i < j < n ==> s[i] != s[j]
    ensures |Front(s, n)| == n
  {
    if n > 0 {
      FrontSize(s, n - 1);
      assert s[..n] == s[..n - 1] + [s[n - 1]];
      assert Front(s, n) == Front(s, n - 1) + {s[n - 1]};
    }
  }

  lemma {:induction false} BelowSize(n: nat)
    ensures |Below(n)| == n
  {
    if n > 0 {
      BelowSize(n - 1);
    }
  }

  lemma SubsetOfSameSize(a: set<int>, b: set<int>)
    requires a <= b && |a| == |b|
    ensures a == b
  {
    assert |b - a| == |b| - |a|;
  }

  /** When the first n positions hold numbers below n, they hold all of them. */
  lemma FrontFillsBelow(s: seq<int>, n: nat, i: nat)
    requires IsOrder(s, |s|) && n <= i < |s|
    requires forall k :: 0 <= k < n ==> s[k] < n
    ensures s[i] >= n
  {
    FrontSize(s, n);
    BelowSize(n);
    SubsetOfSameSize(Front(s, n), Below(n));
    assert s[i] !in Front(s, n);
  }

  lemma OrderCovers(s: seq<int>, v: int)
    requires IsOrder(s, |s|) && 0 <= v < |s|
    ensures v in s
  {
    FrontSize(s, |s|);
    BelowSize(|s|);
    SubsetOfSameSize(Front(s, |s|), Below(|s|));
    assert v in Front(s, |s|);
  }
}
