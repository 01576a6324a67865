/** The client's packet buffer (src/buffer/buffer.c). */
module RingBuffer {

  datatype Option<T> = None | Some(value: T)

  /** The n elements from a position on, continuing at the front. */
  function Window<T>(d: seq<T>, start: nat, n: nat): (w: seq<T>)
    requires start < |d| && n <= |d|
    ensures |w| == n
    ensures forall i :: 0 <= i < n ==> w[i] == d[if start + i < |d| then start + i else start + i - |d|]
  {
    if start + n <= |d| then d[start..start + n] else d[start..] + d[..start + n - |d|]
  }

  lemma WindowAdd<T>(d: seq<T>, start: nat, n: nat, elem: T)
    requires start < |d| && n < |d|
    ensures Window(d[(start + n) % |d| := elem], start, n + 1) == Window(d, start, n) + [elem]
  {
    hide Window;
    WrapIs(start, n, |d|);
  }

  lemma WindowTake<T>(d: seq<T>, start: nat, n: nat)
    requires start < |d| && 0 < n <= |d|
    ensures Window(d, (start + 1) % |d|, n - 1) == Window(d, start, n)[1..]
  {
    hide Window;
    WrapIs(start, 1, |d|);
  }

  class Buffer<T(0)> {
    var data: array<T>
    var start: nat
    var end: nat
    var used: nat
    var max: nat

    ghost predicate Valid()
      reads this
    {
      max == data.Length > 0 && start < max && used <= max && end == (start + used) % max
    }

    /** The buffered elements, oldest first. */
    ghost function Contents(): (s: seq<T>)
      requires Valid()
      reads this, data
      ensures |s| == used
    {
      Window(data[..], start, used)
    }

    constructor (maxElems: nat)
      requires maxElems > 0
      ensures Valid() && fresh(data) && max == maxElems && Contents() == []
    {
      data := new T[maxElems];
      max := maxElems;
      new;
      Reset();
    }

    method Reset()
      requires max == data.Length > 0
      modifies `start, `end, `used
      ensures Valid() && Contents() == []
    {
      start, end, used := 0, 0, 0;
    }

    predicate Full()
      reads this
    {
      used == max
    }

    predicate Empty()
      reads this
    {
      !Full() && start == end
    }

    function UsedSize(): nat
      reads this
    {
      used
    }

    function FreeSize(): nat
      requires used <= max
      reads this
    {
      max - UsedSize()
    }

    /** The test on the two positions finds the buffer empty exactly when it holds nothing. */
    lemma EmptyIff()
      requires Valid()
      ensures Empty() <==> Contents() == []
      ensures Full() <==> |Contents()| == max
    {
      WrapApart(start, used, max);
    }

    method MovePtrRight()
      requires max > 0
      modifies `start, `end
      ensures start == if old(Full()) then (old(start) + 1) % max else old(start)
      ensures end == (old(end) + 1) % max
    {
      if Full() {
        start := (start + 1) % max;
      }
      end := (end + 1) % max;
    }

    /**
     * Appends an element. An overriding add to a full buffer counts one element too many and
     * leaves the buffer unusable; every other add keeps it valid.
     */
    method Add(elem: T, override: bool) returns (ok: bool)
      requires Valid()
      modifies this, data
      ensures data == old(data) && max == old(max)
      ensures ok == (override || !old(Full()))
      ensures Valid() <==> !(override && old(Full()))
      ensures !old(Full()) ==> Contents() == old(Contents()) + [elem]
      ensures !ok ==> Contents() == old(Contents())
      ensures override && old(Full()) ==> used == max + 1
    {
      hide Window;
      if !override && Full() {
        return false;
      }
      WrapNext(start, used, max);
      if used < max {
        WindowAdd(data[..], start, used, elem);
      }
      data[end] := elem;
      MovePtrRight();
      used := used + 1;
      ok := true;
    }

    /** The address computed for an index, as a position in the array. */
    function Position(index: nat): (p: nat)
      requires Valid() && used > 0
      reads this
      ensures p < max
    {
      var step := index % UsedSize();
      if start + step < max then start + step else step - (max - start)
    }

    /** The element at an index counted from the oldest, across the wrap and modulo the size. */
    method Read(index: nat) returns (elem: T)
      requires Valid() && used > 0
      ensures elem == Contents()[index % used]
    {
      elem := data[Position(index)];
    }

    /** Takes the oldest element; None, as the source's NULL, from an empty buffer. */
    method Get() returns (r: Option<T>)
      requires Valid()
      modifies `start, `used
      ensures Valid()
      ensures old(Contents()) == [] ==> r == None && Contents() == []
      ensures old(Contents()) != [] ==> r == Some(old(Contents())[0]) && Contents() == old(Contents())[1..]
    {
      hide Window;
      EmptyIff();
      if Empty() {
        return None;
      }
      var elem := Read(0);
      WrapTake(start, used, max);
      WindowTake(data[..], start, used);
      start := (start + 1) % max;
      used := used - 1;
      r := Some(elem);
    }
  }

  lemma WrapApart(start: nat, used: nat, max: nat)
    requires start < max && used <= max
    ensures (start + used) % max == start <==> used == 0 || used == max
  {
    WrapIs(start, used, max);
  }

  lemma WrapIs(start: nat, used: nat, max: nat)
    requires start < max && used <= max
    ensures (start + used) % max == if start + used < max then start + used else start + used - max
  {
    if start + used >= max {
      assert (start + used) % max == (start + used - max) % max;
    }
  }

  lemma WrapNext(start: nat, used: nat, max: nat)
    requires start < max && used <= max
    ensures var end := (start + used) % max;
            && end == (if start + used < max then start + used else start + used - max)
            && (used < max ==> (end + 1) % max == (start + (used + 1)) % max)
  {
    WrapIs(start, used, max);
    if used < max {
      WrapIs(start, used + 1, max);
      WrapIs((start + used) % max, 1, max);
    }
  }

  lemma WrapTake(start: nat, used: nat, max: nat)
    requires start < max && 0 < used <= max
    ensures (start + 1) % max < max
    ensures ((start + 1) % max + (used - 1)) % max == (start + used) % max
    ensures (start + 1) % max == if start + 1 < max then start + 1 else 0
  {
    WrapIs(start, 1, max);
    WrapIs(start, used, max);
    WrapIs((start + 1) % max, used - 1, max);
  }
}
