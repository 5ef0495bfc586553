/**
 The growable ring buffer of congestion_meta2/ringbuffer.go, refined to the sequence of
 its elements. The type's zero value, which the source writes into vacated slots, is a
 constructor parameter.
 */
module RingBuffers {
  class RingBuffer<T> {
    const zero: T
    var ring: array<T>
    var headPos: nat
    var tailPos: nat
    var full: bool
    // The elements, oldest first.
    ghost var contents: seq<T>

    ghost function Repr(): set<object>
      reads this
    {
      {this, ring}
    }

    /**
     Positions are in range, the contents are the occupied slots in ring order, and every
     other slot holds the zero value.
     */
    ghost predicate Valid()
      reads Repr()
    {
      && (ring.Length == 0 ==> headPos == tailPos == 0 && !full)
      && (ring.Length != 0 ==> headPos < ring.Length && tailPos < ring.Length)
      && (full ==> headPos == tailPos)
      && contents == (if Wrapped() then ring[headPos..] + ring[..tailPos] else ring[headPos..tailPos])
      && (forall i :: 0 <= i < ring.Length && !Occupied(i) ==> ring[i] == zero)
    }

    ghost predicate Wrapped()
      reads this
    {
      full || tailPos < headPos
    }

    ghost predicate Occupied(i: nat)
      reads this
    {
      if Wrapped() then headPos <= i || i < tailPos else headPos <= i < tailPos
    }

    constructor Init(zero: T, size: nat)
      ensures Valid() && fresh(Repr())
      ensures contents == [] && this.zero == zero
    {
      this.zero := zero;
      ring := new T[size](_ => zero);
      headPos, tailPos, full := 0, 0, false;
      contents := [];
    }

    function Len(): (n: nat)
      requires Valid()
      reads Repr()
      ensures n == |contents|
    {
      if full then ring.Length
      else if tailPos >= headPos then tailPos - headPos
      else tailPos - headPos + ring.Length
    }

    predicate Empty()
      requires Valid()
      reads Repr()
      ensures Empty() <==> contents == []
    {
      !full && headPos == tailPos
    }

    method PushBack(t: T)
      requires Valid()
      modifies Repr()
      ensures Valid() && fresh(Repr() - old(Repr()))
      ensures contents == old(contents) + [t]
    {
      if full || ring.Length == 0 {
        Grow();
      }
      Store(t);
    }

    /** The part of PushBack that follows the capacity check. */
    method Store(t: T)
      requires Valid() && !full && tailPos < ring.Length
      modifies Repr()
      ensures Valid() && ring == old(ring)
      ensures contents == old(contents) + [t]
    {
      ring[tailPos] := t;
      tailPos := tailPos + 1;
      if tailPos == ring.Length {
        tailPos := 0;
      }
      if tailPos == headPos {
        full := true;
      }
      contents := contents + [t];
    }

    method PopFront() returns (t: T)
      requires Valid() && !Empty()
      modifies Repr()
      ensures Valid() && ring == old(ring)
      ensures old(contents) == [t] + contents
    {
      PopSlots(ring[..], zero, headPos, tailPos, full);
      full := false;
      t := ring[headPos];
      ring[headPos] := zero;
      assert ring[..] == old(ring[..])[headPos := zero];
      headPos := headPos + 1;
      if headPos == ring.Length {
        headPos := 0;
      }
      contents := contents[1..];
    }

    /** The slot the element at this index is stored in. */
    function SlotOf(index: nat): (slot: nat)
      requires Valid() && index < Len()
      reads Repr()
      ensures slot < ring.Length && Occupied(slot)
      ensures ring[slot] == contents[index]
    {
      WrapOnce(headPos + index, ring.Length);
      (headPos + index) % ring.Length
    }

    function Offset(index: nat): (t: T)
      requires Valid() && index < Len()
      reads Repr()
      ensures t == contents[index]
    {
      ring[SlotOf(index)]
    }

    /** A store through the pointer that the source's Offset returns. */
    method SetOffset(index: nat, t: T)
      requires Valid() && index < Len()
      modifies ring, `contents
      ensures Valid()
      ensures contents == old(contents)[index := t]
    {
      ring[SlotOf(index)] := t;
      contents := contents[index := t];
      WrapOnce(headPos + index, ring.Length);
    }

    function Front(): (t: T)
      requires Valid() && !Empty()
      reads Repr()
      ensures t == contents[0]
    {
      ring[headPos]
    }

    function Back(): (t: T)
      requires Valid() && !Empty()
      reads Repr()
      ensures t == contents[|contents| - 1]
    {
      Offset(Len() - 1)
    }

    /** A larger copy of the slots, unwrapped: those from the head on come first. */
    method Unwrapped(newSize: nat) returns (copy: array<T>)
      requires headPos <= ring.Length <= newSize
      ensures fresh(copy) && copy.Length == newSize
      ensures copy[..ring.Length] == ring[headPos..] + ring[..headPos]
      ensures forall i :: ring.Length <= i < newSize ==> copy[i] == zero
    {
      copy := new T[newSize](_ => zero);
      var headLen := ring.Length - headPos;
      forall i | 0 <= i < headLen {
        copy[i] := ring[headPos + i];
      }
      forall i | 0 <= i < headPos {
        copy[headLen + i] := ring[i];
      }
    }

    method Grow()
      requires Valid() && (full || ring.Length == 0)
      modifies this
      ensures Valid() && fresh(ring)
      ensures contents == old(contents)
      ensures !full && tailPos < ring.Length
    {
      var oldSize := ring.Length;
      var newSize := oldSize * 2;
      if newSize == 0 {
        newSize := 1;
      }
      ring := Unwrapped(newSize);
      headPos, tailPos, full := 0, oldSize, false;
    }

    method Clear()
      requires Valid()
      modifies Repr()
      ensures Valid() && ring == old(ring)
      ensures contents == []
      ensures forall i :: 0 <= i < ring.Length ==> ring[i] == zero
    {
      for i := 0 to ring.Length
        invariant ring == old(ring)
        invariant forall j :: 0 <= j < i ==> ring[j] == zero
      {
        ring[i] := zero;
      }
      headPos, tailPos, full := 0, 0, false;
      contents := [];
    }
  }

  /** The slots occupied from the head to the tail, in order. */
  ghost function Taken<T>(slots: seq<T>, head: nat, tail: nat, wrapped: bool): seq<T>
    requires head <= |slots| && tail <= |slots| && (!wrapped ==> head <= tail)
  {
    if wrapped then slots[head..] + slots[..tail] else slots[head..tail]
  }

  /** Vacating the head slot and moving the head on drops the first element. */
  lemma {:induction false} PopSlots<T>(slots: seq<T>, zero: T, head: nat, tail: nat, full: bool)
    requires head < |slots| && tail < |slots| && (full || head != tail) && (full ==> head == tail)
    ensures var next := if head + 1 == |slots| then 0 else head + 1;
            Taken(slots[head := zero], next, tail, tail < next) == Taken(slots, head, tail, full || tail < head)[1..]
  {
  }

  lemma {:induction false} WrapOnce(x: nat, n: nat)
    requires x < 2 * n
    ensures x % n == if x < n then x else x - n
  {
    if x >= n {
      assert x == n * 1 + (x - n);
    }
  }
}
