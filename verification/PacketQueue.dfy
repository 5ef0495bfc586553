/**
 The packet-number-indexed queue of congestion_meta2/packet_number_indexed_queue.go: a
 deque of slots, some of them holes, refined to a finite map from packet numbers to entries.
 */
module PacketQueues {
  import opened Wrappers
  import opened RingBuffers

  const INVALID_PACKET_NUMBER := -1

  // ---------- The abstract queue ----------

  /**
   What a client can observe: the live entries, and the number of the last entry inserted
   since the queue was last empty (invalid when it is empty).
   */
  datatype View<T> = View(live: map<int, T>, last: int)

  function EmptyView<T>(): View<T> {
    View(map[], INVALID_PACKET_NUMBER)
  }

  /** The view that keeps these entries of v; emptying it forgets the last number. */
  function Keep<T>(v: View<T>, live: map<int, T>): View<T> {
    View(live, if live == map[] then INVALID_PACKET_NUMBER else v.last)
  }

  predicate Accepts<T>(v: View<T>, packetNumber: int) {
    packetNumber != INVALID_PACKET_NUMBER && (v.live == map[] || packetNumber > v.last)
  }

  function EmplaceView<T>(v: View<T>, packetNumber: int, entry: T): View<T> {
    if Accepts(v, packetNumber) then View(v.live[packetNumber := entry], packetNumber) else v
  }

  function RemoveView<T>(v: View<T>, packetNumber: int): View<T> {
    Keep(v, v.live - {packetNumber})
  }

  function RemoveUpToView<T>(v: View<T>, packetNumber: int): View<T> {
    Keep(v, map p | p in v.live && p >= packetNumber :: v.live[p])
  }

  function Lookup<T>(v: View<T>, packetNumber: int): Option<T> {
    if packetNumber in v.live then Some(v.live[packetNumber]) else None
  }

  // ---------- Slots ----------

  datatype Slot<T> = Slot(present: bool, entry: T)

  ghost predicate PresentAt<T>(slots: seq<Slot<T>>, first: int, p: int) {
    first <= p < first + |slots| && slots[p - first].present
  }

  /** The entries that a deque of slots starting at packet number `first` stores. */
  ghost function Live<T>(slots: seq<Slot<T>>, first: int): (m: map<int, T>)
    ensures forall p :: p in m <==> PresentAt(slots, first, p)
    ensures forall p :: p in m ==> first <= p < first + |slots| && m[p] == slots[p - first].entry
  {
    map p | first <= p < first + |slots| && PresentAt(slots, first, p) :: slots[p - first].entry
  }

  ghost function CountPresent<T>(slots: seq<Slot<T>>): nat {
    if slots == [] then 0 else CountPresent(slots[1..]) + if slots[0].present then 1 else 0
  }

  lemma {:induction false} CountAppend<T>(slots: seq<Slot<T>>, slot: Slot<T>)
    ensures CountPresent(slots + [slot]) == CountPresent(slots) + if slot.present then 1 else 0
  {
    if slots == [] {
      assert slots + [slot] == [slot];
    } else {
      assert (slots + [slot])[1..] == slots[1..] + [slot];
      CountAppend(slots[1..], slot);
    }
  }

  lemma {:induction false} CountClear<T>(slots: seq<Slot<T>>, i: nat)
    requires i < |slots| && slots[i].present
    ensures CountPresent(slots[i := slots[i].(present := false)]) == CountPresent(slots) - 1
  {
    var cleared := slots[i := slots[i].(present := false)];
    if i == 0 {
      assert cleared[1..] == slots[1..];
    } else {
      assert cleared[1..] == slots[1..][i - 1 := slots[1..][i - 1].(present := false)];
      CountClear(slots[1..], i - 1);
    }
  }

  /** The counter of present slots is the number of live entries. */
  lemma {:induction false} CountIsLive<T>(slots: seq<Slot<T>>, first: int)
    ensures |Live(slots, first)| == CountPresent(slots)
  {
    if slots == [] {
      assert Live(slots, first) == map[];
    } else {
      CountIsLive(slots[1..], first + 1);
      LivePop(slots, first);
      var rest := Live(slots[1..], first + 1);
      if slots[0].present {
        assert Live(slots, first).Keys == rest.Keys + {first};
      }
    }
  }

  lemma {:induction false} LivePop<T>(slots: seq<Slot<T>>, first: int)
    requires slots != []
    ensures var rest := Live(slots[1..], first + 1);
            Live(slots, first) == if slots[0].present then rest[first := slots[0].entry] else rest
  {
    var rest := Live(slots[1..], first + 1);
    forall p
      ensures p in Live(slots, first) <==> p in rest || (p == first && slots[0].present)
      ensures p in rest ==> slots[p - first] == slots[1..][p - (first + 1)]
    {
      assert first < p < first + |slots| ==> slots[p - first] == slots[1..][p - (first + 1)];
      assert PresentAt(slots, first, p) <==> PresentAt(slots[1..], first + 1, p) || (p == first && slots[0].present);
    }
  }

  lemma {:induction false} LivePush<T>(slots: seq<Slot<T>>, first: int, slot: Slot<T>)
    ensures Live(slots + [slot], first)
         == if slot.present then Live(slots, first)[first + |slots| := slot.entry] else Live(slots, first)
  {
    forall p
      ensures p in Live(slots + [slot], first)
         <==> p in Live(slots, first) || (p == first + |slots| && slot.present)
    {
      assert PresentAt(slots + [slot], first, p)
        <==> PresentAt(slots, first, p) || (p == first + |slots| && slot.present);
    }
  }

  lemma {:induction false} LiveClear<T>(slots: seq<Slot<T>>, first: int, i: nat)
    requires i < |slots|
    ensures Live(slots[i := slots[i].(present := false)], first) == Live(slots, first) - {first + i}
  {
    var cleared := slots[i := slots[i].(present := false)];
    forall p
      ensures p in Live(cleared, first) <==> p in Live(slots, first) && p != first + i
    {
      assert PresentAt(cleared, first, p) <==> PresentAt(slots, first, p) && p != first + i;
    }
  }

  /** A deque whose front slot is present is empty exactly when it stores nothing. */
  lemma {:induction false} EmptyLive<T>(slots: seq<Slot<T>>, first: int)
    requires slots != [] ==> slots[0].present
    ensures Live(slots, first) == map[] <==> slots == []
    ensures CountPresent(slots) == 0 <==> slots == []
  {
    if slots != [] {
      assert PresentAt(slots, first, first);
    } else {
      assert Live(slots, first) == map[];
    }
  }

  // ---------- The queue ----------

  class PacketNumberIndexedQueue<T> {
    const noEntry: T
    const entries: RingBuffer<Slot<T>>
    var numberOfPresentEntries: int
    var firstPacket: int

    ghost function Repr(): set<object>
      reads this, entries
    {
      {this} + entries.Repr()
    }

    /** What holds even inside an operation: the counter is exact. */
    ghost predicate Counted()
      reads Repr()
    {
      && this !in entries.Repr()
      && entries.Valid()
      && numberOfPresentEntries == CountPresent(entries.contents)
    }

    /** The front slot is present, and the first packet is valid unless the deque is empty. */
    ghost predicate Valid()
      reads Repr()
    {
      && Counted()
      && (entries.contents == [] ==> firstPacket == INVALID_PACKET_NUMBER)
      && (entries.contents != [] ==> firstPacket >= 0 && entries.contents[0].present)
    }

    ghost function Entries(): map<int, T>
      requires Counted()
      reads Repr()
    {
      Live(entries.contents, firstPacket)
    }

    ghost function State(): View<T>
      requires Valid()
      reads Repr()
    {
      View(Entries(), if entries.contents == [] then INVALID_PACKET_NUMBER
                      else firstPacket + |entries.contents| - 1)
    }

    constructor (noEntry: T, size: nat)
      ensures Valid() && fresh(Repr())
      ensures State() == EmptyView()
    {
      this.noEntry := noEntry;
      entries := new RingBuffer.Init(Slot(false, noEntry), size);
      numberOfPresentEntries := 0;
      firstPacket := INVALID_PACKET_NUMBER;
      new;
      EmptyLive(entries.contents, firstPacket);
    }

    predicate IsEmpty()
      requires Valid()
      reads Repr()
      ensures IsEmpty() <==> State() == EmptyView()
    {
      EmptyLive(entries.contents, firstPacket);
      numberOfPresentEntries == 0
    }

    function LastPacket(): (last: int)
      requires Valid()
      reads Repr()
      ensures last == State().last
    {
      EmptyLive(entries.contents, firstPacket);
      if IsEmpty() then INVALID_PACKET_NUMBER else firstPacket + (entries.Len() - 1)
    }

    function NumberOfPresentEntries(): (n: int)
      requires Valid()
      reads Repr()
      ensures n == |State().live|
    {
      CountIsLive(entries.contents, firstPacket);
      numberOfPresentEntries
    }

    /** The index of the slot that holds a live entry. */
    function IndexOf(packetNumber: int): (index: Option<nat>)
      requires Valid()
      reads Repr()
      ensures index.Some? <==> packetNumber in State().live
      ensures index.Some? ==> index.value < entries.Len() && packetNumber == firstPacket + index.value
    {
      hide RingBuffer.Valid;
      EmptyLive(entries.contents, firstPacket);
      if packetNumber == INVALID_PACKET_NUMBER || IsEmpty() || packetNumber < firstPacket then None
      else if packetNumber - firstPacket >= entries.Len() then None
      else if !entries.Offset(packetNumber - firstPacket).present then None
      else Some(packetNumber - firstPacket)
    }

    function GetEntry(packetNumber: int): (entry: Option<T>)
      requires Valid()
      reads Repr()
      ensures entry == Lookup(State(), packetNumber)
    {
      var index := IndexOf(packetNumber);
      if index.None? then None else Some(entries.Offset(index.value).entry)
    }

    /** Pushes one slot behind the last. */
    method Push(slot: Slot<T>)
      requires Counted()
      modifies Repr()
      ensures Counted() && fresh(Repr() - old(Repr()))
      ensures firstPacket == old(firstPacket)
      ensures numberOfPresentEntries == old(numberOfPresentEntries) + if slot.present then 1 else 0
      ensures entries.contents == old(entries.contents) + [slot]
      ensures Entries() == if slot.present
                           then old(Entries())[firstPacket + |old(entries.contents)| := slot.entry]
                           else old(Entries())
    {
      CountAppend(entries.contents, slot);
      LivePush(entries.contents, firstPacket, slot);
      entries.PushBack(slot);
      if slot.present {
        numberOfPresentEntries := numberOfPresentEntries + 1;
      }
    }

    method Emplace(packetNumber: int, entry: Option<T>) returns (ok: bool)
      requires Valid() && packetNumber >= INVALID_PACKET_NUMBER
      modifies Repr()
      ensures Valid() && fresh(Repr() - old(Repr()))
      ensures ok <==> entry.Some? && Accepts(old(State()), packetNumber)
      ensures State() == if entry.Some? then EmplaceView(old(State()), packetNumber, entry.value)
                         else old(State())
    {
      hide RingBuffer.Valid;
      EmptyLive(entries.contents, firstPacket);
      if packetNumber == INVALID_PACKET_NUMBER || entry.None? {
        return false;
      }
      if IsEmpty() {
        firstPacket := packetNumber;
        EmptyLive(entries.contents, firstPacket);
        Push(Slot(true, entry.value));
        return true;
      }
      if packetNumber <= LastPacket() {
        return false;
      }
      var offset := packetNumber - firstPacket;
      var gap := offset - entries.Len();
      ghost var slots := entries.contents;
      for i := 0 to gap
        invariant Counted() && fresh(Repr() - old(Repr()))
        invariant firstPacket == old(firstPacket) && Entries() == old(Entries())
        invariant slots <= entries.contents && |entries.contents| == |slots| + i
      {
        Push(Slot(false, noEntry));
      }
      Push(Slot(true, entry.value));
      return true;
    }

    /** Drops the front slot. */
    method Pop()
      requires Counted() && entries.contents != []
      modifies Repr()
      ensures Counted() && fresh(Repr() - old(Repr()))
      ensures firstPacket == old(firstPacket) + 1
      ensures entries.contents == old(entries.contents)[1..]
      ensures Entries() == old(Entries()) - {old(firstPacket)}
    {
      hide RingBuffer.Valid;
      LivePop(entries.contents, firstPacket);
      ghost var slots := entries.contents;
      if entries.Front().present {
        numberOfPresentEntries := numberOfPresentEntries - 1;
      }
      var front := entries.PopFront();
      assert slots[1..] == entries.contents;
      firstPacket := firstPacket + 1;
      assert this !in entries.Repr();
      assert entries.Valid();
      assert numberOfPresentEntries == CountPresent(entries.contents);
      assert Counted();
      assert Entries() == Live(slots[1..], old(firstPacket) + 1);
    }

    method Clearup()
      requires Counted()
      requires entries.contents != [] ==> firstPacket >= 0
      modifies Repr()
      ensures Valid() && fresh(Repr() - old(Repr()))
      ensures State().live == old(Entries())
      ensures entries.contents != [] ==>
        firstPacket + |entries.contents| == old(firstPacket + |entries.contents|)
    {
      while !entries.Empty() && !entries.Front().present
        invariant Counted() && fresh(Repr() - old(Repr()))
        invariant Entries() == old(Entries())
        invariant entries.contents != [] ==> firstPacket >= 0
        invariant firstPacket + |entries.contents| == old(firstPacket + |entries.contents|)
        decreases |entries.contents|
      {
        Pop();
      }
      if entries.Empty() {
        EmptyLive(entries.contents, firstPacket);
        firstPacket := INVALID_PACKET_NUMBER;
        EmptyLive(entries.contents, firstPacket);
      }
    }

    /** Marks one present slot as a hole. */
    method MarkAbsent(index: nat)
      requires Counted() && index < entries.Len() && entries.contents[index].present
      modifies Repr()
      ensures Counted() && Repr() == old(Repr())
      ensures firstPacket == old(firstPacket)
      ensures entries.contents == old(entries.contents)[index := old(entries.contents)[index].(present := false)]
      ensures Entries() == old(Entries()) - {firstPacket + index}
    {
      hide RingBuffer.Valid;
      CountClear(entries.contents, index);
      LiveClear(entries.contents, firstPacket, index);
      entries.SetOffset(index, entries.Offset(index).(present := false));
      numberOfPresentEntries := numberOfPresentEntries - 1;
      assert this !in entries.Repr() && entries.Valid();
    }

    /** Removes an entry; the source hands the removed entry to a callback. */
    method Remove(packetNumber: int) returns (removed: Option<T>)
      requires Valid()
      modifies Repr()
      ensures Valid() && fresh(Repr() - old(Repr()))
      ensures removed == Lookup(old(State()), packetNumber)
      ensures State() == RemoveView(old(State()), packetNumber)
    {
      hide RingBuffer.Valid;
      EmptyLive(entries.contents, firstPacket);
      removed := GetEntry(packetNumber);
      var index := IndexOf(packetNumber);
      if index.None? {
        assert State().live - {packetNumber} == State().live;
        return;
      }
      MarkAbsent(index.value);
      if packetNumber == firstPacket {
        Clearup();
      }
      EmptyLive(entries.contents, firstPacket);
    }

    method RemoveUpTo(packetNumber: int)
      requires Valid()
      modifies Repr()
      ensures Valid() && fresh(Repr() - old(Repr()))
      ensures State() == RemoveUpToView(old(State()), packetNumber)
    {
      hide RingBuffer.Valid, CountPresent, Live, PresentAt;
      while !entries.Empty() && firstPacket != INVALID_PACKET_NUMBER && firstPacket < packetNumber
        invariant Counted() && fresh(Repr() - old(Repr()))
        invariant entries.contents != [] ==> firstPacket >= 0
        invariant forall p :: p in Entries() <==> p in old(Entries()) && p >= firstPacket
        invariant forall p :: p in Entries() ==> Entries()[p] == old(Entries())[p]
        invariant firstPacket == old(firstPacket) || firstPacket <= packetNumber
        invariant firstPacket + |entries.contents| == old(firstPacket + |entries.contents|)
        decreases |entries.contents|
      {
        Pop();
      }
      Clearup();
      EmptyLive(entries.contents, firstPacket);
      assert State().live == RemoveUpToView(old(State()), packetNumber).live;
    }
  }
}
