/**
 Reassembly through a network that reorders and duplicates: exactly when a packet comes out of
 the defragger, and that it is the one that was split (hysteria2/packet.go:87-116, 349-398,
 tuic/packet.go:89-117, 390-437).
 */
module UdpReassembly {
  import opened Wrappers
  import opened Bytes
  import opened UdpFragments

  // ---------- Families ----------

  /** All the fragments of one packet: numbered in order, under one packet and session number. */
  ghost predicate Family<D>(f: seq<Message<D>>) {
    && 2 <= |f| < 256
    && forall k :: 0 <= k < |f| ==>
         && f[k].fragmentID == k && f[k].fragmentTotal == |f|
         && f[k].packetID == f[0].packetID && f[k].sessionID == f[0].sessionID
  }

  function FullSlots<D>(f: seq<Message<D>>): (s: seq<Option<Message<D>>>)
    ensures |s| == |f| && forall k :: 0 <= k < |f| ==> s[k] == Some(f[k])
  {
    seq(|f|, k requires 0 <= k < |f| => Some(f[k]))
  }

  /** The message that a whole family makes. */
  function WholeOf<D>(protocol: Protocol, f: seq<Message<D>>): Output<D>
    requires f != []
  {
    Assembled(protocol, FullSlots(f), f[0])
  }

  /** Every delivery under the family's packet number is one of the family. */
  ghost predicate Deliveries<D>(f: seq<Message<D>>, ds: seq<Message<D>>)
    requires Family(f)
  {
    forall i :: 0 <= i < |ds| && ds[i].packetID == f[0].packetID ==>
      ds[i].fragmentID < |f| && ds[i] == f[ds[i].fragmentID]
  }

  // ---------- The exact output ----------

  function FedAll<D>(protocol: Protocol, items: Items<D>, ds: seq<Message<D>>): (after: Items<D>)
    requires ItemsOk(items)
    ensures ItemsOk(after)
  {
    if ds == [] then items else Fed(protocol, FedAll(protocol, items, ds[..|ds| - 1]), ds[|ds| - 1]).0
  }

  /** What delivery i makes the defragger put out. */
  function OutputAt<D>(protocol: Protocol, items: Items<D>, ds: seq<Message<D>>, i: nat): Output<D>
    requires ItemsOk(items) && i < |ds|
  {
    Fed(protocol, FedAll(protocol, items, ds[..i]), ds[i]).1
  }

  /** The fragment numbers collected since the packet was last complete. */
  function Pending<D>(id: uint16, n: nat, ds: seq<Message<D>>): set<nat> {
    if ds == [] then {}
    else
      var before, d := Pending(id, n, ds[..|ds| - 1]), ds[|ds| - 1];
      if d.packetID != id then before
      else if |before + {d.fragmentID as nat}| == n then {}
      else before + {d.fragmentID as nat}
  }

  /** Delivery i brings the last missing fragment. */
  predicate Completes<D>(id: uint16, n: nat, ds: seq<Message<D>>, i: nat)
    requires i < |ds|
  {
    ds[i].packetID == id && |Pending(id, n, ds[..i]) + {ds[i].fragmentID as nat}| == n
  }

  /** The packet's item holds exactly the pending fragments; with none, its slots are not of this family's size. */
  ghost predicate Holds<D>(f: seq<Message<D>>, item: Item<D>, pending: set<nat>) {
    if pending == {} then |item.messages| != |f|
    else
      && |item.messages| == |f|
      && (forall k :: k in pending ==> k < |f|)
      && forall k :: 0 <= k < |f| ==> item.messages[k] == if k in pending then Some(f[k]) else None
  }

  lemma {:induction false} FilledIsSize<D>(messages: seq<Option<Message<D>>>, filled: set<nat>)
    requires forall k: nat :: k in filled <==> k < |messages| && messages[k].Some?
    ensures Filled(messages) == |filled|
  {
    if messages == [] {
      assert filled == {};
    } else {
      var n := |messages| - 1;
      FilledIsSize(messages[..n], filled - {n});
      if messages[n].Some? {
        assert filled == filled - {n} + {n};
      } else {
        assert filled == filled - {n};
      }
    }
  }

  lemma {:induction false} AllOf(s: set<nat>, n: nat)
    requires (forall k :: k in s ==> k < n) && |s| == n
    ensures forall k: nat :: k < n ==> k in s
  {
    if n > 0 {
      if n - 1 !in s {
        Bounded(s, n - 1);
      }
      AllOf(s - {n - 1}, n - 1);
    }
  }

  lemma {:induction false} Bounded(s: set<nat>, n: nat)
    requires forall k :: k in s ==> k < n
    ensures |s| <= n
  {
    if n == 0 {
      assert s == {};
    } else {
      Bounded(s - {n - 1}, n - 1);
    }
  }

  /** One delivery of the family's: it is stored, ignored, or completes the packet. */
  lemma {:induction false} FeedFragment<D>(protocol: Protocol, f: seq<Message<D>>, item: Item<D>, pending: set<nat>,
                                           k: nat)
    requires Family(f) && ItemOk(item) && Holds(f, item, pending) && k < |f|
    ensures var (after, out) := FeedItem(protocol, item, f[k]);
            var collected := pending + {k};
            if |collected| == |f| then out == WholeOf(protocol, f) && Holds(f, after, {})
            else out == Nothing && Holds(f, after, collected)
  {
    var collected := pending + {k};
    if pending == {} {
      assert collected == {k};
    } else {
      FilledIsSize(item.messages, pending);
      if k in pending {
        assert collected == pending;
      } else if |collected| == |f| {
        AllOf(collected, |f|);
        assert item.messages[k := Some(f[k])] == FullSlots(f);
      }
    }
  }

  /** After any deliveries, the packet's item holds exactly the pending fragments. */
  lemma {:induction false} ItemHoldsPending<D>(protocol: Protocol, f: seq<Message<D>>, items: Items<D>,
                                               ds: seq<Message<D>>)
    requires Family(f) && Deliveries(f, ds) && ItemsOk(items) && Holds(f, ItemFor(items, f[0].packetID), {})
    ensures Holds(f, ItemFor(FedAll(protocol, items, ds), f[0].packetID), Pending(f[0].packetID, |f|, ds))
  {
    hide Holds, FeedItem;
    if ds != [] {
      var init, d, id := ds[..|ds| - 1], ds[|ds| - 1], f[0].packetID;
      ItemHoldsPending(protocol, f, items, init);
      if d.packetID == id {
        FeedFragment(protocol, f, ItemFor(FedAll(protocol, items, init), id), Pending(id, |f|, init), d.fragmentID);
      }
    }
  }

  /**
   The exact output: a delivery of the family's puts out the whole message when it brings the
   last fragment missing since the packet was last complete, and nothing otherwise, for any
   order, any duplicates, and anything delivered under other packet numbers.
   */
  lemma {:induction false} OutputIsExact<D>(protocol: Protocol, f: seq<Message<D>>, items: Items<D>,
                                            ds: seq<Message<D>>, i: nat)
    requires Family(f) && Deliveries(f, ds) && i < |ds| && ds[i].packetID == f[0].packetID
    requires ItemsOk(items) && Holds(f, ItemFor(items, f[0].packetID), {})
    ensures OutputAt(protocol, items, ds, i)
         == if Completes(f[0].packetID, |f|, ds, i) then WholeOf(protocol, f) else Nothing
  {
    var id, init := f[0].packetID, ds[..i];
    ItemHoldsPending(protocol, f, items, init);
    FeedFragment(protocol, f, ItemFor(FedAll(protocol, items, init), id), Pending(id, |f|, init), ds[i].fragmentID);
  }

  /** The fragment numbers delivered at all. */
  function Delivered<D>(id: uint16, ds: seq<Message<D>>): set<nat> {
    set i: nat | i < |ds| && ds[i].packetID == id :: ds[i].fragmentID as nat
  }

  lemma {:induction false} DeliveredExtended<D>(id: uint16, ds: seq<Message<D>>)
    requires ds != []
    ensures var init, d := ds[..|ds| - 1], ds[|ds| - 1];
            Delivered(id, ds)
              == if d.packetID == id then Delivered(id, init) + {d.fragmentID as nat} else Delivered(id, init)
  {
    var init, d, n := ds[..|ds| - 1], ds[|ds| - 1], |ds| - 1;
    forall x
      ensures x in Delivered(id, ds) <==> x in Delivered(id, init) || (d.packetID == id && x == d.fragmentID)
    {
      if x in Delivered(id, init) {
        var i: nat :| i < |init| && init[i].packetID == id && init[i].fragmentID == x;
        assert ds[i].packetID == id && ds[i].fragmentID == x;
      }
      if d.packetID == id && x == d.fragmentID {
        assert ds[n].packetID == id && ds[n].fragmentID == x;
      }
    }
  }

  lemma {:induction false} PendingIsDelivered<D>(id: uint16, n: nat, ds: seq<Message<D>>)
    requires |Delivered(id, ds)| < n
    ensures Pending(id, n, ds) == Delivered(id, ds)
  {
    if ds == [] {
      assert Delivered(id, ds) == {};
    } else {
      DeliveredExtended(id, ds);
      SmallerSet(Delivered(id, ds[..|ds| - 1]), Delivered(id, ds));
      PendingIsDelivered(id, n, ds[..|ds| - 1]);
    }
  }

  lemma {:induction false} SmallerSet(a: set<nat>, b: set<nat>)
    requires a <= b
    ensures |a| <= |b|
  {
    assert b == a + (b - a);
  }

  /**
   Up to its first completion: nothing comes out before the last missing fragment of the
   family has been delivered, and then exactly the whole message does.
   */
  lemma {:induction false} FirstCompletion<D>(protocol: Protocol, f: seq<Message<D>>, items: Items<D>,
                                              ds: seq<Message<D>>, i: nat)
    requires Family(f) && Deliveries(f, ds) && i < |ds| && ds[i].packetID == f[0].packetID
    requires ItemsOk(items) && Holds(f, ItemFor(items, f[0].packetID), {})
    requires |Delivered(f[0].packetID, ds[..i])| < |f|
    ensures OutputAt(protocol, items, ds, i)
         == if |Delivered(f[0].packetID, ds[..i + 1])| == |f| then WholeOf(protocol, f) else Nothing
  {
    OutputIsExact(protocol, f, items, ds, i);
    PendingIsDelivered(f[0].packetID, |f|, ds[..i]);
    DeliveredExtended(f[0].packetID, ds[..i + 1]);
    assert ds[..i + 1][..i] == ds[..i];
  }

  // ---------- Leftovers ----------

  /** The slots once all the family is in, where leftovers of an older packet keep their places. */
  function Mixed<D>(f: seq<Message<D>>, leftovers: seq<Option<Message<D>>>): (s: seq<Option<Message<D>>>)
    requires |f| == |leftovers|
    ensures |s| == |f| && forall k :: 0 <= k < |f| ==> s[k].Some?
    ensures forall k :: 0 <= k < |f| ==> s[k] == if leftovers[k].Some? then leftovers[k] else Some(f[k])
  {
    seq(|f|, k requires 0 <= k < |f| => if leftovers[k].Some? then leftovers[k] else Some(f[k]))
  }

  /** The slots that the leftovers fill. */
  function Taken<D>(leftovers: seq<Option<Message<D>>>): set<nat> {
    set k: nat | k < |leftovers| && leftovers[k].Some?
  }

  /** The item holds the leftovers, and the delivered fragments in the other slots. */
  ghost predicate HoldsMixed<D>(f: seq<Message<D>>, leftovers: seq<Option<Message<D>>>, item: Item<D>,
                                delivered: set<nat>)
    requires |f| == |leftovers|
  {
    && |item.messages| == |f|
    && forall k :: 0 <= k < |f| ==>
         item.messages[k] == if leftovers[k].Some? then leftovers[k] else if k in delivered then Some(f[k]) else None
  }

  lemma {:induction false} FilledAll(s: set<nat>, n: nat)
    requires forall k: nat :: k in s <==> k < n
    ensures |s| == n
  {
    if n > 0 {
      FilledAll(s - {n - 1}, n - 1);
    } else {
      assert s == {};
    }
  }

  /** One delivery of the family's, in the presence of leftovers. */
  lemma {:induction false} FeedMixed<D>(protocol: Protocol, f: seq<Message<D>>, leftovers: seq<Option<Message<D>>>,
                                        item: Item<D>, delivered: set<nat>, k: nat)
    requires Family(f) && |f| == |leftovers| && ItemOk(item) && HoldsMixed(f, leftovers, item, delivered) && k < |f|
    requires forall i :: i in delivered ==> i < |f|
    ensures var (after, out) := FeedItem(protocol, item, f[k]);
            if |Taken(leftovers) + delivered + {k}| == |f|
            then out == Assembled(protocol, Mixed(f, leftovers), f[0]) && after.messages == []
            else out == Nothing && HoldsMixed(f, leftovers, after, delivered + {k})
  {
    hide Assembled, Mixed;
    var filled, after := Taken(leftovers) + delivered, Taken(leftovers) + delivered + {k};
    FilledIsSize(item.messages, filled);
    if k in filled {
      assert after == filled;
    } else if |after| == |f| {
      LastOneMixed(f, leftovers, item, delivered, k);
      AnyLast(protocol, f, Mixed(f, leftovers), k);
    }
  }

  lemma {:induction false} LastOneMixed<D>(f: seq<Message<D>>, leftovers: seq<Option<Message<D>>>,
                                           item: Item<D>, delivered: set<nat>, k: nat)
    requires |f| == |leftovers| && HoldsMixed(f, leftovers, item, delivered) && k < |f|
    requires (forall i :: i in delivered ==> i < |f|) && |Taken(leftovers) + delivered + {k}| == |f|
    requires k !in Taken(leftovers)
    ensures item.messages[k := Some(f[k])] == Mixed(f, leftovers)
  {
    AllOf(Taken(leftovers) + delivered + {k}, |f|);
    forall j | 0 <= j < |f| ensures item.messages[k := Some(f[k])][j] == Mixed(f, leftovers)[j] {
      assert j in Taken(leftovers) + delivered + {k};
    }
  }

  /** Any fragment of the family completes it in the same way. */
  lemma {:induction false} AnyLast<D>(protocol: Protocol, f: seq<Message<D>>, messages: seq<Option<Message<D>>>, k: nat)
    requires Family(f) && k < |f| && messages != [] && forall i :: 0 <= i < |messages| ==> messages[i].Some?
    ensures Assembled(protocol, messages, f[k]) == Assembled(protocol, messages, f[0])
  {
    hide Payload;
  }

  lemma {:induction false} ItemHoldsMixed<D>(protocol: Protocol, f: seq<Message<D>>, leftovers: seq<Option<Message<D>>>,
                                             items: Items<D>, ds: seq<Message<D>>)
    requires Family(f) && |f| == |leftovers| && Deliveries(f, ds) && ItemsOk(items)
    requires ItemFor(items, f[0].packetID).messages == leftovers
    requires |Taken(leftovers) + Delivered(f[0].packetID, ds)| < |f|
    ensures HoldsMixed(f, leftovers, ItemFor(FedAll(protocol, items, ds), f[0].packetID), Delivered(f[0].packetID, ds))
  {
    hide HoldsMixed, FeedItem, Taken, Mixed, Delivered;
    var id := f[0].packetID;
    if ds == [] {
      NothingDelivered<D>(id);
      StartsMixed(f, leftovers, ItemFor(items, id));
    } else {
      var init, d := ds[..|ds| - 1], ds[|ds| - 1];
      DeliveredExtended(id, ds);
      SmallerSet(Taken(leftovers) + Delivered(id, init), Taken(leftovers) + Delivered(id, ds));
      ItemHoldsMixed(protocol, f, leftovers, items, init);
      if d.packetID == id {
        DeliveredBelow(f, init);
        FeedMixed(protocol, f, leftovers, ItemFor(FedAll(protocol, items, init), id),
                  Delivered(id, init), d.fragmentID);
        assert Taken(leftovers) + Delivered(id, init) + {d.fragmentID as nat} == Taken(leftovers) + Delivered(id, ds);
      }
    }
  }

  lemma {:induction false} NothingDelivered<D>(id: uint16)
    ensures Delivered<D>(id, []) == {}
  {
  }

  lemma {:induction false} StartsMixed<D>(f: seq<Message<D>>, leftovers: seq<Option<Message<D>>>, item: Item<D>)
    requires |f| == |leftovers| && item.messages == leftovers
    ensures HoldsMixed(f, leftovers, item, {})
  {
  }

  lemma {:induction false} DeliveredBelow<D>(f: seq<Message<D>>, ds: seq<Message<D>>)
    requires Family(f) && Deliveries(f, ds)
    ensures forall k :: k in Delivered(f[0].packetID, ds) ==> k < |f|
  {
  }

  /**
   Without a clean start: leftovers of an older packet with the same number and size keep their
   slots. For any order, any duplicates and anything under other packet numbers, nothing comes
   out before the last empty slot is filled; then the leftovers do, with the family in the other
   slots; and the item starts clean again.
   */
  lemma {:induction false} FirstOutputWithLeftovers<D>(protocol: Protocol, f: seq<Message<D>>,
                                                       leftovers: seq<Option<Message<D>>>,
                                                       items: Items<D>, ds: seq<Message<D>>, i: nat)
    requires Family(f) && |f| == |leftovers| && Deliveries(f, ds) && ItemsOk(items)
    requires ItemFor(items, f[0].packetID).messages == leftovers
    requires i < |ds| && ds[i].packetID == f[0].packetID
    requires |Taken(leftovers) + Delivered(f[0].packetID, ds[..i])| < |f|
    ensures var complete := |Taken(leftovers) + Delivered(f[0].packetID, ds[..i + 1])| == |f|;
            && OutputAt(protocol, items, ds, i)
               == (if complete then Assembled(protocol, Mixed(f, leftovers), f[0]) else Nothing)
            && (complete ==> ItemFor(FedAll(protocol, items, ds[..i + 1]), f[0].packetID).messages == [])
  {
    hide HoldsMixed, FeedItem, Taken, Mixed, Delivered;
    var id, init := f[0].packetID, ds[..i];
    ItemHoldsMixed(protocol, f, leftovers, items, init);
    DeliveredBelow(f, init);
    FeedMixed(protocol, f, leftovers, ItemFor(FedAll(protocol, items, init), id),
              Delivered(id, init), ds[i].fragmentID);
    DeliveredExtended(id, ds[..i + 1]);
    assert ds[..i + 1][..i] == ds[..i];
    assert Taken(leftovers) + Delivered(id, init) + {ds[i].fragmentID as nat}
        == Taken(leftovers) + Delivered(id, ds[..i + 1]);
  }

  /** What a message that the first slot makes takes from it besides the payload. */
  ghost predicate SameHead<D>(protocol: Protocol, a: Message<D>, b: Message<D>) {
    if protocol == Tuic then a.(data := []) == b.(data := []) else a.destination == b.destination
  }

  /**
   The leftovers do no harm exactly when they carry the family's own bytes: the output is the
   whole message if and only if the joined payloads agree, and so does what the first slot gives.
   */
  lemma {:induction false} LeftoversAreHarmlessIff<D>(protocol: Protocol, f: seq<Message<D>>,
                                                      leftovers: seq<Option<Message<D>>>)
    requires Family(f) && |f| == |leftovers| && WholeOf(protocol, f).Put?
    ensures Assembled(protocol, Mixed(f, leftovers), f[0]) == WholeOf(protocol, f)
       <==> Payload(Mixed(f, leftovers)) == Payload(FullSlots(f))
            && SameHead(protocol, Mixed(f, leftovers)[0].value, f[0])
  {
    hide Payload;
  }

  function Fragment(id: nat, payload: byte): Message<seq<byte>>
    requires id < 256
  {
    Message(1, 7, id, 2, [], [payload])
  }

  /** Half of an older packet 7, then both halves of the new one: what comes out first is half of each. */
  lemma {:induction false} LeftoversMixIn()
    ensures var items := Fed(Hysteria2, map[], Fragment(0, 9)).0;
            FirstOutput(Hysteria2, items, [Fragment(0, 1), Fragment(1, 2)]) == Put(Message(1, 7, 0, 0, [], [9, 2]))
  {
    var old_, f := Fragment(0, 9), [Fragment(0, 1), Fragment(1, 2)];
    var items := Fed(Hysteria2, map[], old_).0;
    assert EmptySlots<seq<byte>>(2)[0 := Some(old_)] == [Some(old_), None];
    assert items == map[7 := Item([Some(old_), None], 1)];
    assert items[7 := items[7]] == items;
    assert Fed(Hysteria2, items, f[0]) == (items, Nothing);
    assert [Some(old_), None][1 := Some(f[1])] == [Some(old_), Some(f[1])];
    PayloadOfTwo(old_, f[1]);
    assert f[1..][0] == f[1];
  }

  lemma {:induction false} PayloadOfTwo<D>(first: Message<D>, second: Message<D>)
    ensures Payload([Some(first), Some(second)]) == first.data + second.data
  {
    var slots := [Some(first), Some(second)];
    assert slots[..1] == [Some(first)];
    assert slots[..1][..0] == [];
    assert Payload(slots[..1]) == first.data;
  }

  // ---------- The fragments of a message ----------

  lemma {:induction false} JoinAppend(pieces: seq<seq<byte>>, last: seq<byte>)
    ensures Join(pieces + [last]) == Join(pieces) + last
  {
    if pieces == [] {
      assert [last][1..] == [];
      assert Join([last]) == last + Join([]);
    } else {
      assert (pieces + [last])[1..] == pieces[1..] + [last];
      JoinAppend(pieces[1..], last);
    }
  }

  /** Full slots carry the joined pieces. */
  lemma {:induction false} PayloadIsJoin<D>(messages: seq<Option<Message<D>>>, pieces: seq<seq<byte>>)
    requires |messages| == |pieces|
    requires forall k :: 0 <= k < |messages| ==> messages[k].Some? && messages[k].value.data == pieces[k]
    ensures Payload(messages) == Join(pieces)
  {
    if messages != [] {
      var n := |messages| - 1;
      PayloadIsJoin(messages[..n], pieces[..n]);
      JoinAppend(pieces[..n], pieces[n]);
      assert pieces == pieces[..n] + [pieces[n]];
    }
  }

  lemma {:induction false} JoinPrefix(pieces: seq<seq<byte>>, n: nat)
    requires n <= |pieces| && forall k :: 0 <= k < |pieces| ==> pieces[k] != []
    ensures |Join(pieces[..n])| <= |Join(pieces)|
    ensures 0 < n ==> Join(pieces[..n]) != []
    ensures n < |pieces| ==> |Join(pieces[..n])| < |Join(pieces)|
    decreases |pieces|
  {
    if n < |pieces| {
      var last := |pieces| - 1;
      JoinPrefix(pieces[..last], n);
      JoinAppend(pieces[..last], pieces[last]);
      assert pieces == pieces[..last] + [pieces[last]];
      assert pieces[..last][..n] == pieces[..n];
    } else {
      assert pieces[..n] == pieces;
    }
  }

  /** The message as the receiver gets it: TUIC leaves the first fragment's numbers in it. */
  function Received<D>(protocol: Protocol, m: Message<D>, total: byte): Message<D> {
    if protocol == Tuic then m.(fragmentID := 0, fragmentTotal := total)
    else m.(fragmentID := 0, fragmentTotal := 0)
  }

  /** The first t fragments of a split message, when they carry t as their total, are a family. */
  lemma {:induction false} FragmentsAreFamily<D>(protocol: Protocol, blank: D, m: Message<D>, mtu: nat, t: nat)
    requires 0 < mtu < |m.data|
    requires var n := |Pieces(m.data, mtu)|; 2 <= t <= n && t == n % 256
    ensures var f, pieces := Fragments(protocol, blank, m, mtu)[..t], Pieces(m.data, mtu);
            && Family(f) && f[0].packetID == m.packetID && f[0].sessionID == m.sessionID
            && f[0].destination == m.destination && f[0].fragmentTotal == t
            && forall k :: 0 <= k < t ==> f[k].data == pieces[k]
  {
    hide Pieces;
    var pieces := Pieces(m.data, mtu);
    forall k | 0 <= k < t
      ensures Fragments(protocol, blank, m, mtu)[k] == FragmentOf(protocol, blank, m, pieces[k], k, |pieces|)
    {
    }
  }

  /** What the family of the first t fragments makes. */
  lemma {:induction false} FragmentsMake<D>(protocol: Protocol, blank: D, m: Message<D>, mtu: nat, t: nat)
    requires 0 < mtu < |m.data| && (protocol == Tuic ==> |m.data| < 0x1_0000)
    requires var n := |Pieces(m.data, mtu)|; 2 <= t <= n && t == n % 256
    ensures WholeOf(protocol, Fragments(protocol, blank, m, mtu)[..t])
         == Put(Received(protocol, m.(data := Join(Pieces(m.data, mtu)[..t])), t))
  {
    hide Pieces, Fragments, Payload, FragmentOf;
    var f, pieces := Fragments(protocol, blank, m, mtu)[..t], Pieces(m.data, mtu);
    FragmentsAreFamily(protocol, blank, m, mtu, t);
    PiecesFacts(m.data, mtu);
    PayloadIsJoin(FullSlots(f), pieces[..t]);
    JoinPrefix(pieces, t);
  }

  /** A message split into at most 255 fragments: they are a family, and make the message again. */
  lemma {:induction false} SplitIsFamily<D>(protocol: Protocol, blank: D, m: Message<D>, mtu: nat)
    requires 0 < mtu < |m.data| && |Pieces(m.data, mtu)| <= 255 && (protocol == Tuic ==> |m.data| < 0x1_0000)
    ensures var f := Fragments(protocol, blank, m, mtu);
            && Family(f) && f[0].packetID == m.packetID
            && WholeOf(protocol, f) == Put(Received(protocol, m, |f|))
  {
    var n := |Pieces(m.data, mtu)|;
    PiecesFacts(m.data, mtu);
    FragmentsAreFamily(protocol, blank, m, mtu, n);
    FragmentsMake(protocol, blank, m, mtu, n);
    var f, pieces := Fragments(protocol, blank, m, mtu), Pieces(m.data, mtu);
    assert f[..n] == f && pieces[..n] == pieces;
  }

  // ---------- The limit of 255 fragments ----------

  /** The first output of a run of deliveries, if any. */
  function FirstOutput<D>(protocol: Protocol, items: Items<D>, ds: seq<Message<D>>): Output<D>
    requires ItemsOk(items)
    decreases |ds|
  {
    if ds == [] then Nothing
    else
      var (after, out) := Fed(protocol, items, ds[0]);
      if out != Nothing then out else FirstOutput(protocol, after, ds[1..])
  }

  lemma {:induction false} FedAllFrom<D>(protocol: Protocol, items: Items<D>, ds: seq<Message<D>>)
    requires ItemsOk(items) && ds != []
    ensures FedAll(protocol, items, ds) == FedAll(protocol, Fed(protocol, items, ds[0]).0, ds[1..])
  {
    var n := |ds| - 1;
    if n > 0 {
      FedAllFrom(protocol, items, ds[..n]);
      assert ds[..n][1..] == ds[1..][..n - 1];
    } else {
      assert ds[..n] == [] && ds[1..] == [];
    }
  }

  lemma {:induction false} FirstOutputAt<D>(protocol: Protocol, items: Items<D>, ds: seq<Message<D>>, i: nat)
    requires ItemsOk(items) && i < |ds| && OutputAt(protocol, items, ds, i) != Nothing
    requires forall j: nat :: j < i ==> OutputAt(protocol, items, ds, j) == Nothing
    ensures FirstOutput(protocol, items, ds) == OutputAt(protocol, items, ds, i)
    decreases i
  {
    hide Fed, ItemsOk;
    assert ds[..0] == [];
    if i > 0 {
      assert OutputAt(protocol, items, ds, 0) == Nothing;
      var after := Fed(protocol, items, ds[0]).0;
      forall j: nat | j < i ensures OutputAt(protocol, after, ds[1..], j) == OutputAt(protocol, items, ds, j + 1) {
        FedAllFrom(protocol, items, ds[..j + 1]);
        assert ds[..j + 1][1..] == ds[1..][..j];
      }
      FirstOutputAt(protocol, after, ds[1..], i - 1);
    }
  }

  lemma {:induction false} DeliveredInOrder<D>(f: seq<Message<D>>, i: nat)
    requires Family(f) && i <= |f|
    ensures |Delivered(f[0].packetID, f[..i])| == i
  {
    if i == 0 {
      assert Delivered(f[0].packetID, f[..0]) == {};
    } else {
      DeliveredInOrder(f, i - 1);
      DeliveredExtended(f[0].packetID, f[..i]);
      assert f[..i][..i - 1] == f[..i - 1];
      assert i - 1 !in Delivered(f[0].packetID, f[..i - 1]);
    }
  }

  lemma {:induction false} InOrderOutputAt<D>(protocol: Protocol, f: seq<Message<D>>, ds: seq<Message<D>>, i: nat)
    requires Family(f) && f <= ds && i < |f|
    ensures OutputAt(protocol, map[], ds, i) == if i == |f| - 1 then WholeOf(protocol, f) else Nothing
  {
    hide Fed, WholeOf, Delivered, ItemsOk;
    DeliveredInOrder(f, i);
    DeliveredInOrder(f, i + 1);
    EmptyIsOk<D>();
    FirstCompletion(protocol, f, map[], f, i);
    assert ds[..i] == f[..i];
  }

  lemma {:induction false} EmptyIsOk<D>()
    ensures ItemsOk<D>(map[])
  {
  }

  /** A family delivered in order, whatever follows it: the first output is its whole message. */
  lemma {:induction false} InOrderFirstOutput<D>(protocol: Protocol, f: seq<Message<D>>, ds: seq<Message<D>>)
    requires Family(f) && f <= ds && WholeOf(protocol, f) != Nothing
    ensures FirstOutput(protocol, map[], ds) == WholeOf(protocol, f)
  {
    hide OutputAt, WholeOf;
    var n := |f|;
    forall i: nat | i < n
      ensures OutputAt(protocol, map[], ds, i) == if i == n - 1 then WholeOf(protocol, f) else Nothing
    {
      InOrderOutputAt(protocol, f, ds, i);
    }
    FirstOutputAt(protocol, map[], ds, n - 1);
  }

  /**
   The limit is exact: fragments delivered in order to an empty defragger give the message back
   if and only if there are at most 255 of them. Beyond, the 8-bit total wraps, and what comes
   out first is a shorter message.
   */
  lemma {:induction false} AtMost255Fragments<D>(protocol: Protocol, blank: D, m: Message<D>, mtu: nat)
    requires 0 < mtu < |m.data| && (protocol == Tuic ==> |m.data| < 0x1_0000)
    ensures var f := Fragments(protocol, blank, m, mtu);
            var out := FirstOutput(protocol, map[], f);
            && (|f| <= 255 ==> out == Put(Received(protocol, m, |f|)))
            && (|f| > 255 ==> out.Put? && |out.message.data| < |m.data|)
  {
    var f, pieces := Fragments(protocol, blank, m, mtu), Pieces(m.data, mtu);
    var t := |f| % 256;
    PiecesFacts(m.data, mtu);
    if |f| <= 255 {
      SplitIsFamily(protocol, blank, m, mtu);
      InOrderFirstOutput(protocol, f, f);
    } else if t <= 1 {
      assert f[0].fragmentTotal == t;
    } else {
      FragmentsAreFamily(protocol, blank, m, mtu, t);
      FragmentsMake(protocol, blank, m, mtu, t);
      InOrderFirstOutput(protocol, f[..t], f);
      JoinPrefix(pieces, t);
    }
  }

  // ---------- What comes out ----------

  /**
   What full slots put out: the joined payloads, under the identity of the last fragment, or in TUIC
   of the first; nothing when there are no bytes, or in TUIC a multiple of 65536; and a length that
   has wrapped when there are 65536 or more.
   */
  lemma {:induction false} AssembledIs<D>(protocol: Protocol, messages: seq<Option<Message<D>>>, last: Message<D>)
    requires messages != [] && forall i :: 0 <= i < |messages| ==> messages[i].Some?
    ensures var data, first := Payload(messages), messages[0].value;
            Assembled(protocol, messages, last) ==
              if protocol == Hysteria2 then
                if data == [] then Nothing
                else Put(first.(data := data, sessionID := last.sessionID, packetID := last.packetID,
                                fragmentID := 0, fragmentTotal := 0))
              else if |data| % 65536 == 0 then Nothing
              else if |data| < 65536 then Put(first.(data := data))
              else Overflow(|data| % 65536)
  {
  }
}
