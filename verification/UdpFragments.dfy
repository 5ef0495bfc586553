/**
 Splitting a UDP message into fragments and putting it together again: the parts that
 hysteria2/packet.go and tuic/packet.go share. The two differ in what a later fragment
 carries for a destination, and in the header of a reassembled message.

 The packet map is a plain finite map: its age eviction is not part of this model.
 */
module UdpFragments {
  import opened Wrappers
  import opened Bytes

  type uint16 = x: int | 0 <= x < 0x1_0000

  /** The destination is an address of either protocol. */
  datatype Message<D> = Message(
    sessionID: nat, packetID: uint16, fragmentID: byte, fragmentTotal: byte, destination: D, data: seq<byte>)

  datatype Protocol = Hysteria2 | Tuic

  /**
   What feeding a fragment puts out. TUIC adds up the lengths in 16 bits: when the sum has wrapped
   to a `length` of its own, a buffer of that length takes the payloads, and what becomes of them
   is up to the library's buffer, which is not part of this model.
   */
  datatype Output<D> = Nothing | Put(message: Message<D>) | Overflow(length: uint16)

  // ---------- Splitting ----------

  /** The payload in pieces of `mtu` bytes, the last one possibly shorter. */
  function Pieces(data: seq<byte>, mtu: nat): (p: seq<seq<byte>>)
    requires mtu > 0
    ensures data == [] <==> p == []
  {
    if data == [] then []
    else if |data| <= mtu then [data]
    else [data[..mtu]] + Pieces(data[mtu..], mtu)
  }

  function Join(pieces: seq<seq<byte>>): seq<byte> {
    if pieces == [] then [] else pieces[0] + Join(pieces[1..])
  }

  /** Fragment number `index` of `total`; a later one loses its destination in TUIC. */
  function FragmentOf<D>(protocol: Protocol, blank: D, m: Message<D>, piece: seq<byte>, index: nat,
                         total: nat): Message<D> {
    m.(data := piece, fragmentID := index % 256, fragmentTotal := total % 256,
       destination := if protocol == Tuic && index > 0 then blank else m.destination)
  }

  function Fragments<D>(protocol: Protocol, blank: D, m: Message<D>, mtu: int): (fragments: seq<Message<D>>)
    requires |m.data| <= mtu || mtu > 0
    ensures |fragments| == if |m.data| <= mtu then 1 else |Pieces(m.data, mtu)|
  {
    if |m.data| <= mtu then [m]
    else
      var pieces := Pieces(m.data, mtu);
      seq(|pieces|, i requires 0 <= i < |pieces| => FragmentOf(protocol, blank, m, pieces[i], i, |pieces|))
  }

  /** The pieces are non-empty, as long as the limit but for the last, which is no longer, and together the payload. */
  lemma {:induction false} PiecesFacts(data: seq<byte>, mtu: nat)
    requires mtu > 0
    ensures Join(Pieces(data, mtu)) == data
    ensures forall i :: 0 <= i < |Pieces(data, mtu)| ==> 0 < |Pieces(data, mtu)[i]| <= mtu
    ensures |data| > mtu ==> |Pieces(data, mtu)| >= 2
    ensures forall i :: 0 <= i < |Pieces(data, mtu)| - 1 ==> |Pieces(data, mtu)[i]| == mtu
    decreases |data|
  {
    if |data| > mtu {
      PiecesFacts(data[mtu..], mtu);
      assert Pieces(data, mtu)[1..] == Pieces(data[mtu..], mtu);
    } else if data != [] {
      assert Join([data]) == data + Join([]);
    }
  }

  /** The splitting loop, then the loop that numbers the fragments. */
  method FragUDPMessage<D>(protocol: Protocol, blank: D, message: Message<D>,
                           udpMTU: int) returns (fragments: seq<Message<D>>)
    requires |message.data| <= udpMTU || udpMTU > 0
    ensures fragments == Fragments(protocol, blank, message, udpMTU)
  {
    if |message.data| <= udpMTU {
      return [message];
    }
    fragments := [];
    var originPacket, remaining := message.data, |message.data|;
    ghost var pieces := Pieces(message.data, udpMTU);
    while remaining > 0
      invariant remaining > 0 ==> remaining == |originPacket|
      invariant remaining <= 0 ==> originPacket == []
      invariant |fragments| <= |pieces| && pieces[|fragments|..] == Pieces(originPacket, udpMTU)
      invariant forall i :: 0 <= i < |fragments| ==> fragments[i] == message.(data := pieces[i])
    {
      var fragment := message;
      assert Pieces(originPacket, udpMTU) == pieces[|fragments|..];
      if remaining > udpMTU {
        fragment := fragment.(data := originPacket[..udpMTU]);
        originPacket := originPacket[udpMTU..];
      } else {
        fragment := fragment.(data := originPacket);
        originPacket := [];
      }
      assert pieces[|fragments|] == fragment.data;
      fragments := fragments + [fragment];
      remaining := remaining - udpMTU;
    }
    var fragmentTotal := |fragments|;
    for index := 0 to |fragments|
      invariant |fragments| == fragmentTotal == |pieces|
      invariant forall i :: index <= i < |fragments| ==> fragments[i] == message.(data := pieces[i])
      invariant forall i :: 0 <= i < index ==>
          fragments[i] == FragmentOf(protocol, blank, message, pieces[i], i, fragmentTotal)
    {
      var fragment := fragments[index].(fragmentID := index % 256, fragmentTotal := fragmentTotal % 256);
      if protocol == Tuic && index > 0 {
        fragment := fragment.(destination := blank);
      }
      fragments := fragments[index := fragment];
    }
  }

  // ---------- Reassembly ----------

  /** The slots of one packet number, and the 8-bit count of those filled. */
  datatype Item<D> = Item(messages: seq<Option<Message<D>>>, count: byte)

  type Items<D> = map<uint16, Item<D>>

  function EmptySlots<D>(n: nat): (s: seq<Option<Message<D>>>)
    ensures |s| == n && forall i :: 0 <= i < n ==> s[i] == None
  {
    seq(n, _ => None)
  }

  /** How many slots are filled. */
  function Filled<D>(messages: seq<Option<Message<D>>>): (n: nat)
    ensures n <= |messages|
    ensures n == |messages| ==> forall i :: 0 <= i < |messages| ==> messages[i].Some?
  {
    if messages == [] then 0
    else Filled(messages[..|messages| - 1]) + if messages[|messages| - 1].Some? then 1 else 0
  }

  /** While a packet is being put together, its count is right, and it is not complete. */
  predicate ItemOk<D>(item: Item<D>) {
    item.messages == [] || (item.count == Filled(item.messages) && item.count < |item.messages| < 256)
  }

  ghost predicate ItemsOk<D>(items: Items<D>) {
    forall id :: id in items ==> ItemOk(items[id])
  }

  /** The payloads of full slots, in order. */
  function Payload<D>(messages: seq<Option<Message<D>>>): seq<byte>
    requires forall i :: 0 <= i < |messages| ==> messages[i].Some?
  {
    if messages == [] then []
    else Payload(messages[..|messages| - 1]) + messages[|messages| - 1].value.data
  }

  /** The length that the assembly counts. */
  function CountedLength(protocol: Protocol, length: nat): nat {
    if protocol == Tuic then length % 0x1_0000 else length
  }

  /** The message that full slots make; one of no counted length is dropped. */
  function Assembled<D>(protocol: Protocol, messages: seq<Option<Message<D>>>, last: Message<D>): Output<D>
    requires messages != [] && forall i :: 0 <= i < |messages| ==> messages[i].Some?
  {
    var data := Payload(messages);
    var length := CountedLength(protocol, |data|);
    if length == 0 then Nothing
    else if length != |data| then Overflow(length)
    else if protocol == Tuic then Put(messages[0].value.(data := data))
    else Put(Message(last.sessionID, last.packetID, 0, 0, messages[0].value.destination, data))
  }

  lemma {:induction false} FillOne<D>(messages: seq<Option<Message<D>>>, i: nat, m: Message<D>)
    requires i < |messages| && messages[i].None?
    ensures Filled(messages[i := Some(m)]) == Filled(messages) + 1
  {
    var n, filled := |messages| - 1, messages[i := Some(m)];
    if i == n {
      assert filled[..n] == messages[..n];
    } else {
      assert filled[..n] == messages[..n][i := Some(m)];
      FillOne(messages[..n], i, m);
    }
  }

  lemma {:induction false} NoneFilled<D>(n: nat)
    ensures Filled(EmptySlots<D>(n)) == 0
  {
    if n > 0 {
      assert EmptySlots<D>(n)[..n - 1] == EmptySlots<D>(n - 1);
      NoneFilled<D>(n - 1);
    }
  }

  /** The effect of a fragment on the item of its packet, and the message it completes. */
  function FeedItem<D>(protocol: Protocol, item: Item<D>, m: Message<D>): (r: (Item<D>, Output<D>))
    requires ItemOk(item) && m.fragmentID < m.fragmentTotal && m.fragmentTotal > 1
    ensures ItemOk(r.0)
  {
    if m.fragmentTotal != |item.messages| then
      NoneFilled<D>(m.fragmentTotal);
      FillOne(EmptySlots<D>(m.fragmentTotal), m.fragmentID, m);
      (Item(EmptySlots(m.fragmentTotal)[m.fragmentID := Some(m)], 1), Nothing)
    else if item.messages[m.fragmentID].Some? then (item, Nothing)
    else
      FillOne(item.messages, m.fragmentID, m);
      var messages, count := item.messages[m.fragmentID := Some(m)], item.count + 1;
      if count != |messages| then (Item(messages, count), Nothing)
      else (Item([], count), Assembled(protocol, messages, m))
  }

  function ItemFor<D>(items: Items<D>, id: uint16): Item<D> {
    if id in items then items[id] else Item([], 0)
  }

  function Fed<D>(protocol: Protocol, items: Items<D>, m: Message<D>): (r: (Items<D>, Output<D>))
    requires ItemsOk(items)
    ensures ItemsOk(r.0)
  {
    if m.fragmentTotal <= 1 then (items, Put(m))
    else if m.fragmentID >= m.fragmentTotal then (items, Nothing)
    else
      var (item, out) := FeedItem(protocol, ItemFor(items, m.packetID), m);
      (items[m.packetID := item], out)
  }

  class UdpDefragger<D> {
    const protocol: Protocol
    var packetMap: Items<D>

    ghost predicate Valid()
      reads this
    {
      ItemsOk(packetMap)
    }

    constructor (protocol: Protocol)
      ensures Valid() && this.protocol == protocol && packetMap == map[]
    {
      this.protocol := protocol;
      packetMap := map[];
    }

    method Feed(m: Message<D>) returns (out: Output<D>)
      requires Valid()
      modifies this
      ensures Valid()
      ensures (packetMap, out) == Fed(protocol, old(packetMap), m)
    {
      if m.fragmentTotal <= 1 {
        return Put(m);
      }
      if m.fragmentID >= m.fragmentTotal {
        return Nothing;
      }
      var item := if m.packetID in packetMap then packetMap[m.packetID] else Item([], 0);
      item, out := FeedSlots(item, m);
      packetMap := packetMap[m.packetID := item];
    }

    /** The part of feeding that works on the slots of one packet. */
    method FeedSlots(before: Item<D>, m: Message<D>) returns (item: Item<D>, out: Output<D>)
      requires ItemOk(before) && m.fragmentID < m.fragmentTotal && m.fragmentTotal > 1
      ensures ItemOk(item)
      ensures (item, out) == FeedItem(protocol, before, m)
    {
      item := before;
      if m.fragmentTotal != |item.messages| {
        NoneFilled<D>(m.fragmentTotal);
        FillOne(EmptySlots<D>(m.fragmentTotal), m.fragmentID, m);
        item := Item(EmptySlots(m.fragmentTotal)[m.fragmentID := Some(m)], 1);
        return item, Nothing;
      }
      if item.messages[m.fragmentID].Some? {
        return item, Nothing;
      }
      FillOne(item.messages, m.fragmentID, m);
      item := Item(item.messages[m.fragmentID := Some(m)], item.count + 1);
      if item.count != |item.messages| {
        return item, Nothing;
      }
      out := AssembleSlots(item.messages, m);
      item := item.(messages := []);
    }

    /** Concatenates the payloads of full slots. */
    method AssembleSlots(messages: seq<Option<Message<D>>>, last: Message<D>) returns (out: Output<D>)
      requires messages != [] && forall i :: 0 <= i < |messages| ==> messages[i].Some?
      ensures out == Assembled(protocol, messages, last)
    {
      var finalLength, data := 0, [];
      for i := 0 to |messages|
        invariant data == Payload(messages[..i]) && finalLength == CountedLength(protocol, |data|)
      {
        assert messages[..i + 1][..i] == messages[..i];
        WrapsOnce(|data|, |messages[i].value.data|);
        finalLength := CountedLength(protocol, finalLength + CountedLength(protocol, |messages[i].value.data|));
        data := data + messages[i].value.data;
      }
      assert messages[..|messages|] == messages;
      if finalLength == 0 {
        return Nothing;
      }
      if finalLength != |data| {
        return Overflow(finalLength);
      }
      if protocol == Tuic {
        return Put(messages[0].value.(data := data));
      }
      return Put(Message(last.sessionID, last.packetID, 0, 0, messages[0].value.destination, data));
    }
  }

  /** Adding up in 16 bits is adding up, wrapped once. */
  lemma {:induction false} WrapsOnce(a: nat, b: nat)
    ensures (a % 0x1_0000 + b % 0x1_0000) % 0x1_0000 == (a + b) % 0x1_0000
  {
  }
}
