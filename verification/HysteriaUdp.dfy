/**
 The datagrams of hysteria2/packet.go: their encoding, and the whole way of a UDP message from
 splitting through encoding, delivery, decoding and reassembly.
 */
module HysteriaUdp {
  import opened Wrappers
  import opened Bytes
  import opened Varints
  import opened TcpFraming
  import opened UdpFragments
  import opened UdpReassembly

  /** Destinations are address strings. */
  type UdpMessage = m: Message<seq<byte>> | m.sessionID < 0x1_0000_0000 && |m.destination| <= MAX_VARINT_8
    witness Message(0, 0, 0, 0, [], [])

  function HeaderSize(m: UdpMessage): nat {
    8 + Len(|m.destination|) + |m.destination|
  }

  /** The fixed fields of the header. */
  function Fields(m: UdpMessage): (s: seq<byte>)
    ensures |s| == 8
  {
    BigEndian(m.sessionID, 4) + BigEndian(m.packetID, 2) + [m.fragmentID] + [m.fragmentTotal]
  }

  function Packed(m: UdpMessage): seq<byte> {
    Fields(m) + VString(m.destination) + m.data
  }

  function Decoded(s: seq<byte>): Result<Message<seq<byte>>, Error> {
    if |s| < 8 then Err(UnexpectedEof)
    else
      var destination := ParseVString(s[8..], 0, MAX_ADDRESS_LENGTH);
      Powers();
      if destination.Err? then Err(destination.error)
      else Ok(Message(FromBigEndian(s[..4]), FromBigEndian(s[4..6]), s[6], s[7],
                      destination.value.0, destination.value.1))
  }

  /** A datagram, byte by byte, for a destination below 64 bytes. */
  lemma {:induction false} ShortDatagram(m: UdpMessage)
    requires |m.destination| < 64
    ensures Packed(m)
         == [m.sessionID / 0x100_0000, m.sessionID / 0x1_0000 % 0x100, m.sessionID / 0x100 % 0x100,
             m.sessionID % 0x100, m.packetID / 0x100, m.packetID % 0x100, m.fragmentID, m.fragmentTotal,
             |m.destination|]
          + m.destination + m.data
  {
    hide Encode, BigEndian;
    ShortBigEndian(m.sessionID);
    ShortBigEndian(m.packetID);
    EncodedBytes(|m.destination|);
  }

  method Pack(m: UdpMessage) returns (buffer: seq<byte>)
    ensures buffer == Packed(m) && |buffer| == HeaderSize(m) + |m.data|
  {
    hide BigEndian, Encode;
    buffer := BigEndian(m.sessionID, 4);
    buffer := buffer + BigEndian(m.packetID, 2);
    buffer := buffer + [m.fragmentID];
    buffer := buffer + [m.fragmentTotal];
    buffer := buffer + Encode(|m.destination|);
    buffer := buffer + m.destination;
    buffer := buffer + m.data;
    assert buffer == Packed(m);
  }

  method DecodeUDPMessage(data: seq<byte>) returns (r: Result<Message<seq<byte>>, Error>)
    ensures r == Decoded(data)
  {
    hide ParseVString, FromBigEndian;
    Powers();
    var reader := new Reader(data);
    var sessionID := reader.ReadFull(4);
    if sessionID.Err? { return Err(UnexpectedEof); }
    var packetID := reader.ReadFull(2);
    if packetID.Err? { return Err(UnexpectedEof); }
    var fragmentID := reader.ReadFull(1);
    if fragmentID.Err? { return Err(UnexpectedEof); }
    var fragmentTotal := reader.ReadFull(1);
    if fragmentTotal.Err? { return Err(UnexpectedEof); }
    assert packetID.value == data[4..6] && reader.rest == data[8..];
    var destination := ReadVString(reader, 0, MAX_ADDRESS_LENGTH);
    if destination.Err? { return Err(destination.error); }
    return Ok(Message(FromBigEndian(sessionID.value), FromBigEndian(packetID.value),
                      fragmentID.value[0], fragmentTotal.value[0], destination.value, reader.rest));
  }

  // ---------- Round trips ----------

  lemma {:induction false} FieldsSplit(m: UdpMessage)
    ensures var s := Fields(m);
            && s[..4] == BigEndian(m.sessionID, 4) && s[4..6] == BigEndian(m.packetID, 2)
            && s[6] == m.fragmentID && s[7] == m.fragmentTotal
  {
    hide BigEndian;
  }

  /** A datagram is decoded to the message it encodes exactly when the address is within the reader's limit. */
  lemma {:induction false} PackRoundTrip(m: UdpMessage)
    ensures Decoded(Packed(m)) == if |m.destination| <= 2048 then Ok(m) else Err(InvalidLength)
  {
    hide BigEndian, FromBigEndian, ParseVString, VString, Fields;
    Powers();
    var s := Packed(m);
    FieldsSplit(m);
    assert s[..8] == Fields(m);
    assert s[..4] == s[..8][..4] && s[4..6] == s[..8][4..6];
    BigEndianRoundTrip(m.sessionID, 4);
    BigEndianRoundTrip(m.packetID, 2);
    assert s[8..] == VString(m.destination) + m.data;
    VStringRoundTrip(m.destination, m.data, 0, MAX_ADDRESS_LENGTH);
  }

  /** The fragments that a message is sent in, for a limit on the packet size. */
  function Split(m: UdpMessage, maxPacketSize: nat): (f: seq<UdpMessage>)
    requires |m.data| <= maxPacketSize - HeaderSize(m) || maxPacketSize > HeaderSize(m)
    ensures f == Fragments(Hysteria2, [], m, maxPacketSize - HeaderSize(m))
  {
    var f := Fragments(Hysteria2, [], m, maxPacketSize - HeaderSize(m));
    assert forall k :: 0 <= k < |f| ==> f[k].sessionID == m.sessionID && f[k].destination == m.destination;
    f
  }

  /** No encoded fragment exceeds the packet size, and every one decodes to itself. */
  lemma {:induction false} FragmentsFit(m: UdpMessage, maxPacketSize: nat, k: nat)
    requires maxPacketSize > HeaderSize(m) && |m.destination| <= 2048
    requires k < |Split(m, maxPacketSize)|
    ensures var f := Split(m, maxPacketSize)[k];
            |Packed(f)| <= maxPacketSize && Decoded(Packed(f)) == Ok(f)
  {
    hide Packed, Decoded, Pieces, Len;
    var f := Split(m, maxPacketSize)[k];
    PiecesFacts(m.data, maxPacketSize - HeaderSize(m));
    PackRoundTrip(f);
    PackedSize(f);
  }

  lemma {:induction false} PackedSize(m: UdpMessage)
    ensures |Packed(m)| == HeaderSize(m) + |m.data|
  {
    hide BigEndian, Encode;
  }

  /** Every datagram decodes to its delivery, and under the packet number only fragments of m are sent. */
  ghost predicate Wire(m: UdpMessage, maxPacketSize: nat, wire: seq<seq<byte>>, ds: seq<Message<seq<byte>>>)
    requires maxPacketSize > HeaderSize(m)
  {
    && |wire| == |ds|
    && (forall i :: 0 <= i < |ds| ==> Decoded(wire[i]) == Ok(ds[i]))
    && (forall i :: 0 <= i < |ds| && ds[i].packetID == m.packetID ==> IsFragmentOf(m, maxPacketSize, wire[i]))
  }

  ghost predicate IsFragmentOf(m: UdpMessage, maxPacketSize: nat, datagram: seq<byte>)
    requires maxPacketSize > HeaderSize(m)
  {
    exists k: nat :: k < |Split(m, maxPacketSize)| && datagram == Packed(Split(m, maxPacketSize)[k])
  }

  lemma {:induction false} WireDeliversFragments(m: UdpMessage, maxPacketSize: nat, wire: seq<seq<byte>>,
                                                 ds: seq<Message<seq<byte>>>)
    requires maxPacketSize > HeaderSize(m) && |m.destination| <= 2048
    requires Wire(m, maxPacketSize, wire, ds)
    requires Family(Split(m, maxPacketSize)) && Split(m, maxPacketSize)[0].packetID == m.packetID
    ensures Deliveries(Split(m, maxPacketSize), ds)
  {
    var f := Split(m, maxPacketSize);
    forall i | 0 <= i < |ds| && ds[i].packetID == m.packetID
      ensures ds[i].fragmentID < |f| && ds[i] == f[ds[i].fragmentID]
    {
      assert IsFragmentOf(m, maxPacketSize, wire[i]);
      var k: nat :| k < |f| && wire[i] == Packed(f[k]);
      FragmentsFit(m, maxPacketSize, k);
    }
  }

  /**
   End to end: a message split into at most 255 fragments, encoded, delivered in any order with
   any duplicates among datagrams of other packets, decoded and fed to a defragger that has no
   leftovers of its size. Each datagram of the message puts out nothing, unless it brings the
   last fragment missing since the last completion, and then exactly the original message.
   */
  lemma {:induction false} EndToEnd(m: UdpMessage, maxPacketSize: nat, items: Items<seq<byte>>,
                                    wire: seq<seq<byte>>, ds: seq<Message<seq<byte>>>, i: nat)
    requires |m.data| > maxPacketSize - HeaderSize(m) > 0 && |m.destination| <= 2048
    requires |Split(m, maxPacketSize)| <= 255
    requires ItemsOk(items) && |ItemFor(items, m.packetID).messages| != |Split(m, maxPacketSize)|
    requires Wire(m, maxPacketSize, wire, ds) && i < |ds| && ds[i].packetID == m.packetID
    ensures OutputAt(Hysteria2, items, ds, i)
         == if Completes(m.packetID, |Split(m, maxPacketSize)|, ds, i)
            then Put(m.(fragmentID := 0, fragmentTotal := 0)) else Nothing
  {
    hide Packed, Decoded, Pieces, Wire, Completes, OutputAt, ItemsOk, ItemFor, Deliveries;
    SplitIsFamily(Hysteria2, [], m, maxPacketSize - HeaderSize(m));
    WireDeliversFragments(m, maxPacketSize, wire, ds);
    OutputIsExact(Hysteria2, Split(m, maxPacketSize), items, ds, i);
  }

  /** The first time round: nothing before the last missing fragment is delivered, then the original message. */
  lemma {:induction false} EndToEndOnce(m: UdpMessage, maxPacketSize: nat, items: Items<seq<byte>>,
                                        wire: seq<seq<byte>>, ds: seq<Message<seq<byte>>>, i: nat)
    requires |m.data| > maxPacketSize - HeaderSize(m) > 0 && |m.destination| <= 2048
    requires |Split(m, maxPacketSize)| <= 255
    requires ItemsOk(items) && |ItemFor(items, m.packetID).messages| != |Split(m, maxPacketSize)|
    requires Wire(m, maxPacketSize, wire, ds) && i < |ds| && ds[i].packetID == m.packetID
    requires |Delivered(m.packetID, ds[..i])| < |Split(m, maxPacketSize)|
    ensures OutputAt(Hysteria2, items, ds, i)
         == if |Delivered(m.packetID, ds[..i + 1])| == |Split(m, maxPacketSize)|
            then Put(m.(fragmentID := 0, fragmentTotal := 0)) else Nothing
  {
    hide Packed, Decoded, Pieces, Delivered, Wire, OutputAt, ItemsOk, ItemFor, Deliveries;
    SplitIsFamily(Hysteria2, [], m, maxPacketSize - HeaderSize(m));
    WireDeliversFragments(m, maxPacketSize, wire, ds);
    FirstCompletion(Hysteria2, Split(m, maxPacketSize), items, ds, i);
  }

  /** A message that fits one datagram travels whole, and is put out at once. */
  lemma {:induction false} OneDatagram(m: UdpMessage, maxPacketSize: nat, items: Items<seq<byte>>)
    requires |m.data| <= maxPacketSize - HeaderSize(m) && |m.destination| <= 2048
    requires m.fragmentTotal <= 1 && ItemsOk(items)
    ensures Split(m, maxPacketSize) == [m] && |Packed(m)| <= maxPacketSize
    ensures Decoded(Packed(m)) == Ok(m) && Fed(Hysteria2, items, m) == (items, Put(m))
  {
    PackRoundTrip(m);
    hide BigEndian, Encode;
    assert |Packed(m)| == HeaderSize(m) + |m.data|;
  }
}
