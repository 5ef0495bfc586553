/**
 The datagrams of tuic/packet.go: their encoding with a length field and an address, and the
 whole way of a UDP message whose later fragments travel without a destination.

 The address serializer of the library is not part of this model: it is any pair of an encoder
 and a decoder that reads back what the encoder wrote.
 */
module TuicUdp {
  import opened Wrappers
  import opened Bytes
  import opened Varints
  import opened UdpFragments
  import opened UdpReassembly

  const VERSION := 5
  const COMMAND_PACKET := 2

  datatype Serializer<!D> = Serializer(encode: D -> seq<byte>, decode: seq<byte> -> Parsed<D>, blank: D)

  /** The decoder reads back every address, and no address is written shorter than the blank one. */
  ghost predicate Faithful<D(!new)>(a: Serializer<D>) {
    && (forall d, rest :: a.decode(a.encode(d) + rest) == Ok((d, rest)))
    && (forall d :: |a.encode(a.blank)| <= |a.encode(d)|)
  }

  function HeaderSize<D>(a: Serializer<D>, m: Message<D>): nat {
    10 + |a.encode(m.destination)|
  }

  /** The fixed fields behind the version and the command. */
  function Fields<D>(m: Message<D>): (s: seq<byte>)
    ensures |s| == 8
  {
    BigEndian(m.sessionID, 2) + BigEndian(m.packetID, 2) + [m.fragmentTotal] + [m.fragmentID]
    + BigEndian(|m.data| % 0x1_0000, 2)
  }

  function Packed<D>(a: Serializer<D>, m: Message<D>): seq<byte> {
    [VERSION, COMMAND_PACKET] + Fields(m) + a.encode(m.destination) + m.data
  }

  /** Decoding starts behind the version and the command. */
  function Decoded<D>(a: Serializer<D>, s: seq<byte>): Result<Message<D>, Error> {
    if |s| < 8 then Err(UnexpectedEof)
    else
      var destination := a.decode(s[8..]);
      Powers();
      if destination.Err? then Err(destination.error)
      else if |destination.value.1| != FromBigEndian(s[6..8]) then Err(UnexpectedEof)
      else Ok(Message(FromBigEndian(s[..2]), FromBigEndian(s[2..4]), s[5], s[4],
                      destination.value.0, destination.value.1))
  }

  /** A datagram, byte by byte. */
  lemma {:induction false} DatagramBytes<D>(a: Serializer<D>, m: Message<D>)
    ensures var length := |m.data| % 0x1_0000;
            Packed(a, m)
              == [5, 2, m.sessionID / 0x100 % 0x100, m.sessionID % 0x100,
                  m.packetID / 0x100 % 0x100, m.packetID % 0x100,
                  m.fragmentTotal, m.fragmentID, length / 0x100 % 0x100, length % 0x100]
               + a.encode(m.destination) + m.data
  {
    hide BigEndian;
    ShortBigEndian(m.sessionID);
    ShortBigEndian(m.packetID);
    ShortBigEndian(|m.data| % 0x1_0000);
  }

  method Pack<D>(a: Serializer<D>, m: Message<D>) returns (buffer: seq<byte>)
    ensures buffer == Packed(a, m) && |buffer| == HeaderSize(a, m) + |m.data|
  {
    hide BigEndian;
    buffer := [VERSION];
    buffer := buffer + [COMMAND_PACKET];
    buffer := buffer + BigEndian(m.sessionID, 2);
    buffer := buffer + BigEndian(m.packetID, 2);
    buffer := buffer + [m.fragmentTotal];
    buffer := buffer + [m.fragmentID];
    buffer := buffer + BigEndian(|m.data| % 0x1_0000, 2);
    buffer := buffer + a.encode(m.destination);
    buffer := buffer + m.data;
    assert buffer == Packed(a, m);
  }

  method DecodeUDPMessage<D>(a: Serializer<D>, data: seq<byte>) returns (r: Result<Message<D>, Error>)
    ensures r == Decoded(a, data)
  {
    hide FromBigEndian;
    Powers();
    var reader := new Reader(data);
    var sessionID := reader.ReadFull(2);
    if sessionID.Err? { return Err(UnexpectedEof); }
    var packetID := reader.ReadFull(2);
    if packetID.Err? { return Err(UnexpectedEof); }
    var fragmentTotal := reader.ReadFull(1);
    if fragmentTotal.Err? { return Err(UnexpectedEof); }
    var fragmentID := reader.ReadFull(1);
    if fragmentID.Err? { return Err(UnexpectedEof); }
    var dataLength := reader.ReadFull(2);
    if dataLength.Err? { return Err(UnexpectedEof); }
    assert packetID.value == data[2..4] && dataLength.value == data[6..8] && reader.rest == data[8..];
    var destination := a.decode(reader.rest);
    if destination.Err? { return Err(destination.error); }
    reader.rest := destination.value.1;
    if |reader.rest| != FromBigEndian(dataLength.value) { return Err(UnexpectedEof); }
    return Ok(Message(FromBigEndian(sessionID.value), FromBigEndian(packetID.value),
                      fragmentID.value[0], fragmentTotal.value[0], destination.value.0, reader.rest));
  }

  // ---------- Round trips ----------

  lemma {:induction false} FieldsSplit<D>(m: Message<D>)
    ensures var s := Fields(m);
            && s[..2] == BigEndian(m.sessionID, 2) && s[2..4] == BigEndian(m.packetID, 2)
            && s[4] == m.fragmentTotal && s[5] == m.fragmentID && s[6..] == BigEndian(|m.data| % 0x1_0000, 2)
  {
    hide BigEndian;
  }

  /**
   A datagram, behind its two leading bytes, decodes to the message it encodes exactly when the
   length field holds its size.
   */
  lemma {:induction false} PackRoundTrip<D(!new)>(a: Serializer<D>, m: Message<D>)
    requires Faithful(a) && m.sessionID < 0x1_0000
    ensures Decoded(a, Packed(a, m)[2..]) == if |m.data| < 0x1_0000 then Ok(m) else Err(UnexpectedEof)
  {
    hide BigEndian, FromBigEndian, Fields;
    Powers();
    var s, length := Packed(a, m)[2..], |m.data| % 0x1_0000;
    FieldsSplit(m);
    assert s[..8] == Fields(m);
    assert s[..2] == s[..8][..2] && s[2..4] == s[..8][2..4] && s[6..8] == s[..8][6..];
    BigEndianRoundTrip(m.sessionID, 2);
    BigEndianRoundTrip(m.packetID, 2);
    BigEndianRoundTrip(length, 2);
    assert s[8..] == a.encode(m.destination) + m.data;
  }

  /** The fragments that a message is sent in. */
  function Split<D>(a: Serializer<D>, m: Message<D>, maxPacketSize: nat): seq<Message<D>>
    requires |m.data| <= maxPacketSize - HeaderSize(a, m) || maxPacketSize > HeaderSize(a, m)
  {
    Fragments(Tuic, a.blank, m, maxPacketSize - HeaderSize(a, m))
  }

  /** No encoded fragment exceeds the packet size, and every one decodes to itself. */
  lemma {:induction false} FragmentsFit<D(!new)>(a: Serializer<D>, m: Message<D>, maxPacketSize: nat, k: nat)
    requires Faithful(a) && m.sessionID < 0x1_0000 && |m.data| < 0x1_0000 && maxPacketSize > HeaderSize(a, m)
    requires k < |Split(a, m, maxPacketSize)|
    ensures var f := Split(a, m, maxPacketSize)[k];
            |Packed(a, f)| <= maxPacketSize && Decoded(a, Packed(a, f)[2..]) == Ok(f)
  {
    var f, mtu := Split(a, m, maxPacketSize)[k], maxPacketSize - HeaderSize(a, m);
    PiecesFacts(m.data, mtu);
    assert |f.data| <= mtu && |f.data| < 0x1_0000 by {
      if |m.data| > mtu { PieceWithin(m.data, mtu, k); }
    }
    PackRoundTrip(a, f);
    hide BigEndian;
    assert |Packed(a, f)| == HeaderSize(a, f) + |f.data|;
  }

  lemma {:induction false} PieceWithin(data: seq<byte>, mtu: nat, k: nat)
    requires mtu > 0 && k < |Pieces(data, mtu)|
    ensures |Pieces(data, mtu)[k]| <= |data|
    decreases |data|
  {
    if |data| > mtu && k > 0 {
      PieceWithin(data[mtu..], mtu, k - 1);
    }
  }

  ghost predicate IsFragmentOf<D>(a: Serializer<D>, m: Message<D>, maxPacketSize: nat, datagram: seq<byte>)
    requires maxPacketSize > HeaderSize(a, m)
  {
    exists k: nat :: k < |Split(a, m, maxPacketSize)| && datagram == Packed(a, Split(a, m, maxPacketSize)[k])
  }

  /** Every datagram decodes to its delivery, and under the packet number only fragments of m are sent. */
  ghost predicate Wire<D>(a: Serializer<D>, m: Message<D>, maxPacketSize: nat, wire: seq<seq<byte>>,
                          ds: seq<Message<D>>)
    requires maxPacketSize > HeaderSize(a, m)
  {
    && |wire| == |ds|
    && (forall i :: 0 <= i < |ds| ==> |wire[i]| >= 2 && Decoded(a, wire[i][2..]) == Ok(ds[i]))
    && (forall i :: 0 <= i < |ds| && ds[i].packetID == m.packetID ==> IsFragmentOf(a, m, maxPacketSize, wire[i]))
  }

  lemma {:induction false} WireDeliversFragments<D(!new)>(a: Serializer<D>, m: Message<D>, maxPacketSize: nat,
                                                          wire: seq<seq<byte>>, ds: seq<Message<D>>)
    requires Faithful(a) && m.sessionID < 0x1_0000 && |m.data| < 0x1_0000 && maxPacketSize > HeaderSize(a, m)
    requires Wire(a, m, maxPacketSize, wire, ds)
    requires Family(Split(a, m, maxPacketSize)) && Split(a, m, maxPacketSize)[0].packetID == m.packetID
    ensures Deliveries(Split(a, m, maxPacketSize), ds)
  {
    hide Packed, Decoded, Pieces, Faithful;
    var f := Split(a, m, maxPacketSize);
    forall i | 0 <= i < |ds| && ds[i].packetID == m.packetID
      ensures ds[i].fragmentID < |f| && ds[i] == f[ds[i].fragmentID]
    {
      assert IsFragmentOf(a, m, maxPacketSize, wire[i]);
      var k: nat :| k < |f| && wire[i] == Packed(a, f[k]);
      FragmentsFit(a, m, maxPacketSize, k);
    }
  }

  /**
   End to end: although only the first fragment carries the destination, the message that comes
   out, exactly when the last missing fragment has come in, has the original session, packet
   number, destination and payload, for any order, duplicates and interleaved packets.
   */
  lemma {:induction false} EndToEnd<D(!new)>(a: Serializer<D>, m: Message<D>, maxPacketSize: nat, items: Items<D>,
                                             wire: seq<seq<byte>>, ds: seq<Message<D>>, i: nat)
    requires Faithful(a) && m.sessionID < 0x1_0000
    requires |m.data| > maxPacketSize - HeaderSize(a, m) > 0 && |m.data| < 0x1_0000
    requires |Split(a, m, maxPacketSize)| <= 255
    requires ItemsOk(items) && |ItemFor(items, m.packetID).messages| != |Split(a, m, maxPacketSize)|
    requires Wire(a, m, maxPacketSize, wire, ds) && i < |ds| && ds[i].packetID == m.packetID
    ensures OutputAt(Tuic, items, ds, i)
         == if Completes(m.packetID, |Split(a, m, maxPacketSize)|, ds, i)
            then Put(m.(fragmentID := 0, fragmentTotal := |Split(a, m, maxPacketSize)|)) else Nothing
  {
    hide Packed, Decoded, Pieces, Faithful, Wire, Completes, OutputAt, ItemsOk, ItemFor, Deliveries;
    SplitIsFamily(Tuic, a.blank, m, maxPacketSize - HeaderSize(a, m));
    WireDeliversFragments(a, m, maxPacketSize, wire, ds);
    OutputIsExact(Tuic, Split(a, m, maxPacketSize), items, ds, i);
  }

  /** The first time round: nothing before the last missing fragment is delivered, then the original message. */
  lemma {:induction false} EndToEndOnce<D(!new)>(a: Serializer<D>, m: Message<D>, maxPacketSize: nat, items: Items<D>,
                                                 wire: seq<seq<byte>>, ds: seq<Message<D>>, i: nat)
    requires Faithful(a) && m.sessionID < 0x1_0000
    requires |m.data| > maxPacketSize - HeaderSize(a, m) > 0 && |m.data| < 0x1_0000
    requires |Split(a, m, maxPacketSize)| <= 255
    requires ItemsOk(items) && |ItemFor(items, m.packetID).messages| != |Split(a, m, maxPacketSize)|
    requires Wire(a, m, maxPacketSize, wire, ds) && i < |ds| && ds[i].packetID == m.packetID
    requires |Delivered(m.packetID, ds[..i])| < |Split(a, m, maxPacketSize)|
    ensures OutputAt(Tuic, items, ds, i)
         == if |Delivered(m.packetID, ds[..i + 1])| == |Split(a, m, maxPacketSize)|
            then Put(m.(fragmentID := 0, fragmentTotal := |Split(a, m, maxPacketSize)|)) else Nothing
  {
    hide Packed, Decoded, Pieces, Faithful, Delivered, Wire, OutputAt, ItemsOk, ItemFor, Deliveries;
    SplitIsFamily(Tuic, a.blank, m, maxPacketSize - HeaderSize(a, m));
    WireDeliversFragments(a, m, maxPacketSize, wire, ds);
    FirstCompletion(Tuic, Split(a, m, maxPacketSize), items, ds, i);
  }

  /** A message that fits one datagram travels whole, and is put out at once. */
  lemma {:induction false} OneDatagram<D(!new)>(a: Serializer<D>, m: Message<D>, maxPacketSize: nat, items: Items<D>)
    requires Faithful(a) && m.sessionID < 0x1_0000 && |m.data| < 0x1_0000
    requires |m.data| <= maxPacketSize - HeaderSize(a, m) && m.fragmentTotal <= 1 && ItemsOk(items)
    ensures Split(a, m, maxPacketSize) == [m] && |Packed(a, m)| <= maxPacketSize
    ensures Decoded(a, Packed(a, m)[2..]) == Ok(m) && Fed(Tuic, items, m) == (items, Put(m))
  {
    PackRoundTrip(a, m);
    hide BigEndian;
    assert |Packed(a, m)| == HeaderSize(a, m) + |m.data|;
  }
}
