/**
 QUIC variable-length integers (section 16 of RFC 9000): the writer of
 hysteria2/internal/protocol/proxy.go, and the reader of the transport library as the RFC
 describes it.
 */
module Varints {
  import opened Wrappers
  import opened Arithmetic
  import opened Bytes

  const MAX_VARINT_1 := 63
  const MAX_VARINT_2 := 16383
  const MAX_VARINT_4 := 1073741823
  const MAX_VARINT_8 := 4611686018427387903

  /** The number of bytes of the shortest encoding. */
  function Len(i: nat): (n: nat)
    requires i <= MAX_VARINT_8
    ensures 1 <= n <= 8
  {
    if i <= MAX_VARINT_1 then 1 else if i <= MAX_VARINT_2 then 2 else if i <= MAX_VARINT_4 then 4 else 8
  }

  /** The two high bits of the first byte, which give the length. */
  function Tag(n: nat): nat {
    if n == 1 then 0 else if n == 2 then 1 else if n == 4 then 2 else 3
  }

  /** The first number that n bytes cannot hold beside the tag. */
  function Capacity(n: nat): (c: nat)
    requires n > 0
    ensures c > 0
  {
    64 * Pow256(n - 1)
  }

  /** The encoding: big-endian, with the tag above the number. */
  function Encode(i: nat): (s: seq<byte>)
    requires i <= MAX_VARINT_8
    ensures |s| == Len(i)
  {
    BigEndian(Tag(Len(i)) * Capacity(Len(i)) + i, Len(i))
  }

  /** The length that a first byte announces. */
  function LengthOf(first: byte): (n: nat)
    ensures 1 <= n <= 8
  {
    var tag := first / 64;
    if tag == 0 then 1 else if tag == 1 then 2 else if tag == 2 then 4 else 8
  }

  function Read(s: seq<byte>): Parsed<nat> {
    if s == [] then Err(UnexpectedEof)
    else
      var n := LengthOf(s[0]);
      if |s| < n then Err(UnexpectedEof)
      else Ok((FromBigEndian(s[..n]) % Capacity(n), s[n..]))
  }

  lemma {:induction false} Powers()
    ensures Pow256(0) == 1 && Pow256(1) == 0x100 && Pow256(2) == 0x1_0000 && Pow256(3) == 0x100_0000
    ensures Pow256(4) == 0x1_0000_0000 && Pow256(5) == 0x100_0000_0000 && Pow256(6) == 0x1_0000_0000_0000
    ensures Pow256(7) == 0x100_0000_0000_0000 && Pow256(8) == 0x1_0000_0000_0000_0000
  {
    assert Pow256(1) == 256 * Pow256(0);
    assert Pow256(2) == 256 * Pow256(1);
    assert Pow256(3) == 256 * Pow256(2);
    assert Pow256(4) == 256 * Pow256(3);
    assert Pow256(5) == 256 * Pow256(4);
    assert Pow256(6) == 256 * Pow256(5);
    assert Pow256(7) == 256 * Pow256(6);
    assert Pow256(8) == 256 * Pow256(7);
  }

  lemma {:induction false} FitsBesideTag(i: nat)
    requires i <= MAX_VARINT_8
    ensures i < Capacity(Len(i)) && 4 * Capacity(Len(i)) == Pow256(Len(i))
  {
    Powers();
  }

  /** The first byte is the tag above the number's highest byte. */
  lemma {:induction false} FirstByte(i: nat)
    requires i <= MAX_VARINT_8
    ensures Encode(i)[0] == 64 * Tag(Len(i)) + i / Pow256(Len(i) - 1)
    ensures i / Pow256(Len(i) - 1) < 64
  {
    hide Pow256, BigEndian, Len, Tag;
    var n := Len(i);
    TagAndCapacity(n);
    hide Capacity;
    FitsBesideTag(i);
    MulMonotone(0, Tag(n), Capacity(n));
    HighByteOf(Tag(n), i, n, Capacity(n), Tag(n) * Capacity(n) + i);
  }

  lemma {:induction false} HighByteOf(tag: nat, i: nat, n: nat, capacity: nat, x: nat)
    requires n > 0 && tag <= 3 && i < capacity == 64 * Pow256(n - 1) && x == tag * capacity + i
    ensures BigEndian(x, n)[0] == 64 * tag + i / Pow256(n - 1) && i / Pow256(n - 1) < 64
  {
    hide Pow256, BigEndian;
    TaggedQuotient(tag, i, Pow256(n - 1), capacity);
    HighByte(x, n);
    TagByte(tag, i / Pow256(n - 1));
  }

  lemma {:induction false} TagAndCapacity(n: nat)
    requires n > 0
    ensures Tag(n) <= 3 && Capacity(n) == 64 * Pow256(n - 1)
  {
    hide Pow256;
  }

  lemma {:induction false} TagByte(tag: nat, q: nat)
    requires tag <= 3 && q < 64
    ensures (64 * tag + q) % 256 == 64 * tag + q
  {
  }

  lemma {:induction false} HighByte(x: nat, n: nat)
    requires n > 0
    ensures BigEndian(x, n)[0] == x / Pow256(n - 1) % 256
  {
    hide Pow256;
  }

  lemma {:induction false} TaggedQuotient(tag: nat, i: nat, d: nat, capacity: nat)
    requires i < capacity == 64 * d
    ensures (tag * capacity + i) / d == 64 * tag + i / d && i / d < 64
  {
    var q, r := i / d, i % d;
    assert i == d * q + r;
    QuotientReaches(i, d, 64);
    TagTimes(tag, d);
    TimesDistributes(d, 64 * tag, q);
    QuotientIs(tag * capacity + i, d, 64 * tag + q, r);
  }

  lemma {:induction false} TagTimes(tag: nat, d: nat)
    ensures tag * (64 * d) == d * (64 * tag)
  {
  }

  lemma {:induction false} TimesDistributes(a: int, b: int, c: int)
    ensures a * (b + c) == a * b + a * c
  {
  }

  /** The encoding, read as one number, is the tagged number. */
  lemma {:induction false} EncodingValue(i: nat)
    requires i <= MAX_VARINT_8
    ensures FromBigEndian(Encode(i)) % Capacity(Len(i)) == i
  {
    hide BigEndian, FromBigEndian;
    var n := Len(i);
    var x := Tag(n) * Capacity(n) + i;
    FitsBesideTag(i);
    MulMonotone(Tag(n) + 1, 4, Capacity(n));
    BigEndianRoundTrip(x, n);
    QuotientIs(x, Capacity(n), Tag(n), i);
  }

  /** The decoder recovers every number below 2^62, and consumes exactly its shortest encoding. */
  lemma {:induction false} RoundTrip(i: nat, rest: seq<byte>)
    requires i <= MAX_VARINT_8
    ensures Read(Encode(i) + rest) == Ok((i, rest))
  {
    hide Encode, FromBigEndian, Capacity, Pow256, LengthOf, Len, Tag;
    FirstByte(i);
    EncodingValue(i);
    AnnouncesLength(i, i / Pow256(Len(i) - 1), Encode(i)[0]);
    var n, s := Len(i), Encode(i) + rest;
    assert s[0] == Encode(i)[0];
    assert s[..n] == Encode(i) && s[n..] == rest;
  }

  lemma {:induction false} AnnouncesLength(i: nat, high: nat, first: byte)
    requires i <= MAX_VARINT_8 && high < 64 && first == 64 * Tag(Len(i)) + high
    ensures LengthOf(first) == Len(i)
  {
  }

  lemma {:induction false} NextByte(s: seq<byte>, n: nat)
    requires n < |s|
    ensures FromBigEndian(s[..n + 1]) == 256 * FromBigEndian(s[..n]) + s[n]
  {
    assert s[..n + 1] == s[..n] + [s[n]];
    AppendByte(s[..n], s[n]);
  }

  /** A byte of the string, at this place of a number. */
  function Part(s: seq<byte>, i: nat, weight: nat): int
    requires i < |s|
  {
    s[i] * weight
  }

  lemma {:induction false} FirstBytes(s: seq<byte>, n: nat)
    requires 0 < n <= |s|
    ensures n == 1 ==> FromBigEndian(s[..n]) == Part(s, 0, 1)
    ensures n == 2 ==> FromBigEndian(s[..n]) == Part(s, 0, 0x100) + Part(s, 1, 1)
    ensures n == 4 ==> FromBigEndian(s[..n])
                       == Part(s, 0, 0x100_0000) + Part(s, 1, 0x1_0000) + Part(s, 2, 0x100) + Part(s, 3, 1)
    ensures n == 8 ==> FromBigEndian(s[..n])
                       == Part(s, 0, 0x100_0000_0000_0000) + Part(s, 1, 0x1_0000_0000_0000)
                        + Part(s, 2, 0x100_0000_0000) + Part(s, 3, 0x1_0000_0000) + Part(s, 4, 0x100_0000)
                        + Part(s, 5, 0x1_0000) + Part(s, 6, 0x100) + Part(s, 7, 1)
  {
    hide FromBigEndian;
    NoBytes(s);
    NextByte(s, 0);
    if n >= 2 { NextByte(s, 1); }
    if n >= 4 { NextByte(s, 2); NextByte(s, 3); }
    if n >= 8 { NextByte(s, 4); NextByte(s, 5); NextByte(s, 6); NextByte(s, 7); }
  }

  lemma {:induction false} NoBytes(s: seq<byte>)
    ensures FromBigEndian(s[..0]) == 0
  {
  }

  /**
   What the reader makes of any bytes, shortest encoding or not: the two high bits of the first give
   the length, and the rest of the bits the number; without enough bytes there is none.
   */
  lemma {:induction false} ReadBytes(s: seq<byte>)
    ensures Read(s) ==
      if |s| >= 1 && s[0] < 0x40 then Ok((Part(s, 0, 1), s[1..]))
      else if |s| >= 2 && 0x40 <= s[0] < 0x80 then Ok((Part(s, 0, 0x100) + Part(s, 1, 1) - 0x4000, s[2..]))
      else if |s| >= 4 && 0x80 <= s[0] < 0xc0 then
        Ok((Part(s, 0, 0x100_0000) + Part(s, 1, 0x1_0000) + Part(s, 2, 0x100) + Part(s, 3, 1) - 0x8000_0000, s[4..]))
      else if |s| >= 8 && 0xc0 <= s[0] then
        Ok((Part(s, 0, 0x100_0000_0000_0000) + Part(s, 1, 0x1_0000_0000_0000) + Part(s, 2, 0x100_0000_0000)
            + Part(s, 3, 0x1_0000_0000) + Part(s, 4, 0x100_0000) + Part(s, 5, 0x1_0000) + Part(s, 6, 0x100)
            + Part(s, 7, 1) - 0xc000_0000_0000_0000, s[8..]))
      else Err(UnexpectedEof)
  {
    hide FromBigEndian, Capacity;
    if s != [] && |s| >= LengthOf(s[0]) {
      var n := LengthOf(s[0]);
      FirstBytes(s, n);
      Capacities();
      RestOfBits(FromBigEndian(s[..n]), s[0] / 64, Capacity(n));
    }
  }

  lemma {:induction false} Capacities()
    ensures Capacity(1) == 0x40 && Capacity(2) == 0x4000 && Capacity(4) == 0x4000_0000
    ensures Capacity(8) == 0x4000_0000_0000_0000
  {
    Powers();
  }

  /** What is left of a number without its tag. */
  lemma {:induction false} RestOfBits(x: nat, tag: nat, capacity: nat)
    requires capacity > 0
    ensures tag * capacity <= x < (tag + 1) * capacity ==> x % capacity == x - tag * capacity
  {
    if tag * capacity <= x < (tag + 1) * capacity {
      QuotientIs(x, capacity, tag, x - tag * capacity);
    }
  }

  /** No decodable byte string for a number is shorter than its encoding. */
  lemma {:induction false} EncodingIsShortest(i: nat, s: seq<byte>, rest: seq<byte>)
    requires i <= MAX_VARINT_8 && Read(s + rest) == Ok((i, rest))
    ensures |s| >= Len(i)
  {
    hide FromBigEndian;
    Powers();
    var n := |s + rest| - |rest|;
    assert i < Capacity(n);
  }

  /** The later bytes carry the number's own low bytes. */
  lemma {:induction false} LaterBytes(i: nat, j: nat)
    requires i <= MAX_VARINT_8 && 0 < j < Len(i)
    ensures Encode(i)[j] == i / Pow256(Len(i) - 1 - j) % 256
  {
    var n, k := Len(i), Len(i) - 1 - j;
    TagAbove(Tag(n), n - 1, k, i);
  }

  /** A multiple of 256^m does not show in the byte at a lower position k. */
  lemma {:induction false} TagAbove(tag: nat, m: nat, k: nat, i: nat)
    requires k < m
    ensures (tag * (64 * Pow256(m)) + i) / Pow256(k) % 256 == i / Pow256(k) % 256
    decreases k
  {
    var a := tag * (64 * Pow256(m - 1));
    TagProduct(tag, m);
    ModShift(a, i);
    if k == 0 {
      assert Pow256(0) == 1;
    } else {
      hide Pow256;
      DivStep(256 * a + i, k - 1);
      DivStep(i, k - 1);
      TagAbove(tag, m - 1, k - 1, i / 256);
    }
  }

  lemma {:induction false} TagProduct(tag: nat, m: nat)
    requires m > 0
    ensures tag * (64 * Pow256(m)) == 256 * (tag * (64 * Pow256(m - 1)))
  {
    var p := 64 * Pow256(m - 1);
    assert 64 * Pow256(m) == 256 * p;
    assert tag * (256 * p) == 256 * (tag * p);
  }

  lemma {:induction false} ModShift(a: nat, i: nat)
    ensures (256 * a + i) % 256 == i % 256 && (256 * a + i) / 256 == a + i / 256
  {
  }

  /** The bytes of an encoding, one by one. */
  lemma {:induction false} EncodedBytes(i: nat)
    requires i <= MAX_VARINT_8
    ensures Len(i) == 1 ==> Encode(i) == [i]
    ensures Len(i) == 2 ==> Encode(i) == [i / 0x100 + 0x40, i % 0x100]
    ensures Len(i) == 4 ==>
      Encode(i) == [i / 0x100_0000 + 0x80, i / 0x1_0000 % 0x100, i / 0x100 % 0x100, i % 0x100]
    ensures Len(i) == 8 ==>
      Encode(i) == [i / 0x100_0000_0000_0000 + 0xc0, i / 0x1_0000_0000_0000 % 0x100,
                    i / 0x100_0000_0000 % 0x100, i / 0x1_0000_0000 % 0x100,
                    i / 0x100_0000 % 0x100, i / 0x1_0000 % 0x100, i / 0x100 % 0x100, i % 0x100]
  {
    hide Encode, BigEndian, Pow256;
    Powers();
    FirstByte(i);
    forall j: nat | 0 < j < Len(i) ensures Encode(i)[j] == i / Pow256(Len(i) - 1 - j) % 256 {
      LaterBytes(i, j);
    }
  }

  /**
   Writes the encoding into a buffer at an offset, and returns its length. Adding the tag is
   the source's bitwise or: the number leaves those bits free.
   */
  method VarintPut(b: array<byte>, offset: nat, i: nat) returns (n: nat)
    requires i <= MAX_VARINT_8 && offset + Len(i) <= b.Length
    modifies b
    ensures n == Len(i) && b[offset..offset + n] == Encode(i)
    ensures b[..offset] == old(b[..offset]) && b[offset + n..] == old(b[offset + n..])
  {
    hide Encode;
    EncodedBytes(i);
    if i <= MAX_VARINT_1 {
      b[offset] := i;
      return 1;
    }
    if i <= MAX_VARINT_2 {
      b[offset] := i / 0x100 + 0x40;
      b[offset + 1] := i % 0x100;
      return 2;
    }
    if i <= MAX_VARINT_4 {
      b[offset] := i / 0x100_0000 + 0x80;
      b[offset + 1] := i / 0x1_0000 % 0x100;
      b[offset + 2] := i / 0x100 % 0x100;
      b[offset + 3] := i % 0x100;
      return 4;
    }
    b[offset] := i / 0x100_0000_0000_0000 + 0xc0;
    b[offset + 1] := i / 0x1_0000_0000_0000 % 0x100;
    b[offset + 2] := i / 0x100_0000_0000 % 0x100;
    b[offset + 3] := i / 0x1_0000_0000 % 0x100;
    b[offset + 4] := i / 0x100_0000 % 0x100;
    b[offset + 5] := i / 0x1_0000 % 0x100;
    b[offset + 6] := i / 0x100 % 0x100;
    b[offset + 7] := i % 0x100;
    return 8;
  }

  /** Reads one number from a stream, byte by byte. */
  method ReadVarint(reader: Reader) returns (r: Result<nat, Error>)
    modifies reader
    ensures Agrees(r, Read(old(reader.rest)), reader.rest)
  {
    hide FromBigEndian, Capacity;
    var first := reader.ReadFull(1);
    if first.Err? {
      return Err(first.error);
    }
    var n := LengthOf(first.value[0]);
    var others := reader.ReadFull(n - 1);
    if others.Err? {
      return Err(others.error);
    }
    assert first.value + others.value == old(reader.rest)[..n];
    return Ok(FromBigEndian(first.value + others.value) % Capacity(n));
  }
}
