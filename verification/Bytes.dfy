/** Bytes, big-endian numbers, and the stream that readers consume. */
module Bytes {
  import opened Wrappers
  import opened Arithmetic

  type byte = x: int | 0 <= x < 256

  datatype Error = UnexpectedEof | InvalidLength

  function Pow256(n: nat): (p: nat)
    ensures p > 0
  {
    if n == 0 then 1 else 256 * Pow256(n - 1)
  }

  /** The n low bytes of a number, the most significant first. */
  function BigEndian(x: nat, n: nat): (s: seq<byte>)
    ensures |s| == n
  {
    seq(n, j requires 0 <= j < n => x / Pow256(n - 1 - j) % 256)
  }

  function FromBigEndian(s: seq<byte>): (x: nat)
    ensures x < Pow256(|s|)
  {
    if s == [] then 0 else 256 * FromBigEndian(s[..|s| - 1]) + s[|s| - 1]
  }

  lemma {:induction false} DivStep(x: nat, n: nat)
    ensures x / Pow256(n + 1) == x / 256 / Pow256(n)
  {
    var d := Pow256(n);
    assert Pow256(n + 1) == 256 * d;
    DivideTwice(x, d);
  }

  lemma {:induction false} DivideTwice(x: nat, d: nat)
    requires d > 0
    ensures x / (256 * d) == x / 256 / d
  {
    var y, r := x / 256, x % 256;
    var q, s := y / d, y % d;
    assert x == 256 * y + r && y == d * q + s;
    TimesAssociates(256, d, q);
    QuotientIs(x, 256 * d, q, 256 * s + r);
  }

  lemma {:induction false} TimesAssociates(a: int, b: int, c: int)
    ensures a * b * c == a * (b * c)
  {
  }

  lemma {:induction false} QuotientIs(x: nat, d: nat, q: nat, r: nat)
    requires d > 0 && r < d && x == d * q + r
    ensures x / d == q && x % d == r
  {
    assert x == d * (x / d) + x % d;
    if x / d > q {
      MulMonotone(q + 1, x / d, d);
    } else if x / d < q {
      MulMonotone(x / d + 1, q, d);
    }
  }

  lemma {:induction false} BigEndianSplit(x: nat, n: nat)
    requires n > 0
    ensures BigEndian(x, n)[..n - 1] == BigEndian(x / 256, n - 1) && BigEndian(x, n)[n - 1] == x % 256
  {
    var s := BigEndian(x, n);
    forall j | 0 <= j < n - 1 ensures s[j] == BigEndian(x / 256, n - 1)[j] {
      DivStep(x, n - 2 - j);
    }
    assert Pow256(0) == 1;
  }

  /** Big-endian numbers are read back. */
  lemma {:induction false} BigEndianRoundTrip(x: nat, n: nat)
    requires x < Pow256(n)
    ensures FromBigEndian(BigEndian(x, n)) == x
  {
    hide BigEndian;
    if n > 0 {
      BigEndianSplit(x, n);
      assert x / 256 < Pow256(n - 1);
      BigEndianRoundTrip(x / 256, n - 1);
    }
  }

  /** Two and four bytes, one by one. */
  lemma {:induction false} ShortBigEndian(x: nat)
    ensures BigEndian(x, 2) == [x / 0x100 % 0x100, x % 0x100]
    ensures BigEndian(x, 4) == [x / 0x100_0000 % 0x100, x / 0x1_0000 % 0x100, x / 0x100 % 0x100, x % 0x100]
  {
    assert Pow256(0) == 1 && Pow256(1) == 0x100;
    assert Pow256(2) == 0x1_0000 && Pow256(3) == 0x100_0000;
  }

  lemma {:induction false} AppendByte(s: seq<byte>, b: byte)
    ensures FromBigEndian(s + [b]) == 256 * FromBigEndian(s) + b
  {
    assert (s + [b])[..|s|] == s;
  }

  // ---------- Streams ----------

  /** A read either yields a value and what is left, or fails. */
  type Parsed<T> = Result<(T, seq<byte>), Error>

  function TakeBytes(s: seq<byte>, n: nat): Parsed<seq<byte>> {
    if |s| < n then Err(UnexpectedEof) else Ok((s[..n], s[n..]))
  }

  /** A reader: its stream is consumed from the front. */
  class Reader {
    var rest: seq<byte>

    constructor (data: seq<byte>)
      ensures rest == data
    {
      rest := data;
    }

    /** Reads exactly n bytes; on failure the stream is used up. */
    method ReadFull(n: nat) returns (r: Result<seq<byte>, Error>)
      modifies this
      ensures Agrees(r, TakeBytes(old(rest), n), rest)
    {
      if |rest| < n {
        rest := [];
        return Err(UnexpectedEof);
      }
      r := Ok(rest[..n]);
      rest := rest[n..];
    }
  }

  /** A method's result and the stream it leaves are what a parse says. */
  ghost predicate Agrees<T>(r: Result<T, Error>, parsed: Parsed<T>, rest: seq<byte>) {
    match parsed
    case Ok(value) => r == Ok(value.0) && rest == value.1
    case Err(error) => r == Err(error)
  }
}
