/**
 The framed TCP requests and responses, and the length-prefixed strings, of
 hysteria2/internal/protocol/proxy.go. The random padding of a message is an input of its
 writer, and strings are their bytes.
 */
module TcpFraming {
  import opened Wrappers
  import opened Bytes
  import opened Varints

  const FRAME_TYPE_TCP_REQUEST := 0x401
  const MAX_ADDRESS_LENGTH := 2048
  const MAX_MESSAGE_LENGTH := 2048
  const MAX_PADDING_LENGTH := 4096

  // ---------- Layouts ----------

  function VString(value: seq<byte>): (s: seq<byte>)
    requires |value| <= MAX_VARINT_8
  {
    Encode(|value|) + value
  }

  function RequestBytes(addr: seq<byte>, padding: seq<byte>, payload: seq<byte>): seq<byte>
    requires |addr| <= MAX_VARINT_8 && |padding| <= MAX_VARINT_8
  {
    Encode(FRAME_TYPE_TCP_REQUEST) + VString(addr) + VString(padding) + payload
  }

  /** A message is cut at its maximum length. */
  function Cut(message: seq<byte>): seq<byte> {
    if |message| > MAX_MESSAGE_LENGTH then message[..MAX_MESSAGE_LENGTH] else message
  }

  function ResponseBytes(ok: bool, message: seq<byte>, padding: seq<byte>, payload: seq<byte>): seq<byte>
    requires |padding| <= MAX_VARINT_8
  {
    [if ok then 0 else 1] + VString(Cut(message)) + VString(padding) + payload
  }

  // ---------- Parses ----------

  /** A varint length within bounds, then that many bytes. */
  function ParseVString(s: seq<byte>, min: nat, max: nat): Parsed<seq<byte>> {
    var length := Read(s);
    if length.Err? then Err(length.error)
    else if length.value.0 < min || length.value.0 > max then Err(InvalidLength)
    else TakeBytes(length.value.1, length.value.0)
  }

  function ParseRequest(s: seq<byte>): Parsed<seq<byte>> {
    var addr := ParseVString(s, 1, MAX_ADDRESS_LENGTH);
    if addr.Err? then Err(addr.error)
    else
      var padding := ParseVString(addr.value.1, 0, MAX_PADDING_LENGTH);
      if padding.Err? then Err(padding.error) else Ok((addr.value.0, padding.value.1))
  }

  function ParseResponse(s: seq<byte>): Parsed<(bool, seq<byte>)> {
    var status := TakeBytes(s, 1);
    if status.Err? then Err(status.error)
    else
      var message := ParseVString(status.value.1, 0, MAX_MESSAGE_LENGTH);
      if message.Err? then Err(message.error)
      else
        var padding := ParseVString(message.value.1, 0, MAX_PADDING_LENGTH);
        if padding.Err? then Err(padding.error)
        else Ok(((status.value.0[0] == 0, message.value.0), padding.value.1))
  }

  // ---------- Bytes on the wire ----------

  /** A request, byte by byte, for an address and a padding below 64 bytes. */
  lemma {:induction false} ShortRequest(addr: seq<byte>, padding: seq<byte>, payload: seq<byte>)
    requires |addr| < 64 && |padding| < 64
    ensures RequestBytes(addr, padding, payload) == [0x44, 0x01, |addr|] + addr + [|padding|] + padding + payload
  {
    hide Encode;
    EncodedBytes(FRAME_TYPE_TCP_REQUEST);
    EncodedBytes(|addr|);
    EncodedBytes(|padding|);
  }

  /** A response, for a message and a padding below 64 bytes: zero stands for success. */
  lemma {:induction false} ShortResponse(ok: bool, message: seq<byte>, padding: seq<byte>, payload: seq<byte>)
    requires |message| < 64 && |padding| < 64
    ensures ResponseBytes(ok, message, padding, payload)
         == [if ok then 0 else 1, |message|] + message + [|padding|] + padding + payload
  {
    hide Encode;
    EncodedBytes(|message|);
    EncodedBytes(|padding|);
  }

  // ---------- Round trips ----------

  /** A written string is read back, and nothing more, exactly when its length is within the reader's bounds. */
  lemma {:induction false} VStringRoundTrip(value: seq<byte>, rest: seq<byte>, min: nat, max: nat)
    requires |value| <= MAX_VARINT_8
    ensures ParseVString(VString(value) + rest, min, max)
         == if min <= |value| <= max then Ok((value, rest)) else Err(InvalidLength)
  {
    hide Read, Encode;
    RoundTrip(|value|, value + rest);
    assert VString(value) + rest == Encode(|value|) + (value + rest);
    assert (value + rest)[..|value|] == value && (value + rest)[|value|..] == rest;
  }

  /**
   After the frame type, reading a written request gives the address and leaves exactly the
   payload, whatever the padding, if and only if the address is 1 to 2048 bytes long and the padding
   at most 4096; otherwise the reader reports an invalid length.
   */
  lemma {:induction false} RequestRoundTrip(addr: seq<byte>, padding: seq<byte>, payload: seq<byte>)
    requires |addr| <= MAX_VARINT_8 && |padding| <= MAX_VARINT_8
    ensures var frame := Read(RequestBytes(addr, padding, payload));
            && frame.Ok? && frame.value.0 == FRAME_TYPE_TCP_REQUEST
            && ParseRequest(frame.value.1)
               == if 1 <= |addr| <= 2048 && |padding| <= 4096 then Ok((addr, payload)) else Err(InvalidLength)
  {
    hide Read, Encode, ParseVString, VString;
    var afterAddr := VString(padding) + payload;
    assert RequestBytes(addr, padding, payload) == Encode(FRAME_TYPE_TCP_REQUEST) + (VString(addr) + afterAddr);
    RoundTrip(FRAME_TYPE_TCP_REQUEST, VString(addr) + afterAddr);
    VStringRoundTrip(addr, afterAddr, 1, MAX_ADDRESS_LENGTH);
    VStringRoundTrip(padding, payload, 0, MAX_PADDING_LENGTH);
  }

  /** Reading a written response gives the status and the message, cut at 2048 bytes, and leaves the payload. */
  lemma {:induction false} ResponseRoundTrip(ok: bool, message: seq<byte>, padding: seq<byte>, payload: seq<byte>)
    requires |padding| <= MAX_VARINT_8
    ensures ParseResponse(ResponseBytes(ok, message, padding, payload))
         == if |padding| <= 4096
            then Ok(((ok, if |message| <= 2048 then message else message[..2048]), payload))
            else Err(InvalidLength)
  {
    hide Read, Encode, ParseVString, VString;
    var status: seq<byte> := [if ok then 0 else 1];
    var afterStatus := VString(Cut(message)) + (VString(padding) + payload);
    assert ResponseBytes(ok, message, padding, payload) == status + afterStatus;
    assert (status + afterStatus)[..1] == status && (status + afterStatus)[1..] == afterStatus;
    VStringRoundTrip(Cut(message), VString(padding) + payload, 0, MAX_MESSAGE_LENGTH);
    VStringRoundTrip(padding, payload, 0, MAX_PADDING_LENGTH);
  }

  // ---------- Writers ----------

  /** The part of a buffer that has been written. */
  method Copy(b: array<byte>, offset: nat, s: seq<byte>) returns (n: nat)
    requires offset + |s| <= b.Length
    modifies b
    ensures n == |s| && b[..offset + n] == old(b[..offset]) + s
  {
    for i := 0 to |s|
      invariant b[..offset + i] == old(b[..offset]) + s[..i]
    {
      b[offset + i] := s[i];
    }
    assert s[..|s|] == s;
    return |s|;
  }

  /** Writes a number behind the part that has been written. */
  method PutNumber(b: array<byte>, offset: nat, i: nat) returns (n: nat)
    requires i <= MAX_VARINT_8 && offset + Len(i) <= b.Length
    modifies b
    ensures n == Len(i) && b[..offset + n] == old(b[..offset]) + Encode(i)
  {
    hide Encode;
    n := VarintPut(b, offset, i);
    assert b[..offset + n] == b[..offset] + b[offset..offset + n];
  }

  /** Writes a length and that many bytes behind the part that has been written. */
  method PutVString(b: array<byte>, offset: nat, value: seq<byte>) returns (end: nat)
    requires |value| <= MAX_VARINT_8 && offset + Len(|value|) + |value| <= b.Length
    modifies b
    ensures end == offset + Len(|value|) + |value|
    ensures b[..end] == old(b[..offset]) + VString(value)
  {
    hide Encode;
    var n := PutNumber(b, offset, |value|);
    end := offset + n;
    n := Copy(b, end, value);
    end := end + n;
  }

  method WriteTCPRequest(addr: seq<byte>, padding: seq<byte>, payload: seq<byte>) returns (b: array<byte>)
    requires |addr| <= MAX_VARINT_8 && |padding| <= MAX_VARINT_8
    ensures fresh(b) && b[..] == RequestBytes(addr, padding, payload)
  {
    hide Encode, VString;
    var sz := Len(FRAME_TYPE_TCP_REQUEST) + Len(|addr|) + |addr| + Len(|padding|) + |padding|;
    b := new byte[sz + |payload|](_ => 0);
    var i := PutNumber(b, 0, FRAME_TYPE_TCP_REQUEST);
    assert b[..i] == Encode(FRAME_TYPE_TCP_REQUEST);
    i := PutVString(b, i, addr);
    i := PutVString(b, i, padding);
    var n := Copy(b, i, payload);
    assert b[..i + n] == b[..];
  }

  method WriteTCPResponse(ok: bool, message: seq<byte>, padding: seq<byte>, payload: seq<byte>) returns (b: array<byte>)
    requires |padding| <= MAX_VARINT_8
    ensures fresh(b) && b[..] == ResponseBytes(ok, message, padding, payload)
  {
    hide Encode, VString;
    var msgLen := |message|;
    if msgLen > MAX_MESSAGE_LENGTH {
      msgLen := MAX_MESSAGE_LENGTH;
    }
    assert message[..msgLen] == Cut(message);
    var sz := 1 + Len(msgLen) + msgLen + Len(|padding|) + |padding|;
    b := new byte[sz + |payload|](_ => 0);
    b[0] := if ok then 0 else 1;
    ghost var status: seq<byte> := [if ok then 0 else 1];
    assert b[..1] == status;
    var i := PutVString(b, 1, message[..msgLen]);
    i := PutVString(b, i, padding);
    var n := Copy(b, i, payload);
    assert b[..i + n] == b[..];
  }

  // ---------- Readers ----------

  method ReadVString(reader: Reader, min: nat, max: nat) returns (r: Result<seq<byte>, Error>)
    modifies reader
    ensures Agrees(r, ParseVString(old(reader.rest), min, max), reader.rest)
  {
    hide Read;
    var length := ReadVarint(reader);
    if length.Err? {
      return Err(length.error);
    }
    if length.value < min || length.value > max {
      return Err(InvalidLength);
    }
    r := reader.ReadFull(length.value);
  }

  method ReadTCPRequest(reader: Reader) returns (r: Result<seq<byte>, Error>)
    modifies reader
    ensures Agrees(r, ParseRequest(old(reader.rest)), reader.rest)
  {
    hide ParseVString;
    var addr := ReadVString(reader, 1, MAX_ADDRESS_LENGTH);
    if addr.Err? {
      return Err(addr.error);
    }
    var padding := ReadVString(reader, 0, MAX_PADDING_LENGTH);
    if padding.Err? {
      return Err(padding.error);
    }
    return Ok(addr.value);
  }

  method ReadTCPResponse(reader: Reader) returns (r: Result<(bool, seq<byte>), Error>)
    modifies reader
    ensures Agrees(r, ParseResponse(old(reader.rest)), reader.rest)
  {
    hide ParseVString;
    var status := reader.ReadFull(1);
    if status.Err? {
      return Err(status.error);
    }
    var message := ReadVString(reader, 0, MAX_MESSAGE_LENGTH);
    if message.Err? {
      return Err(message.error);
    }
    var padding := ReadVString(reader, 0, MAX_PADDING_LENGTH);
    if padding.Err? {
      return Err(padding.error);
    }
    return Ok((status.value[0] == 0, message.value));
  }
}
