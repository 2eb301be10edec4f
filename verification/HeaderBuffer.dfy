/** Headers in a fixed buffer: a cursor that writes the fields one after another, and one that reads them. */
module HeaderBuffer {
  import opened Prelude
  import opened Headers
  import opened Layout

  method CopyInto(buf: array<Byte>, at: nat, bytes: Bytes)
    requires at + |bytes| <= buf.Length
    modifies buf
    ensures buf[..at + |bytes|] == old(buf[..at]) + bytes
  {
    var i := 0;
    while i < |bytes|
      invariant i <= |bytes|
      invariant buf[..at + i] == old(buf[..at]) + bytes[..i]
    {
      buf[at + i] := bytes[i];
      i := i + 1;
    }
  }

  class Writer {
    const buf: array<Byte>
    var at: nat

    constructor (buf: array<Byte>)
      ensures this.buf == buf && at == 0
    {
      this.buf := buf;
      at := 0;
    }

    method Put(bytes: Bytes)
      requires at + |bytes| <= buf.Length
      modifies this, buf
      ensures at == old(at) + |bytes| && buf[..at] == old(buf[..at]) + bytes
    {
      CopyInto(buf, at, bytes);
      at := at + |bytes|;
    }
  }

  /** Encodes a legal header, and returns how much of the buffer it used. */
  method EncodeInto(h: Header, out: array<Byte>) returns (n: nat)
    requires Legal(h) && out.Length == MAX_HEADER_LEN
    modifies out
    ensures n == FlagsOf(h).HeaderLen() <= out.Length && out[..n] == Encode(h) && LaidOut(h, out[..n])
  {
    hide Be16, Be32, Bits, StreamFields, PingFields, LaidOut;
    EncodedLength(h);
    var writer := new Writer(out);
    writer.Put(Be16(Bits(FlagsOf(h))));
    PutStream(writer, h);
    PutPings(writer, h);
    n := writer.at;
    EncodeLaysOut(h, out[..n]);
  }

  method PutStream(writer: Writer, h: Header)
    requires writer.at + |StreamFields(h)| <= writer.buf.Length
    modifies writer, writer.buf
    ensures writer.at == old(writer.at) + |StreamFields(h)| <= writer.buf.Length
    ensures writer.buf[..writer.at] == old(writer.buf[..writer.at]) + StreamFields(h)
  {
    hide Be16, Be32;
    if h.stream.Some? {
      var s := h.stream.value;
      writer.Put(Be16(s.id));
      if s.credit.Some? {
        writer.Put(Be32(s.credit.value));
      }
      if s.dataLen.Some? {
        writer.Put(Be16(s.dataLen.value));
      }
    }
  }

  method PutPings(writer: Writer, h: Header)
    requires writer.at + |PingFields(h)| <= writer.buf.Length
    modifies writer, writer.buf
    ensures writer.at == old(writer.at) + |PingFields(h)| <= writer.buf.Length
    ensures writer.buf[..writer.at] == old(writer.buf[..writer.at]) + PingFields(h)
  {
    hide Be32;
    if h.ping.Some? {
      writer.Put(Be32(h.ping.value));
    }
    if h.pong.Some? {
      writer.Put(Be32(h.pong.value));
    }
  }

  class Reader {
    const buf: Bytes
    var at: nat

    constructor (buf: Bytes, at: nat)
      ensures this.buf == buf && this.at == at
    {
      this.buf := buf;
      this.at := at;
    }

    method Take(n: nat) returns (bytes: Bytes)
      requires at + n <= |buf|
      modifies this
      ensures at == old(at) + n && bytes == buf[old(at)..at]
    {
      bytes := buf[at..at + n];
      at := at + n;
    }
  }

  /** Decodes a header whose flags are valid. It succeeds exactly if some header with these flags is laid out like that. */
  method DecodeFrom(f: Flags, bytes: Bytes) returns (r: Result<Header, DecodeError>)
    requires f.Valid() && |bytes| == f.HeaderLen()
    ensures r == Decode(f, bytes)
    ensures bytes[0] == 0 && bytes[1] == Mask(f) ==>
              forall h: Header :: r == Ok(h) <==> Legal(h) && FlagsOf(h) == f && LaidOut(h, bytes)
  {
    hide FromBe32, DecodeStream, LaidOut, Legal, FlagsOf, Mask;
    if bytes[0] == 0 && bytes[1] == Mask(f) {
      DecodesExactly(f, bytes);
    }
    var reader := new Reader(bytes, FLAGS_LEN);
    var stream := None;
    if f.Stream() {
      var decoded := DecodeStreamFrom(f, reader);
      if decoded.Err? {
        return Err(decoded.error);
      }
      stream := decoded.value;
    }
    NoStream(f, bytes);
    var ping, pong := None, None;
    if f.ping {
      var pingBytes := reader.Take(4);
      ping := Some(FromBe32(pingBytes));
    }
    if f.pong {
      var pongBytes := reader.Take(4);
      assert pongBytes == bytes[PongAt(f)..];
      pong := Some(FromBe32(pongBytes));
    }
    r := Ok(Header(stream, ping, pong, f.term));
  }

  lemma DecodesExactly(f: Flags, bytes: Bytes)
    requires f.Valid() && |bytes| == f.HeaderLen() && bytes[0] == 0 && bytes[1] == Mask(f)
    ensures forall h: Header :: Decode(f, bytes) == Ok(h) <==> Legal(h) && FlagsOf(h) == f && LaidOut(h, bytes)
  {
    hide Decode, Encode, LaidOut, Legal, FlagsOf, Mask, Be16, Bits;
    FlagsLaidOut(f, bytes);
    if Decode(f, bytes).Ok? {
      EncodeDecode(f, bytes);
      EncodeLaysOut(Decode(f, bytes).value, bytes);
    }
    forall h: Header | Legal(h) && FlagsOf(h) == f && LaidOut(h, bytes) ensures Decode(f, bytes) == Ok(h) {
      EncodeLaysOut(h, bytes);
      DecodeEncode(h);
    }
  }

  lemma NoStream(f: Flags, bytes: Bytes)
    requires |bytes| == f.HeaderLen()
    ensures !f.Stream() ==> DecodeStream(f, bytes) == Ok(None) && PingAt(f) == FLAGS_LEN
  {
  }

  method DecodeStreamFrom(f: Flags, reader: Reader) returns (r: Result<Option<StreamHeader>, DecodeError>)
    requires f.Stream() && |reader.buf| == f.HeaderLen() && reader.at == FLAGS_LEN
    modifies reader
    ensures r == DecodeStream(f, reader.buf)
    ensures r.Ok? ==> reader.at == PingAt(f)
  {
    hide FromBe16, FromBe32;
    var idBytes := reader.Take(2);
    var credit := None;
    if f.window {
      var creditBytes := reader.Take(4);
      if FromBe32(creditBytes) == 0 {
        return Err(ZeroCredit);
      }
      credit := Some(FromBe32(creditBytes));
    }
    var dataLen := None;
    if f.data {
      var lenBytes := reader.Take(2);
      if FromBe16(lenBytes) == 0 {
        return Err(ZeroLength);
      }
      dataLen := Some(FromBe16(lenBytes));
    }
    r := Ok(Some(StreamHeader(FromBe16(idBytes), ControlFlags(f.finRead, f.finWrite, f.syn), credit, dataLen)));
  }
}
