/** Frame headers: flags, and the fields that the flags announce, in a fixed order. */
module Headers {
  import opened Prelude
  import opened StreamId

  type U16 = x: int | 0 <= x < 0x1_0000
  type U32 = x: int | 0 <= x < 0x1_0000_0000
  type NonZeroU16 = x: int | 1 <= x < 0x1_0000 witness 1
  type NonZeroU32 = x: int | 1 <= x < 0x1_0000_0000 witness 1

  const FLAGS_LEN: nat := 2
  const MAX_HEADER_LEN: nat := 18

  datatype DecodeError =
    | ReservedFlags
    | NoFlags
    | TermCombined
    | ZeroCredit
    | ZeroLength
    | DataTooLong

  // Flags.

  datatype Flags = Flags(syn: bool, finRead: bool, finWrite: bool, window: bool, data: bool, ping: bool, pong: bool, term: bool) {
    predicate Stream() {
      syn || finRead || finWrite || window || data
    }

    predicate IsEmpty() {
      !Stream() && !ping && !pong && !term
    }

    predicate Valid() {
      !IsEmpty() && (term ==> !Stream() && !ping && !pong)
    }

    function HeaderLen(): nat {
      FLAGS_LEN + (if Stream() then 2 else 0) + (if window then 4 else 0) + (if data then 2 else 0)
      + (if ping then 4 else 0) + (if pong then 4 else 0)
    }
  }

  function Bit(b: bool): nat {
    if b then 1 else 0
  }

  /** The lowest bit is the first flag. */
  function Push(b: bool, rest: nat): nat {
    Bit(b) + 2 * rest
  }

  function Bits(f: Flags): (raw: U16)
    ensures raw < 0x100
  {
    Push(f.syn, Push(f.finRead, Push(f.finWrite, Push(f.window, Push(f.data, Push(f.ping, Push(f.pong, Bit(f.term))))))))
  }

  /** The masks of the single flags. */
  lemma Masks()
    ensures Bits(Flags(true, false, false, false, false, false, false, false)) == 0x0001
    ensures Bits(Flags(false, true, false, false, false, false, false, false)) == 0x0002
    ensures Bits(Flags(false, false, true, false, false, false, false, false)) == 0x0004
    ensures Bits(Flags(false, false, false, true, false, false, false, false)) == 0x0008
    ensures Bits(Flags(false, false, false, false, true, false, false, false)) == 0x0010
    ensures Bits(Flags(false, false, false, false, false, true, false, false)) == 0x0020
    ensures Bits(Flags(false, false, false, false, false, false, true, false)) == 0x0040
    ensures Bits(Flags(false, false, false, false, false, false, false, true)) == 0x0080
  {
  }

  predicate Odd(x: nat) {
    x % 2 == 1
  }

  function Half(x: nat): nat {
    x / 2
  }

  function FromBits(raw: U16): Option<Flags> {
    if raw >= 0x100 then None
    else
      var r1 := Half(raw);
      var r2 := Half(r1);
      var r3 := Half(r2);
      var r4 := Half(r3);
      var r5 := Half(r4);
      var r6 := Half(r5);
      Some(Flags(Odd(raw), Odd(r1), Odd(r2), Odd(r3), Odd(r4), Odd(r5), Odd(r6), Odd(Half(r6))))
  }

  function Validate(raw: U16): Result<Flags, DecodeError> {
    match FromBits(raw)
    case None => Err(ReservedFlags)
    case Some(f) =>
      if f.IsEmpty() then Err(NoFlags)
      else if f.term && f != Flags(false, false, false, false, false, false, false, true) then Err(TermCombined)
      else Ok(f)
  }

  lemma Pop(b: bool, rest: nat)
    ensures Odd(Push(b, rest)) == b && Half(Push(b, rest)) == rest
  {
  }

  lemma BitsRoundTrip(f: Flags)
    ensures FromBits(Bits(f)) == Some(f)
  {
    hide Push, Odd, Half;
    var r7: nat := Bit(f.term);
    var r6 := Push(f.pong, r7);
    var r5 := Push(f.ping, r6);
    var r4 := Push(f.data, r5);
    var r3 := Push(f.window, r4);
    var r2 := Push(f.finWrite, r3);
    var r1 := Push(f.finRead, r2);
    Pop(f.syn, r1);
    Pop(f.finRead, r2);
    Pop(f.finWrite, r3);
    Pop(f.window, r4);
    Pop(f.data, r5);
    Pop(f.ping, r6);
    Pop(f.pong, r7);
    LastBit(f.term);
  }

  lemma LastBit(b: bool)
    ensures Odd(Bit(b)) == b
  {
  }

  lemma LastOdd(x: nat)
    ensures x < 2 ==> Bit(Odd(x)) == x
  {
  }

  lemma Repush(x: nat)
    ensures Push(Odd(x), Half(x)) == x
  {
  }

  lemma Small(raw: U16)
    requires raw < 0x100
    ensures Half(Half(Half(Half(Half(Half(Half(raw))))))) < 2
  {
  }

  lemma FlagsRoundTrip(raw: U16)
    requires FromBits(raw).Some?
    ensures Bits(FromBits(raw).value) == raw
  {
    hide Push, Odd, Half;
    Small(raw);
    var r1 := Half(raw);
    var r2 := Half(r1);
    var r3 := Half(r2);
    var r4 := Half(r3);
    var r5 := Half(r4);
    var r6 := Half(r5);
    Repush(raw);
    Repush(r1);
    Repush(r2);
    Repush(r3);
    Repush(r4);
    Repush(r5);
    Repush(r6);
    LastOdd(Half(r6));
  }

  /** The accepted flags are exactly the valid ones. */
  lemma ValidateExactly(raw: U16)
    ensures Validate(raw).Ok? <==> exists f: Flags :: f.Valid() && Bits(f) == raw
    ensures Validate(raw).Ok? ==> Validate(raw).value.Valid() && Bits(Validate(raw).value) == raw
  {
    if Validate(raw).Ok? {
      FlagsRoundTrip(raw);
    }
    if f: Flags :| f.Valid() && Bits(f) == raw {
      BitsRoundTrip(f);
    }
  }

  // Headers.

  datatype ControlFlags = ControlFlags(finRead: bool, finWrite: bool, syn: bool)

  datatype StreamHeader = StreamHeader(id: Id, flags: ControlFlags, credit: Option<NonZeroU32>, dataLen: Option<NonZeroU16>)

  datatype Header = Header(stream: Option<StreamHeader>, ping: Option<U32>, pong: Option<U32>, term: bool)

  function FlagsOf(h: Header): Flags {
    match h.stream
    case None => Flags(false, false, false, false, false, h.ping.Some?, h.pong.Some?, h.term)
    case Some(s) =>
      Flags(s.flags.syn, s.flags.finRead, s.flags.finWrite, s.credit.Some?, s.dataLen.Some?, h.ping.Some?, h.pong.Some?, h.term)
  }

  /** Something is in the header, a stream part is not empty, and `TERM` is alone. */
  predicate Legal(h: Header) {
    FlagsOf(h).Valid() && (h.stream.Some? ==> FlagsOf(h).Stream())
  }

  function Be16(x: U16): (b: Bytes)
    ensures |b| == 2
  {
    [x / 0x100, x % 0x100]
  }

  function Be32(x: U32): (b: Bytes)
    ensures |b| == 4
  {
    [x / 0x100_0000, x / 0x1_0000 % 0x100, x / 0x100 % 0x100, x % 0x100]
  }

  function FromBe16(b: Bytes): U16
    requires |b| == 2
  {
    b[0] as int * 0x100 + b[1]
  }

  function FromBe32(b: Bytes): U32
    requires |b| == 4
  {
    b[0] as int * 0x100_0000 + b[1] as int * 0x1_0000 + b[2] as int * 0x100 + b[3]
  }

  lemma Be16RoundTrip(x: U16)
    ensures FromBe16(Be16(x)) == x
  {
  }

  lemma FromBe16RoundTrip(b: Bytes)
    requires |b| == 2
    ensures Be16(FromBe16(b)) == b
  {
  }

  lemma Be32RoundTrip(x: U32)
    ensures FromBe32(Be32(x)) == x
  {
    var (x1, x2) := (x / 0x100, x / 0x1_0000);
    Bytewise(x);
    Divided(x);
    Divided(x1);
    Divided(x2);
    FromBe32Bytes(Be32(x));
  }

  lemma Divided(x: nat)
    ensures x == x / 0x100 * 0x100 + x % 0x100
  {
  }

  lemma FromBe32RoundTrip(b: Bytes)
    requires |b| == 4
    ensures Be32(FromBe32(b)) == b
  {
    hide FromBe32;
    var (x1, x2) := (b[0] as int * 0x100 + b[1], b[0] as int * 0x1_0000 + b[1] as int * 0x100 + b[2]);
    FromBe32Bytes(b);
    LastByte(b[0], b[1]);
    LastByte(x1, b[2]);
    LastByte(x2, b[3]);
    Bytewise(FromBe32(b));
  }

  lemma FromBe32Bytes(b: Bytes)
    requires |b| == 4
    ensures FromBe32(b) == ((b[0] as int * 0x100 + b[1]) * 0x100 + b[2]) * 0x100 + b[3]
  {
  }

  lemma LastByte(rest: nat, last: Byte)
    ensures (rest * 0x100 + last) / 0x100 == rest && (rest * 0x100 + last) % 0x100 == last
  {
  }

  lemma Bytewise(x: nat)
    ensures x / 0x1_0000 == x / 0x100 / 0x100 && x / 0x100_0000 == x / 0x1_0000 / 0x100
  {
  }

  // Encoding.

  function StreamFields(h: Header): Bytes {
    match h.stream
    case None => []
    case Some(s) =>
      Be16(s.id) + (if s.credit.Some? then Be32(s.credit.value) else [])
      + (if s.dataLen.Some? then Be16(s.dataLen.value) else [])
  }

  function PingFields(h: Header): Bytes {
    (if h.ping.Some? then Be32(h.ping.value) else []) + (if h.pong.Some? then Be32(h.pong.value) else [])
  }

  function Encode(h: Header): Bytes {
    Be16(Bits(FlagsOf(h))) + StreamFields(h) + PingFields(h)
  }

  // Decoding.

  function DecodeStream(f: Flags, b: Bytes): Result<Option<StreamHeader>, DecodeError>
    requires |b| == f.HeaderLen()
  {
    if !f.Stream() then Ok(None)
    else
      var id := FromBe16(b[2..4]);
      var at := if f.window then 8 else 4;
      var credit := if f.window then FromBe32(b[4..8]) else 0;
      var len := if f.data then FromBe16(b[at..at + 2]) else 0;
      if f.window && credit == 0 then Err(ZeroCredit)
      else if f.data && len == 0 then Err(ZeroLength)
      else
        Ok(Some(StreamHeader(id, ControlFlags(f.finRead, f.finWrite, f.syn),
                             if f.window then Some(credit) else None, if f.data then Some(len) else None)))
  }

  /** Where the fields of the `PING` and of the `PONG` start. */
  function PingAt(f: Flags): (at: nat)
    ensures at <= f.HeaderLen()
  {
    f.HeaderLen() - (if f.ping then 4 else 0) - (if f.pong then 4 else 0)
  }

  function PongAt(f: Flags): (at: nat)
    ensures PingAt(f) <= at <= f.HeaderLen()
  {
    f.HeaderLen() - (if f.pong then 4 else 0)
  }

  function Decode(f: Flags, b: Bytes): Result<Header, DecodeError>
    requires |b| == f.HeaderLen()
  {
    var stream :- DecodeStream(f, b);
    Ok(Header(stream, if f.ping then Some(FromBe32(b[PingAt(f)..PongAt(f)])) else None,
              if f.pong then Some(FromBe32(b[PongAt(f)..])) else None, f.term))
  }

  // The codec of headers is a bijection between legal headers and accepted bytes.

  lemma EncodedLength(h: Header)
    requires Legal(h)
    ensures |Encode(h)| == FlagsOf(h).HeaderLen() <= MAX_HEADER_LEN
    ensures Encode(h)[..2] == Be16(Bits(FlagsOf(h)))
    ensures Validate(FromBe16(Encode(h)[..2])) == Ok(FlagsOf(h))
  {
    hide Be16, Be32, Bits, FromBe16, FromBits;
    Be16RoundTrip(Bits(FlagsOf(h)));
    BitsRoundTrip(FlagsOf(h));
    assert Encode(h)[..2] == Be16(Bits(FlagsOf(h)));
  }

  lemma DecodeEncode(h: Header)
    requires Legal(h)
    ensures |Encode(h)| == FlagsOf(h).HeaderLen()
    ensures Decode(FlagsOf(h), Encode(h)) == Ok(h)
  {
    EncodedLength(h);
    DecodeEncodeStream(h);
    DecodeEncodePings(h);
  }

  lemma DecodeEncodeStream(h: Header)
    requires Legal(h) && |Encode(h)| == FlagsOf(h).HeaderLen()
    ensures DecodeStream(FlagsOf(h), Encode(h)) == Ok(h.stream)
  {
    hide Be16, Be32, FromBe16, FromBe32, Bits, PingFields;
    var b := Encode(h);
    if h.stream.Some? {
      var s := h.stream.value;
      assert b[2..4] == Be16(s.id);
      Be16RoundTrip(s.id);
      if s.credit.Some? {
        assert b[4..8] == Be32(s.credit.value);
        Be32RoundTrip(s.credit.value);
      }
      if s.dataLen.Some? {
        var at := if s.credit.Some? then 8 else 4;
        assert b[at..at + 2] == Be16(s.dataLen.value);
        Be16RoundTrip(s.dataLen.value);
      }
    }
  }

  lemma DecodeEncodePings(h: Header)
    requires Legal(h) && |Encode(h)| == FlagsOf(h).HeaderLen()
    ensures var (f, b) := (FlagsOf(h), Encode(h));
            && (h.ping.Some? ==> FromBe32(b[PingAt(f)..PongAt(f)]) == h.ping.value)
            && (h.pong.Some? ==> FromBe32(b[PongAt(f)..]) == h.pong.value)
  {
    hide StreamFields, FromBe32, Be32, Be16, Bits;
    var (f, b) := (FlagsOf(h), Encode(h));
    var head := Be16(Bits(f)) + StreamFields(h);
    assert |head| == PingAt(f);
    if h.ping.Some? {
      assert b[PingAt(f)..PongAt(f)] == Be32(h.ping.value);
      Be32RoundTrip(h.ping.value);
    }
    if h.pong.Some? {
      assert b[PongAt(f)..] == Be32(h.pong.value);
      Be32RoundTrip(h.pong.value);
    }
  }

  lemma EncodeDecodeStream(f: Flags, b: Bytes)
    requires f.Valid() && |b| == f.HeaderLen() && DecodeStream(f, b).Ok?
    ensures forall h: Header | h.stream == DecodeStream(f, b).value :: StreamFields(h) == b[2..PingAt(f)]
  {
    if f.Stream() {
      var end := PingAt(f);
      var at := if f.window then 8 else 4;
      FromBe16RoundTrip(b[2..4]);
      if f.window {
        FromBe32RoundTrip(b[4..8]);
      }
      if f.data {
        FromBe16RoundTrip(b[at..at + 2]);
      }
      assert b[2..end] == b[2..4] + b[4..at] + b[at..end];
    }
  }

  lemma Cut(b: Bytes, i: nat, j: nat)
    requires i <= j <= |b|
    ensures b[i..] == b[i..j] + b[j..]
  {
  }

  lemma EncodeDecodePings(f: Flags, b: Bytes)
    requires f.Valid() && |b| == f.HeaderLen() && Decode(f, b).Ok?
    ensures PingFields(Decode(f, b).value) == b[PingAt(f)..]
  {
    hide DecodeStream, Be32, FromBe32;
    var (ping, pong) := (PingAt(f), PongAt(f));
    if f.ping {
      FromBe32RoundTrip(b[ping..pong]);
    }
    if f.pong {
      FromBe32RoundTrip(b[pong..]);
    }
    Cut(b, ping, pong);
    assert !f.ping ==> b[ping..pong] == [];
    assert !f.pong ==> b[pong..] == [];
  }

  lemma EncodeDecode(f: Flags, b: Bytes)
    requires f.Valid() && |b| == f.HeaderLen() && b[..2] == Be16(Bits(f))
    requires Decode(f, b).Ok?
    ensures var h := Decode(f, b).value; Legal(h) && FlagsOf(h) == f && Encode(h) == b
  {
    hide StreamFields, PingFields, Be16, Bits;
    EncodeDecodeStream(f, b);
    EncodeDecodePings(f, b);
    assert b == b[..2] + b[2..PingAt(f)] + b[PingAt(f)..];
  }
}
