/**
 * The bytes of a frame, written down field by field. This is a second definition of the format. It shares nothing with the
 * encoder and the decoder.
 */
module Layout {
  import opened Prelude
  import opened StreamId
  import opened Headers
  import opened Frames

  /** The number in two bytes, the more significant byte first. */
  function Word(b: Bytes, at: nat): nat
    requires at + 2 <= |b|
  {
    b[at] as int * 0x100 + b[at + 1]
  }

  /** The number in four bytes, likewise. */
  function Long(b: Bytes, at: nat): nat
    requires at + 4 <= |b|
  {
    Word(b, at) * 0x1_0000 + Word(b, at + 2)
  }

  function If(b: bool, n: nat): nat {
    if b then n else 0
  }

  /** The byte of the flags. */
  function FlagByte(h: Header): nat {
    var s := h.stream;
    If(s.Some? && s.value.flags.syn, 0x01) + If(s.Some? && s.value.flags.finRead, 0x02) + If(s.Some? && s.value.flags.finWrite, 0x04)
    + If(s.Some? && s.value.credit.Some?, 0x08) + If(s.Some? && s.value.dataLen.Some?, 0x10)
    + If(h.ping.Some?, 0x20) + If(h.pong.Some?, 0x40) + If(h.term, 0x80)
  }

  /** The same for flags alone. */
  function Mask(f: Flags): nat {
    If(f.syn, 0x01) + If(f.finRead, 0x02) + If(f.finWrite, 0x04) + If(f.window, 0x08)
    + If(f.data, 0x10) + If(f.ping, 0x20) + If(f.pong, 0x40) + If(f.term, 0x80)
  }

  /** The reserved byte is zero, the flags say which fields there are, and the stream fields follow. */
  ghost predicate StreamLaidOut(h: Header, b: Bytes) {
    && |b| >= 2 && b[0] == 0 && b[1] == FlagByte(h)
    && (h.stream.Some? ==>
          var s := h.stream.value;
          var len := 4 + If(s.credit.Some?, 4);
          && |b| >= len + If(s.dataLen.Some?, 2)
          && Word(b, 2) == s.id
          && (s.credit.Some? ==> Long(b, 4) == s.credit.value)
          && (s.dataLen.Some? ==> Word(b, len) == s.dataLen.value))
  }

  /** Where the fields of a stream end. */
  function StreamEnd(h: Header): nat {
    if h.stream.None? then 2 else 4 + If(h.stream.value.credit.Some?, 4) + If(h.stream.value.dataLen.Some?, 2)
  }

  /** The stream fields are followed by the times of the `PING` and of the `PONG`, and by nothing else. */
  ghost predicate LaidOut(h: Header, b: Bytes) {
    var ping := StreamEnd(h);
    var pong := ping + If(h.ping.Some?, 4);
    && StreamLaidOut(h, b)
    && |b| == pong + If(h.pong.Some?, 4)
    && (h.ping.Some? ==> Long(b, ping) == h.ping.value)
    && (h.pong.Some? ==> Long(b, pong) == h.pong.value)
  }

  lemma BitsAreMask(f: Flags)
    ensures Bits(f) == Mask(f)
  {
  }

  lemma MaskIsByte(h: Header)
    ensures Mask(FlagsOf(h)) == FlagByte(h)
  {
  }

  /** The two bytes at a place are these if and only if they are this number. */
  lemma WordAt(b: Bytes, at: nat, x: U16)
    requires at + 2 <= |b|
    ensures b[at..at + 2] == Be16(x) <==> Word(b, at) == x
  {
    if Word(b, at) == x {
      LastByte(b[at], b[at + 1]);
    } else {
      Divided(x);
    }
  }

  lemma LongAt(b: Bytes, at: nat, x: U32)
    requires at + 4 <= |b|
    ensures b[at..at + 4] == Be32(x) <==> Long(b, at) == x
  {
    hide Be32, FromBe32;
    var c := b[at..at + 4];
    FromBe32Bytes(c);
    Shifted(b[at], b[at + 1], b[at + 2], b[at + 3]);
    if c == Be32(x) {
      Be32RoundTrip(x);
    } else {
      FromBe32RoundTrip(c);
    }
  }

  lemma Shifted(a: int, b: int, c: int, d: int)
    ensures ((a * 0x100 + b) * 0x100 + c) * 0x100 + d == (a * 0x100 + b) * 0x1_0000 + (c * 0x100 + d)
  {
  }

  /** The encoding, piece by piece. */
  ghost predicate Pieces(h: Header, b: Bytes) {
    && |b| >= StreamEnd(h) && b[..2] == Be16(Bits(FlagsOf(h)))
    && b[2..StreamEnd(h)] == StreamFields(h) && b[StreamEnd(h)..] == PingFields(h)
  }

  lemma EncodedInPieces(h: Header, b: Bytes)
    requires Legal(h)
    ensures Pieces(h, b) <==> b == Encode(h)
  {
    hide Be16, Be32, Bits, PingFields;
    assert |StreamFields(h)| == StreamEnd(h) - 2;
    if Pieces(h, b) {
      assert b == b[..2] + b[2..StreamEnd(h)] + b[StreamEnd(h)..];
    }
    if b == Encode(h) {
      assert b[..2] == Be16(Bits(FlagsOf(h)));
      assert b[2..StreamEnd(h)] == StreamFields(h);
      assert b[StreamEnd(h)..] == PingFields(h);
    }
  }

  lemma FlagsLaidOut(f: Flags, b: Bytes)
    requires |b| >= 2
    ensures b[..2] == Be16(Bits(f)) <==> b[0] == 0 && b[1] == Mask(f)
  {
    hide Bits, Mask, Be16;
    BitsAreMask(f);
    WordAt(b, 0, Bits(f));
    assert b[0..2] == b[..2];
  }

  lemma StreamFieldsLaidOut(h: Header, b: Bytes)
    requires h.stream.Some? && |b| >= StreamEnd(h)
    ensures b[2..StreamEnd(h)] == StreamFields(h) <==>
            (var s := h.stream.value;
             && Word(b, 2) == s.id
             && (s.credit.Some? ==> Long(b, 4) == s.credit.value)
             && (s.dataLen.Some? ==> Word(b, 4 + If(s.credit.Some?, 4)) == s.dataLen.value))
  {
    hide Be16, Be32, Word, Long;
    var (s, fields) := (h.stream.value, b[2..StreamEnd(h)]);
    var len := 4 + If(s.credit.Some?, 4);
    WordAt(b, 2, s.id);
    assert fields == b[2..4] + b[4..len] + b[len..StreamEnd(h)];
    assert StreamFields(h)[..2] == Be16(s.id);
    if s.credit.Some? {
      LongAt(b, 4, s.credit.value);
      assert StreamFields(h)[2..6] == Be32(s.credit.value) && fields[2..6] == b[4..8];
    }
    if s.dataLen.Some? {
      WordAt(b, len, s.dataLen.value);
      assert StreamFields(h)[len - 2..] == Be16(s.dataLen.value) && fields[len - 2..] == b[len..len + 2];
    }
    assert fields[..2] == b[2..4];
  }

  lemma PingFieldsLaidOut(h: Header, b: Bytes)
    requires |b| >= StreamEnd(h)
    ensures b[StreamEnd(h)..] == PingFields(h) <==>
            (var ping := StreamEnd(h);
             var pong := ping + If(h.ping.Some?, 4);
             && |b| == pong + If(h.pong.Some?, 4)
             && (h.ping.Some? ==> Long(b, ping) == h.ping.value)
             && (h.pong.Some? ==> Long(b, pong) == h.pong.value))
  {
    hide Be32, Long, StreamEnd;
    var (at, fields) := (StreamEnd(h), b[StreamEnd(h)..]);
    var pong := at + If(h.ping.Some?, 4);
    if |b| == pong + If(h.pong.Some?, 4) {
      assert fields == b[at..pong] + b[pong..];
      if h.ping.Some? {
        LongAt(b, at, h.ping.value);
        assert PingFields(h)[..4] == Be32(h.ping.value) && fields[..4] == b[at..at + 4];
      }
      if h.pong.Some? {
        LongAt(b, pong, h.pong.value);
        assert PingFields(h)[pong - at..] == Be32(h.pong.value) && fields[pong - at..] == b[pong..pong + 4];
      }
    }
  }

  /** The encoder produces exactly what the layout says. */
  lemma EncodeLaysOut(h: Header, b: Bytes)
    requires Legal(h)
    ensures b == Encode(h) <==> LaidOut(h, b)
  {
    hide Encode, StreamFields, PingFields, Bits, Mask, Be16, Word, Long, FlagsOf, FlagByte;
    EncodedInPieces(h, b);
    MaskIsByte(h);
    if |b| >= 2 {
      FlagsLaidOut(FlagsOf(h), b);
    }
    if |b| >= StreamEnd(h) {
      PingFieldsLaidOut(h, b);
      if h.stream.Some? {
        StreamFieldsLaidOut(h, b);
      } else {
        NoStreamFields(h, b);
      }
    }
  }

  lemma NoStreamFields(h: Header, b: Bytes)
    requires h.stream.None? && |b| >= 2
    ensures b[2..StreamEnd(h)] == StreamFields(h) == []
  {
  }

  /** A frame is its header, followed by its payload. */
  ghost predicate FrameLaidOut(f: Frame, b: Bytes) {
    |f.data| <= |b| && LaidOut(f.header, b[..|b| - |f.data|]) && b[|b| - |f.data|..] == f.data
  }

  /** A frame is read from the front of some bytes exactly if these bytes are laid out like a legal frame. */
  lemma ParsesExactly(b: Bytes, limit: nat, f: Frame, len: nat)
    ensures Parse(b, limit) == Got(f, len) <==> LegalFrame(f, limit) && len <= |b| && FrameLaidOut(f, b[..len])
  {
    hide Parse, Encode, LaidOut, Legal;
    if Parse(b, limit) == Got(f, len) {
      ParseSound(b, limit);
      FrameLays(f, b[..len], limit);
    }
    if LegalFrame(f, limit) && len <= |b| && FrameLaidOut(f, b[..len]) {
      FrameLays(f, b[..len], limit);
      ParseWhole(f, b[len..], limit);
      assert b[..len] + b[len..] == b;
    }
  }

  lemma FrameLays(f: Frame, b: Bytes, limit: nat)
    requires LegalFrame(f, limit)
    ensures b == EncodeFrame(f) <==> FrameLaidOut(f, b)
  {
    hide Encode, LaidOut, Legal;
    if |f.data| <= |b| {
      var head := b[..|b| - |f.data|];
      EncodeLaysOut(f.header, head);
      assert b == head + b[|head|..];
      if b == EncodeFrame(f) {
        assert head == Encode(f.header);
      }
    }
  }

  // What is refused, and when.

  /** The flags that a byte stands for are found again in the layout. */
  lemma FlagsFrom(b: Bytes, f: Flags)
    requires |b| >= 2 && b[0] == 0 && b[1] == Mask(f)
    ensures Word(b, 0) == FromBe16(b[..2]) && FromBits(FromBe16(b[..2])) == Some(f)
  {
    hide Bits, Mask, Be16, FromBits;
    FlagsLaidOut(f, b);
    Be16RoundTrip(Bits(f));
    BitsRoundTrip(f);
  }

  lemma AllFlags(x: Byte) returns (f: Flags)
    ensures Mask(f) == x
  {
    hide Bits, Mask;
    f := FromBits(x).value;
    FlagsRoundTrip(x);
    BitsAreMask(f);
  }

  /** Flags are refused exactly if a reserved one is set, if there is none, or if `TERM` is not alone. */
  lemma RefusesFlags(b: Bytes, limit: nat)
    ensures |b| < 2 ==> Parse(b, limit) == More
    ensures |b| >= 2 ==>
              && (Parse(b, limit) == Bad(ReservedFlags) <==> b[0] != 0)
              && (Parse(b, limit) == Bad(NoFlags) <==> b[0] == 0 && b[1] == 0)
              && (Parse(b, limit) == Bad(TermCombined) <==> b[0] == 0 && b[1] > 0x80)
  {
    hide Decode;
    if |b| >= 2 {
      if b[0] == 0 {
        var f := AllFlags(b[1]);
        FlagsFrom(b, f);
        if f.Valid() {
          ParseFields(b, limit);
        }
      } else {
        Divided(FromBe16(b[..2]));
      }
    }
  }

  lemma ParseFields(b: Bytes, limit: nat)
    requires |b| >= 2 && Validate(FromBe16(b[..2])).Ok?
    ensures Parse(b, limit) != Bad(ReservedFlags) && Parse(b, limit) != Bad(NoFlags) && Parse(b, limit) != Bad(TermCombined)
  {
  }

  /** The credit is there, and it is zero. */
  predicate ZeroCreditIn(f: Flags, b: Bytes)
    requires |b| >= f.HeaderLen()
  {
    f.window && Long(b, 4) == 0
  }

  function LenIn(f: Flags, b: Bytes): nat
    requires |b| >= f.HeaderLen()
  {
    if f.data then Word(b, 4 + If(f.window, 4)) else 0
  }

  /**
   * With valid flags, the rest is refused exactly if the credit or the length is zero, or if the length exceeds the limit,
   * in this order. That is decided with the last byte of the header. Otherwise it takes the whole frame.
   */
  lemma RefusesFields(b: Bytes, limit: nat, f: Flags)
    requires |b| >= 2 && b[0] == 0 && b[1] == Mask(f) && f.Valid()
    ensures |b| < f.HeaderLen() ==> Parse(b, limit) == More
    ensures |b| >= f.HeaderLen() ==>
              && (Parse(b, limit) == Bad(ZeroCredit) <==> ZeroCreditIn(f, b))
              && (Parse(b, limit) == Bad(ZeroLength) <==> !ZeroCreditIn(f, b) && f.data && LenIn(f, b) == 0)
              && (Parse(b, limit) == Bad(DataTooLong) <==> !ZeroCreditIn(f, b) && LenIn(f, b) > limit)
              && (Parse(b, limit).Got? <==>
                    && !ZeroCreditIn(f, b) && (f.data ==> 1 <= LenIn(f, b) <= limit)
                    && |b| >= f.HeaderLen() + LenIn(f, b))
  {
    hide FromBe16, FromBe32, Mask, FromBits;
    FlagsFrom(b, f);
    if |b| >= f.HeaderLen() {
      var head := b[..f.HeaderLen()];
      if f.window {
        LongIs(b, head, 4);
      }
      if f.data {
        WordIs(b, head, 4 + If(f.window, 4));
      }
    }
  }

  lemma WordIs(b: Bytes, head: Bytes, at: nat)
    requires head <= b && at + 2 <= |head|
    ensures FromBe16(head[at..at + 2]) == Word(b, at)
  {
  }

  lemma LongIs(b: Bytes, head: Bytes, at: nat)
    requires head <= b && at + 4 <= |head|
    ensures FromBe32(head[at..at + 4]) == Long(b, at)
  {
  }
}
