/** Whole frames: a header and its payload. What the bytes of a stream of frames mean. */
module Frames {
  import opened Prelude
  import opened Headers

  datatype Frame = Frame(header: Header, data: Bytes)

  const TERM := Frame(Header(None, None, None, true), [])

  function DataLen(h: Header): nat {
    if h.stream.Some? && h.stream.value.dataLen.Some? then h.stream.value.dataLen.value else 0
  }

  /** A frame that the peer accepts. */
  predicate LegalFrame(f: Frame, limit: nat) {
    Legal(f.header) && |f.data| == DataLen(f.header) <= limit
  }

  function EncodeFrame(f: Frame): Bytes {
    Encode(f.header) + f.data
  }

  function EncodeAll(fs: seq<Frame>): Bytes {
    if fs == [] then [] else EncodeFrame(fs[0]) + EncodeAll(fs[1..])
  }

  lemma {:induction false} EncodeAllAppend(fs: seq<Frame>, gs: seq<Frame>)
    ensures EncodeAll(fs + gs) == EncodeAll(fs) + EncodeAll(gs)
  {
    hide EncodeFrame;
    if fs == [] {
      assert fs + gs == gs;
    } else {
      EncodeAllAppend(fs[1..], gs);
      assert (fs + gs)[1..] == fs[1..] + gs && (fs + gs)[0] == fs[0];
      var (first, a, b) := (EncodeFrame(fs[0]), EncodeAll(fs[1..]), EncodeAll(gs));
      assert first + (a + b) == first + a + b;
    }
  }

  // Reading the first frame of some bytes.

  datatype Parsed =
    | More
    | Got(frame: Frame, len: nat)
    | Bad(error: DecodeError)

  function Parse(b: Bytes, limit: nat): Parsed {
    if |b| < 2 then More
    else
      match Validate(FromBe16(b[..2]))
      case Err(e) => Bad(e)
      case Ok(f) => if |b| < f.HeaderLen() then More else ParseData(f, b, limit)
  }

  function ParseData(f: Flags, b: Bytes, limit: nat): Parsed
    requires |b| >= f.HeaderLen()
  {
    var at := f.HeaderLen();
    match Decode(f, b[..at])
    case Err(e) => Bad(e)
    case Ok(h) =>
      if DataLen(h) > limit then Bad(DataTooLong)
      else if |b| < at + DataLen(h) then More
      else Got(Frame(h, b[at..at + DataLen(h)]), at + DataLen(h))
  }

  /** A legal frame is read back, whatever follows it. */
  lemma ParseWhole(f: Frame, rest: Bytes, limit: nat)
    requires LegalFrame(f, limit)
    ensures Parse(EncodeFrame(f) + rest, limit) == Got(f, |EncodeFrame(f)|)
  {
    hide Encode, Decode, Validate, FromBe16, FlagsOf, Be16;
    EncodedLength(f.header);
    DecodeEncode(f.header);
    var b := EncodeFrame(f) + rest;
    var at := FlagsOf(f.header).HeaderLen();
    assert b[..2] == Encode(f.header)[..2];
    assert b[..at] == Encode(f.header);
    assert b[at..at + |f.data|] == f.data;
  }

  /** A part of a legal frame is neither a frame nor an error. */
  lemma ParsePart(f: Frame, n: nat, limit: nat)
    requires LegalFrame(f, limit) && n < |EncodeFrame(f)|
    ensures Parse(EncodeFrame(f)[..n], limit) == More
  {
    hide Encode, Decode, Validate, FromBe16, FlagsOf, Be16;
    EncodedLength(f.header);
    DecodeEncode(f.header);
    var b := EncodeFrame(f)[..n];
    var at := FlagsOf(f.header).HeaderLen();
    if n >= 2 {
      assert b[..2] == Encode(f.header)[..2];
    }
    if n >= at {
      assert b[..at] == Encode(f.header);
    }
  }

  /** What is read as a frame is a legal frame, and its encoding. */
  lemma ParseSound(b: Bytes, limit: nat)
    requires Parse(b, limit).Got?
    ensures var p := Parse(b, limit);
            LegalFrame(p.frame, limit) && p.len <= |b| && EncodeFrame(p.frame) == b[..p.len]
  {
    hide Encode, Decode, Validate, FromBe16, Be16, Bits;
    var p := Parse(b, limit);
    var f := Validate(FromBe16(b[..2])).value;
    var at := f.HeaderLen();
    ValidateExactly(FromBe16(b[..2]));
    FromBe16RoundTrip(b[..2]);
    assert b[..at][..2] == b[..2];
    EncodeDecode(f, b[..at]);
    assert b[..p.len] == b[..at] + b[at..p.len];
  }

  /** The first frame does not depend on how much of the rest is there. */
  lemma ParseTake(f: Frame, rest: Bytes, n: nat, limit: nat)
    requires LegalFrame(f, limit) && n <= |EncodeFrame(f) + rest|
    ensures var p := Parse((EncodeFrame(f) + rest)[..n], limit);
            var len := |EncodeFrame(f)|;
            && len > 0
            && (n < len ==> p == More)
            && (n >= len ==> p == Got(f, len))
  {
    hide EncodeFrame, Parse, LegalFrame;
    var b := (EncodeFrame(f) + rest)[..n];
    var whole := EncodeFrame(f);
    NonEmpty(f, limit);
    if n < |whole| {
      assert b == whole[..n];
      ParsePart(f, n, limit);
    } else {
      assert b == whole + b[|whole|..];
      ParseWhole(f, b[|whole|..], limit);
    }
  }

  lemma NonEmpty(f: Frame, limit: nat)
    requires LegalFrame(f, limit)
    ensures |EncodeFrame(f)| > 0
  {
    EncodedLength(f.header);
  }
}
