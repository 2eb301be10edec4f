/** The resumable decoder, and what it makes of any split of the bytes into reads. */
module Decoder {
  import opened Prelude
  import opened Headers
  import opened HeaderBuffer
  import opened Frames

  /** What the decoder yields. */
  datatype Decoded = Terminate | Inbound(frame: Frame)

  function DecodedOf(f: Frame): Decoded {
    if f.header.term then Terminate else Inbound(f)
  }

  datatype Outcome =
    | Pending
    | Yield(decoded: Decoded)
    | End
    | UnexpectedEnd
    | Failed(error: DecodeError)

  /** The bytes are exactly one frame, or not the start of a legal one. */
  ghost predicate Decides(limit: nat, seen: Bytes, r: Outcome) {
    match Parse(seen, limit)
    case More => false
    case Got(f, len) => len == |seen| && r == Yield(DecodedOf(f))
    case Bad(e) => r == Failed(e)
  }

  /**
   * One poll of the decoder, as its caller sees it. `held` are the bytes of an unfinished frame that the decoder holds,
   * `input` the bytes that it has not read. It reads some bytes, and never past the end of a frame.
   */
  ghost predicate Polls(limit: nat, held: Bytes, input: Bytes, r: Outcome, held': Bytes, input': Bytes) {
    && |input'| <= |input| && input' == input[|input| - |input'|..]
    && var seen := held + input[..|input| - |input'|];
       match r
       case Pending => held' == seen && Parse(seen, limit) == More
       case Yield(_) => held' == [] && Decides(limit, seen, r)
       case End => seen == [] && held' == [] && input' == []
       case UnexpectedEnd => seen != [] && held' == seen && Parse(seen, limit) == More && input' == []
       case Failed(_) => Decides(limit, seen, r)
  }

  // The transport.

  datatype ReadResult = NotReady | Read(bytes: Bytes)

  /** A transport that delivers what has arrived in pieces of its own choice, and then ends, if it was ended. */
  class Source {
    var input: Bytes
    var ended: bool
    var pieces: seq<nat>
    /** How often it had nothing to deliver. Each time, it takes note of who asked. */
    ghost var refused: nat

    constructor (input: Bytes, ended: bool, pieces: seq<nat>)
      ensures this.input == input && this.ended == ended && refused == 0
    {
      this.input, this.ended, this.pieces, refused := input, ended, pieces, 0;
    }

    method PollRead(max: nat) returns (r: ReadResult)
      requires max > 0
      modifies `input, `pieces, `refused
      ensures refused == old(refused) + if r.NotReady? then 1 else 0
      ensures r.NotReady? ==> input == old(input)
      ensures r.Read? ==> |r.bytes| <= max && r.bytes + input == old(input)
      ensures r.Read? && r.bytes == [] ==> old(input) == [] && ended
    {
      if pieces == [] || (input == [] && !ended) || (input != [] && pieces[0] == 0) {
        pieces := if pieces == [] then [] else pieces[1..];
        refused := refused + 1;
        return NotReady;
      }
      var n := Min(pieces[0], Min(max, |input|));
      pieces := pieces[1..];
      r := Read(input[..n]);
      input := input[n..];
    }

    /** More has arrived. How the transport will split its next reads is up to it. */
    method Arrive(bytes: Bytes, pieces: seq<nat>)
      modifies this
      ensures input == old(input) + bytes && ended == old(ended) && refused == old(refused)
    {
      input, this.pieces := input + bytes, pieces;
    }
  }

  /** The codec, as a reader of frames. */
  class FrameReader {
    const limit: nat
    var inHeader: bool
    /** Bytes of the header, or of the payload, read so far. */
    var filled: nat
    /** How far to read before deciding: to the end of the flags, and then to the end of what they announce. */
    var need: nat
    var flags: Option<Flags>
    const buffer: array<Byte>
    var header: Header
    var data: array<Byte>

    constructor (limit: nat)
      ensures Valid() && Held() == [] && this.limit == limit && fresh(buffer) && fresh(data)
    {
      this.limit := limit;
      inHeader, filled, need, flags := true, 0, FLAGS_LEN, None;
      buffer := new Byte[MAX_HEADER_LEN];
      header := TERM.header;
      data := new Byte[0];
    }

    ghost predicate Valid()
      reads this, buffer, data
    {
      && buffer.Length == MAX_HEADER_LEN && buffer != data
      && (inHeader ==> HeaderOk() && filled < need <= buffer.Length)
      && (!inHeader ==> filled < data.Length == DataLen(header) <= limit && Legal(header))
    }

    ghost predicate HeaderOk()
      reads this, buffer
    {
      && filled <= need <= buffer.Length
      && (flags.None? ==> need == FLAGS_LEN)
      && (flags.Some? ==>
            FLAGS_LEN <= filled && need == flags.value.HeaderLen()
            && Validate(FromBe16(buffer[..FLAGS_LEN])) == Ok(flags.value))
    }

    /** The bytes of the unfinished frame. */
    ghost function Held(): Bytes
      reads this, buffer, data
    {
      if inHeader then
        if filled <= buffer.Length then buffer[..filled] else []
      else
        if filled <= data.Length then Encode(header) + data[..filled] else []
    }

    lemma HeldIsPart()
      requires Valid()
      ensures Parse(Held(), limit) == More
    {
      if inHeader {
        assert flags.Some? ==> buffer[..filled][..2] == buffer[..2];
      } else {
        EncodedLength(header);
        DecodeEncode(header);
        var at := FlagsOf(header).HeaderLen();
        assert Held()[..2] == Encode(header)[..2];
        assert Held()[..at] == Encode(header);
      }
    }

    method Reset()
      modifies this
      ensures inHeader && filled == 0 && need == FLAGS_LEN && flags.None? && data == old(data)
    {
      inHeader, filled, need, flags := true, 0, FLAGS_LEN, None;
    }

    /** What feeding some bytes leads to: a longer unfinished frame, or a result. */
    ghost predicate Fed(seen: Bytes, r: Option<Outcome>)
      reads this, buffer, data
    {
      && (r.None? ==> Valid() && Held() == seen)
      && (r.Some? ==> (r.value.Yield? || r.value.Failed?) && Decides(limit, seen, r.value))
      && (r.Some? && r.value.Yield? ==> Valid() && Held() == [])
    }

    /** The header is complete: the frame is, too, or its payload follows. */
    method HeaderDone(f: Flags) returns (r: Option<Outcome>)
      requires buffer.Length == MAX_HEADER_LEN && buffer != data && inHeader
      requires filled == f.HeaderLen() <= MAX_HEADER_LEN && Validate(FromBe16(buffer[..FLAGS_LEN])) == Ok(f)
      modifies this
      ensures Fed(old(buffer[..filled]), r)
      ensures fresh(data) || data == old(data)
    {
      hide Parse, Decode, Encode, Validate, FromBe16;
      ghost var seen := buffer[..filled];
      assert seen[..2] == buffer[..2];
      WholeHeader(f, seen, limit);
      var decoded := DecodeFrom(f, buffer[..filled]);
      match decoded
      case Err(e) =>
        r := Some(Failed(e));
      case Ok(h) =>
        var len := DataLen(h);
        if h.term {
          Reset();
          r := Some(Yield(Terminate));
        } else if len == 0 {
          Reset();
          r := Some(Yield(Inbound(Frame(h, []))));
        } else if len > limit {
          r := Some(Failed(DataTooLong));
        } else {
          header, inHeader, filled := h, false, 0;
          data := new Byte[len];
          assert Encode(h) + data[..0] == seen;
          r := None;
        }
    }

    method FeedHeader(bytes: Bytes) returns (r: Option<Outcome>)
      requires Valid() && inHeader && 0 < |bytes| <= need - filled
      modifies this, buffer
      ensures Fed(old(Held()) + bytes, r)
      ensures fresh(data) || data == old(data)
    {
      hide Parse, Validate, FromBe16;
      ghost var seen := Held() + bytes;
      CopyInto(buffer, filled, bytes);
      assert flags.Some? ==> buffer[..2] == old(buffer[..filled])[..2] == old(buffer[..2]);
      filled := filled + |bytes|;
      assert buffer[..filled] == seen;
      if filled < need {
        return None;
      }
      if flags.None? {
        match Validate(FromBe16(buffer[..2]))
        case Err(e) =>
          assert seen[..2] == buffer[..2];
          OnlyFlags(seen, limit);
          return Some(Failed(e));
        case Ok(f) =>
          ShortHeader(f);
          need, flags := f.HeaderLen(), Some(f);
          if filled < need {
            return None;
          }
      }
      r := HeaderDone(flags.value);
    }

    method FeedData(bytes: Bytes) returns (r: Option<Outcome>)
      requires Valid() && !inHeader && 0 < |bytes| <= data.Length - filled
      modifies this, data
      ensures Fed(old(Held()) + bytes, r)
      ensures data == old(data)
    {
      hide Parse, Encode;
      ghost var seen := Held() + bytes;
      CopyInto(data, filled, bytes);
      filled := filled + |bytes|;
      assert Encode(header) + data[..filled] == seen;
      if filled < data.Length {
        return None;
      }
      var out := Frame(header, data[..]);
      assert data[..filled] == data[..] && EncodeFrame(out) == seen && seen + [] == seen;
      ParseWhole(out, [], limit);
      Reset();
      return Some(Yield(DecodedOf(out)));
    }

    /** One read. */
    method ReadOnce(src: Source) returns (r: Option<Outcome>)
      requires Valid()
      modifies this, buffer, data, src`input, src`pieces, src`refused
      ensures fresh(data) || data == old(data)
      ensures r.None? ==> Valid() && |src.input| < old(|src.input|) && Took(old(Held()), old(src.input), Held(), src.input)
      ensures r.Some? && !r.value.Failed? ==> Valid() && Polls(limit, old(Held()), old(src.input), r.value, Held(), src.input)
      ensures r.Some? && r.value.Yield? ==> |src.input| < old(|src.input|)
      ensures r.Some? && (r.value.End? || r.value.UnexpectedEnd?) ==> src.ended
      ensures src.refused == old(src.refused) + if r == Some(Pending) then 1 else 0
      ensures r.Some? && r.value.Failed? ==> Polls(limit, old(Held()), old(src.input), r.value, [], src.input)
    {
      hide Parse, Encode, HeaderOk, Decides, Held, Polls, Took;
      HeldIsPart();
      HeldEmpty();
      ghost var held, input := Held(), src.input;
      var space := if inHeader then need - filled else data.Length - filled;
      var read := src.PollRead(space);
      PollsNothing(limit, held, input);
      if read.NotReady? {
        return Some(Pending);
      }
      if read.bytes == [] {
        assert input == [] && src.input == [];
        return Some(if inHeader && filled == 0 then End else UnexpectedEnd);
      }
      PollsSome(limit, held, input, read.bytes, src.input);
      if inHeader {
        r := FeedHeader(read.bytes);
      } else {
        r := FeedData(read.bytes);
      }
    }

    method PollNextFrame(src: Source) returns (r: Outcome)
      requires Valid()
      modifies this, buffer, data, src`input, src`pieces, src`refused
      ensures fresh(data) || data == old(data)
      ensures !r.Failed? ==> Valid() && Polls(limit, old(Held()), old(src.input), r, Held(), src.input)
      ensures r.Failed? ==> Polls(limit, old(Held()), old(src.input), r, [], src.input)
      ensures r.Yield? ==> |src.input| < old(|src.input|)
      ensures r.End? || r.UnexpectedEnd? ==> src.ended
      ensures src.refused == old(src.refused) + if r.Pending? then 1 else 0
    {
      hide Held, Polls, HeaderOk;
      ghost var held, input := Held(), src.input;
      assert Took(held, input, held, input) by {
        TookNothing(held, input);
      }
      while true
        invariant Valid() && (fresh(data) || data == old(data))
        invariant Took(held, input, Held(), src.input) && src.refused == old(src.refused)
        decreases |src.input|
      {
        ghost var held1, input1 := Held(), src.input;
        var done := ReadOnce(src);
        if done.Some? {
          TookThenPolls(limit, held, input, held1, input1, done.value, if done.value.Failed? then [] else Held(), src.input);
          return done.value;
        }
        TookTwice(held, input, held1, input1, Held(), src.input);
      }
    }

    lemma HeldEmpty()
      requires Valid()
      ensures Held() == [] <==> inHeader && filled == 0
    {
      if !inHeader {
        EncodedLength(header);
      }
    }
  }

  /** Some bytes went from the input to the unfinished frame. */
  ghost predicate Took(held: Bytes, input: Bytes, held': Bytes, input': Bytes) {
    && |input'| <= |input| && input' == input[|input| - |input'|..]
    && held' == held + input[..|input| - |input'|]
  }

  lemma PollsNothing(limit: nat, held: Bytes, input: Bytes)
    requires Parse(held, limit) == More
    ensures Polls(limit, held, input, Pending, held, input)
    ensures input == [] ==> Polls(limit, held, [], if held == [] then End else UnexpectedEnd, held, [])
  {
    hide Parse;
    assert held + input[..0] == held && input[0..] == input;
  }

  lemma PollsSome(limit: nat, held: Bytes, input: Bytes, bytes: Bytes, rest: Bytes)
    requires bytes + rest == input
    ensures Took(held, input, held + bytes, rest)
    ensures forall r: Outcome | (r.Yield? || r.Failed?) && Decides(limit, held + bytes, r) :: Polls(limit, held, input, r, [], rest)
  {
    hide Decides, Parse;
    assert input[..|bytes|] == bytes && input[|bytes|..] == rest;
  }

  lemma TookNothing(held: Bytes, input: Bytes)
    ensures Took(held, input, held, input)
  {
    assert held + input[..0] == held;
  }

  lemma TookTwice(h: Bytes, i: Bytes, h1: Bytes, i1: Bytes, h2: Bytes, i2: Bytes)
    requires Took(h, i, h1, i1) && Took(h1, i1, h2, i2)
    ensures Took(h, i, h2, i2)
  {
    var (a, b) := (i[..|i| - |i1|], i1[..|i1| - |i2|]);
    assert i[..|i| - |i2|] == a + b;
    assert h + a + b == h + (a + b);
  }

  lemma TookThenPolls(limit: nat, h: Bytes, i: Bytes, h1: Bytes, i1: Bytes, r: Outcome, h2: Bytes, i2: Bytes)
    requires Took(h, i, h1, i1) && Polls(limit, h1, i1, r, h2, i2)
    ensures Polls(limit, h, i, r, h2, i2)
  {
    hide Parse, Decides;
    assert i[..|i| - |i2|] == i[..|i| - |i1|] + i1[..|i1| - |i2|];
    assert h + i[..|i| - |i2|] == h1 + i1[..|i1| - |i2|];
  }

  lemma ShortHeader(f: Flags)
    ensures FLAGS_LEN <= f.HeaderLen() <= MAX_HEADER_LEN
  {
  }

  lemma OnlyFlags(seen: Bytes, limit: nat)
    requires |seen| == 2 && Validate(FromBe16(seen[..2])).Err?
    ensures Parse(seen, limit) == Bad(Validate(FromBe16(seen[..2])).error)
  {
  }

  /** What a complete header means. */
  lemma WholeHeader(f: Flags, seen: Bytes, limit: nat)
    requires |seen| == f.HeaderLen() && Validate(FromBe16(seen[..2])) == Ok(f)
    ensures f.Valid()
    ensures match Decode(f, seen)
            case Err(e) => Parse(seen, limit) == Bad(e)
            case Ok(h) =>
              && Legal(h) && Encode(h) == seen
              && (h.term ==> DataLen(h) == 0)
              && (DataLen(h) > limit ==> Parse(seen, limit) == Bad(DataTooLong))
              && (DataLen(h) == 0 ==> Parse(seen, limit) == Got(Frame(h, []), |seen|))
  {
    hide Decode, Encode, FromBe16, Be16, Bits;
    ValidateExactly(FromBe16(seen[..2]));
    FromBe16RoundTrip(seen[..2]);
    assert seen[..|seen|] == seen;
    if Decode(f, seen).Ok? {
      EncodeDecode(f, seen);
      assert seen[|seen|..|seen|] == [];
    }
  }

  // Runs.

  ghost predicate Legals(fs: seq<Frame>, limit: nat) {
    forall i | 0 <= i < |fs| :: LegalFrame(fs[i], limit)
  }

  /** A poll on a legal frame: it waits for more of it, or yields it and leaves the rest alone. */
  lemma PollLegal(limit: nat, held: Bytes, input: Bytes, f: Frame, rest: Bytes, r: Outcome, held': Bytes, input': Bytes)
    requires Polls(limit, held, input, r, held', input')
    requires LegalFrame(f, limit) && held + input == EncodeFrame(f) + rest
    ensures (r.Pending? && held' + input' == EncodeFrame(f) + rest)
         || (r == Yield(DecodedOf(f)) && held' == [] && input' == rest)
  {
    hide Parse, EncodeFrame, LegalFrame;
    var all := EncodeFrame(f) + rest;
    var n := |all| - |input'|;
    var seen := held + input[..|input| - |input'|];
    assert seen == all[..n] && input' == all[n..];
    ParseTake(f, rest, n, limit);
    assert all[|EncodeFrame(f)|..] == rest;
  }

  /** A poll on a part of a frame: it waits for more, or reports that the end came too early. */
  lemma PollPart(limit: nat, held: Bytes, input: Bytes, next: Frame, part: Bytes, r: Outcome, held': Bytes, input': Bytes)
    requires Polls(limit, held, input, r, held', input')
    requires LegalFrame(next, limit) && part < EncodeFrame(next) && held + input == part
    ensures r.Pending? || r == EndAfter(part)
    ensures held' + input' == part
  {
    hide Parse, EncodeFrame, LegalFrame;
    var n := |held| + |input| - |input'|;
    var seen := held + input[..|input| - |input'|];
    assert seen == part[..n] == EncodeFrame(next)[..n];
    ParsePart(next, n, limit);
  }

  /** The end of the transport is an error in the middle of a frame. */
  function EndAfter(part: Bytes): Outcome {
    if part == [] then End else UnexpectedEnd
  }

  /** The outcome of a poll, and what is held and left to read after it. */
  datatype DecodePoll = DecodePoll(r: Outcome, held: Bytes, input: Bytes)

  ghost predicate DecodeRun(limit: nat, held: Bytes, input: Bytes, polls: seq<DecodePoll>)
    decreases |polls|
  {
    polls != [] ==>
      && Polls(limit, held, input, polls[0].r, polls[0].held, polls[0].input)
      && DecodeRun(limit, polls[0].held, polls[0].input, polls[1..])
  }

  function Yielded(polls: seq<DecodePoll>): seq<Decoded> {
    if polls == [] then []
    else (if polls[0].r.Yield? then [polls[0].r.decoded] else []) + Yielded(polls[1..])
  }

  function DecodedAll(fs: seq<Frame>): seq<Decoded> {
    if fs == [] then [] else [DecodedOf(fs[0])] + DecodedAll(fs[1..])
  }

  /**
   * However the bytes of legal frames are split into reads, and whenever the decoder is polled, it yields these frames,
   * in order, and nothing else. When the transport ends in the middle of a frame, that is the only error. The end is
   * reported only after all whole frames.
   */
  lemma {:induction false} DecodesAll(limit: nat, held: Bytes, input: Bytes, fs: seq<Frame>, next: Frame, part: Bytes, polls: seq<DecodePoll>)
    requires Legals(fs, limit) && LegalFrame(next, limit) && part < EncodeFrame(next)
    requires held + input == EncodeAll(fs) + part
    requires DecodeRun(limit, held, input, polls)
    ensures Yielded(polls) <= DecodedAll(fs)
    ensures forall i | 0 <= i < |polls| :: polls[i].r.Pending? || polls[i].r.Yield? || polls[i].r == EndAfter(part)
    ensures polls != [] && polls[|polls| - 1].r == EndAfter(part) ==> Yielded(polls) == DecodedAll(fs)
    ensures polls != [] && polls[|polls| - 1].held + polls[|polls| - 1].input == part ==> Yielded(polls) == DecodedAll(fs)
    decreases |polls|
  {
    hide Polls, EncodeFrame, LegalFrame;
    if polls != [] {
      var (p, rest) := (polls[0], polls[1..]);
      if fs != [] {
        assert EncodeAll(fs) + part == EncodeFrame(fs[0]) + (EncodeAll(fs[1..]) + part);
        PollLegal(limit, held, input, fs[0], EncodeAll(fs[1..]) + part, p.r, p.held, p.input);
        var left := if p.r.Yield? then fs[1..] else fs;
        DecodesAll(limit, p.held, p.input, left, next, part, rest);
        if rest == [] {
          NothingLeft(left, limit);
        }
      } else {
        PollPart(limit, held, input, next, part, p.r, p.held, p.input);
        DecodesAll(limit, p.held, p.input, fs, next, part, rest);
      }
      assert forall i | 1 <= i < |polls| :: polls[i] == rest[i - 1];
    }
  }

  lemma NothingLeft(fs: seq<Frame>, limit: nat)
    requires Legals(fs, limit)
    ensures EncodeAll(fs) == [] <==> fs == []
  {
    if fs != [] {
      NonEmpty(fs[0], limit);
    }
  }
}
