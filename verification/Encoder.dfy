/** Frames to be written, and the codec that writes them to the transport, one at a time. */
module Encoder {
  import opened Prelude
  import opened Headers
  import opened HeaderBuffer
  import opened Frames
  import opened Decoder

  /** What an outgoing frame says to a stream. Zero credit and empty data stand for none. */
  datatype OutStream = OutStream(id: U16, flags: ControlFlags, credit: U32, data: Bytes)

  /** A frame to be written. The time in its `PING` is not known yet. */
  datatype OutFrame = OutFrame(ping: bool, pong: Option<U32>, stream: Option<OutStream>, term: bool)

  const TERMINATE := OutFrame(false, None, None, true)
  const MAX_DATA := 0xFFFF

  predicate IsEmpty(out: OutFrame) {
    !out.ping && out.pong.None? && out.stream.None? && !out.term
  }

  predicate EmptyPart(s: OutStream) {
    s.flags == ControlFlags(false, false, false) && s.credit == 0 && s.data == []
  }

  predicate LegalOut(out: OutFrame, limit: nat) {
    && !IsEmpty(out)
    && (out.term ==> out == TERMINATE)
    && (out.stream.Some? ==> !EmptyPart(out.stream.value) && |out.stream.value.data| <= limit)
  }

  function StreamHeaderOf(s: OutStream): StreamHeader
    requires |s.data| <= MAX_DATA
  {
    StreamHeader(s.id, s.flags, if s.credit == 0 then None else Some(s.credit), if s.data == [] then None else Some(|s.data|))
  }

  /** The frame that is written, when `time` is the time of its first byte. */
  function FrameOf(out: OutFrame, time: U32): Frame
    requires out.stream.Some? ==> |out.stream.value.data| <= MAX_DATA
  {
    Frame(Header(if out.stream.Some? then Some(StreamHeaderOf(out.stream.value)) else None,
                 if out.ping then Some(time) else None, out.pong, out.term),
          if out.stream.Some? then out.stream.value.data else [])
  }

  /** Exactly the frames that the encoder takes become frames that the decoder accepts. */
  lemma LegalWhenStamped(out: OutFrame, time: U32, limit: nat)
    requires out.stream.Some? ==> |out.stream.value.data| <= MAX_DATA
    ensures LegalFrame(FrameOf(out, time), limit) <==> LegalOut(out, limit)
  {
  }

  // The frame that is being written.

  class EncoderItem {
    var header: Header
    const payload: Bytes
    const encoded: array<Byte>
    var headerLen: nat
    /** The length of the prefix that is on its way. */
    var consumed: nat

    ghost predicate Valid()
      reads this, encoded
    {
      && encoded.Length == MAX_HEADER_LEN && LegalFrame(Value(), MAX_DATA)
      && headerLen == |Encode(header)| <= encoded.Length && encoded[..headerLen] == Encode(header)
      && consumed <= |EncodeFrame(Value())|
    }

    ghost function Value(): Frame
      reads this
    {
      Frame(header, payload)
    }

    constructor (out: OutFrame)
      requires LegalOut(out, MAX_DATA)
      ensures Valid() && Value() == FrameOf(out, 0) && consumed == 0 && fresh(encoded)
    {
      header := FrameOf(out, 0).header;
      payload := FrameOf(out, 0).data;
      encoded := new Byte[MAX_HEADER_LEN];
      headerLen, consumed := 0, 0;
      new;
      LegalWhenStamped(out, 0, MAX_DATA);
      EncodedLength(header);
      headerLen := EncodeInto(header, encoded);
    }

    predicate IsStarted()
      reads this
    {
      consumed > 0
    }

    predicate HasPing()
      reads this
    {
      header.ping.Some?
    }

    /** Encodes the header again, with another time. Possible only until the frame starts being written. */
    method Stamp(time: U32)
      requires Valid() && !IsStarted()
      modifies this, encoded
      ensures Valid() && consumed == 0 && headerLen == old(headerLen)
      ensures Value() == Frame(old(header).(ping := if old(HasPing()) then Some(time) else None), payload)
    {
      hide Encode, LegalFrame, Legal, FlagsOf;
      SameLength(header, payload, time);
      if HasPing() {
        header := header.(ping := Some(time));
      }
      headerLen := EncodeInto(header, encoded);
    }

    function Remaining(): (r: nat)
      requires Valid()
      reads this, encoded
      ensures r == |EncodeFrame(Value())| - consumed
    {
      headerLen + |payload| - consumed
    }

    /** The rest of the header, if any, and the rest of the payload, if any. */
    method Slices() returns (slices: seq<Bytes>)
      requires Valid()
      ensures |slices| <= 2 && Flat(slices) == EncodeFrame(Value())[consumed..]
      ensures forall s <- slices :: s != []
    {
      hide Encode, LegalFrame;
      slices := [];
      var headerLeft := Minus(headerLen, consumed);
      if headerLeft > 0 {
        slices := [encoded[headerLen - headerLeft..headerLen]];
        assert slices[0] == encoded[..headerLen][consumed..];
      }
      assert Flat(slices) == Encode(header)[headerLen - headerLeft..];
      var payloadDone := Minus(consumed, headerLen);
      if payloadDone < |payload| {
        FlatAppend(slices, payload[payloadDone..]);
        slices := slices + [payload[payloadDone..]];
      }
    }

    method Advance(n: nat)
      requires Valid() && n <= Remaining()
      modifies `consumed
      ensures Valid() && consumed == old(consumed) + n
    {
      consumed := consumed + n;
    }
  }

  /** The time in the `PING` changes neither the legality nor the length. */
  lemma SameLength(h: Header, payload: Bytes, time: U32)
    requires LegalFrame(Frame(h, payload), MAX_DATA)
    ensures var h' := if h.ping.Some? then h.(ping := Some(time)) else h;
            && LegalFrame(Frame(h', payload), MAX_DATA) && Legal(h') && FlagsOf(h') == FlagsOf(h)
            && |Encode(h')| == |Encode(h)| == FlagsOf(h).HeaderLen() <= MAX_HEADER_LEN
  {
    hide Encode;
    EncodedLength(h);
    EncodedLength(if h.ping.Some? then h.(ping := Some(time)) else h);
  }

  // The transport.

  datatype WriteResult = Blocked | Wrote(n: nat)

  /** What the transport does when it is called: it accepts up to `space` bytes, if it is ready, and then it is `now`. */
  datatype Event = Event(ready: bool, space: nat, now: U32)

  /** A transport that accepts as much as it wants of each write. */
  class Target {
    var output: Bytes
    /** The time when each byte of the output was accepted. */
    ghost var times: seq<U32>
    var flushed: nat
    var shut: bool
    var now: U32
    var events: seq<Event>
    /** How often it was not ready, and how often it accepted nothing. */
    ghost var refused: nat
    ghost var zeros: nat

    constructor (events: seq<Event>)
      ensures output == [] && times == [] && flushed == 0 && !shut
    {
      output, times, flushed, shut, now, refused, zeros := [], [], 0, false, 0, 0, 0;
      this.events := events;
    }

    method Next() returns (e: Event)
      modifies `now, `events
    {
      e := if events == [] then Event(false, 0, now) else events[0];
      now, events := e.now, if events == [] then [] else events[1..];
    }

    method PollWrite(slices: seq<Bytes>) returns (r: WriteResult)
      requires !shut
      modifies `output, `times, `now, `events, `refused, `zeros
      ensures refused == old(refused) + if r.Blocked? then 1 else 0
      ensures zeros == old(zeros) + if r == Wrote(0) then 1 else 0
      ensures r.Blocked? ==> output == old(output) && times == old(times)
      ensures r.Wrote? ==> r.n <= |Flat(slices)| && output == old(output) + Flat(slices)[..r.n]
                           && times == old(times) + seq(r.n, _ => old(now))
    {
      ghost var t := now;
      var e := Next();
      if !e.ready {
        refused := refused + 1;
        return Blocked;
      }
      var n := Min(e.space, |Flat(slices)|);
      zeros := zeros + if n == 0 then 1 else 0;
      output, times := output + Flat(slices)[..n], times + seq(n, _ => t);
      return Wrote(n);
    }

    method PollFlush() returns (ready: bool)
      modifies `flushed, `now, `events, `refused
      ensures flushed == if ready then |output| else old(flushed)
      ensures refused == old(refused) + if ready then 0 else 1
    {
      var e := Next();
      ready := e.ready;
      refused := refused + if ready then 0 else 1;
      flushed := if ready then |output| else flushed;
    }

    method PollShutdown() returns (ready: bool)
      modifies `shut, `flushed, `now, `events, `refused
      ensures shut == (old(shut) || ready) && flushed == if ready then |output| else old(flushed)
      ensures refused == old(refused) + if ready then 0 else 1
    {
      var e := Next();
      ready := e.ready;
      refused := refused + if ready then 0 else 1;
      shut := shut || ready;
      flushed := if ready then |output| else flushed;
    }
  }

  // What has been written.

  /** Where a frame starts in the output. */
  function Offset(frames: seq<Frame>, i: nat): nat
    requires i <= |frames|
  {
    |EncodeAll(frames[..i])|
  }

  function StampIn(f: Frame): U32 {
    if f.header.ping.Some? then f.header.ping.value else 0
  }

  /** The frames are the given ones, and each `PING` carries the time when the first byte of its frame was accepted. */
  ghost predicate Stamped(outs: seq<OutFrame>, frames: seq<Frame>, times: seq<U32>) {
    && |outs| == |frames|
    && (forall i | 0 <= i < |outs| :: LegalOut(outs[i], MAX_DATA) && frames[i] == FrameOf(outs[i], StampIn(frames[i])))
    && (forall i | 0 <= i < |outs| ::
          outs[i].ping && Offset(frames, i) < |times| ==> StampIn(frames[i]) == times[Offset(frames, i)])
  }

  /** The output consists of whole frames, in order, and the last one may be unfinished. */
  ghost predicate Written(outs: seq<OutFrame>, frames: seq<Frame>, output: Bytes, times: seq<U32>) {
    && Stamped(outs, frames, times) && |times| == |output|
    && output <= EncodeAll(frames)
    && (frames != [] ==> Offset(frames, |frames| - 1) <= |output|)
  }

  lemma OffsetLast(frames: seq<Frame>, f: Frame)
    ensures Offset(frames + [f], |frames|) == |EncodeAll(frames)|
    ensures EncodeAll(frames + [f]) == EncodeAll(frames) + EncodeFrame(f)
    ensures forall i | 0 <= i <= |frames| :: Offset(frames + [f], i) == Offset(frames, i)
  {
    hide EncodeFrame;
    EncodeAllAppend(frames, [f]);
    assert EncodeAll([f]) == EncodeFrame(f) + EncodeAll([f][1..]);
    assert forall i | 0 <= i <= |frames| :: (frames + [f])[..i] == frames[..i];
  }

  /** A frame is taken, or stamped again, before any of its bytes is accepted. */
  lemma WrittenNext(outs: seq<OutFrame>, frames: seq<Frame>, output: Bytes, times: seq<U32>, out: OutFrame, time: U32)
    requires Written(outs, frames, output, times) && output == EncodeAll(frames) && LegalOut(out, MAX_DATA)
    ensures Written(outs + [out], frames + [FrameOf(out, time)], output, times)
  {
    hide EncodeAll, EncodeFrame, Offset, FrameOf, StampIn;
    var f := FrameOf(out, time);
    OffsetLast(frames, f);
    FrameOfStamp(out, time);
  }

  lemma FrameOfStamp(out: OutFrame, time: U32)
    requires out.stream.Some? ==> |out.stream.value.data| <= MAX_DATA
    ensures FrameOf(out, time) == FrameOf(out, StampIn(FrameOf(out, time)))
  {
  }

  lemma OffsetBelow(frames: seq<Frame>)
    ensures forall i | 0 <= i < |frames| :: Offset(frames, i) <= |EncodeAll(frames)|
  {
    hide EncodeAll;
    forall i | 0 <= i < |frames|
      ensures Offset(frames, i) <= |EncodeAll(frames)|
    {
      EncodeAllAppend(frames[..i], frames[i..]);
      assert frames == frames[..i] + frames[i..];
    }
  }

  /** The header of the last frame is encoded again, before any of its bytes is accepted. */
  lemma WrittenAgain(outs: seq<OutFrame>, frames: seq<Frame>, output: Bytes, times: seq<U32>, time: U32)
    requires Written(outs, frames, output, times) && frames != [] && |output| == Offset(frames, |frames| - 1)
    ensures LegalOut(outs[|outs| - 1], MAX_DATA)
    ensures Written(outs, frames[..|frames| - 1] + [FrameOf(outs[|outs| - 1], time)], output, times)
  {
    hide EncodeAll, EncodeFrame, LegalOut, FrameOf;
    var n := |frames| - 1;
    var (outs0, frames0) := (outs[..n], frames[..n]);
    assert outs == outs0 + [outs[n]] && frames == frames0 + [frames[n]];
    OffsetLast(frames0, frames[n]);
    assert output == EncodeAll(frames0);
    assert Stamped(outs0, frames0, times);
    OffsetBelow(frames0);
    WrittenNext(outs0, frames0, output, times, outs[n], time);
  }

  /** The transport accepts some bytes. */
  lemma WrittenMore(outs: seq<OutFrame>, frames: seq<Frame>, output: Bytes, times: seq<U32>, n: nat, now: U32)
    requires Written(outs, frames, output, times) && frames != [] && |output| + n <= |EncodeAll(frames)|
    requires |output| == Offset(frames, |frames| - 1) && outs[|outs| - 1].ping ==> StampIn(frames[|frames| - 1]) == now
    ensures Written(outs, frames, EncodeAll(frames)[..|output| + n], times + seq(n, _ => now))
  {
    hide EncodeAll, LegalOut, FrameOf;
    var times' := times + seq(n, _ => now);
    forall i | 0 <= i < |outs| && outs[i].ping && Offset(frames, i) < |times'|
      ensures StampIn(frames[i]) == times'[Offset(frames, i)]
    {
      if i < |outs| - 1 {
        OffsetGrows(frames, outs, i);
      }
    }
  }

  /** The transport accepts some bytes of the pending frame. */
  lemma WrittenOn(outs: seq<OutFrame>, frames: seq<Frame>, output: Bytes, times: seq<U32>, consumed: nat, left: Bytes, n: nat, now: U32)
    requires Written(outs, frames, output, times) && frames != [] && Offset(frames, |frames| - 1) + consumed == |output|
    requires consumed <= |EncodeFrame(frames[|frames| - 1])| && left == EncodeFrame(frames[|frames| - 1])[consumed..] && n <= |left|
    requires consumed == 0 && outs[|outs| - 1].ping ==> StampIn(frames[|frames| - 1]) == now
    ensures Written(outs, frames, output + left[..n], times + seq(n, _ => now))
  {
    hide EncodeAll, EncodeFrame, Written, Offset, StampIn;
    PendingBytes(outs, frames, output, times, consumed);
    assert output + left[..n] == EncodeAll(frames)[..|output| + n];
    WrittenMore(outs, frames, output, times, n, now);
  }

  lemma OffsetGrows(frames: seq<Frame>, outs: seq<OutFrame>, i: nat)
    requires i < |frames| - 1 && |outs| == |frames| && LegalOut(outs[i], MAX_DATA) && frames[i] == FrameOf(outs[i], StampIn(frames[i]))
    ensures Offset(frames, i) < Offset(frames, |frames| - 1)
  {
    hide EncodeAll, EncodeFrame, FrameOf;
    LegalWhenStamped(outs[i], StampIn(frames[i]), MAX_DATA);
    NonEmpty(frames[i], MAX_DATA);
    OffsetLast(frames[..i], frames[i]);
    var last := frames[..|frames| - 1];
    EncodeAllAppend(last[..i + 1], last[i + 1..]);
    assert last == last[..i + 1] + last[i + 1..] && last[..i + 1] == frames[..i] + [frames[i]];
  }

  // The codec.

  datatype WritePoll = Pending | Ready | WriteZero

  class FrameWriter {
    const io: Target
    var pending: EncoderItem?
    /** The frames that were taken, and what they are on the wire. */
    ghost var outs: seq<OutFrame>
    ghost var frames: seq<Frame>

    ghost predicate Valid()
      reads this, io, pending, if pending == null then {} else {pending.encoded}
    {
      && Written(outs, frames, io.output, io.times)
      && (pending == null ==> io.output == EncodeAll(frames))
      && (pending != null ==> pending.Valid() && PendingIs(pending))
    }

    ghost predicate PendingIs(item: EncoderItem)
      reads this, io, item
    {
      && frames != [] && item.Value() == frames[|frames| - 1]
      && Offset(frames, |frames| - 1) + item.consumed == |io.output|
    }

    constructor (io: Target)
      requires io.output == [] && io.times == []
      ensures Valid() && this.io == io && pending == null && outs == [] && frames == []
    {
      this.io := io;
      pending, outs, frames := null, [], [];
    }

    /** Takes a frame. The codec holds at most one. */
    method StartSend(out: OutFrame)
      requires Valid() && pending == null && LegalOut(out, MAX_DATA)
      modifies this
      ensures Valid() && outs == old(outs) + [out] && frames[..|old(frames)|] == old(frames)
      ensures pending != null && fresh(pending) && fresh(pending.encoded)
    {
      hide EncodeAll, EncodeFrame, FrameOf, Written, LegalFrame;
      WrittenNext(outs, frames, io.output, io.times, out, 0);
      OffsetLast(frames, FrameOf(out, 0));
      pending := new EncoderItem(out);
      outs, frames := outs + [out], frames + [FrameOf(out, 0)];
    }

    /** Encodes the header with the current time, unless it is already fixed. */
    method Restamp()
      requires Valid() && pending != null
      modifies this`frames, pending, pending.encoded
      ensures Valid() && pending.consumed == old(pending.consumed) && |frames| == |old(frames)|
      ensures pending.Remaining() == old(pending.Remaining())
      ensures frames[..|frames| - 1] == old(frames[..|frames| - 1])
      ensures pending.consumed == 0 && outs[|outs| - 1].ping ==> StampIn(frames[|frames| - 1]) == io.now
    {
      hide EncodeAll, EncodeFrame, Written, LegalFrame, Encode;
      ghost var n := |frames| - 1;
      WrittenLast(outs, frames, io.output, io.times);
      if pending.HasPing() && !pending.IsStarted() {
        WrittenAgain(outs, frames, io.output, io.times, io.now);
        pending.Stamp(io.now);
        OffsetLast(frames[..n], FrameOf(outs[n], io.now));
        frames := frames[..n] + [FrameOf(outs[n], io.now)];
      }
    }

    /** One write. */
    method WriteOnce() returns (r: Option<WritePoll>)
      requires Valid() && pending != null && pending.Remaining() > 0 && !io.shut
      modifies this`frames, io`output, io`times, io`now, io`events, io`refused, io`zeros, pending, pending.encoded
      ensures Valid() && |frames| == |old(frames)| && old(io.output) <= io.output
      ensures frames[..|frames| - 1] == old(frames[..|frames| - 1])
      ensures r.None? ==> pending.Remaining() < old(pending.Remaining())
      ensures r.Some? ==> !r.value.Ready?
      ensures io.refused == old(io.refused) + if r == Some(WritePoll.Pending) then 1 else 0
      ensures io.zeros == old(io.zeros) + if r == Some(WriteZero) then 1 else 0
    {
      hide EncodeAll, EncodeFrame, Written, Offset, LegalFrame, Encode, FrameOf;
      Restamp();
      ghost var output, times := io.output, io.times;
      ghost var now := io.now;
      var slices := pending.Slices();
      var written := io.PollWrite(slices);
      if written.Blocked? {
        return Some(WritePoll.Pending);
      }
      WrittenOn(outs, frames, output, times, pending.consumed, Flat(slices), written.n, now);
      if written.n == 0 {
        return Some(WriteZero);
      }
      pending.Advance(written.n);
      return None;
    }

    /** Writes the pending frame, if any, to the end. */
    method PollWritePending() returns (r: WritePoll)
      requires Valid() && !io.shut
      modifies this`frames, this`pending, io`output, io`times, io`now, io`events, io`refused, io`zeros,
        pending, if pending == null then {} else {pending.encoded}
      ensures Valid() && |frames| == |old(frames)| && old(io.output) <= io.output
      ensures pending == null || pending == old(pending)
      ensures old(pending) == null ==> io.output == old(io.output)
      ensures frames != [] ==> frames[..|frames| - 1] == old(frames[..|frames| - 1])
      ensures r.Ready? <==> pending == null
      ensures io.refused == old(io.refused) + if r.Pending? then 1 else 0
      ensures io.zeros == old(io.zeros) + if r.WriteZero? then 1 else 0
    {
      hide EncodeAll, EncodeFrame, Written, Offset, LegalFrame, Encode, FrameOf;
      while pending != null
        invariant Valid() && |frames| == |old(frames)| && old(io.output) <= io.output
        invariant pending == null || pending == old(pending)
        invariant old(pending) == null ==> io.output == old(io.output)
        invariant frames != [] ==> frames[..|frames| - 1] == old(frames[..|frames| - 1])
        invariant io.refused == old(io.refused) && io.zeros == old(io.zeros)
        decreases pending != null, if pending == null then 0 else pending.Remaining()
      {
        if pending.Remaining() == 0 {
          PendingBytes(outs, frames, io.output, io.times, pending.consumed);
          pending := null;
          break;
        }
        var done := WriteOnce();
        if done.Some? {
          return done.value;
        }
      }
      return Ready;
    }

    method PollFlush() returns (r: WritePoll)
      requires Valid() && !io.shut
      modifies this`frames, this`pending, io, pending, if pending == null then {} else {pending.encoded}
      ensures Valid() && |frames| == |old(frames)| && !io.shut && old(io.output) <= io.output
      ensures pending == null || pending == old(pending)
      ensures old(pending) == null ==> io.output == old(io.output)
      ensures !r.Ready? ==> io.flushed == old(io.flushed)
      ensures frames != [] ==> frames[..|frames| - 1] == old(frames[..|frames| - 1])
      ensures r.Ready? ==> pending == null && io.flushed == |io.output|
      ensures io.refused == old(io.refused) + if r.Pending? then 1 else 0
      ensures io.zeros == old(io.zeros) + if r.WriteZero? then 1 else 0
    {
      hide Written, EncodeAll, EncodeFrame, LegalFrame, Encode, Offset;
      r := PollWritePending();
      if r.Ready? {
        var ready := io.PollFlush();
        r := if ready then Ready else WritePoll.Pending;
      }
    }

    method PollClose() returns (r: WritePoll)
      requires Valid() && !io.shut
      modifies this`frames, this`pending, io, pending, if pending == null then {} else {pending.encoded}
      ensures Valid() && |frames| == |old(frames)| && old(io.output) <= io.output
      ensures pending == null || pending == old(pending)
      ensures old(pending) == null ==> io.output == old(io.output)
      ensures !r.Ready? ==> io.flushed == old(io.flushed)
      ensures frames != [] ==> frames[..|frames| - 1] == old(frames[..|frames| - 1])
      ensures r.Ready? ==> pending == null && io.flushed == |io.output|
      ensures io.refused == old(io.refused) + if r.Pending? then 1 else 0
      ensures io.zeros == old(io.zeros) + if r.WriteZero? then 1 else 0
      ensures io.shut <==> r.Ready?
    {
      hide Written, EncodeAll, EncodeFrame, LegalFrame, Encode, Offset;
      r := PollWritePending();
      if r.Ready? {
        var ready := io.PollShutdown();
        r := if ready then Ready else WritePoll.Pending;
      }
    }
  }

  lemma WrittenLast(outs: seq<OutFrame>, frames: seq<Frame>, output: Bytes, times: seq<U32>)
    requires Written(outs, frames, output, times) && frames != []
    ensures |outs| == |frames| && LegalOut(outs[|outs| - 1], MAX_DATA)
    ensures frames[|frames| - 1] == FrameOf(outs[|outs| - 1], StampIn(frames[|frames| - 1]))
  {
  }

  /** What is left of the output is the rest of the last frame. */
  lemma PendingBytes(outs: seq<OutFrame>, frames: seq<Frame>, output: Bytes, times: seq<U32>, consumed: nat)
    requires Written(outs, frames, output, times) && frames != []
    requires Offset(frames, |frames| - 1) + consumed == |output|
    ensures consumed <= |EncodeFrame(frames[|frames| - 1])|
    ensures EncodeAll(frames) == output + EncodeFrame(frames[|frames| - 1])[consumed..]
  {
    hide EncodeAll, EncodeFrame, Stamped;
    var n := |frames| - 1;
    OffsetLast(frames[..n], frames[n]);
    assert frames == frames[..n] + [frames[n]];
  }

  /** The frames that were written to the end. */
  function Whole(frames: seq<Frame>, output: Bytes): seq<Frame> {
    if frames == [] || output == EncodeAll(frames) then frames else frames[..|frames| - 1]
  }

  /**
   * What the codec has written, however the transport split the writes, is read back by the decoder of the peer,
   * however the transport splits the reads: these frames, in order, and nothing else. By `Written`, each `PING` in them
   * carries the time when the first byte of its frame was accepted.
   */
  lemma CodecRoundTrip(outs: seq<OutFrame>, frames: seq<Frame>, output: Bytes, times: seq<U32>, limit: nat, polls: seq<DecodePoll>)
    requires Written(outs, frames, output, times) && forall i | 0 <= i < |outs| :: LegalOut(outs[i], limit)
    requires DecodeRun(limit, [], output, polls)
    ensures Yielded(polls) <= DecodedAll(Whole(frames, output))
    ensures forall i | 0 <= i < |polls| :: !polls[i].r.Failed?
    ensures forall i | 0 <= i < |polls| :: polls[i].r.End? ==> output == EncodeAll(Whole(frames, output))
    ensures polls != [] && (polls[|polls| - 1].r.End? || polls[|polls| - 1].r.UnexpectedEnd?)
            ==> Yielded(polls) == DecodedAll(Whole(frames, output))
  {
    hide EncodeAll, EncodeFrame, LegalFrame, LegalOut, FrameOf, Polls;
    FramesLegal(outs, frames, times, limit);
    var whole := Whole(frames, output);
    var next, part := Unfinished(frames, output, limit);
    assert [] + output == EncodeAll(whole) + part;
    DecodesAll(limit, [], output, whole, next, part, polls);
  }

  lemma FramesLegal(outs: seq<OutFrame>, frames: seq<Frame>, times: seq<U32>, limit: nat)
    requires Stamped(outs, frames, times) && forall i | 0 <= i < |outs| :: LegalOut(outs[i], limit)
    ensures Legals(frames, limit)
  {
    hide EncodeAll, LegalFrame;
    forall i | 0 <= i < |frames|
      ensures LegalFrame(frames[i], limit)
    {
      LegalWhenStamped(outs[i], StampIn(frames[i]), limit);
    }
  }

  lemma Unfinished(frames: seq<Frame>, output: Bytes, limit: nat) returns (next: Frame, part: Bytes)
    requires Legals(frames, limit) && output <= EncodeAll(frames)
    requires frames != [] ==> Offset(frames, |frames| - 1) <= |output|
    ensures Legals(Whole(frames, output), limit) && LegalFrame(next, limit) && part < EncodeFrame(next)
    ensures output == EncodeAll(Whole(frames, output)) + part
  {
    hide EncodeAll, EncodeFrame;
    next, part := TERM, [];
    TermLegal(limit);
    NonEmpty(TERM, limit);
    if frames != [] && output != EncodeAll(frames) {
      var n := |frames| - 1;
      OffsetLast(frames[..n], frames[n]);
      assert frames == frames[..n] + [frames[n]];
      next, part := frames[n], output[|EncodeAll(frames[..n])|..];
    } else if frames == [] {
      NothingLeft(frames, limit);
    }
  }

  lemma TermLegal(limit: nat)
    ensures LegalFrame(TERM, limit)
  {
  }
}
