/** The send loop of a connection, and that everything it composes reaches the peer as it was yielded. */
module Connection {
  import opened Prelude
  import opened Fins
  import opened StreamId
  import opened Endpoint
  import opened Local
  import opened Headers
  import opened Frames
  import opened Decoder
  import opened Encoder
  import opened Yields
  import opened StreamTable
  import opened Exchange
  import Inbound

  // The stream parts that the streams yield, on the wire.

  function OutStreamOf(p: Part): OutStream
    requires p.credit <= Inbound.MAX_CREDIT
  {
    OutStream(p.id, ControlFlags(p.finRead, p.finWrite, p.syn), p.credit, p.data)
  }

  function Composed(pong: Option<U32>, ping: bool, part: Option<Part>): OutFrame
    requires part.Some? ==> part.value.credit <= Inbound.MAX_CREDIT
  {
    OutFrame(ping, pong, if part.Some? then Some(OutStreamOf(part.value)) else None, false)
  }

  /** What a decoded frame says to a stream, if anything. */
  function PartIn(f: Frame, tag: Ref): Option<Part> {
    if f.header.stream.None? then None
    else
      var s := f.header.stream.value;
      Some(Part(tag, s.id, s.flags.syn, s.flags.finRead, s.flags.finWrite, if s.credit.Some? then s.credit.value else 0, f.data))
  }

  /** The frame says to a stream exactly what the part says, field by field. */
  ghost predicate Carries(f: Frame, part: Option<Part>) {
    match part
    case None => f.header.stream.None? && f.data == []
    case Some(p) =>
      && f.header.stream.Some?
      && var s := f.header.stream.value;
         && s.id == p.id && s.flags.syn == p.syn && s.flags.finRead == p.finRead && s.flags.finWrite == p.finWrite
         && (if p.credit == 0 then s.credit.None? else s.credit.Some? && s.credit.value == p.credit)
         && (if p.data == [] then s.dataLen.None? else s.dataLen.Some? && s.dataLen.value == |p.data|)
         && f.data == p.data
  }

  /** What a received frame says is read from it field by field. */
  lemma ReadsFields(f: Frame, tag: Ref, limit: nat)
    requires LegalFrame(f, limit)
    ensures Carries(f, PartIn(f, tag)) && (PartIn(f, tag).Some? ==> PartIn(f, tag).value.tag == tag)
  {
  }

  /** A composed frame is legal, and the peer finds in it the part that was sent. */
  lemma ComposesLegal(pong: Option<U32>, ping: bool, part: Option<Part>, frameLimit: nat, time: U32, tag: Ref)
    requires part.Some? ==> LegalPart(part.value, frameLimit)
    requires frameLimit <= MAX_DATA && (pong.Some? || ping || part.Some?)
    ensures var out := Composed(pong, ping, part);
            && LegalOut(out, frameLimit) && LegalOut(out, MAX_DATA) && !out.term
            && LegalFrame(FrameOf(out, time), frameLimit) && Carries(FrameOf(out, time), part)
            && FrameOf(out, time).header.pong == pong && FrameOf(out, time).header.ping == (if ping then Some(time) else None)
            && PartOut(out) == Untagged(part)
            && PartIn(FrameOf(out, time), tag) == if part.Some? then Some(part.value.(tag := tag)) else None
  {
    LegalWhenStamped(Composed(pong, ping, part), time, frameLimit);
  }

  /** What an outgoing frame says to a stream, if anything. The tag stays behind. */
  function PartOut(out: OutFrame): Option<Part> {
    if out.stream.None? then None
    else
      var s := out.stream.value;
      Some(Part(0, s.id, s.flags.syn, s.flags.finRead, s.flags.finWrite, s.credit, s.data))
  }

  function Untagged(part: Option<Part>): Option<Part> {
    if part.Some? then Some(part.value.(tag := 0)) else None
  }

  /** The frames carry the parts, in order. Some of them carry none. */
  ghost predicate Carry(outs: seq<OutFrame>, parts: seq<Part>)
    decreases |outs|
  {
    if outs == [] then parts == []
    else if PartOut(outs[0]).None? then Carry(outs[1..], parts)
    else parts != [] && PartOut(outs[0]) == Untagged(Some(parts[0])) && Carry(outs[1..], parts[1..])
  }

  lemma CarryNone(outs: seq<OutFrame>)
    ensures Carry(outs[|outs|..], [])
  {
  }

  lemma {:induction false} CarryMore(outs: seq<OutFrame>, parts: seq<Part>, out: OutFrame, part: Option<Part>)
    requires Carry(outs, parts) && PartOut(out) == Untagged(part)
    ensures Carry(outs + [out], parts + Then(part, []))
    decreases |outs|
  {
    hide PartOut;
    if outs == [] {
      assert Carry([out][1..], Then(part, [])[|Then(part, [])|..]);
    } else {
      CarryMore(outs[1..], if PartOut(outs[0]).None? then parts else parts[1..], out, part);
      assert (outs + [out])[1..] == outs[1..] + [out];
      assert parts != [] ==> (parts + Then(part, []))[1..] == parts[1..] + Then(part, []);
    }
  }

  /** One more frame, counted from the frames that were there before. */
  lemma CarryOn(before: seq<OutFrame>, outs: seq<OutFrame>, parts: seq<Part>, out: OutFrame, part: Option<Part>)
    requires before <= outs && Carry(outs[|before|..], parts) && PartOut(out) == Untagged(part)
    ensures before <= outs + [out] && Carry((outs + [out])[|before|..], parts + Then(part, []))
  {
    hide Carry, PartOut;
    CarryMore(outs[|before|..], parts, out, part);
    assert (outs + [out])[|before|..] == outs[|before|..] + [out];
  }

  /** At most one frame is new, and it carries the part. */
  ghost predicate Takes(outs: seq<OutFrame>, outs': seq<OutFrame>, part: Option<Part>) {
    (part.None? && outs' == outs) || exists out :: outs' == outs + [out] && PartOut(out) == Untagged(part)
  }

  /** Polling woken streams yields parts, and they are what the frames taken since `before` carry. */
  ghost predicate Sends(allowances: Allowances, e: Endpoint, polled: seq<(Ref, nat)>, e': Endpoint, parts: seq<Part>,
                        before: seq<OutFrame>, outs: seq<OutFrame>) {
    Ran(allowances, 0, e, polled, e', parts) && before <= outs && Carry(outs[|before|..], parts)
  }

  lemma SendsNone(allowances: Allowances, e: Endpoint, before: seq<OutFrame>)
    ensures Sends(allowances, e, [], e, [], before, before)
  {
    RanNone(allowances, 0, e);
    CarryNone(before);
  }

  lemma SendsMore(allowances: Allowances, e: Endpoint, polled: seq<(Ref, nat)>, e1: Endpoint, parts: seq<Part>,
                  before: seq<OutFrame>, outs: seq<OutFrame>,
                  more: seq<(Ref, nat)>, e2: Endpoint, part: Option<Part>, outs2: seq<OutFrame>)
    requires Sends(allowances, e, polled, e1, parts, before, outs)
    requires Ran(allowances, |polled|, e1, more, e2, Then(part, [])) && Takes(outs, outs2, part)
    ensures Sends(allowances, e, polled + more, e2, parts + Then(part, []), before, outs2) && |polled + more| == |polled| + |more|
  {
    hide Ran, Carry, PartOut;
    RanMore(allowances, 0, e, polled, e1, parts, more, e2, Then(part, []));
    if out :| outs2 == outs + [out] && PartOut(out) == Untagged(part) {
      CarryOn(before, outs, parts, out, part);
    } else {
      assert parts + Then(part, []) == parts;
    }
  }

  /** The last frame takes along what was owed and due. */
  ghost predicate TakesAlong(p: Pace, outs: seq<OutFrame>, p': Pace) {
    outs != [] &&
    var out := outs[|outs| - 1];
    out.pong == p.owed && out.ping == PingIsDue(p) && p' == AfterFrame(p, out)
  }

  lemma PacedNone(p: Pace)
    ensures Paced(p, [], p)
  {
  }

  lemma PacedOn(pace: Pace, before: seq<OutFrame>, outs: seq<OutFrame>, mid: Pace, outs': seq<OutFrame>, after: Pace)
    requires before <= outs && Paced(pace, outs[|before|..], mid) && TakesAlong(mid, outs', after)
    requires |outs'| == |outs| + 1 && outs <= outs'
    ensures before <= outs' && Paced(pace, outs'[|before|..], after)
  {
    hide Paced, AfterFrame;
    PacedMore(pace, outs[|before|..], mid, outs'[|outs|]);
    assert outs'[|before|..] == outs[|before|..] + [outs'[|outs|]];
  }

  // Sending.

  /** The round trip exchange. A timer outside of the model sets `elapsed`. */
  class Pings {
    var owedPong: Option<U32>
    var elapsed: bool
    var unpinged: U32
    const pingBytes: NonZeroU32

    constructor (pingBytes: NonZeroU32)
      ensures Value() == Pace(None, true, 0, pingBytes)
    {
      this.pingBytes := pingBytes;
      owedPong, elapsed, unpinged := None, true, 0;
    }

    ghost function Value(): Pace
      reads this
    {
      Pace(owedPong, elapsed, unpinged, pingBytes)
    }

    /** A newer `PING` replaces one that was not answered. */
    method ReceivedPing(time: U32)
      modifies this
      ensures Value() == old(Value()).(owed := Some(time))
    {
      owedPong := Some(time);
    }

    /** The timer of the interval fires. */
    method Elapse()
      modifies `elapsed
      ensures Value() == old(Value()).(elapsed := true) && PingDue()
    {
      elapsed := true;
    }

    predicate PingDue(): (due: bool)
      reads this
      ensures due == PingIsDue(Value())
    {
      unpinged >= pingBytes || elapsed
    }

    predicate Due()
      reads this
    {
      owedPong.Some? || PingDue()
    }

    method TakeFramePart() returns (pong: Option<U32>, ping: bool)
      modifies this
      ensures pong == old(owedPong) && ping == old(PingDue()) && !Due()
      ensures var p := old(Value());
              Value() == p.(owed := None, elapsed := p.elapsed && !ping, unpinged := if ping then 0 else p.unpinged)
    {
      pong, owedPong := owedPong, None;
      ping := PingDue();
      if ping {
        unpinged, elapsed := 0, false;
      }
    }

    method DataSent(len: nat)
      modifies this
      ensures Value() == old(Value()).(unpinged := Min(old(unpinged) + len, MAX_UNPINGED))
      ensures len == 0 ==> Due() == old(Due())
    {
      unpinged := Min(unpinged + len, MAX_UNPINGED);
    }
  }

  class Active {
    const writer: FrameWriter
    const streams: Streams
    const pings: Pings

    constructor (io: Target, role: Role, cfg: Config, pingBytes: NonZeroU32)
      requires io.output == [] && io.times == [] && !io.shut && ConfigOk(cfg) && cfg.frameLimit <= MAX_DATA
      ensures Valid() && writer.io == io && writer.outs == [] && streams.Value() == NewEndpoint(role, cfg)
      ensures pings.Value() == Pace(None, true, 0, pingBytes)
      ensures streams.cfg == cfg && streams.next == 0 && writer.frames == [] && fresh(Repr() - {io})
    {
      hide Streams.Valid, FrameWriter.Valid, ConfigOk, LegalOut, NewEndpoint;
      var w := new FrameWriter(io);
      var p := new Pings(pingBytes);
      var s := new Streams(role, cfg);
      assert w !in s.Repr() && io !in s.Repr() && p !in s.Repr();
      writer, pings, streams := w, p, s;
      new;
      assert Pending() == {};
    }

    /** What the codec took are legal frames, and it shares no object with the streams. */
    ghost predicate Valid()
      reads writer, writer.io, writer.pending, if writer.pending == null then {} else {writer.pending.encoded}
      reads streams, streams.Repr()
    {
      && writer.Valid() && !writer.io.shut && streams.Valid() && streams.cfg.frameLimit <= MAX_DATA
      && (forall i | 0 <= i < |writer.outs| :: LegalOut(writer.outs[i], streams.cfg.frameLimit) && !writer.outs[i].term)
      && Apart()
    }

    ghost predicate Apart()
      reads writer, writer.pending, streams
    {
      && writer !in streams.Repr() && writer.io !in streams.Repr() && pings !in streams.Repr()
      && (writer.pending != null ==> writer.pending !in streams.Repr() && writer.pending.encoded !in streams.Repr())
    }

    ghost function Pending(): set<object>
      reads writer
    {
      if writer.pending == null then {} else {writer.pending, writer.pending.encoded}
    }

    ghost function Repr(): set<object>
      reads writer, streams
    {
      {writer, writer.io, pings} + streams.Repr() + Pending()
    }

    /** The streams keep the invariant of one side. */
    lemma SideOk()
      requires Valid()
      ensures SideInv(streams.Value(), streams.next)
    {
      hide SideInv, FrameWriter.Valid, LegalOut;
    }

    /** What is left to send, in one number: the streams, and then the exchange. */
    ghost function Left(): nat
      reads streams, streams.flow.Repr(), pings
    {
      2 * SideWeight(streams.Value(), streams.next) + if pings.Due() then 1 else 0
    }

    /** Composes the next frame of what the exchange and the streams have to send. */
    method Compose(allowances: Allowances, from: nat)
      returns (frame: OutFrame, polls: nat, ghost part: Option<Part>, ghost polled: seq<(Ref, nat)>)
      requires streams.Valid() && pings !in streams.Repr() && streams.cfg.frameLimit <= MAX_DATA
      modifies pings, streams.Repr()
      ensures streams.Valid() && streams.objects == old(streams.objects) && streams.next == old(streams.next)
      ensures Ran(allowances, from, old(streams.Value()), polled, streams.Value(), Then(part, [])) && polls == |polled|
      ensures !frame.term && PartOut(frame) == Untagged(part)
      ensures frame.pong == old(pings.owedPong) && frame.ping == old(pings.PingDue())
      ensures pings.Value() == if IsEmpty(frame) then old(pings.Value()) else AfterFrame(old(pings.Value()), frame)
      ensures IsEmpty(frame) ==> part.None? && !pings.Due() && streams.flow.wakers.awake == {}
      ensures !IsEmpty(frame) ==> LegalOut(frame, streams.cfg.frameLimit) && Left() < old(Left())
    {
      hide Streams.Valid, Ran, SideWeight, LegalOut, LegalPart;
      ghost var e := streams.Value();
      var pong, ping := pings.TakeFramePart();
      assert streams.Value() == e;
      var update;
      update, polls, polled := streams.PollUpdate(allowances, from);
      assert streams.Repr() == old(streams.Repr());
      part := update;
      LegalCredit(part, streams.cfg.frameLimit);
      frame := Composed(pong, ping, update);
      if !IsEmpty(frame) {
        ComposesLegal(pong, ping, part, streams.cfg.frameLimit, 0, 0);
        pings.DataSent(if update.Some? then |update.value.data| else 0);
      }
    }

    /** The codec finishes the frame that it holds. */
    method PollReady() returns (r: WritePoll)
      requires Valid()
      modifies writer, writer.io, writer.pending, if writer.pending == null then {} else {writer.pending.encoded}
      ensures Valid() && StreamsKept() && writer.outs == old(writer.outs)
      ensures writer.pending == null || writer.pending == old(writer.pending)
      ensures old(writer.io.output) <= writer.io.output
      ensures r == Ready <==> writer.pending == null
      ensures Refused(r)
    {
      hide Streams.Valid, FrameWriter.Valid, LegalOut, SideWeight;
      r := writer.PollWritePending();
    }

    /** The codec has written all frames. */
    method Flush()
      requires Valid() && writer.pending == null
      modifies writer, writer.io
      ensures Valid() && StreamsKept() && writer.outs == old(writer.outs) && writer.pending == null
      ensures old(writer.io.output) <= writer.io.output
    {
      hide Streams.Valid, FrameWriter.Valid, LegalOut, SideWeight;
      var _ := writer.PollFlush();
    }

    method Enqueue(frame: OutFrame)
      requires Valid() && writer.pending == null && LegalOut(frame, streams.cfg.frameLimit) && !frame.term
      modifies writer
      ensures Valid() && StreamsKept() && writer.outs == old(writer.outs) + [frame] && PendingKept()
    {
      hide Streams.Valid, FrameWriter.Valid, LegalOut, SideWeight;
      LegalAnywhere(frame, streams.cfg.frameLimit);
      writer.StartSend(frame);
    }

    /** Sends one frame, unless the transport takes no more, or there is nothing to send. */
    method SendOne(allowances: Allowances, from: nat)
      returns (r: Option<WritePoll>, polls: nat, ghost part: Option<Part>, ghost polled: seq<(Ref, nat)>)
      requires Valid()
      modifies pings, streams.Repr(), writer, writer.io, writer.pending, if writer.pending == null then {} else {writer.pending.encoded}
      ensures Valid() && streams.Repr() == old(streams.Repr()) && PendingKept() && streams.next == old(streams.next)
      ensures old(writer.io.output) <= writer.io.output
      ensures Ran(allowances, from, old(streams.Value()), polled, streams.Value(), Then(part, [])) && polls == |polled|
      ensures Takes(old(writer.outs), writer.outs, part)
      ensures if r.Some? then pings.Value() == old(pings.Value()) else TakesAlong(old(pings.Value()), writer.outs, pings.Value())
      ensures r.None? ==> Left() < old(Left()) && |writer.outs| == |old(writer.outs)| + 1 && old(writer.outs) <= writer.outs
      ensures r.Some? ==> writer.outs == old(writer.outs)
      ensures r == Some(Ready) ==> Idle()
      ensures r.Some? && r.value != Ready ==> writer.pending != null && Refused(r.value)
      ensures r.None? ==> writer.io.refused == old(writer.io.refused) && writer.io.zeros == old(writer.io.zeros)
    {
      hide Streams.Valid, FrameWriter.Valid, Ran, SideWeight, LegalOut, Streams.Value, LegalPart;
      var ready := PollReady();
      if ready != Ready {
        RanNone(allowances, from, streams.Value());
        return Some(ready), 0, None, [];
      }
      var frame;
      frame, polls, part, polled := Compose(allowances, from);
      if IsEmpty(frame) {
        Flush();
        return Some(Ready), polls, part, polled;
      }
      Enqueue(frame);
      r := None;
    }

    /**
     * The send loop. It polls only streams that were woken, hands what they yield to the codec in that order, each part
     * in one legal frame, and stops as soon as the codec is not ready or nobody has anything.
     */
    method PollSend(allowances: Allowances) returns (r: WritePoll, ghost parts: seq<Part>, ghost polled: seq<(Ref, nat)>)
      requires Valid()
      modifies pings, streams.Repr(), writer, writer.io, writer.pending, if writer.pending == null then {} else {writer.pending.encoded}
      ensures Valid() && fresh(Repr() - old(Repr())) && old(writer.io.output) <= writer.io.output
      ensures Sends(allowances, old(streams.Value()), polled, streams.Value(), parts, old(writer.outs), writer.outs)
      ensures streams.next == old(streams.next)
      ensures Paced(old(pings.Value()), writer.outs[|old(writer.outs)|..], pings.Value())
      ensures r == Ready ==> Idle()
      ensures r != Ready ==> writer.pending != null && Refused(r)
    {
      hide Valid, TakesAlong, Pings.Value, Paced, Ran, SideWeight, Streams.Value, Sends, Takes, Left, Idle, Then;
      ghost var e, before, pace := streams.Value(), writer.outs, pings.Value();
      var polls := 0;
      parts, polled := [], [];
      PacedNone(pace);
      assert before[|before|..] == [];
      SendsNone(allowances, e, before);
      while true
        invariant Valid() && streams.Repr() == old(streams.Repr()) && PendingKept() && streams.next == old(streams.next)
        invariant old(writer.io.output) <= writer.io.output
        invariant Sends(allowances, e, polled, streams.Value(), parts, before, writer.outs) && polls == |polled|
        invariant writer.io.refused == old(writer.io.refused) && writer.io.zeros == old(writer.io.zeros)
        invariant before <= writer.outs && Paced(pace, writer.outs[|before|..], pings.Value())
        decreases Left()
      {
        ghost var e1, outs, mid := streams.Value(), writer.outs, pings.Value();
        var done, count, part, more := SendOne(allowances, polls);
        SendsMore(allowances, e, polled, e1, parts, before, outs, more, streams.Value(), part, writer.outs);
        polls, polled, parts := polls + count, polled + more, parts + Then(part, []);
        if done.Some? {
          return done.value, parts, polled;
        }
        PacedOn(pace, before, outs, mid, writer.outs, pings.Value());
      }
    }

    /** The interval for a `PING` has elapsed. */
    method Tick()
      requires Valid()
      modifies pings
      ensures Valid() && WriterKept() && Repr() == old(Repr()) && streams.Value() == old(streams.Value()) && streams.next == old(streams.next)
      ensures pings.Value() == old(pings.Value()).(elapsed := true)
    {
      hide Streams.Valid, FrameWriter.Valid, LegalOut;
      pings.Elapse();
    }

    /** Opens a stream, on behalf of the application. */
    method StartStream(key: nat) returns (id: Option<Id>)
      requires Valid() && IsVacantKey(streams.Value(), key)
      modifies streams.Repr()
      ensures Valid() && WriterKept() && fresh(Repr() - old(Repr())) && pings.Value() == old(pings.Value())
      ensures match OpenOutbound(old(streams.Value()), key, old(streams.next))
              case None => id.None? && streams.Value() == old(streams.Value()) && streams.next == old(streams.next)
              case Some((e, id')) => id == Some(id') && streams.Value() == e && streams.next == old(streams.next) + 1
    {
      hide Streams.Valid, FrameWriter.Valid, LegalOut, OpenOutbound, IsVacantKey;
      id := streams.StartOutbound(key);
    }

    /** The application uses a stream that it holds. */
    method UseStream(k: Ref, call: AppCall) returns (answer: Answer)
      requires Valid() && k in streams.objects
      modifies streams.Repr()
      ensures Valid() && WriterKept() && Repr() == old(Repr()) && pings.Value() == old(pings.Value()) && k in old(streams.Value()).streams
      ensures streams.Value() == Call(old(streams.Value()), k, call) && streams.next == old(streams.next)
      ensures answer == AnswerTo(old(streams.Value()).streams[k], call)
    {
      hide Streams.Valid, FrameWriter.Valid, LegalOut, Call, AnswerTo;
      answer := streams.Calls(k, call);
    }

    /** Processes a frame: the `PING`, and then the stream part. It fails if the peer violated the protocol. */
    method Process(f: Frame) returns (r: Result<(), Violation>)
      requires Valid()
      modifies pings, streams.Repr()
      ensures pings.Value() == if f.header.ping.Some? then old(pings.Value()).(owed := f.header.ping) else old(pings.Value())
      ensures match PartIn(f, old(streams.next))
              case None => r == Ok(()) && Valid() && streams.Value() == old(streams.Value()) && streams.next == old(streams.next)
              case Some(part) =>
                match Receive(old(streams.Value()), part)
                case Err(e) => r == Err(e)
                case Ok(e) => r == Ok(()) && Valid() && streams.Value() == e && streams.next == old(streams.next) + 1
      ensures WriterKept() && (r.Ok? ==> fresh(Repr() - old(Repr())))
    {
      hide Streams.Valid, FrameWriter.Valid, Receive, LegalOut;
      if f.header.ping.Some? {
        pings.ReceivedPing(f.header.ping.value);
      }
      var part := PartIn(f, streams.next);
      if part.None? {
        return Ok(());
      }
      r := streams.ReceivePart(part.value);
    }

    twostate predicate StreamsKept()
      reads streams, streams.flow.Repr(), pings
    {
      && streams.Repr() == old(streams.Repr()) && streams.Value() == old(streams.Value()) && streams.next == old(streams.next)
      && Left() == old(Left())
    }

    /** If this says so, the transport was not ready for a frame, or accepted nothing of it. */
    twostate predicate Refused(r: WritePoll)
      reads writer, writer.io
    {
      && writer.io.refused == old(writer.io.refused) + (if r.Pending? then 1 else 0)
      && writer.io.zeros == old(writer.io.zeros) + (if r.WriteZero? then 1 else 0)
    }

    twostate predicate WriterKept()
      reads writer, writer.io
    {
      && writer.outs == old(writer.outs) && writer.frames == old(writer.frames) && writer.pending == old(writer.pending)
      && writer.io.output == old(writer.io.output) && writer.io.times == old(writer.io.times)
    }

    twostate predicate PendingKept()
      reads writer, writer.pending
    {
      writer.pending == null || writer.pending == old(writer.pending) || (fresh(writer.pending) && fresh(writer.pending.encoded))
    }

    /** Nothing waits to be sent. */
    ghost predicate Idle()
      reads writer, pings, streams.flow.wakers
    {
      writer.pending == null && !pings.Due() && streams.flow.wakers.awake == {}
    }
  }

  lemma LegalAnywhere(out: OutFrame, limit: nat)
    requires LegalOut(out, limit) && limit <= MAX_DATA
    ensures LegalOut(out, MAX_DATA)
  {
  }

  lemma LegalCredit(part: Option<Part>, frameLimit: nat)
    requires part.Some? ==> LegalPart(part.value, frameLimit)
    ensures part.Some? ==> part.value.credit <= Inbound.MAX_CREDIT
  {
  }

  // Both ends of the wire.

  /** What the frames that were read say to streams, without tags. */
  function PartsRead(read: seq<Decoded>): seq<Part> {
    if read == [] then []
    else
      var part := if read[0].Terminate? then None else PartIn(read[0].frame, 0);
      Then(part, PartsRead(read[1..]))
  }

  function UntaggedAll(parts: seq<Part>): (r: seq<Part>)
    ensures |r| == |parts|
  {
    if parts == [] then [] else [parts[0].(tag := 0)] + UntaggedAll(parts[1..])
  }

  lemma {:induction false} PartsReadPrefix(a: seq<Decoded>, b: seq<Decoded>)
    requires a <= b
    ensures PartsRead(a) <= PartsRead(b)
  {
    hide PartIn;
    if a != [] {
      PartsReadPrefix(a[1..], b[1..]);
    }
  }

  lemma {:induction false} PartsOfFrames(outs: seq<OutFrame>, frames: seq<Frame>, parts: seq<Part>)
    requires |outs| == |frames| && Carry(outs, parts)
    requires forall i | 0 <= i < |outs| ::
               !outs[i].term && LegalOut(outs[i], MAX_DATA) && frames[i] == FrameOf(outs[i], StampIn(frames[i]))
    ensures PartsRead(DecodedAll(frames)) == UntaggedAll(parts)
    decreases |outs|
  {
    hide PartIn, PartOut, FrameOf, LegalOut;
    if outs != [] {
      SamePart(outs[0], frames[0]);
      var rest := if PartOut(outs[0]).None? then parts else parts[1..];
      PartsOfFrames(outs[1..], frames[1..], rest);
    }
  }

  lemma SamePart(out: OutFrame, f: Frame)
    requires LegalOut(out, MAX_DATA) && f == FrameOf(out, StampIn(f))
    ensures PartIn(f, 0) == PartOut(out) && f.header.term == out.term
  {
  }

  /**
   * The codec and the transport are a channel of stream parts: whatever the splits of writes and reads, the peer reads
   * the parts that went to the codec, in order, and nothing else. When it has read all that was written, it has
   * read all parts of the frames that were written to the end.
   */
  lemma WireIsChannel(outs: seq<OutFrame>, parts: seq<Part>, frames: seq<Frame>, output: Bytes, times: seq<U32>,
                      limit: nat, polls: seq<DecodePoll>)
    requires Written(outs, frames, output, times) && Carry(outs, parts)
    requires forall i | 0 <= i < |outs| :: LegalOut(outs[i], limit) && !outs[i].term
    requires DecodeRun(limit, [], output, polls)
    ensures PartsRead(Decoder.Yielded(polls)) <= UntaggedAll(parts)
    ensures forall i | 0 <= i < |polls| :: !polls[i].r.Failed?
    ensures output == EncodeAll(frames) && polls != [] && polls[|polls| - 1].r.End? ==> PartsRead(Decoder.Yielded(polls)) == UntaggedAll(parts)
  {
    hide EncodeAll, EncodeFrame, LegalFrame, LegalOut, FrameOf, Decoder.Polls, Carry, PartIn;
    CodecRoundTrip(outs, frames, output, times, limit, polls);
    PartsOfFrames(outs, frames, parts);
    DecodedPrefix(Whole(frames, output), frames);
    PartsReadPrefix(Decoder.Yielded(polls), DecodedAll(frames));
  }

  lemma {:induction false} DecodedPrefix(a: seq<Frame>, b: seq<Frame>)
    requires a <= b
    ensures DecodedAll(a) <= DecodedAll(b)
  {
    if a != [] {
      DecodedPrefix(a[1..], b[1..]);
    }
  }
}
