/** The end of the protocol: each side sends `TERM` and reads up to the `TERM` of the peer. The transport is left clean. */
module Downgrade {
  import opened Prelude
  import opened Headers
  import opened Frames
  import opened Decoder
  import opened Encoder

  /** What is left to read is some frames, `TERM`, and then `rest`, which is not ours. */
  ghost predicate Ahead(limit: nat, held: Bytes, input: Bytes, rest: Bytes) {
    exists fs :: NoTerms(fs, limit) && held + input == EncodeAll(fs) + (EncodeFrame(TERM) + rest)
  }

  ghost predicate NoTerms(fs: seq<Frame>, limit: nat) {
    Legals(fs, limit) && forall i | 0 <= i < |fs| :: !fs[i].header.term
  }

  lemma PollAhead(limit: nat, held: Bytes, input: Bytes, fs: seq<Frame>, rest: Bytes, r: Outcome, held': Bytes, input': Bytes)
    requires Polls(limit, held, input, r, held', input')
    requires NoTerms(fs, limit) && held + input == EncodeAll(fs) + (EncodeFrame(TERM) + rest)
    ensures r.Pending? || r.Yield?
    ensures r.Pending? ==> held' + input' == held + input
    ensures r.Yield? && fs != [] ==>
              r == Yield(Inbound(fs[0])) && held' + input' == EncodeAll(fs[1..]) + (EncodeFrame(TERM) + rest)
    ensures r.Yield? && fs == [] ==> r == Yield(Terminate) && held' == [] && input' == rest
  {
    hide Polls, EncodeFrame, LegalFrame;
    if fs == [] {
      TermLegal(limit);
      assert EncodeAll(fs) + (EncodeFrame(TERM) + rest) == EncodeFrame(TERM) + rest;
      PollLegal(limit, held, input, TERM, rest, r, held', input');
    } else {
      var tail := EncodeAll(fs[1..]) + (EncodeFrame(TERM) + rest);
      assert EncodeAll(fs) + (EncodeFrame(TERM) + rest) == EncodeFrame(fs[0]) + tail;
      PollLegal(limit, held, input, fs[0], tail, r, held', input');
      assert [] + tail == tail;
    }
  }

  /**
   * Polling up to the `TERM` never fails. It yields the frames before it, and then no byte after it was taken.
   */
  lemma {:induction false} ReadsToTerm(limit: nat, held: Bytes, input: Bytes, fs: seq<Frame>, rest: Bytes, polls: seq<DecodePoll>)
    requires NoTerms(fs, limit) && held + input == EncodeAll(fs) + (EncodeFrame(TERM) + rest)
    requires DecodeRun(limit, held, input, polls)
    requires forall i | 0 <= i < |polls| - 1 :: polls[i].r != Yield(Terminate)
    ensures forall i | 0 <= i < |polls| :: polls[i].r.Pending? || polls[i].r.Yield?
    ensures Yielded(polls) <= DecodedAll(fs + [TERM])
    ensures polls != [] ==>
              var last := polls[|polls| - 1];
              if last.r == Yield(Terminate)
              then Yielded(polls) == DecodedAll(fs + [TERM]) && last.held == [] && last.input == rest
              else Ahead(limit, last.held, last.input, rest)
    decreases |polls|
  {
    hide Polls, EncodeFrame, LegalFrame, EncodeAll, Ahead;
    if polls != [] {
      var (p, tail) := (polls[0], polls[1..]);
      PollAhead(limit, held, input, fs, rest, p.r, p.held, p.input);
      if fs == [] && p.r.Yield? {
        assert tail == [];
      } else {
        var left := if p.r.Yield? then fs[1..] else fs;
        assert NoTerms(left, limit);
        assert p.r.Yield? ==> (fs + [TERM])[1..] == left + [TERM];
        assert forall i | 0 <= i < |tail| :: tail[i] == polls[i + 1];
        ReadsToTerm(limit, p.held, p.input, left, rest, tail);
        assert forall i | 1 <= i < |polls| :: polls[i] == tail[i - 1];
        IsAhead(limit, p.held, p.input, left, rest);
        assert polls[|polls| - 1] == if tail == [] then p else tail[|tail| - 1];
      }
    }
  }

  lemma IsAhead(limit: nat, held: Bytes, input: Bytes, fs: seq<Frame>, rest: Bytes)
    requires NoTerms(fs, limit) && held + input == EncodeAll(fs) + (EncodeFrame(TERM) + rest)
    ensures Ahead(limit, held, input, rest)
  {
  }

  /** One direction: all that was written before the `TERM` is read, and the bytes after it are not. */
  lemma CleanDowngrade(base: seq<OutFrame>, frames: seq<Frame>, output: Bytes, times: seq<U32>,
                       raw: Bytes, limit: nat, polls: seq<DecodePoll>)
    requires Written(base + [TERMINATE], frames, output, times) && output == EncodeAll(frames)
    requires forall i | 0 <= i < |base| :: LegalOut(base[i], limit) && !base[i].term
    requires DecodeRun(limit, [], output + raw, polls)
    requires forall i | 0 <= i < |polls| - 1 :: polls[i].r != Yield(Terminate)
    ensures forall i | 0 <= i < |polls| :: polls[i].r.Pending? || polls[i].r.Yield?
    ensures Yielded(polls) <= DecodedAll(frames)
    ensures polls != [] && polls[|polls| - 1].r == Yield(Terminate) ==>
              Yielded(polls) == DecodedAll(frames) && polls[|polls| - 1].held == [] && polls[|polls| - 1].input == raw
    ensures polls == [] ==> Ahead(limit, [], output + raw, raw)
    ensures polls != [] && polls[|polls| - 1].r != Yield(Terminate) ==>
              Ahead(limit, polls[|polls| - 1].held, polls[|polls| - 1].input, raw)
  {
    hide EncodeAll, EncodeFrame, LegalFrame, LegalOut, Polls;
    var n := |base|;
    TerminateLegal(limit);
    FramesLegal(base + [TERMINATE], frames, times, limit);
    var fs := frames[..n];
    assert frames[n] == TERM;
    forall i | 0 <= i < n
      ensures !fs[i].header.term
    {
      assert (base + [TERMINATE])[i] == base[i];
    }
    assert frames == fs + [TERM];
    OffsetLast(fs, TERM);
    assert [] + (output + raw) == EncodeAll(fs) + (EncodeFrame(TERM) + raw);
    assert NoTerms(fs, limit);
    ReadsToTerm(limit, [], output + raw, fs, raw, polls);
  }

  // What one side has read so far, out of all that its transport delivers.

  ghost predicate StopsAtTerm(polls: seq<DecodePoll>) {
    forall i | 0 <= i < |polls| - 1 :: polls[i].r != Yield(Terminate)
  }

  ghost predicate EndsWith(total: Bytes, polls: seq<DecodePoll>, held: Bytes, input: Bytes, done: bool) {
    if polls == [] then held == [] && input == total && !done
    else var last := polls[|polls| - 1]; held == last.held && input == last.input && done == (last.r == Yield(Terminate))
  }

  /** Some polls have led here. `done` tells whether the last of them yielded `TERM`. */
  ghost predicate HasRead(limit: nat, total: Bytes, held: Bytes, input: Bytes, done: bool) {
    exists polls :: DecodeRun(limit, [], total, polls) && StopsAtTerm(polls) && EndsWith(total, polls, held, input, done)
  }

  lemma {:induction false} DecodeRunAppend(limit: nat, held: Bytes, input: Bytes, polls: seq<DecodePoll>, p: DecodePoll)
    requires DecodeRun(limit, held, input, polls)
    requires if polls == [] then Polls(limit, held, input, p.r, p.held, p.input)
             else Polls(limit, polls[|polls| - 1].held, polls[|polls| - 1].input, p.r, p.held, p.input)
    ensures DecodeRun(limit, held, input, polls + [p])
    decreases |polls|
  {
    hide Polls;
    if polls == [] {
      assert [p][1..] == [];
      assert DecodeRun(limit, p.held, p.input, []);
    } else {
      DecodeRunAppend(limit, polls[0].held, polls[0].input, polls[1..], p);
      assert (polls + [p])[1..] == polls[1..] + [p] && (polls + [p])[0] == polls[0];
    }
  }

  lemma ReadsMore(limit: nat, total: Bytes, held: Bytes, input: Bytes, r: Outcome, held': Bytes, input': Bytes)
    requires HasRead(limit, total, held, input, false) && Polls(limit, held, input, r, held', input')
    ensures HasRead(limit, total, held', input', r == Yield(Terminate))
  {
    hide Polls, DecodeRun;
    var polls :| DecodeRun(limit, [], total, polls) && StopsAtTerm(polls) && EndsWith(total, polls, held, input, false);
    var p := DecodePoll(r, held', input');
    DecodeRunAppend(limit, [], total, polls, p);
    assert StopsAtTerm(polls + [p]) && EndsWith(total, polls + [p], held', input', r == Yield(Terminate));
  }

  lemma TerminateLegal(limit: nat)
    ensures LegalOut(TERMINATE, limit)
  {
  }

  datatype TermSent = Init | Enqueued | Flushed | ShutDown

  datatype DownPoll = Waiting | Done | Error

  class Downgraded {
    const writer: FrameWriter
    const decoder: FrameReader
    const src: Source
    var termReceived: bool
    var termSent: TermSent
    var withShutdown: bool
    /** The frames of the active connection. */
    ghost const base: seq<OutFrame>

    /** The active connection may leave a frame that is not completely written, and one that is not completely read. */
    constructor (writer: FrameWriter, decoder: FrameReader, src: Source, termReceived: bool)
      requires writer.Valid() && !writer.io.shut && decoder.Valid()
      requires writer.pending != null ==> writer.pending.encoded != decoder.buffer && writer.pending.encoded != decoder.data
      ensures Valid() && this.writer == writer && this.decoder == decoder && this.src == src
      ensures this.termReceived == termReceived && !withShutdown && base == writer.outs && termSent == Init
    {
      hide FrameWriter.Valid, FrameReader.Valid, Encode, EncodeAll;
      this.writer, this.decoder, this.src, this.termReceived := writer, decoder, src, termReceived;
      termSent, withShutdown, base := Init, false, writer.outs;
    }

    method WithShutdown()
      requires Valid()
      modifies `withShutdown
      ensures withShutdown && Valid()
    {
      hide FrameWriter.Valid, FrameReader.Valid, Encode, EncodeAll;
      withShutdown := true;
    }

    /** `TERM` is sent once, after the frames of the connection, and nothing follows it. */
    ghost predicate WriterOk()
      reads this, writer, writer.io, writer.pending, if writer.pending == null then {} else {writer.pending.encoded}
    {
      && writer.Valid()
      && writer.outs == (if termSent == Init then base else base + [TERMINATE])
      && (termSent == Flushed || termSent == ShutDown ==> Sent())
      && (writer.io.shut <==> termSent == ShutDown)
    }

    /** All is written and flushed. */
    ghost predicate Sent()
      reads this, writer, writer.io
    {
      writer.pending == null && writer.io.flushed == |writer.io.output|
    }

    ghost function SentRank(): nat
      reads this
    {
      match termSent case Init => 3 case Enqueued => 2 case Flushed => 1 case ShutDown => 0
    }

    /** One step towards a sent `TERM`. */
    method RecoverWriter() returns (r: Option<WritePoll>)
      requires WriterOk()
      modifies this`termSent, writer, writer.io, writer.pending, if writer.pending == null then {} else {writer.pending.encoded}
      ensures WriterOk() && PendingKept() && old(writer.io.output) <= writer.io.output
      ensures r.None? ==> SentRank() < old(SentRank())
      ensures r == Some(Ready) ==> Recovered()
      ensures old(writer.io.shut) ==> writer.io.shut && writer.io.output == old(writer.io.output)
      ensures writer.io.refused == old(writer.io.refused) + if r == Some(WritePoll.Pending) then 1 else 0
      ensures writer.io.zeros == old(writer.io.zeros) + if r == Some(WriteZero) then 1 else 0
    {
      hide Written, EncodeAll, EncodeFrame, LegalFrame, LegalOut, Encode, FrameWriter.Valid;
      if termSent == Init {
        var ready := writer.PollWritePending();
        if ready != Ready {
          return Some(ready);
        }
        TerminateLegal(MAX_DATA);
        writer.StartSend(TERMINATE);
        termSent := Enqueued;
        return None;
      }
      if termSent == Enqueued && !withShutdown {
        var ready := writer.PollFlush();
        if ready != Ready {
          return Some(ready);
        }
        termSent := Flushed;
        return None;
      }
      if termSent != ShutDown && withShutdown {
        var ready := writer.PollClose();
        if ready != Ready {
          return Some(ready);
        }
        termSent := ShutDown;
        return None;
      }
      return Some(Ready);
    }

    twostate predicate PendingKept()
      reads this, writer, writer.pending
    {
      writer.pending == null || writer.pending == old(writer.pending) || (fresh(writer.pending) && fresh(writer.pending.encoded))
    }

    /** `TERM` is the last frame, all is written and flushed, and the transport is shut down if it was to be. */
    ghost predicate Recovered()
      reads this, writer, writer.io
    {
      Sent() && writer.outs == base + [TERMINATE] && (withShutdown ==> writer.io.shut)
    }

    method PollRecoverWriter() returns (r: WritePoll)
      requires WriterOk()
      modifies this`termSent, writer, writer.io, writer.pending, if writer.pending == null then {} else {writer.pending.encoded}
      ensures WriterOk() && PendingKept() && old(writer.io.output) <= writer.io.output
      ensures r == Ready ==> Recovered()
      ensures old(writer.io.shut) ==> writer.io.shut && writer.io.output == old(writer.io.output)
      ensures writer.io.refused == old(writer.io.refused) + if r.Pending? then 1 else 0
      ensures writer.io.zeros == old(writer.io.zeros) + if r.WriteZero? then 1 else 0
    {
      hide WriterOk, Recovered;
      while true
        invariant WriterOk() && PendingKept() && old(writer.io.output) <= writer.io.output
        invariant old(writer.io.shut) ==> writer.io.shut && writer.io.output == old(writer.io.output)
        invariant writer.io.refused == old(writer.io.refused) && writer.io.zeros == old(writer.io.zeros)
        decreases SentRank()
      {
        var done := RecoverWriter();
        if done.Some? {
          return done.value;
        }
      }
    }

    /** Reads and drops frames up to the `TERM` of the peer. */
    method PollRecoverReader() returns (r: DownPoll)
      requires decoder.Valid()
      modifies this`termReceived, decoder, decoder.buffer, decoder.data, src
      ensures fresh(decoder.data) || decoder.data == old(decoder.data)
      ensures r != Error ==> decoder.Valid() && termReceived == (r == Done)
      ensures src.refused == old(src.refused) + if r == Waiting then 1 else 0
      ensures forall rest: Bytes :: old(!termReceived && Ahead(decoder.limit, decoder.Held(), src.input, rest)) ==>
                if r == Done then decoder.Held() == [] && src.input == rest
                else r == Waiting && Ahead(decoder.limit, decoder.Held(), src.input, rest)
      ensures old(termReceived) ==> r == Done && decoder.Held() == old(decoder.Held()) && src.input == old(src.input)
      ensures forall total: Bytes :: old(HasRead(decoder.limit, total, decoder.Held(), src.input, termReceived)) && r != Error ==>
                HasRead(decoder.limit, total, decoder.Held(), src.input, termReceived)
    {
      hide Ahead, HasRead, Polls, FrameReader.HeaderOk, FrameReader.Held, Legal;
      if termReceived {
        return Done;
      }
      ghost var (held, input) := (decoder.Held(), src.input);
      while true
        invariant src.refused == old(src.refused)
        invariant decoder.Valid() && !termReceived && (fresh(decoder.data) || decoder.data == old(decoder.data))
        invariant forall rest: Bytes :: Ahead(decoder.limit, held, input, rest) ==> Ahead(decoder.limit, decoder.Held(), src.input, rest)
        invariant forall total: Bytes ::
                    HasRead(decoder.limit, total, held, input, false) ==> HasRead(decoder.limit, total, decoder.Held(), src.input, false)
        decreases |src.input|
      {
        ghost var (held1, input1) := (decoder.Held(), src.input);
        var next := decoder.PollNextFrame(src);
        ghost var held2 := if next.Failed? then [] else decoder.Held();
        forall rest: Bytes | Ahead(decoder.limit, held1, input1, rest)
          ensures StepAhead(decoder.limit, held2, src.input, rest, next)
        {
          StaysAhead(decoder.limit, held1, input1, rest, next, held2, src.input);
        }
        forall total: Bytes | HasRead(decoder.limit, total, held1, input1, false)
          ensures HasRead(decoder.limit, total, held2, src.input, next == Yield(Terminate))
        {
          ReadsMore(decoder.limit, total, held1, input1, next, held2, src.input);
        }
        match next
        case Pending => return Waiting;
        case Yield(d) =>
          if d == Terminate {
            termReceived := true;
            return Done;
          }
        case _ => return Error;
      }
    }

    ghost predicate Valid()
      reads this, decoder, decoder.buffer, decoder.data
      reads writer, writer.io, writer.pending, if writer.pending == null then {} else {writer.pending.encoded}
    {
      && decoder.Valid() && WriterOk()
      && (writer.pending != null ==> writer.pending.encoded != decoder.buffer && writer.pending.encoded != decoder.data)
    }

    /**
     * The future of the downgrade. When it resolves, the transport is clean: our `TERM` was the last thing written, the
     * `TERM` of the peer was the last thing read, and what the peer sent after it is all still there.
     */
    method Poll() returns (r: DownPoll)
      requires Valid()
      modifies this`termReceived, this`termSent, decoder, decoder.buffer, decoder.data, src
      modifies writer, writer.io, writer.pending, if writer.pending == null then {} else {writer.pending.encoded}
      ensures r != Error ==> Valid() && (old(termReceived) ==> termReceived)
      ensures r == Done ==> termReceived && Recovered()
      ensures r == Waiting ==> src.refused > old(src.refused) || writer.io.refused > old(writer.io.refused)
      ensures forall rest: Bytes :: old(!termReceived && Ahead(decoder.limit, decoder.Held(), src.input, rest)) && r != Error ==>
                if termReceived then decoder.Held() == [] && src.input == rest
                else Ahead(decoder.limit, decoder.Held(), src.input, rest)
      ensures old(termReceived) && r != Error ==> decoder.Held() == old(decoder.Held()) && src.input == old(src.input)
      ensures forall total: Bytes :: old(HasRead(decoder.limit, total, decoder.Held(), src.input, termReceived)) && r != Error ==>
                HasRead(decoder.limit, total, decoder.Held(), src.input, termReceived)
    {
      hide Ahead, HasRead, Recovered, Legal, FrameReader.HeaderOk, FrameReader.Held, FrameWriter.Valid, EncodeAll;
      var read := PollRecoverReader();
      if read == Error {
        return Error;
      }
      var write := PollRecoverWriter();
      if write == WriteZero {
        return Error;
      }
      return if read == Done && write == Ready then Done else Waiting;
    }
  }

  ghost predicate StepAhead(limit: nat, held: Bytes, input: Bytes, rest: Bytes, r: Outcome) {
    && (r.Pending? || r.Yield?)
    && (if r == Yield(Terminate) then held == [] && input == rest else Ahead(limit, held, input, rest))
  }

  lemma StaysAhead(limit: nat, held: Bytes, input: Bytes, rest: Bytes, r: Outcome, held': Bytes, input': Bytes)
    requires Ahead(limit, held, input, rest) && Polls(limit, held, input, r, held', input')
    ensures StepAhead(limit, held', input', rest, r)
  {
    hide Polls, EncodeFrame, LegalFrame, EncodeAll;
    var fs :| NoTerms(fs, limit) && held + input == EncodeAll(fs) + (EncodeFrame(TERM) + rest);
    PollAhead(limit, held, input, fs, rest, r, held', input');
    if fs != [] {
      assert NoTerms(fs[1..], limit);
    }
  }

  // Both sides.

  /** The frames of the active connection are ones that the peer accepts. */
  ghost predicate BaseLegal(base: seq<OutFrame>, limit: nat) {
    forall i | 0 <= i < |base| :: LegalOut(base[i], limit) && !base[i].term
  }

  /** The reader has reached the bytes after the `TERM`, or it is still on its way to them. */
  ghost predicate Meets(d: Downgraded, raw: Bytes)
    reads d, d.decoder, d.decoder.buffer, d.decoder.data, d.src
  {
    if d.termReceived then d.decoder.Held() == [] && d.src.input == raw
    else Ahead(d.decoder.limit, d.decoder.Held(), d.src.input, raw)
  }

  /** Whatever a recovered writer leaves in the transport is what the reader of the peer has to find there. */
  lemma WriterMeetsReader(a: Downgraded, b: Downgraded, raw: Bytes)
    requires a.WriterOk() && a.Recovered() && BaseLegal(a.base, b.decoder.limit)
    requires b.decoder.Valid()
    requires HasRead(b.decoder.limit, a.writer.io.output + raw, b.decoder.Held(), b.src.input, b.termReceived)
    ensures Meets(b, raw)
  {
    hide Written, DecodeRun, LegalOut, Ahead, FrameReader.Valid, FrameReader.Held, EncodeAll, FrameWriter.PendingIs;
    var (w, limit) := (a.writer, b.decoder.limit);
    var total := w.io.output + raw;
    var polls :| DecodeRun(limit, [], total, polls) && StopsAtTerm(polls)
              && EndsWith(total, polls, b.decoder.Held(), b.src.input, b.termReceived);
    CleanDowngrade(a.base, w.frames, w.io.output, w.io.times, raw, limit, polls);
  }

  /**
   * Two sides that are joined by a transport, and raw bytes that each application sends when it has the transport back.
   * In whatever order the two were polled, before and after they started to downgrade: once both writers have recovered,
   * each reader is at the raw bytes of the peer, or finds them after the frames that it still has to drop.
   */
  lemma CleanBothWays(a: Downgraded, b: Downgraded, rawA: Bytes, rawB: Bytes)
    requires a.WriterOk() && a.Recovered() && BaseLegal(a.base, b.decoder.limit) && a.decoder.Valid()
    requires b.WriterOk() && b.Recovered() && BaseLegal(b.base, a.decoder.limit) && b.decoder.Valid()
    requires HasRead(b.decoder.limit, a.writer.io.output + rawA, b.decoder.Held(), b.src.input, b.termReceived)
    requires HasRead(a.decoder.limit, b.writer.io.output + rawB, a.decoder.Held(), a.src.input, a.termReceived)
    ensures Meets(b, rawA) && Meets(a, rawB)
    ensures a.termReceived && b.termReceived ==> a.src.input == rawB && b.src.input == rawA
  {
    hide Downgraded.WriterOk, Downgraded.Recovered, BaseLegal, HasRead, FrameReader.Valid, FrameReader.Held, Ahead;
    WriterMeetsReader(a, b, rawA);
    WriterMeetsReader(b, a, rawB);
  }
}
