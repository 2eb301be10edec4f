/** One direction of a wire: the bytes that one side has written, as far as the other side has got with them. Values. */
module Crossing {
  import opened Prelude
  import opened Endpoint
  import opened Headers
  import opened Frames
  import opened Decoder
  import opened Encoder
  import opened Connection
  import opened Joined
  import opened Exchange

  /**
   * What matters of one side. `moved` is how much of its output the transport has carried over, `held` and `input` are what
   * came in and was not read as frames yet, `read` are the frames that were, and `owed` is the `PONG` that is owed.
   */
  datatype View = View(end: Joined.End, outs: seq<OutFrame>, frames: seq<Frame>, output: Bytes, times: seq<U32>,
                       moved: nat, held: Bytes, input: Bytes, read: seq<Frame>, owed: Option<U32>)

  ghost predicate NoTerm(outs: seq<OutFrame>, limit: nat) {
    forall i | 0 <= i < |outs| :: LegalOut(outs[i], limit) && !outs[i].term
  }

  ghost predicate NoTags(ch: seq<Part>) {
    forall i | 0 <= i < |ch| :: ch[i].tag == 0
  }

  /**
   * From `v` to `w`: what has come over is what was read, held or waits, and the channel holds what is in the frames that
   * were not read.
   */
  ghost predicate Crosses(v: View, w: View, limit: nat, ch: seq<Part>) {
    && Written(v.outs, v.frames, v.output, v.times) && NoTerm(v.outs, limit)
    && Legals(w.read, limit) && v.moved <= |v.output|
    && EncodeAll(w.read) + (w.held + w.input) == v.output[..v.moved]
    && |w.read| <= |v.outs| && Carry(v.outs[|w.read|..], ch) && NoTags(ch)
  }

  /** One of the frames has this time in its `PING`. */
  ghost predicate PingedIn(fs: seq<Frame>, pong: Option<U32>) {
    pong.Some? ==> exists i | 0 <= i < |fs| :: fs[i].header.ping == pong
  }

  /** A side answers only `PING`s that it has read. */
  ghost predicate Echoes(v: View) {
    PingedIn(v.read, v.owed) && forall i | 0 <= i < |v.outs| :: PingedIn(v.read, v.outs[i].pong)
  }

  lemma PingedLater(fs: seq<Frame>, f: Frame, pong: Option<U32>)
    requires PingedIn(fs, pong)
    ensures PingedIn(fs + [f], pong)
  {
    if pong.Some? {
      var i :| 0 <= i < |fs| && fs[i].header.ping == pong;
      assert (fs + [f])[i] == fs[i];
    }
  }

  lemma ReadEchoes(v: View, f: Frame, v': View)
    requires Echoes(v) && v'.read == v.read + [f] && v'.outs == v.outs
    requires v'.owed == if f.header.ping.Some? then f.header.ping else v.owed
    ensures Echoes(v')
  {
    PingedLater(v.read, f, v.owed);
    assert v'.read[|v.read|] == f;
    forall i | 0 <= i < |v.outs| ensures PingedIn(v'.read, v.outs[i].pong) {
      PingedLater(v.read, f, v.outs[i].pong);
    }
  }

  /** The frames that are taken answer what is owed, if anything. */
  ghost predicate AnswersOwed(v: View, v': View) {
    && (v'.owed.None? || v'.owed == v.owed) && v.outs <= v'.outs
    && forall i | |v.outs| <= i < |v'.outs| :: v'.outs[i].pong.None? || v'.outs[i].pong == v.owed
  }

  lemma SendEchoes(v: View, v': View)
    requires Echoes(v) && v'.read == v.read && AnswersOwed(v, v')
    ensures Echoes(v')
  {
    hide PingedIn;
    NoPong(v.read);
    forall i | 0 <= i < |v'.outs| ensures PingedIn(v'.read, v'.outs[i].pong) {
      if i < |v.outs| {
        assert v'.outs[i] == v.outs[i];
      }
    }
  }

  lemma NoPong(fs: seq<Frame>)
    ensures PingedIn(fs, None)
  {
  }

  lemma PacedAnswers(v: View, v': View, before: Pace, after: Pace)
    requires v.outs <= v'.outs && Paced(before, v'.outs[|v.outs|..], after) && v.owed == before.owed && v'.owed == after.owed
    ensures AnswersOwed(v, v')
  {
    hide Paced;
    var more := v'.outs[|v.outs|..];
    AnswersOnce(before, more, after);
    assert forall i | |v.outs| <= i < |v'.outs| :: v'.outs[i] == more[i - |v.outs|];
  }

  /** A `PONG` that is read echoes the time of a `PING` that its reader has written. */
  lemma PongsEcho(v: View, w: View, limit: nat, up: seq<Part>, down: seq<Part>, i: nat)
    requires Crosses(v, w, limit, up) && Crosses(w, v, limit, down) && Echoes(v) && i < |w.read|
    ensures PingedIn(w.frames, w.read[i].header.pong)
  {
    hide Written, EncodeAll, Carry, Legals;
    ReadIsWritten(v, w, limit, up);
    ReadIsWritten(w, v, limit, down);
    SamePong(v, i);
    if w.read[i].header.pong.Some? {
      var j :| 0 <= j < |v.read| && v.read[j].header.ping == w.read[i].header.pong;
      assert w.frames[j] == v.read[j];
    }
  }

  lemma SamePong(v: View, i: nat)
    requires Written(v.outs, v.frames, v.output, v.times) && i < |v.frames|
    ensures i < |v.outs| && v.frames[i].header.pong == v.outs[i].pong
  {
    hide EncodeAll;
  }

  /** Encodings of frames are never ambiguous, not even when more bytes follow. */
  lemma {:induction false} PrefixCode(fs: seq<Frame>, gs: seq<Frame>, limit: nat)
    requires Legals(fs, limit) && Legals(gs, limit) && EncodeAll(fs) <= EncodeAll(gs)
    ensures fs <= gs
  {
    hide EncodeFrame, LegalFrame, Parse;
    if fs != [] {
      NonEmpty(fs[0], limit);
      assert gs != [];
      var all := EncodeAll(gs);
      var rest := all[|EncodeFrame(fs[0])|..];
      assert all == EncodeFrame(fs[0]) + rest;
      ParseWhole(fs[0], rest, limit);
      ParseWhole(gs[0], EncodeAll(gs[1..]), limit);
      assert fs[0] == gs[0] && rest == EncodeAll(gs[1..]);
      assert EncodeAll(fs[1..]) <= rest;
      PrefixCode(fs[1..], gs[1..], limit);
    }
  }

  /** What was read are the first frames that were written. */
  lemma ReadIsWritten(v: View, w: View, limit: nat, ch: seq<Part>)
    requires Crosses(v, w, limit, ch)
    ensures Legals(v.frames, limit) && |v.frames| == |v.outs| && w.read <= v.frames
    ensures w.held + w.input <= EncodeAll(v.frames[|w.read|..])
  {
    hide EncodeAll, EncodeFrame, LegalFrame, LegalOut, Carry, FrameOf;
    FramesLegal(v.outs, v.frames, v.times, limit);
    var n := |w.read|;
    assert EncodeAll(w.read) <= v.output <= EncodeAll(v.frames);
    PrefixCode(w.read, v.frames, limit);
    EncodeAllAppend(v.frames[..n], v.frames[n..]);
    assert v.frames == v.frames[..n] + v.frames[n..] && v.frames[..n] == w.read;
    assert EncodeAll(w.read) + (w.held + w.input) <= EncodeAll(w.read) + EncodeAll(v.frames[n..]);
    CancelPrefix(EncodeAll(w.read), w.held + w.input, EncodeAll(v.frames[n..]));
  }

  lemma CancelPrefix(a: Bytes, b: Bytes, c: Bytes)
    requires a + b <= a + c
    ensures b <= c
  {
    assert forall i | 0 <= i < |b| :: b[i] == (a + b)[|a| + i] && c[i] == (a + c)[|a| + i];
  }

  // Steps.

  lemma {:induction false} CarryBoth(a: seq<OutFrame>, x: seq<Part>, b: seq<OutFrame>, y: seq<Part>)
    requires Carry(a, x) && Carry(b, y)
    ensures Carry(a + b, x + UntaggedAll(y))
    decreases |a|
  {
    hide PartOut, UntaggedAll;
    if a == [] {
      assert a + b == b && x + UntaggedAll(y) == UntaggedAll(y);
      CarryUntagged(b, y);
    } else {
      var (rest, more) := (if PartOut(a[0]).None? then x else x[1..], x + UntaggedAll(y));
      CarryBoth(a[1..], rest, b, y);
      assert (a + b)[1..] == a[1..] + b && (a + b)[0] == a[0];
      if PartOut(a[0]).Some? {
        assert more[0] == x[0] && more[1..] == rest + UntaggedAll(y);
      }
    }
  }

  lemma {:induction false} CarryUntagged(outs: seq<OutFrame>, parts: seq<Part>)
    requires Carry(outs, parts)
    ensures Carry(outs, UntaggedAll(parts)) && NoTags(UntaggedAll(parts))
    decreases |outs|
  {
    hide PartOut;
    if outs != [] {
      if PartOut(outs[0]).None? {
        CarryUntagged(outs[1..], parts);
      } else {
        CarryUntagged(outs[1..], parts[1..]);
        assert UntaggedAll(parts)[1..] == UntaggedAll(parts[1..]);
        assert forall i | 1 <= i < |parts| :: UntaggedAll(parts)[i] == UntaggedAll(parts[1..])[i - 1];
      }
    }
  }

  /** The sender has taken and written more. */
  lemma SendCrosses(v: View, w: View, limit: nat, ch: seq<Part>, v': View, parts: seq<Part>)
    requires Crosses(v, w, limit, ch) && v'.moved == v.moved
    requires Written(v'.outs, v'.frames, v'.output, v'.times) && NoTerm(v'.outs, limit)
    requires v.output <= v'.output && v.outs <= v'.outs && Carry(v'.outs[|v.outs|..], parts)
    ensures Crosses(v', w, limit, ch + UntaggedAll(parts))
  {
    hide EncodeAll, Written, LegalOut, Carry, UntaggedAll, LegalFrame;
    var n := |w.read|;
    var (a, b) := (v.outs[n..], v'.outs[|v.outs|..]);
    CarryBoth(a, ch, b, parts);
    CarryUntagged(b, parts);
    assert v'.outs[n..] == a + b;
    assert v'.output[..v.moved] == v.output[..v.moved];
  }

  /** The transport carries some bytes over. */
  lemma MoveCrosses(v: View, w: View, limit: nat, ch: seq<Part>, n: nat)
    requires Crosses(v, w, limit, ch) && v.moved + n <= |v.output|
    ensures Crosses(v.(moved := v.moved + n), w.(input := w.input + v.output[v.moved..v.moved + n]), limit, ch)
  {
    hide EncodeAll, Written, LegalOut, Carry, LegalFrame;
    var bytes := v.output[v.moved..v.moved + n];
    assert v.output[..v.moved + n] == v.output[..v.moved] + bytes;
    assert EncodeAll(w.read) + (w.held + (w.input + bytes)) == EncodeAll(w.read) + (w.held + w.input) + bytes;
  }

  /** A poll on a part of what was written: it waits, or yields the first frame. */
  lemma PollFirst(limit: nat, held: Bytes, input: Bytes, fs: seq<Frame>, r: Outcome, held': Bytes, input': Bytes)
    requires Polls(limit, held, input, r, held', input') && Legals(fs, limit) && held + input <= EncodeAll(fs)
    ensures r.Pending? || r.Yield? || r.End? || r.UnexpectedEnd?
    ensures r.Pending? ==> held' + input' == held + input
    ensures r.Yield? ==> fs != [] && r == Yield(DecodedOf(fs[0])) && held + input == EncodeFrame(fs[0]) + (held' + input')
  {
    hide EncodeFrame, LegalFrame, Parse;
    var n := |held| + |input| - |input'|;
    var seen := held + input[..|input| - |input'|];
    assert seen == (held + input)[..n] && held + input == seen + input';
    if fs == [] {
      assert seen == [];
      ParseNothing(limit);
    } else {
      var rest := EncodeAll(fs[1..]);
      assert seen == (EncodeFrame(fs[0]) + rest)[..n];
      ParseTake(fs[0], rest, n, limit);
      assert n >= |EncodeFrame(fs[0])| ==> seen[..|EncodeFrame(fs[0])|] == EncodeFrame(fs[0]);
      assert [] + input' == input';
    }
  }

  lemma ParseNothing(limit: nat)
    ensures Parse([], limit) == More
  {
  }

  /** What a poll of the receiver finds: nothing new, or a frame whose part is the front of the channel. */
  lemma PollCrosses(v: View, w: View, limit: nat, ch: seq<Part>, r: Outcome, held': Bytes, input': Bytes)
    requires Crosses(v, w, limit, ch) && Polls(limit, w.held, w.input, r, held', input') && !r.End? && !r.UnexpectedEnd?
    ensures r.Pending? || (r.Yield? && r.decoded.Inbound?)
    ensures r.Pending? ==> Crosses(v, w.(held := held', input := input'), limit, ch)
    ensures r.Yield? ==>
              var f := r.decoded.frame;
              var w' := w.(held := held', input := input', read := w.read + [f]);
              match PartIn(f, 0)
              case None => Crosses(v, w', limit, ch)
              case Some(part) => ch != [] && part == ch[0] && Crosses(v, w', limit, ch[1..])
  {
    hide EncodeFrame, LegalFrame, Polls, LegalOut, FrameOf, PartIn, PartOut, EncodeAll, Offset;
    ReadIsWritten(v, w, limit, ch);
    var n := |w.read|;
    var fs := v.frames[n..];
    PollFirst(limit, w.held, w.input, fs, r, held', input');
    if r.Yield? {
      var (f, out) := (fs[0], v.outs[n]);
      assert f == v.frames[n];
      SamePart(out, f);
      assert v.outs[n..][0] == out && v.outs[n..][1..] == v.outs[n + 1..];
      OffsetLast(w.read, f);
      assert EncodeAll(w.read + [f]) + (held' + input') == EncodeAll(w.read) + (EncodeFrame(f) + (held' + input'));
      CarryFirst(v.outs[n..], ch);
    }
  }

  lemma CarryFirst(outs: seq<OutFrame>, ch: seq<Part>)
    requires outs != [] && Carry(outs, ch) && NoTags(ch)
    ensures match PartOut(outs[0])
            case None => Carry(outs[1..], ch)
            case Some(part) => ch != [] && part == ch[0] && Carry(outs[1..], ch[1..])
  {
    hide PartOut;
    assert ch != [] ==> ch[0].(tag := 0) == ch[0];
  }
}
