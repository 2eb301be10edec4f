/** Two connection objects, the decoders that feed them, and the transports between them, under any schedule. */
module Wire {
  import opened Prelude
  import opened Fins
  import opened StreamId
  import opened Endpoint
  import opened System
  import opened Frames
  import opened Decoder
  import opened Encoder
  import opened Yields
  import opened StreamTable
  import opened Connection
  import opened Joined
  import opened Wired
  import opened Crossing
  import opened Exchange
  import opened Headers
  import opened Transcript

  /** One side: a connection, and the decoder with the transport it reads from. */
  class Port {
    const active: Active
    const reader: FrameReader
    const src: Source
    /** How much of the output the transport has carried over. */
    var moved: nat
    ghost var read: seq<Frame>

    ghost function ReadRepr(): set<object>
      reads reader
    {
      {this, reader, reader.buffer, reader.data, src}
    }

    ghost function Repr(): set<object>
      reads reader, active.writer, active.streams
    {
      ReadRepr() + active.Repr()
    }

    ghost predicate Valid()
      reads this, Repr(), active.streams
    {
      && active.Valid() && reader.Valid() && !src.ended
      && reader.limit == active.streams.cfg.frameLimit && moved <= |active.writer.io.output|
      && ReadRepr() !! active.Repr()
    }

    ghost function View(): Crossing.View
      reads this, Repr(), active.streams
    {
      var w := active.writer;
      Crossing.View(Joined.End.End(active.streams.Value(), active.streams.next), w.outs, w.frames, w.io.output, w.io.times,
                    moved, reader.Held(), src.input, read, active.pings.owedPong)
    }

    /** Joins a new connection and a new decoder, with the transport that the decoder reads from. */
    constructor (active: Active, reader: FrameReader, src: Source, ghost role: Role, ghost cfg: Config)
      requires active.Valid() && active.streams.Value() == NewEndpoint(role, cfg) && active.streams.next == 0
      requires active.pings.owedPong == None && active.writer.outs == [] && active.writer.frames == [] && active.writer.io.output == [] && active.writer.io.times == []
      requires reader.Valid() && reader.Held() == [] && reader.limit == active.streams.cfg.frameLimit
      requires src.input == [] && !src.ended
      requires {reader, reader.buffer, reader.data, src} !! active.Repr()
      ensures this.active == active && this.reader == reader && this.src == src 
      ensures Valid() && Fresh(View(), role, cfg)
    {
      hide Active.Valid, Streams.Value, FrameReader.Valid, FrameReader.Held, NewEndpoint;
      this.active, this.reader, this.src := active, reader, src;
      moved, read := 0, [];
    }

    lemma Parts()
      ensures {this, reader, reader.buffer, reader.data, src, active.writer, active.pings, active.streams} <= Repr()
      ensures forall o <- Repr() :: allocated(o)
    {
    }

    lemma IsEndView(p: Pair, role: Role)
      ensures IsEnd(active, p, role) <==> View().end == EndOf(p, role)
    {
      hide Streams.Value;
    }

    lemma WrittenView()
      requires Valid()
      ensures var v := View(); Written(v.outs, v.frames, v.output, v.times) && NoTerm(v.outs, reader.limit)
    {
      hide Written, LegalOut, Streams.Valid, FrameReader.Valid;
    }

    // The application.

    method Start(key: nat, ghost story: Story, ghost p: Pair, ghost role: Role) returns (ghost p': Pair)
      requires Valid() && LeadsTo(story, p) && IsEnd(active, p, role) && IsVacantKey(active.streams.Value(), key)
      modifies Repr()
      ensures Valid() && fresh(Repr() - old(Repr()))
      ensures LeadsTo(After(story, [Action.Opens(role, key)]), p') && View() == old(View()).(end := EndOf(p', role))
      ensures EndOf(p', role.Peer()) == EndOf(p, role.Peer()) && p'.up == p.up && p'.down == p.down
    {
      hide Active.Valid, FrameReader.Valid, FrameReader.Held, LeadsTo, IsVacantKey;
      var _, p1 := Starts(active, key, story, p, role);
      p' := p1;
    }

    method Use(k: Ref, call: AppCall, ghost story: Story, ghost p: Pair, ghost role: Role) returns (answer: Answer, ghost p': Pair)
      requires Valid() && LeadsTo(story, p) && IsEnd(active, p, role) && k in active.streams.objects
      modifies Repr()
      ensures Valid() && fresh(Repr() - old(Repr()))
      ensures k in EndOf(p, role).e.streams && answer == AnswerTo(EndOf(p, role).e.streams[k], call)
      ensures LeadsTo(After(story, [Action.Calls(role, k, call)]), p') && View() == old(View()).(end := EndOf(p', role))
      ensures EndOf(p', role.Peer()) == EndOf(p, role.Peer()) && p'.up == p.up && p'.down == p.down
    {
      hide Active.Valid, FrameReader.Valid, FrameReader.Held, LeadsTo, AnswerTo;
      var said, p1 := Uses(active, k, call, story, p, role);
      answer, p' := said, p1;
    }

    /** The interval for a `PING` has elapsed. */
    method Tick()
      requires Valid()
      modifies active.pings
      ensures Valid() && Repr() == old(Repr()) && View() == old(View())
    {
      hide Active.Valid, FrameReader.Valid, FrameReader.Held;
      active.Tick();
    }

    // The transport.

    /** The transport takes some bytes. */
    method Give(n: nat) returns (bytes: Bytes)
      requires Valid()
      modifies `moved
      ensures Valid() && Repr() == old(Repr())
      ensures var v := old(View());
              && v.moved + |bytes| <= |v.output| && bytes == v.output[v.moved..v.moved + |bytes|]
              && View() == v.(moved := v.moved + |bytes|)
    {
      hide Active.Valid, FrameReader.Valid, FrameReader.Held;
      var end := Min(moved + n, |active.writer.io.output|);
      bytes := active.writer.io.output[moved..end];
      moved := end;
    }

    /** The transport brings some bytes. */
    method Get(bytes: Bytes, pieces: seq<nat>)
      requires Valid()
      modifies src
      ensures Valid() && Repr() == old(Repr()) && View() == old(View()).(input := old(View()).input + bytes)
    {
      hide Active.Valid, FrameReader.Valid, FrameReader.Held;
      src.Arrive(bytes, pieces);
    }

    // The connection.

    method Send(allowances: Allowances, ghost story: Story, ghost p: Pair, ghost role: Role)
      returns (ghost p': Pair, ghost actions: seq<Action>, ghost parts: seq<Part>)
      requires Valid() && LeadsTo(story, p) && IsEnd(active, p, role)
      modifies Repr()
      ensures Valid() && fresh(Repr() - old(Repr()))
      ensures LeadsTo(After(story, actions), p') && IsEnd(active, p', role) && EndOf(p', role.Peer()) == EndOf(p, role.Peer())
      ensures Silent(actions)
      ensures ChanOf(p', role) == ChanOf(p, role) + UntaggedAll(parts) && ChanOf(p', role.Peer()) == ChanOf(p, role.Peer())
      ensures var (v, w) := (old(View()), View());
              && w == v.(end := w.end, outs := w.outs, frames := w.frames, output := w.output, times := w.times, owed := w.owed)
              && v.output <= w.output && AnswersOwed(v, w) && Carry(w.outs[|v.outs|..], parts)
    {
      hide Active.Valid, FrameReader.Valid, FrameReader.Held, LeadsTo, Carry, UntaggedAll, PollActions, Silent, AnswersOwed, Paced;
      ghost var (v, pace) := (View(), active.pings.Value());
      var _, p1, polled, ps := SendsOn(active, allowances, story, p, role);
      PacedAnswers(v, View(), pace, active.pings.Value());
      p', actions, parts := p1, PollActions(role, polled), ps;
      PollsSilently(role, polled);
    }

    /** The decoder is polled. The transport has not ended. */
    method Poll() returns (r: Outcome)
      requires Valid()
      modifies reader, reader.buffer, reader.data, src
      ensures !r.Failed? ==> Valid() && fresh(Repr() - old(Repr()))
      ensures !r.End? && !r.UnexpectedEnd?
      ensures var v := old(View());
              && Decoder.Polls(reader.limit, v.held, v.input, r, if r.Failed? then [] else View().held, View().input)
              && (!r.Failed? ==> View() == v.(held := View().held, input := View().input))
    {
      hide Active.Valid, FrameReader.Valid, FrameReader.Held, Decoder.Polls;
      r := reader.PollNextFrame(src);
    }

    /** A frame was read that carries the front of the channel from the peer, or nothing for a stream. */
    method Take(f: Frame, ghost story: Story, ghost p: Pair, ghost role: Role) returns (r: Result<(), Violation>, ghost p': Pair, ghost actions: seq<Action>)
      requires Valid() && LeadsTo(story, p) && IsEnd(active, p, role.Peer())
      requires PartIn(f, 0).Some? ==> ChanOf(p, role) != [] && PartIn(f, 0).value == ChanOf(p, role)[0]
      modifies Repr()
      ensures r == Ok(()) && Valid() && fresh(Repr() - old(Repr()))
      ensures LeadsTo(After(story, actions), p') && EndOf(p', role) == EndOf(p, role) && Silent(actions)
      ensures View() == old(View()).(end := EndOf(p', role.Peer()), read := old(View()).read + [f], owed := Owes(old(View()), f))
      ensures ChanOf(p', role) == (if PartIn(f, 0).Some? then ChanOf(p, role)[1..] else ChanOf(p, role))
      ensures ChanOf(p', role.Peer()) == ChanOf(p, role.Peer())
    {
      hide Active.Valid, FrameReader.Valid, FrameReader.Held, LeadsTo, PartIn;
      Note(f);
      var done, p1, did := Processes(active, f, story, p, role);
      r, p', actions := done, p1, did;
    }

    ghost method Note(f: Frame)
      requires Valid()
      modifies `read
      ensures Valid() && Repr() == old(Repr()) && View() == old(View()).(read := old(View()).read + [f])
    {
      hide Active.Valid, FrameReader.Valid, FrameReader.Held;
      read := read + [f];
    }
  }

  // Both sides.

  function Owes(v: Crossing.View, f: Frame): Option<U32> {
    if f.header.ping.Some? then f.header.ping else v.owed
  }

  /** The two views are the ends of the pair, and its channels are what is on the way between them. */
  ghost predicate Joint(role: Role, v: Crossing.View, w: Crossing.View, p: Pair, limit: nat) {
    && v.end == EndOf(p, role) && w.end == EndOf(p, role.Peer())
    && Crosses(v, w, limit, ChanOf(p, role)) && Crosses(w, v, limit, ChanOf(p, role.Peer()))
    && Echoes(v) && Echoes(w)
  }

  /** What the applications said and were told in the run. */
  ghost function Script(story: Story): seq<Said> {
    Says(StartPair(story.client, story.server), story.actions)
  }

  /** The run goes on, and this is said. */
  ghost predicate Continues(story: Story, story': Story, said: seq<Said>) {
    && story'.client == story.client && story'.server == story.server && story.actions <= story'.actions
    && Script(story') == Script(story) + said
  }

  lemma GoesOnSaying(story: Story, p: Pair, actions: seq<Action>)
    requires LeadsTo(story, p)
    ensures Continues(story, After(story, actions), Says(p, actions))
  {
    hide PairRun, Says;
    SaysMore(StartPair(story.client, story.server), story.actions, actions);
  }

  lemma GoesOnSilently(story: Story, p: Pair, actions: seq<Action>)
    requires LeadsTo(story, p) && Silent(actions)
    ensures Continues(story, After(story, actions), [])
  {
    hide Says;
    GoesOnSaying(story, p, actions);
    NothingSaid(p, actions);
  }

  lemma StaysSilent(story: Story)
    ensures Continues(story, story, [])
  {
    hide Says;
    assert Script(story) + [] == Script(story);
  }

  ghost predicate Silent(actions: seq<Action>) {
    forall i | 0 <= i < |actions| :: !actions[i].Calls?
  }

  lemma {:induction false} PollsSilently(role: Role, polled: seq<(Ref, nat)>)
    ensures Silent(PollActions(role, polled))
  {
    if polled != [] {
      PollsSilently(role, polled[1..]);
    }
  }

  /** Two sides with nothing in common, in a state that a run of two endpoints leads to. */
  ghost predicate Sound(x: Port, y: Port, role: Role, story: Story, p: Pair)
    reads x, x.Repr(), x.active.streams, y, y.Repr(), y.active.streams
  {
    && x.Valid() && y.Valid() && x.Repr() !! y.Repr() && x.reader.limit == y.reader.limit
    && LeadsTo(story, p) && Joint(role, x.View(), y.View(), p, x.reader.limit)
  }

  lemma Swapped(x: Port, y: Port, role: Role, story: Story, p: Pair)
    requires Sound(x, y, role, story, p)
    ensures Sound(y, x, role.Peer(), story, p)
  {
    hide Port.Valid, LeadsTo, Crosses, Port.View, Port.Repr;
  }

  /** A side whose receiving part has not changed still receives what the other one sends. */
  lemma SameReceiver(v: Crossing.View, w: Crossing.View, w': Crossing.View, limit: nat, ch: seq<Part>)
    requires Crosses(v, w, limit, ch) && w'.held == w.held && w'.input == w.input && w'.read == w.read
    ensures Crosses(v, w', limit, ch)
  {
  }

  /** A side whose sending part has not changed is still received. */
  lemma SameSender(v: Crossing.View, v': Crossing.View, w: Crossing.View, limit: nat, ch: seq<Part>)
    requires Crosses(v, w, limit, ch)
    requires v'.outs == v.outs && v'.frames == v.frames && v'.output == v.output && v'.times == v.times && v'.moved == v.moved
    ensures Crosses(v', w, limit, ch)
  {
  }

  /** What a side does without sending or receiving. */
  lemma EndMoves(role: Role, v: Crossing.View, w: Crossing.View, p: Pair, p': Pair, limit: nat)
    requires Joint(role, v, w, p, limit) && p'.up == p.up && p'.down == p.down && EndOf(p', role.Peer()) == EndOf(p, role.Peer())
    ensures Joint(role, v.(end := EndOf(p', role)), w, p', limit)
  {
    hide Crosses;
    SameSender(v, v.(end := EndOf(p', role)), w, limit, ChanOf(p, role));
    SameReceiver(w, v, v.(end := EndOf(p', role)), limit, ChanOf(p, role.Peer()));
  }

  method StartAt(x: Port, y: Port, key: nat, ghost role: Role, ghost story: Story, ghost p: Pair)
    returns (ghost story': Story, ghost p': Pair)
    requires Sound(x, y, role, story, p)
    modifies x.Repr()
    ensures Sound(x, y, role, story', p') && Continues(story, story', []) && fresh(x.Repr() - old(x.Repr())) && y.Repr() == old(y.Repr())
  {
    hide Port.Valid, Port.View, LeadsTo, Crosses, IsVacantKey, Port.Repr, Continues;
    story', p' := story, p;
    StaysSilent(story);
    if x.active.streams.IsNextSlot(key) {
      ghost var (v, w) := (x.View(), y.View());
      y.Parts();
      x.IsEndView(p, role);
      p' := x.Start(key, story, p, role);
      story' := After(story, [Action.Opens(role, key)]);
      GoesOnSilently(story, p, [Action.Opens(role, key)]);
      assert y.Repr() == old(y.Repr());
      assert y.Valid() && y.View() == w;
      assert x.Repr() !! y.Repr();
      EndMoves(role, v, w, p, p', x.reader.limit);
    }
  }

  method UseAt(x: Port, y: Port, k: Ref, call: AppCall, role: Role, ghost story: Story, ghost p: Pair)
    returns (said: seq<Said>, ghost story': Story, ghost p': Pair)
    requires Sound(x, y, role, story, p)
    modifies x.Repr()
    ensures Sound(x, y, role, story', p') && Continues(story, story', said) && fresh(x.Repr() - old(x.Repr())) && y.Repr() == old(y.Repr())
  {
    hide Port.Valid, Port.View, LeadsTo, Crosses, Port.Repr, Continues, AnswerTo, PairNext;
    said, story', p' := [], story, p;
    StaysSilent(story);
    if k in x.active.streams.objects {
      ghost var (v, w) := (x.View(), y.View());
      y.Parts();
      x.IsEndView(p, role);
      var answer, p1 := x.Use(k, call, story, p, role);
      said, story', p' := [Said(role, k, call, answer)], After(story, [Action.Calls(role, k, call)]), p1;
      CallSays(story, p, role, k, call);
      assert y.Repr() == old(y.Repr());
      assert y.Valid() && y.View() == w;
      EndMoves(role, v, w, p, p', x.reader.limit);
    }
  }

  lemma CallSays(story: Story, p: Pair, role: Role, k: Ref, call: AppCall)
    requires LeadsTo(story, p) && k in EndOf(p, role).e.streams
    ensures var said := [Said(role, k, call, AnswerTo(EndOf(p, role).e.streams[k], call))];
            Continues(story, After(story, [Action.Calls(role, k, call)]), said)
  {
    hide LeadsTo, Continues, AnswerTo;
    GoesOnSaying(story, p, [Action.Calls(role, k, call)]);
    GoesOn(story, p, [Action.Calls(role, k, call)]);
    PairRunOne(p, Action.Calls(role, k, call));
    SaysOne(p, Action.Calls(role, k, call));
  }

  method TickAt(x: Port, y: Port, ghost role: Role, ghost story: Story, ghost p: Pair)
    requires Sound(x, y, role, story, p)
    modifies x.Repr()
    ensures Sound(x, y, role, story, p) && fresh(x.Repr() - old(x.Repr())) && y.Repr() == old(y.Repr())
  {
    hide Port.Valid, Port.View, LeadsTo, Crosses, Port.Repr;
    ghost var w := y.View();
    x.Parts();
    y.Parts();
    x.Tick();
    assert y.Repr() == old(y.Repr());
    assert y.Valid() && y.View() == w;
  }

  // Sending, carrying, receiving.

  lemma SendJoint(role: Role, v: Crossing.View, w: Crossing.View, p: Pair, v': Crossing.View, p': Pair, parts: seq<Part>, limit: nat)
    requires Joint(role, v, w, p, limit)
    requires v' == v.(end := EndOf(p', role), outs := v'.outs, frames := v'.frames, output := v'.output, times := v'.times, owed := v'.owed)
    requires Written(v'.outs, v'.frames, v'.output, v'.times) && NoTerm(v'.outs, limit)
    requires v.output <= v'.output && AnswersOwed(v, v') && Carry(v'.outs[|v.outs|..], parts)
    requires EndOf(p', role.Peer()) == EndOf(p, role.Peer())
    requires ChanOf(p', role) == ChanOf(p, role) + UntaggedAll(parts) && ChanOf(p', role.Peer()) == ChanOf(p, role.Peer())
    ensures Joint(role, v', w, p', limit)
  {
    hide Crosses, Written, NoTerm, Carry, UntaggedAll;
    SendCrosses(v, w, limit, ChanOf(p, role), v', parts);
    SendEchoes(v, v');
    SameReceiver(w, v, v', limit, ChanOf(p, role.Peer()));
  }

  method SendAt(x: Port, y: Port, allowances: Allowances, ghost role: Role, ghost story: Story, ghost p: Pair)
    returns (ghost story': Story, ghost p': Pair)
    requires Sound(x, y, role, story, p)
    modifies x.Repr()
    ensures Sound(x, y, role, story', p') && Continues(story, story', []) && fresh(x.Repr() - old(x.Repr())) && y.Repr() == old(y.Repr())
  {
    hide Port.Valid, Port.View, LeadsTo, Crosses, Port.Repr, Carry, UntaggedAll, Written, NoTerm, Continues, Silent;
    ghost var (v, w) := (x.View(), y.View());
    y.Parts();
    x.IsEndView(p, role);
    var p1, actions, parts := x.Send(allowances, story, p, role);
    story', p' := After(story, actions), p1;
    GoesOnSilently(story, p, actions);
    x.IsEndView(p', role);
    x.WrittenView();
    assert y.Repr() == old(y.Repr());
    assert y.Valid() && y.View() == w;
    SendJoint(role, v, w, p, x.View(), p', parts, x.reader.limit);
  }

  /** The transport carries at most `n` bytes from one side to the other. */
  method CarryAt(x: Port, y: Port, n: nat, pieces: seq<nat>, ghost role: Role, ghost story: Story, ghost p: Pair)
    requires Sound(x, y, role, story, p)
    modifies x.Repr(), y.Repr()
    ensures Sound(x, y, role, story, p) && fresh(x.Repr() - old(x.Repr())) && fresh(y.Repr() - old(y.Repr()))
  {
    hide Port.Valid, Port.View, LeadsTo, Crosses, Port.Repr;
    ghost var (v, w) := (x.View(), y.View());
    x.Parts();
    y.Parts();
    var bytes := x.Give(n);
    assert y.Repr() == old(y.Repr());
    assert y.Valid() && y.View() == w;
    ghost var v' := x.View();
    y.Get(bytes, pieces);
    assert x.Repr() == old(x.Repr());
    assert x.Valid() && x.View() == v';
    CarryJoint(role, v, w, p, |bytes|, x.reader.limit);
  }

  lemma CarryJoint(role: Role, v: Crossing.View, w: Crossing.View, p: Pair, n: nat, limit: nat)
    requires Joint(role, v, w, p, limit) && v.moved + n <= |v.output|
    ensures var (v', w') := (v.(moved := v.moved + n), w.(input := w.input + v.output[v.moved..v.moved + n]));
            Joint(role, v', w', p, limit)
  {
    hide Crosses;
    var (v', w') := (v.(moved := v.moved + n), w.(input := w.input + v.output[v.moved..v.moved + n]));
    MoveCrosses(v, w, limit, ChanOf(p, role), n);
    SameSender(w, w', v, limit, ChanOf(p, role.Peer()));
    SameReceiver(w', v, v', limit, ChanOf(p, role.Peer()));
  }

  /** The decoder has yielded a frame, which carries the front of the channel, or nothing for a stream. */
  ghost predicate HasFrame(role: Role, v: Crossing.View, w: Crossing.View, p: Pair, limit: nat, f: Frame) {
    var (ch, w') := (ChanOf(p, role), w.(read := w.read + [f]));
    && v.end == EndOf(p, role) && w.end == EndOf(p, role.Peer()) && Crosses(w, v, limit, ChanOf(p, role.Peer()))
    && Echoes(v) && Echoes(w)
    && match PartIn(f, 0)
       case None => Crosses(v, w', limit, ch)
       case Some(part) => ch != [] && part == ch[0] && Crosses(v, w', limit, ch[1..])
  }

  method PollAt(x: Port, y: Port, ghost role: Role, ghost story: Story, ghost p: Pair) returns (next: Outcome)
    requires Sound(x, y, role, story, p)
    modifies y.Repr()
    ensures x.Valid() && y.Valid() && x.Repr() !! y.Repr() && fresh(y.Repr() - old(y.Repr())) && x.Repr() == old(x.Repr())
    ensures next.Pending? || (next.Yield? && next.decoded.Inbound?)
    ensures next.Pending? ==> Sound(x, y, role, story, p)
    ensures next.Yield? ==> HasFrame(role, x.View(), y.View(), p, x.reader.limit, next.decoded.frame)
  {
    hide Port.Valid, Port.View, LeadsTo, Crosses, Port.Repr, Decoder.Polls, PartIn;
    ghost var (v, w) := (x.View(), y.View());
    x.Parts();
    y.Parts();
    next := y.Poll();
    PollCrosses(v, w, x.reader.limit, ChanOf(p, role), next, if next.Failed? then [] else y.View().held, y.View().input);
    assert x.Repr() == old(x.Repr());
    assert x.Valid() && x.View() == v;
    SameSender(w, y.View(), v, x.reader.limit, ChanOf(p, role.Peer()));
  }

  method TakeAt(x: Port, y: Port, f: Frame, ghost role: Role, ghost story: Story, ghost p: Pair)
    returns (r: Result<(), Violation>, ghost story': Story, ghost p': Pair)
    requires x.Valid() && y.Valid() && x.Repr() !! y.Repr() && x.reader.limit == y.reader.limit && LeadsTo(story, p)
    requires HasFrame(role, x.View(), y.View(), p, x.reader.limit, f)
    modifies y.Repr()
    ensures r == Ok(()) && Sound(x, y, role, story', p') && Continues(story, story', []) && fresh(y.Repr() - old(y.Repr())) && x.Repr() == old(x.Repr())
  {
    hide Port.Valid, Port.View, LeadsTo, Crosses, Port.Repr, PartIn, Continues, Silent;
    ghost var (v, w) := (x.View(), y.View());
    x.Parts();
    y.IsEndView(p, role.Peer());
    var done, p1, actions := y.Take(f, story, p, role);
    r, story', p' := done, After(story, actions), p1;
    GoesOnSilently(story, p, actions);
    assert x.Repr() == old(x.Repr());
    assert x.Valid() && x.View() == v;
    TakeJoint(role, v, w, p, y.View(), p', x.reader.limit, f);
  }

  lemma TakeJoint(role: Role, v: Crossing.View, w: Crossing.View, p: Pair, w': Crossing.View, p': Pair, limit: nat, f: Frame)
    requires HasFrame(role, v, w, p, limit, f) && w' == w.(end := EndOf(p', role.Peer()), read := w.read + [f], owed := Owes(w, f))
    requires EndOf(p', role) == EndOf(p, role) && ChanOf(p', role.Peer()) == ChanOf(p, role.Peer())
    requires ChanOf(p', role) == if PartIn(f, 0).Some? then ChanOf(p, role)[1..] else ChanOf(p, role)
    ensures Joint(role, v, w', p', limit)
  {
    hide Crosses, PartIn;
    ReadEchoes(w, f, w');
    SameReceiver(v, w.(read := w.read + [f]), w', limit, ChanOf(p', role));
    SameSender(w, w', v, limit, ChanOf(p, role.Peer()));
  }

  /** The decoder of `y` is polled, and what it yields is processed. There is no violation. */
  method ReceiveAt(x: Port, y: Port, ghost role: Role, ghost story: Story, ghost p: Pair)
    returns (r: Result<(), Violation>, ghost story': Story, ghost p': Pair)
    requires Sound(x, y, role, story, p)
    modifies y.Repr()
    ensures r == Ok(()) && Sound(x, y, role, story', p') && Continues(story, story', []) && fresh(y.Repr() - old(y.Repr())) && x.Repr() == old(x.Repr())
  {
    hide Port.Valid, Port.View, LeadsTo, Port.Repr, HasFrame, Joint, Continues;
    var next := PollAt(x, y, role, story, p);
    r, story', p' := Ok(()), story, p;
    StaysSilent(story);
    if next.Yield? {
      ghost var repr := y.Repr();
      assert forall o <- repr :: o in old(y.Repr()) || fresh(o);
      label Polled:
      r, story', p' := TakeAt(x, y, next.decoded.frame, role, story, p);
      forall o | o in y.Repr() && o !in old(y.Repr())
        ensures fresh(o)
      {
        assert o in repr || fresh@Polled(o);
      }
    }
  }

  // Schedules.

  datatype Command =
    | Open(role: Role, key: nat)
    | Use(role: Role, k: Ref, call: AppCall)
    | Tick(role: Role)
    | Send(role: Role, allowances: Allowances)
    | Move(role: Role, n: nat, pieces: seq<nat>)
    | Poll(role: Role)

  /** One command, of the side `x` or of what `x` has sent. */
  method Obey(x: Port, y: Port, command: Command, ghost story: Story, ghost p: Pair)
    returns (r: Result<(), Violation>, said: seq<Said>, ghost story': Story, ghost p': Pair)
    requires Sound(x, y, command.role, story, p)
    modifies x.Repr(), y.Repr()
    ensures r == Ok(()) && Sound(x, y, command.role, story', p') && Continues(story, story', said)
    ensures fresh(x.Repr() - old(x.Repr())) && fresh(y.Repr() - old(y.Repr()))
  {
    hide Sound, Port.Repr, Continues;
    r, said, story', p' := Ok(()), [], story, p;
    StaysSilent(story);
    match command
    case Open(role, key) => story', p' := StartAt(x, y, key, role, story, p);
    case Use(role, k, call) => said, story', p' := UseAt(x, y, k, call, role, story, p);
    case Tick(role) => TickAt(x, y, role, story, p);
    case Send(role, allowances) => story', p' := SendAt(x, y, allowances, role, story, p);
    case Move(role, n, pieces) => CarryAt(x, y, n, pieces, role, story, p);
    case Poll(role) => r, story', p' := ReceiveAt(x, y, role, story, p);
  }

  ghost predicate Fresh(v: Crossing.View, role: Role, cfg: Config) {
    v == Crossing.View(Joined.End.End(NewEndpoint(role, cfg), 0), [], [], [], [], 0, [], [], [], None)
  }

  lemma NewJoint(v: Crossing.View, w: Crossing.View, client: Config, server: Config, limit: nat)
    requires Fresh(v, Client, client) && Fresh(w, Server, server)
    requires ConfigsMatch(client, server) && ConfigsMatch(server, client)
    ensures var p := StartPair(client, server); LeadsTo(Story(client, server, []), p) && Joint(Client, v, w, p, limit)
  {
    hide NewEndpoint;
  }

  lemma NewSound(client: Port, server: Port, cc: Config, sc: Config)
    requires client.Valid() && server.Valid() && client.Repr() !! server.Repr() && client.reader.limit == server.reader.limit
    requires Fresh(client.View(), Client, cc) && Fresh(server.View(), Server, sc) && ConfigsMatch(cc, sc) && ConfigsMatch(sc, cc)
    ensures Sound(client, server, Client, Story(cc, sc, []), StartPair(cc, sc))
  {
    hide Port.Valid, Port.View, Port.Repr, LeadsTo, Joint, Fresh;
    NewJoint(client.View(), server.View(), cc, sc, client.reader.limit);
  }

  /**
   * Any schedule. In whatever order the applications open and use streams, timers fire, the sides send, the transports
   * carry bytes and split them, and the decoders are polled: neither side reports a violation, and the two are always in a
   * state that a run of two endpoints leads to. What the applications were told fits together: whatever one reads is what
   * the other wrote.
   */
  method Drive(client: Port, server: Port, schedule: seq<Command>, ghost cc: Config, ghost sc: Config)
    returns (r: Result<(), Violation>, transcript: seq<Said>, ghost story: Story, ghost p: Pair)
    requires client.Valid() && server.Valid() && client.Repr() !! server.Repr() && client.reader.limit == server.reader.limit
    requires Fresh(client.View(), Client, cc) && Fresh(server.View(), Server, sc) && ConfigsMatch(cc, sc) && ConfigsMatch(sc, cc)
    modifies client.Repr(), server.Repr()
    ensures r == Ok(()) && Sound(client, server, Client, story, p) && story.client == cc && story.server == sc
    ensures transcript == Script(story) && exists names :: Mates(p, transcript, names)
  {
    hide Port.Valid, Port.View, Port.Repr, LeadsTo, Joint, Sound, Script, StartPair, Mates;
    NewSound(client, server, cc, sc);
    r, transcript, story, p := Ok(()), [], Story(cc, sc, []), StartPair(cc, sc);
    NothingWasSaid(cc, sc);
    var i := 0;
    while i < |schedule| && r.Ok?
      invariant i <= |schedule| && r == Ok(()) && Sound(client, server, Client, story, p) && story.client == cc && story.server == sc
      invariant transcript == Script(story)
      invariant fresh(client.Repr() - old(client.Repr())) && fresh(server.Repr() - old(server.Repr()))
    {
      ghost var (a, b) := (client.Repr(), server.Repr());
      assert forall o <- a :: o in old(client.Repr()) || fresh(o);
      assert forall o <- b :: o in old(server.Repr()) || fresh(o);
      label Before:
      var command, said := schedule[i], [];
      if command.role.Client? {
        r, said, story, p := Obey(client, server, command, story, p);
      } else {
        Swapped(client, server, Client, story, p);
        r, said, story, p := Obey(server, client, command, story, p);
        Swapped(server, client, Server, story, p);
      }
      i, transcript := i + 1, transcript + said;
      forall o | o in client.Repr() && o !in old(client.Repr())
        ensures fresh(o)
      {
        assert o in a || fresh@Before(o);
      }
      forall o | o in server.Repr() && o !in old(server.Repr())
        ensures fresh(o)
      {
        assert o in b || fresh@Before(o);
      }
    }
    SoundMates(client, server, story, p);
  }

  /** Whatever `PONG` a side has read, it echoes the time of a `PING` that this side has written. */
  lemma SoundEchoes(x: Port, y: Port, role: Role, story: Story, p: Pair, i: nat)
    requires Sound(x, y, role, story, p) && i < |y.read|
    ensures PingedIn(y.active.writer.frames, y.read[i].header.pong)
  {
    hide Port.Valid, Port.Repr, LeadsTo, Crosses, Echoes, PingedIn;
    PongsEcho(x.View(), y.View(), x.reader.limit, ChanOf(p, role), ChanOf(p, role.Peer()), i);
  }

  lemma NothingWasSaid(cc: Config, sc: Config)
    ensures Script(Story(cc, sc, [])) == []
  {
  }

  lemma SoundMates(client: Port, server: Port, story: Story, p: Pair)
    requires Sound(client, server, Client, story, p)
    ensures exists names :: Mates(p, Script(story), names)
  {
    hide Port.Valid, Port.View, Port.Repr, Joint, StartPair, Mates, PairNext;
    HeardWasSaid(story.client, story.server, story.actions);
    var start := StartPair(story.client, story.server);
    var names :| Mates(PairRun(start, story.actions).value, Says(start, story.actions), names);
    assert PairRun(start, story.actions).value == p;
    assert Script(story) == Says(start, story.actions);
    assert Mates(p, Script(story), names);
  }
}
