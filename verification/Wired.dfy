/** Two connection objects, joined by a wire: each of them stays an end of a run of `Joined`, so neither sees a violation. */
module Wired {
  import opened Prelude
  import opened Fins
  import opened StreamId
  import opened Endpoint
  import opened Local
  import opened System
  import opened Frames
  import opened Encoder
  import opened Yields
  import opened StreamTable
  import opened Connection
  import opened Joined
  import opened Exchange

  /** A run of two endpoints. */
  datatype Story = Story(client: Config, server: Config, actions: seq<Action>)

  ghost predicate LeadsTo(story: Story, p: Pair) {
    && ConfigsMatch(story.client, story.server) && ConfigsMatch(story.server, story.client)
    && PairRun(StartPair(story.client, story.server), story.actions) == Ok(p)
  }

  function After(story: Story, actions: seq<Action>): Story {
    story.(actions := story.actions + actions)
  }

  lemma GoesOn(story: Story, p: Pair, actions: seq<Action>)
    requires LeadsTo(story, p)
    ensures PairRun(p, actions).Ok? && LeadsTo(After(story, actions), PairRun(p, actions).value)
  {
    hide PairRun;
    var start := StartPair(story.client, story.server);
    JoinedNeverFail(story.client, story.server, story.actions + actions);
    PairRunAppend(start, story.actions, actions);
  }

  /** The object is one end of the pair. */
  ghost predicate IsEnd(a: Active, p: Pair, role: Role)
    reads a.streams, a.streams.flow.Repr()
  {
    EndOf(p, role) == Joined.End.End(a.streams.Value(), a.streams.next)
  }

  /** A frame that carries the next part arrives. There is no violation to report. */
  method Arrives(a: Active, f: Frame, ghost story: Story, ghost p: Pair, ghost role: Role) returns (r: Result<(), Violation>, ghost p': Pair)
    requires a.Valid() && LeadsTo(story, p) && IsEnd(a, p, role.Peer())
    requires ChanOf(p, role) != [] && PartIn(f, 0) == Some(ChanOf(p, role)[0])
    modifies a.pings, a.streams.Repr()
    ensures r == Ok(()) && a.Valid() && a.WriterKept() && fresh(a.Repr() - old(a.Repr()))
    ensures a.pings.owedPong == if f.header.ping.Some? then f.header.ping else old(a.pings.owedPong)
    ensures LeadsTo(After(story, [Delivers(role)]), p') && IsEnd(a, p', role.Peer())
    ensures EndOf(p', role) == EndOf(p, role)
    ensures ChanOf(p', role) == ChanOf(p, role)[1..] && ChanOf(p', role.Peer()) == ChanOf(p, role.Peer())
  {
    hide Active.Valid, LeadsTo, Receive, Streams.Value;
    GoesOn(story, p, [Delivers(role)]);
    PairRunOne(p, Delivers(role));
    p' := PairRun(p, [Delivers(role)]).value;
    r := a.Process(f);
  }

  /** A frame arrives that carries the next part, or nothing for a stream. */
  method Processes(a: Active, f: Frame, ghost story: Story, ghost p: Pair, ghost role: Role)
    returns (r: Result<(), Violation>, ghost p': Pair, ghost actions: seq<Action>)
    requires a.Valid() && LeadsTo(story, p) && IsEnd(a, p, role.Peer())
    requires PartIn(f, 0).Some? ==> ChanOf(p, role) != [] && PartIn(f, 0).value == ChanOf(p, role)[0]
    modifies a.pings, a.streams.Repr()
    ensures r == Ok(()) && a.Valid() && a.WriterKept() && fresh(a.Repr() - old(a.Repr()))
    ensures a.pings.owedPong == if f.header.ping.Some? then f.header.ping else old(a.pings.owedPong)
    ensures LeadsTo(After(story, actions), p') && IsEnd(a, p', role.Peer()) && EndOf(p', role) == EndOf(p, role)
    ensures ChanOf(p', role) == if PartIn(f, 0).Some? then ChanOf(p, role)[1..] else ChanOf(p, role)
    ensures ChanOf(p', role.Peer()) == ChanOf(p, role.Peer()) && forall i | 0 <= i < |actions| :: !actions[i].Calls?
  {
    hide Active.Valid, LeadsTo, Receive, Streams.Value;
    if f.header.stream.Some? {
      var done, p1 := Arrives(a, f, story, p, role);
      r, p', actions := done, p1, [Delivers(role)];
    } else {
      r := a.Process(f);
      p', actions := p, [];
      assert story.actions + [] == story.actions;
    }
  }

  // Sending.

  function PollActions(role: Role, polled: seq<(Ref, nat)>): seq<Action> {
    if polled == [] then [] else [Action.Polls(role, polled[0].0, polled[0].1)] + PollActions(role, polled[1..])
  }

  /** The pair with another state of one side, and more on its channel. */
  function Moved(p: Pair, role: Role, e: Endpoint, parts: seq<Part>): Pair {
    WithChanOf(WithEnd(p, role, EndOf(p, role).(e := e)), role, ChanOf(p, role) + UntaggedAll(parts))
  }

  /** A poll of a woken stream, as an action of the pair. */
  lemma PollActs(p: Pair, role: Role, k: Ref, allowance: nat)
    requires var x := EndOf(p, role); SideInv(x.e, x.next) && k in x.e.sh.awake
    ensures k in EndOf(p, role).e.streams
    ensures var (e, part) := Poll(EndOf(p, role).e, k, allowance);
            && SideInv(e, EndOf(p, role).next)
            && PairNext(p, Action.Polls(role, k, allowance)) == Ok(Moved(p, role, e, Yields.Then(part, [])))
  {
    hide SideInv, Poll;
    var x := EndOf(p, role);
    PollsMore(x.e, x.next, k, allowance);
    var part := Poll(x.e, k, allowance).1;
    assert part.None? ==> ChanOf(p, role) + UntaggedAll([]) == ChanOf(p, role);
    assert part.Some? ==> UntaggedAll([part.value]) == [part.value.(tag := 0)];
  }

  lemma {:induction false} UntaggedAppend(a: seq<Part>, b: seq<Part>)
    ensures UntaggedAll(a + b) == UntaggedAll(a) + UntaggedAll(b)
  {
    if a == [] {
      assert a + b == b;
    } else {
      UntaggedAppend(a[1..], b);
      var first := [a[0].(tag := 0)];
      assert (a + b)[1..] == a[1..] + b && (a + b)[0] == a[0];
      assert first + (UntaggedAll(a[1..]) + UntaggedAll(b)) == first + UntaggedAll(a[1..]) + UntaggedAll(b);
    }
  }

  lemma MovedTwice(p: Pair, role: Role, e1: Endpoint, part: Option<Part>, e2: Endpoint, parts: seq<Part>)
    ensures Moved(Moved(p, role, e1, Yields.Then(part, [])), role, e2, parts) == Moved(p, role, e2, Yields.Then(part, parts))
  {
    UntaggedAppend(Yields.Then(part, []), parts);
    assert Yields.Then(part, []) + parts == Yields.Then(part, parts);
    assert ChanOf(p, role) + UntaggedAll(Yields.Then(part, [])) + UntaggedAll(parts) == ChanOf(p, role) + UntaggedAll(Yields.Then(part, parts));
  }

  lemma {:induction false} PollsAct(p: Pair, role: Role, polled: seq<(Ref, nat)>)
    requires var x := EndOf(p, role); SideInv(x.e, x.next) && Follows(x.e, polled)
    ensures var (e, parts) := PollAll(EndOf(p, role).e, polled);
            PairRun(p, PollActions(role, polled)) == Ok(Moved(p, role, e, parts))
    decreases |polled|
  {
    hide SideInv, Poll, PairNext;
    var x := EndOf(p, role);
    if polled == [] {
      assert ChanOf(p, role) + UntaggedAll([]) == ChanOf(p, role);
    } else {
      var (k, allowance) := polled[0];
      var (e1, part) := Poll(x.e, k, allowance);
      PollActs(p, role, k, allowance);
      var p1 := Moved(p, role, e1, Yields.Then(part, []));
      PollsAct(p1, role, polled[1..]);
      var (e2, parts) := PollAll(e1, polled[1..]);
      MovedTwice(p, role, e1, part, e2, parts);
      assert PollActions(role, polled)[1..] == PollActions(role, polled[1..]);
    }
  }

  /** The send loop runs. What it put into frames is what is now on the channel to the peer. */
  method SendsOn(a: Active, allowances: Allowances, ghost story: Story, ghost p: Pair, ghost role: Role)
    returns (r: WritePoll, ghost p': Pair, ghost polled: seq<(Ref, nat)>, ghost parts: seq<Part>)
    requires a.Valid() && LeadsTo(story, p) && IsEnd(a, p, role)
    modifies a.pings, a.streams.Repr(), a.writer, a.writer.io, a.writer.pending
    modifies if a.writer.pending == null then {} else {a.writer.pending.encoded}
    ensures a.Valid() && fresh(a.Repr() - old(a.Repr())) && old(a.writer.io.output) <= a.writer.io.output
    ensures old(a.writer.outs) <= a.writer.outs && Carry(a.writer.outs[|old(a.writer.outs)|..], parts)
    ensures Paced(old(a.pings.Value()), a.writer.outs[|old(a.writer.outs)|..], a.pings.Value())
    ensures LeadsTo(After(story, PollActions(role, polled)), p') && IsEnd(a, p', role)
    ensures EndOf(p', role.Peer()) == EndOf(p, role.Peer())
    ensures ChanOf(p', role) == ChanOf(p, role) + UntaggedAll(parts) && ChanOf(p', role.Peer()) == ChanOf(p, role.Peer())
    ensures r == Ready ==> a.Idle()
  {
    hide Active.Valid, LeadsTo, Follows, PollAll, PollActions, Carry, Allowed, SideInv, Active.Idle, UntaggedAll, Paced, Pings.Value;
    a.SideOk();
    r, parts, polled := a.PollSend(allowances);
    GoesOn(story, p, PollActions(role, polled));
    PollsAct(p, role, polled);
    p' := PairRun(p, PollActions(role, polled)).value;
  }

  // The application.

  /** The application opens a stream. */
  method Starts(a: Active, key: nat, ghost story: Story, ghost p: Pair, ghost role: Role) returns (id: Option<Id>, ghost p': Pair)
    requires a.Valid() && LeadsTo(story, p) && IsEnd(a, p, role) && IsVacantKey(a.streams.Value(), key)
    modifies a.streams.Repr()
    ensures a.Valid() && a.WriterKept() && fresh(a.Repr() - old(a.Repr())) && a.pings.Value() == old(a.pings.Value())
    ensures LeadsTo(After(story, [Action.Opens(role, key)]), p') && IsEnd(a, p', role)
    ensures EndOf(p', role.Peer()) == EndOf(p, role.Peer()) && p'.up == p.up && p'.down == p.down
  {
    hide LeadsTo, OpenOutbound, Streams.Value, IsVacantKey, Active.Valid;
    GoesOn(story, p, [Action.Opens(role, key)]);
    PairRunOne(p, Action.Opens(role, key));
    p' := PairRun(p, [Action.Opens(role, key)]).value;
    id := a.StartStream(key);
  }

  /** The application writes, reads or closes. */
  method Uses(a: Active, k: Ref, call: AppCall, ghost story: Story, ghost p: Pair, ghost role: Role) returns (answer: Answer, ghost p': Pair)
    requires a.Valid() && LeadsTo(story, p) && IsEnd(a, p, role) && k in a.streams.objects
    modifies a.streams.Repr()
    ensures a.Valid() && a.WriterKept() && a.Repr() == old(a.Repr()) && a.pings.Value() == old(a.pings.Value())
    ensures k in EndOf(p, role).e.streams && answer == AnswerTo(EndOf(p, role).e.streams[k], call)
    ensures LeadsTo(After(story, [Action.Calls(role, k, call)]), p') && IsEnd(a, p', role)
    ensures EndOf(p', role.Peer()) == EndOf(p, role.Peer()) && p'.up == p.up && p'.down == p.down
  {
    hide LeadsTo, Call, Streams.Value, Active.Valid, AnswerTo;
    GoesOn(story, p, [Action.Calls(role, k, call)]);
    PairRunOne(p, Action.Calls(role, k, call));
    p' := PairRun(p, [Action.Calls(role, k, call)]).value;
    answer := a.UseStream(k, call);
  }
}
