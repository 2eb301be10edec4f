/** A stream, and the streams of a connection, as the objects that are updated in place. They refine `Endpoint`. */
module StreamTask {
  import opened Prelude
  import opened Fins
  import opened Flow
  import opened SharedFlow
  import opened ConnFlow
  import opened StreamId
  import opened Endpoint
  import opened Sending
  import opened Receiving
  import opened TurnQueue
  import Outbound
  import Inbound

  /** One poll of the task of a stream: what `Endpoint.Poll` does to the stream and to what the streams share. */
  function TaskStep(cfg: Config, k: Ref, s: Stream, sh: Shared, allowance: nat): (Stream, Shared, Option<Part>) {
    var ip := Inbound.PollIn(s.inn, sh, cfg.localWindow, CreditThreshold(cfg.localWindow));
    var op := Outbound.PollOut(k, s.out, ip.sh, cfg.remoteWindow, cfg.frameLimit, allowance);
    var s' := s.(out := op.o, inn := ip.i);
    if ip.sent.None? && op.sent.None? then (s', op.sh, None)
    else (s'.(syn := false), op.sh, Some(PartOf(k, s, ip.sent, op.sent)))
  }

  /** The task is being polled. */
  function Asleep(sh: Shared, k: Ref): Shared {
    sh.(awake := sh.awake - {k})
  }

  class StreamState {
    const me: Ref
    const id: Id
    /** Set until the first part is yielded. */
    var syn: bool
    const outbound: OutboundTraffic
    const inbound: InboundTraffic
    ghost const repr: set<object>

    constructor (me: Ref, id: Id, syn: bool, cfg: Config)
      ensures this.me == me && Of(cfg) && Value() == NewStream(id, syn) && fresh(repr)
    {
      this.me, this.id, this.syn := me, id, syn;
      var o := new OutboundTraffic(cfg.frameLimit, cfg.remoteWindow);
      var i := new InboundTraffic(cfg.localWindow);
      outbound, inbound := o, i;
      repr := {this, o, o.ledger.window, i, i.window};
    }

    /** The stream was created with this configuration. */
    ghost predicate Of(cfg: Config) {
      && outbound.ledger.frameLimit == cfg.frameLimit && outbound.ledger.window.base == cfg.remoteWindow
      && inbound.window.base == cfg.localWindow && inbound.creditThreshold == CreditThreshold(cfg.localWindow)
      && outbound.ledger.window != inbound.window
      && repr == {this, outbound, outbound.ledger.window, inbound, inbound.window}
    }

    ghost function Value(): Stream
      reads this, outbound, outbound.ledger.window, inbound, inbound.window
    {
      Stream(id, syn, outbound.Value(), inbound.Value())
    }

    /** The shares of the stream are a part of what is used. */
    ghost predicate Fits(flow: ConnFlow)
      reads this, outbound, outbound.ledger.window, inbound, inbound.window
      reads flow.rxPool, flow.txPool, flow.turns, flow.wakers
    {
      outbound.ledger.Fits(flow) && inbound.Fits(flow.rxPool)
    }

    /** A call of the application. */
    method Call(call: AppCall, wakers: Wakers, ghost cfg: Config) returns (answer: Answer)
      requires Of(cfg) && (inbound.state.HalfClosed? ==> inbound.state.ready != [])
      modifies repr, wakers
      ensures Value() == Called(old(Value()), call) && answer == AnswerTo(old(Value()), call)
      ensures wakers.awake == if CallWakes(old(Value()), call, CreditThreshold(cfg.localWindow)) then old(wakers.awake) + {me} else old(wakers.awake)
    {
      answer := Done;
      match call
      case Write(data) =>
        var result := outbound.Write(data, wakers, me);
        answer := Wrote(result);
      case CloseWriting => outbound.CloseWriting(wakers, me);
      case Read =>
        var read := inbound.PollRead(wakers, me);
        answer := Got(read);
      case CloseReading => inbound.CloseReading(wakers, me);
    }

    lemma NewFits(flow: ConnFlow)
      requires flow.Valid() && Value() == NewStream(Value().id, Value().syn)
      ensures Fits(flow)
    {
    }

    function FinState(): (f: Fins.FinState)
      reads this, outbound, outbound.ledger.window, inbound, inbound.window
      ensures f == StreamFin(Value())
    {
      inbound.FinState().And(outbound.FinState())
    }

    /** The selector polls the task, which clears its wake-up. */
    method PollProgress(flow: ConnFlow, ghost cfg: Config, allowance: nat) returns (part: Option<Part>)
      requires Of(cfg) && Fits(flow) && cfg.frameLimit > 0
      modifies repr, flow.Repr()
      ensures flow.Valid()
      ensures (Value(), flow.Value(), part) == TaskStep(cfg, me, old(Value()), Asleep(old(flow.Value()), me), allowance)
    {
      hide Inbound.PollIn, Outbound.PollOut;
      flow.wakers.Clear(me);
      var credit := inbound.PollUpdate(flow);
      var chunk := outbound.PollUpdate(flow, me, allowance);
      if credit.None? && chunk.None? {
        return None;
      }
      part := Some(Part(me, id, syn,
                        credit.Some? && credit.value.fin, chunk.Some? && chunk.value.fin,
                        if credit.Some? then credit.value.amount else 0,
                        if chunk.Some? then chunk.value.data else []));
      syn := false;
    }

    /** `Endpoint.Received` in place, step by step. */
    method ReceivedFrame(flow: ConnFlow, ghost cfg: Config, part: Part) returns (r: Result<Fins.FinState, Violation>)
      requires Of(cfg) && Fits(flow)
      modifies repr, flow.Repr()
      ensures flow.Valid()
      ensures match Received(cfg, me, old(Value()), old(flow.Value()), part)
              case Err(e) => r == Err(e)
              case Ok((s, sh)) => Value() == s && flow.Value() == sh && r == Ok(StreamFin(s))
    {
      hide Outbound.ReceivedWindow, Inbound.ReceivedData, Inbound.ReceivedFinWrite, Outbound.ReceivedFinRead, StreamFin, Distinct;
      if part.credit > 0 {
        WindowFits(flow, cfg, part.credit);
        var w := outbound.ReceivedWindowUpdate(part.credit, flow, me);
        if w.Err? {
          return Err(w.error);
        }
      }
      DataFits(flow, cfg, part.data);
      var d := inbound.ReceivedData(part.data, flow);
      if d.Err? {
        return Err(d.error);
      }
      if part.finWrite {
        var w := inbound.ReceivedFinWrite(flow.wakers, me);
        if w.Err? {
          return Err(w.error);
        }
      }
      if part.finRead {
        var f := outbound.ReceivedFinRead(flow, me);
        if f.Err? {
          return Err(f.error);
        }
      }
      return Ok(FinState());
    }

    lemma WindowFits(flow: ConnFlow, cfg: Config, credit: nat)
      requires Of(cfg) && Fits(flow)
      ensures var r := Outbound.ReceivedWindow(me, outbound.Value(), flow.Value(), cfg.remoteWindow, credit);
              r.Ok? ==> Borrowed(r.value.0.unacked, cfg.remoteWindow) <= r.value.1.txUsed && r.value.1.rxUsed == flow.rxPool.used
    {
    }

    lemma DataFits(flow: ConnFlow, cfg: Config, data: Bytes)
      requires Of(cfg) && Fits(flow)
      ensures var r := Inbound.ReceivedData(inbound.Value(), flow.Value(), cfg.localWindow, data);
              r.Ok? ==> r.value.1.txUsed == flow.txPool.used
    {
    }
  }
}

module StreamTable {
  import opened Prelude
  import opened Fins
  import opened SharedFlow
  import opened ConnFlow
  import opened StreamId
  import opened Endpoint
  import opened Local
  import opened Yields
  import opened StreamTask
  import opened Sending
  import opened Receiving
  import Flow
  import Outbound
  import Inbound
  import Pools
  import Wakeups
  import Tables
  import Progress

  lemma StreamFits(e: Endpoint, n: nat, k: Ref)
    requires SideInv(e, n) && k in e.streams
    ensures e.cfg.frameLimit > 0 && Pools.Fits(e.cfg, e.streams[k], e.sh)
    ensures e.streams[k].inn.credit <= e.streams[k].inn.unacked
  {
    hide Wakeups.WakeInv, Tables.TableInv, Total;
    Pools.ShareFits(e, n, k);
    assert StreamOk(e.streams[k]);
  }

  /** One side: the tables of the live streams, the selector, the stream objects, and what these share. */
  class Streams {
    const role: Role
    const cfg: Config
    var outbound: map<nat, Ref>
    /** How many slots the slab has allocated. */
    var slots: nat
    var inbound: map<Id, Ref>
    var tasks: set<Ref>
    const flow: ConnFlow
    /** All stream objects by reference, and the next unused reference. */
    var objects: map<Ref, StreamState>
    var next: Ref
    /** What the objects are, as values. */
    ghost var streams: map<Ref, Stream>

    ghost predicate Separate()
      reads `objects
    {
      Disjoint(objects)
    }

    /** No object belongs to two streams. */
    ghost predicate Disjoint(objects: map<Ref, StreamState>) {
      && (forall k <- objects :: objects[k].me == k && objects[k].Of(cfg) && this !in objects[k].repr && objects[k].repr !! flow.Repr())
      && (forall j <- objects, k <- objects :: j != k ==> objects[j].repr !! objects[k].repr)
    }

    lemma DisjointMore(objects: map<Ref, StreamState>, k: Ref, stream: StreamState)
      requires Disjoint(objects) && k !in objects && stream.me == k && stream.Of(cfg)
      requires this !in stream.repr && stream.repr !! flow.Repr() && forall j <- objects :: objects[j].repr !! stream.repr
      ensures Disjoint(objects[k := stream])
    {
      hide StreamState.Of;
    }

    ghost function Repr(): set<object>
      reads `objects
    {
      {this} + flow.Repr() + StreamRepr()
    }

    ghost function StreamRepr(): set<object>
      reads `objects
    {
      set k <- objects, o <- objects[k].repr :: o
    }

    /** The objects are separate, and they are what `streams` says. */
    ghost predicate Agree()
      reads `objects, `streams, StreamRepr()
    {
      Separate() && streams.Keys == objects.Keys && forall k <- objects :: objects[k].Value() == streams[k]
    }

    ghost function Value(): Endpoint
      reads this, flow.Repr()
    {
      Endpoint(role, cfg, outbound, slots, inbound, streams, tasks, flow.Value())
    }

    ghost predicate Valid()
      reads Repr()
    {
      Agree() && flow.Valid() && SideInv(Value(), next)
    }

    constructor (role: Role, cfg: Config)
      requires ConfigOk(cfg)
      ensures Valid() && Value() == NewEndpoint(role, cfg) && this.cfg == cfg && next == 0 && fresh(Repr())
    {
      hide SideInv;
      this.role, this.cfg := role, cfg;
      outbound, slots, inbound, tasks, objects, next, streams := map[], 0, map[], {}, map[], 0, map[];
      flow := new ConnFlow(cfg.localPool, cfg.remotePool);
      NewSide(role, cfg);
    }

    /** A stream that is in the table fits into what the pools account for. */
    lemma Fitting(k: Ref)
      requires Valid() && k in objects
      ensures objects[k].Fits(flow) && cfg.frameLimit > 0 && k in streams
    {
      hide SideInv;
      StreamFits(Value(), next, k);
    }

    method Remove(id: Id)
      requires Agree()
      modifies `outbound, `inbound
      ensures Agree() && Value() == Forget(old(Value()), id)
    {
      hide Separate, StreamState.Value;
      if InitiatedBy(id) == role {
        outbound := outbound - {SlabIdx(id)};
      } else {
        inbound := inbound - {id};
      }
    }

    /** The tables or the shared state have changed, and the streams have not. */
    twostate lemma StillAgree()
      requires old(Agree()) && objects == old(objects) && streams == old(streams)
      requires forall j <- objects :: objects[j].Value() == old(objects[j].Value())
      ensures Agree()
    {
      hide Separate, StreamState.Value;
    }

    /** The task of a stream has yielded: it is polled again, unless both `FIN_*` are sent. */
    method Settle(k: Ref, fin: FinState, id: Id)
      requires flow.Valid() && Agree() && k in streams && fin == StreamFin(streams[k]) && id == streams[k].id
      modifies `outbound, `inbound, `tasks, flow.turns, flow.wakers
      ensures flow.Valid() && Agree() && Value() == Yielded(old(Value()), k, streams[k], old(flow.Value()))
    {
      hide PassTurn, StreamFin, Forget, StreamState.Value, Agree, ConnFlow.Valid;
      assert streams[k := streams[k]] == streams;
      if !fin.sent {
        flow.wakers.Wake(k);
      } else {
        flow.PassTurn(k);
        flow.wakers.Clear(k);
        tasks := tasks - {k};
      }
      StillAgree();
      if fin.IsDead() {
        Remove(id);
      }
    }

    lemma SeparateOne(k: Ref)
      requires Agree() && k in objects
      ensures k in streams && streams[k] == objects[k].Value()
      ensures objects[k].me == k && objects[k].Of(cfg) && this !in objects[k].repr && objects[k].repr !! flow.Repr()
      ensures forall j <- objects :: j != k ==> objects[j].Of(cfg) && objects[j].repr !! flow.Repr() && objects[j].repr !! objects[k].repr
    {
    }

    ghost predicate OthersAgree(k: Ref)
      reads `objects, `streams, StreamRepr()
    {
      && Separate() && streams.Keys == objects.Keys && k in objects
      && forall j <- objects :: j != k ==> objects[j].Value() == streams[j]
    }

    /** One stream has changed, and the others have not. */
    twostate lemma OthersStillAgree(k: Ref)
      requires old(Agree()) && objects == old(objects) && streams == old(streams) && k in objects
      requires forall j <- objects :: j != k ==> objects[j].Value() == old(objects[j].Value())
      ensures OthersAgree(k)
    {
      hide Separate, StreamState.Value;
    }

    /** The object of a stream has changed. */
    ghost method Record(k: Ref)
      requires OthersAgree(k)
      modifies `streams
      ensures Agree() && streams == old(streams)[k := objects[k].Value()]
    {
      hide StreamState.Value, Separate;
      ghost var s := objects[k].Value();
      streams := streams[k := s];
      assert forall j <- objects :: objects[j].Value() == old(objects[j].Value());
      assert streams.Keys == old(streams.Keys);
    }

    /** The task of a stream does what it can. */
    method RunTask(k: Ref, allowance: nat) returns (part: Option<Part>)
      requires Agree() && flow.Valid() && k in objects && objects[k].Fits(flow) && cfg.frameLimit > 0
      modifies flow.Repr(), objects[k].repr
      ensures flow.Valid() && OthersAgree(k) && unchanged(this) && k in streams && objects[k].id == streams[k].id
      ensures (objects[k].Value(), flow.Value(), part) == TaskStep(cfg, k, streams[k], Asleep(old(flow.Value()), k), allowance)
    {
      hide TaskStep, StreamState.Fits, OutboundTraffic.Value, InboundTraffic.Value, Agree, OthersAgree, ConnFlow.Value, ConnFlow.Valid, Asleep;
      SeparateOne(k);
      part := objects[k].PollProgress(flow, cfg, allowance);
      OthersStillAgree(k);
    }

    /** The selector polls a task. */
    method PollTask(k: Ref, allowance: nat) returns (part: Option<Part>)
      requires Valid() && k in tasks && k in objects
      modifies Repr()
      ensures Valid() && (Value(), part) == Poll(old(Value()), k, allowance)
      ensures objects == old(objects) && next == old(next)
    {
      hide SideInv, TaskStep, Yielded, Poll, Separate, Agree, OthersAgree, OutboundTraffic.Value, InboundTraffic.Value, ConnFlow.Valid, StreamState.Fits, Asleep;
      ghost var e := Value();
      Fitting(k);
      part := RunTask(k, allowance);
      Record(k);
      PollSteps(e, next, k, allowance);
      if part.Some? {
        var fin := objects[k].FinState();
        assert objects[k].Value().id == objects[k].id;
        Settle(k, fin, objects[k].id);
      }
    }

    /** The selector polls the tasks that were woken, until one of them has something to send. */
    method PollUpdate(allowances: Allowances, from: nat) returns (part: Option<Part>, polls: nat, ghost polled: seq<(Ref, nat)>)
      requires Valid()
      modifies Repr()
      ensures Valid() && objects == old(objects) && next == old(next)
      ensures Ran(allowances, from, old(Value()), polled, Value(), Then(part, [])) && polls == |polled|
      ensures part.None? ==> flow.wakers.awake == {} && SideWeight(Value(), next) == old(SideWeight(Value(), next))
      ensures part.Some? ==> LegalPart(part.value, cfg.frameLimit) && SideWeight(Value(), next) < old(SideWeight(Value(), next))
      decreases Progress.Busy(Value())
    {
      hide SideInv, Poll, Separate, StreamState.Value, SideWeight, LegalPart, ConnFlow.Valid, Ran, Then;
      RanNothing(allowances, from, Value());
      if flow.wakers.awake == {} {
        return None, 0, [];
      }
      var k :| k in flow.wakers.awake;
      var allowance := allowances(from, k);
      PollsMore(Value(), next, k, allowance);
      RanOne(allowances, from, Value(), k);
      ghost var e := Value();
      part := PollTask(k, allowance);
      if part.Some? {
        return part, 1, [(k, allowance)];
      }
      Progress.PollBusy(e, k, allowance);
      ghost var rest;
      part, polls, rest := PollUpdate(allowances, from + 1);
      RanStep(allowances, from, e, k, rest, Value(), Then(part, []));
      polls, polled := polls + 1, [(k, allowance)] + rest;
    }

    /** Takes the task of a new stream. */
    method Push(stream: StreamState)
      requires Agree() && flow.Valid() && next !in objects && Disjoint(objects[next := stream])
      modifies `objects, `streams, `tasks, flow.wakers
      ensures Agree() && flow.Valid() && objects == old(objects)[next := stream]
      ensures Value() == Created(old(Value()), next, old(stream.Value()))
    {
      hide StreamState.Value, Agree, ConnFlow.Valid, Disjoint;
      flow.wakers.Wake(next);
      ghost var s := stream.Value();
      objects, tasks, streams := objects[next := stream], tasks + {next}, streams[next := s];
      assert stream.Value() == s == old(stream.Value());
      MoreAgree(stream);
    }

    /** There is one more stream, and the others have not changed. */
    twostate lemma MoreAgree(stream: StreamState)
      requires old(Agree()) && next !in old(objects) && Disjoint(objects)
      requires objects == old(objects)[next := stream] && streams == old(streams)[next := stream.Value()]
      requires forall j <- old(objects) :: old(objects)[j].Value() == old(objects[j].Value())
      ensures Agree()
    {
      hide StreamState.Value, Disjoint;
    }

    /** The application calls a stream that it holds. */
    method Calls(k: Ref, call: AppCall) returns (answer: Answer)
      requires Valid() && k in objects
      modifies Repr()
      ensures Valid() && k in old(Value()).streams && Value() == Call(old(Value()), k, call)
      ensures answer == AnswerTo(old(Value()).streams[k], call)
      ensures objects == old(objects) && next == old(next)
    {
      hide SideInv, Agree, OthersAgree, Called, CallWakes, StreamState.Value, ConnFlow.Valid, AnswerTo;
      Reach(k);
      CallSteps(Value(), next, k, call);
      answer := RunCall(k, call);
      Record(k);
    }

    /** A half-closed stream has something to read. */
    lemma Reach(k: Ref)
      requires Valid() && k in objects
      ensures k in streams && (objects[k].inbound.state.HalfClosed? ==> objects[k].inbound.state.ready != [])
    {
      hide LocalInv, Separate;
      assert StreamOk(streams[k]);
    }

    method RunCall(k: Ref, call: AppCall) returns (answer: Answer)
      requires Agree() && flow.Valid() && k in objects
      requires objects[k].inbound.state.HalfClosed? ==> objects[k].inbound.state.ready != []
      modifies flow.wakers, objects[k].repr
      ensures flow.Valid() && OthersAgree(k) && unchanged(this) && k in streams
      ensures objects[k].Value() == Called(streams[k], call) && answer == AnswerTo(streams[k], call)
      ensures flow.Value() == if CallWakes(streams[k], call, Flow.CreditThreshold(cfg.localWindow)) then Wake(old(flow.Value()), k) else old(flow.Value())
    {
      hide Called, CallWakes, StreamState.Value, Agree, OthersAgree, ConnFlow.Valid, AnswerTo;
      SeparateOne(k);
      answer := objects[k].Call(call, flow.wakers, cfg);
      OthersStillAgree(k);
    }

    /** Creates a stream and its task. */
    method Create(id: Id, syn: bool) returns (stream: StreamState)
      requires Agree() && flow.Valid() && next !in objects
      modifies `objects, `streams, `tasks, flow.wakers
      ensures Agree() && flow.Valid() && objects == old(objects)[next := stream] && fresh(stream.repr)
      ensures stream.Fits(flow)
      ensures Value() == Created(old(Value()), next, NewStream(id, syn))
    {
      hide StreamState.Value, StreamState.Of, ConnFlow.Valid, ConnFlow.Value, Disjoint, Created;
      stream := new StreamState(next, id, syn, cfg);
      assert forall j <- objects :: objects[j].repr !! stream.repr;
      DisjointMore(objects, next, stream);
      assert Agree();
      Push(stream);
      assert stream.Value() == NewStream(id, syn);
      stream.NewFits(flow);
    }

    /** Whether the slab would pick this slot. */
    predicate IsNextSlot(key: nat): (b: bool)
      reads this, flow.Repr()
      ensures b == IsVacantKey(Value(), key)
    {
      if |outbound| == slots then key == slots else key < slots && key !in outbound
    }

    /** A new stream in the slot that the slab picked, or nothing at a limit. */
    method StartOutbound(key: nat) returns (id: Option<Id>)
      requires Valid() && IsVacantKey(Value(), key)
      modifies Repr()
      ensures Valid() && fresh(Repr() - old(Repr()))
      ensures match OpenOutbound(old(Value()), key, old(next))
              case None => id.None? && Value() == old(Value()) && next == old(next)
              case Some((e, id')) => id == Some(id') && Value() == e && next == old(next) + 1
    {
      hide SideInv, Agree, ConnFlow.Valid, StreamState.Fits;
      if |outbound| >= cfg.maxOutbound {
        return None;
      }
      id := FromSlabIdx(key, role);
      if id.None? {
        return None;
      }
      OpensKeeps(Value(), next, key);
      NextUnused();
      var _ := Create(id.value, true);
      Insert(key);
    }

    /** The slab takes the new stream. */
    method Insert(key: nat)
      requires Agree()
      modifies `outbound, `slots, `next
      ensures Agree() && next == old(next) + 1
      ensures Value() == old(Value()).(outbound := old(outbound)[key := old(next)], slots := if key < old(slots) then old(slots) else key + 1)
    {
      hide Separate, StreamState.Value;
      outbound, slots, next := outbound[key := next], if key < slots then slots else key + 1, next + 1;
    }

    /** The hash map takes the new stream. */
    method InsertInbound(id: Id, k: Ref)
      requires Agree()
      modifies `inbound
      ensures Agree() && Value() == old(Value()).(inbound := old(inbound)[id := k])
    {
      hide Agree, StreamState.Value;
      inbound := inbound[id := k];
      StillAgree();
    }

    /** A frame is handed to its stream. */
    method Deliver(k: Ref, part: Part) returns (r: Result<FinState, Violation>)
      requires Agree() && flow.Valid() && k in objects && objects[k].Fits(flow)
      modifies flow.Repr(), objects[k].repr
      ensures flow.Valid() && OthersAgree(k) && unchanged(this) && k in streams
      ensures match Received(cfg, k, streams[k], old(flow.Value()), part)
              case Err(e) => r == Err(e)
              case Ok((s, sh)) => objects[k].Value() == s && flow.Value() == sh && r == Ok(StreamFin(s))
    {
      hide Received, StreamFin, StreamState.Fits, OutboundTraffic.Value, InboundTraffic.Value, Agree, OthersAgree, ConnFlow.Value, ConnFlow.Valid;
      SeparateOne(k);
      r := objects[k].ReceivedFrame(flow, cfg, part);
      OthersStillAgree(k);
    }

    /** A frame is handed to its stream, which is forgotten if that closes it. */
    method Handle(k: Ref, part: Part) returns (r: Result<(), Violation>)
      requires Agree() && flow.Valid() && k in objects && objects[k].Fits(flow)
      modifies `streams, `outbound, `inbound, flow.Repr(), objects[k].repr
      ensures match Handled(old(Value()), k, part)
              case Err(e) => r == Err(e)
              case Ok(e) => r == Ok(()) && Agree() && flow.Valid() && Value() == e
      ensures objects == old(objects) && next == old(next)
    {
      hide Received, StreamState.Fits, StreamFin, Agree, OthersAgree, ConnFlow.Valid, Forget;
      var fin := Deliver(k, part);
      if fin.Err? {
        return Err(fin.error);
      }
      Record(k);
      if fin.value.IsDead() {
        Remove(part.id);
      }
      return Ok(());
    }

    /** `Endpoint.Receive` in place. A stream that it starts gets the next unused reference. */
    method ReceivePart(part: Part) returns (r: Result<(), Violation>)
      requires Valid()
      modifies Repr()
      ensures match Receive(old(Value()), part.(tag := old(next)))
              case Err(e) => r == Err(e)
              case Ok(e) => r == Ok(()) && Valid() && Value() == e && next == old(next) + 1 && fresh(Repr() - old(Repr()))
    {
      hide SideInv, Agree, ConnFlow.Valid, Receive;
      var named := part.(tag := next);
      ReceiveSteps(Value(), next, named);
      r := Place(named);
      if r.Ok? {
        Advance();
      }
    }

    /** The frame goes to its stream, old or new. The tables agree with the objects, but the reference is not used up yet. */
    method Place(part: Part) returns (r: Result<(), Violation>)
      requires Valid() && part.tag == next
      modifies Repr()
      ensures next == old(next)
      ensures match Receive(old(Value()), part)
              case Err(e) => r == Err(e)
              case Ok(e) => r == Ok(()) && Value() == e && Agree() && flow.Valid()
      ensures objects == old(objects) || (next in objects && fresh(objects[next].repr) && objects == old(objects)[next := objects[next]])
    {
      hide SideInv, Agree, ConnFlow.Valid, StreamState.Fits, Found, Handled, Receive;
      ReceiveSteps(Value(), next, part);
      assert part.(tag := next) == part;
      var k :- Find(part);
      r := Handle(k, part);
    }

    /** References are never used again. */
    method Advance()
      requires Agree()
      modifies `next
      ensures Agree() && next == old(next) + 1
    {
      hide Separate, StreamState.Value;
      next := next + 1;
    }

    /** Finds the stream of a frame, or creates it. */
    method Find(part: Part) returns (r: Result<Ref, Violation>)
      requires Valid()
      modifies `objects, `streams, `tasks, `inbound, flow.wakers
      ensures next == old(next)
      ensures match Found(old(Value()), part.(tag := next))
              case Err(e) => r == Err(e)
              case Ok((e, k)) => r == Ok(k) && Value() == e && Agree() && flow.Valid() && k in objects && objects[k].Fits(flow)
      ensures objects == old(objects) || (next in objects && fresh(objects[next].repr) && objects == old(objects)[next := objects[next]])
    {
      hide SideInv, Agree, ConnFlow.Valid;
      var id := part.id;
      if InitiatedBy(id) == role {
        if part.syn {
          return Err(WrongIdPool);
        }
        if SlabIdx(id) !in outbound {
          return Err(UnknownStream);
        }
        Finds(id);
        return Ok(outbound[SlabIdx(id)]);
      }
      if id in inbound {
        if part.syn {
          return Err(OccupiedId);
        }
        Finds(id);
        return Ok(inbound[id]);
      }
      if !part.syn {
        return Err(UnknownStream);
      }
      if |inbound| >= cfg.maxInbound {
        return Err(TooManyStreams);
      }
      NextUnused();
      var stream := Create(id, false);
      InsertInbound(id, next);
      return Ok(next);
    }

    /** The streams in the tables exist. */
    lemma Finds(id: Id)
      requires Valid() && Lookup(Value(), id).Some?
      ensures var k := Lookup(Value(), id).value; k in objects && objects[k].Fits(flow)
    {
      hide Wakeups.WakeInv, Pools.PoolInv, StreamsOk, Separate, StreamState.Value, Lookup;
      Lookups(Value(), next, id);
      Fitting(Lookup(Value(), id).value);
    }

    lemma NextUnused()
      requires Valid()
      ensures next !in objects
    {
      hide Wakeups.WakeInv, Tables.TableInv, StreamsOk, Separate;
    }
  }

  /** The stream that a frame is for, and the tables with it. */
  function Found(e: Endpoint, part: Part): Result<(Endpoint, Ref), Violation> {
    match Lookup(e, part.id)
    case Some(k) =>
      if part.syn then Err(if InitiatedBy(part.id) == e.role then WrongIdPool else OccupiedId) else Ok((e, k))
    case None =>
      if !part.syn then Err(UnknownStream)
      else if InitiatedBy(part.id) == e.role then Err(WrongIdPool)
      else if |e.inbound| >= e.cfg.maxInbound then Err(TooManyStreams)
      else Ok((Created(e, part.tag, NewStream(part.id, false)).(inbound := e.inbound[part.id := part.tag]), part.tag))
  }

  /** `Endpoint.Receive` in two steps. */
  lemma ReceiveSteps(e: Endpoint, n: nat, part: Part)
    requires SideInv(e, n) && part.tag == n
    ensures match Found(e, part)
            case Err(v) => Receive(e, part) == Err(v)
            case Ok((e', k)) => Receive(e, part) == Handled(e', k, part)
    ensures Receive(e, part).Ok? ==> SideInv(Receive(e, part).value, n + 1)
  {
    hide SideInv, Handled, Lookup;
    if Receive(e, part).Ok? {
      ReceivesKeeps(e, n, part);
    }
  }

  lemma CallSteps(e: Endpoint, n: nat, k: Ref, call: AppCall)
    requires SideInv(e, n) && k in e.streams
    ensures SideInv(Call(e, k, call), n)
  {
    hide SideInv;
    DoKeeps(e, n, Op.Calls(k, call));
  }

  /** `Endpoint.Poll` in terms of the task of the stream. */
  lemma PollSteps(e: Endpoint, n: nat, k: Ref, allowance: nat)
    requires SideInv(e, n) && k in e.streams && k in e.tasks
    ensures var (s, sh, part) := TaskStep(e.cfg, k, e.streams[k], Asleep(e.sh, k), allowance);
            Poll(e, k, allowance) == (if part.None? then Updated(e, k, s, sh) else Yielded(Updated(e, k, s, sh), k, s, sh), part)
    ensures SideInv(Poll(e, k, allowance).0, n)
  {
    hide Inbound.PollIn, Outbound.PollOut, PassTurn, Forget, StreamFin, SideInv;
    var (s, sh, part) := TaskStep(e.cfg, k, e.streams[k], Asleep(e.sh, k), allowance);
    assert e.streams[k := s][k := s] == e.streams[k := s];
    DoKeeps(e, n, Op.Polls(k, allowance));
  }
}
