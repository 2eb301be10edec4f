/** What one side keeps on its own, whatever its application and its peer do. */
module Local {
  import opened Prelude
  import opened Fins
  import opened SharedFlow
  import opened StreamId
  import opened Endpoint
  import Direction
  import Outbound
  import Inbound
  import Wakeups
  import Pools
  import Tables

  ghost predicate LocalInv(e: Endpoint, n: nat) {
    Wakeups.WakeInv(e) && Pools.PoolInv(e, n) && Tables.TableInv(e)
  }

  lemma CallLocal(e: Endpoint, n: nat, k: Ref, call: AppCall)
    requires LocalInv(e, n) && k in e.streams
    ensures LocalInv(Call(e, k, call), n)
  {
    hide Wakeups.WakeInv, Pools.PoolInv, Tables.TableInv, Call;
    Wakeups.CallKeeps(e, k, call);
    Pools.CallKeeps(e, n, k, call);
    Tables.CallKeeps(e, k, call);
  }

  lemma PollLocal(e: Endpoint, n: nat, k: Ref, allowance: nat)
    requires LocalInv(e, n) && k in e.tasks && k in e.streams
    requires e.cfg.frameLimit >= 1
    ensures LocalInv(Poll(e, k, allowance).0, n)
  {
    hide Pools.PoolInv, Tables.TableInv, Poll;
    Wakeups.PollKeeps(e, k, allowance);
    Pools.PollKeeps(e, n, k, allowance);
    assert Wakeups.TaskOk(e, k);
    Tables.PollKeeps(e, k, allowance);
  }

  lemma OpenLocal(e: Endpoint, n: nat, key: nat)
    requires LocalInv(e, n) && IsVacantKey(e, key) && OpenOutbound(e, key, n).Some?
    ensures LocalInv(OpenOutbound(e, key, n).value.0, n + 1)
  {
    hide Wakeups.WakeInv, Tables.TableInv, Total;
    var (e', id) := OpenOutbound(e, key, n).value;
    var c := Created(e, n, NewStream(id, true));
    Wakeups.CreatedKeeps(e, n, NewStream(id, true));
    Wakeups.SameStreams(c, e');
    Pools.Extend(e, n);
    Pools.CreatedKeeps(e, n + 1, n, NewStream(id, true));
    Pools.SameStreams(c, e', n + 1);
    Tables.OpenKeeps(e, key, n);
  }

  lemma MoreRefs(e: Endpoint, n: nat)
    requires LocalInv(e, n)
    ensures LocalInv(e, n + 1)
  {
    Pools.Extend(e, n);
  }

  lemma ReceiveLocal(e: Endpoint, n: nat, part: Part)
    requires LocalInv(e, n) && part.tag < n
    requires Lookup(e, part.id).Some? ==> Lookup(e, part.id).value in e.streams
    requires Lookup(e, part.id).None? ==> part.tag !in e.streams
    requires Receive(e, part).Ok?
    ensures LocalInv(Receive(e, part).value, n)
  {
    hide Wakeups.WakeInv, Pools.PoolInv, Tables.TableInv, Receive;
    Wakeups.ReceiveKeeps(e, part);
    Pools.ReceiveKeeps(e, n, part);
    Tables.ReceiveKeeps(e, part);
  }

  // What the streams themselves keep.

  ghost predicate StreamOk(s: Stream) {
    Direction.OutOk(s.out) && Direction.InOk(s.inn)
  }

  ghost predicate StreamsOk(e: Endpoint) {
    forall k | k in e.streams :: StreamOk(e.streams[k])
  }

  lemma CalledOk(s: Stream, call: AppCall)
    requires StreamOk(s)
    ensures StreamOk(Called(s, call))
  {
    if call.Read? && !s.inn.state.Closed? && s.inn.state.ready != [] {
      var ready := s.inn.state.ready;
      assert Flat(ready) == ready[0] + Flat(ready[1..]);
      assert Flat([]) == [];
      assert forall c | c in ready[1..] :: c in ready;
    }
  }

  lemma PolledOk(s: Stream, k: Ref, sh: Shared, cfg: Config, threshold: nat, allowance: nat)
    requires StreamOk(s)
    ensures var ip := Inbound.PollIn(s.inn, sh, cfg.localWindow, threshold);
            var op := Outbound.PollOut(k, s.out, ip.sh, cfg.remoteWindow, cfg.frameLimit, allowance);
            Direction.OutOk(op.o) && Direction.InOk(ip.i)
  {
    hide Outbound.PollOut;
    var ip := Inbound.PollIn(s.inn, sh, cfg.localWindow, threshold);
    Direction.PollOutSends(s.out, k, ip.sh, cfg.remoteWindow, cfg.frameLimit, allowance);
  }

  lemma ArrivedOk(cfg: Config, k: Ref, s: Stream, sh: Shared, part: Part)
    requires StreamOk(s)
    ensures var r := ArriveWindow(cfg, k, s, sh, part); r.Ok? ==> StreamOk(r.value.0)
    ensures var r := ArriveData(cfg, s, sh, part); r.Ok? ==> StreamOk(r.value.0)
    ensures var r := ArriveFinWrite(k, s, sh, part); r.Ok? ==> StreamOk(r.value.0)
    ensures var r := ArriveFinRead(cfg, k, s, sh, part); r.Ok? ==> StreamOk(r.value.0)
  {
    if !Inbound.FinWriteReceived(s.inn) {
      Direction.DataTaken(s.inn, sh, cfg.localWindow, part.data);
      Direction.FinWriteTaken(s.inn);
    }
  }

  lemma ReceivedOk(cfg: Config, k: Ref, s: Stream, sh: Shared, part: Part)
    requires StreamOk(s) && Received(cfg, k, s, sh, part).Ok?
    ensures StreamOk(Received(cfg, k, s, sh, part).value.0)
  {
    hide ArriveWindow, ArriveData, ArriveFinWrite, ArriveFinRead, StreamOk;
    var (s1, sh1) := ArriveWindow(cfg, k, s, sh, part).value;
    ArrivedOk(cfg, k, s, sh, part);
    var (s2, sh2) := ArriveData(cfg, s1, sh1, part).value;
    ArrivedOk(cfg, k, s1, sh1, part);
    var (s3, sh3) := ArriveFinWrite(k, s2, sh2, part).value;
    ArrivedOk(cfg, k, s2, sh2, part);
    ArrivedOk(cfg, k, s3, sh3, part);
  }

  lemma CallOk(e: Endpoint, k: Ref, call: AppCall)
    requires StreamsOk(e) && k in e.streams
    ensures StreamsOk(Call(e, k, call))
  {
    hide StreamOk, Called, CallWakes;
    CalledOk(e.streams[k], call);
  }

  lemma PollOk(e: Endpoint, k: Ref, allowance: nat)
    requires StreamsOk(e) && k in e.streams
    ensures StreamsOk(Poll(e, k, allowance).0)
  {
    hide Inbound.PollIn, Outbound.PollOut, PassTurn, Forget, Direction.OutOk, Direction.InOk, StreamFin;
    PolledOk(e.streams[k], k, e.sh.(awake := e.sh.awake - {k}), e.cfg, Threshold(e), allowance);
  }

  lemma HandledOk(e: Endpoint, k: Ref, part: Part)
    requires StreamsOk(e) && k in e.streams && Handled(e, k, part).Ok?
    ensures StreamsOk(Handled(e, k, part).value)
  {
    hide Received, Forget, Dead, StreamOk;
    ReceivedOk(e.cfg, k, e.streams[k], e.sh, part);
  }

  lemma ReceiveOk(e: Endpoint, part: Part)
    requires StreamsOk(e) && Receive(e, part).Ok?
    requires Lookup(e, part.id).Some? ==> Lookup(e, part.id).value in e.streams
    ensures StreamsOk(Receive(e, part).value)
  {
    hide Handled, Direction.OutOk, Direction.InOk;
    NewStreamOk(part.id, false);
    match Lookup(e, part.id)
    case Some(k) =>
      HandledOk(e, k, part);
    case None =>
      HandledOk(Created(e, part.tag, NewStream(part.id, false)).(inbound := e.inbound[part.id := part.tag]), part.tag, part);
  }

  lemma NewStreamOk(id: Id, syn: bool)
    ensures StreamOk(NewStream(id, syn))
  {
  }

  // Runs of one side.

  datatype Op =
    | Opens(key: nat)
    | Calls(k: Ref, call: AppCall)
    | Polls(k: Ref, allowance: nat)
    | Receives(part: Part)

  /** One operation. `n` is the next unused reference. The peer may send anything. */
  function Do(e: Endpoint, n: nat, op: Op): Result<(Endpoint, nat), Violation> {
    match op
    case Opens(key) =>
      if IsVacantKey(e, key) && OpenOutbound(e, key, n).Some? then Ok((OpenOutbound(e, key, n).value.0, n + 1))
      else Ok((e, n))
    case Calls(k, call) =>
      Ok((if k in e.streams then Call(e, k, call) else e, n))
    case Polls(k, allowance) =>
      Ok((if k in e.tasks && k in e.streams then Poll(e, k, allowance).0 else e, n))
    case Receives(part) =>
      var e' :- Receive(e, part.(tag := n));
      Ok((e', n + 1))
  }

  function DoAll(e: Endpoint, n: nat, ops: seq<Op>): Result<(Endpoint, nat), Violation>
    decreases |ops|
  {
    if ops == [] then Ok((e, n))
    else
      var (e', n') :- Do(e, n, ops[0]);
      DoAll(e', n', ops[1..])
  }

  ghost predicate ConfigOk(cfg: Config) {
    cfg.frameLimit >= 1 && cfg.localWindow >= 1 && cfg.remoteWindow >= 1 && cfg.maxOutbound <= MAX_STREAMS_PER_SIDE
  }

  ghost predicate SideInv(e: Endpoint, n: nat) {
    ConfigOk(e.cfg) && LocalInv(e, n) && StreamsOk(e)
  }

  lemma Lookups(e: Endpoint, n: nat, id: Id)
    requires LocalInv(e, n)
    ensures Lookup(e, id).Some? ==> Lookup(e, id).value in e.streams
    ensures n !in e.streams
  {
    hide Wakeups.WakeInv, Total, Lookup;
  }

  lemma ReceivesKeeps(e: Endpoint, n: nat, part: Part)
    requires SideInv(e, n) && part.tag == n && Receive(e, part).Ok?
    ensures SideInv(Receive(e, part).value, n + 1)
  {
    hide LocalInv, StreamsOk, Receive, Lookup;
    Lookups(e, n, part.id);
    MoreRefs(e, n);
    ReceiveLocal(e, n + 1, part);
    ReceiveOk(e, part);
    ReceiveConfig(e, part);
  }

  lemma ReceiveConfig(e: Endpoint, part: Part)
    requires Receive(e, part).Ok?
    ensures Receive(e, part).value.cfg == e.cfg && Receive(e, part).value.role == e.role
  {
    hide Received, Dead;
  }

  lemma PollConfig(e: Endpoint, k: Ref, allowance: nat)
    requires k in e.streams
    ensures Poll(e, k, allowance).0.cfg == e.cfg && Poll(e, k, allowance).0.role == e.role
  {
    hide Inbound.PollIn, Outbound.PollOut, Dead, StreamFin, PassTurn;
  }

  lemma OpensKeeps(e: Endpoint, n: nat, key: nat)
    requires SideInv(e, n) && IsVacantKey(e, key) && OpenOutbound(e, key, n).Some?
    ensures SideInv(OpenOutbound(e, key, n).value.0, n + 1)
  {
    hide LocalInv, StreamOk;
    OpenLocal(e, n, key);
    NewStreamOk(OpenOutbound(e, key, n).value.1, true);
  }

  lemma DoKeeps(e: Endpoint, n: nat, op: Op)
    requires SideInv(e, n) && Do(e, n, op).Ok?
    ensures var (e', n') := Do(e, n, op).value; SideInv(e', n') && e'.cfg == e.cfg && e'.role == e.role
  {
    hide LocalInv, StreamsOk, Receive, Poll, IsVacantKey;
    match op
    case Opens(key) =>
      if IsVacantKey(e, key) && OpenOutbound(e, key, n).Some? {
        OpensKeeps(e, n, key);
      }
    case Calls(k, call) =>
      if k in e.streams {
        CallLocal(e, n, k, call);
        CallOk(e, k, call);
      }
    case Polls(k, allowance) =>
      if k in e.tasks && k in e.streams {
        PollLocal(e, n, k, allowance);
        PollOk(e, k, allowance);
        PollConfig(e, k, allowance);
      }
    case Receives(part) =>
      ReceivesKeeps(e, n, part.(tag := n));
      ReceiveConfig(e, part.(tag := n));
  }

  lemma {:induction false} DoAllKeeps(e: Endpoint, n: nat, ops: seq<Op>)
    requires SideInv(e, n) && DoAll(e, n, ops).Ok?
    ensures var (e', n') := DoAll(e, n, ops).value; SideInv(e', n') && e'.cfg == e.cfg && e'.role == e.role
    decreases |ops|
  {
    hide SideInv, Do;
    if ops != [] {
      DoKeeps(e, n, ops[0]);
      var (e', n') := Do(e, n, ops[0]).value;
      DoAllKeeps(e', n', ops[1..]);
    }
  }

  lemma NewSide(role: Role, cfg: Config)
    requires ConfigOk(cfg)
    ensures SideInv(NewEndpoint(role, cfg), 0)
  {
  }

  /** Until the peer is caught violating the protocol, every operation keeps the invariant of this side. */
  lemma AnyPeer(role: Role, cfg: Config, ops: seq<Op>)
    requires ConfigOk(cfg) && DoAll(NewEndpoint(role, cfg), 0, ops).Ok?
    ensures var (e, n) := DoAll(NewEndpoint(role, cfg), 0, ops).value; SideInv(e, n) && e.cfg == cfg && e.role == role
  {
    hide SideInv, ConfigOk, DoAll;
    NewSide(role, cfg);
    DoAllKeeps(NewEndpoint(role, cfg), 0, ops);
  }
}
