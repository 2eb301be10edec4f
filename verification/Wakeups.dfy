/** No lost wake-up: what every operation of an endpoint keeps about the turn queue and the woken streams. */
module Wakeups {
  import opened Prelude
  import opened Flow
  import opened TurnQueue
  import opened SharedFlow
  import opened Endpoint
  import Outbound
  import Inbound

  // The invariant.

  /** Room in the pool means that the front is awake, unless the front is `me`. */
  ghost predicate FrontAwakeBut(sh: Shared, me: Ref) {
    && Distinct(sh.queue)
    && (sh.queue != [] && TxRoom(sh) && sh.queue[0] != me ==> sh.queue[0] in sh.awake)
  }

  ghost predicate FrontAwake(sh: Shared) {
    && Distinct(sh.queue)
    && (sh.queue != [] && TxRoom(sh) ==> sh.queue[0] in sh.awake)
  }

  /** The stream has nothing to do until something happens to it. */
  ghost predicate Idle(cfg: Config, s: Stream) {
    && (!s.inn.state.Closed? ==> s.inn.credit < CreditThreshold(cfg.localWindow))
    && (s.inn.state.Closed? ==> Inbound.FinReadSent(s.inn))
    && (Outbound.Waiting(s.out) != [] ==> BaseRoom(s.out.unacked, cfg.remoteWindow) == 0)
    && (s.out.state.Closed? ==> Outbound.FinWriteSent(s.out))
  }

  /** A task lives until the stream has sent both `FIN_*`. A queued stream is awake or has data to send. */
  ghost predicate TaskOk(e: Endpoint, k: Ref)
    requires k in e.streams
  {
    var s := e.streams[k];
    && (k in e.tasks <==> !StreamFin(s).sent)
    && (k in e.sh.queue ==> k in e.tasks && (k in e.sh.awake || Outbound.Waiting(s.out) != []))
    && (k in e.tasks && k !in e.sh.awake ==> Idle(e.cfg, s))
  }

  ghost predicate WakeInv(e: Endpoint) {
    && e.sh.awake <= e.tasks <= e.streams.Keys
    && (forall k | k in e.sh.queue :: k in e.tasks)
    && FrontAwake(e.sh)
    && (forall k | k in e.streams :: TaskOk(e, k))
  }

  // What the shared functions do to the queue and the wake-ups.

  /** Other streams stay in the queue, stay awake, and are woken only if they are queued. */
  ghost predicate Touches(sh: Shared, sh': Shared, me: Ref) {
    && (forall j | j != me :: j in sh.queue <==> j in sh'.queue)
    && (forall j | j in sh.awake && j != me :: j in sh'.awake)
    && (forall j | j in sh'.awake && j != me :: j in sh.awake || j in sh'.queue)
    && sh.txSize == sh'.txSize
  }

  lemma PassTurnKeeps(sh: Shared, me: Ref)
    requires FrontAwakeBut(sh, me)
    ensures var sh' := PassTurn(sh, me);
            FrontAwake(sh') && Touches(sh, sh', me) && me !in sh'.queue && (me in sh'.awake ==> me in sh.awake)
  {
    LeaveMembers(sh.queue, me);
  }

  lemma PassTurnDistinct(sh: Shared, me: Ref)
    requires Distinct(sh.queue)
    ensures Distinct(PassTurn(sh, me).queue)
  {
    LeaveMembers(sh.queue, me);
  }

  lemma JoinKeeps(sh: Shared, me: Ref)
    requires FrontAwakeBut(sh, me)
    requires HasTurn(sh.queue, me) ==> !TxRoom(sh)
    ensures var sh' := sh.(queue := Join(sh.queue, me));
            FrontAwake(sh') && Touches(sh, sh', me)
  {
    JoinMembers(sh.queue, me);
  }

  lemma TakesTurnKeeps(sh: Shared, me: Ref, more: bool)
    requires Distinct(sh.queue)
    ensures var sh' := Outbound.TakesTurn(sh, me, more);
            FrontAwake(sh') && Touches(sh, sh', me) && (me in sh'.queue ==> more)
  {
    LeaveMembers(sh.queue, me);
    JoinMembers(Leave(sh.queue, me), me);
  }

  lemma SetUnackedKeeps(o: Outbound.Out, sh: Shared, base: nat, unacked: nat, me: Ref)
    requires FrontAwakeBut(sh, me)
    requires unacked <= o.unacked
    ensures var sh' := Outbound.SetUnacked(o, sh, base, unacked);
            && Touches(sh, sh', me) && sh'.queue == sh.queue && sh.awake <= sh'.awake
            && (me in sh'.awake ==> me in sh.awake || me in sh'.queue)
            && FrontAwakeBut(sh', me)
            && (FrontAwake(sh) ==> FrontAwake(sh'))
  {
  }

  lemma PollOutKeeps(me: Ref, o: Outbound.Out, sh: Shared, base: nat, limit: nat, allowance: nat)
    requires FrontAwakeBut(sh, me)
    requires limit >= 1
    ensures var p := Outbound.PollOut(me, o, sh, base, limit, allowance);
            && Touches(sh, p.sh, me)
            && FrontAwakeBut(p.sh, me)
            && (p.sent.None? ==>
                  && FrontAwake(p.sh)
                  && p.o == o
                  && (o.state.Closed? ==> o.state.fin.sent)
                  && (me in p.sh.queue ==> Outbound.Waiting(o) != [])
                  && (me in p.sh.awake ==> me in sh.awake)
                  && (Outbound.Waiting(o) != [] ==> BaseRoom(o.unacked, base) == 0))
  {
    if o.state.Closed? {
      PassTurnKeeps(sh, me);
    } else {
      PlanKeeps(me, |o.state.ready|, o.unacked, sh, base, limit, allowance);
    }
  }

  lemma PlanKeeps(me: Ref, waiting: nat, unacked: nat, sh: Shared, base: nat, limit: nat, allowance: nat)
    requires FrontAwakeBut(sh, me)
    requires limit >= 1
    ensures var p := Outbound.Plan(me, waiting, unacked, sh, base, limit, allowance);
            && Touches(sh, p.sh, me)
            && FrontAwakeBut(p.sh, me)
            && p.n <= waiting
            && (p.n == 0 ==>
                  && FrontAwake(p.sh)
                  && (me in p.sh.queue ==> waiting > 0)
                  && (me in p.sh.awake ==> me in sh.awake)
                  && (waiting > 0 ==> BaseRoom(unacked, base) == 0))
  {
    var p := Outbound.Plan(me, waiting, unacked, sh, base, limit, allowance);
    PassTurnKeeps(sh, me);
    if p.n == 0 {
      if waiting > 0 && Minus(allowance, Borrowed(unacked, base)) > 0 {
        JoinKeeps(sh, me);
      }
    } else if p.n > BaseRoom(unacked, base) {
      var sent := Outbound.Sends(sh, unacked, base, p.n);
      TakesTurnKeeps(sent, me, waiting > p.n);
    }
  }

  /** What an arriving part of a frame does to stream `k`: it stays idle, or is woken. */
  ghost predicate Arrives(cfg: Config, k: Ref, s: Stream, sh: Shared, s': Stream, sh': Shared) {
    && Touches(sh, sh', k) && sh'.queue == sh.queue && sh.awake <= sh'.awake
    && (FrontAwake(sh) ==> FrontAwake(sh'))
    && StreamFin(s').sent == StreamFin(s).sent
    && (k in sh'.awake && k !in sh.awake ==> k in sh.queue || !StreamFin(s).sent)
    && (Outbound.Waiting(s.out) != [] ==> k in sh'.awake || Outbound.Waiting(s'.out) != [])
    && (Idle(cfg, s) && k !in sh'.awake ==> Idle(cfg, s'))
  }

  lemma WindowArrives(cfg: Config, k: Ref, s: Stream, sh: Shared, part: Part)
    requires ArriveWindow(cfg, k, s, sh, part).Ok? && FrontAwake(sh)
    ensures var (s', sh') := ArriveWindow(cfg, k, s, sh, part).value;
            Arrives(cfg, k, s, sh, s', sh')
  {
    if part.credit > 0 {
      SetUnackedKeeps(s.out, sh, cfg.remoteWindow, s.out.unacked - part.credit, k);
    }
  }

  lemma DataArrives(cfg: Config, k: Ref, s: Stream, sh: Shared, part: Part)
    requires ArriveData(cfg, s, sh, part).Ok?
    ensures var (s', sh') := ArriveData(cfg, s, sh, part).value;
            Arrives(cfg, k, s, sh, s', sh')
  {
  }

  lemma FinWriteArrives(cfg: Config, k: Ref, s: Stream, sh: Shared, part: Part)
    requires ArriveFinWrite(k, s, sh, part).Ok?
    ensures var (s', sh') := ArriveFinWrite(k, s, sh, part).value;
            Arrives(cfg, k, s, sh, s', sh')
  {
  }

  lemma FinReadArrives(cfg: Config, k: Ref, s: Stream, sh: Shared, part: Part)
    requires ArriveFinRead(cfg, k, s, sh, part).Ok? && FrontAwake(sh)
    ensures var (s', sh') := ArriveFinRead(cfg, k, s, sh, part).value;
            Arrives(cfg, k, s, sh, s', sh')
  {
    if part.finRead {
      var woken := if s.out.state.Closed? then sh else Wake(sh, k);
      SetUnackedKeeps(s.out, woken, cfg.remoteWindow, 0, k);
    }
  }

  lemma ReceivedKeeps(cfg: Config, k: Ref, s: Stream, sh: Shared, part: Part)
    requires Received(cfg, k, s, sh, part).Ok? && FrontAwake(sh)
    ensures var (s', sh') := Received(cfg, k, s, sh, part).value;
            Arrives(cfg, k, s, sh, s', sh')
  {
    hide ArriveWindow, ArriveData, ArriveFinWrite, ArriveFinRead, Idle;
    var (s1, sh1) := ArriveWindow(cfg, k, s, sh, part).value;
    WindowArrives(cfg, k, s, sh, part);
    var (s2, sh2) := ArriveData(cfg, s1, sh1, part).value;
    DataArrives(cfg, k, s1, sh1, part);
    var (s3, sh3) := ArriveFinWrite(k, s2, sh2, part).value;
    FinWriteArrives(cfg, k, s2, sh2, part);
    FinReadArrives(cfg, k, s3, sh3, part);
  }

  // What every operation keeps.

  /** Everything but stream `k` is as it was, or more awake; it remains to look at `k`. */
  lemma OneStream(e: Endpoint, e': Endpoint, k: Ref)
    requires WakeInv(e)
    requires k in e'.streams && e'.streams == e.streams[k := e'.streams[k]] && e'.cfg == e.cfg
    requires forall j | j != k :: j in e'.tasks <==> j in e.tasks
    requires Touches(e.sh, e'.sh, k) && FrontAwake(e'.sh)
    requires k in e'.sh.awake ==> k in e'.tasks
    requires TaskOk(e', k)
    ensures WakeInv(e')
  {
    forall j | j in e'.streams ensures TaskOk(e', j) {
      if j != k {
        assert TaskOk(e, j);
      }
    }
  }

  lemma CreatedKeeps(e: Endpoint, k: Ref, s: Stream)
    requires WakeInv(e) && k !in e.streams
    requires !StreamFin(s).sent
    ensures WakeInv(Created(e, k, s))
  {
    OneStream(e, Created(e, k, s), k);
  }

  lemma CallKeeps(e: Endpoint, k: Ref, call: AppCall)
    requires WakeInv(e) && k in e.streams
    ensures WakeInv(Call(e, k, call))
  {
    assert TaskOk(e, k);
    OneStream(e, Call(e, k, call), k);
  }

  /** The tables do not matter. */
  lemma SameStreams(e: Endpoint, e': Endpoint)
    requires WakeInv(e)
    requires e'.streams == e.streams && e'.sh == e.sh && e'.cfg == e.cfg && e'.tasks == e.tasks
    ensures WakeInv(e')
  {
    assert forall k | k in e.streams :: TaskOk(e, k) ==> TaskOk(e', k);
  }

  lemma HandledKeeps(e: Endpoint, k: Ref, part: Part)
    requires WakeInv(e) && k in e.streams
    requires Handled(e, k, part).Ok?
    ensures WakeInv(Handled(e, k, part).value)
  {
    hide Received, Forget, Dead, Idle, FrontAwake, Touches, StreamFin, Outbound.Waiting;
    assert TaskOk(e, k);
    ReceivedKeeps(e.cfg, k, e.streams[k], e.sh, part);
    var (s, sh) := Received(e.cfg, k, e.streams[k], e.sh, part).value;
    var e' := Updated(e, k, s, sh);
    OneStream(e, e', k);
    SameStreams(e', Handled(e, k, part).value);
  }

  lemma ReceiveKeeps(e: Endpoint, part: Part)
    requires WakeInv(e)
    requires Lookup(e, part.id).Some? ==> Lookup(e, part.id).value in e.streams
    requires Lookup(e, part.id).None? ==> part.tag !in e.streams
    requires Receive(e, part).Ok?
    ensures WakeInv(Receive(e, part).value)
  {
    hide Handled, WakeInv;
    match Lookup(e, part.id)
    case Some(k) =>
      HandledKeeps(e, k, part);
    case None =>
      var s := NewStream(part.id, false);
      CreatedKeeps(e, part.tag, s);
      var e' := Created(e, part.tag, s).(inbound := e.inbound[part.id := part.tag]);
      SameStreams(Created(e, part.tag, s), e');
      HandledKeeps(e', part.tag, part);
  }

  lemma YieldedKeeps(e: Endpoint, k: Ref, s: Stream, sh: Shared)
    requires WakeInv(e) && k in e.tasks
    requires Touches(e.sh, sh, k) && FrontAwakeBut(sh, k)
    ensures WakeInv(Yielded(e, k, s, sh))
  {
    if StreamFin(s).sent {
      PassTurnKeeps(sh, k);
    }
    OneStream(e, Yielded(e, k, s, sh), k);
  }

  lemma PollKeeps(e: Endpoint, k: Ref, allowance: nat)
    requires WakeInv(e) && k in e.tasks
    requires e.cfg.frameLimit >= 1
    ensures WakeInv(Poll(e, k, allowance).0)
  {
    var s := e.streams[k];
    assert TaskOk(e, k);
    var ip := Inbound.PollIn(s.inn, e.sh.(awake := e.sh.awake - {k}), e.cfg.localWindow, Threshold(e));
    assert Touches(e.sh, ip.sh, k) && FrontAwakeBut(ip.sh, k);
    PollOutKeeps(k, s.out, ip.sh, e.cfg.remoteWindow, e.cfg.frameLimit, allowance);
    var op := Outbound.PollOut(k, s.out, ip.sh, e.cfg.remoteWindow, e.cfg.frameLimit, allowance);
    assert Touches(e.sh, op.sh, k);
    if ip.sent.None? && op.sent.None? {
      OneStream(e, Poll(e, k, allowance).0, k);
    } else {
      YieldedKeeps(e, k, s.(out := op.o, inn := ip.i, syn := false), op.sh);
    }
  }
}
