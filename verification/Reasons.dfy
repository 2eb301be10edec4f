/** No stream is woken for nothing: the counterpart of the promise that no wake-up is lost. */
module Reasons {
  import opened Prelude
  import opened Flow
  import opened TurnQueue
  import opened SharedFlow
  import opened StreamId
  import opened Endpoint
  import opened Local
  import Outbound
  import Inbound
  import Pools
  import Wakeups
  import Tables

  /** There is something that a poll may send: data, credit, or a `FIN_*`. */
  predicate HasWork(cfg: Config, s: Stream) {
    || Outbound.Waiting(s.out) != []
    || (s.out.state.Closed? && !Outbound.FinWriteSent(s.out))
    || (!s.inn.state.Closed? && s.inn.credit >= CreditThreshold(cfg.localWindow))
    || (s.inn.state.Closed? && !Inbound.FinReadSent(s.inn))
  }

  /** It heads the queue, and there is something in the pool. */
  predicate MayBorrow(sh: Shared, j: Ref) {
    sh.queue != [] && sh.queue[0] == j && TxRoom(sh)
  }

  /** Who is awake now was awake before, may borrow, or is the one that the operation is about. */
  ghost predicate Justified(sh: Shared, sh': Shared, me: Ref) {
    forall j | j in sh'.awake && j !in sh.awake && j != me :: MayBorrow(sh', j)
  }

  // The application.

  lemma CallHasReason(cfg: Config, s: Stream, call: AppCall)
    requires CallWakes(s, call, CreditThreshold(cfg.localWindow))
    ensures HasWork(cfg, Called(s, call))
  {
  }

  // A frame.

  ghost predicate Arrived(cfg: Config, k: Ref, s: Stream, sh: Shared, s': Stream, sh': Shared) {
    && sh'.queue == sh.queue && sh'.txSize == sh.txSize && sh'.txUsed <= sh.txUsed
    && Justified(sh, sh', k) && (k in sh'.awake && k !in sh.awake ==> HasWork(cfg, s') || MayBorrow(sh', k))
    && Borrowed(s'.out.unacked, cfg.remoteWindow) <= sh'.txUsed
  }

  lemma ArrivedTwice(cfg: Config, k: Ref, s: Stream, sh: Shared, s1: Stream, sh1: Shared, s2: Stream, sh2: Shared)
    requires Arrived(cfg, k, s, sh, s1, sh1) && Arrived(cfg, k, s1, sh1, s2, sh2) && (HasWork(cfg, s1) ==> HasWork(cfg, s2))
    ensures Arrived(cfg, k, s, sh, s2, sh2)
  {
    hide HasWork;
  }

  lemma Freed(o: Outbound.Out, sh: Shared, base: nat, unacked: nat)
    requires unacked <= o.unacked && Borrowed(o.unacked, base) <= sh.txUsed <= sh.txSize
    ensures var sh' := Outbound.SetUnacked(o, sh, base, unacked);
            && sh'.queue == sh.queue && sh'.txSize == sh.txSize && sh'.txUsed <= sh.txUsed && Borrowed(unacked, base) <= sh'.txUsed
            && forall j | j in sh'.awake && j !in sh.awake :: MayBorrow(sh', j)
  {
  }

  lemma WindowReason(cfg: Config, k: Ref, s: Stream, sh: Shared, part: Part)
    requires ArriveWindow(cfg, k, s, sh, part).Ok? && Borrowed(s.out.unacked, cfg.remoteWindow) <= sh.txUsed <= sh.txSize
    ensures var (s', sh') := ArriveWindow(cfg, k, s, sh, part).value;
            Arrived(cfg, k, s, sh, s', sh') && (HasWork(cfg, s) ==> HasWork(cfg, s'))
  {
    hide Outbound.SetUnacked;
    if part.credit > 0 {
      Freed(s.out, sh, cfg.remoteWindow, s.out.unacked - part.credit);
    }
  }

  lemma DataReason(cfg: Config, k: Ref, s: Stream, sh: Shared, part: Part)
    requires ArriveData(cfg, s, sh, part).Ok? && Borrowed(s.out.unacked, cfg.remoteWindow) <= sh.txUsed
    ensures var (s', sh') := ArriveData(cfg, s, sh, part).value;
            Arrived(cfg, k, s, sh, s', sh') && (HasWork(cfg, s) ==> HasWork(cfg, s'))
  {
  }

  lemma FinWriteReason(cfg: Config, k: Ref, s: Stream, sh: Shared, part: Part)
    requires ArriveFinWrite(k, s, sh, part).Ok? && Borrowed(s.out.unacked, cfg.remoteWindow) <= sh.txUsed
    ensures var (s', sh') := ArriveFinWrite(k, s, sh, part).value;
            Arrived(cfg, k, s, sh, s', sh') && (HasWork(cfg, s) ==> HasWork(cfg, s'))
  {
  }

  lemma FinReadReason(cfg: Config, k: Ref, s: Stream, sh: Shared, part: Part)
    requires ArriveFinRead(cfg, k, s, sh, part).Ok? && Borrowed(s.out.unacked, cfg.remoteWindow) <= sh.txUsed <= sh.txSize
    ensures var (s', sh') := ArriveFinRead(cfg, k, s, sh, part).value;
            Arrived(cfg, k, s, sh, s', sh') && (HasWork(cfg, s) ==> HasWork(cfg, s'))
  {
    hide Outbound.SetUnacked;
    if part.finRead {
      var woken := if s.out.state.Closed? then sh else Wake(sh, k);
      Freed(s.out, woken, cfg.remoteWindow, 0);
    }
  }

  lemma ReceivedReason(cfg: Config, k: Ref, s: Stream, sh: Shared, part: Part)
    requires Received(cfg, k, s, sh, part).Ok? && Borrowed(s.out.unacked, cfg.remoteWindow) <= sh.txUsed <= sh.txSize
    ensures var (s', sh') := Received(cfg, k, s, sh, part).value; Arrived(cfg, k, s, sh, s', sh')
  {
    hide ArriveWindow, ArriveData, ArriveFinWrite, ArriveFinRead, HasWork;
    var (s1, sh1) := ArriveWindow(cfg, k, s, sh, part).value;
    WindowReason(cfg, k, s, sh, part);
    var (s2, sh2) := ArriveData(cfg, s1, sh1, part).value;
    DataReason(cfg, k, s1, sh1, part);
    ArrivedTwice(cfg, k, s, sh, s1, sh1, s2, sh2);
    var (s3, sh3) := ArriveFinWrite(k, s2, sh2, part).value;
    FinWriteReason(cfg, k, s2, sh2, part);
    ArrivedTwice(cfg, k, s, sh, s2, sh2, s3, sh3);
    FinReadReason(cfg, k, s3, sh3, part);
    var (s4, sh4) := ArriveFinRead(cfg, k, s3, sh3, part).value;
    ArrivedTwice(cfg, k, s, sh, s3, sh3, s4, sh4);
  }

  // A poll.

  lemma LeaveFront(q: seq<Ref>, me: Ref)
    requires q != [] && q[0] != me
    ensures Leave(q, me) != [] && Leave(q, me)[0] == q[0]
  {
  }

  lemma PassTurnReason(sh: Shared, me: Ref)
    ensures Justified(sh, PassTurn(sh, me), me)
  {
  }

  lemma PassTurnKeepsFront(sh: Shared, me: Ref, j: Ref)
    requires MayBorrow(sh, j) && j != me
    ensures MayBorrow(PassTurn(sh, me), j)
  {
    LeaveFront(sh.queue, me);
  }

  lemma PollOutReason(me: Ref, o: Outbound.Out, sh: Shared, base: nat, limit: nat, allowance: nat)
    ensures Justified(sh, Outbound.PollOut(me, o, sh, base, limit, allowance).sh, me)
  {
    hide PassTurn, Join, Leave;
    PassTurnReason(sh, me);
  }

  lemma YieldedReason(e: Endpoint, k: Ref, s: Stream, sh: Shared, sh': Shared)
    requires Justified(sh, sh', k)
    ensures Justified(sh, Yielded(e, k, s, sh').sh, k)
  {
    hide PassTurn, Dead, StreamFin;
    PassTurnReason(sh', k);
    var passed := PassTurn(sh', k);
    forall j | j in passed.awake && j !in sh.awake && j != k ensures MayBorrow(passed, j) {
      if j in sh'.awake {
        PassTurnKeepsFront(sh', k, j);
      }
    }
  }

  lemma PollReason(e: Endpoint, k: Ref, allowance: nat)
    requires k in e.streams
    ensures Justified(e.sh, Poll(e, k, allowance).0.sh, k)
    ensures Poll(e, k, allowance).1.None? ==> k !in Poll(e, k, allowance).0.sh.awake || MayBorrow(Poll(e, k, allowance).0.sh, k)
  {
    hide Inbound.PollIn, Outbound.PollOut, Yielded;
    var s := e.streams[k];
    var sh := e.sh.(awake := e.sh.awake - {k});
    var ip := Inbound.PollIn(s.inn, sh, e.cfg.localWindow, Threshold(e));
    PollInQuiet(s.inn, sh, e.cfg.localWindow, Threshold(e));
    var op := Outbound.PollOut(k, s.out, ip.sh, e.cfg.remoteWindow, e.cfg.frameLimit, allowance);
    PollOutReason(k, s.out, ip.sh, e.cfg.remoteWindow, e.cfg.frameLimit, allowance);
    PollOutSelf(k, s.out, ip.sh, e.cfg.remoteWindow, e.cfg.frameLimit, allowance);
    YieldedReason(e, k, s.(out := op.o, inn := ip.i, syn := false), ip.sh, op.sh);
  }

  lemma PollInQuiet(i: Inbound.In, sh: Shared, base: nat, threshold: nat)
    ensures Inbound.PollIn(i, sh, base, threshold).sh == sh.(rxUsed := Inbound.PollIn(i, sh, base, threshold).sh.rxUsed)
  {
  }

  /** A poll that sends nothing wakes its own stream only if it is first in line. */
  lemma PollOutSelf(me: Ref, o: Outbound.Out, sh: Shared, base: nat, limit: nat, allowance: nat)
    requires me !in sh.awake
    ensures var p := Outbound.PollOut(me, o, sh, base, limit, allowance);
            p.sent.None? && me in p.sh.awake ==> MayBorrow(p.sh, me)
  {
    hide Join, Leave;
  }

  // Every operation.

  /** The operation wakes the stream, or leaves it awake although it was its turn to be polled. */
  predicate Wakes(e: Endpoint, op: Op, e': Endpoint, j: Ref) {
    j in e'.sh.awake && (j !in e.sh.awake || (op.Polls? && op.k == j && j in e.tasks && j in e.streams))
  }

  /** It was just created, or it was just polled and has sent something. */
  predicate RunsAnyway(e: Endpoint, n: nat, op: Op, j: Ref) {
    j == n || (op.Polls? && op.k == j && j in e.streams && Poll(e, j, op.allowance).1.Some?)
  }

  ghost predicate Reason(e: Endpoint, n: nat, op: Op, e': Endpoint, j: Ref) {
    MayBorrow(e'.sh, j) || (j in e'.streams && HasWork(e.cfg, e'.streams[j])) || RunsAnyway(e, n, op, j)
  }

  lemma HandledReason(e: Endpoint, k: Ref, part: Part, j: Ref)
    requires k in e.streams && Handled(e, k, part).Ok? && Borrowed(e.streams[k].out.unacked, e.cfg.remoteWindow) <= e.sh.txUsed <= e.sh.txSize
    requires j in Handled(e, k, part).value.sh.awake && j !in e.sh.awake
    ensures var e' := Handled(e, k, part).value; MayBorrow(e'.sh, j) || (j in e'.streams && HasWork(e.cfg, e'.streams[j]))
  {
    hide Received, HasWork, Dead;
    ReceivedReason(e.cfg, k, e.streams[k], e.sh, part);
  }

  lemma ReceiveReason(e: Endpoint, n: nat, part: Part, j: Ref)
    requires SideInv(e, n) && part.tag == n && Receive(e, part).Ok? && j in Receive(e, part).value.sh.awake && j !in e.sh.awake && j != n
    ensures var e' := Receive(e, part).value; MayBorrow(e'.sh, j) || (j in e'.streams && HasWork(e.cfg, e'.streams[j]))
  {
    hide SideInv, Handled, HasWork, Lookup, LocalInv, StreamsOk;
    InPlace(e, n, part.id);
    match Lookup(e, part.id)
    case Some(k) => HandledReason(e, k, part, j);
    case None => HandledReason(Created(e, n, NewStream(part.id, false)).(inbound := e.inbound[part.id := n]), n, part, j);
  }

  lemma InPlace(e: Endpoint, n: nat, id: Id)
    requires SideInv(e, n)
    ensures e.sh.txUsed <= e.sh.txSize
    ensures Lookup(e, id).Some? ==>
              var k := Lookup(e, id).value; k in e.streams && Borrowed(e.streams[k].out.unacked, e.cfg.remoteWindow) <= e.sh.txUsed
  {
    hide Wakeups.WakeInv, Total, Lookup, Tables.TableInv, StreamsOk;
    Lookups(e, n, id);
    if Lookup(e, id).Some? {
      Pools.ShareFits(e, n, Lookup(e, id).value);
    }
  }

  /**
   * With any peer: whoever an operation wakes has something to send, or is first in line while the pool has room, or was
   * just created, or was just polled and has sent something.
   */
  lemma WokenForAReason(e: Endpoint, n: nat, op: Op, j: Ref)
    requires SideInv(e, n) && Do(e, n, op).Ok? && Wakes(e, op, Do(e, n, op).value.0, j)
    ensures Reason(e, n, op, Do(e, n, op).value.0, j)
  {
    hide SideInv, HasWork, Receive, Poll, Called, CallWakes, IsVacantKey, MayBorrow;
    match op
    case Opens(key) =>
    case Calls(k, call) =>
      if k in e.streams && CallWakes(e.streams[k], call, Threshold(e)) {
        CallHasReason(e.cfg, e.streams[k], call);
      }
    case Polls(k, allowance) =>
      if k in e.tasks && k in e.streams {
        PollReason(e, k, allowance);
      }
    case Receives(part) =>
      if j != n {
        ReceiveReason(e, n, part.(tag := n), j);
      }
  }
}
