/** Pool accounting: the use of a pool is what the streams borrow, and never more than the pool. */
module Pools {
  import opened Prelude
  import opened Flow
  import opened SharedFlow
  import opened Endpoint
  import Outbound
  import Inbound

  ghost function TxShare(streams: map<Ref, Stream>, base: nat): Ref -> nat {
    (k: Ref) => if k in streams then Borrowed(streams[k].out.unacked, base) else 0
  }

  ghost function RxShare(streams: map<Ref, Stream>, base: nat): Ref -> nat {
    (k: Ref) => if k in streams then Borrowed(streams[k].inn.unacked, base) else 0
  }

  ghost predicate PoolInv(e: Endpoint, n: nat) {
    && (forall k | k in e.streams :: k < n)
    && e.sh.txUsed == Total(TxShare(e.streams, e.cfg.remoteWindow), n)
    && e.sh.rxUsed == Total(RxShare(e.streams, e.cfg.localWindow), n)
    && e.sh.txUsed <= e.sh.txSize == e.cfg.remotePool
    && e.sh.rxUsed <= e.sh.rxSize == e.cfg.localPool
  }

  /** The shares of the stream are a part of what is used: no subtraction underflows. */
  ghost predicate Fits(cfg: Config, s: Stream, sh: Shared) {
    && Borrowed(s.out.unacked, cfg.remoteWindow) <= sh.txUsed
    && Borrowed(s.inn.unacked, cfg.localWindow) <= sh.rxUsed
  }

  /** The use of both pools moves along with the shares of the stream, and stays within the pools. */
  ghost predicate Moves(cfg: Config, s: Stream, sh: Shared, s': Stream, sh': Shared) {
    && sh'.txSize == sh.txSize && sh'.rxSize == sh.rxSize
    && sh'.txUsed - Borrowed(s'.out.unacked, cfg.remoteWindow) == sh.txUsed - Borrowed(s.out.unacked, cfg.remoteWindow)
    && sh'.rxUsed - Borrowed(s'.inn.unacked, cfg.localWindow) == sh.rxUsed - Borrowed(s.inn.unacked, cfg.localWindow)
    && (sh.txUsed <= sh.txSize ==> sh'.txUsed <= sh'.txSize)
    && (sh.rxUsed <= sh.rxSize ==> sh'.rxUsed <= sh'.rxSize)
  }

  lemma ShareFits(e: Endpoint, n: nat, k: Ref)
    requires PoolInv(e, n) && k in e.streams
    ensures Fits(e.cfg, e.streams[k], e.sh)
  {
    TotalAtLeast(TxShare(e.streams, e.cfg.remoteWindow), n, k);
    TotalAtLeast(RxShare(e.streams, e.cfg.localWindow), n, k);
  }

  /** Only stream `k` changes, and the pools move along. A stream that did not exist had no share. */
  lemma OneStream(e: Endpoint, e': Endpoint, n: nat, k: Ref, s: Stream)
    requires PoolInv(e, n) && (k < n || k in e.streams)
    requires s == if k in e.streams then e.streams[k] else NewStream(s.id, s.syn)
    requires k in e'.streams && e'.streams == e.streams[k := e'.streams[k]] && e'.cfg == e.cfg
    requires Moves(e.cfg, s, e.sh, e'.streams[k], e'.sh)
    ensures PoolInv(e', n)
  {
    hide Total;
    TotalUpdate(TxShare(e.streams, e.cfg.remoteWindow), TxShare(e'.streams, e.cfg.remoteWindow), n, k);
    TotalUpdate(RxShare(e.streams, e.cfg.localWindow), RxShare(e'.streams, e.cfg.localWindow), n, k);
  }

  /** Room for a new reference. */
  lemma Extend(e: Endpoint, n: nat)
    requires PoolInv(e, n)
    ensures PoolInv(e, n + 1)
  {
    assert n !in e.streams;
  }

  lemma PlanMoves(me: Ref, waiting: nat, unacked: nat, sh: Shared, base: nat, limit: nat, allowance: nat)
    requires Borrowed(unacked, base) <= sh.txUsed
    ensures var p := Outbound.Plan(me, waiting, unacked, sh, base, limit, allowance);
            && p.n <= Min(limit, waiting)
            && p.unacked == unacked + p.n
            && p.sh.txUsed == sh.txUsed - Borrowed(unacked, base) + Borrowed(p.unacked, base)
            && p.sh.txSize == sh.txSize && p.sh.rxUsed == sh.rxUsed && p.sh.rxSize == sh.rxSize
            && (sh.txUsed <= sh.txSize ==> p.sh.txUsed <= p.sh.txSize)
  {
  }

  lemma PollMoves(cfg: Config, k: Ref, s: Stream, sh: Shared, threshold: nat, allowance: nat)
    requires Fits(cfg, s, sh)
    ensures var ip := Inbound.PollIn(s.inn, sh, cfg.localWindow, threshold);
            var op := Outbound.PollOut(k, s.out, ip.sh, cfg.remoteWindow, cfg.frameLimit, allowance);
            Moves(cfg, s, sh, s.(out := op.o, inn := ip.i), op.sh)
  {
    var ip := Inbound.PollIn(s.inn, sh, cfg.localWindow, threshold);
    if !s.out.state.Closed? {
      PlanMoves(k, |s.out.state.ready|, s.out.unacked, ip.sh, cfg.remoteWindow, cfg.frameLimit, allowance);
    }
  }

  lemma WindowMoves(cfg: Config, k: Ref, s: Stream, sh: Shared, part: Part)
    requires Fits(cfg, s, sh) && ArriveWindow(cfg, k, s, sh, part).Ok?
    ensures var (s', sh') := ArriveWindow(cfg, k, s, sh, part).value; Moves(cfg, s, sh, s', sh')
  {
  }

  lemma DataMoves(cfg: Config, s: Stream, sh: Shared, part: Part)
    requires Fits(cfg, s, sh) && ArriveData(cfg, s, sh, part).Ok?
    ensures var (s', sh') := ArriveData(cfg, s, sh, part).value; Moves(cfg, s, sh, s', sh')
  {
  }

  lemma FinWriteMoves(cfg: Config, k: Ref, s: Stream, sh: Shared, part: Part)
    requires ArriveFinWrite(k, s, sh, part).Ok?
    ensures var (s', sh') := ArriveFinWrite(k, s, sh, part).value; Moves(cfg, s, sh, s', sh')
  {
  }

  lemma FinReadMoves(cfg: Config, k: Ref, s: Stream, sh: Shared, part: Part)
    requires Fits(cfg, s, sh) && ArriveFinRead(cfg, k, s, sh, part).Ok?
    ensures var (s', sh') := ArriveFinRead(cfg, k, s, sh, part).value; Moves(cfg, s, sh, s', sh')
  {
  }

  lemma ReceivedMoves(cfg: Config, k: Ref, s: Stream, sh: Shared, part: Part)
    requires Fits(cfg, s, sh)
    requires Received(cfg, k, s, sh, part).Ok?
    ensures var (s', sh') := Received(cfg, k, s, sh, part).value; Moves(cfg, s, sh, s', sh')
  {
    hide ArriveWindow, ArriveData, ArriveFinWrite, ArriveFinRead;
    var (s1, sh1) := ArriveWindow(cfg, k, s, sh, part).value;
    WindowMoves(cfg, k, s, sh, part);
    var (s2, sh2) := ArriveData(cfg, s1, sh1, part).value;
    DataMoves(cfg, s1, sh1, part);
    var (s3, sh3) := ArriveFinWrite(k, s2, sh2, part).value;
    FinWriteMoves(cfg, k, s2, sh2, part);
    FinReadMoves(cfg, k, s3, sh3, part);
  }

  // What every operation keeps.

  lemma CreatedKeeps(e: Endpoint, n: nat, k: Ref, s: Stream)
    requires PoolInv(e, n) && k < n && k !in e.streams
    requires s == NewStream(s.id, s.syn)
    ensures PoolInv(Created(e, k, s), n)
  {
    OneStream(e, Created(e, k, s), n, k, s);
  }

  lemma CallKeeps(e: Endpoint, n: nat, k: Ref, call: AppCall)
    requires PoolInv(e, n) && k in e.streams
    ensures PoolInv(Call(e, k, call), n)
  {
    OneStream(e, Call(e, k, call), n, k, e.streams[k]);
  }

  /** The tables do not matter. */
  lemma SameStreams(e: Endpoint, e': Endpoint, n: nat)
    requires PoolInv(e, n)
    requires e'.streams == e.streams && e'.sh == e.sh && e'.cfg == e.cfg
    ensures PoolInv(e', n)
  {
  }

  lemma HandledKeeps(e: Endpoint, n: nat, k: Ref, part: Part)
    requires PoolInv(e, n) && k in e.streams
    requires Handled(e, k, part).Ok?
    ensures PoolInv(Handled(e, k, part).value, n)
  {
    hide Received, PoolInv, Forget, Dead, Moves, Fits;
    ShareFits(e, n, k);
    ReceivedMoves(e.cfg, k, e.streams[k], e.sh, part);
    var (s, sh) := Received(e.cfg, k, e.streams[k], e.sh, part).value;
    OneStream(e, Updated(e, k, s, sh), n, k, e.streams[k]);
    SameStreams(Updated(e, k, s, sh), Handled(e, k, part).value, n);
  }

  lemma ReceiveKeeps(e: Endpoint, n: nat, part: Part)
    requires PoolInv(e, n)
    requires Lookup(e, part.id).Some? ==> Lookup(e, part.id).value in e.streams
    requires Lookup(e, part.id).None? ==> part.tag !in e.streams && part.tag < n
    requires Receive(e, part).Ok?
    ensures PoolInv(Receive(e, part).value, n)
  {
    hide Handled, PoolInv;
    match Lookup(e, part.id)
    case Some(k) =>
      HandledKeeps(e, n, k, part);
    case None =>
      var e' := Created(e, part.tag, NewStream(part.id, false));
      CreatedKeeps(e, n, part.tag, NewStream(part.id, false));
      var e2 := e'.(inbound := e.inbound[part.id := part.tag]);
      SameStreams(e', e2, n);
      HandledKeeps(e2, n, part.tag, part);
  }

  lemma YieldedKeeps(e: Endpoint, n: nat, k: Ref, s: Stream, sh: Shared)
    requires PoolInv(e, n) && k in e.streams
    requires Moves(e.cfg, e.streams[k], e.sh, s, sh)
    ensures PoolInv(Yielded(e, k, s, sh), n)
  {
    hide PoolInv, Forget, Dead, StreamFin, PassTurn;
    OneStream(e, Yielded(e, k, s, sh), n, k, e.streams[k]);
  }

  lemma PollKeeps(e: Endpoint, n: nat, k: Ref, allowance: nat)
    requires PoolInv(e, n) && k in e.streams
    ensures PoolInv(Poll(e, k, allowance).0, n)
  {
    hide Inbound.PollIn, Outbound.PollOut, PoolInv, Yielded;
    var s := e.streams[k];
    ShareFits(e, n, k);
    var sh := e.sh.(awake := e.sh.awake - {k});
    PollMoves(e.cfg, k, s, sh, Threshold(e), allowance);
    var ip := Inbound.PollIn(s.inn, sh, e.cfg.localWindow, Threshold(e));
    var op := Outbound.PollOut(k, s.out, ip.sh, e.cfg.remoteWindow, e.cfg.frameLimit, allowance);
    var s' := s.(out := op.o, inn := ip.i);
    if ip.sent.None? && op.sent.None? {
      OneStream(e, Updated(e, k, s', op.sh), n, k, s);
    } else {
      YieldedKeeps(e, n, k, s'.(syn := false), op.sh);
    }
  }

  /**
   * If no stream counts more at the receiver than at the sender, also after `len` more bytes of stream `k`
   * are received, then the receiver stays within its pool.
   */
  lemma ReceiverStaysWithin(d: Endpoint, e: Endpoint, n: nat, k: Ref, unacked: nat, len: nat)
    requires PoolInv(d, n) && PoolInv(e, n) && k < n
    requires d.cfg.remoteWindow == e.cfg.localWindow && d.cfg.remotePool == e.cfg.localPool
    requires unacked == if k in e.streams then e.streams[k].inn.unacked else 0
    requires forall j: Ref | j < n ::
               RxShare(e.streams, e.cfg.localWindow)(j) <= TxShare(d.streams, d.cfg.remoteWindow)(j)
    requires Borrowed(unacked + len, e.cfg.localWindow) <= TxShare(d.streams, d.cfg.remoteWindow)(k)
    ensures Moved(e.sh.rxUsed, Borrowed(unacked, e.cfg.localWindow), Borrowed(unacked + len, e.cfg.localWindow)) <= e.sh.rxSize
  {
    hide Total;
    var tx := TxShare(d.streams, d.cfg.remoteWindow);
    var rx := RxShare(e.streams, e.cfg.localWindow);
    var after := (j: Ref) => if j == k then Borrowed(unacked + len, e.cfg.localWindow) else rx(j);
    TotalMono(after, tx, n);
    TotalUpdate(rx, after, n, k);
    TotalAtLeast(rx, n, k);
  }
}
