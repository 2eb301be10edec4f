/**
 * What a side answers, in terms of what was observed of its streams so far: to the application, to a poll, and to the peer.
 * Nothing here mentions the state of a stream.
 */
module Answers {
  import opened Prelude
  import opened Fins
  import opened Flow
  import opened StreamId
  import opened SharedFlow
  import opened Endpoint
  import opened Local
  import opened History
  import Direction
  import Outbound
  import Inbound
  import Planning
  import Wakeups
  import Pools
  import Tables

  // To the application.

  /** A write is accepted exactly if the writer is not closed and everything that was written before is sent. */
  lemma WriteAnswers(l: Log, s: Stream, role: Role, data: Bytes)
    requires Tells(l, s, role)
    ensures var answer := AnswerTo(s, Write(data));
            && (answer == Wrote(Outbound.BrokenPipe) <==> WriterClosed(l))
            && (answer == Wrote(Outbound.Accepted) <==> !WriterClosed(l) && DataIn(l.sent) == l.wrote)
            && (answer == Wrote(Outbound.NotReady) <==> !WriterClosed(l) && DataIn(l.sent) < l.wrote)
  {
    hide InTells, DataIn, CreditIn;
    if !WriterClosed(l) && Outbound.Waiting(s.out) == [] {
      assert DataIn(l.sent) + [] == DataIn(l.sent);
    }
  }

  /** A read returns the oldest chunk that was received and not read, and ends only after all of them. */
  lemma ReadAnswers(l: Log, s: Stream, role: Role)
    requires Tells(l, s, role) && StreamOk(s)
    ensures var (answer, chunks) := (AnswerTo(s, Read), ChunksIn(l.got));
            && (answer == Got(Inbound.End) <==> ReaderClosed(l))
            && (answer == Got(Inbound.Pending) <==> !ReaderClosed(l) && l.read == chunks)
            && (forall chunk: Bytes ::
                  answer == Got(Inbound.Data(chunk)) <==> !ReaderClosed(l) && |l.read| < |chunks| && chunks[|l.read|] == chunk)
  {
    hide OutTells, DataIn, CreditIn, ChunksIn, Flat;
    if !s.inn.state.Closed? {
      var ready := s.inn.state.ready;
      assert ready == [] ==> l.read + ready == l.read;
      assert ready != [] ==> (l.read + ready)[|l.read|] == ready[0];
    }
  }

  // To a poll.

  /** Written, and not sent. Nothing is sent to a peer that stopped reading. */
  function Unsent(l: Log): Bytes {
    if FinReadIn(l.got) || |DataIn(l.sent)| > |l.wrote| then [] else l.wrote[|DataIn(l.sent)|..]
  }

  /** Credit is returned while the reader is open, once enough of it has come together. */
  function CreditNow(l: Log, threshold: nat): int {
    if ReaderClosed(l) || DueCredit(l) < threshold then 0 else if DueCredit(l) < 0x1_0000_0000 then DueCredit(l) else 0xFFFF_FFFF
  }

  const NOTHING := Part(0, 0, false, false, false, 0, [])

  /**
   * A part takes along the credit that is due and the most data that the rules permit, and `FIN_READ` or `FIN_WRITE` as soon
   * as the half is closed and, for the writer, everything else is sent. If all of this is nothing, there is no part.
   */
  ghost predicate Says(e: Endpoint, l: Log, k: Ref, allowance: nat, part: Option<Part>) {
    var p := if part.Some? then part.value else NOTHING;
    && (part.Some? <==> p.credit > 0 || p.data != [] || p.finRead || p.finWrite)
    && (part.Some? ==> p.tag == k && p.id == l.id && p.syn == (InitiatedBy(l.id) == e.role && l.sent == []))
    && p.credit == CreditNow(l, CreditThreshold(e.cfg.localWindow))
    && p.finRead == (ReaderClosed(l) && !FinReadIn(l.sent))
    && p.data <= Unsent(l) && SaysTheMost(e, l, k, allowance, |p.data|)
    && p.finWrite == (WriterClosed(l) && !FinWriteIn(l.sent) && p.data == Unsent(l))
  }

  ghost predicate SaysTheMost(e: Endpoint, l: Log, k: Ref, allowance: nat, n: nat)
  {
    InFlight(l) >= 0 &&
    var (unsent, inFlight) := (|Unsent(l)|, InFlight(l) as nat);
    && Planning.MaySend(k, unsent, inFlight, e.sh, e.cfg.remoteWindow, e.cfg.frameLimit, allowance, n)
    && (forall m: nat | Planning.MaySend(k, unsent, inFlight, e.sh, e.cfg.remoteWindow, e.cfg.frameLimit, allowance, m) :: m <= n)
  }

  lemma InSays(l: Log, i: Inbound.In, sh: Shared, base: nat, threshold: nat)
    requires InTells(l, i) && threshold >= 1
    ensures var p := Inbound.PollIn(i, sh, base, threshold);
            && (p.sent.Some? <==> CreditNow(l, threshold) > 0 || (ReaderClosed(l) && !FinReadIn(l.sent)))
            && (p.sent.Some? ==> p.sent.value.amount == CreditNow(l, threshold) && p.sent.value.fin == ReaderClosed(l))
            && p.sh == sh.(rxUsed := p.sh.rxUsed)
  {
    hide DataIn, CreditIn, ChunksIn, Flat, FinReadIn, FinWriteIn;
  }

  lemma UnsentWaits(l: Log, o: Outbound.Out)
    requires OutTells(l, o)
    ensures Unsent(l) == Outbound.Waiting(o)
  {
    hide DataIn, CreditIn;
    if !FinReadIn(l.got) {
      assert l.wrote[|DataIn(l.sent)|..] == Outbound.Waiting(o);
    }
  }

  lemma OutSays(l: Log, me: Ref, o: Outbound.Out, sh: Shared, base: nat, limit: nat, allowance: nat)
    requires OutTells(l, o) && Direction.OutOk(o) && Borrowed(o.unacked, base) <= sh.txUsed
    ensures var p := Outbound.PollOut(me, o, sh, base, limit, allowance);
            var data := if p.sent.Some? then p.sent.value.data else [];
            var fin := p.sent.Some? && p.sent.value.fin;
            && (p.sent.Some? <==> data != [] || fin)
            && data <= Unsent(l) && fin == (WriterClosed(l) && !FinWriteIn(l.sent) && data == Unsent(l))
            && Planning.MaySend(me, |Unsent(l)|, o.unacked, sh, base, limit, allowance, |data|)
            && (forall m: nat | Planning.MaySend(me, |Unsent(l)|, o.unacked, sh, base, limit, allowance, m) :: m <= |data|)
  {
    hide DataIn, CreditIn, FinReadIn, FinWriteIn, Outbound.Plan, Planning.MaySend, PassTurn, Unsent;
    UnsentWaits(l, o);
    if o.state.Closed? {
      NothingToSend(me, o.unacked, sh, base, limit, allowance);
    } else {
      Planning.SendsTheMost(me, |o.state.ready|, o.unacked, sh, base, limit, allowance);
      Direction.PlanCounts(me, |o.state.ready|, o.unacked, sh, base, limit, allowance);
    }
  }

  lemma NothingToSend(me: Ref, unacked: nat, sh: Shared, base: nat, limit: nat, allowance: nat)
    ensures Planning.MaySend(me, 0, unacked, sh, base, limit, allowance, 0)
    ensures forall m: nat | Planning.MaySend(me, 0, unacked, sh, base, limit, allowance, m) :: m <= 0
  {
  }

  lemma SameRules(me: Ref, waiting: nat, unacked: nat, sh: Shared, sh': Shared, base: nat, limit: nat, allowance: nat)
    requires sh'.queue == sh.queue && sh'.txUsed == sh.txUsed && sh'.txSize == sh.txSize
    ensures forall m: nat ::
              Planning.MaySend(me, waiting, unacked, sh, base, limit, allowance, m)
              == Planning.MaySend(me, waiting, unacked, sh', base, limit, allowance, m)
  {
  }

  /** What a poll yields. */
  lemma PollAnswers(e: Endpoint, n: nat, logs: Logs, k: Ref, allowance: nat)
    requires SideInv(e, n) && Remembers(e, logs) && k in logs
    ensures k in e.streams && Says(e, logs[k], k, allowance, Poll(e, k, allowance).1)
  {
    hide SideInv, OutTells, InTells, Inbound.PollIn, Outbound.PollOut, PassTurn, Forget, StreamFin, CreditNow, Unsent,
         Planning.MaySend, Direction.OutOk, Direction.InOk, FinReadIn, FinWriteIn, DataIn, CreditIn, ReaderClosed, WriterClosed;
    StreamFits(e, n, k);
    var (s, l) := (e.streams[k], logs[k]);
    assert Tells(l, s, e.role);
    var sh := e.sh.(awake := e.sh.awake - {k});
    var ip := Inbound.PollIn(s.inn, sh, e.cfg.localWindow, Threshold(e));
    InSays(l, s.inn, sh, e.cfg.localWindow, Threshold(e));
    OutSays(l, k, s.out, ip.sh, e.cfg.remoteWindow, e.cfg.frameLimit, allowance);
    OutCounts(l, s.out);
    CreditOrFin(l, Threshold(e));
    SameRules(k, |Unsent(l)|, s.out.unacked, e.sh, ip.sh, e.cfg.remoteWindow, e.cfg.frameLimit, allowance);
  }

  lemma OutCounts(l: Log, o: Outbound.Out)
    requires OutTells(l, o)
    ensures o.unacked == InFlight(l)
  {
  }

  lemma CreditOrFin(l: Log, threshold: nat)
    ensures ReaderClosed(l) ==> CreditNow(l, threshold) == 0
    ensures threshold >= 1 ==> CreditNow(l, threshold) >= 0
  {
  }

  lemma StreamFits(e: Endpoint, n: nat, k: Ref)
    requires SideInv(e, n) && k in e.streams
    ensures StreamOk(e.streams[k])
    ensures Borrowed(e.streams[k].out.unacked, e.cfg.remoteWindow) <= e.sh.txUsed
    ensures Borrowed(e.streams[k].inn.unacked, e.cfg.localWindow) <= e.sh.rxUsed
  {
    hide Wakeups.WakeInv, Tables.TableInv, Total;
    Pools.ShareFits(e, n, k);
  }

  // To the peer.

  /** The stream has this ID, and is not done on both sides. */
  predicate Holds(logs: Logs, k: Ref, id: Id) {
    k in logs && logs[k].id == id && !Finished(logs[k])
  }

  /** The streams that one side started and that are not done on both sides. */
  ghost function LiveBy(logs: Logs, starter: Role): set<Ref> {
    set k | k in logs && InitiatedBy(logs[k].id) == starter && !Finished(logs[k])
  }

  lemma DeadIsFinished(l: Log, s: Stream, role: Role)
    requires Tells(l, s, role)
    ensures Dead(s) <==> Finished(l)
  {
    hide FinReadIn, FinWriteIn, DataIn, CreditIn, ChunksIn, Flat;
    if Dead(s) {
      assert s.out.state.Closed? && s.inn.state.Closed?;
    }
  }

  /** The tables find exactly the streams that are not done. */
  lemma FindsTheHolder(e: Endpoint, logs: Logs, k: Ref, id: Id)
    requires Tables.TableInv(e) && Remembers(e, logs)
    ensures Lookup(e, id) == Some(k) <==> Holds(logs, k, id)
  {
    hide OutTells, InTells, Dead, Finished, Tables.Limits, Lookup;
    if k in logs {
      DeadIsFinished(logs[k], e.streams[k], e.role);
      assert SynTells(logs[k], e.streams[k], e.role);
    }
  }

  lemma {:induction false} InjectiveCount<K>(m: map<K, Ref>)
    requires forall i, j | i in m && j in m && m[i] == m[j] :: i == j
    ensures |m.Values| == |m|
  {
    if m != map[] {
      var x :| x in m;
      var rest := m - {x};
      InjectiveCount(rest);
      Tables.WithoutOne(m, x);
      assert m[x] !in rest.Values;
    }
  }

  /** The peer's streams that are not done are those in the table of the peer's streams. */
  lemma CountInbound(e: Endpoint, logs: Logs)
    requires Tables.TableInv(e) && Remembers(e, logs)
    ensures |e.inbound| == |LiveBy(logs, e.role.Peer())|
  {
    hide Remembers, Finished, Dead;
    forall id: Id | id in e.inbound ensures Holds(logs, e.inbound[id], id) && InitiatedBy(id) == e.role.Peer() {
      FindsTheHolder(e, logs, e.inbound[id], id);
    }
    forall k | k in LiveBy(logs, e.role.Peer()) ensures k in e.inbound.Values {
      FindsTheHolder(e, logs, k, logs[k].id);
      assert e.inbound[logs[k].id] == k;
    }
    assert e.inbound.Values == LiveBy(logs, e.role.Peer());
    InjectiveCount(e.inbound);
  }

  lemma SlotHolds(e: Endpoint, logs: Logs, x: nat)
    requires Tables.TableInv(e) && Remembers(e, logs) && x in e.outbound
    ensures e.outbound[x] in LiveBy(logs, e.role) && SlabIdx(logs[e.outbound[x]].id) == x
  {
    hide Remembers, Tables.Listed, Finished;
    FindsTheHolder(e, logs, e.outbound[x], FromSlabIdx(x, e.role).value);
  }

  lemma HolderHasSlot(e: Endpoint, logs: Logs, k: Ref)
    requires Tables.TableInv(e) && Remembers(e, logs) && k in LiveBy(logs, e.role)
    ensures k in e.outbound.Values
  {
    hide Remembers, Finished, Tables.TableInv;
    FindsTheHolder(e, logs, k, logs[k].id);
    assert e.outbound[SlabIdx(logs[k].id)] == k;
  }

  lemma CountOutbound(e: Endpoint, logs: Logs)
    requires Tables.TableInv(e) && Remembers(e, logs)
    ensures |e.outbound| == |LiveBy(logs, e.role)|
  {
    hide Remembers, Finished, Tables.TableInv, LiveBy;
    forall x | x in e.outbound ensures e.outbound[x] in LiveBy(logs, e.role) {
      SlotHolds(e, logs, x);
    }
    forall x, y | x in e.outbound && y in e.outbound && e.outbound[x] == e.outbound[y] ensures x == y {
      SlotHolds(e, logs, x);
      SlotHolds(e, logs, y);
    }
    forall k | k in LiveBy(logs, e.role) ensures k in e.outbound.Values {
      HolderHasSlot(e, logs, k);
    }
    assert e.outbound.Values == LiveBy(logs, e.role);
    InjectiveCount(e.outbound);
  }

  /** A stream starts exactly if fewer than the limit of those that this side started are not done. Its ID is not in use. */
  lemma OpensExactly(e: Endpoint, n: nat, logs: Logs, key: nat)
    requires SideInv(e, n) && Remembers(e, logs) && IsVacantKey(e, key)
    ensures OpenOutbound(e, key, n).Some? <==> |LiveBy(logs, e.role)| < e.cfg.maxOutbound
    ensures OpenOutbound(e, key, n).Some? ==>
              var id := OpenOutbound(e, key, n).value.1;
              && (id % 2 == 0 <==> e.role.Client?) && (forall k: Ref :: !Holds(logs, k, id))
              && n in OpenOutbound(e, key, n).value.0.tasks && n in OpenOutbound(e, key, n).value.0.sh.awake
  {
    hide Remembers, Finished, Dead, Wakeups.WakeInv, Pools.PoolInv, StreamsOk, Lookup, LiveBy, Holds;
    CountOutbound(e, logs);
    Tables.WithinLimits(e);
    if OpenOutbound(e, key, n).Some? {
      Lookups(e, n, 0);
      Tables.OpenKeeps(e, key, n);
      var id := OpenOutbound(e, key, n).value.1;
      forall k: Ref ensures !Holds(logs, k, id) {
        FindsTheHolder(e, logs, k, id);
      }
    }
  }

  /** The log of the stream that has this ID, or of a new one. */
  ghost function HolderLog(logs: Logs, id: Id): Log {
    if k: Ref :| Holds(logs, k, id) then logs[k] else Blank(id)
  }

  function Beyond(unacked: int, base: nat): nat {
    if unacked > base then unacked - base else 0
  }

  /** What the streams hold of the peer's pool. */
  ghost function Shares(logs: Logs, base: nat): Ref -> nat {
    (k: Ref) => if k in logs then Beyond(Uncredited(logs[k]), base) else 0
  }

  /** What the peer did wrong within a stream. `used` is what all streams hold of the pool. */
  ghost predicate StreamGuilty(l: Log, base: nat, used: nat, pool: nat, part: Part, v: Violation) {
    match v
    case WindowAfterFinRead => part.credit > 0 && FinReadIn(l.got)
    case TooMuchCredit => part.credit > InFlight(l)
    case DataAfterFinWrite => part.data != [] && FinWriteIn(l.got)
    case PoolExceeded =>
      && part.data != [] && !FinReadIn(l.sent)
      && used - Beyond(Uncredited(l), base) + Beyond(Uncredited(l) + |part.data|, base) > pool
    case DuplicateFinWrite => part.finWrite && FinWriteIn(l.got)
    case DuplicateFinRead => part.finRead && FinReadIn(l.got)
    case _ => false
  }

  /** What the peer did wrong with this part. */
  ghost predicate Guilty(role: Role, cfg: Config, n: nat, logs: Logs, part: Part, v: Violation) {
    var live := exists k: Ref :: Holds(logs, k, part.id);
    match v
    case UnknownStream => !part.syn && !live
    case WrongIdPool => part.syn && InitiatedBy(part.id) == role
    case OccupiedId => part.syn && InitiatedBy(part.id) != role && live
    case TooManyStreams => part.syn && InitiatedBy(part.id) != role && !live && |LiveBy(logs, role.Peer())| >= cfg.maxInbound
    case _ =>
      StreamGuilty(HolderLog(logs, part.id), cfg.localWindow, Total(Shares(logs, cfg.localWindow), n), cfg.localPool, part, v)
  }

  /** The order in which the parts of a frame are looked at. */
  function Order(v: Violation): nat {
    match v
    case UnknownStream => 0
    case WrongIdPool => 0
    case OccupiedId => 0
    case TooManyStreams => 0
    case WindowAfterFinRead => 1
    case TooMuchCredit => 2
    case DataAfterFinWrite => 3
    case PoolExceeded => 4
    case DuplicateFinWrite => 5
    case DuplicateFinRead => 6
  }

  lemma WindowExactly(l: Log, cfg: Config, k: Ref, s: Stream, sh: Shared, part: Part, role: Role)
    requires Tells(l, s, role)
    ensures var r := ArriveWindow(cfg, k, s, sh, part);
            && (r == Err(WindowAfterFinRead) <==> part.credit > 0 && FinReadIn(l.got))
            && (r == Err(TooMuchCredit) <==> !(part.credit > 0 && FinReadIn(l.got)) && part.credit > InFlight(l))
            && (r.Err? ==> r.error.WindowAfterFinRead? || r.error.TooMuchCredit?)
            && (r.Ok? ==> r.value.0.inn == s.inn && r.value.1.rxUsed == sh.rxUsed && r.value.1.rxSize == sh.rxSize)
            && (r.Ok? ==> Outbound.FinReadReceived(r.value.0.out) == FinReadIn(l.got))
  {
    hide FinReadIn, FinWriteIn, DataIn, CreditIn, ChunksIn, Flat, InTells;
  }

  lemma DataExactly(l: Log, cfg: Config, s: Stream, sh: Shared, part: Part)
    requires InTells(l, s.inn) && Borrowed(s.inn.unacked, cfg.localWindow) <= sh.rxUsed
    ensures var r := ArriveData(cfg, s, sh, part);
            && (r == Err(DataAfterFinWrite) <==> part.data != [] && FinWriteIn(l.got))
            && (r == Err(PoolExceeded) <==>
                  && !(part.data != [] && FinWriteIn(l.got))
                  && StreamGuilty(l, cfg.localWindow, sh.rxUsed, sh.rxSize, part, PoolExceeded))
            && (r.Err? ==> r.error.DataAfterFinWrite? || r.error.PoolExceeded?)
            && (r.Ok? ==> r.value.0.out == s.out && Inbound.FinWriteReceived(r.value.0.inn) == FinWriteIn(l.got))
  {
    hide FinReadIn, FinWriteIn, DataIn, CreditIn, ChunksIn, Flat;
  }

  lemma FinsExactly(cfg: Config, k: Ref, s: Stream, sh: Shared, part: Part)
    ensures var r := ArriveFinWrite(k, s, sh, part);
            && (r.Err? <==> part.finWrite && Inbound.FinWriteReceived(s.inn))
            && (if r.Err? then r.error.DuplicateFinWrite? else r.value.0.out == s.out)
    ensures var r := ArriveFinRead(cfg, k, s, sh, part);
            (r.Err? <==> part.finRead && Outbound.FinReadReceived(s.out)) && (r.Err? ==> r.error.DuplicateFinRead?)
  {
  }

  /** The first of the six things that can go wrong within a stream. */
  function FirstOf(a: bool, b: bool, c: bool, d: bool, e: bool, f: bool): Option<Violation> {
    if a then Some(WindowAfterFinRead)
    else if b then Some(TooMuchCredit)
    else if c then Some(DataAfterFinWrite)
    else if d then Some(PoolExceeded)
    else if e then Some(DuplicateFinWrite)
    else if f then Some(DuplicateFinRead)
    else None
  }

  ghost function FirstGuilt(l: Log, base: nat, used: nat, pool: nat, part: Part): Option<Violation> {
    FirstOf(StreamGuilty(l, base, used, pool, part, WindowAfterFinRead), StreamGuilty(l, base, used, pool, part, TooMuchCredit),
            StreamGuilty(l, base, used, pool, part, DataAfterFinWrite), StreamGuilty(l, base, used, pool, part, PoolExceeded),
            StreamGuilty(l, base, used, pool, part, DuplicateFinWrite), StreamGuilty(l, base, used, pool, part, DuplicateFinRead))
  }

  lemma FirstComesFirst(l: Log, base: nat, used: nat, pool: nat, part: Part, v: Violation)
    ensures FirstGuilt(l, base, used, pool, part) == Some(v) <==>
              && StreamGuilty(l, base, used, pool, part, v)
              && forall w | Order(w) < Order(v) :: !StreamGuilty(l, base, used, pool, part, w)
  {
    hide FinReadIn, FinWriteIn, InFlight, Uncredited, Beyond;
  }

  lemma ReceivedExactly(l: Log, cfg: Config, k: Ref, s: Stream, sh: Shared, part: Part, role: Role)
    requires Tells(l, s, role) && Borrowed(s.inn.unacked, cfg.localWindow) <= sh.rxUsed
    ensures var first := FirstGuilt(l, cfg.localWindow, sh.rxUsed, sh.rxSize, part);
            if first.Some? then Received(cfg, k, s, sh, part) == Err(first.value) else Received(cfg, k, s, sh, part).Ok?
  {
    hide FinReadIn, FinWriteIn, OutTells, InTells, ArriveWindow, ArriveData, ArriveFinWrite, ArriveFinRead, InFlight, Uncredited;
    WindowExactly(l, cfg, k, s, sh, part, role);
    if ArriveWindow(cfg, k, s, sh, part).Ok? {
      var (s1, sh1) := ArriveWindow(cfg, k, s, sh, part).value;
      DataExactly(l, cfg, s1, sh1, part);
      if ArriveData(cfg, s1, sh1, part).Ok? {
        var (s2, sh2) := ArriveData(cfg, s1, sh1, part).value;
        FinsExactly(cfg, k, s2, sh2, part);
        if ArriveFinWrite(k, s2, sh2, part).Ok? {
          var (s3, sh3) := ArriveFinWrite(k, s2, sh2, part).value;
          FinsExactly(cfg, k, s3, sh3, part);
        }
      }
    }
  }

  /** The pool holds what the logs say. */
  lemma SharesUsed(e: Endpoint, n: nat, logs: Logs)
    requires SideInv(e, n) && Remembers(e, logs)
    ensures e.sh.rxUsed == Total(Shares(logs, e.cfg.localWindow), n) && e.sh.rxSize == e.cfg.localPool
  {
    hide Wakeups.WakeInv, Tables.TableInv, Total, OutTells, StreamsOk, Uncredited;
    var (f, g) := (Pools.RxShare(e.streams, e.cfg.localWindow), Shares(logs, e.cfg.localWindow));
    forall k: Ref | k < n ensures f(k) == g(k) {
      if k in logs {
        assert Tells(logs[k], e.streams[k], e.role);
      }
    }
    TotalSame(f, g, n);
  }

  lemma HolderIs(e: Endpoint, logs: Logs, id: Id)
    requires Tables.TableInv(e) && Remembers(e, logs)
    ensures Lookup(e, id).Some? <==> exists k: Ref :: Holds(logs, k, id)
    ensures match Lookup(e, id)
            case Some(k) => k in logs && HolderLog(logs, id) == logs[k]
            case None => HolderLog(logs, id) == Blank(id)
  {
    hide Remembers, Tables.TableInv, Lookup, Finished;
    if Lookup(e, id).Some? {
      FindsTheHolder(e, logs, Lookup(e, id).value, id);
    }
    forall k: Ref | Holds(logs, k, id) ensures Lookup(e, id) == Some(k) {
      FindsTheHolder(e, logs, k, id);
    }
  }

  lemma HandledExactly(e: Endpoint, n: nat, logs: Logs, part: Part)
    requires SideInv(e, n) && Remembers(e, logs) && (Lookup(e, part.id).None? ==> part.tag !in e.streams)
    requires Lookup(e, part.id).None? ==> InitiatedBy(part.id) != e.role
    ensures var first := FirstGuilt(HolderLog(logs, part.id), e.cfg.localWindow, e.sh.rxUsed, e.sh.rxSize, part);
            match Lookup(e, part.id)
            case Some(k) => (if first.Some? then Handled(e, k, part) == Err(first.value) else Handled(e, k, part).Ok?)
            case None =>
              var e' := Created(e, part.tag, NewStream(part.id, false)).(inbound := e.inbound[part.id := part.tag]);
              (if first.Some? then Handled(e', part.tag, part) == Err(first.value) else Handled(e', part.tag, part).Ok?)
  {
    hide LocalInv, StreamsOk, Received, FirstGuilt, Tells, Lookup, HolderLog, Dead, Forget;
    Placed(e, n);
    HolderIs(e, logs, part.id);
    match Lookup(e, part.id)
    case Some(k) =>
      StreamFits(e, n, k);
      ReceivedExactly(logs[k], e.cfg, k, e.streams[k], e.sh, part, e.role);
    case None =>
      BlankTells(part.id, e.role);
      ReceivedExactly(Blank(part.id), e.cfg, part.tag, NewStream(part.id, false), Wake(e.sh, part.tag), part, e.role);
  }

  lemma Placed(e: Endpoint, n: nat)
    requires SideInv(e, n)
    ensures Tables.TableInv(e)
  {
    hide Wakeups.WakeInv, Pools.PoolInv, Tables.TableInv, StreamsOk;
  }

  /** The first thing that the peer is guilty of. */
  ghost function Verdict(role: Role, cfg: Config, n: nat, logs: Logs, part: Part): Option<Violation> {
    if Guilty(role, cfg, n, logs, part, UnknownStream) then Some(UnknownStream)
    else if Guilty(role, cfg, n, logs, part, WrongIdPool) then Some(WrongIdPool)
    else if Guilty(role, cfg, n, logs, part, OccupiedId) then Some(OccupiedId)
    else if Guilty(role, cfg, n, logs, part, TooManyStreams) then Some(TooManyStreams)
    else FirstGuilt(HolderLog(logs, part.id), cfg.localWindow, Total(Shares(logs, cfg.localWindow), n), cfg.localPool, part)
  }

  lemma VerdictIsFirst(role: Role, cfg: Config, n: nat, logs: Logs, part: Part, v: Violation)
    ensures Verdict(role, cfg, n, logs, part) == Some(v) <==>
              && Guilty(role, cfg, n, logs, part, v)
              && forall w | Order(w) < Order(v) :: !Guilty(role, cfg, n, logs, part, w)
  {
    hide StreamGuilty, LiveBy, HolderLog, Total, Holds, FirstGuilt;
    var (l, used) := (HolderLog(logs, part.id), Total(Shares(logs, cfg.localWindow), n));
    FirstComesFirst(l, cfg.localWindow, used, cfg.localPool, part, v);
    forall w: Violation | Order(w) > 0
      ensures Guilty(role, cfg, n, logs, part, w) == StreamGuilty(l, cfg.localWindow, used, cfg.localPool, part, w) {}
    NotOfStreams(l, cfg.localWindow, used, cfg.localPool, part);
  }

  lemma NotOfStreams(l: Log, base: nat, used: nat, pool: nat, part: Part)
    ensures forall w: Violation | Order(w) == 0 :: !StreamGuilty(l, base, used, pool, part, w)
  {
  }

  lemma ReceiveVerdict(e: Endpoint, n: nat, logs: Logs, part: Part)
    requires SideInv(e, n) && Remembers(e, logs) && part.tag == n
    ensures match Verdict(e.role, e.cfg, n, logs, part)
            case Some(v) => Receive(e, part) == Err(v)
            case None => Receive(e, part).Ok?
  {
    hide SideInv, Remembers, Handled, Lookup, LiveBy, HolderLog, Total, Holds, FirstGuilt, Created, Shares, StreamGuilty, Tables.TableInv;
    Placed(e, n);
    Unused(e, n);
    HolderIs(e, logs, part.id);
    CountInbound(e, logs);
    SharesUsed(e, n, logs);
    if Lookup(e, part.id).Some? || InitiatedBy(part.id) != e.role {
      HandledExactly(e, n, logs, part);
    }
  }

  lemma Unused(e: Endpoint, n: nat)
    requires SideInv(e, n)
    ensures n !in e.streams
  {
    hide LocalInv, StreamsOk;
    Lookups(e, n, 0);
  }

  /**
   * A violation is reported exactly if the peer is guilty of it, and it is the first one in the order in which a frame is
   * looked at. A part is accepted exactly if the peer is guilty of nothing.
   */
  lemma RefusesExactly(e: Endpoint, n: nat, logs: Logs, part: Part)
    requires SideInv(e, n) && Remembers(e, logs) && part.tag == n
    ensures forall v: Violation :: Receive(e, part) == Err(v) <==>
              && Guilty(e.role, e.cfg, n, logs, part, v)
              && forall w | Order(w) < Order(v) :: !Guilty(e.role, e.cfg, n, logs, part, w)
    ensures Receive(e, part).Ok? <==> forall v: Violation :: !Guilty(e.role, e.cfg, n, logs, part, v)
  {
    hide SideInv, Remembers, Receive, Guilty, Verdict;
    ReceiveVerdict(e, n, logs, part);
    forall v: Violation
      ensures Receive(e, part) == Err(v) <==>
                && Guilty(e.role, e.cfg, n, logs, part, v)
                && forall w | Order(w) < Order(v) :: !Guilty(e.role, e.cfg, n, logs, part, w)
    {
      VerdictIsFirst(e.role, e.cfg, n, logs, part, v);
    }
    if v: Violation :| Guilty(e.role, e.cfg, n, logs, part, v) {
      SomeVerdict(e.role, e.cfg, n, logs, part, v);
    }
  }

  lemma SomeVerdict(role: Role, cfg: Config, n: nat, logs: Logs, part: Part, v: Violation)
    requires Guilty(role, cfg, n, logs, part, v)
    ensures Verdict(role, cfg, n, logs, part).Some?
  {
    hide StreamGuilty, LiveBy, HolderLog, Total, Holds;
  }

  // In every run of one side, with any peer.

  /** What the next part is answered with, in terms of the logs alone. */
  lemma AnyPeerIsAnswered(role: Role, cfg: Config, ops: seq<Op>, e: Endpoint, n: nat, logs: Logs, part: Part)
    requires Kept(role, cfg, ops, e, n, logs)
    ensures forall v: Violation :: Do(e, n, Receives(part)) == Err(v) <==>
              && Guilty(role, cfg, n, logs, part.(tag := n), v)
              && forall w | Order(w) < Order(v) :: !Guilty(role, cfg, n, logs, part.(tag := n), w)
    ensures Do(e, n, Receives(part)).Ok? <==> forall v: Violation :: !Guilty(role, cfg, n, logs, part.(tag := n), v)
  {
    hide SideInv, Remembers, Receive, Guilty, Kept;
    LogsDetermine(role, cfg, ops, e, n, logs);
    RefusesExactly(e, n, logs, part.(tag := n));
  }

  /** What a stream answers to its application and to a poll, and whether a stream can be opened, likewise. */
  lemma OwnSideIsAnswered(role: Role, cfg: Config, ops: seq<Op>, e: Endpoint, n: nat, logs: Logs, k: Ref, data: Bytes, allowance: nat)
    requires Kept(role, cfg, ops, e, n, logs) && k in logs
    ensures k in e.streams && Says(e, logs[k], k, allowance, Poll(e, k, allowance).1)
    ensures var (l, chunks, wrote, read) := (logs[k], ChunksIn(logs[k].got), AnswerTo(e.streams[k], Write(data)), AnswerTo(e.streams[k], Read));
            && (wrote == Wrote(Outbound.BrokenPipe) <==> WriterClosed(l))
            && (wrote == Wrote(Outbound.Accepted) <==> !WriterClosed(l) && DataIn(l.sent) == l.wrote)
            && (read == Got(Inbound.End) <==> ReaderClosed(l))
            && (read == Got(Inbound.Pending) <==> !ReaderClosed(l) && l.read == chunks)
            && (!ReaderClosed(l) && |l.read| < |chunks| ==> read == Got(Inbound.Data(chunks[|l.read|])))
    ensures forall key: nat | IsVacantKey(e, key) :: OpenOutbound(e, key, n).Some? <==> |LiveBy(logs, role)| < cfg.maxOutbound
  {
    hide SideInv, Tells, Kept, Says, StreamOk, AnswerTo, ReaderClosed, WriterClosed, ChunksIn, DataIn, OpenOutbound, IsVacantKey, LiveBy, Poll;
    LogsDetermine(role, cfg, ops, e, n, logs);
    PollAnswers(e, n, logs, k, allowance);
    StreamFits(e, n, k);
    WriteAnswers(logs[k], e.streams[k], role, data);
    ReadAnswers(logs[k], e.streams[k], role);
    forall key: nat | IsVacantKey(e, key) ensures OpenOutbound(e, key, n).Some? <==> |LiveBy(logs, role)| < cfg.maxOutbound {
      OpensExactly(e, n, logs, key);
    }
  }
}
