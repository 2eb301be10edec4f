/** Bounded bypass: a stream in the turn queue is overtaken by nobody. */
module Bypass {
  import opened Prelude
  import opened Flow
  import opened TurnQueue
  import opened SharedFlow
  import opened Endpoint
  import opened Local
  import Direction
  import Outbound
  import Inbound
  import Wakeups

  /** The streams that wait in front of `r`. */
  function Ahead(q: seq<Ref>, r: Ref): seq<Ref> {
    if q == [] || q[0] == r then [] else [q[0]] + Ahead(q[1..], r)
  }

  lemma {:induction false} AheadLeave(q: seq<Ref>, x: Ref, r: Ref)
    requires x != r
    ensures multiset(Ahead(Leave(q, x), r)) <= multiset(Ahead(q, r))
  {
    if q == [] || q[0] == r {
    } else if q[0] == x {
      assert Ahead(q, r) == [x] + Ahead(q[1..], r);
    } else {
      AheadLeave(q[1..], x, r);
      assert Leave(q, x)[1..] == Leave(q[1..], x);
      assert Ahead(q, r) == [q[0]] + Ahead(q[1..], r);
    }
  }

  lemma {:induction false} AheadAppend(q: seq<Ref>, x: Ref, r: Ref)
    requires r in q
    ensures Ahead(q + [x], r) == Ahead(q, r)
  {
    if q[0] != r {
      AheadAppend(q[1..], x, r);
      assert (q + [x])[1..] == q[1..] + [x];
    }
  }

  /** Joining does not overtake. */
  lemma AheadJoin(q: seq<Ref>, x: Ref, r: Ref)
    requires r in q
    ensures Ahead(Join(q, x), r) == Ahead(q, r)
  {
    AheadAppend(q, x, r);
  }

  /** The streams in front of `r` are at most those that were, without the one that borrowed. */
  ghost predicate NotOvertaken(q: seq<Ref>, q': seq<Ref>, r: Ref, borrower: Option<Ref>) {
    multiset(Ahead(q', r)) + (if borrower.Some? then multiset{borrower.value} else multiset{}) <= multiset(Ahead(q, r))
  }

  function Grew(before: nat, after: nat, base: nat, me: Ref): Option<Ref> {
    if Borrowed(after, base) > Borrowed(before, base) then Some(me) else None
  }

  lemma PassKeeps(sh: Shared, me: Ref, r: Ref)
    requires Distinct(sh.queue) && r in sh.queue
    ensures r in PassTurn(sh, me).queue ==> NotOvertaken(sh.queue, PassTurn(sh, me).queue, r, None)
    ensures me == r ==> r !in PassTurn(sh, me).queue
  {
    LeaveMembers(sh.queue, me);
    if me != r {
      AheadLeave(sh.queue, me, r);
    }
  }

  lemma TakesKeeps(sh: Shared, me: Ref, more: bool, r: Ref)
    requires Distinct(sh.queue) && r in sh.queue && me != r && HasTurn(sh.queue, me)
    ensures var q' := Outbound.TakesTurn(sh, me, more).queue;
            r in q' && NotOvertaken(sh.queue, q', r, Some(me))
  {
    var rest := sh.queue[1..];
    assert Leave(sh.queue, me) == rest && r in rest;
    AheadJoin(rest, me, r);
    assert Ahead(sh.queue, r) == [me] + Ahead(rest, r);
  }

  /** What a plan does to the queue: leave, stay, join, or take the turn. Only the last one borrows. */
  lemma PlanCases(me: Ref, waiting: nat, unacked: nat, sh: Shared, base: nat, limit: nat, allowance: nat)
    ensures var p := Outbound.Plan(me, waiting, unacked, sh, base, limit, allowance);
            var b := Grew(unacked, p.unacked, base, me);
            && Borrowed(p.unacked, base) <= Borrowed(unacked, base) + limit
            && (b.None? ==> p.sh.queue == PassTurn(sh, me).queue || p.sh.queue == sh.queue || p.sh.queue == Join(sh.queue, me))
            && (b.Some? ==>
                  && HasTurn(sh.queue, me)
                  && p.sh == Outbound.TakesTurn(Outbound.Sends(sh, unacked, base, p.n), me, waiting > p.n))
  {
    hide PassTurn, Join, Outbound.TakesTurn;
  }

  lemma PlanKeeps(me: Ref, waiting: nat, unacked: nat, sh: Shared, base: nat, limit: nat, allowance: nat, r: Ref)
    requires Distinct(sh.queue) && r in sh.queue
    ensures var p := Outbound.Plan(me, waiting, unacked, sh, base, limit, allowance);
            var b := Grew(unacked, p.unacked, base, me);
            && (b != Some(r) && r in p.sh.queue ==> NotOvertaken(sh.queue, p.sh.queue, r, b))
            && Borrowed(p.unacked, base) <= Borrowed(unacked, base) + limit
            && Distinct(p.sh.queue)
  {
    hide Outbound.Plan, PassTurn, Join, Outbound.TakesTurn, Ahead;
    PlanCases(me, waiting, unacked, sh, base, limit, allowance);
    var p := Outbound.Plan(me, waiting, unacked, sh, base, limit, allowance);
    var b := Grew(unacked, p.unacked, base, me);
    if b.None? {
      Wakeups.PassTurnDistinct(sh, me);
      PassKeeps(sh, me, r);
      JoinMembers(sh.queue, me);
      AheadJoin(sh.queue, me, r);
    } else {
      var sent := Outbound.Sends(sh, unacked, base, p.n);
      Wakeups.TakesTurnKeeps(sent, me, waiting > p.n);
      if me != r {
        TakesKeeps(sent, me, waiting > p.n, r);
      }
    }
  }

  lemma PollOutKeeps(me: Ref, o: Outbound.Out, sh: Shared, base: nat, limit: nat, allowance: nat, r: Ref)
    requires Distinct(sh.queue) && r in sh.queue
    ensures var p := Outbound.PollOut(me, o, sh, base, limit, allowance);
            var b := Grew(o.unacked, p.o.unacked, base, me);
            && (b != Some(r) && r in p.sh.queue ==> NotOvertaken(sh.queue, p.sh.queue, r, b))
            && Borrowed(p.o.unacked, base) <= Borrowed(o.unacked, base) + limit
            && Distinct(p.sh.queue)
  {
    hide Outbound.Plan, NotOvertaken, PassTurn;
    if o.state.Closed? {
      PassKeeps(sh, me, r);
      Wakeups.PassTurnDistinct(sh, me);
    } else {
      PlanKeeps(me, |o.state.ready|, o.unacked, sh, base, limit, allowance, r);
      Direction.PlanCounts(me, |o.state.ready|, o.unacked, sh, base, limit, allowance);
    }
  }

  // One operation.

  /** The stream that takes more of the pool in this operation, if any. */
  function Borrower(e: Endpoint, op: Op): Option<Ref> {
    if op.Polls? && op.k in e.tasks && op.k in e.streams && op.k in Poll(e, op.k, op.allowance).0.streams then
      Grew(e.streams[op.k].out.unacked, Poll(e, op.k, op.allowance).0.streams[op.k].out.unacked, e.cfg.remoteWindow, op.k)
    else None
  }

  lemma PollQueue(e: Endpoint, k: Ref, allowance: nat)
    requires k in e.streams
    ensures var s := e.streams[k];
            var ip := Inbound.PollIn(s.inn, e.sh.(awake := e.sh.awake - {k}), e.cfg.localWindow, Threshold(e));
            var op := Outbound.PollOut(k, s.out, ip.sh, e.cfg.remoteWindow, e.cfg.frameLimit, allowance);
            var e' := Poll(e, k, allowance).0;
            && k in e'.streams && e'.streams[k].out == op.o
            && ip.sh.queue == e.sh.queue
            && (e'.sh.queue == op.sh.queue || e'.sh.queue == PassTurn(op.sh, k).queue)
  {
    hide Outbound.PollOut, PassTurn, Dead, Forget, StreamFin;
  }

  lemma PollKeepsPlace(e: Endpoint, k: Ref, allowance: nat, r: Ref)
    requires Distinct(e.sh.queue) && k in e.streams && r in e.sh.queue
    requires r in Poll(e, k, allowance).0.sh.queue
    ensures k in Poll(e, k, allowance).0.streams
    ensures var e' := Poll(e, k, allowance).0;
            var b := Grew(e.streams[k].out.unacked, e'.streams[k].out.unacked, e.cfg.remoteWindow, k);
            && (b != Some(r) ==> NotOvertaken(e.sh.queue, e'.sh.queue, r, b))
            && Borrowed(e'.streams[k].out.unacked, e.cfg.remoteWindow)
                 <= Borrowed(e.streams[k].out.unacked, e.cfg.remoteWindow) + e.cfg.frameLimit
  {
    hide Poll, Inbound.PollIn, Outbound.PollOut, NotOvertaken, PassTurn, Distinct, Borrowed;
    PollQueue(e, k, allowance);
    var s := e.streams[k];
    var ip := Inbound.PollIn(s.inn, e.sh.(awake := e.sh.awake - {k}), e.cfg.localWindow, Threshold(e));
    var op := Outbound.PollOut(k, s.out, ip.sh, e.cfg.remoteWindow, e.cfg.frameLimit, allowance);
    PollOutKeeps(k, s.out, ip.sh, e.cfg.remoteWindow, e.cfg.frameLimit, allowance, r);
    var b := Grew(s.out.unacked, op.o.unacked, e.cfg.remoteWindow, k);
    var q' := Poll(e, k, allowance).0.sh.queue;
    if b != Some(r) {
      PassedOn(op.sh, k, r, q');
      Chain(e.sh.queue, op.sh.queue, q', r, b);
    }
  }

  /** After the poll, a stream whose task is done leaves the queue. */
  lemma PassedOn(sh: Shared, k: Ref, r: Ref, q: seq<Ref>)
    requires Distinct(sh.queue) && r in q
    requires q == sh.queue || q == PassTurn(sh, k).queue
    ensures r in sh.queue && NotOvertaken(sh.queue, q, r, None)
  {
    LeaveMembers(sh.queue, k);
    PassKeeps(sh, k, r);
  }

  lemma Chain(q: seq<Ref>, q1: seq<Ref>, q2: seq<Ref>, r: Ref, b: Option<Ref>)
    requires NotOvertaken(q, q1, r, b) && NotOvertaken(q1, q2, r, None)
    ensures NotOvertaken(q, q2, r, b)
  {
  }

  lemma ReceivedSameQueue(cfg: Config, k: Ref, s: Stream, sh: Shared, part: Part)
    requires Received(cfg, k, s, sh, part).Ok?
    ensures Received(cfg, k, s, sh, part).value.1.queue == sh.queue
  {
    hide ArriveWindow, ArriveData, ArriveFinWrite, ArriveFinRead;
    var (s1, sh1) := ArriveWindow(cfg, k, s, sh, part).value;
    ArriveSameQueue(cfg, k, s, sh, part);
    var (s2, sh2) := ArriveData(cfg, s1, sh1, part).value;
    ArriveSameQueue(cfg, k, s1, sh1, part);
    var (s3, sh3) := ArriveFinWrite(k, s2, sh2, part).value;
    ArriveSameQueue(cfg, k, s2, sh2, part);
    ArriveSameQueue(cfg, k, s3, sh3, part);
  }

  lemma ArriveSameQueue(cfg: Config, k: Ref, s: Stream, sh: Shared, part: Part)
    ensures var r := ArriveWindow(cfg, k, s, sh, part); r.Ok? ==> r.value.1.queue == sh.queue
    ensures var r := ArriveData(cfg, s, sh, part); r.Ok? ==> r.value.1.queue == sh.queue
    ensures var r := ArriveFinWrite(k, s, sh, part); r.Ok? ==> r.value.1.queue == sh.queue
    ensures var r := ArriveFinRead(cfg, k, s, sh, part); r.Ok? ==> r.value.1.queue == sh.queue
  {
  }

  lemma SameQueue(e: Endpoint, n: nat, op: Op)
    requires !op.Polls? && Do(e, n, op).Ok?
    ensures Do(e, n, op).value.0.sh.queue == e.sh.queue
  {
    hide Dead, Called, CallWakes, Received;
    if op.Receives? {
      var part := op.part.(tag := n);
      match Lookup(e, part.id)
      case Some(k) =>
        ReceivedSameQueue(e.cfg, k, At(e, k, part.id), e.sh, part);
      case None =>
        ReceivedSameQueue(e.cfg, n, NewStream(part.id, false), Wake(e.sh, n), part);
    }
  }

  lemma StepKeepsPlace(e: Endpoint, n: nat, op: Op, r: Ref)
    requires Distinct(e.sh.queue) && r in e.sh.queue && Do(e, n, op).Ok?
    requires r in Do(e, n, op).value.0.sh.queue && Borrower(e, op) != Some(r)
    ensures NotOvertaken(e.sh.queue, Do(e, n, op).value.0.sh.queue, r, Borrower(e, op))
  {
    hide Poll, Receive, Call, OpenOutbound;
    if op.Polls? {
      if op.k in e.tasks && op.k in e.streams {
        PollKeepsPlace(e, op.k, op.allowance, r);
      }
    } else {
      SameQueue(e, n, op);
    }
  }

  // Runs.

  /** Stream `r` is in the queue all the time, and does not get its turn. */
  ghost predicate Waits(e: Endpoint, n: nat, ops: seq<Op>, r: Ref)
    decreases |ops|
  {
    && r in e.sh.queue
    && (ops != [] ==>
          && Do(e, n, ops[0]).Ok? && Borrower(e, ops[0]) != Some(r)
          && var (e', n') := Do(e, n, ops[0]).value; Waits(e', n', ops[1..], r))
  }

  /** The streams that took more of the pool, in order. */
  function Borrowers(e: Endpoint, n: nat, ops: seq<Op>): seq<Ref>
    decreases |ops|
  {
    if ops == [] || Do(e, n, ops[0]).Err? then []
    else
      var (e', n') := Do(e, n, ops[0]).value;
      (if Borrower(e, ops[0]).Some? then [Borrower(e, ops[0]).value] else []) + Borrowers(e', n', ops[1..])
  }

  /**
   * While a stream waits, only streams that were ahead of it borrow, each at most once, and nobody gets ahead of it.
   * So the number of borrows and of streams still ahead is at most the number of streams that were ahead.
   */
  lemma {:induction false} BoundedBypass(e: Endpoint, n: nat, ops: seq<Op>, r: Ref)
    requires SideInv(e, n) && Waits(e, n, ops, r)
    ensures DoAll(e, n, ops).Ok?
    ensures var (e', n') := DoAll(e, n, ops).value;
            var borrowers := Borrowers(e, n, ops);
            && multiset(borrowers) + multiset(Ahead(e'.sh.queue, r)) <= multiset(Ahead(e.sh.queue, r))
            && |borrowers| + |Ahead(e'.sh.queue, r)| <= |Ahead(e.sh.queue, r)|
    decreases |ops|
  {
    hide SideInv, Do, Borrower, Ahead;
    if ops != [] {
      var (e1, n1) := Do(e, n, ops[0]).value;
      DoKeeps(e, n, ops[0]);
      QueueDistinct(e, n);
      StepKeepsPlace(e, n, ops[0], r);
      BoundedBypass(e1, n1, ops[1..], r);
      var (e', n') := DoAll(e, n, ops).value;
      var first := if Borrower(e, ops[0]).Some? then [Borrower(e, ops[0]).value] else [];
      var rest := Borrowers(e1, n1, ops[1..]);
      assert multiset(first + rest) == multiset(first) + multiset(rest);
    }
    var (e', n') := DoAll(e, n, ops).value;
    SubMultisetCount(Borrowers(e, n, ops) + Ahead(e'.sh.queue, r), Ahead(e.sh.queue, r));
  }

  lemma QueueDistinct(e: Endpoint, n: nat)
    requires SideInv(e, n)
    ensures Distinct(e.sh.queue)
  {
  }

  lemma SubMultisetCount(a: seq<Ref>, b: seq<Ref>)
    requires multiset(a) <= multiset(b)
    ensures |a| <= |b|
  {
    assert multiset(b) == multiset(a) + (multiset(b) - multiset(a));
    assert |multiset(a)| == |a| && |multiset(b)| == |b|;
  }

  lemma OneFrame(k: Ref, o: Outbound.Out, sh: Shared, base: nat, limit: nat, allowance: nat)
    ensures Borrowed(Outbound.PollOut(k, o, sh, base, limit, allowance).o.unacked, base) <= Borrowed(o.unacked, base) + limit
  {
    hide PassTurn, Outbound.TakesTurn, Outbound.Sends;
  }

  /** A turn moves one frame at most. */
  lemma OneFramePerTurn(e: Endpoint, k: Ref, allowance: nat)
    requires k in e.streams
    ensures k in Poll(e, k, allowance).0.streams
    ensures Borrowed(Poll(e, k, allowance).0.streams[k].out.unacked, e.cfg.remoteWindow)
              <= Borrowed(e.streams[k].out.unacked, e.cfg.remoteWindow) + e.cfg.frameLimit
  {
    hide PassTurn, Forget, Dead, Inbound.PollIn, Outbound.PollOut, StreamFin;
    var s := e.streams[k];
    var ip := Inbound.PollIn(s.inn, e.sh.(awake := e.sh.awake - {k}), e.cfg.localWindow, Threshold(e));
    OneFrame(k, s.out, ip.sh, e.cfg.remoteWindow, e.cfg.frameLimit, allowance);
  }
}
