/** What the sender's decision amounts to: it sends as much as the rules permit, and queues up only if that can help. */
module Planning {
  import opened Prelude
  import opened Flow
  import opened TurnQueue
  import opened SharedFlow
  import opened Outbound

  /** The rules permit to send `m` bytes now: within the base window, or by borrowing, within three limits. */
  ghost predicate MaySend(me: Ref, waiting: nat, unacked: nat, sh: Shared, base: nat, limit: nat, allowance: nat, m: nat) {
    && m <= waiting && m <= limit
    && (unacked + m <= base || m == 0
        || (&& (sh.queue == [] || sh.queue[0] == me)
            && Borrowed(unacked + m, base) <= allowance
            && sh.txUsed + (Borrowed(unacked + m, base) - Borrowed(unacked, base)) <= sh.txSize))
  }

  /** The sender sends the most that the rules permit. */
  lemma SendsTheMost(me: Ref, waiting: nat, unacked: nat, sh: Shared, base: nat, limit: nat, allowance: nat)
    requires Borrowed(unacked, base) <= sh.txUsed
    ensures var p := Plan(me, waiting, unacked, sh, base, limit, allowance);
            && MaySend(me, waiting, unacked, sh, base, limit, allowance, p.n)
            && (forall m: nat | MaySend(me, waiting, unacked, sh, base, limit, allowance, m) :: m <= p.n)
            && p.unacked == unacked + p.n
            && p.sh.txUsed - Borrowed(p.unacked, base) == sh.txUsed - Borrowed(unacked, base)
  {
    hide PassTurn, Join, TakesTurn;
    TakesTurnKeeps(Sends(sh, unacked, base, Plan(me, waiting, unacked, sh, base, limit, allowance).n), me, true);
    TakesTurnKeeps(Sends(sh, unacked, base, Plan(me, waiting, unacked, sh, base, limit, allowance).n), me, false);
  }

  lemma TakesTurnKeeps(sh: Shared, me: Ref, more: bool)
    ensures var r := TakesTurn(sh, me, more); r == sh.(queue := r.queue, awake := r.awake)
  {
  }

  /**
   * The stream waits in the queue exactly when a turn can help it: it could send nothing but its allowance is not used
   * up, or it borrowed and has more to send. If it sent within its base window, its place in the queue is as before.
   */
  lemma QueuesWhenItHelps(me: Ref, waiting: nat, unacked: nat, sh: Shared, base: nat, limit: nat, allowance: nat)
    requires Distinct(sh.queue) && limit >= 1
    ensures var p := Plan(me, waiting, unacked, sh, base, limit, allowance);
            && Distinct(p.sh.queue)
            && (forall other | other != me :: other in p.sh.queue <==> other in sh.queue)
            && (waiting == 0 ==> me !in p.sh.queue)
            && (waiting > 0 && p.n == 0 ==> (me in p.sh.queue <==> allowance > Borrowed(unacked, base)))
            && (p.n > BaseRoom(unacked, base) ==> (me in p.sh.queue <==> waiting > p.n))
            && (0 < p.n <= BaseRoom(unacked, base) ==> p.sh.queue == sh.queue)
  {
    LeaveMembers(sh.queue, me);
    JoinMembers(sh.queue, me);
    JoinMembers(Leave(sh.queue, me), me);
  }
}
