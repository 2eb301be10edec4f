/** What the streams of one side yield when they are polled: only what can be sent, and only finitely often. */
module Yields {
  import opened Prelude
  import opened TurnQueue
  import opened SharedFlow
  import opened Endpoint
  import opened Local
  import Outbound
  import Inbound
  import Wakeups
  import Tables
  import Safety
  import Progress

  /** What a stream may yield: something, within the limits, and no credit along with `FIN_READ`. */
  predicate LegalPart(p: Part, frameLimit: nat) {
    && (p.finRead || p.finWrite || p.credit > 0 || p.data != [])
    && p.credit <= Inbound.MAX_CREDIT && |p.data| <= frameLimit
    && !(p.finRead && p.credit > 0)
  }

  lemma CreditLegal(i: Inbound.In, sh: Shared, base: nat, threshold: nat)
    requires threshold >= 1
    ensures var p := Inbound.PollIn(i, sh, base, threshold);
            p.sent.Some? ==> p.sent.value.amount <= Inbound.MAX_CREDIT && (p.sent.value.fin <==> p.sent.value.amount == 0)
  {
  }

  lemma ChunkLegal(me: Ref, o: Outbound.Out, sh: Shared, base: nat, limit: nat, allowance: nat)
    ensures var p := Outbound.PollOut(me, o, sh, base, limit, allowance);
            p.sent.Some? ==> |p.sent.value.data| <= limit && (p.sent.value.data != [] || p.sent.value.fin)
  {
    hide PassTurn, Outbound.TakesTurn, Outbound.Sends;
  }

  /** In any state, for any allowance, a stream yields only what can be sent. */
  lemma YieldsLegal(e: Endpoint, k: Ref, allowance: nat)
    requires k in e.streams
    ensures var part := Poll(e, k, allowance).1;
            part.Some? ==> LegalPart(part.value, e.cfg.frameLimit) && part.value.tag == k && part.value.id == e.streams[k].id
  {
    hide Inbound.PollIn, Outbound.PollOut, Yielded;
    var s := e.streams[k];
    var sh := e.sh.(awake := e.sh.awake - {k});
    CreditLegal(s.inn, sh, e.cfg.localWindow, Threshold(e));
    var ip := Inbound.PollIn(s.inn, sh, e.cfg.localWindow, Threshold(e));
    ChunkLegal(k, s.out, ip.sh, e.cfg.remoteWindow, e.cfg.frameLimit, allowance);
  }

  // Polling the streams.

  /** What is left to do on one side. */
  ghost function SideWeight(e: Endpoint, n: nat): nat {
    Total(Progress.WeightAt(e), n)
  }

  /** Polls streams in the given order, and collects what they yield. */
  function PollAll(e: Endpoint, polled: seq<(Ref, nat)>): (Endpoint, seq<Part>)
    decreases |polled|
  {
    if polled == [] || polled[0].0 !in e.streams then (e, [])
    else
      var (e1, part) := Poll(e, polled[0].0, polled[0].1);
      var (e2, parts) := PollAll(e1, polled[1..]);
      (e2, Then(part, parts))
  }

  lemma PollsMore(e: Endpoint, n: nat, k: Ref, allowance: nat)
    requires SideInv(e, n) && k in e.sh.awake
    ensures k in e.tasks && k in e.streams && Distinct(e.sh.queue)
    ensures var (e', part) := Poll(e, k, allowance);
            && SideInv(e', n)
            && (part.None? ==> SideWeight(e', n) == SideWeight(e, n))
            && (part.Some? ==> SideWeight(e', n) < SideWeight(e, n) && LegalPart(part.value, e.cfg.frameLimit))
  {
    hide SideInv, Poll, Progress.StreamWeight, Total, StreamOk, Dead, StreamFin;
    AwakeStream(e, n, k);
    DoKeeps(e, n, Op.Polls(k, allowance));
    YieldsLegal(e, k, allowance);
    Progress.PollWeight(e, k, allowance);
    Safety.PollShape(e, k, allowance);
    Progress.OneWeight(e, Poll(e, k, allowance).0, n, k, 0);
  }

  lemma AwakeStream(e: Endpoint, n: nat, k: Ref)
    requires SideInv(e, n) && k in e.sh.awake
    ensures k in e.tasks && k in e.streams && k < n && StreamOk(e.streams[k]) && Distinct(e.sh.queue)
    ensures !StreamFin(e.streams[k]).sent
  {
    hide Tables.TableInv, StreamOk, Total, Wakeups.Idle;
    assert Wakeups.TaskOk(e, k);
  }

  function Then(first: Option<Part>, rest: seq<Part>): seq<Part> {
    if first.Some? then [first.value] + rest else rest
  }

  lemma {:induction false} PollAllAppend(e: Endpoint, a: seq<(Ref, nat)>, b: seq<(Ref, nat)>)
    requires Follows(e, a)
    ensures var (e1, p1) := PollAll(e, a);
            var (e2, p2) := PollAll(e1, b);
            PollAll(e, a + b) == (e2, p1 + p2)
    decreases |a|
  {
    hide Poll;
    var (e1, p1) := PollAll(e, a);
    var (e2, p2) := PollAll(e1, b);
    if a == [] {
      assert a + b == b && p1 + p2 == p2;
    } else {
      var (e', part) := Poll(e, a[0].0, a[0].1);
      PollAllAppend(e', a[1..], b);
      assert (a + b)[0] == a[0] && (a + b)[1..] == a[1..] + b;
      ThenAppend(part, PollAll(e', a[1..]).1, p2);
    }
  }

  lemma ThenAppend(first: Option<Part>, a: seq<Part>, b: seq<Part>)
    ensures Then(first, a + b) == Then(first, a) + b
  {
    if first.Some? {
      assert [first.value] + (a + b) == [first.value] + a + b;
    }
  }

  /** Every poll is of a stream that was woken. */
  predicate Follows(e: Endpoint, polled: seq<(Ref, nat)>)
    decreases |polled|
  {
    polled != [] ==>
      polled[0].0 in e.sh.awake && polled[0].0 in e.streams && Follows(Poll(e, polled[0].0, polled[0].1).0, polled[1..])
  }

  /** What a stream may have borrowed, at the time of each poll. */
  type Allowances = (nat, Ref) -> nat

  /** The polls, of which the first has the number `from`, had the allowances of their time. */
  ghost predicate Allowed(allowances: Allowances, from: nat, polled: seq<(Ref, nat)>) {
    forall i | 0 <= i < |polled| :: polled[i].1 == allowances(from + i, polled[i].0)
  }

  lemma AllowedAppend(allowances: Allowances, from: nat, a: seq<(Ref, nat)>, b: seq<(Ref, nat)>)
    requires Allowed(allowances, from, a) && Allowed(allowances, from + |a|, b)
    ensures Allowed(allowances, from, a + b)
  {
    forall i | |a| <= i < |a + b|
      ensures (a + b)[i].1 == allowances(from + i, (a + b)[i].0)
    {
      assert (a + b)[i] == b[i - |a|] && from + |a| + (i - |a|) == from + i;
    }
  }

  lemma PollOne(e: Endpoint, k: Ref, allowance: nat)
    requires k in e.sh.awake && k in e.streams
    ensures Follows(e, [(k, allowance)])
    ensures var (e', part) := Poll(e, k, allowance);
            PollAll(e, [(k, allowance)]) == (e', Then(part, []))
  {
    hide Poll;
    var (e', part) := Poll(e, k, allowance);
    assert PollAll(e', [(k, allowance)][1..]) == (e', []);
  }

  lemma {:induction false} FollowsAppend(e: Endpoint, a: seq<(Ref, nat)>, b: seq<(Ref, nat)>)
    requires Follows(e, a) && Follows(PollAll(e, a).0, b)
    ensures Follows(e, a + b)
    decreases |a|
  {
    hide Poll;
    if a == [] {
      assert a + b == b;
    } else {
      FollowsAppend(Poll(e, a[0].0, a[0].1).0, a[1..], b);
      assert (a + b)[0] == a[0] && (a + b)[1..] == a[1..] + b;
    }
  }

  /** Polling woken streams, with the allowances of their time, leads to a state and yields these parts. */
  ghost predicate Ran(allowances: Allowances, from: nat, e: Endpoint, polled: seq<(Ref, nat)>, e': Endpoint, parts: seq<Part>) {
    Follows(e, polled) && PollAll(e, polled) == (e', parts) && Allowed(allowances, from, polled)
  }

  lemma RanNone(allowances: Allowances, from: nat, e: Endpoint)
    ensures Ran(allowances, from, e, [], e, [])
  {
  }

  lemma RanNothing(allowances: Allowances, from: nat, e: Endpoint)
    ensures Ran(allowances, from, e, [], e, Then(None, []))
  {
    RanNone(allowances, from, e);
  }

  lemma RanOne(allowances: Allowances, from: nat, e: Endpoint, k: Ref)
    requires k in e.sh.awake && k in e.streams
    ensures var (e', part) := Poll(e, k, allowances(from, k));
            Ran(allowances, from, e, [(k, allowances(from, k))], e', Then(part, []))
  {
    hide Poll, Follows, PollAll;
    PollOne(e, k, allowances(from, k));
  }

  lemma RanMore(allowances: Allowances, from: nat, e: Endpoint, a: seq<(Ref, nat)>, e1: Endpoint, p1: seq<Part>,
                b: seq<(Ref, nat)>, e2: Endpoint, p2: seq<Part>)
    requires Ran(allowances, from, e, a, e1, p1) && Ran(allowances, from + |a|, e1, b, e2, p2)
    ensures Ran(allowances, from, e, a + b, e2, p1 + p2) && |a + b| == |a| + |b|
    ensures p1 == [] ==> Ran(allowances, from, e, a + b, e2, p2)
    ensures p2 == [] ==> Ran(allowances, from, e, a + b, e2, p1)
  {
    hide Follows, PollAll, Allowed;
    assert [] + p2 == p2 && p1 + [] == p1;
    FollowsAppend(e, a, b);
    PollAllAppend(e, a, b);
    AllowedAppend(allowances, from, a, b);
  }

  /** A poll that yields nothing comes first. */
  lemma RanStep(allowances: Allowances, from: nat, e: Endpoint, k: Ref, rest: seq<(Ref, nat)>, e2: Endpoint, parts: seq<Part>)
    requires k in e.sh.awake && k in e.streams && Poll(e, k, allowances(from, k)).1.None?
    requires Ran(allowances, from + 1, Poll(e, k, allowances(from, k)).0, rest, e2, parts)
    ensures Ran(allowances, from, e, [(k, allowances(from, k))] + rest, e2, parts)
  {
    hide Ran, Poll;
    RanOne(allowances, from, e, k);
    RanMore(allowances, from, e, [(k, allowances(from, k))], Poll(e, k, allowances(from, k)).0, [], rest, e2, parts);
  }
}
