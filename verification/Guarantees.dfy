/** What one side guarantees against any peer: its wake-ups, its accounts, and the memory it uses. */
module Guarantees {
  import opened Prelude
  import opened Flow
  import opened TurnQueue
  import opened StreamId
  import opened Endpoint
  import opened Local
  import Outbound
  import Inbound
  import Wakeups
  import Pools
  import Tables

  /** The state of a side after some operations that did not fail the connection. */
  ghost predicate Reached(role: Role, cfg: Config, ops: seq<Op>, e: Endpoint, n: nat) {
    ConfigOk(cfg) && DoAll(NewEndpoint(role, cfg), 0, ops) == Ok((e, n))
  }

  /**
   * No lost wake-up. If the pool has room, the first in line is awake. A queued stream that closed is awake.
   * A stream that sleeps on data has no room in its base window. A stream whose task is gone is not queued.
   */
  lemma NoLostWakeup(role: Role, cfg: Config, ops: seq<Op>, e: Endpoint, n: nat, k: Ref)
    requires Reached(role, cfg, ops, e, n) && k in e.streams
    ensures e.sh.queue != [] && e.sh.txUsed < e.sh.txSize ==> e.sh.queue[0] in e.sh.awake
    ensures k in e.sh.queue && e.streams[k].out.state.Closed? ==> k in e.sh.awake
    ensures k in e.tasks && k !in e.sh.awake && Outbound.Waiting(e.streams[k].out) != [] ==>
              e.streams[k].out.unacked >= cfg.remoteWindow
    ensures k in e.sh.queue ==> k in e.tasks && !StreamFin(e.streams[k]).sent
    ensures Distinct(e.sh.queue)
  {
    AnyPeer(role, cfg, ops);
    assert Wakeups.TaskOk(e, k);
  }

  /**
   * The use of each pool is exactly what the streams borrow, and within the pool. No subtraction underflows.
   * Bytes that were read and not credited are counted. A stream that is closed on both sides holds nothing.
   */
  lemma PoolAccounting(role: Role, cfg: Config, ops: seq<Op>, e: Endpoint, n: nat, k: Ref)
    requires Reached(role, cfg, ops, e, n) && k in e.streams
    ensures e.sh.txUsed == Total(Pools.TxShare(e.streams, cfg.remoteWindow), n) <= cfg.remotePool
    ensures e.sh.rxUsed == Total(Pools.RxShare(e.streams, cfg.localWindow), n) <= cfg.localPool
    ensures Borrowed(e.streams[k].out.unacked, cfg.remoteWindow) <= e.sh.txUsed
    ensures Borrowed(e.streams[k].inn.unacked, cfg.localWindow) <= e.sh.rxUsed
    ensures e.streams[k].inn.credit <= e.streams[k].inn.unacked
    ensures Dead(e.streams[k]) ==> e.streams[k].out.unacked == 0 == e.streams[k].inn.unacked
  {
    hide Total;
    AnyPeer(role, cfg, ops);
    Pools.ShareFits(e, n, k);
    assert StreamOk(e.streams[k]);
  }

  // Memory.

  ghost function UnreadAt(streams: map<Ref, Stream>): Ref -> nat {
    (k: Ref) => if k in streams then |Inbound.Unread(streams[k].inn)| else 0
  }

  ghost function Live(e: Endpoint): set<Ref> {
    set k | k in e.streams && !Dead(e.streams[k])
  }

  ghost function FlatRate(refs: set<Ref>, b: nat): Ref -> nat {
    (k: Ref) => if k in refs then b else 0
  }

  lemma OneMore(n: nat, b: nat)
    ensures (n + 1) * b == n * b + b
  {
  }

  lemma {:induction false} TotalFlat(refs: set<Ref>, b: nat, n: nat)
    requires forall k | k in refs :: k < n
    ensures Total(FlatRate(refs, b), n) == |refs| * b
  {
    if n == 0 {
      assert refs == {};
    } else {
      var rest := refs - {n - 1};
      TotalFlat(rest, b, n - 1);
      TotalSame(FlatRate(refs, b), FlatRate(rest, b), n - 1);
      if n - 1 in refs {
        assert |refs| == |rest| + 1;
        OneMore(|rest|, b);
      } else {
        assert rest == refs;
      }
    }
  }

  lemma {:induction false} TotalSplit(f: Ref -> nat, g: Ref -> nat, h: Ref -> nat, n: nat)
    requires forall k: Ref | k < n :: f(k) <= g(k) + h(k)
    ensures Total(f, n) <= Total(g, n) + Total(h, n)
  {
    if n > 0 {
      TotalSplit(f, g, h, n - 1);
    }
  }

  lemma {:induction false} ValuesCount<K>(m: map<K, Ref>)
    ensures |m.Values| <= |m|
  {
    if m != map[] {
      var x :| x in m;
      var rest := m - {x};
      ValuesCount(rest);
      Tables.WithoutOne(m, x);
    }
  }

  /** A side never has more live streams than its tables hold. */
  lemma LiveCount(e: Endpoint)
    requires Tables.TableInv(e)
    ensures |Live(e)| <= |e.outbound| + |e.inbound|
  {
    hide Dead;
    var all := e.outbound.Values + e.inbound.Values;
    forall k | k in Live(e) ensures k in all {
      assert Lookup(e, e.streams[k].id) == Some(k);
    }
    Tables.SubsetCount(Live(e), all);
    ValuesCount(e.outbound);
    ValuesCount(e.inbound);
  }

  /** A stream holds its base window and what it borrows at most, and nothing once it is closed on both sides. */
  lemma UnreadBelow(s: Stream, b: nat)
    requires StreamOk(s)
    ensures |Inbound.Unread(s.inn)| <= (if Dead(s) then 0 else b) + Borrowed(s.inn.unacked, b)
  {
  }

  lemma UnreadTotal(e: Endpoint, n: nat)
    requires SideInv(e, n)
    ensures Total(UnreadAt(e.streams), n) <= |Live(e)| * e.cfg.localWindow + e.sh.rxUsed
  {
    hide Total, Wakeups.WakeInv, Tables.TableInv, StreamOk, Dead, Borrowed, Inbound.Unread;
    var flat := FlatRate(Live(e), e.cfg.localWindow);
    var rx := Pools.RxShare(e.streams, e.cfg.localWindow);
    forall k: Ref | k < n ensures UnreadAt(e.streams)(k) <= flat(k) + rx(k) {
      if k in e.streams {
        UnreadBelow(e.streams[k], e.cfg.localWindow);
      }
    }
    TotalSplit(UnreadAt(e.streams), flat, rx, n);
    TotalFlat(Live(e), e.cfg.localWindow, n);
  }

  lemma Widen(total: nat, live: nat, listed: nat, b: nat, used: nat, pool: nat)
    requires total <= live * b + used && live <= listed && used <= pool
    ensures total <= listed * b + pool
  {
    assert live * b <= listed * b;
  }

  lemma PoolWithin(e: Endpoint, n: nat)
    requires SideInv(e, n)
    ensures Tables.TableInv(e) && e.sh.rxUsed <= e.cfg.localPool
  {
    hide Total, Wakeups.WakeInv, Tables.TableInv, StreamsOk;
  }

  lemma UnreadBound(e: Endpoint, n: nat)
    requires SideInv(e, n)
    ensures Total(UnreadAt(e.streams), n) <= (|e.outbound| + |e.inbound|) * e.cfg.localWindow + e.cfg.localPool
  {
    hide *;
    PoolWithin(e, n);
    UnreadTotal(e, n);
    LiveCount(e);
    Widen(Total(UnreadAt(e.streams), n), |Live(e)|, |e.outbound| + |e.inbound|, e.cfg.localWindow, e.sh.rxUsed, e.cfg.localPool);
  }

  /**
   * The data that waits for the applications is at most a base window per live stream, and the pool. There are never more
   * live streams than the configuration permits, so this is a bound that the configuration alone determines.
   */
  lemma MemoryBound(role: Role, cfg: Config, ops: seq<Op>, e: Endpoint, n: nat)
    requires Reached(role, cfg, ops, e, n)
    ensures |Live(e)| <= |e.outbound| + |e.inbound| && |e.outbound| <= cfg.maxOutbound && |e.inbound| <= cfg.maxInbound
    ensures Total(UnreadAt(e.streams), n) <= (|e.outbound| + |e.inbound|) * cfg.localWindow + cfg.localPool
    ensures Total(UnreadAt(e.streams), n) <= (cfg.maxOutbound + cfg.maxInbound) * cfg.localWindow + cfg.localPool
  {
    hide Total, DoAll, SideInv, UnreadAt, Tables.TableInv, Live;
    AnyPeer(role, cfg, ops);
    UnreadBound(e, n);
    PoolWithin(e, n);
    LiveCount(e);
    Tables.WithinLimits(e);
    Widen(Total(UnreadAt(e.streams), n), |e.outbound| + |e.inbound|, cfg.maxOutbound + cfg.maxInbound, cfg.localWindow,
          cfg.localPool, cfg.localPool);
  }
}
